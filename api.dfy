/**
 * What a shared database offers its peers: the wrapped API that
 * `PeerPouch._wrappedAPI` builds, the two errors the plugin adds to
 * Pouch.Errors, and `PeerPouch.destroy`.
 */
module Api {
  import opened Values
  import opened RpcCodec
  import opened Rpc

  datatype PouchError = PouchError(status: int, error: string, reason: string)

  const NotImplemented: PouchError := PouchError(501, "not_implemented", "Unable to fulfill the request")
  const Forbidden: PouchError := PouchError(403, "forbidden", "The request was refused")

  /** The adapter methods pouch.adapter.js looks for, in the order they are copied. */
  const Methods: seq<string> :=
    ["bulkDocs", "_getRevisionTree", "_doCompaction", "_get", "_getAttachment",
     "_allDocs", "_changes", "_close", "_info", "_id"]

  /** A local database, as the wrapped API sees it: its `id()` and which of
      the adapter methods it has. */
  datatype Database = Database(id: string, has: set<string>)

  /** `db[k]`: the database's method, or undefined. */
  function MethodOf(db: Database, k: string): Value {
    if k in db.has then Fn(DbMethod(db.id, k)) else Undefined
  }

  /** The positions of `_changes` and `_id` among the adapter methods. */
  const ChangesAt: nat := 6
  const IdAt: nat := 9

  /** What the wrapped API holds at position i of the adapter methods: the
      database's own method, except the `_changes` relay that hands the
      feed's cancel back through a callback, and the database id in place
      of the `_id` method. */
  function WrappedMember(db: Database, i: nat): Value
    requires i < |Methods|
  {
    if i == ChangesAt then Fn(ChangesRelay(db.id))
    else if i == IdAt then Str(db.id)
    else MethodOf(db, Methods[i])
  }

  /** The function objects that building the wrapped API marks
      `_keep_exposed`: every method the database has (including the
      `_changes` and `_id` methods that are then replaced) and the relay. */
  function WrappedKeeps(db: Database): set<FnRef> {
    (set k | k in Methods && k in db.has :: DbMethod(db.id, k)) + {ChangesRelay(db.id)}
  }

  /** `PeerPouch._wrappedAPI(db)`: one member per adapter method, in order;
      every function in it is marked to stay exposed. */
  method WrapApi(db: Database, marks: KeepMarks) returns (api: Value)
    modifies marks
    ensures api == WrappedApi(db)
    ensures marks.kept == old(marks.kept) + WrappedKeeps(db)
  {
    MethodsDistinct();
    var fields := CopyMethods(db, Methods, marks);
    KeepsUpToAll(db, Methods);
    FinishWrappedApi(db);
    fields := SetMember(fields, "_changes", Fn(ChangesRelay(db.id)));
    marks.kept := marks.kept + {ChangesRelay(db.id)};
    fields := SetMember(fields, "_id", Str(db.id));
    api := Obj(fields);
  }

  predicate Distinct(names: seq<string>) {
    forall i, j | 0 <= i < j < |names| :: names[i] != names[j]
  }

  lemma MethodsDistinct()
    ensures Distinct(Methods)
  {
  }

  /** The `methods.forEach` loop of `_wrappedAPI`: each method name is
      copied from the database, and marked kept when the database has it. */
  method CopyMethods(db: Database, names: seq<string>, marks: KeepMarks) returns (fields: seq<Field>)
    requires Distinct(names)
    modifies marks
    ensures fields == CopiedMethods(db, names, |names|)
    ensures marks.kept == old(marks.kept) + KeepsUpTo(db, names, |names|)
  {
    fields := [];
    var i := 0;
    while i < |names|
      invariant 0 <= i <= |names|
      invariant fields == CopiedMethods(db, names, i)
      invariant marks.kept == old(marks.kept) + KeepsUpTo(db, names, i)
    {
      var k := names[i];
      var m := MethodOf(db, k);
      CopyStep(db, names, i);
      KeepStep(db, names, i);
      fields := SetMember(fields, k, m);
      if Truthy(m) {
        marks.kept := marks.kept + {m.f};
      }
      i := i + 1;
    }
  }

  /** The members copied for the first n names. */
  function CopiedMethods(db: Database, names: seq<string>, n: nat): (fs: seq<Field>)
    requires n <= |names|
    ensures |fs| == n
    ensures forall j | 0 <= j < n :: fs[j] == Field(names[j], MethodOf(db, names[j]))
  {
    if n == 0 then [] else CopiedMethods(db, names, n - 1) + [Field(names[n - 1], MethodOf(db, names[n - 1]))]
  }

  /** The methods among the first n names that get their keep mark. */
  function KeepsUpTo(db: Database, names: seq<string>, n: nat): set<FnRef>
    requires n <= |names|
  {
    if n == 0 then {}
    else KeepsUpTo(db, names, n - 1) + if names[n - 1] in db.has then {DbMethod(db.id, names[n - 1])} else {}
  }

  /** One step of the copy: the name is new, so it is appended. */
  lemma CopyStep(db: Database, names: seq<string>, n: nat)
    requires Distinct(names) && n < |names|
    ensures SetMember(CopiedMethods(db, names, n), names[n], MethodOf(db, names[n])) == CopiedMethods(db, names, n + 1)
  {
    var fs := CopiedMethods(db, names, n);
    assert forall j | 0 <= j < n :: fs[j].key != names[n];
    SetMemberNew(fs, names[n], MethodOf(db, names[n]));
  }

  /** One step of the marking: a method the database has gets its mark. */
  lemma KeepStep(db: Database, names: seq<string>, n: nat)
    requires n < |names|
    ensures KeepsUpTo(db, names, n + 1) ==
      KeepsUpTo(db, names, n) + if Truthy(MethodOf(db, names[n])) then {MethodOf(db, names[n]).f} else {}
  {
  }

  lemma KeepsUpToAll(db: Database, names: seq<string>)
    ensures KeepsUpTo(db, names, |names|) == (set k | k in names && k in db.has :: DbMethod(db.id, k))
  {
    var all := set k | k in names && k in db.has :: DbMethod(db.id, k);
    forall f | f in all
      ensures f in KeepsUpTo(db, names, |names|)
    {
      var k :| k in names && k in db.has && f == DbMethod(db.id, k);
      var i :| 0 <= i < |names| && names[i] == k;
      KeepsUpToHas(db, names, i, |names|);
    }
    KeepsUpToWithin(db, names, |names|);
  }

  lemma {:induction false} KeepsUpToHas(db: Database, names: seq<string>, i: nat, n: nat)
    requires i < n <= |names| && names[i] in db.has
    ensures DbMethod(db.id, names[i]) in KeepsUpTo(db, names, n)
    decreases n
  {
    if i < n - 1 {
      KeepsUpToHas(db, names, i, n - 1);
    }
  }

  lemma {:induction false} KeepsUpToWithin(db: Database, names: seq<string>, n: nat)
    requires n <= |names|
    ensures forall f | f in KeepsUpTo(db, names, n) :: exists i :: 0 <= i < n && names[i] in db.has && f == DbMethod(db.id, names[i])
    decreases n
  {
    if n > 0 {
      KeepsUpToWithin(db, names, n - 1);
    }
  }

  /** The two overrides replace `_changes` and `_id` in place. */
  lemma FinishWrappedApi(db: Database)
    ensures var fs := CopiedMethods(db, Methods, |Methods|);
      SetMember(SetMember(fs, "_changes", Fn(ChangesRelay(db.id))), "_id", Str(db.id)) == WrappedApi(db).fields
  {
    MethodsDistinct();
    var fs := CopiedMethods(db, Methods, |Methods|);
    var fs' := fs[ChangesAt := Field("_changes", Fn(ChangesRelay(db.id)))];
    KeyOverridden(fs, ChangesAt, "_changes", Fn(ChangesRelay(db.id)));
    KeyOverridden(fs', IdAt, "_id", Str(db.id));
    OverridesAreWrapped(db);
  }

  /** Writing the key at position j, when no earlier key equals it, replaces
      that position. */
  lemma KeyOverridden(fs: seq<Field>, j: nat, k: string, v: Value)
    requires j < |fs| && fs[j].key == k
    requires forall i | 0 <= i < j :: fs[i].key != k
    ensures SetMember(fs, k, v) == fs[j := Field(k, v)]
  {
    SetMemberReplace(fs, j, v);
  }

  lemma OverridesAreWrapped(db: Database)
    ensures CopiedMethods(db, Methods, |Methods|)[ChangesAt := Field("_changes", Fn(ChangesRelay(db.id)))][IdAt := Field("_id", Str(db.id))]
      == WrappedApi(db).fields
  {
    var r := CopiedMethods(db, Methods, |Methods|)[ChangesAt := Field("_changes", Fn(ChangesRelay(db.id)))][IdAt := Field("_id", Str(db.id))];
    assert Methods[ChangesAt] == "_changes" && Methods[IdAt] == "_id";
    assert forall i | 0 <= i < |Methods| :: r[i] == WrappedApi(db).fields[i];
  }

  /** The wrapped API as a value: the object WrapApi returns. */
  function WrappedApi(db: Database): Value {
    Obj(seq(|Methods|, i requires 0 <= i < |Methods| => Field(Methods[i], WrappedMember(db, i))))
  }

  /** Every function the wrapped API exposes is marked kept, so a peer may
      call each method any number of times. */
  lemma WrappedFunctionsKept(db: Database)
    ensures forall f | f in FnsOf(WrappedApi(db)) :: f in WrappedKeeps(db)
  {
    var fs := WrappedApi(db).fields;
    forall f | f in FnsOfFields(fs)
      ensures f in WrappedKeeps(db)
    {
      var i := FlatFnIndex(fs, f);
      assert fs[i].val == WrappedMember(db, i);
      if i != ChangesAt {
        assert Methods[i] in Methods && Methods[i] in db.has && f == DbMethod(db.id, Methods[i]);
      }
    }
  }

  /** The wrapped API carries no reserved member, so it crosses the link
      intact, and its `_id` is the shared database's id. */
  lemma WrappedApiPlainKeys(db: Database)
    ensures ReservedFree(WrappedApi(db))
    ensures Member(WrappedApi(db), "_id") == Str(db.id)
  {
    var fs := WrappedApi(db).fields;
    assert forall i | 0 <= i < |fs| :: !IsReserved(fs[i].key);
    MethodsDistinct();
    assert forall i | 0 <= i < IdAt :: fs[i].key != fs[IdAt].key;
    GetFirst(fs, IdAt);
  }

  /** Where a function of a flat object comes from. */
  lemma {:induction false} FlatFnIndex(fs: seq<Field>, f: FnRef) returns (i: nat)
    requires forall j | 0 <= j < |fs| :: fs[j].val.Fn? || fs[j].val.Undefined? || fs[j].val.Str?
    requires f in FnsOfFields(fs)
    ensures i < |fs| && fs[i].val == Fn(f)
    decreases fs
  {
    if fs[0].val.Fn? && fs[0].val.f == f {
      i := 0;
    } else {
      var j := FlatFnIndex(fs[1..], f);
      i := j + 1;
    }
  }

  /** `PeerPouch.destroy(name, callback)`: a peer may not destroy a shared
      database; a callback, when given, later receives FORBIDDEN. */
  function Destroy(callback: Value): (r: Option<PouchError>)
    ensures r.Some? <==> Truthy(callback)
    ensures r.Some? ==> r.value.status == 403 && r.value.error == "forbidden"
  {
    if Truthy(callback) then Some(Forbidden) else None
  }
}
