/**
 * The JavaScript values that the peer-to-peer RPC layer of PeerPouch sees,
 * and the JSON trees that carry them on the wire.
 *
 * Numbers are modelled as integers; the textual form of JSON is abstracted
 * away: JSON.stringify and JSON.parse are the identity on `Json` trees.
 */
module Values {

  datatype Option<+T> = None | Some(value: T) {
    function GetOr(default: T): T {
      if Some? then value else default
    }
  }

  /** A synchronous outcome: a value, or the message of the exception thrown. */
  datatype Result<+T> = Ok(value: T) | Throws(error: string)

  /** The identity of a Blob or File object. `UndefinedText` is the Blob that
      `new Blob([undefined])` makes: its content is the text "undefined". */
  datatype BlobRef = BlobObj(id: nat) | UndefinedText

  /** The identity of a function object. */
  datatype FnRef =
    | Closure(id: nat, name: string)       // a function created by application code, and its `name`
    | DbMethod(db: string, name: string)   // method `name` of the database whose id() is `db`
    | ChangesRelay(db: string)             // the `_changes` override of the wrapped API of `db`
    | Proxy(target: Value)                 // a proxy rebuilt from a `__remote_fn` handle
    | ChangesOverride(rpcApi: Value)       // the client's local `_changes`, over the received API
    | IdGetter(remoteId: Value)            // the client's local `_id`, returning the received id

  /** A JavaScript value; `Obj` keeps its own enumerable keys in the order they
      were added (JavaScript puts integer-like keys first; see README),
      `Txn` is an IDBTransaction, the only host object the serializer recognises. */
  datatype Value =
    | Undefined
    | Null
    | Bool(b: bool)
    | Int(i: int)
    | Str(s: string)
    | Arr(elems: seq<Value>)
    | Obj(fields: seq<Field>)
    | Fn(f: FnRef)
    | Blob(blob: BlobRef)
    | Txn

  datatype Field = Field(key: string, val: Value)

  /** A JSON document as JSON.stringify writes it and JSON.parse reads it. */
  datatype Json =
    | JNull
    | JBool(b: bool)
    | JInt(i: int)
    | JStr(s: string)
    | JArr(elems: seq<Json>)
    | JObj(fields: seq<JField>)

  datatype JField = JField(key: string, val: Json)

  /** JavaScript truthiness (`if (v)`). Every object, function and Blob is truthy. */
  predicate Truthy(v: Value) {
    match v
    case Undefined => false
    case Null => false
    case Bool(b) => b
    case Int(i) => i != 0
    case Str(s) => s != ""
    case _ => true
  }

  /** Property read `o[k]` on an object with fields `fs`; None is `undefined`. */
  function Get(fs: seq<Field>, k: string): (r: Option<Value>)
  {
    if fs == [] then None
    else if fs[0].key == k then Some(fs[0].val)
    else Get(fs[1..], k)
  }

  /** A read finds a value exactly when some field has the key, and the
      value it finds is that of such a field. */
  lemma {:induction false} GetFound(fs: seq<Field>, k: string)
    ensures Get(fs, k).Some? <==> exists i :: 0 <= i < |fs| && fs[i].key == k
    ensures Get(fs, k).Some? ==> exists i :: 0 <= i < |fs| && fs[i] == Field(k, Get(fs, k).value)
    decreases fs
  {
    if fs != [] && fs[0].key != k {
      GetFound(fs[1..], k);
      assert forall i :: 0 < i < |fs| ==> fs[i] == fs[1..][i - 1];
    }
  }

  /** The `name` every function carries: what application code named it,
      "bound " for a proxy, which `deserialize` makes by binding an anonymous
      function, and "" for the anonymous functions assigned to properties. */
  function FnName(f: FnRef): string {
    match f
    case Closure(_, name) => name
    case Proxy(_) => "bound "
    case _ => ""
  }

  /** A field read `v.k` on any value: objects have their own fields, and a
      function has its `name`. */
  function Member(v: Value, k: string): Value {
    if v.Obj? then Get(v.fields, k).GetOr(Undefined)
    else if v.Fn? && k == "name" then Str(FnName(v.f))
    else Undefined
  }

  /** Decimal text of an integer, as `String(n)` writes it. */
  function Decimal(n: int): (s: string)
    ensures s != []
    decreases if n < 0 then -n + 1 else n
  {
    if n < 0 then "-" + Decimal(-n)
    else if n < 10 then [Digit(n)]
    else Decimal(n / 10) + [Digit(n % 10)]
  }

  function Digit(d: int): char
    requires 0 <= d < 10
  {
    "0123456789"[d]
  }

  /** `String(v)`, which is also the property key v is converted to when it
      indexes an object. The source text of a function and the tag of a Blob
      or IDBTransaction are not modelled (None). */
  function PropertyKey(v: Value): Option<string>
    decreases v
  {
    match v
    case Undefined => Some("undefined")
    case Null => Some("null")
    case Bool(b) => Some(if b then "true" else "false")
    case Int(i) => Some(Decimal(i))
    case Str(s) => Some(s)
    case Arr(es) => JoinKeys(es)
    case Obj(_) => Some("[object Object]")
    case _ => None
  }

  /** `Array.prototype.join(",")`: null and undefined elements are empty. */
  function JoinKeys(es: seq<Value>): Option<string>
    decreases es
  {
    if es == [] then Some("")
    else
      var h := if es[0].Undefined? || es[0].Null? then Some("") else PropertyKey(es[0]);
      if |es| == 1 then h
      else
        var t := JoinKeys(es[1..]);
        if h.Some? && t.Some? then Some(h.value + "," + t.value) else None
  }

  /** `ToNumber(v)`, as `v - 1` and `apply`'s reading of `length` apply it;
      None is NaN. Arrays and strings go through their text, every other
      object reads as NaN. */
  function ToNumber(v: Value): Option<int> {
    match v
    case Null => Some(0)
    case Bool(b) => Some(if b then 1 else 0)
    case Int(i) => Some(i)
    case Str(s) => ParseNumber(s)
    case Arr(es) => var t := JoinKeys(es); if t.Some? then ParseNumber(t.value) else None
    case _ => None
  }

  /** A string read as a number: white space around it is ignored, the
      empty string is 0, and a decimal integer may carry a sign. */
  function ParseNumber(s: string): Option<int> {
    var t := TrimEnd(TrimStart(s));
    if t == [] then Some(0)
    else if IsDigits(t) then Some(DigitsValue(t))
    else if (t[0] == '-' || t[0] == '+') && IsDigits(t[1..]) then
      var v: int := DigitsValue(t[1..]);
      Some(if t[0] == '-' then -v else v)
    else None
  }

  /** White space and line terminators, as `String.prototype.trim` knows them. */
  predicate IsSpace(c: char) {
    || c == ' ' || '\t' <= c <= '\r' || c == '\U{A0}' || c == '\U{1680}'
    || '\U{2000}' <= c <= '\U{200A}' || c == '\U{2028}' || c == '\U{2029}'
    || c == '\U{202F}' || c == '\U{205F}' || c == '\U{3000}' || c == '\U{FEFF}'
  }

  function TrimStart(s: string): string {
    if s != [] && IsSpace(s[0]) then TrimStart(s[1..]) else s
  }

  function TrimEnd(s: string): string {
    if s != [] && IsSpace(s[|s| - 1]) then TrimEnd(s[..|s| - 1]) else s
  }

  predicate IsDigits(s: string) {
    s != [] && forall i | 0 <= i < |s| :: '0' <= s[i] <= '9'
  }

  function DigitsValue(s: string): nat
    requires forall i | 0 <= i < |s| :: '0' <= s[i] <= '9'
  {
    if s == [] then 0 else DigitsValue(s[..|s| - 1]) * 10 + (s[|s| - 1] as int - '0' as int)
  }

  lemma DigitValue(d: int)
    requires 0 <= d < 10
    ensures '0' <= Digit(d) <= '9' && Digit(d) as int - '0' as int == d
  {
    if d < 5 {
      if d == 0 {} else if d == 1 {} else if d == 2 {} else if d == 3 {} else {}
    } else {
      if d == 5 {} else if d == 6 {} else if d == 7 {} else if d == 8 {} else {}
    }
  }

  /** The text of a natural number is its digits, and reads back as it. */
  lemma {:induction false} DecimalDigits(n: nat)
    ensures IsDigits(Decimal(n)) && DigitsValue(Decimal(n)) == n
    decreases n
  {
    if n < 10 {
      DigitValue(n);
      assert Decimal(n)[..0] == [];
    } else {
      DecimalDigits(n / 10);
      DigitValue(n % 10);
      var s := Decimal(n);
      assert s == Decimal(n / 10) + [Digit(n % 10)];
      assert s[..|s| - 1] == Decimal(n / 10);
    }
  }

  /** `Number(String(i)) == i`: an integer's text reads back as the integer. */
  lemma DecimalReadsBack(i: int)
    ensures ParseNumber(Decimal(i)) == Some(i)
  {
    var s := Decimal(i);
    if i < 0 {
      var d := Decimal(-i);
      DecimalDigits(-i);
      assert s == "-" + d;
      assert s[1..] == d && s[0] == '-' && s[|s| - 1] == d[|d| - 1];
    } else {
      DecimalDigits(i);
    }
    assert !IsSpace(s[0]) && !IsSpace(s[|s| - 1]);
    assert TrimStart(s) == s;
    assert TrimEnd(s) == s;
  }

  /** Property write `o[k] = v`: an existing key keeps its place. */
  function SetMember(fs: seq<Field>, k: string, v: Value): (r: seq<Field>)
    ensures Get(r, k) == Some(v)
    ensures forall k' | k' != k :: Get(r, k') == Get(fs, k')
  {
    if fs == [] then [Field(k, v)]
    else if fs[0].key == k then [Field(k, v)] + fs[1..]
    else
      var t := SetMember(fs[1..], k, v);
      assert ([fs[0]] + t)[1..] == t;
      [fs[0]] + t
  }

  /** `delete o[k]`: every field with key k goes; the others stay, in order. */
  function RemoveMember(fs: seq<Field>, k: string): (r: seq<Field>)
    ensures Get(r, k).None?
    ensures forall k' | k' != k :: Get(r, k') == Get(fs, k')
    decreases fs
  {
    if fs == [] then []
    else if fs[0].key == k then RemoveMember(fs[1..], k)
    else
      var t := RemoveMember(fs[1..], k);
      assert ([fs[0]] + t)[1..] == t;
      [fs[0]] + t
  }

  /** v could have come out of JSON storage: no function, Blob or
      IDBTransaction anywhere in it. */
  predicate JsonValue(v: Value)
    decreases v
  {
    match v
    case Arr(es) => forall i | 0 <= i < |es| :: JsonValue(es[i])
    case Obj(fs) => forall i | 0 <= i < |fs| :: JsonValue(fs[i].val)
    case Fn(_) => false
    case Blob(_) => false
    case Txn => false
    case _ => true
  }

  /** Every value read from JSON storage converts to a property key. */
  lemma {:induction false} JsonKey(v: Value)
    requires JsonValue(v)
    ensures PropertyKey(v).Some?
    decreases v
  {
    if v.Arr? {
      JsonKeys(v.elems);
    }
  }

  lemma {:induction false} JsonKeys(es: seq<Value>)
    requires forall i | 0 <= i < |es| :: JsonValue(es[i])
    ensures JoinKeys(es).Some?
    decreases es
  {
    if es != [] {
      if !(es[0].Undefined? || es[0].Null?) {
        JsonKey(es[0]);
      }
      JsonKeys(es[1..]);
    }
  }

  /** A member of a JSON object is JSON. */
  lemma JsonMember(v: Value, k: string)
    requires JsonValue(v)
    ensures JsonValue(Member(v, k))
  {
    if v.Obj? && Get(v.fields, k).Some? {
      GetFound(v.fields, k);
      var i :| 0 <= i < |v.fields| && v.fields[i] == Field(k, Get(v.fields, k).value);
    }
  }

  /** Writing a key an object does not have appends it. */
  lemma {:induction false} SetMemberNew(fs: seq<Field>, k: string, v: Value)
    requires forall i | 0 <= i < |fs| :: fs[i].key != k
    ensures SetMember(fs, k, v) == fs + [Field(k, v)]
    decreases fs
  {
    if fs != [] {
      SetMemberNew(fs[1..], k, v);
      assert fs == [fs[0]] + fs[1..];
    }
  }

  /** Writing a key an object has replaces its first occurrence in place. */
  lemma {:induction false} SetMemberReplace(fs: seq<Field>, j: nat, v: Value)
    requires j < |fs|
    requires forall i | 0 <= i < j :: fs[i].key != fs[j].key
    ensures SetMember(fs, fs[j].key, v) == fs[j := Field(fs[j].key, v)]
    decreases fs
  {
    var k := fs[j].key;
    if j == 0 {
      assert fs[j := Field(k, v)] == [Field(k, v)] + fs[1..];
    } else {
      var tail := fs[1..];
      assert tail[j - 1].key == k;
      SetMemberReplace(tail, j - 1, v);
      assert fs[0].key != k;
      assert SetMember(fs, k, v) == [fs[0]] + SetMember(tail, k, v);
      assert fs[j := Field(k, v)] == [fs[0]] + tail[j - 1 := Field(k, v)];
    }
  }

  /** A read finds the first field with the key. */
  lemma {:induction false} GetFirst(fs: seq<Field>, j: nat)
    requires j < |fs|
    requires forall i | 0 <= i < j :: fs[i].key != fs[j].key
    ensures Get(fs, fs[j].key) == Some(fs[j].val)
    decreases fs
  {
    if j > 0 {
      GetFirst(fs[1..], j - 1);
    }
  }
}
