/**
 * What the RPC encoding promises: the state threaded through the walk, the
 * list of Blobs it collects, the functions it registers, and the round trip
 * from serialize on one side to deserialize on the other.
 */
module RpcCodecProofs {
  import opened Values
  import opened RpcCodec

  // ---------------------------------------------------------------------
  // Folds over occurrence lists

  lemma {:induction false} AddNewAppend(acc: seq<BlobRef>, a: seq<BlobRef>, b: seq<BlobRef>)
    ensures AddNew(acc, a + b) == AddNew(AddNew(acc, a), b)
    decreases a
  {
    if a == [] {
      assert a + b == b;
    } else {
      assert (a + b)[0] == a[0] && (a + b)[1..] == a[1..] + b;
      AddNewAppend(if a[0] in acc then acc else acc + [a[0]], a[1..], b);
    }
  }

  /** AddNew keeps acc as a prefix, adds no duplicate and loses nothing. */
  lemma {:induction false} AddNewSpec(acc: seq<BlobRef>, s: seq<BlobRef>)
    requires NoDup(acc)
    ensures acc <= AddNew(acc, s)
    ensures NoDup(AddNew(acc, s))
    ensures forall b :: b in AddNew(acc, s) <==> b in acc || b in s
    decreases s
  {
    if s != [] {
      var acc' := if s[0] in acc then acc else acc + [s[0]];
      assert NoDup(acc');
      AddNewSpec(acc', s[1..]);
      assert forall b :: b in s <==> b == s[0] || b in s[1..];
    }
  }

  lemma {:induction false} RegisterAllAppend(m: Registry, n: nat, a: seq<FnRef>, b: seq<FnRef>, ids: IdOracle)
    ensures RegisterAll(m, n, a + b, ids) == RegisterAll(RegisterAll(m, n, a, ids), n + |a|, b, ids)
    decreases a
  {
    if a == [] {
      assert a + b == b;
    } else {
      assert (a + b)[0] == a[0] && (a + b)[1..] == a[1..] + b;
      RegisterAllAppend(m[ids(n) := Exposed(a[0])], n + 1, a[1..], b, ids);
    }
  }

  /** With distinct ids, the k-th function is found under the k-th id drawn. */
  lemma {:induction false} RegisteredAt(m: Registry, n: nat, fs: seq<FnRef>, ids: IdOracle, k: nat)
    requires k < |fs|
    requires forall a, b | n <= a < b < n + |fs| :: ids(a) != ids(b)
    ensures ids(n + k) in RegisterAll(m, n, fs, ids)
    ensures RegisterAll(m, n, fs, ids)[ids(n + k)] == Exposed(fs[k])
    decreases fs
  {
    var m' := m[ids(n) := Exposed(fs[0])];
    if k == 0 {
      NotRegistered(m', n + 1, fs[1..], ids, ids(n));
    } else {
      RegisteredAt(m', n + 1, fs[1..], ids, k - 1);
    }
  }

  /** An entry whose key is none of the ids drawn survives registration. */
  lemma {:induction false} NotRegistered(m: Registry, n: nat, fs: seq<FnRef>, ids: IdOracle, key: string)
    requires key in m
    requires forall j | n <= j < n + |fs| :: ids(j) != key
    ensures key in RegisterAll(m, n, fs, ids)
    ensures RegisterAll(m, n, fs, ids)[key] == m[key]
    decreases fs
  {
    if fs != [] {
      NotRegistered(m[ids(n) := Exposed(fs[0])], n + 1, fs[1..], ids, key);
    }
  }

  // ---------------------------------------------------------------------
  // The state the walk threads

  /** The walk collects the Blobs of v in first-encounter order, registers the
      functions of v in pre-order under consecutive ids, and draws one id per
      function. */
  lemma {:induction false} EncodeThreads(v: Value, st: EncState, ids: IdOracle)
    ensures Encode(v, st, ids).st ==
      EncState(AddNew(st.blobs, BlobsOf(v)), RegisterAll(st.exposed, st.next, FnsOf(v), ids), st.next + |FnsOf(v)|)
    decreases v
  {
    match v
    case Arr(es) => EncodeElemsThreads(es, st, ids);
    case Obj(fs) => EncodeFieldsThreads(fs, st, ids);
    case _ =>
  }

  lemma {:induction false} EncodeElemsThreads(es: seq<Value>, st: EncState, ids: IdOracle)
    ensures EncodeElems(es, st, ids).st ==
      EncState(AddNew(st.blobs, BlobsOfElems(es)), RegisterAll(st.exposed, st.next, FnsOfElems(es), ids),
               st.next + |FnsOfElems(es)|)
    decreases es
  {
    if es != [] {
      var h := Encode(es[0], st, ids);
      EncodeThreads(es[0], st, ids);
      EncodeElemsThreads(es[1..], h.st, ids);
      AddNewAppend(st.blobs, BlobsOf(es[0]), BlobsOfElems(es[1..]));
      RegisterAllAppend(st.exposed, st.next, FnsOf(es[0]), FnsOfElems(es[1..]), ids);
    }
  }

  lemma {:induction false} EncodeFieldsThreads(fs: seq<Field>, st: EncState, ids: IdOracle)
    ensures EncodeFields(fs, st, ids).st ==
      EncState(AddNew(st.blobs, BlobsOfFields(fs)), RegisterAll(st.exposed, st.next, FnsOfFields(fs), ids),
               st.next + |FnsOfFields(fs)|)
    decreases fs
  {
    if fs != [] {
      var h := Encode(fs[0].val, st, ids);
      EncodeThreads(fs[0].val, st, ids);
      EncodeFieldsThreads(fs[1..], h.st, ids);
      AddNewAppend(st.blobs, BlobsOf(fs[0].val), BlobsOfFields(fs[1..]));
      RegisterAllAppend(st.exposed, st.next, FnsOf(fs[0].val), FnsOfFields(fs[1..]), ids);
    }
  }

  /** The Blobs collected so far stay where they are. */
  lemma EncodeExtends(v: Value, st: EncState, ids: IdOracle)
    requires NoDup(st.blobs)
    ensures st.blobs <= Encode(v, st, ids).st.blobs
    ensures NoDup(Encode(v, st, ids).st.blobs)
  {
    EncodeThreads(v, st, ids);
    AddNewSpec(st.blobs, BlobsOf(v));
  }

  lemma EncodeElemsExtends(es: seq<Value>, st: EncState, ids: IdOracle)
    requires NoDup(st.blobs)
    ensures st.blobs <= EncodeElems(es, st, ids).st.blobs
    ensures NoDup(EncodeElems(es, st, ids).st.blobs)
  {
    EncodeElemsThreads(es, st, ids);
    AddNewSpec(st.blobs, BlobsOfElems(es));
  }

  lemma EncodeFieldsExtends(fs: seq<Field>, st: EncState, ids: IdOracle)
    requires NoDup(st.blobs)
    ensures st.blobs <= EncodeFields(fs, st, ids).st.blobs
    ensures NoDup(EncodeFields(fs, st, ids).st.blobs)
  {
    EncodeFieldsThreads(fs, st, ids);
    AddNewSpec(st.blobs, BlobsOfFields(fs));
  }

  // ---------------------------------------------------------------------
  // What serialize returns

  /** serialize lists each distinct Blob of v exactly once, in first-encounter
      order, then the one JSON text (unless the root itself is dropped). */
  lemma SerializeBlobs(v: Value, exposed: Registry, next: nat, ids: IdOracle)
    ensures Serialize(v, exposed, next, ids).st.blobs == AddNew([], BlobsOf(v))
    ensures NoDup(Serialize(v, exposed, next, ids).st.blobs)
    ensures forall b :: b in Serialize(v, exposed, next, ids).st.blobs <==> b in BlobsOf(v)
    ensures Serialize(v, exposed, next, ids).json.Some? <==> !(v.Txn? || v.Undefined?)
  {
    EncodeThreads(v, EncState([], exposed, next), ids);
    AddNewSpec([], BlobsOf(v));
  }

  /** serialize stores every function of v, in pre-order, under the ids it
      draws; when those ids are distinct each one is found again afterwards,
      and every other entry of the registry is kept. */
  lemma SerializeRegisters(v: Value, exposed: Registry, next: nat, ids: IdOracle)
    requires forall a, b | next <= a < b < next + |FnsOf(v)| :: ids(a) != ids(b)
    ensures Serialize(v, exposed, next, ids).st.next == next + |FnsOf(v)|
    ensures forall j | next <= j < next + |FnsOf(v)| ::
      ids(j) in Serialize(v, exposed, next, ids).st.exposed &&
      Serialize(v, exposed, next, ids).st.exposed[ids(j)] == Exposed(FnsOf(v)[j - next])
    ensures forall key | key in exposed && (forall j | next <= j < next + |FnsOf(v)| :: ids(j) != key) ::
      key in Serialize(v, exposed, next, ids).st.exposed &&
      Serialize(v, exposed, next, ids).st.exposed[key] == exposed[key]
  {
    var fs := FnsOf(v);
    EncodeThreads(v, EncState([], exposed, next), ids);
    assert Serialize(v, exposed, next, ids).st.exposed == RegisterAll(exposed, next, fs, ids);
    forall j | next <= j < next + |fs|
      ensures ids(j) in RegisterAll(exposed, next, fs, ids)
      ensures RegisterAll(exposed, next, fs, ids)[ids(j)] == Exposed(fs[j - next])
    {
      RegisteredAt(exposed, next, fs, ids, j - next);
    }
    forall key | key in exposed && (forall j | next <= j < next + |fs| :: ids(j) != key)
      ensures key in RegisterAll(exposed, next, fs, ids)
      ensures RegisterAll(exposed, next, fs, ids)[key] == exposed[key]
    {
      NotRegistered(exposed, next, fs, ids, key);
    }
  }

  /** No drawn id can be `__BOOTSTRAP__`, so serializing never replaces the
      bootstrap entry. */
  lemma SerializeKeepsBootstrap(v: Value, exposed: Registry, next: nat, ids: IdOracle)
    requires BootstrapId in exposed
    ensures BootstrapId in Serialize(v, exposed, next, ids).st.exposed
    ensures Serialize(v, exposed, next, ids).st.exposed[BootstrapId] == exposed[BootstrapId]
  {
    assert !IsFnId(BootstrapId) by { assert BootstrapId[0] == '_'; }
    EncodeThreads(v, EncState([], exposed, next), ids);
    NotRegistered(exposed, next, FnsOf(v), ids, BootstrapId);
  }

  /** Ids are not checked for collision: a drawn id equal to a live entry
      replaces that entry with the new function. */
  lemma SerializeOverwritesOnCollision(f: FnRef, exposed: Registry, next: nat, ids: IdOracle)
    requires ids(next) in exposed && exposed[ids(next)] != Exposed(f)
    ensures Serialize(Fn(f), exposed, next, ids).st.exposed[ids(next)] == Exposed(f)
    ensures Serialize(Fn(f), exposed, next, ids).st.exposed[ids(next)] != exposed[ids(next)]
  {
  }

  // ---------------------------------------------------------------------
  // Round trip

  /** A reserved member left in a field list by Transported is falsy. */
  lemma {:induction false} TransportedFieldsReserved(fs: seq<Field>, next: nat, ids: IdOracle)
    requires forall i | 0 <= i < |fs| :: IsReserved(fs[i].key) ==> !Truthy(fs[i].val) || fs[i].val.Txn?
    ensures forall i | 0 <= i < |TransportedFields(fs, next, ids).fields| ::
      IsReserved(TransportedFields(fs, next, ids).fields[i].key) ==>
      !Truthy(TransportedFields(fs, next, ids).fields[i].val)
    decreases fs
  {
    if fs != [] {
      var h := Transported(fs[0].val, next, ids);
      TransportedFieldsReserved(fs[1..], h.next, ids);
      var t := TransportedFields(fs[1..], h.next, ids);
      var head := if h.val.Some? then [Field(fs[0].key, h.val.value)] else [];
      assert TransportedFields(fs, next, ids).fields == head + t.fields;
      forall i | 0 <= i < |head + t.fields| && IsReserved((head + t.fields)[i].key)
        ensures !Truthy((head + t.fields)[i].val)
      {
        if i >= |head| {
          assert (head + t.fields)[i] == t.fields[i - |head|];
        }
      }
    }
  }

  /** An object whose reserved members are all falsy is revived as itself. */
  lemma ReviveOrdinaryObject(fs: seq<Field>, buf: seq<BlobRef>)
    requires forall i | 0 <= i < |fs| :: IsReserved(fs[i].key) ==> !Truthy(fs[i].val)
    ensures ReviveObject(fs, buf) == Obj(fs)
  {
    var handle := Get(fs, RemoteFnKey);
    GetFound(fs, RemoteFnKey);
    if handle.Some? {
      var i :| 0 <= i < |fs| && fs[i] == Field(RemoteFnKey, handle.value);
    }
    var index := Get(fs, BlobKey);
    GetFound(fs, BlobKey);
    if index.Some? {
      var i :| 0 <= i < |fs| && fs[i] == Field(BlobKey, index.value);
    }
  }

  /** Deserializing the text of v against any buffer that begins with the
      Blobs serialize collected rebuilds Transported(v): functions become
      proxies for their ids, Blob references resolve to the right Blob. */
  lemma {:induction false} RoundTrip(v: Value, st: EncState, ids: IdOracle, buf: seq<BlobRef>)
    requires ReservedFree(v)
    requires NoDup(st.blobs)
    requires Encode(v, st, ids).st.blobs <= buf
    ensures Encode(v, st, ids).json.Some? <==> Transported(v, st.next, ids).val.Some?
    ensures Encode(v, st, ids).st.next == Transported(v, st.next, ids).next
    ensures Encode(v, st, ids).json.Some? ==>
      Revive(Encode(v, st, ids).json.value, buf) == Transported(v, st.next, ids).val.value
    decreases v
  {
    match v
    case Fn(f) => RoundTripFn(f, st, ids, buf);
    case Blob(b) => RoundTripBlob(b, st, ids, buf);
    case Arr(es) =>
      RoundTripElems(es, st, ids, buf);
    case Obj(fs) =>
      RoundTripFields(fs, st, ids, buf);
      TransportedFieldsReserved(fs, st.next, ids);
      ReviveOrdinaryObject(TransportedFields(fs, st.next, ids).fields, buf);
    case _ =>
  }

  /** A function handle revives to a proxy for the id it was given. */
  lemma RoundTripFn(f: FnRef, st: EncState, ids: IdOracle, buf: seq<BlobRef>)
    ensures Encode(Fn(f), st, ids).json.Some?
    ensures Revive(Encode(Fn(f), st, ids).json.value, buf) == Fn(Proxy(Str(ids(st.next))))
  {
    var id := ids(st.next);
    var jfs := [JField(RemoteFnKey, JStr(id))];
    assert jfs[1..] == [];
    assert ReviveFields(jfs[1..], buf) == [];
    var fs := ReviveFields(jfs, buf);
    assert fs == [Field(jfs[0].key, Revive(jfs[0].val, buf))] + ReviveFields(jfs[1..], buf);
    assert fs == [Field(RemoteFnKey, Str(id))];
    assert Truthy(Str(id)) by { assert |id| == 20; }
  }

  /** A Blob reference revives to the Blob at its position, as long as the
      buffer begins with the Blobs collected so far. */
  lemma RoundTripBlob(b: BlobRef, st: EncState, ids: IdOracle, buf: seq<BlobRef>)
    requires Encode(Blob(b), st, ids).st.blobs <= buf
    ensures Encode(Blob(b), st, ids).json.Some?
    ensures Revive(Encode(Blob(b), st, ids).json.value, buf) == Blob(b)
  {
    var blobs := if b in st.blobs then st.blobs else st.blobs + [b];
    var n := IndexOf(blobs, b) + 1;
    assert Encode(Blob(b), st, ids).json == Some(JObj([JField(BlobKey, JInt(n))]));
    assert buf[n - 1] == blobs[n - 1];
    ReviveBlobRef(n, buf);
  }


  lemma {:induction false} RoundTripElems(es: seq<Value>, st: EncState, ids: IdOracle, buf: seq<BlobRef>)
    requires forall i | 0 <= i < |es| :: ReservedFree(es[i])
    requires NoDup(st.blobs)
    requires EncodeElems(es, st, ids).st.blobs <= buf
    ensures EncodeElems(es, st, ids).st.next == TransportedElems(es, st.next, ids).next
    ensures ReviveElems(EncodeElems(es, st, ids).elems, buf) == TransportedElems(es, st.next, ids).elems
    decreases es
  {
    if es != [] {
      var h := Encode(es[0], st, ids);
      EncodeExtends(es[0], st, ids);
      EncodeElemsExtends(es[1..], h.st, ids);
      var t := EncodeElems(es[1..], h.st, ids);
      RoundTripElems(es[1..], h.st, ids, buf);
      RoundTrip(es[0], st, ids, buf);
      var js := [h.json.GetOr(JNull)] + t.elems;
      assert js[0] == h.json.GetOr(JNull) && js[1..] == t.elems;
    }
  }

  lemma {:induction false} RoundTripFields(fs: seq<Field>, st: EncState, ids: IdOracle, buf: seq<BlobRef>)
    requires forall i | 0 <= i < |fs| :: ReservedFree(fs[i].val)
    requires NoDup(st.blobs)
    requires EncodeFields(fs, st, ids).st.blobs <= buf
    ensures EncodeFields(fs, st, ids).st.next == TransportedFields(fs, st.next, ids).next
    ensures ReviveFields(EncodeFields(fs, st, ids).fields, buf) == TransportedFields(fs, st.next, ids).fields
    decreases fs
  {
    if fs != [] {
      var h := Encode(fs[0].val, st, ids);
      EncodeExtends(fs[0].val, st, ids);
      EncodeFieldsExtends(fs[1..], h.st, ids);
      var t := EncodeFields(fs[1..], h.st, ids);
      RoundTripFields(fs[1..], h.st, ids, buf);
      RoundTrip(fs[0].val, st, ids, buf);
      if h.json.Some? {
        var js := [JField(fs[0].key, h.json.value)] + t.fields;
        assert js[0] == JField(fs[0].key, h.json.value) && js[1..] == t.fields;
      } else {
        assert [] + t.fields == t.fields;
      }
    }
  }

  // ---------------------------------------------------------------------
  // On the wire

  /** Binary messages only fill the buffer. */
  lemma {:induction false} DeserializeBinaries(buf: seq<BlobRef>, bs: seq<BlobRef>, rest: seq<Message>)
    ensures DeserializeAll(buf, BinaryUnits(bs) + rest).buf == DeserializeAll(buf + bs, rest).buf
    ensures DeserializeAll(buf, BinaryUnits(bs) + rest).call == DeserializeAll(buf + bs, rest).call
    decreases bs
  {
    if bs == [] {
      assert BinaryUnits(bs) + rest == rest;
      assert buf + bs == buf;
    } else {
      var ms := BinaryUnits(bs) + rest;
      assert ms[0] == Binary(bs[0]);
      assert ms[1..] == BinaryUnits(bs[1..]) + rest;
      DeserializeBinaries(buf + [bs[0]], bs[1..], rest);
      assert buf + [bs[0]] + bs[1..] == buf + bs;
    }
  }

  /** Deserializing what serialize returned, against a buffer that already
      holds prior, buffers the new Blobs after prior and revives the text
      against prior followed by those Blobs. */
  lemma DeserializeMessages(prior: seq<BlobRef>, e: Encoded)
    ensures DeserializeAll(prior, Messages(e)).buf == prior + e.st.blobs
    ensures DeserializeAll(prior, Messages(e)).call ==
      if e.json.Some? then Some(Revive(e.json.value, prior + e.st.blobs)) else None
  {
    var tail := if e.json.Some? then [Text(e.json.value)] else [];
    DeserializeBinaries(prior, e.st.blobs, tail);
    if e.json.Some? {
      assert tail[1..] == [];
    }
  }

  /** Round trip: feeding serialize's messages, in order, to a receiver with
      an empty buffer rebuilds Transported(v) -- each Blob reference resolves
      to its Blob, each function handle becomes a proxy for its id -- provided
      no object of v carries a truthy `__remote_fn` or `__blob` member. */
  lemma WireRoundTrip(v: Value, exposed: Registry, next: nat, ids: IdOracle)
    requires ReservedFree(v)
    requires !(v.Txn? || v.Undefined?)
    ensures DeserializeAll([], Messages(Serialize(v, exposed, next, ids))).buf == Serialize(v, exposed, next, ids).st.blobs
    ensures DeserializeAll([], Messages(Serialize(v, exposed, next, ids))).call == Transported(v, next, ids).val
    ensures Transported(v, next, ids).val.Some?
  {
    var e := Serialize(v, exposed, next, ids);
    DeserializeMessages([], e);
    assert [] + e.st.blobs == e.st.blobs;
    EncodeExtends(v, EncState([], exposed, next), ids);
    RoundTrip(v, EncState([], exposed, next), ids, e.st.blobs);
  }

  /** Deserializing two runs of messages one after the other. */
  lemma {:induction false} DeserializeAppend(buf: seq<BlobRef>, m1: seq<Message>, m2: seq<Message>)
    ensures DeserializeAll(buf, m1 + m2).buf == DeserializeAll(DeserializeAll(buf, m1).buf, m2).buf
    ensures DeserializeAll(buf, m1 + m2).call ==
      var second := DeserializeAll(DeserializeAll(buf, m1).buf, m2);
      if second.call.Some? then second.call else DeserializeAll(buf, m1).call
    decreases |m1|
  {
    if m1 == [] {
      assert m1 + m2 == m2;
    } else {
      assert (m1 + m2)[1..] == m1[1..] + m2;
      DeserializeAppend(Deserialize(buf, m1[0]).buf, m1[1..], m2);
    }
  }

  /** The text `{"__blob": 1}`. */
  const FirstBlobRef: Json := JObj([JField(BlobKey, JInt(1))])

  /** serialize(b) for a single Blob b: the Blob, then `{"__blob": 1}`. */
  lemma OneBlobMessages(b: BlobRef, ids: IdOracle)
    ensures Messages(Serialize(Blob(b), map[], 0, ids)) == [Binary(b), Text(FirstBlobRef)]
  {
    assert IndexOf([b], b) == 0;
    assert Serialize(Blob(b), map[], 0, ids) == Encoded(Some(FirstBlobRef), EncState([b], map[], 0));
    assert BinaryUnits([b]) == [Binary(b)];
  }

  /** `{"__blob": n}` revives to the n-th Blob of the buffer. */
  lemma ReviveBlobRef(n: int, buf: seq<BlobRef>)
    requires 1 <= n <= |buf|
    ensures Revive(JObj([JField(BlobKey, JInt(n))]), buf) == Blob(buf[n - 1])
  {
    var jfs := [JField(BlobKey, JInt(n))];
    assert jfs[1..] == [];
    assert ReviveFields(jfs[1..], buf) == [];
    var fs := [Field(BlobKey, Int(n))];
    assert ReviveFields(jfs, buf) == fs;
    assert fs[1..] == [];
    assert Get(fs, RemoteFnKey) == None;
    assert Get(fs, BlobKey) == Some(Int(n));
  }

  /** `__blob` is converted to a number before it indexes the buffer: the
      text of n, and the one-element array [n], find the n-th Blob as n
      does, and any index outside 1..|buf| reads as the Blob of "undefined". */
  lemma ConvertedBlobIndex(n: int, buf: seq<BlobRef>)
    ensures var expected := if 1 <= n <= |buf| then buf[n - 1] else UndefinedText;
      && BufferedBlob(buf, Int(n)) == expected
      && BufferedBlob(buf, Str(Decimal(n))) == expected
      && BufferedBlob(buf, Arr([Int(n)])) == expected
  {
    DecimalReadsBack(n);
    assert JoinKeys([Int(n)]) == Some(Decimal(n));
  }

  /** A peer that writes `{"__blob": "n"}` gets the n-th Blob, as with `{"__blob": n}`. */
  lemma ReviveTextBlobRef(n: int, buf: seq<BlobRef>)
    requires 1 <= n <= |buf|
    ensures Revive(JObj([JField(BlobKey, JStr(Decimal(n)))]), buf) == Blob(buf[n - 1])
  {
    var jfs := [JField(BlobKey, JStr(Decimal(n)))];
    assert jfs[1..] == [];
    assert ReviveFields(jfs[1..], buf) == [];
    var fs := [Field(BlobKey, Str(Decimal(n)))];
    assert ReviveFields(jfs, buf) == fs;
    assert fs[1..] == [];
    assert Get(fs, RemoteFnKey) == None;
    assert Get(fs, BlobKey) == Some(Str(Decimal(n)));
    ConvertedBlobIndex(n, buf);
  }

  /** Receiving a Blob and then `{"__blob": 1}`: the Blob is buffered and
      the reference resolves to the first Blob of the whole buffer. */
  lemma ReceiveOneBlob(buf: seq<BlobRef>, b: BlobRef)
    ensures DeserializeAll(buf, [Binary(b), Text(FirstBlobRef)]) == Received(buf + [b], Some(Blob((buf + [b])[0])))
  {
    var ms := [Binary(b), Text(FirstBlobRef)];
    assert ms[1..] == [Text(FirstBlobRef)] && ms[1..][1..] == [];
    ReviveBlobRef(1, buf + [b]);
    assert DeserializeAll(buf + [b], ms[1..]) == Received(buf + [b], Some(Blob((buf + [b])[0])));
  }

  /** The receive buffer is never cleared. A value that is one Blob goes out
      as that Blob and the text `{"__blob": 1}`; the receiver buffers the
      Blob but resolves the reference against the whole buffer, so when
      Blob a has been sent before Blob b, b's reference comes back as a. */
  lemma StaleReceiveBuffer(ids: IdOracle, a: BlobRef, b: BlobRef)
    ensures Transported(Blob(b), 0, ids).val == Some(Blob(b))
    ensures DeserializeAll([], Messages(Serialize(Blob(b), map[], 0, ids))).call == Some(Blob(b))
    ensures DeserializeAll([], Messages(Serialize(Blob(a), map[], 0, ids)) + Messages(Serialize(Blob(b), map[], 0, ids))).call
      == Some(Blob(a))
  {
    OneBlobMessages(a, ids);
    OneBlobMessages(b, ids);
    ReceiveOneBlob([], b);
    ReceiveOneBlob([], a);
    ReceiveOneBlob([a], b);
    DeserializeAppend([], [Binary(a), Text(FirstBlobRef)], [Binary(b), Text(FirstBlobRef)]);
  }


  lemma {:induction false} PlainTransported(v: Value, next: nat, ids: IdOracle)
    requires Plain(v)
    ensures Transported(v, next, ids) == Image(Some(v), next)
    ensures BlobsOf(v) == [] && FnsOf(v) == []
    decreases v
  {
    match v
    case Arr(es) => PlainTransportedElems(es, next, ids);
    case Obj(fs) => PlainTransportedFields(fs, next, ids);
    case _ =>
  }

  lemma {:induction false} PlainTransportedElems(es: seq<Value>, next: nat, ids: IdOracle)
    requires forall i | 0 <= i < |es| :: Plain(es[i])
    ensures TransportedElems(es, next, ids) == ImageElems(es, next)
    ensures BlobsOfElems(es) == [] && FnsOfElems(es) == []
    decreases es
  {
    if es != [] {
      PlainTransported(es[0], next, ids);
      PlainTransportedElems(es[1..], next, ids);
      assert [es[0]] + es[1..] == es;
    }
  }

  lemma {:induction false} PlainTransportedFields(fs: seq<Field>, next: nat, ids: IdOracle)
    requires forall i | 0 <= i < |fs| :: Plain(fs[i].val)
    ensures TransportedFields(fs, next, ids) == ImageFields(fs, next)
    ensures BlobsOfFields(fs) == [] && FnsOfFields(fs) == []
    decreases fs
  {
    if fs != [] {
      PlainTransported(fs[0].val, next, ids);
      PlainTransportedFields(fs[1..], next, ids);
      assert [Field(fs[0].key, fs[0].val)] + fs[1..] == fs;
    }
  }

  /** A value with no function, Blob, IDBTransaction or undefined in it
      crosses the link unchanged, with no Blob message and no registration,
      whatever the receive buffer already holds. */
  lemma PlainPassesThrough(v: Value, exposed: Registry, next: nat, ids: IdOracle, buf: seq<BlobRef>)
    requires Plain(v) && ReservedFree(v)
    ensures Serialize(v, exposed, next, ids).st == EncState([], exposed, next)
    ensures Messages(Serialize(v, exposed, next, ids)) == [Text(Serialize(v, exposed, next, ids).json.value)]
    ensures DeserializeAll(buf, Messages(Serialize(v, exposed, next, ids))).buf == buf
    ensures DeserializeAll(buf, Messages(Serialize(v, exposed, next, ids))).call == Some(v)
  {
    var e := Serialize(v, exposed, next, ids);
    PlainTransported(v, next, ids);
    EncodeThreads(v, EncState([], exposed, next), ids);
    assert e.st.blobs == [];
    DeserializeMessages(buf, e);
    assert buf + [] == buf;
    RoundTrip(v, EncState([], exposed, next), ids, buf);
  }
}
