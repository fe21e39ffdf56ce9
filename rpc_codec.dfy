/**
 * The RPC wire encoding of PeerPouch (RPCHandler.serialize / deserialize in
 * pouch.webrtc.js), as pure functions over values.
 *
 * `Encode` is JSON.stringify with the serializer's replacer: a depth-first,
 * pre-order walk that visits object keys in order and threads the list of
 * Blobs collected for this call, the registry of exposed functions and the
 * position in the fresh-id supply. `Revive` is JSON.parse with the
 * deserializer's reviver, which works bottom-up against the receive buffer.
 */
module RpcCodec {
  import opened Values

  const RemoteFnKey: string := "__remote_fn"
  const BlobKey: string := "__blob"
  const BootstrapId: string := "__BOOTSTRAP__"

  /** `Math.random().toFixed(20).slice(2)`: twenty decimal digits. */
  predicate IsFnId(s: string) {
    |s| == 20 && forall i | 0 <= i < |s| :: '0' <= s[i] <= '9'
  }
  type FnId = s: string | IsFnId(s) witness "00000000000000000000"

  /** The source of fresh function ids; the n-th id the serializer draws is ids(n). */
  type IdOracle = nat -> FnId

  /** What `_exposed_fns` maps an id to. */
  datatype Callable = BootstrapFn | Exposed(f: FnRef)
  type Registry = map<string, Callable>

  /** One unit put on the data channel. */
  datatype Message = Binary(blob: BlobRef) | Text(json: Json)

  datatype EncState = EncState(blobs: seq<BlobRef>, exposed: Registry, next: nat)
  datatype Encoded = Encoded(json: Option<Json>, st: EncState)
  datatype EncodedElems = EncodedElems(elems: seq<Json>, st: EncState)
  datatype EncodedFields = EncodedFields(fields: seq<JField>, st: EncState)

  /** `messages.indexOf(b)`, for a b that is there. */
  function IndexOf(s: seq<BlobRef>, b: BlobRef): (i: nat)
    requires b in s
    ensures i < |s| && s[i] == b && b !in s[..i]
  {
    if s[0] == b then 0
    else
      var j := IndexOf(s[1..], b);
      assert s[..j + 1] == [s[0]] + s[1..][..j];
      j + 1
  }

  /** The replacer applied to one value, then JSON serialization of what it
      returned; None is `undefined` (dropped by the enclosing array or object). */
  function Encode(v: Value, st: EncState, ids: IdOracle): Encoded
    decreases v
  {
    match v
    case Fn(f) =>
      var id := ids(st.next);
      Encoded(Some(JObj([JField(RemoteFnKey, JStr(id))])),
              st.(exposed := st.exposed[id := Exposed(f)], next := st.next + 1))
    case Txn => Encoded(None, st)
    case Blob(b) =>
      var blobs := if b in st.blobs then st.blobs else st.blobs + [b];
      Encoded(Some(JObj([JField(BlobKey, JInt(IndexOf(blobs, b) + 1))])), st.(blobs := blobs))
    case Undefined => Encoded(None, st)
    case Null => Encoded(Some(JNull), st)
    case Bool(b) => Encoded(Some(JBool(b)), st)
    case Int(i) => Encoded(Some(JInt(i)), st)
    case Str(s) => Encoded(Some(JStr(s)), st)
    case Arr(es) =>
      var r := EncodeElems(es, st, ids);
      Encoded(Some(JArr(r.elems)), r.st)
    case Obj(fs) =>
      var r := EncodeFields(fs, st, ids);
      Encoded(Some(JObj(r.fields)), r.st)
  }

  /** Array elements: a dropped element is written as null. */
  function EncodeElems(es: seq<Value>, st: EncState, ids: IdOracle): EncodedElems
    decreases es
  {
    if es == [] then EncodedElems([], st)
    else
      var h := Encode(es[0], st, ids);
      var t := EncodeElems(es[1..], h.st, ids);
      EncodedElems([h.json.GetOr(JNull)] + t.elems, t.st)
  }

  /** Object fields: a dropped field is omitted. */
  function EncodeFields(fs: seq<Field>, st: EncState, ids: IdOracle): EncodedFields
    decreases fs
  {
    if fs == [] then EncodedFields([], st)
    else
      var h := Encode(fs[0].val, st, ids);
      var t := EncodeFields(fs[1..], h.st, ids);
      var head := if h.json.Some? then [JField(fs[0].key, h.json.value)] else [];
      EncodedFields(head + t.fields, t.st)
  }

  /** The text message and the Blob messages that serialize returns. */
  function Serialize(v: Value, exposed: Registry, next: nat, ids: IdOracle): Encoded {
    Encode(v, EncState([], exposed, next), ids)
  }

  /** The list serialize returns: the Blobs collected, then the JSON text
      (JSON.stringify of a dropped root is `undefined`, which `_callRemote`
      stops at, so it is left out of the list). */
  function Messages(e: Encoded): (ms: seq<Message>)
    ensures |ms| == |e.st.blobs| + (if e.json.Some? then 1 else 0)
    ensures forall i | 0 <= i < |e.st.blobs| :: ms[i] == Binary(e.st.blobs[i])
    ensures e.json.Some? ==> ms[|ms| - 1] == Text(e.json.value)
  {
    BinaryUnits(e.st.blobs) + (if e.json.Some? then [Text(e.json.value)] else [])
  }

  function BinaryUnits(bs: seq<BlobRef>): (ms: seq<Message>)
    ensures |ms| == |bs|
    ensures forall i | 0 <= i < |bs| :: ms[i] == Binary(bs[i])
  {
    if bs == [] then [] else [Binary(bs[0])] + BinaryUnits(bs[1..])
  }

  // ---------------------------------------------------------------------
  // Decoding

  /** `blobsForNextCall[v.__blob - 1]`, wrapped by `new Blob([b])` when that
      slot is not a Blob: `__blob` is converted to a number, so `"2"` and
      `[2]` index like 2; NaN, a negative index or one past the end of the
      buffer reads `undefined`, and the result is the Blob of the text
      "undefined". */
  function BufferedBlob(buf: seq<BlobRef>, n: Value): BlobRef {
    var pos := ToNumber(n);
    if pos.Some? && 0 <= pos.value - 1 < |buf| then buf[pos.value - 1] else UndefinedText
  }

  /** JSON.parse with the reviver: children are revived before their parent. */
  function Revive(j: Json, buf: seq<BlobRef>): Value
    decreases j
  {
    match j
    case JNull => Null
    case JBool(b) => Bool(b)
    case JInt(i) => Int(i)
    case JStr(s) => Str(s)
    case JArr(es) => Arr(ReviveElems(es, buf))
    case JObj(fs) => ReviveObject(ReviveFields(fs, buf), buf)
  }

  function ReviveElems(es: seq<Json>, buf: seq<BlobRef>): (r: seq<Value>)
    ensures |r| == |es|
    decreases es
  {
    if es == [] then [] else [Revive(es[0], buf)] + ReviveElems(es[1..], buf)
  }

  function ReviveFields(fs: seq<JField>, buf: seq<BlobRef>): (r: seq<Field>)
    ensures |r| == |fs|
    decreases fs
  {
    if fs == [] then [] else [Field(fs[0].key, Revive(fs[0].val, buf))] + ReviveFields(fs[1..], buf)
  }

  /** The reviver on an object whose members are already revived. */
  function ReviveObject(fs: seq<Field>, buf: seq<BlobRef>): Value {
    var handle := Get(fs, RemoteFnKey);
    var index := Get(fs, BlobKey);
    if handle.Some? && Truthy(handle.value) then Fn(Proxy(handle.value))
    else if index.Some? && Truthy(index.value) then Blob(BufferedBlob(buf, index.value))
    else Obj(fs)
  }

  /** `deserialize(data)` against the receive buffer `buf`: a Blob is appended
      to the buffer and yields `undefined`; a text is parsed and leaves the
      buffer as it is. */
  datatype Received = Received(buf: seq<BlobRef>, call: Option<Value>)

  function Deserialize(buf: seq<BlobRef>, m: Message): Received {
    match m
    case Binary(b) => Received(buf + [b], None)
    case Text(j) => Received(buf, Some(Revive(j, buf)))
  }

  /** Deserialize a list of messages in order; `call` is the last text's value. */
  function DeserializeAll(buf: seq<BlobRef>, ms: seq<Message>): Received
    decreases |ms|
  {
    if ms == [] then Received(buf, None)
    else
      var r := Deserialize(buf, ms[0]);
      var rest := DeserializeAll(r.buf, ms[1..]);
      Received(rest.buf, if rest.call.Some? then rest.call else r.call)
  }

  // ---------------------------------------------------------------------
  // What a call tree looks like on the far side

  datatype Image = Image(val: Option<Value>, next: nat)
  datatype ImageElems = ImageElems(elems: seq<Value>, next: nat)
  datatype ImageFields = ImageFields(fields: seq<Field>, next: nat)

  /** The value the receiver should rebuild from v: each function becomes a
      proxy for the id drawn for it (in pre-order), Blobs arrive as
      themselves, IDBTransaction and undefined are dropped (null inside an
      array, omitted inside an object), everything else is unchanged. */
  function Transported(v: Value, next: nat, ids: IdOracle): Image
    decreases v
  {
    match v
    case Fn(_) => Image(Some(Fn(Proxy(Str(ids(next))))), next + 1)
    case Txn => Image(None, next)
    case Undefined => Image(None, next)
    case Arr(es) =>
      var r := TransportedElems(es, next, ids);
      Image(Some(Arr(r.elems)), r.next)
    case Obj(fs) =>
      var r := TransportedFields(fs, next, ids);
      Image(Some(Obj(r.fields)), r.next)
    case _ => Image(Some(v), next)
  }

  function TransportedElems(es: seq<Value>, next: nat, ids: IdOracle): ImageElems
    decreases es
  {
    if es == [] then ImageElems([], next)
    else
      var h := Transported(es[0], next, ids);
      var t := TransportedElems(es[1..], h.next, ids);
      ImageElems([h.val.GetOr(Null)] + t.elems, t.next)
  }

  function TransportedFields(fs: seq<Field>, next: nat, ids: IdOracle): ImageFields
    decreases fs
  {
    if fs == [] then ImageFields([], next)
    else
      var h := Transported(fs[0].val, next, ids);
      var t := TransportedFields(fs[1..], h.next, ids);
      var head := if h.val.Some? then [Field(fs[0].key, h.val.value)] else [];
      ImageFields(head + t.fields, t.next)
  }

  predicate IsReserved(k: string) {
    k == RemoteFnKey || k == BlobKey
  }

  /** No object inside v carries a `__remote_fn` or `__blob` member whose
      value would still be truthy on the far side. */
  predicate ReservedFree(v: Value)
    decreases v
  {
    match v
    case Arr(es) => forall i | 0 <= i < |es| :: ReservedFree(es[i])
    case Obj(fs) =>
      forall i | 0 <= i < |fs| ::
        ReservedFree(fs[i].val) && (IsReserved(fs[i].key) ==> !Truthy(fs[i].val) || fs[i].val.Txn?)
    case _ => true
  }

  /** v holds no function, Blob, IDBTransaction or undefined anywhere. */
  predicate Plain(v: Value)
    decreases v
  {
    match v
    case Arr(es) => forall i | 0 <= i < |es| :: Plain(es[i])
    case Obj(fs) => forall i | 0 <= i < |fs| :: Plain(fs[i].val)
    case Fn(_) => false
    case Blob(_) => false
    case Txn => false
    case Undefined => false
    case _ => true
  }

  // ---------------------------------------------------------------------
  // Occurrences in pre-order, and the state the walk threads

  function BlobsOf(v: Value): seq<BlobRef>
    decreases v
  {
    match v
    case Blob(b) => [b]
    case Arr(es) => BlobsOfElems(es)
    case Obj(fs) => BlobsOfFields(fs)
    case _ => []
  }

  function BlobsOfElems(es: seq<Value>): seq<BlobRef>
    decreases es
  {
    if es == [] then [] else BlobsOf(es[0]) + BlobsOfElems(es[1..])
  }

  function BlobsOfFields(fs: seq<Field>): seq<BlobRef>
    decreases fs
  {
    if fs == [] then [] else BlobsOf(fs[0].val) + BlobsOfFields(fs[1..])
  }

  function FnsOf(v: Value): seq<FnRef>
    decreases v
  {
    match v
    case Fn(f) => [f]
    case Arr(es) => FnsOfElems(es)
    case Obj(fs) => FnsOfFields(fs)
    case _ => []
  }

  function FnsOfElems(es: seq<Value>): seq<FnRef>
    decreases es
  {
    if es == [] then [] else FnsOf(es[0]) + FnsOfElems(es[1..])
  }

  function FnsOfFields(fs: seq<Field>): seq<FnRef>
    decreases fs
  {
    if fs == [] then [] else FnsOf(fs[0].val) + FnsOfFields(fs[1..])
  }

  /** acc, then each element of s not seen before, in first-encounter order. */
  function AddNew(acc: seq<BlobRef>, s: seq<BlobRef>): seq<BlobRef>
    decreases s
  {
    if s == [] then acc
    else AddNew(if s[0] in acc then acc else acc + [s[0]], s[1..])
  }

  /** Register fs[0], fs[1], ... under ids(n), ids(n + 1), ..., overwriting. */
  function RegisterAll(m: Registry, n: nat, fs: seq<FnRef>, ids: IdOracle): Registry
    decreases fs
  {
    if fs == [] then m
    else RegisterAll(m[ids(n) := Exposed(fs[0])], n + 1, fs[1..], ids)
  }

  predicate NoDup(s: seq<BlobRef>) {
    forall i, j | 0 <= i < j < |s| :: s[i] != s[j]
  }

  /** The call envelope `{fn: fn, args: args}` that `_callRemote` serializes. */
  function Envelope(fn: Value, args: seq<Value>): Value {
    Obj([Field("fn", fn), Field("args", Arr(args))])
  }
}
