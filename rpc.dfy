/**
 * The pure side of RPCHandler: the keep marks, the dispatch in
 * `tube.onmessage`, and the bursts in which `_callRemote` sends. The
 * handler object itself lives in Peer, next to the tube it listens on.
 */
module Rpc {
  import opened Values
  import opened RpcCodec
  import opened RpcCodecProofs

  /** The function objects whose `_keep_exposed` property is set. The
      property lives on the function objects themselves, so it is shared by
      every handler. */
  class KeepMarks {
    var kept: set<FnRef>

    constructor ()
      ensures kept == {}
    {
      kept := {};
    }
  }

  /** What one incoming message leads to. */
  datatype Outcome =
    | Buffered                                   // a Blob, kept for the next call
    | NotACall                                   // the parsed value is falsy
    | UnknownFunction                            // `fn` names nothing registered: a warning
    | Invoked(target: Callable, args: seq<Value>)
    | ApplyThrew(target: Callable)               // `fn.apply` rejected the arguments; swallowed

  datatype Dispatched = Dispatched(outcome: Outcome, exposed: Registry)

  /** `_exposed_fns[call.fn]`: the key the call's `fn` is converted to. */
  function CallKey(call: Value): Option<string> {
    PropertyKey(Member(call, "fn"))
  }

  /** Whether the registered callable carries `_keep_exposed`; the bound
      bootstrap function never does. */
  predicate IsKept(c: Callable, kept: set<FnRef>) {
    c.Exposed? && c.f in kept
  }

  /** The argument list `fn.apply(null, args)` builds: none for undefined
      or null, the elements of an array, and for any other object its
      members "0" up to its `length` read as a number, NaN and negative
      lengths giving none; a primitive makes apply throw (None). */
  function ArgList(args: Value): Option<seq<Value>> {
    match args
    case Undefined => Some([])
    case Null => Some([])
    case Arr(es) => Some(es)
    case Obj(fs) =>
      var len := ToNumber(Member(args, "length"));
      var n := if len.Some? && len.value > 0 then len.value else 0;
      Some(seq(n, i => Member(args, Decimal(i))))
    case Bool(_) => None
    case Int(_) => None
    case Str(_) => None
    case _ => Some([])
  }

  /** `apply` reads `length` as a number: a length written as text gives
      the same arguments as the number, and a length that is NaN or not
      positive gives none. */
  lemma ArgListLength(fs: seq<Field>, n: int)
    ensures var args := Obj(fs);
      var expected := Some(seq(if n > 0 then n else 0, i => Member(args, Decimal(i))));
      && (Member(args, "length") == Int(n) ==> ArgList(args) == expected)
      && (Member(args, "length") == Str(Decimal(n)) ==> ArgList(args) == expected)
      && (ToNumber(Member(args, "length")).None? ==> ArgList(args) == Some([]))
  {
    DecimalReadsBack(n);
    var args := Obj(fs);
    var k := if n > 0 then n else 0;
    var len := Member(args, "length");
    if len == Int(n) || len == Str(Decimal(n)) {
      assert ToNumber(len) == Some(n);
      var r := ArgList(args).value;
      assert |r| == k && forall i | 0 <= i < k :: r[i] == Member(args, Decimal(i));
    }
  }

  /** `tube.onmessage` once deserialize has returned a value: look the
      function up, forget it unless it is kept, then apply it. */
  function Dispatch(exposed: Registry, call: Value, kept: set<FnRef>): Dispatched {
    if !Truthy(call) then Dispatched(NotACall, exposed)
    else
      var key := CallKey(call);
      if key.None? || key.value !in exposed then Dispatched(UnknownFunction, exposed)
      else
        var target := exposed[key.value];
        var left := if IsKept(target, kept) then exposed else exposed - {key.value};
        var args := ArgList(Member(call, "args"));
        if args.None? then Dispatched(ApplyThrew(target), left)
        else Dispatched(Invoked(target, args.value), left)
  }

  /** A call naming nothing registered is dropped and the registry is
      unchanged; a call naming a registered function reaches it. */
  lemma DispatchFinds(exposed: Registry, call: Value, kept: set<FnRef>)
    requires Truthy(call)
    ensures var d := Dispatch(exposed, call, kept);
      && (d.outcome.UnknownFunction? <==> CallKey(call).None? || CallKey(call).value !in exposed)
      && (d.outcome.UnknownFunction? ==> d.exposed == exposed)
      && (!d.outcome.UnknownFunction? ==>
            var key := CallKey(call).value;
            && (d.outcome.Invoked? || d.outcome.ApplyThrew?)
            && d.outcome.target == exposed[key]
            && d.exposed == if IsKept(exposed[key], kept) then exposed else exposed - {key})
  {
  }

  /** A function without `_keep_exposed` runs at most once: the same call a
      second time is dropped. A kept function stays registered and the
      same call reaches it again. */
  lemma OneShotUnlessKept(exposed: Registry, call: Value, kept: set<FnRef>)
    requires Truthy(call)
    requires CallKey(call).Some? && CallKey(call).value in exposed
    ensures var first := Dispatch(exposed, call, kept);
      var second := Dispatch(first.exposed, call, kept);
      && !first.outcome.UnknownFunction?
      && (IsKept(exposed[CallKey(call).value], kept) ==> second == first)
      && (!IsKept(exposed[CallKey(call).value], kept) ==> second.outcome.UnknownFunction?)
  {
  }

  /** The bootstrap function is not kept: on a link, only the first
      bootstrap call reaches onbootstrap; a second one is dropped. */
  lemma BootstrapOnlyOnce(exposed: Registry, args1: seq<Value>, args2: seq<Value>, kept: set<FnRef>)
    requires BootstrapId in exposed && exposed[BootstrapId] == BootstrapFn
    ensures var first := Dispatch(exposed, Envelope(Str(BootstrapId), args1), kept);
      var second := Dispatch(first.exposed, Envelope(Str(BootstrapId), args2), kept);
      && first.outcome == Invoked(BootstrapFn, args1)
      && second.outcome == UnknownFunction
      && second.exposed == exposed - {BootstrapId}
  {
    EnvelopeMembers(Str(BootstrapId), args1);
    EnvelopeMembers(Str(BootstrapId), args2);
  }

  lemma EnvelopeMembers(fn: Value, args: seq<Value>)
    ensures Member(Envelope(fn, args), "fn") == fn
    ensures Member(Envelope(fn, args), "args") == Arr(args)
  {
    var fs := [Field("fn", fn), Field("args", Arr(args))];
    assert fs[1..] == [Field("args", Arr(args))];
    assert Get(fs[1..], "args") == Some(Arr(args));
  }

  /** A call envelope with plain arguments is plain and carries no reserved
      member. */
  lemma EnvelopePlain(fn: string, args: seq<Value>)
    requires forall i | 0 <= i < |args| :: Plain(args[i]) && ReservedFree(args[i])
    ensures Plain(Envelope(Str(fn), args)) && ReservedFree(Envelope(Str(fn), args))
  {
    var fs := [Field("fn", Str(fn)), Field("args", Arr(args))];
    assert Plain(fs[1].val) && ReservedFree(fs[1].val);
    assert !IsReserved("fn") && !IsReserved("args");
  }

  /** End to end: when one side serializes v, the other side rebuilds each
      function of v as a proxy for its id. Calling that proxy with plain
      arguments serializes `{fn: id, args}` on the far side; that call,
      received against any buffer, reaches exactly the original function
      with exactly those arguments -- provided the ids drawn for v are
      distinct. */
  lemma {:induction false} ProxyReachesFunction(v: Value, exposed: Registry, next: nat, ids: IdOracle, j: nat,
                                                args: seq<Value>, farExposed: Registry, farNext: nat, farIds: IdOracle,
                                                buf: seq<BlobRef>, kept: set<FnRef>)
    requires forall a, b | next <= a < b < next + |FnsOf(v)| :: ids(a) != ids(b)
    requires next <= j < next + |FnsOf(v)|
    requires forall i | 0 <= i < |args| :: Plain(args[i]) && ReservedFree(args[i])
    ensures var registry := Serialize(v, exposed, next, ids).st.exposed;
      var call := Messages(Serialize(Envelope(Str(ids(j)), args), farExposed, farNext, farIds));
      var received := DeserializeAll(buf, call);
      && received.buf == buf
      && received.call.Some?
      && Dispatch(registry, received.call.value, kept).outcome == Invoked(Exposed(FnsOf(v)[j - next]), args)
  {
    var registry := Serialize(v, exposed, next, ids).st.exposed;
    SerializeRegisters(v, exposed, next, ids);
    assert registry[ids(j)] == Exposed(FnsOf(v)[j - next]);
    EnvelopePlain(ids(j), args);
    PlainPassesThrough(Envelope(Str(ids(j)), args), farExposed, farNext, farIds, buf);
    EnvelopeMembers(Str(ids(j)), args);
    assert CallKey(Envelope(Str(ids(j)), args)) == Some(ids(j));
  }

  // ---------------------------------------------------------------------
  // The send queue of `_callRemote`

  /** How many messages `processNext` hands to the tube in one go from the
      head of a queue: every text up to the first Blob, which must first be
      read by a FileReader. */
  function TextRun(q: seq<Message>): (n: nat)
    ensures n <= |q|
    ensures forall i | 0 <= i < n :: !q[i].Binary?
    ensures n < |q| ==> q[n].Binary?
  {
    if q == [] || q[0].Binary? then 0 else 1 + TextRun(q[1..])
  }

  /** The bursts in which one call's messages go out: with no Blob, the
      whole list at once; otherwise nothing at first, then each loaded Blob
      alone, except the last, which goes together with the text. */
  lemma CallBursts(e: Encoded)
    ensures var ms := Messages(e);
      var b := |e.st.blobs|;
      && TextRun(ms) == (if b > 0 then 0 else |ms|)
      && forall i | 0 <= i < b :: ms[i].Binary? && TextRun(ms[i + 1..]) == if i + 1 < b then 0 else |ms| - b
  {
    var ms := Messages(e);
    var b := |e.st.blobs|;
    assert |ms| - b <= 1;
    forall i | 0 <= i < b
      ensures ms[i].Binary? && TextRun(ms[i + 1..]) == if i + 1 < b then 0 else |ms| - b
    {
      if i + 1 < b {
        assert ms[i + 1..][0] == ms[i + 1];
      } else if |ms| > b {
        assert ms[i + 1..] == [ms[b]];
      } else {
        assert ms[i + 1..] == [];
      }
    }
    if b == 0 {
      if |ms| == 1 {
        assert ms[1..] == [];
      }
    }
  }
}
