/**
 * The PeerPouch adapter: the constructor that looks a share up by name and
 * starts a connection to it, the API object it fills in once the share
 * bootstraps the link, and the `_changes` override whose cancel() reaches
 * the remote feed whichever of the two arrives first.
 */
module Client {
  import opened Values
  import opened RpcCodec
  import opened Peer
  import opened Rpc
  import opened Watchers
  import opened HubDb
  import opened Share

  const UnknownShare: string := "Unknown PeerPouch share dbname"
  const KeysOfNothing: string := "TypeError: Object.keys called on undefined or null"
  const NotAFunction: string := "TypeError: not a function"
  const PropertyOnPrimitive: string := "TypeError: cannot create property '_keep_exposed' on a primitive"

  /** `Object.keys(v)` with the value under each key: an object's own
      members, the indexes of an array or a string; nothing for the rest. */
  function OwnEntries(v: Value): seq<Field> {
    match v
    case Obj(fs) => fs
    case Arr(es) => seq(|es|, i requires 0 <= i < |es| => Field(Decimal(i), es[i]))
    case Str(s) => seq(|s|, i requires 0 <= i < |s| => Field(Decimal(i), Str([s[i]])))
    case _ => []
  }

  /** `es.forEach(k => api[k] = rpcAPI[k])`, one entry after another. */
  function CopyInto(api: seq<Field>, es: seq<Field>): seq<Field>
    decreases es
  {
    if es == [] then api else CopyInto(SetMember(api, es[0].key, es[0].val), es[1..])
  }

  predicate DistinctKeys(es: seq<Field>) {
    forall i, j | 0 <= i < j < |es| :: es[i].key != es[j].key
  }

  /** Copying entries with distinct keys: each copied key reads as in the
      entries, every other key as before. */
  lemma {:induction false} CopyIntoGet(api: seq<Field>, es: seq<Field>, k: string)
    requires DistinctKeys(es)
    ensures Get(CopyInto(api, es), k) == if Get(es, k).Some? then Get(es, k) else Get(api, k)
    decreases es
  {
    if es != [] {
      CopyIntoGet(SetMember(api, es[0].key, es[0].val), es[1..], k);
      GetFound(es[1..], k);
    }
  }

  /** The API after bootstrap: the received members, then the local
      `_changes` override and the local `_id` function. */
  function Overridden(copied: seq<Field>, rpcApi: Value): seq<Field> {
    SetMember(SetMember(copied, "_changes", Fn(ChangesOverride(rpcApi))), "_id", Fn(IdGetter(Member(rpcApi, "_id"))))
  }

  /** The client's API offers every member the share sent, except that
      `_changes` and `_id` are the local wrappers over the received ones. */
  lemma ClientApiMembers(rpcApi: Value, k: string)
    requires rpcApi.Obj? && DistinctKeys(rpcApi.fields)
    ensures var api := Overridden(CopyInto([], OwnEntries(rpcApi)), rpcApi);
      && Get(api, "_changes") == Some(Fn(ChangesOverride(rpcApi)))
      && Get(api, "_id") == Some(Fn(IdGetter(Member(rpcApi, "_id"))))
      && (k != "_changes" && k != "_id" ==> Get(api, k) == Get(rpcApi.fields, k))
  {
    CopyIntoGet([], rpcApi.fields, k);
  }

  // ---------------------------------------------------------------------
  // The `_changes` override

  /** The closure state of one `api._changes(opts)` call: `cancelRemotely`,
      `cancelledLocally`, and the functions called to cancel remotely. */
  datatype Latch = Latch(cancelRemotely: Value, cancelledLocally: bool, called: seq<Value>)

  const Started: Latch := Latch(Null, false, [])

  /** The remote `_changes` relay calls back with the feed's cancel: it is
      called at once if cancel() already ran, kept otherwise. */
  function Arrive(l: Latch, rpcCancel: Value): Latch {
    if l.cancelledLocally then l.(called := l.called + [rpcCancel])
    else l.(cancelRemotely := rpcCancel)
  }

  /** The returned cancel(): calls the remote cancel if it has arrived,
      otherwise remembers to. */
  function Cancelled(l: Latch): Latch {
    if Truthy(l.cancelRemotely) then l.(called := l.called + [l.cancelRemotely])
    else l.(cancelledLocally := true)
  }

  function Cancels(l: Latch, n: nat): Latch
    decreases n
  {
    if n == 0 then l else Cancels(Cancelled(l), n - 1)
  }

  function Repeat(v: Value, n: nat): (s: seq<Value>)
    ensures |s| == n && forall i | 0 <= i < n :: s[i] == v
  {
    if n == 0 then [] else [v] + Repeat(v, n - 1)
  }

  lemma {:induction false} CancelsBeforeArrival(n: nat)
    ensures Cancels(Started, n) == if n == 0 then Started else Started.(cancelledLocally := true)
    decreases n
  {
    if n > 1 {
      CancelsBeforeArrival(n - 1);
      CancelsWhileWaiting(n - 1);
    }
  }

  lemma {:induction false} CancelsWhileWaiting(n: nat)
    ensures Cancels(Started.(cancelledLocally := true), n) == Started.(cancelledLocally := true)
    decreases n
  {
    if n > 0 {
      CancelsWhileWaiting(n - 1);
    }
  }

  lemma {:induction false} CancelsAfterArrival(l: Latch, n: nat)
    requires Truthy(l.cancelRemotely)
    ensures Cancels(l, n) == l.(called := l.called + Repeat(l.cancelRemotely, n))
    decreases n
  {
    if n > 0 {
      CancelsAfterArrival(Cancelled(l), n - 1);
      assert [l.cancelRemotely] + Repeat(l.cancelRemotely, n - 1) == Repeat(l.cancelRemotely, n);
    }
  }

  /** Whatever the order: cancelled `before` times before the remote cancel
      arrives and `after` times after it, the remote cancel is called once
      if any cancel came first, and once per later cancel otherwise; never
      without a cancel. */
  lemma CancelReachesRemote(rpcCancel: Value, before: nat, after: nat)
    requires Truthy(rpcCancel)
    ensures Cancels(Arrive(Cancels(Started, before), rpcCancel), after).called ==
      if before > 0 then [rpcCancel] else Repeat(rpcCancel, after)
  {
    CancelsBeforeArrival(before);
    if before > 0 {
      CancelsWhileWaiting(after);
      var l := Arrive(Cancels(Started, before), rpcCancel);
      assert l == Started.(cancelledLocally := true, called := [rpcCancel]);
      CancelsStayLocal(l, after);
    } else {
      CancelsAfterArrival(Arrive(Started, rpcCancel), after);
    }
  }

  lemma {:induction false} CancelsStayLocal(l: Latch, n: nat)
    requires l.cancelRemotely == Null && l.cancelledLocally
    ensures Cancels(l, n) == l
    decreases n
  {
    if n > 0 {
      CancelsStayLocal(l, n - 1);
    }
  }

  /** opts after `opts.onChange._keep_exposed = true`: an object onChange
      gains the member, and the call then carries it. A function onChange
      is marked kept instead (see `KeepMarks`); an array or Blob onChange
      takes the property, but JSON does not carry it. */
  function KeepExposed(opts: Value): (r: Value)
    ensures var onChange := Member(opts, "onChange");
      && (onChange.Obj? ==>
            && r.Obj? && Member(r, "onChange").Obj?
            && Member(Member(r, "onChange"), "_keep_exposed") == Bool(true)
            && (forall k | k != "_keep_exposed" :: Member(Member(r, "onChange"), k) == Member(onChange, k))
            && (forall k | k != "onChange" :: Member(r, k) == Member(opts, k)))
      && (!onChange.Obj? ==> r == opts)
  {
    var onChange := Member(opts, "onChange");
    if onChange.Obj? then
      var marked := Obj(SetMember(onChange.fields, "_keep_exposed", Bool(true)));
      Obj(SetMember(opts.fields, "onChange", marked))
    else opts
  }

  /** onChange after `delete opts.onChange._keep_exposed`: an object loses
      the member; any other value is left as it is. */
  function Unkept(onChange: Value): (r: Value)
    ensures onChange.Obj? ==>
      && r.Obj? && Member(r, "_keep_exposed") == Undefined
      && forall k | k != "_keep_exposed" :: Member(r, k) == Member(onChange, k)
    ensures !onChange.Obj? ==> r == onChange
  {
    if onChange.Obj? then Obj(RemoveMember(onChange.fields, "_keep_exposed")) else onChange
  }

  /** cancel() undoes what `_changes` wrote into an object onChange that
      had no `_keep_exposed` of its own: every member reads as before. */
  lemma KeepMarkLifted(opts: Value)
    requires Member(opts, "onChange").Obj? && Member(Member(opts, "onChange"), "_keep_exposed") == Undefined
    ensures forall k :: Member(Unkept(Member(KeepExposed(opts), "onChange")), k) == Member(Member(opts, "onChange"), k)
  {
  }

  /** What calling a value received over the link does to the handler it
      came through. A proxy goes through `_callRemote`: the call's functions
      are registered, the texts up to the first Blob are sent (a channel
      that is not open throws), and a Blob leaves the rest to a new
      FileReader. Anything else is not a function: the call throws and
      nothing changes. The receive side and the connection stay as they
      were. */
  twostate predicate ProxyCalled(rpc: RpcHandler, f: Value, args: seq<Value>, new r: Result<()>)
    reads rpc, rpc.tube.conn
  {
    && (!(f.Fn? && f.f.Proxy?) ==> r == Throws(NotAFunction) && unchanged(rpc) && unchanged(rpc.tube.conn))
    && (f.Fn? && f.f.Proxy? ==>
          var e := RpcCodec.Serialize(Envelope(f.f.target, args), old(rpc.exposed), old(rpc.next), rpc.ids);
          var ms := Messages(e);
          var n := TextRun(ms);
          && rpc.exposed == e.st.exposed && rpc.next == e.st.next
          && (r.Ok? <==> old(rpc.tube.conn.channel) == Channel(ReadyState.Open) || n == 0)
          && (r.Throws? ==> r.error == ChannelNotOpen)
          && rpc.tube.conn.sent == old(rpc.tube.conn.sent) + (if r.Ok? then ms[..n] else [])
          && rpc.reading == (if r.Ok? && n < |ms| then old(rpc.reading)[old(rpc.readers) := ms[n..]] else old(rpc.reading))
          && rpc.readers == old(rpc.readers) + (if r.Ok? && n < |ms| then 1 else 0))
    && rpc.buffer == old(rpc.buffer) && rpc.hasOnBootstrap == old(rpc.hasOnBootstrap) && rpc.bootstraps == old(rpc.bootstraps)
    && rpc.tube.conn.channel == old(rpc.tube.conn.channel) && rpc.tube.conn.jsep == old(rpc.tube.conn.jsep)
    && rpc.tube.conn.onHaveSignal == old(rpc.tube.conn.onHaveSignal) && rpc.tube.conn.receiver == old(rpc.tube.conn.receiver)
    && rpc.tube.conn.hasOnConnection == old(rpc.tube.conn.hasOnConnection)
  }

  /** Calling a value received over the link: every function among them is
      a proxy (deserialize binds `_callRemote` to the remote id), and any
      other value throws a TypeError. */
  method Invoke(rpc: RpcHandler, f: Value, args: seq<Value>) returns (r: Result<()>)
    modifies rpc, rpc.tube.conn
    ensures ProxyCalled(rpc, f, args, r)
  {
    if !(f.Fn? && f.f.Proxy?) {
      return Throws(NotAFunction);
    }
    r := rpc.CallRemote(f.f.target, args);
  }

  /** Whether a call completed or threw, whatever it returned. */
  function Completion<T>(r: Result<T>): Result<()> {
    if r.Ok? then Ok(()) else Throws(r.error)
  }

  /** The object `api._changes(opts)` returns, with its closure state. */
  class ChangesFeed {
    const rpc: RpcHandler  // the handler the remote cancel arrives through
    var onChange: Value    // opts.onChange, as `_changes` left it
    var latch: Latch

    constructor (rpc: RpcHandler, onChange: Value)
      ensures this.rpc == rpc && this.onChange == onChange && latch == Started
    {
      this.rpc := rpc;
      this.onChange := onChange;
      latch := Started;
    }

    /** The relay's callback: after a local cancel the remote cancel is
        called at once, and otherwise kept for cancel(). */
    method RelayCalledBack(rpcCancel: Value) returns (r: Result<()>)
      modifies this, rpc, rpc.tube.conn
      ensures latch == Arrive(old(latch), rpcCancel) && onChange == old(onChange)
      ensures old(latch).cancelledLocally ==> ProxyCalled(rpc, rpcCancel, [], r)
      ensures !old(latch).cancelledLocally ==> r == Ok(()) && unchanged(rpc) && unchanged(rpc.tube.conn)
    {
      if latch.cancelledLocally {
        latch := latch.(called := latch.called + [rpcCancel]);
        r := Invoke(rpc, rpcCancel, []);
      } else {
        latch := latch.(cancelRemotely := rpcCancel);
        r := Ok(());
      }
    }

    /** cancel(): calls the remote cancel if it has arrived, and otherwise
        remembers to. Only when that returns is the keep mark lifted: from
        a function onChange, and as the `_keep_exposed` member of an object
        one; a remote cancel that throws leaves the mark in place. */
    method Cancel(marks: KeepMarks) returns (r: Result<()>)
      modifies this, marks, rpc, rpc.tube.conn
      ensures latch == Cancelled(old(latch))
      ensures var f := old(latch).cancelRemotely;
        && (Truthy(f) ==> ProxyCalled(rpc, f, [], r))
        && (!Truthy(f) ==> r == Ok(()) && unchanged(rpc) && unchanged(rpc.tube.conn))
      ensures r.Ok? ==>
        && marks.kept == (if old(onChange).Fn? then old(marks.kept) - {old(onChange).f} else old(marks.kept))
        && onChange == Unkept(old(onChange))
      ensures r.Throws? ==> marks.kept == old(marks.kept) && onChange == old(onChange)
    {
      var f := latch.cancelRemotely;
      if Truthy(f) {
        latch := latch.(called := latch.called + [f]);
        r := Invoke(rpc, f, []);
        if r.Throws? {
          return;
        }
      } else {
        latch := latch.(cancelledLocally := true);
        r := Ok(());
      }
      if Truthy(onChange) && onChange.Fn? {
        marks.kept := marks.kept - {onChange.f};
      }
      onChange := Unkept(onChange);
    }
  }

  // ---------------------------------------------------------------------
  // The adapter object

  /** What `new PeerPouch(opts, callback)` sets up. */
  class PeerPouch {
    const requester: Requester
    const hasCallback: bool        // typeof callback === 'function'
    var api: seq<Field>            // the object returned, filled in at bootstrap
    var rpc: RpcHandler?
    var remoteApi: Option<Value>   // `d.api` of the bootstrap call
    var readyCalls: nat            // how often callback(null, api) ran
    var closures: nat              // relay callbacks created so far

    constructor (requester: Requester, hasCallback: bool)
      ensures this.requester == requester && this.hasCallback == hasCallback
      ensures api == [] && rpc == null && remoteApi == None && readyCalls == 0 && closures == 0
    {
      this.requester := requester;
      this.hasCallback := hasCallback;
      api := [];
      rpc := null;
      remoteApi := None;
      readyCalls := 0;
      closures := 0;
    }

    /** The handler's onconnection: an RPC handler on a new tube, waiting
        for the share's bootstrap. */
    method OnConnection(ids: IdOracle)
      modifies this, requester.conn
      ensures rpc != null && fresh(rpc) && fresh(rpc.tube)
      ensures rpc.tube.conn == requester.conn && requester.conn.receiver == rpc.tube && rpc.tube.handler == rpc
      ensures rpc.exposed == map[BootstrapId := BootstrapFn] && rpc.buffer == [] && rpc.next == 0
      ensures rpc.hasOnBootstrap && rpc.bootstraps == [] && rpc.ids == ids
      ensures rpc.reading == map[] && rpc.readers == 0
      ensures requester.conn.channel == old(requester.conn.channel) && requester.conn.jsep == old(requester.conn.jsep)
      ensures requester.conn.sent == old(requester.conn.sent)
      ensures requester.conn.onHaveSignal == old(requester.conn.onHaveSignal)
      ensures requester.conn.hasOnConnection == old(requester.conn.hasOnConnection)
      ensures api == old(api) && remoteApi == old(remoteApi) && readyCalls == old(readyCalls) && closures == old(closures)
    {
      var tube := requester.conn.MakeTube();
      var handler := new RpcHandler(tube, ids);
      handler.hasOnBootstrap := true;
      rpc := handler;
    }

    /** onbootstrap(d): every member of `d.api` is copied into the API,
        `_changes` and `_id` are replaced by local wrappers, and the
        callback, if a function, receives the API. */
    method OnBootstrap(args: seq<Value>) returns (r: Result<bool>)
      modifies this
      ensures var d := if |args| > 0 then args[0] else Undefined;
        var rpcApi := Member(d, "api");
        && (d.Undefined? || d.Null? ==> r == Throws(MemberOfNothing) && api == old(api) && remoteApi == old(remoteApi) && readyCalls == old(readyCalls))
        && (!(d.Undefined? || d.Null?) && (rpcApi.Undefined? || rpcApi.Null?) ==>
              r == Throws(KeysOfNothing) && api == old(api) && remoteApi == old(remoteApi) && readyCalls == old(readyCalls))
        && (!(d.Undefined? || d.Null?) && !(rpcApi.Undefined? || rpcApi.Null?) ==>
              && r == Ok(hasCallback)
              && api == Overridden(CopyInto(old(api), OwnEntries(rpcApi)), rpcApi)
              && remoteApi == Some(rpcApi)
              && readyCalls == old(readyCalls) + if hasCallback then 1 else 0)
      ensures rpc == old(rpc) && closures == old(closures)
    {
      var d := if |args| > 0 then args[0] else Undefined;
      if d.Undefined? || d.Null? {
        return Throws(MemberOfNothing);
      }
      var rpcApi := Member(d, "api");
      if rpcApi.Undefined? || rpcApi.Null? {
        return Throws(KeysOfNothing);
      }
      var keys := OwnEntries(rpcApi);
      var i := 0;
      while i < |keys|
        invariant 0 <= i <= |keys|
        invariant CopyInto(api, keys[i..]) == CopyInto(old(api), keys)
        invariant rpc == old(rpc) && closures == old(closures)
        invariant remoteApi == old(remoteApi) && readyCalls == old(readyCalls)
      {
        assert keys[i..][1..] == keys[i + 1..];
        api := SetMember(api, keys[i].key, keys[i].val);
        i := i + 1;
      }
      api := Overridden(api, rpcApi);
      remoteApi := Some(rpcApi);
      if hasCallback {
        readyCalls := readyCalls + 1;
      }
      r := Ok(hasCallback);
    }

    /** `api._changes(opts)`: a function onChange is marked to stay exposed,
        an object one gets a `_keep_exposed` member, the remote `_changes`
        is called with opts so updated and a relay callback, and the feed
        with its cancel() is returned. */
    method Changes(opts: Value, marks: KeepMarks) returns (r: Result<ChangesFeed>)
      requires remoteApi.Some? && rpc != null
      modifies this, marks, rpc, rpc.tube.conn
      ensures rpc == old(rpc) && remoteApi == old(remoteApi) && api == old(api) && readyCalls == old(readyCalls)
      ensures var onChange := Member(opts, "onChange");
        var relay := Member(remoteApi.value, "_changes");
        && (opts.Undefined? || opts.Null? ==>
              r == Throws(MemberOfNothing) && closures == old(closures)
              && unchanged(marks) && unchanged(rpc) && unchanged(rpc.tube.conn))
        && (!(opts.Undefined? || opts.Null?) && Truthy(onChange) && !IsObject(onChange) ==>
              r == Throws(PropertyOnPrimitive) && closures == old(closures)
              && unchanged(marks) && unchanged(rpc) && unchanged(rpc.tube.conn))
        && (!(opts.Undefined? || opts.Null?) && (!Truthy(onChange) || IsObject(onChange)) ==>
              && marks.kept == old(marks.kept) + (if onChange.Fn? then {onChange.f} else {})
              && closures == old(closures) + 1
              && ProxyCalled(rpc, relay, [KeepExposed(opts), Fn(Closure(old(closures), ""))], Completion(r))
              && (r.Ok? ==> fresh(r.value) && r.value.rpc == rpc && r.value.onChange == Member(KeepExposed(opts), "onChange")
                            && r.value.latch == Started))
    {
      if opts.Undefined? || opts.Null? {
        return Throws(MemberOfNothing);
      }
      var onChange := Member(opts, "onChange");
      if Truthy(onChange) {
        if !IsObject(onChange) {
          return Throws(PropertyOnPrimitive);
        }
        if onChange.Fn? {
          marks.kept := marks.kept + {onChange.f};
        }
      }
      r := CallRelay(KeepExposed(opts));
    }

    /** The call of the remote `_changes` with the updated options and a
        new relay callback, and the feed that `_changes` returns. */
    method CallRelay(sent: Value) returns (r: Result<ChangesFeed>)
      requires remoteApi.Some? && rpc != null
      modifies this, rpc, rpc.tube.conn
      ensures rpc == old(rpc) && remoteApi == old(remoteApi) && api == old(api) && readyCalls == old(readyCalls)
      ensures closures == old(closures) + 1
      ensures ProxyCalled(rpc, Member(remoteApi.value, "_changes"), [sent, Fn(Closure(old(closures), ""))], Completion(r))
      ensures r.Ok? ==> fresh(r.value) && r.value.rpc == rpc && r.value.onChange == Member(sent, "onChange") && r.value.latch == Started
    {
      var relayCallback := Closure(closures, "");
      closures := closures + 1;
      var called := Invoke(rpc, Member(remoteApi.value, "_changes"), [sent, Fn(relayCallback)]);
      if called.Throws? {
        r := Throws(called.error);
        assert Completion(r) == called;
        return;
      }
      var done: () := called.value;
      assert done == ();
      var feed := new ChangesFeed(rpc, Member(sent, "onChange"));
      r := Ok(feed);
      assert Completion(r) == called;
    }
  }

  /** Objects and functions take properties; primitives do not. */
  predicate IsObject(v: Value) {
    v.Arr? || v.Obj? || v.Fn? || v.Blob? || v.Txn?
  }

  /** `new PeerPouch(opts, callback)`: the share initializer registered
      under `opts.name` starts the connection; an unknown name throws. */
  method Open(directory: Directory, opts: Value, callback: Value, uuid: string) returns (r: Result<PeerPouch>)
    modifies directory.Owners()
    ensures opts.Undefined? || opts.Null? ==>
      r == Throws(MemberOfNothing) && forall o | o in directory.Owners() :: unchanged(o)
    ensures !(opts.Undefined? || opts.Null?) ==>
      var key := PropertyKey(Member(opts, "name"));
      && (key.None? || key.value !in directory.byName ==>
            r == Throws(UnknownShare) && forall o | o in directory.Owners() :: unchanged(o))
      && (key.Some? && key.value in directory.byName ==>
            var init := directory.byName[key.value];
            var owner := init.owner;
            && r.Ok? && fresh(r.value) && fresh(r.value.requester) && fresh(r.value.requester.conn)
            && var c := r.value;
            && c.requester.shareId == init.shareId && c.requester.client == "peer-" + uuid
            && c.requester.hub == owner.hub
            && c.requester.conn.initiate && c.requester.conn.hasOnConnection
            && c.requester.conn.jsep == Fresh && c.requester.conn.channel == Channel(Connecting)
            && c.requester.conn.onHaveSignal == Some(SignalRoute(owner.hub, "p-signal-", c.requester.client, init.shareId, Member(opts, "info")))
            && c.requester.watcher == Watcher(SignalType, Callback(old(owner.callbacks)))
            && c.hasCallback == callback.Fn?
            && c.api == [] && c.rpc == null && c.remoteApi == None
            && owner.MuxState() == Add(old(owner.MuxState()), SignalType, Callback(old(owner.callbacks)))
            && owner.callbacks == old(owner.callbacks) + 1
            && owner.sharesByRemoteId == old(owner.sharesByRemoteId) && owner.sharesByLocalId == old(owner.sharesByLocalId)
            && forall o | o in directory.Owners() && o != owner :: unchanged(o))
  {
    if opts.Undefined? || opts.Null? {
      return Throws(MemberOfNothing);
    }
    var key := PropertyKey(Member(opts, "name"));
    if key.None? || key.value !in directory.byName {
      return Throws(UnknownShare);
    }
    var init := directory.byName[key.value];
    var requester := init.owner.Connect(init.shareId, opts, uuid);
    var c := new PeerPouch(requester, callback.Fn?);
    requester.conn.hasOnConnection := true;
    r := Ok(c);
  }
}
