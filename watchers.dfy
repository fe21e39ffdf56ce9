/**
 * The change-feed watcher multiplexer of SharePouch (addWatcher and
 * removeWatcher in pouch.webrtc.js): one `hub.changes` listener shared by
 * every watcher, started through `hub.info` and fanned out by doc type.
 *
 * `Mux` is the multiplexer's state; `Add`, `Remove`, `InfoArrived` and
 * `Deliver` are its transitions, written as the source performs them.
 */
module Watchers {
  import opened Values

  /** The identity of a callback function handed to addWatcher. */
  datatype Callback = Callback(id: nat)

  /** The handle addWatcher returns; its cancel() is Remove(wtype, cb). */
  datatype Watcher = Watcher(wtype: string, cb: Callback)

  /** `changesListener`: null, the placeholder whose cancel() sets the
      cancel flag of a pending hub.info request, or the object hub.changes
      returned. */
  datatype Listener = NoListener | Pending(request: nat) | Active(feed: nat)

  datatype Mux = Mux(
    count: int,                          // watcherCount
    byType: map<string, seq<Callback>>,  // watchersByType
    listener: Listener,                  // changesListener
    requests: nat,                       // hub.info requests made
    answered: set<nat>,                  // requests whose callback has run
    cancelledRequests: set<nat>,         // requests whose cancelListen flag is set
    feeds: nat,                          // hub.changes feeds opened
    cancelledFeeds: set<nat>)            // feeds cancelled

  const Initial: Mux := Mux(0, map[], NoListener, 0, {}, {}, 0, {})

  /** `addWatcher(type, cb)`. For a type not seen before, cb is pushed onto
      a throw-away array while a second, empty array is stored, so cb is
      never stored. The count rises in every case, and a listener is
      started when none exists. */
  function Add(m: Mux, t: string, cb: Callback): Mux {
    var stored := if t in m.byType then m.byType[t] + [cb] else [];
    var m1 := m.(byType := m.byType[t := stored], count := m.count + 1);
    if m1.count > 0 && m1.listener.NoListener? then
      m1.(listener := Pending(m1.requests), requests := m1.requests + 1)
    else m1
  }

  /** `watchers.indexOf(cb)`, for a cb that is there. */
  function IndexOfCallback(s: seq<Callback>, cb: Callback): (i: nat)
    requires cb in s
    ensures i < |s| && s[i] == cb && cb !in s[..i]
  {
    if s[0] == cb then 0
    else
      var j := IndexOfCallback(s[1..], cb);
      assert s[..j + 1] == [s[0]] + s[1..][..j];
      j + 1
  }

  /** `watchers.splice(watchers.indexOf(cb), 1)`. */
  function RemoveFirst(s: seq<Callback>, cb: Callback): seq<Callback>
    requires cb in s
  {
    var i := IndexOfCallback(s, cb);
    s[..i] + s[i + 1..]
  }

  /** The listener's cancel(): a pending request has its flag set; an
      active feed is cancelled. */
  function CancelListener(m: Mux): Mux {
    match m.listener
    case NoListener => m
    case Pending(r) => m.(cancelledRequests := m.cancelledRequests + {r})
    case Active(f) => m.(cancelledFeeds := m.cancelledFeeds + {f})
  }

  /** `removeWatcher(type, cb)`: the first stored occurrence of cb is
      removed and the count falls, only when cb is found; once the count is
      below 1, an existing listener is cancelled and cleared. */
  function Remove(m: Mux, t: string, cb: Callback): Mux {
    var found := t in m.byType && cb in m.byType[t];
    var m1 := if found then m.(byType := m.byType[t := RemoveFirst(m.byType[t], cb)], count := m.count - 1) else m;
    if m1.count < 1 && !m1.listener.NoListener? then CancelListener(m1).(listener := NoListener)
    else m1
  }

  /** The hub.info callback of request req: unless its flag was set, a
      continuous hub.changes feed replaces whatever `changesListener` holds;
      otherwise `changesListener` is cleared. */
  function InfoArrived(m: Mux, req: nat): Mux
    requires req < m.requests && req !in m.answered
  {
    var m1 := m.(answered := m.answered + {req});
    if req !in m.cancelledRequests then m1.(listener := Active(m.feeds), feeds := m.feeds + 1)
    else m1.(listener := NoListener)
  }

  /** The feed's onChange: the callbacks stored for the document's type,
      in registration order; other types reach nobody. */
  function Deliver(m: Mux, doc: Value): seq<Callback> {
    var key := PropertyKey(Member(doc, "type"));
    if key.Some? && key.value in m.byType then m.byType[key.value] else []
  }

  // ---------------------------------------------------------------------
  // Counting stored callbacks

  /** The number of callbacks stored over all types. */
  ghost function Stored(byType: map<string, seq<Callback>>): nat
    decreases |byType|
  {
    if byType == map[] then 0
    else
      var k := AnyKey(byType);
      MapRemoveSize(byType, k);
      |byType[k]| + Stored(byType - {k})
  }

  ghost function AnyKey(byType: map<string, seq<Callback>>): (k: string)
    requires byType != map[]
    ensures k in byType
  {
    assert exists k :: k in byType.Keys by {
      assert byType.Keys != {};
    }
    var k :| k in byType.Keys;
    k
  }

  lemma MapRemoveSize(byType: map<string, seq<Callback>>, k: string)
    requires k in byType
    ensures |byType - {k}| == |byType| - 1
  {
    assert (byType - {k}).Keys == byType.Keys - {k};
    assert |byType.Keys - {k}| == |byType.Keys| - 1;
  }

  lemma {:induction false} StoredSplit(byType: map<string, seq<Callback>>, k: string)
    requires k in byType
    ensures Stored(byType) == |byType[k]| + Stored(byType - {k})
    decreases |byType|
  {
    var j := AnyKey(byType);
    if j != k {
      MapRemoveSize(byType, j);
      MapRemoveSize(byType, k);
      assert Stored(byType) == |byType[j]| + Stored(byType - {j});
      StoredSplit(byType - {j}, k);
      StoredSplit(byType - {k}, j);
      assert byType - {j} - {k} == byType - {k} - {j};
    }
  }

  lemma StoredUpdate(byType: map<string, seq<Callback>>, k: string, s: seq<Callback>)
    ensures Stored(byType[k := s]) == Stored(byType) - (if k in byType then |byType[k]| else 0) + |s|
    ensures |byType[k := s]| == |byType| + if k in byType then 0 else 1
  {
    StoredSplit(byType[k := s], k);
    assert byType[k := s] - {k} == byType - {k};
    if k in byType {
      StoredSplit(byType, k);
      UpdateSize(byType, k, s);
    } else {
      NewKeySize(byType, k, s);
    }
  }

  lemma UpdateSize(byType: map<string, seq<Callback>>, k: string, s: seq<Callback>)
    requires k in byType
    ensures |byType[k := s]| == |byType|
  {
    assert byType[k := s].Keys == byType.Keys;
  }

  lemma NewKeySize(byType: map<string, seq<Callback>>, k: string, s: seq<Callback>)
    requires k !in byType
    ensures |byType[k := s]| == |byType| + 1
    ensures byType - {k} == byType
  {
    assert byType[k := s].Keys == byType.Keys + {k};
  }


  // ---------------------------------------------------------------------
  // The states the multiplexer can reach

  /** Every state reachable from Initial: the count is the number of stored
      callbacks plus one lost first callback per type; no listener was ever
      cancelled; the first watcher starts the one and only hub.info request,
      whose callback opens the one and only feed. */
  ghost predicate Reachable(m: Mux) {
    && m.count == Stored(m.byType) + |m.byType|
    && m.cancelledRequests == {} && m.cancelledFeeds == {}
    && (m.byType == map[] ==> m.listener == NoListener && m.requests == 0 && m.answered == {} && m.feeds == 0)
    && (m.byType != map[] ==>
          && m.requests == 1
          && (|| (m.listener == Pending(0) && m.answered == {} && m.feeds == 0)
              || (m.listener == Active(0) && m.answered == {0} && m.feeds == 1)))
  }

  lemma InitialReachable()
    ensures Reachable(Initial)
  {
  }

  lemma AddReachable(m: Mux, t: string, cb: Callback)
    requires Reachable(m)
    ensures Reachable(Add(m, t, cb))
  {
    var stored := if t in m.byType then m.byType[t] + [cb] else [];
    StoredUpdate(m.byType, t, stored);
    assert t in m.byType[t := stored];
  }

  lemma RemoveReachable(m: Mux, t: string, cb: Callback)
    requires Reachable(m)
    ensures Reachable(Remove(m, t, cb))
  {
    if t in m.byType && cb in m.byType[t] {
      StoredUpdate(m.byType, t, RemoveFirst(m.byType[t], cb));
      assert t in m.byType[t := RemoveFirst(m.byType[t], cb)];
    }
  }

  lemma InfoArrivedReachable(m: Mux, req: nat)
    requires Reachable(m)
    requires req < m.requests && req !in m.answered
    ensures Reachable(InfoArrived(m, req))
  {
  }

  /** `watcherCount` never drops below the number of stored callbacks. */
  lemma CountCoversStored(m: Mux)
    requires Reachable(m)
    ensures m.count >= Stored(m.byType)
    ensures m.count >= 0
  {
  }

  /** Once any watcher has been added, cancelling watchers never stops the
      shared listener: the count cannot fall below 1 again. */
  lemma ListenerNeverStopped(m: Mux, t: string, cb: Callback)
    requires Reachable(m)
    requires m.byType != map[]
    ensures Remove(m, t, cb).listener == m.listener
    ensures Remove(m, t, cb).count >= 1
  {
    var k :| k in m.byType;
    StoredSplit(m.byType, k);
    RemoveReachable(m, t, cb);
    assert Remove(m, t, cb).byType != map[] by {
      assert k in Remove(m, t, cb).byType;
    }
    var r := Remove(m, t, cb);
    var k' :| k' in r.byType;
    StoredSplit(r.byType, k');
  }

  /** A listener is started exactly when none exists. */
  lemma ListenerStartedWhenNone(m: Mux, t: string, cb: Callback)
    requires m.count >= 0
    ensures Add(m, t, cb).listener != m.listener <==> m.listener.NoListener?
    ensures m.listener.NoListener? ==>
      Add(m, t, cb).listener == Pending(m.requests) && Add(m, t, cb).requests == m.requests + 1
  {
  }

  /** The first watcher of any new type is never called, and cancelling it
      does not lower the count: after the add and its cancel, the count is
      one higher than before and the listener is the one the add left. */
  lemma FirstWatcherLost(m: Mux, t: string, cb: Callback, doc: Value)
    requires Reachable(m) && t !in m.byType
    requires Member(doc, "type") == Str(t)
    ensures Deliver(Add(m, t, cb), doc) == []
    ensures Remove(Add(m, t, cb), t, cb).count == m.count + 1
    ensures Remove(Add(m, t, cb), t, cb).listener == Add(m, t, cb).listener
    ensures Remove(Add(m, t, cb), t, cb).listener != NoListener
  {
  }

  /** For a type already present, a new watcher is stored after the
      earlier ones and is called last. */
  lemma LaterWatcherStored(m: Mux, t: string, cb: Callback, doc: Value)
    requires t in m.byType
    requires Member(doc, "type") == Str(t)
    ensures Deliver(Add(m, t, cb), doc) == Deliver(m, doc) + [cb]
    ensures Add(m, t, cb).count == m.count + 1
  {
  }

  /** Cancelling a stored watcher removes one occurrence and lowers the
      count by one; cancelling one that is not stored changes nothing but,
      possibly, the listener. */
  lemma RemoveOneOccurrence(m: Mux, t: string, cb: Callback)
    ensures t in m.byType && cb in m.byType[t] ==>
      && Remove(m, t, cb).count == m.count - 1
      && multiset(Remove(m, t, cb).byType[t]) == multiset(m.byType[t]) - multiset{cb}
    ensures !(t in m.byType && cb in m.byType[t]) ==>
      Remove(m, t, cb).count == m.count && Remove(m, t, cb).byType == m.byType
  {
    if t in m.byType && cb in m.byType[t] {
      var s := m.byType[t];
      var i := IndexOfCallback(s, cb);
      assert s == s[..i] + [cb] + s[i + 1..];
      assert multiset(s) == multiset(s[..i]) + multiset{cb} + multiset(s[i + 1..]);
    }
  }
}
