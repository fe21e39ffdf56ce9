/**
 * SharePouch, the plugin installed on a hub database: the watcher
 * multiplexer (addWatcher, removeWatcher), shareDatabase and the per-share
 * signal handling it sets up, unshareDatabase, `_localizeShare` with the
 * share initializers it registers by name, `_isLocal`, and
 * getSharedDatabases.
 *
 * Asynchronous completions (hub.info, hub.post, hub.allDocs, the change
 * feed) are separate methods, called when the environment delivers them.
 * Which closure a `Callback` stands for is kept by whoever created it.
 */
module Share {
  import opened Values
  import opened RpcCodec
  import opened HubDb
  import opened Peer
  import opened Rpc
  import opened Watchers
  import opened Uri
  import opened Api

  const NotShared: string := "Database is not currently shared"
  const MemberOfNothing: string := "TypeError: cannot read a property of undefined or null"
  const NoHasOwnProperty: string := "TypeError: sharesByRemoteId.hasOwnProperty is not a function"
  const CancelOfUndefined: string := "TypeError: cannot read property 'cancel' of undefined"

  /** What `sharesByRemoteId` and `sharesByLocalId` hold: shareDatabase
      stores its own `share` function there, not the share document. */
  datatype StoredShare = ShareFunction

  /** A property read on a stored entry: the `share` function has no
      `_id`, `_rev` or `_signalWatcher` member. */
  function StoredMember(e: StoredShare, k: string): Value {
    Undefined
  }

  /** `v || null`. */
  function OrNull(v: Value): Value {
    if Truthy(v) then v else Null
  }

  /** The options after shareDatabase and getSharedDatabases normalise
      them: a function (the callback) or a falsy value becomes `{}`. */
  function Normalised(opts: Value): Value {
    if opts.Fn? || !Truthy(opts) then Obj([]) else opts
  }

  /** The share document shareDatabase posts. */
  function ShareDoc(id: string, name: Value, info: Value): Value {
    Obj([Field("_id", Str(id)), Field("type", Str(ShareType)), Field("name", name), Field("info", info)])
  }

  predicate IsShareDoc(doc: Value) {
    Member(doc, "type") == Str(ShareType)
  }

  // ---------------------------------------------------------------------
  // Share names

  /** `[hub.id(), doc._id].map(encodeURIComponent).join('/')`. */
  function ShareName(hubId: string, docId: string): string {
    EncodeURIComponent(hubId) + "/" + EncodeURIComponent(docId)
  }

  /** The position of the first '/' in s. */
  function FirstSlash(s: string): (i: Option<nat>)
    ensures i.Some? ==> i.value < |s| && s[i.value] == '/' && '/' !in s[..i.value]
    ensures i.None? ==> '/' !in s
  {
    if s == [] then None
    else if s[0] == '/' then Some(0)
    else
      var t := FirstSlash(s[1..]);
      if t.None? then None
      else
        assert s[..t.value + 1] == [s[0]] + s[1..][..t.value];
        Some(t.value + 1)
  }

  /** The hub id and document id a share name is made of. */
  function SplitShareName(name: string): Option<(string, string)> {
    var i := FirstSlash(name);
    if i.None? then None
    else
      var h := DecodeEncoded(name[..i.value]);
      var d := DecodeEncoded(name[i.value + 1..]);
      if h.Some? && d.Some? then Some((h.value, d.value)) else None
  }

  /** A share name gives back the hub id and document id it was made
      from, so two different shares never get the same name. */
  lemma SplitShareNameInverse(hubId: string, docId: string)
    ensures SplitShareName(ShareName(hubId, docId)) == Some((hubId, docId))
  {
    var a := EncodeURIComponent(hubId);
    var b := EncodeURIComponent(docId);
    var name := a + "/" + b;
    FirstSlashAt(a, b);
    assert name[..|a|] == a;
    assert name[|a| + 1..] == b;
    DecodeEncode(hubId);
    DecodeEncode(docId);
  }

  lemma {:induction false} FirstSlashAt(a: string, b: string)
    requires '/' !in a
    ensures FirstSlash(a + "/" + b) == Some(|a|)
    decreases a
  {
    if a != [] {
      FirstSlashAt(a[1..], b);
      assert (a + "/" + b)[1..] == a[1..] + "/" + b;
    }
  }

  lemma ShareNameInjective(h1: string, d1: string, h2: string, d2: string)
    requires ShareName(h1, d1) == ShareName(h2, d2)
    ensures h1 == h2 && d1 == d2
  {
    SplitShareNameInverse(h1, d1);
    SplitShareNameInverse(h2, d2);
  }

  // ---------------------------------------------------------------------
  // _isLocal and the share listing

  /** Whether `sharesByRemoteId` has a `hasOwnProperty` method to call: it
      is made with Object.create(null), so it has none. A map made as `{}`
      would inherit one; the share pouch keeps this as a field so that both
      answers can be followed. */
  const RemoteIdsHaveOwnProperty: bool := false

  /** `_isLocal(doc)`: `sharesByRemoteId.hasOwnProperty(doc._id)`. Without
      that method the call throws whatever doc is; with it, the answer is
      whether the map holds doc's `_id` as a key. */
  function IsLocal(remoteIds: map<string, StoredShare>, hasOwnProperty: bool, doc: Value): (r: Result<bool>)
    ensures r.Throws? <==> !hasOwnProperty
    ensures r.Throws? ==> r.error == NoHasOwnProperty
    ensures r.Ok? ==> (r.value <==> exists k | k in remoteIds :: PropertyKey(Member(doc, "_id")) == Some(k))
  {
    if !hasOwnProperty then Throws(NoHasOwnProperty)
    else
      var key := PropertyKey(Member(doc, "_id"));
      Ok(key.Some? && key.value in remoteIds)
  }

  /** The filter of getSharedDatabases: share documents that are not
      local, in order; the first exception ends the filter. */
  function SelectShares(remoteIds: map<string, StoredShare>, hasOwnProperty: bool, docs: seq<Value>): (r: Result<seq<Value>>)
    ensures r.Ok? ==> forall d | d in r.value :: d in docs && IsShareDoc(d)
  {
    if docs == [] then Ok([])
    else if !IsShareDoc(docs[0]) then SelectShares(remoteIds, hasOwnProperty, docs[1..])
    else
      match IsLocal(remoteIds, hasOwnProperty, docs[0])
      case Throws(e) => Throws(e)
      case Ok(local) =>
        match SelectShares(remoteIds, hasOwnProperty, docs[1..])
        case Throws(e) => Throws(e)
        case Ok(rest) => Ok(if local then rest else [docs[0]] + rest)
  }

  /** The listing fails as soon as the hub holds any share document, and
      is empty otherwise: no share is ever listed. */
  lemma {:induction false} SelectSharesFails(remoteIds: map<string, StoredShare>, docs: seq<Value>)
    ensures SelectShares(remoteIds, RemoteIdsHaveOwnProperty, docs) ==
      if exists i | 0 <= i < |docs| :: IsShareDoc(docs[i]) then Throws(NoHasOwnProperty) else Ok([])
    decreases docs
  {
    if docs != [] {
      SelectSharesFails(remoteIds, docs[1..]);
      if !IsShareDoc(docs[0]) {
        if exists i | 0 <= i < |docs| :: IsShareDoc(docs[i]) {
          var i :| 0 <= i < |docs| && IsShareDoc(docs[i]);
          assert IsShareDoc(docs[1..][i - 1]);
        } else {
          assert forall i | 0 <= i < |docs[1..]| :: docs[1..][i] == docs[i + 1];
        }
      }
    }
  }

  /** The share watcher of getSharedDatabases: whether onChange is called
      for doc. On `sharesByRemoteId` as it is built, `_isLocal` throws
      before onChange can be called, for every share document that
      arrives; a map with `hasOwnProperty` would call it for every document
      whose `_id` it does not hold. */
  function ShareWatcherFires(remoteIds: map<string, StoredShare>, hasOwnProperty: bool, doc: Value): (r: Result<bool>)
    ensures r.Throws? <==> !hasOwnProperty
    ensures r.Throws? ==> r.error == NoHasOwnProperty
    ensures r.Ok? ==> (r.value <==> forall k | k in remoteIds :: PropertyKey(Member(doc, "_id")) != Some(k))
  {
    match IsLocal(remoteIds, hasOwnProperty, doc)
    case Throws(e) => Throws(e)
    case Ok(local) => Ok(!local)
  }

  /** What `_isLocal` is for: once `share` has stored its id, a map with
      `hasOwnProperty` finds that share's own document local, so neither
      the listing nor the watcher hands it on, and finds local no share
      document whose id was never stored. As written, every share document
      makes it throw. */
  lemma SharedIsLocal(remoteIds: map<string, StoredShare>, id: string, other: string, name: Value, info: Value)
    requires other != id && other !in remoteIds
    ensures var stored := remoteIds[id := ShareFunction];
      && IsLocal(stored, true, ShareDoc(id, name, info)) == Ok(true)
      && ShareWatcherFires(stored, true, ShareDoc(id, name, info)) == Ok(false)
      && IsLocal(stored, true, ShareDoc(other, name, info)) == Ok(false)
      && ShareWatcherFires(stored, true, ShareDoc(other, name, info)) == Ok(true)
      && IsLocal(stored, RemoteIdsHaveOwnProperty, ShareDoc(id, name, info)) == Throws(NoHasOwnProperty)
      && ShareWatcherFires(stored, RemoteIdsHaveOwnProperty, ShareDoc(other, name, info)) == Throws(NoHasOwnProperty)
  {
    assert Member(ShareDoc(id, name, info), "_id") == Str(id);
    assert Member(ShareDoc(other, name, info), "_id") == Str(other);
  }

  /** With `hasOwnProperty`, the listing keeps exactly the share documents
      whose `_id` is not a stored id, in their order. */
  lemma {:induction false} SelectSharesIntended(remoteIds: map<string, StoredShare>, docs: seq<Value>)
    ensures var r := SelectShares(remoteIds, true, docs);
      && r.Ok?
      && forall d :: d in r.value <==> d in docs && IsShareDoc(d) && IsLocal(remoteIds, true, d) == Ok(false)
    decreases docs
  {
    if docs != [] {
      SelectSharesIntended(remoteIds, docs[1..]);
      assert forall d :: d in docs <==> d == docs[0] || d in docs[1..];
    }
  }

  /** The name `_localizeShare` files a share document under. */
  function LocalName(hubId: string, doc: Value): string {
    ShareName(hubId, PropertyKey(Member(doc, "_id")).GetOr(""))
  }

  /** What `_localizeShare(doc)` by `owner` does to the directory: a
      deletion unregisters doc's name (None), any other document registers
      owner's initializer under it. */
  datatype Filing = Filing(name: string, init: Option<Initializer>)

  function FilingOf(owner: SharePouch, hubId: string, doc: Value): Filing {
    Filing(LocalName(hubId, doc),
           if Truthy(Member(doc, "_deleted")) then None else Some(Initializer(owner, Member(doc, "_id"))))
  }

  function File(byName: map<string, Initializer>, f: Filing): map<string, Initializer> {
    if f.init.None? then byName - {f.name} else byName[f.name := f.init.value]
  }

  /** The directory after each filing in turn. */
  function FileAll(byName: map<string, Initializer>, fs: seq<Filing>): map<string, Initializer>
    decreases |fs|
  {
    if fs == [] then byName else FileAll(File(byName, fs[0]), fs[1..])
  }

  /** The filings of a run of `_localizeShare` calls. */
  function FilingsOf(owner: SharePouch, hubId: string, docs: seq<Value>): (fs: seq<Filing>)
    ensures |fs| == |docs|
  {
    if docs == [] then [] else [FilingOf(owner, hubId, docs[0])] + FilingsOf(owner, hubId, docs[1..])
  }

  /** After a run of filings, a name is as the last filing for it left it:
      unregistered by a deletion, registered otherwise. */
  lemma {:induction false} FileAllLast(byName: map<string, Initializer>, fs: seq<Filing>, j: nat)
    requires j < |fs|
    requires forall k | j < k < |fs| :: fs[k].name != fs[j].name
    ensures var m := FileAll(byName, fs);
      && (fs[j].init.None? ==> fs[j].name !in m)
      && (fs[j].init.Some? ==> fs[j].name in m && m[fs[j].name] == fs[j].init.value)
    decreases fs
  {
    var rest := fs[1..];
    assert forall k | 0 <= k < |rest| :: rest[k] == fs[k + 1];
    if j == 0 {
      FileAllElsewhere(File(byName, fs[0]), rest, fs[0].name);
    } else {
      FileAllLast(File(byName, fs[0]), rest, j - 1);
    }
  }

  /** A name no filing touches keeps its entry. */
  lemma {:induction false} FileAllElsewhere(byName: map<string, Initializer>, fs: seq<Filing>, name: string)
    requires forall k | 0 <= k < |fs| :: fs[k].name != name
    ensures var m := FileAll(byName, fs);
      (name in m <==> name in byName) && (name in m ==> m[name] == byName[name])
    decreases fs
  {
    if fs != [] {
      var rest := fs[1..];
      assert forall k | 0 <= k < |rest| :: rest[k] == fs[k + 1];
      FileAllElsewhere(File(byName, fs[0]), rest, name);
    }
  }

  /** The document `_localizeShare` returns: doc with its `dbname` set. */
  function Localized(hubId: string, doc: Value): Value
    requires doc.Obj?
  {
    Obj(SetMember(doc.fields, "dbname", Str("webrtc://" + LocalName(hubId, doc))))
  }

  predicate AllJsonObjects(docs: seq<Value>) {
    forall i | 0 <= i < |docs| :: docs[i].Obj? && JsonValue(docs[i])
  }

  /** `docs.map(_localizeShare)`, for the documents returned. */
  function LocalizedAll(hubId: string, docs: seq<Value>): (r: seq<Value>)
    requires forall i | 0 <= i < |docs| :: docs[i].Obj?
    ensures |r| == |docs|
  {
    if docs == [] then [] else [Localized(hubId, docs[0])] + LocalizedAll(hubId, docs[1..])
  }

  // ---------------------------------------------------------------------
  // The directory of share initializers

  /** A function registered in `PeerPouch._shareInitializersByName`: the
      SharePouch that localised the share, and the share document's `_id`. */
  datatype Initializer = Initializer(owner: SharePouch, shareId: Value)

  /** `PeerPouch._shareInitializersByName`. */
  class Directory {
    var byName: map<string, Initializer>

    constructor ()
      ensures byName == map[]
    {
      byName := map[];
    }

    function Owners(): set<SharePouch>
      reads this
    {
      set k | k in byName :: byName[k].owner
    }
  }

  /** The signalling state of a connection a client requested: the handler
      and the watcher for signals addressed to it. */
  class Requester {
    const hub: Hub
    const client: string        // 'peer-' + uuid
    const shareId: Value        // the share document's _id
    const conn: PeerConnection
    const watcher: Watcher

    constructor (hub: Hub, client: string, shareId: Value, conn: PeerConnection, watcher: Watcher)
      ensures this.hub == hub && this.client == client && this.shareId == shareId
      ensures this.conn == conn && this.watcher == watcher
    {
      this.hub := hub;
      this.client := client;
      this.shareId := shareId;
      this.conn := conn;
      this.watcher := watcher;
    }

    /** The initializer's receiveSignal watcher: only a signal from the
        share to this client is taken; its data goes to the handler and,
        unless that throws, the signal document is deleted. */
    method OnSignal(signal: Value) returns (r: Result<Option<SignalAction>>)
      modifies conn, hub
      ensures var addressed := Member(signal, "recipient") == Str(client) && Member(signal, "sender") == shareId;
        && (!addressed ==> r == Ok(None) && conn.jsep == old(conn.jsep) && hub.posted == old(hub.posted))
        && (addressed ==>
              var action := Classify(Member(signal, "data"));
              && r == (if action.Ok? then Ok(Some(action.value)) else Throws(action.error))
              && conn.jsep == Absorb(old(conn.jsep), action)
              && hub.posted == old(hub.posted) + if action.Ok? then [Tombstone(Member(signal, "_id"), Member(signal, "_rev"))] else [])
      ensures conn.channel == old(conn.channel) && conn.onHaveSignal == old(conn.onHaveSignal)
      ensures conn.receiver == old(conn.receiver) && conn.hasOnConnection == old(conn.hasOnConnection)
      ensures conn.sent == old(conn.sent)
    {
      if Member(signal, "recipient") != Str(client) || Member(signal, "sender") != shareId {
        return Ok(None);
      }
      var action := conn.ReceiveSignal(Member(signal, "data"));
      if action.Throws? {
        return Throws(action.error);
      }
      hub.Post(Tombstone(Member(signal, "_id"), Member(signal, "_rev")));
      r := Ok(Some(action.value));
    }
  }

  /** What a share's receiveSignal watcher did with a signal document. */
  datatype SignalHandled =
    | NotAddressed
    | Handled(peer: string, created: bool, action: SignalAction)

  /** The state shareDatabase keeps for one shared database: the share
      document `shareVar` and the closures over it. */
  class ShareRecord {
    const hub: Hub
    const id: string                // shareVar._id
    const name: Value
    const info: Value
    const db: Database
    const hasOnRemote: bool         // opts.onRemote, after normalisation
    const hasCallback: bool         // the callback given, or opts when it is a function
    const watcher: Watcher          // shareVar._signalWatcher
    var rev: Option<string>         // shareVar._rev, once hub.post succeeded
    var peers: map<string, PeerConnection>   // peerHandlers
    var peerInfo: map<string, Value>          // the info of each peer's first signal

    constructor (hub: Hub, id: string, name: Value, info: Value, db: Database,
                 hasOnRemote: bool, hasCallback: bool, watcher: Watcher)
      ensures this.hub == hub && this.id == id && this.name == name && this.info == info && this.db == db
      ensures this.hasOnRemote == hasOnRemote && this.hasCallback == hasCallback && this.watcher == watcher
      ensures rev == None && peers == map[] && peerInfo == map[]
    {
      this.hub := hub;
      this.id := id;
      this.name := name;
      this.info := info;
      this.db := db;
      this.hasOnRemote := hasOnRemote;
      this.hasCallback := hasCallback;
      this.watcher := watcher;
      rev := None;
      peers := map[];
      peerInfo := map[];
    }

    /** The completion of the share document's hub.post: the revision is
        kept on success, and the callback, if any, is called either way. */
    method PostCompleted(result: Result<string>) returns (callsBack: bool)
      modifies this
      ensures rev == if result.Ok? then Some(result.value) else old(rev)
      ensures callsBack == hasCallback
      ensures peers == old(peers) && peerInfo == old(peerInfo)
    {
      if result.Ok? {
        rev := Some(result.value);
      }
      callsBack := hasCallback;
    }

    /** The share's receiveSignal watcher. A signal for another recipient
        is ignored. Otherwise the sender gets a responding handler the
        first time, whose signals go back to it under 's-signal-' ids with
        the share's info; the signal's data goes to that handler and,
        unless that throws, the signal document is deleted. */
    method OnSignal(signal: Value) returns (r: Result<SignalHandled>)
      requires JsonValue(signal)
      modifies this, hub, peers.Values
      ensures PropertyKey(Member(signal, "sender")).Some?
      ensures Member(signal, "recipient") != Str(id) ==>
        && r == Ok(NotAddressed)
        && peers == old(peers) && peerInfo == old(peerInfo) && hub.posted == old(hub.posted)
        && forall p | p in old(peers.Values) :: unchanged(p)
      ensures Member(signal, "recipient") == Str(id) ==>
        var sender := Member(signal, "sender");
        var key := PropertyKey(sender).value;
        var created := key !in old(peers);
        var action := Classify(Member(signal, "data"));
        && key in peers
        && (!created ==>
              && peers == old(peers) && peerInfo == old(peerInfo)
              && peers[key].jsep == Absorb(old(peers[key].jsep), action)
              && peers[key].onHaveSignal == old(peers[key].onHaveSignal)
              && peers[key].channel == old(peers[key].channel)
              && peers[key].hasOnConnection == old(peers[key].hasOnConnection))
        && (created ==>
              && fresh(peers[key])
              && peers == old(peers)[key := peers[key]]
              && peerInfo == old(peerInfo)[key := Member(signal, "info")]
              && !peers[key].initiate && peers[key].channel == NoChannel
              && peers[key].onHaveSignal == Some(SignalRoute(hub, "s-signal-", id, sender, info))
              && peers[key].hasOnConnection
              && peers[key].jsep == Absorb(Fresh, action))
        && (forall p | p in old(peers.Values) && p != peers[key] :: unchanged(p))
        && r == (if action.Ok? then Ok(Handled(key, created, action.value)) else Throws(action.error))
        && hub.posted == old(hub.posted) + if action.Ok? then [Tombstone(Member(signal, "_id"), Member(signal, "_rev"))] else []
    {
      var sender := Member(signal, "sender");
      JsonMember(signal, "sender");
      JsonKey(sender);
      if Member(signal, "recipient") != Str(id) {
        return Ok(NotAddressed);
      }
      var key := PropertyKey(sender).value;
      var created := key !in peers;
      if created {
        var pc := new PeerConnection(false);
        pc.onHaveSignal := Some(SignalRoute(hub, "s-signal-", id, sender, info));
        pc.hasOnConnection := true;
        peers := peers[key := pc];
        peerInfo := peerInfo[key := Member(signal, "info")];
      }
      var handler := peers[key];
      var action := handler.ReceiveSignal(Member(signal, "data"));
      if action.Throws? {
        return Throws(action.error);
      }
      hub.Post(Tombstone(Member(signal, "_id"), Member(signal, "_rev")));
      r := Ok(Handled(key, created, action.value));
    }

    /** The handler's onconnection, run from the channel's onopen. With an
        onRemote option, onRemote sees the info of the peer's first signal
        and may veto the connection, which is then left open and unused.
        Otherwise an RPC handler on a new tube bootstraps the peer with the
        wrapped API of the shared database. */
    method OnPeerConnected(key: string, vetoed: bool, ids: IdOracle, marks: KeepMarks)
      returns (seen: Option<Value>, rpc: RpcHandler?)
      requires key in peers && key in peerInfo
      requires peers[key].channel == Channel(Open)
      modifies peers[key], marks
      ensures seen == if hasOnRemote then Some(peerInfo[key]) else None
      ensures hasOnRemote && vetoed ==> rpc == null && unchanged(peers[key]) && unchanged(marks)
      ensures !(hasOnRemote && vetoed) ==>
        var conn := peers[key];
        var e := RpcCodec.Serialize(Envelope(Str(BootstrapId), [Obj([Field("api", WrappedApi(db))])]),
                                    map[BootstrapId := BootstrapFn], 0, ids);
        var ms := Messages(e);
        var n := TextRun(ms);
        && rpc != null && fresh(rpc) && fresh(rpc.tube)
        && rpc.tube.conn == conn && conn.receiver == rpc.tube && rpc.tube.handler == rpc
        && marks.kept == old(marks.kept) + WrappedKeeps(db)
        && rpc.exposed == e.st.exposed && rpc.next == e.st.next && rpc.buffer == []
        && conn.sent == old(conn.sent) + ms[..n]
        && rpc.reading == (if n < |ms| then map[0 := ms[n..]] else map[])
        && conn.channel == old(conn.channel) && conn.jsep == old(conn.jsep)
        && conn.onHaveSignal == old(conn.onHaveSignal)
    {
      seen := if hasOnRemote then Some(peerInfo[key]) else None;
      if hasOnRemote && vetoed {
        return seen, null;
      }
      var conn := peers[key];
      var tube := conn.MakeTube();
      rpc := new RpcHandler(tube, ids);
      var api := WrapApi(db, marks);
      var sent := rpc.Bootstrap([Obj([Field("api", api)])]);
    }
  }

  /** The object shareDatabase, unshareDatabase and getSharedDatabases
      close over, for one hub. */
  class SharePouch {
    const hub: Hub
    const directory: Directory
    // the watcher multiplexer
    var watcherCount: int
    var watchersByType: map<string, seq<Callback>>
    var changesListener: Listener
    var infoRequests: nat
    var infoAnswered: set<nat>
    var cancelledRequests: set<nat>
    var feeds: nat
    var cancelledFeeds: set<nat>
    // callback functions created so far
    var callbacks: nat
    // shares
    var sharesByRemoteId: map<string, StoredShare>
    var sharesByLocalId: map<string, StoredShare>
    const remoteIdsHaveOwnProperty: bool   // whether `sharesByRemoteId.hasOwnProperty` exists

    constructor (hub: Hub, directory: Directory)
      ensures this.hub == hub && this.directory == directory
      ensures MuxState() == Initial && callbacks == 0
      ensures sharesByRemoteId == map[] && sharesByLocalId == map[]
      ensures remoteIdsHaveOwnProperty == RemoteIdsHaveOwnProperty
    {
      this.hub := hub;
      this.directory := directory;
      remoteIdsHaveOwnProperty := RemoteIdsHaveOwnProperty;
      watcherCount := 0;
      watchersByType := map[];
      changesListener := NoListener;
      infoRequests := 0;
      infoAnswered := {};
      cancelledRequests := {};
      feeds := 0;
      cancelledFeeds := {};
      callbacks := 0;
      sharesByRemoteId := map[];
      sharesByLocalId := map[];
    }

    function MuxState(): Mux
      reads this
    {
      Mux(watcherCount, watchersByType, changesListener, infoRequests, infoAnswered,
          cancelledRequests, feeds, cancelledFeeds)
    }

    /** A callback function created now, distinct from every earlier one. */
    method NewCallback() returns (cb: Callback)
      modifies this
      ensures cb == Callback(old(callbacks)) && callbacks == old(callbacks) + 1
      ensures MuxState() == old(MuxState())
      ensures sharesByRemoteId == old(sharesByRemoteId) && sharesByLocalId == old(sharesByLocalId)
    {
      cb := Callback(callbacks);
      callbacks := callbacks + 1;
    }

    /** `addWatcher(type, cb)`. `watchers` is the stored array only when
        the type was already present; for a new type cb is pushed onto a
        fresh array that is then dropped. */
    method AddWatcher(t: string, cb: Callback) returns (w: Watcher)
      modifies this
      ensures w == Watcher(t, cb)
      ensures MuxState() == Add(old(MuxState()), t, cb)
      ensures callbacks == old(callbacks)
      ensures sharesByRemoteId == old(sharesByRemoteId) && sharesByLocalId == old(sharesByLocalId)
    {
      var present := t in watchersByType;
      var watchers := if present then watchersByType[t] else [];
      if !present {
        watchersByType := watchersByType[t := []];
      }
      watchers := watchers + [cb];
      if present {
        watchersByType := watchersByType[t := watchers];
      }
      watcherCount := watcherCount + 1;
      if watcherCount > 0 && changesListener.NoListener? {
        changesListener := Pending(infoRequests);
        infoRequests := infoRequests + 1;
      }
      w := Watcher(t, cb);
    }

    /** `removeWatcher(type, cb)`, which a watcher's cancel() calls. */
    method RemoveWatcher(t: string, cb: Callback)
      modifies this
      ensures MuxState() == Remove(old(MuxState()), t, cb)
      ensures callbacks == old(callbacks)
      ensures sharesByRemoteId == old(sharesByRemoteId) && sharesByLocalId == old(sharesByLocalId)
    {
      if t in watchersByType && cb in watchersByType[t] {
        var watchers := watchersByType[t];
        var i := IndexOfCallback(watchers, cb);
        watchersByType := watchersByType[t := watchers[..i] + watchers[i + 1..]];
        watcherCount := watcherCount - 1;
      }
      if watcherCount < 1 && !changesListener.NoListener? {
        match changesListener {
          case Pending(req) => cancelledRequests := cancelledRequests + {req};
          case Active(feed) => cancelledFeeds := cancelledFeeds + {feed};
        }
        changesListener := NoListener;
      }
    }

    /** The hub.info callback of request req. */
    method InfoArrived(req: nat)
      requires req < infoRequests && req !in infoAnswered
      modifies this
      ensures MuxState() == Watchers.InfoArrived(old(MuxState()), req)
      ensures callbacks == old(callbacks)
      ensures sharesByRemoteId == old(sharesByRemoteId) && sharesByLocalId == old(sharesByLocalId)
    {
      infoAnswered := infoAnswered + {req};
      if req !in cancelledRequests {
        changesListener := Active(feeds);
        feeds := feeds + 1;
      } else {
        changesListener := NoListener;
      }
    }

    /** The feed's onChange: the callbacks to call with the document. */
    method ChangeArrived(doc: Value) returns (cbs: seq<Callback>)
      ensures cbs == Deliver(MuxState(), doc)
    {
      cbs := Deliver(MuxState(), doc);
    }

    /** `share(db, opts, cb)`. `opts.name` is read before opts is
        normalised, so undefined or null options throw before anything is
        posted, and a function passed as opts names the share document
        after itself. Otherwise the share document is posted, a signal watcher is
        added, and the `share` function is stored under both ids. */
    method Share(db: Database, opts: Value, cb: Value, uuid: string) returns (r: Result<ShareRecord>)
      modifies this, hub
      ensures opts.Undefined? || opts.Null? ==>
        && r == Throws(MemberOfNothing)
        && hub.posted == old(hub.posted) && MuxState() == old(MuxState()) && callbacks == old(callbacks)
        && sharesByRemoteId == old(sharesByRemoteId) && sharesByLocalId == old(sharesByLocalId)
      ensures !(opts.Undefined? || opts.Null?) ==>
        && r.Ok? && fresh(r.value)
        && var s := r.value;
        && s.hub == hub && s.id == "share-" + uuid && s.db == db
        && s.name == OrNull(Member(opts, "name")) && s.info == OrNull(Member(opts, "info"))
        && (opts.Fn? ==> s.name == (if FnName(opts.f) == "" then Null else Str(FnName(opts.f))) && s.info == Null)
        && s.hasOnRemote == Truthy(Member(Normalised(opts), "onRemote"))
        && s.hasCallback == (opts.Fn? || Truthy(cb))
        && s.rev == None && s.peers == map[] && s.peerInfo == map[]
        && s.watcher == Watcher(SignalType, Callback(old(callbacks)))
        && hub.posted == old(hub.posted) + [ShareDoc(s.id, s.name, s.info)]
        && callbacks == old(callbacks) + 1
        && MuxState() == Add(old(MuxState()), SignalType, Callback(old(callbacks)))
        && sharesByRemoteId == old(sharesByRemoteId)[s.id := ShareFunction]
        && sharesByLocalId == old(sharesByLocalId)[db.id := ShareFunction]
    {
      if opts.Undefined? || opts.Null? {
        return Throws(MemberOfNothing);
      }
      var id := "share-" + uuid;
      var name := OrNull(Member(opts, "name"));
      var info := OrNull(Member(opts, "info"));
      var callback := if opts.Fn? then opts else cb;
      var options := Normalised(opts);
      hub.Post(ShareDoc(id, name, info));
      var receiveSignal := NewCallback();
      var w := AddWatcher(SignalType, receiveSignal);
      var s := new ShareRecord(hub, id, name, info, db, Truthy(Member(options, "onRemote")), Truthy(callback), w);
      sharesByRemoteId := sharesByRemoteId[id := ShareFunction];
      sharesByLocalId := sharesByLocalId[db.id := ShareFunction];
      r := Ok(s);
    }

    /** `unshare(db, cb)`. A database that is not shared only gets its
        callback an error. For a shared one the stored entry is the `share`
        function, so the tombstone posted has an undefined `_id` and
        `_rev`, and reading `cancel` of its undefined `_signalWatcher`
        throws: the watcher stays, and both maps keep the entry. */
    method Unshare(db: Database, cb: Value) returns (r: Result<Option<string>>)
      modifies hub
      ensures db.id !in sharesByLocalId ==>
        r == Ok(if Truthy(cb) then Some(NotShared) else None) && hub.posted == old(hub.posted)
      ensures db.id in sharesByLocalId ==>
        r == Throws(CancelOfUndefined) && hub.posted == old(hub.posted) + [Tombstone(Undefined, Undefined)]
    {
      if db.id !in sharesByLocalId {
        return Ok(if Truthy(cb) then Some(NotShared) else None);
      }
      var stored := sharesByLocalId[db.id];
      hub.Post(Tombstone(StoredMember(stored, "_id"), StoredMember(stored, "_rev")));
      var signalWatcher := StoredMember(stored, "_signalWatcher");
      if signalWatcher.Undefined? || signalWatcher.Null? {
        return Throws(CancelOfUndefined);
      }
      r := Ok(None);
    }

    /** `_localizeShare(doc)`: the share is registered under its name, or
        unregistered when the document is a deletion, and the document gets
        a `dbname` of 'webrtc://' + name. */
    method LocalizeShare(doc: Value) returns (r: Value)
      requires doc.Obj? && JsonValue(doc)
      modifies directory
      ensures PropertyKey(Member(doc, "_id")).Some?
      ensures directory.byName == File(old(directory.byName), FilingOf(this, hub.hubId, doc))
      ensures r == Localized(hub.hubId, doc)
    {
      JsonMember(doc, "_id");
      JsonKey(Member(doc, "_id"));
      directory.byName := File(directory.byName, FilingOf(this, hub.hubId, doc));
      r := Localized(hub.hubId, doc);
    }

    /** A registered initializer, called by the PeerPouch constructor: an
        initiating handler for a new client id, whose signals go to the
        share under 'p-signal-' ids with the client's info, and a watcher
        for the share's replies. */
    method Connect(shareId: Value, opts: Value, uuid: string) returns (req: Requester)
      modifies this
      ensures fresh(req) && fresh(req.conn)
      ensures req.hub == hub && req.client == "peer-" + uuid && req.shareId == shareId
      ensures req.conn.initiate && req.conn.channel == Channel(Connecting) && req.conn.jsep == Fresh
      ensures req.conn.onHaveSignal == Some(SignalRoute(hub, "p-signal-", req.client, shareId, Member(opts, "info")))
      ensures !req.conn.hasOnConnection && req.conn.receiver == null && req.conn.sent == []
      ensures req.watcher == Watcher(SignalType, Callback(old(callbacks)))
      ensures callbacks == old(callbacks) + 1
      ensures MuxState() == Add(old(MuxState()), SignalType, Callback(old(callbacks)))
      ensures sharesByRemoteId == old(sharesByRemoteId) && sharesByLocalId == old(sharesByLocalId)
    {
      var client := "peer-" + uuid;
      var handler := new PeerConnection(true);
      handler.onHaveSignal := Some(SignalRoute(hub, "p-signal-", client, shareId, Member(opts, "info")));
      var receiveSignal := NewCallback();
      var w := AddWatcher(SignalType, receiveSignal);
      req := new Requester(hub, client, shareId, handler, w);
    }

    /** `getShares(opts, cb)`, up to the allDocs request: with an onChange
        option, a watcher for share documents is added and returned. */
    method GetShares(opts: Value) returns (w: Option<Watcher>)
      modifies this
      ensures Truthy(Member(Normalised(opts), "onChange")) ==>
        && w == Some(Watcher(ShareType, Callback(old(callbacks))))
        && callbacks == old(callbacks) + 1
        && MuxState() == Add(old(MuxState()), ShareType, Callback(old(callbacks)))
      ensures !Truthy(Member(Normalised(opts), "onChange")) ==>
        w == None && callbacks == old(callbacks) && MuxState() == old(MuxState())
      ensures sharesByRemoteId == old(sharesByRemoteId) && sharesByLocalId == old(sharesByLocalId)
    {
      var options := Normalised(opts);
      if Truthy(Member(options, "onChange")) {
        var onShare := NewCallback();
        var watcher := AddWatcher(ShareType, onShare);
        return Some(watcher);
      }
      w := None;
    }

    /** The watcher getShares adds for share documents: onChange gets the
        localised document unless `_isLocal` finds it to be one of this
        peer's own shares. As written, `_isLocal` throws first. */
    method ShareChanged(doc: Value) returns (r: Result<Option<Value>>)
      requires doc.Obj? && JsonValue(doc)
      modifies directory
      ensures var fires := ShareWatcherFires(sharesByRemoteId, remoteIdsHaveOwnProperty, doc);
        && (fires.Throws? ==> r == Throws(fires.error) && directory.byName == old(directory.byName))
        && (fires == Ok(false) ==> r == Ok(None) && directory.byName == old(directory.byName))
        && (fires == Ok(true) ==>
              r == Ok(Some(Localized(hub.hubId, doc))) && directory.byName == File(old(directory.byName), FilingOf(this, hub.hubId, doc)))
      ensures remoteIdsHaveOwnProperty == RemoteIdsHaveOwnProperty ==> r == Throws(NoHasOwnProperty)
    {
      var fires := ShareWatcherFires(sharesByRemoteId, remoteIdsHaveOwnProperty, doc);
      if fires.Throws? {
        return Throws(fires.error);
      }
      if !fires.value {
        return Ok(None);
      }
      var d := LocalizeShare(doc);
      r := Ok(Some(d));
    }

    /** The allDocs completion of getShares: the share documents that are
        not local, each localised in order. As written, any share document
        makes `_isLocal` throw, so the result is an error or empty. */
    method SharesListed(docs: seq<Value>) returns (r: Result<seq<Value>>)
      requires AllJsonObjects(docs)
      modifies directory
      ensures var selected := SelectShares(sharesByRemoteId, remoteIdsHaveOwnProperty, docs);
        && (selected.Throws? ==> r == Throws(selected.error) && directory.byName == old(directory.byName))
        && (selected.Ok? ==>
              && AllJsonObjects(selected.value)
              && r == Ok(LocalizedAll(hub.hubId, selected.value))
              && directory.byName == FileAll(old(directory.byName), FilingsOf(this, hub.hubId, selected.value)))
      ensures remoteIdsHaveOwnProperty == RemoteIdsHaveOwnProperty ==>
        r == (if exists i | 0 <= i < |docs| :: IsShareDoc(docs[i]) then Throws(NoHasOwnProperty) else Ok([]))
        && directory.byName == old(directory.byName)
    {
      SelectSharesFails(sharesByRemoteId, docs);
      var selected := SelectShares(sharesByRemoteId, remoteIdsHaveOwnProperty, docs);
      if selected.Throws? {
        return Throws(selected.error);
      }
      var shares := selected.value;
      assert AllJsonObjects(shares) by {
        forall i | 0 <= i < |shares| ensures shares[i].Obj? && JsonValue(shares[i]) {
          assert shares[i] in docs;
        }
      }
      var localized := LocalizeAll(shares);
      r := Ok(localized);
    }

    /** `.map(function (r) { return _localizeShare(r.doc); })`: each share
        in order is localised, and the results are collected. */
    method LocalizeAll(shares: seq<Value>) returns (localized: seq<Value>)
      requires AllJsonObjects(shares)
      modifies directory
      ensures localized == LocalizedAll(hub.hubId, shares)
      ensures directory.byName == FileAll(old(directory.byName), FilingsOf(this, hub.hubId, shares))
      decreases |shares|
    {
      if shares == [] {
        return [];
      }
      var d := LocalizeShare(shares[0]);
      var rest := LocalizeAll(shares[1..]);
      localized := [d] + rest;
    }
  }
}
