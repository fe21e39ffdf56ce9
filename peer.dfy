/**
 * PeerConnectionHandler as an abstract state machine, the tube `_tube()`
 * hands out, and the RPCHandler that listens on a tube. The browser's
 * RTCPeerConnection is not modelled: the completion of createOffer,
 * createAnswer and setRemoteDescription, the arrival of a data channel or
 * an ICE candidate, the opening of the channel, an incoming message and a
 * FileReader's onload are input events.
 */
module Peer {
  import opened Values
  import opened RpcCodec
  import opened HubDb
  import opened Rpc

  const NoSignalHandler: string := "Need to send message but `onhavesignal` handler is not set."
  const ChannelNotOpen: string := "Connection exists, but data channel is not open."
  const NoSignalData: string := "TypeError: signal data is undefined or null"

  datatype ReadyState = Connecting | Open | Closing | Closed

  /** `_channel`: null until a channel is set up. */
  datatype Channel = NoChannel | Channel(readyState: ReadyState)

  /** A session description, as `new RTCSessionDescription(data)` reads it. */
  datatype Description = Description(descType: Value, sdp: Value)

  function OfferOf(sdp: string): Description {
    Description(Str("offer"), Str(sdp))
  }

  function AnswerOf(sdp: string): Description {
    Description(Str("answer"), Str(sdp))
  }

  /** The JSON form of a description handed to onhavesignal. */
  function DescriptionSignal(d: Description): Value {
    Obj([Field("type", d.descType), Field("sdp", d.sdp)])
  }

  /** `{candidate: c}`, the signal for a local ICE candidate. */
  function CandidateSignal(c: Value): Value {
    Obj([Field("candidate", c)])
  }

  /** Whether a remote description, once set, calls for an answer. */
  predicate NeedsAnswer(d: Description) {
    d.descType == Str("offer")
  }

  /** What receiveSignal does with a payload. */
  datatype SignalAction = ApplyDescription(desc: Description) | AddCandidate(candidate: Value) | Ignore

  /** receiveSignal's dispatch: a truthy `sdp` makes a remote description,
      otherwise a truthy `candidate` is added, otherwise nothing happens;
      reading a member of undefined or null throws. */
  function Classify(data: Value): Result<SignalAction> {
    if data.Undefined? || data.Null? then Throws(NoSignalData)
    else if Truthy(Member(data, "sdp")) then Ok(ApplyDescription(Description(Member(data, "type"), Member(data, "sdp"))))
    else if Truthy(Member(data, "candidate")) then Ok(AddCandidate(Member(data, "candidate")))
    else Ok(Ignore)
  }

  /** The signals one handler emits are understood by the handler on the
      other side: descriptions are applied, and only an offer is answered;
      candidates are added. */
  lemma SignalsUnderstood(sdp: string, c: Value)
    requires sdp != ""
    requires Truthy(c)
    ensures Classify(DescriptionSignal(OfferOf(sdp))) == Ok(ApplyDescription(OfferOf(sdp)))
    ensures Classify(DescriptionSignal(AnswerOf(sdp))) == Ok(ApplyDescription(AnswerOf(sdp)))
    ensures NeedsAnswer(OfferOf(sdp)) && !NeedsAnswer(AnswerOf(sdp))
    ensures Classify(CandidateSignal(c)) == Ok(AddCandidate(c))
  {
    assert Get([Field("candidate", c)], "sdp") == None;
    forall d: Description | d.sdp == Str(sdp)
      ensures Member(DescriptionSignal(d), "sdp") == Str(sdp)
      ensures Member(DescriptionSignal(d), "type") == d.descType
    {
      var fs := [Field("type", d.descType), Field("sdp", d.sdp)];
      assert fs[1..] == [Field("sdp", d.sdp)];
      assert Get(fs[1..], "sdp") == Some(d.sdp);
      assert fs[0].key != "sdp";
      assert Get(fs, "sdp") == Get(fs[1..], "sdp");
    }
  }

  /** Every payload gets exactly one treatment, and a payload with both a
      truthy `sdp` and a truthy `candidate` is treated as a description. */
  lemma ClassifyPriority(data: Value)
    requires data.Obj?
    ensures Classify(data).Ok?
    ensures Classify(data).value.ApplyDescription? <==> Truthy(Member(data, "sdp"))
    ensures Classify(data).value.AddCandidate? <==> !Truthy(Member(data, "sdp")) && Truthy(Member(data, "candidate"))
    ensures Classify(data).value.Ignore? <==> !Truthy(Member(data, "sdp")) && !Truthy(Member(data, "candidate"))
  {
  }

  /** Where onhavesignal posts: the hub, the `_id` prefix, the two parties
      and the info the signal carries. */
  datatype SignalRoute = SignalRoute(hub: Hub, idPrefix: string, sender: string, recipient: Value, info: Value)

  /** The negotiation state the browser keeps for the handler. */
  datatype Negotiation = Negotiation(
    offersRequested: nat,              // createOffer calls not yet completed
    answersRequested: nat,             // createAnswer calls not yet completed
    pendingRemote: seq<Description>,   // setRemoteDescription calls not yet completed
    localDescription: Option<Description>,
    remoteDescription: Option<Description>,
    candidates: seq<Value>)            // remote ICE candidates added

  const Fresh: Negotiation := Negotiation(0, 0, [], None, None, [])

  /** The negotiation after receiveSignal: a description waits for
      setRemoteDescription to complete, a candidate is added at once. */
  function Absorb(j: Negotiation, r: Result<SignalAction>): Negotiation {
    match r
    case Ok(ApplyDescription(d)) => j.(pendingRemote := j.pendingRemote + [d])
    case Ok(AddCandidate(c)) => j.(candidates := j.candidates + [c])
    case _ => j
  }

  class PeerConnection {
    const initiate: bool
    var channel: Channel
    var onHaveSignal: Option<SignalRoute>
    var hasOnConnection: bool
    var receiver: Tube?              // the tube `onreceivemessage` forwards to
    var jsep: Negotiation
    var sent: seq<Message>           // what the data channel accepted, in order

    /** The initiator creates its data channel at once; the responder
        waits for one to arrive. */
    constructor (initiate: bool)
      ensures this.initiate == initiate
      ensures channel == (if initiate then Channel(Connecting) else NoChannel)
      ensures onHaveSignal.None? && !hasOnConnection && receiver == null
      ensures jsep == Fresh && sent == []
    {
      this.initiate := initiate;
      channel := if initiate then Channel(Connecting) else NoChannel;
      onHaveSignal := None;
      hasOnConnection := false;
      receiver := null;
      jsep := Fresh;
      sent := [];
    }

    function RouteFrame(): set<object>
      reads this
    {
      if onHaveSignal.Some? then {onHaveSignal.value.hub} else {}
    }

    /** `_sendSignal`: without onhavesignal it throws; otherwise the route
        posts the signal to the hub under the `_id` prefix + uuid. */
    method SendSignal(signal: Value, uuid: string) returns (r: Result<Value>)
      modifies RouteFrame()
      ensures onHaveSignal.None? ==> r == Throws(NoSignalHandler)
      ensures onHaveSignal.Some? ==>
        var route := onHaveSignal.value;
        && r == Ok(SignalDoc(route.idPrefix + uuid, route.sender, route.recipient, signal, route.info))
        && route.hub.posted == old(route.hub.posted) + [r.value]
    {
      if onHaveSignal.None? {
        return Throws(NoSignalHandler);
      }
      var route := onHaveSignal.value;
      var doc := SignalDoc(route.idPrefix + uuid, route.sender, route.recipient, signal, route.info);
      route.hub.Post(doc);
      r := Ok(doc);
    }

    /** `onnegotiationneeded`: an offer is requested. */
    method NegotiationNeeded()
      modifies this
      ensures jsep == old(jsep).(offersRequested := old(jsep.offersRequested) + 1)
      ensures channel == old(channel) && onHaveSignal == old(onHaveSignal) && receiver == old(receiver)
      ensures hasOnConnection == old(hasOnConnection) && sent == old(sent)
    {
      jsep := jsep.(offersRequested := jsep.offersRequested + 1);
    }

    /** createOffer succeeded: the offer becomes the local description and
        is signalled. */
    method OfferCreated(sdp: string, uuid: string) returns (r: Result<Value>)
      requires jsep.offersRequested > 0
      modifies this, RouteFrame()
      ensures jsep == old(jsep).(offersRequested := old(jsep.offersRequested) - 1, localDescription := Some(OfferOf(sdp)))
      ensures channel == old(channel) && onHaveSignal == old(onHaveSignal) && receiver == old(receiver)
      ensures hasOnConnection == old(hasOnConnection) && sent == old(sent)
      ensures onHaveSignal.None? ==> r == Throws(NoSignalHandler)
      ensures onHaveSignal.Some? ==>
        var route := onHaveSignal.value;
        && r == Ok(SignalDoc(route.idPrefix + uuid, route.sender, route.recipient, DescriptionSignal(OfferOf(sdp)), route.info))
        && route.hub.posted == old(route.hub.posted) + [r.value]
    {
      jsep := jsep.(offersRequested := jsep.offersRequested - 1, localDescription := Some(OfferOf(sdp)));
      r := SendSignal(DescriptionSignal(OfferOf(sdp)), uuid);
    }

    /** createOffer failed: only a warning is logged. */
    method OfferFailed()
      requires jsep.offersRequested > 0
      modifies this
      ensures jsep == old(jsep).(offersRequested := old(jsep.offersRequested) - 1)
      ensures channel == old(channel) && onHaveSignal == old(onHaveSignal) && receiver == old(receiver)
      ensures hasOnConnection == old(hasOnConnection) && sent == old(sent)
    {
      jsep := jsep.(offersRequested := jsep.offersRequested - 1);
    }

    /** `receiveSignal(data)`. */
    method ReceiveSignal(data: Value) returns (r: Result<SignalAction>)
      modifies this
      ensures r == Classify(data)
      ensures jsep == Absorb(old(jsep), r)
      ensures channel == old(channel) && onHaveSignal == old(onHaveSignal) && receiver == old(receiver)
      ensures hasOnConnection == old(hasOnConnection) && sent == old(sent)
    {
      r := Classify(data);
      match r
      case Ok(ApplyDescription(d)) =>
        jsep := jsep.(pendingRemote := jsep.pendingRemote + [d]);
      case Ok(AddCandidate(c)) =>
        jsep := jsep.(candidates := jsep.candidates + [c]);
      case _ =>
    }

    /** The oldest setRemoteDescription completed: an answer is requested
        exactly when the description is an offer. */
    method RemoteDescriptionSet() returns (needsAnswer: bool)
      requires |jsep.pendingRemote| > 0
      modifies this
      ensures needsAnswer == NeedsAnswer(old(jsep.pendingRemote[0]))
      ensures jsep == old(jsep).(
        pendingRemote := old(jsep.pendingRemote[1..]),
        remoteDescription := Some(old(jsep.pendingRemote[0])),
        answersRequested := old(jsep.answersRequested) + if needsAnswer then 1 else 0)
      ensures channel == old(channel) && onHaveSignal == old(onHaveSignal) && receiver == old(receiver)
      ensures hasOnConnection == old(hasOnConnection) && sent == old(sent)
    {
      var d := jsep.pendingRemote[0];
      needsAnswer := NeedsAnswer(d);
      jsep := jsep.(pendingRemote := jsep.pendingRemote[1..], remoteDescription := Some(d),
                    answersRequested := jsep.answersRequested + if needsAnswer then 1 else 0);
    }

    /** The oldest setRemoteDescription failed: only a warning is logged. */
    method RemoteDescriptionFailed()
      requires |jsep.pendingRemote| > 0
      modifies this
      ensures jsep == old(jsep).(pendingRemote := old(jsep.pendingRemote[1..]))
      ensures channel == old(channel) && onHaveSignal == old(onHaveSignal) && receiver == old(receiver)
      ensures hasOnConnection == old(hasOnConnection) && sent == old(sent)
    {
      jsep := jsep.(pendingRemote := jsep.pendingRemote[1..]);
    }

    /** createAnswer succeeded: the answer becomes the local description
        and is signalled. */
    method AnswerCreated(sdp: string, uuid: string) returns (r: Result<Value>)
      requires jsep.answersRequested > 0
      modifies this, RouteFrame()
      ensures jsep == old(jsep).(answersRequested := old(jsep.answersRequested) - 1, localDescription := Some(AnswerOf(sdp)))
      ensures channel == old(channel) && onHaveSignal == old(onHaveSignal) && receiver == old(receiver)
      ensures hasOnConnection == old(hasOnConnection) && sent == old(sent)
      ensures onHaveSignal.None? ==> r == Throws(NoSignalHandler)
      ensures onHaveSignal.Some? ==>
        var route := onHaveSignal.value;
        && r == Ok(SignalDoc(route.idPrefix + uuid, route.sender, route.recipient, DescriptionSignal(AnswerOf(sdp)), route.info))
        && route.hub.posted == old(route.hub.posted) + [r.value]
    {
      jsep := jsep.(answersRequested := jsep.answersRequested - 1, localDescription := Some(AnswerOf(sdp)));
      r := SendSignal(DescriptionSignal(AnswerOf(sdp)), uuid);
    }

    /** createAnswer failed: only a warning is logged. */
    method AnswerFailed()
      requires jsep.answersRequested > 0
      modifies this
      ensures jsep == old(jsep).(answersRequested := old(jsep.answersRequested) - 1)
      ensures channel == old(channel) && onHaveSignal == old(onHaveSignal) && receiver == old(receiver)
      ensures hasOnConnection == old(hasOnConnection) && sent == old(sent)
    {
      jsep := jsep.(answersRequested := jsep.answersRequested - 1);
    }

    /** `onicecandidate`: only a non-null candidate is signalled. */
    method IceCandidate(c: Value, uuid: string) returns (r: Result<Option<Value>>)
      modifies RouteFrame()
      ensures !Truthy(c) ==> r == Ok(None) && (onHaveSignal.Some? ==> unchanged(onHaveSignal.value.hub))
      ensures Truthy(c) && onHaveSignal.None? ==> r == Throws(NoSignalHandler)
      ensures Truthy(c) && onHaveSignal.Some? ==>
        var route := onHaveSignal.value;
        && r == Ok(Some(SignalDoc(route.idPrefix + uuid, route.sender, route.recipient, CandidateSignal(c), route.info)))
        && route.hub.posted == old(route.hub.posted) + [r.value.value]
    {
      if !Truthy(c) {
        return Ok(None);
      }
      var s := SendSignal(CandidateSignal(c), uuid);
      r := if s.Ok? then Ok(Some(s.value)) else Throws(s.error);
    }

    /** `ondatachannel`: set only on a responder, which takes the channel. */
    method DataChannelArrived(state: ReadyState)
      modifies this
      ensures channel == if initiate then old(channel) else Channel(state)
      ensures jsep == old(jsep) && onHaveSignal == old(onHaveSignal) && receiver == old(receiver)
      ensures hasOnConnection == old(hasOnConnection) && sent == old(sent)
    {
      if !initiate {
        channel := Channel(state);
      }
    }

    /** The channel's `onopen`: onconnection runs if it is set. */
    method ChannelOpened() returns (connected: bool)
      requires channel.Channel?
      modifies this
      ensures channel == Channel(Open)
      ensures connected == hasOnConnection
      ensures jsep == old(jsep) && onHaveSignal == old(onHaveSignal) && receiver == old(receiver)
      ensures hasOnConnection == old(hasOnConnection) && sent == old(sent)
    {
      channel := Channel(Open);
      connected := hasOnConnection;
    }

    /** The browser closes the channel. */
    method ChannelClosed()
      requires channel.Channel?
      modifies this
      ensures channel == Channel(Closed)
      ensures jsep == old(jsep) && onHaveSignal == old(onHaveSignal) && receiver == old(receiver)
      ensures hasOnConnection == old(hasOnConnection) && sent == old(sent)
    {
      channel := Channel(Closed);
    }

    /** `sendMessage(data)`: only an open channel accepts data. */
    method SendMessage(m: Message) returns (r: Result<()>)
      modifies this
      ensures r.Ok? <==> old(channel) == Channel(Open)
      ensures r.Throws? ==> r.error == ChannelNotOpen
      ensures sent == old(sent) + if r.Ok? then [m] else []
      ensures channel == old(channel) && jsep == old(jsep) && onHaveSignal == old(onHaveSignal)
      ensures receiver == old(receiver) && hasOnConnection == old(hasOnConnection)
    {
      if channel != Channel(Open) {
        return Throws(ChannelNotOpen);
      }
      sent := sent + [m];
      r := Ok(());
    }

    /** `_tube()`: a new tube, which from now on receives the channel's
        messages in place of any earlier one. */
    method MakeTube() returns (t: Tube)
      modifies this
      ensures fresh(t) && t.conn == this && t.handler == null
      ensures receiver == t && receiver != old(receiver)
      ensures channel == old(channel) && jsep == old(jsep) && onHaveSignal == old(onHaveSignal)
      ensures hasOnConnection == old(hasOnConnection) && sent == old(sent)
    {
      t := new Tube(this);
      receiver := t;
    }

    /** What the channel's `onmessage` reaches: the handler listening on
        the current tube, if any. */
    function Listener(): RpcHandler?
      reads this, receiver
    {
      if receiver != null then receiver.handler else null
    }

    /** The channel's `onmessage`: the message goes to the current tube,
        and from there to the RPC handler listening on it; with no tube, or
        a tube nobody listens on, it is dropped. Only that handler changes,
        so a tube replaced by a later `_tube()` never receives again. */
    method ChannelMessage(m: Message, marks: KeepMarks) returns (o: Option<Outcome>)
      modifies Listener()
      ensures Listener() == old(Listener())
      ensures o.Some? <==> Listener() != null
      ensures Listener() != null ==> Listener().Received(m, marks.kept, o.value)
    {
      var h := Listener();
      if h == null {
        return None;
      }
      var out := h.OnMessage(m, marks);
      o := Some(out);
    }
  }

  /** The object `_tube()` returns. */
  class Tube {
    const conn: PeerConnection
    var handler: RpcHandler?         // whose `onmessage` is bound here

    constructor (conn: PeerConnection)
      ensures this.conn == conn && handler == null
    {
      this.conn := conn;
      handler := null;
    }

    /** `tube.send(data)` forwards to the handler's sendMessage. */
    method Send(m: Message) returns (r: Result<()>)
      modifies conn
      ensures r.Ok? <==> old(conn.channel) == Channel(Open)
      ensures r.Throws? ==> r.error == ChannelNotOpen
      ensures conn.sent == old(conn.sent) + if r.Ok? then [m] else []
      ensures conn.channel == old(conn.channel) && conn.jsep == old(conn.jsep)
      ensures conn.onHaveSignal == old(conn.onHaveSignal) && conn.receiver == old(conn.receiver)
      ensures conn.hasOnConnection == old(conn.hasOnConnection)
    {
      r := conn.SendMessage(m);
    }
  }

  /** `RPCHandler(tube)`. */
  class RpcHandler {
    const tube: Tube
    const ids: IdOracle                 // this handler's supply of fresh function ids
    var exposed: Registry               // `_exposed_fns`
    var buffer: seq<BlobRef>            // `blobsForNextCall`
    var next: nat                       // how many ids have been drawn
    var hasOnBootstrap: bool
    var bootstraps: seq<seq<Value>>     // the argument lists onbootstrap was called with
    var reading: map<nat, seq<Message>> // per FileReader at work: the queue from its Blob on
    var readers: nat                    // FileReaders started so far

    /** The registry starts with the bound bootstrap function, and the
        handler listens on the tube. */
    constructor (tube: Tube, ids: IdOracle)
      modifies tube
      ensures this.tube == tube && this.ids == ids
      ensures exposed == map[BootstrapId := BootstrapFn]
      ensures buffer == [] && next == 0 && !hasOnBootstrap && bootstraps == []
      ensures reading == map[] && readers == 0
      ensures tube.handler == this
    {
      this.tube := tube;
      this.ids := ids;
      exposed := map[BootstrapId := BootstrapFn];
      buffer := [];
      next := 0;
      hasOnBootstrap := false;
      bootstraps := [];
      reading := map[];
      readers := 0;
      new;
      tube.handler := this;
    }

    /** `serialize(obj)`: the messages to send; every function met is
        registered under a fresh id. */
    method Serialize(v: Value) returns (messages: seq<Message>)
      modifies this
      ensures var e := RpcCodec.Serialize(v, old(exposed), old(next), ids);
        && messages == Messages(e)
        && exposed == e.st.exposed && next == e.st.next
      ensures buffer == old(buffer) && hasOnBootstrap == old(hasOnBootstrap) && bootstraps == old(bootstraps)
      ensures reading == old(reading) && readers == old(readers)
    {
      var e := RpcCodec.Serialize(v, exposed, next, ids);
      exposed := e.st.exposed;
      next := e.st.next;
      messages := Messages(e);
    }

    /** `_callRemote(fn, args)`: serialize the call, then let `processNext`
        work through the list. Texts at the head are sent at once; the first
        Blob starts a FileReader and the call returns, the rest waiting for
        that reader's onload. A send on a channel that is not open throws,
        after the call's functions have been registered. */
    method CallRemote(fn: Value, args: seq<Value>) returns (r: Result<()>)
      modifies this, tube.conn
      ensures var e := RpcCodec.Serialize(Envelope(fn, args), old(exposed), old(next), ids);
        var ms := Messages(e);
        var n := TextRun(ms);
        && exposed == e.st.exposed && next == e.st.next
        && (r.Ok? <==> old(tube.conn.channel) == Channel(Open) || n == 0)
        && (r.Throws? ==> r.error == ChannelNotOpen)
        && tube.conn.sent == old(tube.conn.sent) + (if r.Ok? then ms[..n] else [])
        && reading == (if r.Ok? && n < |ms| then old(reading)[old(readers) := ms[n..]] else old(reading))
        && readers == old(readers) + (if r.Ok? && n < |ms| then 1 else 0)
      ensures buffer == old(buffer) && hasOnBootstrap == old(hasOnBootstrap) && bootstraps == old(bootstraps)
      ensures tube.conn.channel == old(tube.conn.channel) && tube.conn.jsep == old(tube.conn.jsep)
      ensures tube.conn.onHaveSignal == old(tube.conn.onHaveSignal) && tube.conn.receiver == old(tube.conn.receiver)
      ensures tube.conn.hasOnConnection == old(tube.conn.hasOnConnection)
    {
      var messages := Serialize(Envelope(fn, args));
      r := Process(messages);
    }

    /** `processNext` on a queue: the leading texts are sent; a Blob after
        them starts a FileReader that takes over the rest of the queue. */
    method Process(q: seq<Message>) returns (r: Result<()>)
      modifies this, tube.conn
      ensures var n := TextRun(q);
        && (r.Ok? <==> old(tube.conn.channel) == Channel(Open) || n == 0)
        && (r.Throws? ==> r.error == ChannelNotOpen)
        && tube.conn.sent == old(tube.conn.sent) + (if r.Ok? then q[..n] else [])
        && reading == (if r.Ok? && n < |q| then old(reading)[old(readers) := q[n..]] else old(reading))
        && readers == old(readers) + (if r.Ok? && n < |q| then 1 else 0)
      ensures exposed == old(exposed) && next == old(next)
      ensures buffer == old(buffer) && hasOnBootstrap == old(hasOnBootstrap) && bootstraps == old(bootstraps)
      ensures tube.conn.channel == old(tube.conn.channel) && tube.conn.jsep == old(tube.conn.jsep)
      ensures tube.conn.onHaveSignal == old(tube.conn.onHaveSignal) && tube.conn.receiver == old(tube.conn.receiver)
      ensures tube.conn.hasOnConnection == old(tube.conn.hasOnConnection)
    {
      var n := SendTexts(q);
      if n.Throws? {
        return Throws(n.error);
      }
      if n.value < |q| {
        reading := reading[readers := q[n.value..]];
        readers := readers + 1;
      }
      r := Ok(());
    }

    /** The synchronous part of `processNext`: texts are sent one after
        another until the queue ends or a Blob comes up; the number sent is
        returned. The first failed send ends it with its error. */
    method SendTexts(q: seq<Message>) returns (r: Result<nat>)
      modifies tube.conn
      ensures r.Ok? <==> old(tube.conn.channel) == Channel(Open) || TextRun(q) == 0
      ensures r.Ok? ==> r.value == TextRun(q)
      ensures r.Throws? ==> r.error == ChannelNotOpen
      ensures tube.conn.sent == old(tube.conn.sent) + if r.Ok? then q[..TextRun(q)] else []
      ensures tube.conn.channel == old(tube.conn.channel) && tube.conn.jsep == old(tube.conn.jsep)
      ensures tube.conn.onHaveSignal == old(tube.conn.onHaveSignal) && tube.conn.receiver == old(tube.conn.receiver)
      ensures tube.conn.hasOnConnection == old(tube.conn.hasOnConnection)
    {
      var conn := tube.conn;
      var i := 0;
      while i < |q| && !q[i].Binary?
        invariant 0 <= i <= TextRun(q)
        invariant conn.sent == old(conn.sent) + q[..i]
        invariant conn.channel == old(conn.channel) && conn.jsep == old(conn.jsep)
        invariant conn.onHaveSignal == old(conn.onHaveSignal) && conn.receiver == old(conn.receiver)
        invariant conn.hasOnConnection == old(conn.hasOnConnection)
        invariant old(conn.channel) == Channel(Open) || i == 0
      {
        var sent := tube.Send(q[i]);
        if sent.Throws? {
          return Throws(sent.error);
        }
        assert q[..i + 1] == q[..i] + [q[i]];
        i := i + 1;
      }
      r := Ok(i);
    }

    /** A FileReader's onload: the Blob it read is sent, then `processNext`
        goes on with the rest of that queue. A failed send throws inside
        onload, which drops the rest of the queue. */
    method BlobLoaded(reader: nat) returns (r: Result<()>)
      requires reader in reading && reading[reader] != []
      modifies this, tube.conn
      ensures var q := old(reading[reader]);
        var n := TextRun(q[1..]);
        && (r.Ok? <==> old(tube.conn.channel) == Channel(Open))
        && (r.Throws? ==> r.error == ChannelNotOpen)
        && tube.conn.sent == old(tube.conn.sent) + (if r.Ok? then q[..1 + n] else [])
        && reading == (if r.Ok? && 1 + n < |q| then (old(reading) - {reader})[old(readers) := q[1 + n..]]
                       else old(reading) - {reader})
        && readers == old(readers) + (if r.Ok? && 1 + n < |q| then 1 else 0)
      ensures exposed == old(exposed) && next == old(next)
      ensures buffer == old(buffer) && hasOnBootstrap == old(hasOnBootstrap) && bootstraps == old(bootstraps)
      ensures tube.conn.channel == old(tube.conn.channel) && tube.conn.jsep == old(tube.conn.jsep)
      ensures tube.conn.onHaveSignal == old(tube.conn.onHaveSignal) && tube.conn.receiver == old(tube.conn.receiver)
      ensures tube.conn.hasOnConnection == old(tube.conn.hasOnConnection)
    {
      var q := reading[reader];
      reading := reading - {reader};
      var sent := tube.Send(q[0]);
      if sent.Throws? {
        return Throws(sent.error);
      }
      var rest := Process(q[1..]);
      assert q[..1] + q[1..][..TextRun(q[1..])] == q[..1 + TextRun(q[1..])];
      assert q[1..][TextRun(q[1..])..] == q[1 + TextRun(q[1..])..];
      r := rest;
    }

    /** `bootstrap(...)`: a call to the reserved bootstrap id. */
    method Bootstrap(args: seq<Value>) returns (r: Result<()>)
      modifies this, tube.conn
      ensures var e := RpcCodec.Serialize(Envelope(Str(BootstrapId), args), old(exposed), old(next), ids);
        var ms := Messages(e);
        var n := TextRun(ms);
        && exposed == e.st.exposed && next == e.st.next
        && (r.Ok? <==> old(tube.conn.channel) == Channel(Open) || n == 0)
        && tube.conn.sent == old(tube.conn.sent) + (if r.Ok? then ms[..n] else [])
        && reading == (if r.Ok? && n < |ms| then old(reading)[old(readers) := ms[n..]] else old(reading))
        && readers == old(readers) + (if r.Ok? && n < |ms| then 1 else 0)
      ensures buffer == old(buffer) && hasOnBootstrap == old(hasOnBootstrap) && bootstraps == old(bootstraps)
      ensures tube.conn.channel == old(tube.conn.channel) && tube.conn.jsep == old(tube.conn.jsep)
      ensures tube.conn.onHaveSignal == old(tube.conn.onHaveSignal) && tube.conn.receiver == old(tube.conn.receiver)
      ensures tube.conn.hasOnConnection == old(tube.conn.hasOnConnection)
    {
      r := CallRemote(Str(BootstrapId), args);
    }

    /** What handling message m did to this handler, given the keep marks:
        the buffer and registry follow `Deserialize` and `Dispatch`, and a
        bootstrap call is recorded when onbootstrap is set. */
    twostate predicate Received(m: Message, kept: set<FnRef>, o: Outcome)
      reads this
    {
      var r := Deserialize(old(buffer), m);
      && buffer == r.buf
      && (r.call.None? ==> o == Buffered && exposed == old(exposed))
      && (r.call.Some? ==>
            var d := Dispatch(old(exposed), r.call.value, kept);
            o == d.outcome && exposed == d.exposed)
      && bootstraps == old(bootstraps) + (if o.Invoked? && o.target == BootstrapFn && hasOnBootstrap then [o.args] else [])
      && next == old(next) && hasOnBootstrap == old(hasOnBootstrap)
      && reading == old(reading) && readers == old(readers)
    }

    /** `tube.onmessage`: deserialize, then dispatch. A Blob only joins the
        buffer; a bootstrap call reaches onbootstrap when it is set;
        whatever the invoked function throws is swallowed. */
    method OnMessage(m: Message, marks: KeepMarks) returns (o: Outcome)
      modifies this
      ensures Received(m, marks.kept, o)
    {
      var r := Deserialize(buffer, m);
      buffer := r.buf;
      if r.call.None? {
        return Buffered;
      }
      var d := Dispatch(exposed, r.call.value, marks.kept);
      exposed := d.exposed;
      o := d.outcome;
      if o.Invoked? && o.target == BootstrapFn && hasOnBootstrap {
        bootstraps := bootstraps + [o.args];
      }
    }
  }
}
