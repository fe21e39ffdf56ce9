# PeerPouch in Dafny

PeerPouch lets one browser use a PouchDB database that lives in another
browser. The two peers meet on a shared **hub** database:

- A sharing peer calls `shareDatabase`. This posts a *share document* to the hub and watches the hub for *signal documents* addressed to that share.
- A client peer lists the shares with `getSharedDatabases` and opens one as `webrtc://<hub id>/<share id>`.
- That open exchanges WebRTC offers, answers and ICE candidates through signal documents until a data channel opens.
- Over the data channel, a small RPC layer lets the client call the sharing peer's database adapter methods. Function arguments become remote proxies. Blobs travel as binary messages ahead of the call that refers to them.

This project models the core of `pouch.webrtc.js` and proves properties of
that model.

| file | module | what it models |
|---|---|---|
| `values.dfy` | `Values` | JavaScript values as the code sees them. Objects keep their members in the order they were added, which is JavaScript's enumeration order for keys that are not integer-like. Property reads and writes, truthiness, property-key conversion. |
| `rpc_codec.dfy` | `RpcCodec` | `serialize` and `deserialize` of `RPCHandler`, as functions on value trees. They thread the Blob list, the registry of exposed functions, and a supply of fresh ids. `Transported` is what the receiver is meant to rebuild. |
| `rpc_codec_proofs.dfy` | `RpcCodecProofs` | Blob numbering, function registration, the round trip, and the receive buffer that is never reset. |
| `rpc.dfy` | `Rpc` | Dispatch of a received call, with one-shot and kept lifetimes, and the bursts in which `_callRemote` sends a call. |
| `peer.dfy` | `Peer` | `PeerConnectionHandler` as a class whose browser callbacks are methods. Signal dispatch, the signal and send guards, the tube, and the `RPCHandler` class listening on it: its registry, receive buffer, `_callRemote` bursts with their FileReaders, and bootstrap. |
| `hub.dfy` | `HubDb` | The hub, as the log of documents posted to it. |
| `watchers.dfy` | `Watchers` | The change-feed watcher multiplexer. It is a state `Mux` with the transitions `Add`, `Remove`, `InfoArrived` and `Deliver`, and an invariant that holds in every reachable state. |
| `uri.dfy` | `Uri` | `encodeURIComponent` (UTF-8 percent-encoding), and `DecodeEncoded`, its inverse on the strings it writes. The code never decodes; the decoder is not ECMAScript's `decodeURIComponent`. |
| `api.dfy` | `Api` | `_wrappedAPI`, the two errors the plugin adds, and `destroy`. |
| `share.dfy` | `Share` | `SharePouch`: watchers, `share`, `unshare`, `_localizeShare`, `_isLocal`, `getShares`. Also the per-share signal handling and the global directory of share initializers. |
| `client.dfy` | `Client` | The `PeerPouch` constructor, the API it fills in at bootstrap, and the cancel latch of the `_changes` override. |

Asynchronous completions are methods, called when the environment delivers them. These include:
- `hub.info`, `hub.post` and `hub.allDocs` results;
- a change arriving;
- `onopen`, `ondatachannel` and `onicecandidate`;
- a `createOffer` result.

Ids from `Pouch.uuid()` are parameters. Ids from `Math.random()` come from an id oracle `ids: nat -> string`, one per RPC handler.

The code has several defects. They are modelled as written, and lemmas state their effect:
- the first watcher of each type is lost;
- the receive buffer is never cleared;
- `share` stores the `share` function in place of the share document, so `unshare` fails;
- `_isLocal` throws;
- `opts.name` is read before the options are normalised;
- function ids are never checked for collision.

## Model

| member | source | states |
|---|---|---|
| Values.SetMember | pouch.webrtc.js:36 | A property write: the key then reads as the new value, and every other key reads as before. |
| Values.RemoveMember | pouch.webrtc.js:59 | `delete o[k]`: the key then reads as undefined, and every other key reads as before. |
| RpcCodecProofs.SerializeBlobs | pouch.webrtc.js:326-361 | serialize lists each distinct Blob exactly once, in first-encounter order, and no other Blob. The JSON text exists unless the root is an IDBTransaction or undefined. |
| RpcCodecProofs.SerializeRegisters | pouch.webrtc.js:329-338 | Every function met is registered, in pre-order, under the id drawn for it. When the drawn ids are distinct, each one maps to its function afterwards and every other entry is kept. |
| RpcCodecProofs.SerializeKeepsBootstrap | pouch.webrtc.js:333-334 | No drawn id can be `__BOOTSTRAP__` (ids are digit strings), so serializing never replaces the bootstrap entry. |
| RpcCodecProofs.SerializeOverwritesOnCollision | pouch.webrtc.js:333-334 | Ids are not checked. A drawn id equal to a live entry replaces that entry with the new function. |
| RpcCodecProofs.RoundTrip | pouch.webrtc.js:329-380 | Reviving the encoding of a value against any buffer that starts with its Blobs gives `Transported`. Functions become proxies for their ids and Blob references resolve to their Blobs. This needs the value to have no object with a reserved member. |
| RpcCodecProofs.ReviveOrdinaryObject | pouch.webrtc.js:367-379 | An object whose `__remote_fn` and `__blob` members are falsy is revived as itself. |
| RpcCodecProofs.WireRoundTrip | pouch.webrtc.js:326-385 | Receiving serialize's messages, in order, on a fresh receiver buffers exactly the Blobs sent and yields `Transported(v)` as the call. |
| RpcCodecProofs.StaleReceiveBuffer | pouch.webrtc.js:363-385 | The buffer is never reset, so references resolve against every Blob received so far on the link. A Blob sent alone comes back as itself on a fresh link. Sent after another Blob, it comes back as that earlier Blob. |
| Values.DecimalReadsBack | pouch.webrtc.js:373 | Reading an integer's decimal text as a number, as `v.__blob - 1` does with a text index, gives back the integer. |
| RpcCodecProofs.ConvertedBlobIndex | pouch.webrtc.js:372-378 | `__blob` is read as a number: the index n, its text and the array [n] all find the n-th buffered Blob, and an index outside the buffer gives the Blob of "undefined". |
| RpcCodecProofs.ReviveTextBlobRef | pouch.webrtc.js:372-378 | A reference `{"__blob": "n"}` with the index written as text revives to the n-th buffered Blob. |
| RpcCodecProofs.PlainPassesThrough | pouch.webrtc.js:326-380 | A value with no function, Blob, IDBTransaction or undefined crosses the link unchanged. It registers nothing, sends no Blob, and leaves any receive buffer alone. |
| Rpc.DispatchFinds | pouch.webrtc.js:428-453 | A call is dropped with the registry unchanged exactly when its `fn` is not registered. Otherwise it reaches the registered function, which is deleted first unless it is kept. |
| Rpc.ArgListLength | pouch.webrtc.js:449 | `apply` with an object of arguments reads its `length` as a number: a text length gives the same arguments as the number, a negative one none, and one that is NaN none. |
| Rpc.OneShotUnlessKept | pouch.webrtc.js:442-445 | Sending the same call twice: it reaches a kept function both times, with the registry unchanged. A function that is not kept is reached once, and the second call is dropped. |
| Rpc.BootstrapOnlyOnce | pouch.webrtc.js:422-426 | The bootstrap function is not kept, so only the first bootstrap call on a link reaches it. The second one is dropped. |
| Rpc.EnvelopeMembers | pouch.webrtc.js:390-393 | The call envelope carries the function under `fn` and the arguments, as an array, under `args`. |
| Rpc.ProxyReachesFunction | pouch.webrtc.js:326-453 | End to end: one side serializes v, and the other side calls the proxy for one of v's functions with plain arguments. That call, received against any buffer, reaches exactly that function with exactly those arguments, provided the ids drawn for v are distinct. |
| Peer.RpcHandler.constructor | pouch.webrtc.js:313-319 | A new handler: the registry holds only the bootstrap function, the buffer is empty, no FileReader is at work, and the tube now delivers its messages to this handler. |
| Peer.RpcHandler.Serialize | pouch.webrtc.js:326-361 | Returns the messages of `RpcCodec.Serialize` and keeps its registry and id count. |
| Peer.RpcHandler.CallRemote | pouch.webrtc.js:388-420 | The call's functions are registered first. The texts before the first Blob are sent in order; if that run is not empty and the channel is closed, the first send throws and nothing is sent. A Blob after the run is handed to a new FileReader with the rest of the list, and the call returns normally. |
| Peer.RpcHandler.Process | pouch.webrtc.js:396-413 | `processNext` on a list: exactly the leading texts are sent, and the remainder, which starts with a Blob, becomes the queue of a new FileReader. |
| Peer.RpcHandler.SendTexts | pouch.webrtc.js:396-413 | Sends messages up to the first Blob, returns how many that is (`TextRun`), and fails with ChannelNotOpen with nothing sent when the channel is closed and there is a text to send. |
| Peer.RpcHandler.BlobLoaded | pouch.webrtc.js:405-408 | A FileReader's onload sends its Blob and goes on with the texts after it, handing a later Blob to a new reader. A closed channel throws inside onload and drops the rest, so a call can be sent in part. |
| Peer.RpcHandler.Bootstrap | pouch.webrtc.js:456-458 | A remote call to `__BOOTSTRAP__` with the given arguments, sent as `CallRemote` sends. |
| Peer.RpcHandler.OnMessage | pouch.webrtc.js:428-453 | A Blob joins the buffer and calls nothing. A text is dispatched as `Dispatch` says. A bootstrap call is recorded only when onbootstrap is set. Throws from the invoked function are swallowed. |
| Rpc.TextRun | pouch.webrtc.js:396-413 | The number of messages `processNext` sends before it meets a Blob or the end of the list: all before it are texts, and the one at it is a Blob. |
| Rpc.CallBursts | pouch.webrtc.js:388-420 | For the messages of a serialized call: with no Blob everything goes in the first burst; otherwise the first burst is empty, the onload of each Blob but the last sends only that Blob, and the onload of the last Blob sends it and the call text. |
| Peer.SignalsUnderstood | pouch.webrtc.js:220-253 | The signals one handler emits are understood on the other side: offers and answers are applied as descriptions, only an offer is answered, and candidates are added. |
| Peer.ClassifyPriority | pouch.webrtc.js:226-252 | Each object payload gets exactly one treatment. A truthy `sdp` wins over a truthy `candidate`, and neither means ignore. |
| Peer.PeerConnection.constructor | pouch.webrtc.js:150-177 | The initiator creates its data channel at once. The responder has none until one arrives. There are no signal or connection handlers yet. |
| Peer.PeerConnection.SendSignal | pouch.webrtc.js:210-218 | Throws when `onhavesignal` is unset. Otherwise posts a signal document on the handler's route with the signal as data. |
| Peer.PeerConnection.NegotiationNeeded | pouch.webrtc.js:178-182 | Requests an offer, and nothing else changes. |
| Peer.PeerConnection.OfferCreated | pouch.webrtc.js:182-187 | The offer becomes the local description and is sent as a signal. |
| Peer.PeerConnection.OfferFailed | pouch.webrtc.js:188-190 | The request ends, and nothing is sent. |
| Peer.PeerConnection.ReceiveSignal | pouch.webrtc.js:220-253 | The payload's treatment is `Classify(data)`. A description waits to be set, a candidate is added, and anything else is ignored. Undefined or null data throws. |
| Peer.PeerConnection.RemoteDescriptionSet | pouch.webrtc.js:227-242 | The oldest pending description becomes the remote one. An answer is requested exactly when it is an offer. |
| Peer.PeerConnection.RemoteDescriptionFailed | pouch.webrtc.js:243-245 | The pending description is dropped. |
| Peer.PeerConnection.AnswerCreated | pouch.webrtc.js:233-238 | The answer becomes the local description and is sent as a signal. |
| Peer.PeerConnection.AnswerFailed | pouch.webrtc.js:239-241 | The request ends, and nothing is sent. |
| Peer.PeerConnection.IceCandidate | pouch.webrtc.js:192-196 | Only a truthy candidate is signalled, as `{candidate: c}`. |
| Peer.PeerConnection.DataChannelArrived | pouch.webrtc.js:176 | The responder takes the channel that arrives. The initiator keeps its own. |
| Peer.PeerConnection.ChannelOpened | pouch.webrtc.js:271-278 | The channel is open. onconnection runs exactly when it is set. |
| Peer.PeerConnection.ChannelClosed | pouch.webrtc.js:256-258 | The channel is closed, so later sends fail their open-channel guard. Nothing else changes. |
| Peer.PeerConnection.SendMessage | pouch.webrtc.js:255-260 | The message is sent exactly when the channel is open. Otherwise the call throws and nothing is sent. |
| Peer.PeerConnection.MakeTube | pouch.webrtc.js:298-311 | A new tube nobody listens on yet. The handler's onreceivemessage now forwards to it and no longer to any earlier tube. |
| Peer.PeerConnection.ChannelMessage | pouch.webrtc.js:279-289 | A channel message goes to the current tube and from there to the RPC handler listening on it, which handles it as `OnMessage` does; only that handler changes, so an earlier tube never receives again. With no tube or no listener the message is dropped. |
| Peer.Tube.Send | pouch.webrtc.js:302-304 | The same guard and effect as `SendMessage` on the handler. |
| HubDb.Hub.Post | pouch.webrtc.js:552 | The document is appended to the hub's log. |
| Watchers.AddReachable | pouch.webrtc.js:477-521 | addWatcher keeps the multiplexer invariant. The invariant: the count equals the stored callbacks plus one lost first callback per type, no listener was ever cancelled, and there is exactly one `hub.info` request and at most one feed. |
| Watchers.RemoveReachable | pouch.webrtc.js:523-534 | removeWatcher keeps the invariant. |
| Watchers.InfoArrivedReachable | pouch.webrtc.js:491-514 | The `hub.info` callback keeps the invariant. |
| Watchers.InitialReachable | pouch.webrtc.js:464-466 | The initial state satisfies the invariant. |
| Watchers.CountCoversStored | pouch.webrtc.js:477-534 | In every reachable state, `watcherCount` is at least the number of stored callbacks and never negative. |
| Watchers.ListenerNeverStopped | pouch.webrtc.js:530-533 | Once any watcher was added, removing watchers never cancels the shared listener, because the count cannot fall below 1. |
| Watchers.ListenerStartedWhenNone | pouch.webrtc.js:486-490 | addWatcher changes the listener exactly when there was none. It then starts one `hub.info` request. |
| Watchers.FirstWatcherLost | pouch.webrtc.js:478-484 | In every reachable state, the first watcher of a new type is never called. Its cancel leaves the count one higher than before the add, and the listener the add left running stays. |
| Watchers.LaterWatcherStored | pouch.webrtc.js:478-507 | For a type already present, a new watcher is called after the earlier ones, and the count rises by one. |
| Watchers.RemoveOneOccurrence | pouch.webrtc.js:523-529 | Removing a stored callback takes out exactly one occurrence and lowers the count by one. Removing one that is not stored changes neither. |
| Share.SharePouch.constructor | pouch.webrtc.js:460-475 | Counters zero, no watchers, no listener, both share maps empty. |
| Share.SharePouch.AddWatcher | pouch.webrtc.js:477-521 | The new state is `Add(old state)`. The handle returned cancels this type and callback. |
| Share.SharePouch.RemoveWatcher | pouch.webrtc.js:523-534 | The new state is `Remove(old state)`. |
| Share.SharePouch.InfoArrived | pouch.webrtc.js:491-514 | The new state is `InfoArrived(old state)`: a feed opens unless the request was cancelled, in which case the listener is cleared. |
| Share.SharePouch.ChangeArrived | pouch.webrtc.js:501-508 | The callbacks called are those `Deliver` gives for the watcher state the pouch holds: the callbacks of watchers on the document's type, in order. |
| Share.SharePouch.Share | pouch.webrtc.js:536-624 | Undefined or null options throw before anything happens. Otherwise a share record with id `share-<uuid>` is created, and the share document is posted; when opts is a function, the document's name is that function's `name` (null if empty) and its info is null. A signal watcher is added, and the `share` function is stored under both ids. |
| Share.ShareRecord.PostCompleted | pouch.webrtc.js:552-559 | The revision is kept only on success. The callback runs either way when there is one. |
| Share.ShareRecord.OnSignal | pouch.webrtc.js:561-622 | Signals for another recipient change nothing. A sender gets a responder handler the first time, which is reused afterwards. The handler signals back to that sender with the share's info. A consumed signal is soft-deleted unless handling it threw. No other handler changes. |
| Share.ShareRecord.OnPeerConnected | pouch.webrtc.js:591-610 | A veto from onRemote stops the connection with nothing sent. Otherwise a new RPC handler bootstraps the peer with the wrapped API, whose functions are marked kept. |
| Share.Requester.OnSignal | pouch.webrtc.js:666-680 | The requester takes only signals from the share to its own client id. Their data goes to the handler, and the signal is soft-deleted unless that threw. |
| Share.SharePouch.Unshare | pouch.webrtc.js:626-641 | A database that is not shared only reports "not currently shared" to a callback. For a shared one, the stored `share` function has no `_id`/`_rev`, so an undefined tombstone is posted. Reading its `_signalWatcher` then throws. |
| Share.SplitShareNameInverse | pouch.webrtc.js:644 | A share name splits back into the hub id and the document id it was built from. |
| Share.ShareNameInjective | pouch.webrtc.js:644 | Different (hub id, document id) pairs never get the same share name. |
| Uri.DecodeEncode | pouch.webrtc.js:644 | `DecodeEncoded` undoes encodeURIComponent on every string of Unicode scalar values. |
| Uri.EncodeInjective | pouch.webrtc.js:644 | encodeURIComponent is injective. |
| Share.SharePouch.LocalizeShare | pouch.webrtc.js:643-686 | The document's `_id` is a valid key. The directory changes only under the share name: this pouch's initializer is registered there, or the name is unregistered for a deleted document. The result is the document with `dbname = 'webrtc://' + name`. |
| Share.FileAllLast | pouch.webrtc.js:643-647 | After a run of `_localizeShare` calls, each name is as its last filing left it: unregistered after a deletion, otherwise holding that filing's initializer. |
| Share.FileAllElsewhere | pouch.webrtc.js:643-647 | A name no call in the run files keeps its directory entry. |
| Share.SharePouch.Connect | pouch.webrtc.js:648-682 | A registered initializer: a new initiating handler for `peer-<uuid>` that signals the share under `p-signal-` ids with the client's info, plus a signal watcher. |
| Share.IsLocal | pouch.webrtc.js:688-690 | Throws exactly when the map has no `hasOwnProperty`. `sharesByRemoteId` is made with `Object.create(null)`, so it has none and the call always throws. With the method, the answer is true exactly when some stored key is the document's `_id`. |
| Share.SharedIsLocal | pouch.webrtc.js:688-690 | With `hasOwnProperty`, once a share id is stored, that share's own document is local and the watcher skips it. A share document whose id was never stored is not local, and the watcher fires. As written, both calls throw. |
| Share.SelectSharesFails | pouch.webrtc.js:699-706 | The listing throws as soon as the hub holds any share document, and is empty otherwise. No share is ever listed. |
| Share.SelectSharesIntended | pouch.webrtc.js:703-705 | With `hasOwnProperty`, the filter never throws. It keeps exactly the share documents that `_isLocal` finds not local. |
| Share.SharePouch.SharesListed | pouch.webrtc.js:699-707 | When the filter throws, the error comes back and the directory is unchanged. Otherwise the result is the selected documents, each localised in order, and the directory is the old one after filing each in turn. On the map as built, the result is that error or the empty list, and the directory is unchanged. |
| Share.SharePouch.LocalizeAll | pouch.webrtc.js:706 | The results are the localised documents, in order. The directory is the old one after each document's filing, in order. |
| Share.ShareWatcherFires | pouch.webrtc.js:709-713 | The share watcher throws exactly when the map has no `hasOwnProperty`, so on `sharesByRemoteId` it throws for every document before onChange can run. With the method, onChange runs exactly for documents whose `_id` is no stored key. |
| Share.SharePouch.ShareChanged | pouch.webrtc.js:709-713 | When `_isLocal` throws, the error comes back and the directory is unchanged. A local document is skipped. Any other document is localised and passed to onChange, and the directory gets its filing. On the map as built, the watcher always throws. |
| Share.SharePouch.GetShares | pouch.webrtc.js:692-715 | A share watcher is added exactly when the normalised options have a truthy onChange. |
| Api.WrapApi | pouch.webrtc.js:82-116 | Builds the wrapped API: the ten adapter methods in order, the `_changes` relay, and `_id` as the database id. Every method present, and the relay, is marked kept. |
| Api.CopyMethods | pouch.webrtc.js:98-103 | Each method name is copied from the database in order, as a new member, and the method is marked kept exactly when the database has it. |
| Api.WrappedFunctionsKept | pouch.webrtc.js:98-110 | Every function the wrapped API exposes is marked kept, so a peer may call it any number of times. |
| Api.WrappedApiPlainKeys | pouch.webrtc.js:90-115 | The wrapped API has no reserved member, so it crosses the link intact, and its `_id` is the database id. |
| Api.Destroy | pouch.webrtc.js:120-124 | A callback is given FORBIDDEN (403) exactly when there is one. |
| Client.Open | pouch.webrtc.js:17-28 | Undefined or null options throw. An unknown share name throws "Unknown PeerPouch share dbname" with nothing changed. Otherwise the share's initializer starts a connection, and only the owning SharePouch changes. |
| Client.PeerPouch.OnConnection | pouch.webrtc.js:30-31 | A new RPC handler on a new tube, waiting for bootstrap. The connection keeps its channel, negotiation, signal route, onconnection and sent messages. |
| Client.PeerPouch.OnBootstrap | pouch.webrtc.js:32-76 | Every own member of `d.api` is copied into the API, then `_changes` and `_id` are overridden, and the callback runs once when it is a function. A missing `d` or `d.api` throws. |
| Client.ClientApiMembers | pouch.webrtc.js:36-70 | After bootstrap, the API offers every member the share sent, except `_changes` and `_id`, which are the local wrappers. |
| Client.Invoke | pouch.webrtc.js:368-370 | Calling a received proxy is `_callRemote` of its id, with CallRemote's whole effect: registration, the texts sent up to the first Blob, a new FileReader for the rest, and the throw on a closed channel. Calling any received value that is not a function throws, and nothing changes. The handler's receive side and the connection's other state stay as they were. |
| Client.PeerPouch.Changes | pouch.webrtc.js:39-52 | A function onChange is marked kept, an object one gains `_keep_exposed: true`, and a truthy primitive one throws. The remote `_changes` is then called with the options so updated and a relay callback. The feed holds onChange as updated. The callback count and the rest of the client are unchanged, and a call that throws before the relay creates no callback. |
| Client.PeerPouch.CallRelay | pouch.webrtc.js:43-52 | A new relay callback is created, and the remote `_changes` is called as `Invoke` calls it. The feed comes back only when that call returns. |
| Client.KeepExposed | pouch.webrtc.js:40-42 | An object onChange then reads `_keep_exposed` as true and every other member as before, and every other member of opts is unchanged. Options without an object onChange are left as they are. |
| Client.Unkept | pouch.webrtc.js:58-60 | An object onChange then reads `_keep_exposed` as undefined and every other member as before. Other values are left as they are. |
| Client.KeepMarkLifted | pouch.webrtc.js:40-60 | For an object onChange with no `_keep_exposed` of its own, cancel() undoes the write `_changes` made: every member reads as it did before the call. |
| Client.ChangesFeed.RelayCalledBack | pouch.webrtc.js:45-51 | If cancel() already ran, the remote cancel is called at once, as `Invoke` calls it. Otherwise it is kept, and nothing is sent. |
| Client.ChangesFeed.Cancel | pouch.webrtc.js:53-62 | cancel() calls the remote cancel if it arrived, as `Invoke` calls it, and otherwise remembers to. Only when that returns is the keep mark lifted: from a function onChange, and as the `_keep_exposed` member of an object one. A remote cancel that throws, for example on a closed channel, leaves the mark and the object as they were. |
| Client.CancelReachesRemote | pouch.webrtc.js:39-64 | Whatever the order of cancels and the remote cancel's arrival, the remote cancel is called once if any cancel came first. Otherwise it is called once per later cancel, and never without a cancel. |

## Left out

- JSON text: stringify and parse are modelled on trees, and numbers are integers. Floating point, `toJSON` and cyclic structures are not modelled.
- Key order: JavaScript enumerates integer-like keys ("1", "42") first, in ascending order, before the other keys in the order they were added. The model keeps every key in the order it was added. For an object with integer-like keys this changes the order in which `serialize` numbers its Blobs and draws function ids, and the order `Object.keys` copies members in.
- Number conversion: in text, only decimal integers with an optional sign are read as numbers. Fractions, exponents, hexadecimal, octal and binary literals and `Infinity` read as NaN. Objects other than arrays read as NaN even when they define `valueOf` or `toString`.
- Lone surrogates: `encodeURIComponent` throws a URIError on a lone surrogate (pouch.webrtc.js:644). The model encodes only strings of Unicode scalar values, so that error path is not modelled.
- Blob conversion (`FileReader`, `new Blob([b])`) is taken as identity on content: a Blob reference revives as the same Blob.
- The Firefox-only branches (sending without the Blob conversion, the extra negotiation trigger) are not modelled. The browser's WebRTC engine is not modelled: description validation, `setLocalDescription` effects, STUN configuration, `RTCIceCandidate` construction errors. Their outcomes are events.
- Hub storage is not modelled: revisions, persistence, change sequencing and the `include_docs`/`since` options. The hub is the log of posted documents.
- A `throw e` inside a hub completion callback is not modelled, and neither is a callback that throws in the middle of a fan-out.
- Timing is not modelled: `setTimeout` deferral and the interleaving of asynchronous events. Each completion is a separate method that the environment calls.
- Logging, `DEBUG`, `window.dbgChannel`, `PeerPouch.valid`, and adapter and plugin registration are not modelled.
- The behaviour of the proxied database methods is not modelled, because they are opaque function references.
- Client.PeerPouch.Changes: values have no identity, so the `_keep_exposed` write goes into the options the call sends and the feed keeps. The caller's own object, and other references to the same onChange object, are not updated in place.
- Share.SharePouch.Share: the `onRemote` option is read once, when the share is made. The code reads it on each connection.
- Share.SharePouch.Connect: the client's `opts.info` is read once, when the initializer runs. The code reads it on each signal.
- Share.ShareRecord.OnPeerConnected: the RPC handler sends the wrapped API built by `WrapApi`. What the share's own database methods then do is not modelled.
- Share.SharePouch.GetShares: the `allDocs` error path (`cb(e)`) is not modelled. The success path is `SharesListed`.
- Share.SharePouch.InfoArrived: the error path of `hub.info` (`throw e`) is not modelled.
- Watchers.Reachable: the invariant counts callbacks, not which closure each `Callback` id stands for. The creator keeps that association.
- Peer.RpcHandler.constructor: each handler draws function ids from its own oracle. Collisions between handlers are not modelled.
- Function names: a database's own methods, set by PouchDB, are taken to have an empty `name`. Other properties of functions (`length`, `prototype`) read as undefined.
- Peer.RpcHandler.OnMessage: the invoked functions are not run. Their effects, and the exceptions they throw, are out of scope.
