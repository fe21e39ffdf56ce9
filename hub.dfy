/**
 * The hub database that SharePouch works on, seen only through the
 * documents PeerPouch posts to it, and the document shapes it posts.
 * Revisions, persistence and change sequencing are not modelled.
 */
module HubDb {
  import opened Values

  const SignalType: string := "com.stemstorage.peerpouch.signal"
  const ShareType: string := "com.stemstorage.peerpouch.share"
  const PresenceType: string := "com.stemstorage.peerpouch.presence"

  /** A hub: its `id()` and the log of documents posted to it, oldest first. */
  class Hub {
    const hubId: string
    var posted: seq<Value>

    constructor (hubId: string)
      ensures this.hubId == hubId && posted == []
    {
      this.hubId := hubId;
      posted := [];
    }

    /** `hub.post(doc, cb)`: the document joins the log; the completion
        callback is a separate event. */
    method Post(doc: Value)
      modifies this
      ensures posted == old(posted) + [doc]
    {
      posted := posted + [doc];
    }
  }

  /** `{_id: id, _rev: rev, _deleted: true}`: the soft delete of a document. */
  function Tombstone(id: Value, rev: Value): Value {
    Obj([Field("_id", id), Field("_rev", rev), Field("_deleted", Bool(true))])
  }

  /** A signal document from sender to recipient carrying data. */
  function SignalDoc(id: string, sender: string, recipient: Value, data: Value, info: Value): Value {
    Obj([Field("_id", Str(id)), Field("type", Str(SignalType)), Field("sender", Str(sender)),
         Field("recipient", recipient), Field("data", data), Field("info", info)])
  }
}
