/** Names shared by the two models of the hybrid router. */
module Routing {
  import opened SessionQueues

  type Sid = string

  datatype Msg = Msg(sid: Sid, env: Envelope)

  /** The broker may have stored a record although WriteMessages reports an error. */
  datatype WriteResult = Written | WrittenButFailed | NotWritten

  /** What a reader of the two routes can observe. */
  datatype Event =
    | Put(m: Msg)          // sent on the Transmit channel
    | Wrote(m: Msg)        // WriteMessages returned nil
    | Cleared              // ClearSessionRouting
    | Swept(sids: set<Sid>)  // sticky TTL

  predicate Releases(e: Event, sid: Sid) {
    e == Cleared || (e.Swept? && sid in e.sids)
  }

  /** The promise of session stickiness: after a session's Kafka write, nothing of that
      session goes to the channel until its stickiness is released. */
  ghost predicate StickyOrder(es: seq<Event>) {
    forall i, j :: 0 <= i < j < |es| && es[i].Wrote? && es[j].Put? && es[i].m.sid == es[j].m.sid ==>
      exists k :: i < k < j && Releases(es[k], es[i].m.sid)
  }
}
