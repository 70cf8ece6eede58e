/**
 The hybrid router with its calls taken as atomic: internal/service/chat/hybrid_router.go,
 processLocal, sendToChannel, sendEnvelopeToKafka and the upkeep of the sticky maps.
 Class `HybridRouter` is the imperative form of the functions above it.
*/
module HybridRouting {
  import opened SessionQueues
  import opened Routing

  const STICKY_TTL_MS := 300_000

  datatype Router = Router(
    kafkaEnabled: bool, seqNums: map<Sid, nat>,
    routedToKafka: map<Sid, bool>, routedAt: map<Sid, int>,
    transmit: seq<Msg>, log: seq<Msg>, events: seq<Event>)

  function NewRouter(): Router {
    Router(false, map[], map[], map[], [], [], [])
  }

  function Routed(m: map<Sid, bool>, sid: Sid): bool {
    sid in m && m[sid]
  }

  function Stick(r: Router, sid: Sid, now: int): Router {
    r.(routedToKafka := r.routedToKafka[sid := true], routedAt := r.routedAt[sid := now])
  }

  function WriteMessages(r: Router, m: Msg, res: WriteResult): Router {
    r.(log := if res == NotWritten then r.log else r.log + [m],
       events := if res == Written then r.events + [Wrote(m)] else r.events)
  }

  function SendEnvelopeToKafka(r: Router, m: Msg, res: WriteResult, now: int): (Router, bool) {
    var w := WriteMessages(r, m, res);
    if res != Written then (w, false)
    else if Routed(w.routedToKafka, m.sid) then (w, true)
    else (Stick(w, m.sid, now), true)
  }

  function SendToChannel(capacity: nat, r: Router, m: Msg, res: WriteResult, now: int): (Router, bool) {
    if |r.transmit| < capacity then (r.(transmit := r.transmit + [m], events := r.events + [Put(m)]), true)
    else if r.kafkaEnabled then SendEnvelopeToKafka(r, m, res, now)
    else (r, false)
  }

  function NextSeq(r: Router, sid: Sid): nat {
    if sid in r.seqNums then r.seqNums[sid] + 1 else 1
  }

  /** What the environment answers during one call: the detector's mode, the two broker writes
      the call may make, and the clock. */
  datatype Answers = Answers(overflow: bool, first: WriteResult, second: WriteResult, now: int)

  function ProcessLocal(capacity: nat, r: Router, sid: Sid, msgID: string, payload: string, a: Answers): (Router, bool) {
    var m := Msg(sid, Envelope(NextSeq(r, sid), msgID, payload));
    var n := r.(seqNums := r.seqNums[sid := NextSeq(r, sid)]);
    var isRouted := Routed(n.routedToKafka, sid);
    if (isRouted || a.overflow) && n.kafkaEnabled then
      var w := WriteMessages(if isRouted then n else Stick(n, sid, a.now), m, a.first);
      if a.first == Written then (w, true)
      else if isRouted then (w, false)
      else SendToChannel(capacity, w, m, a.second, a.now)
    else SendToChannel(capacity, n, m, a.second, a.now)
  }

  /** One turn of the Transmit loop: a refused enqueue falls back to Kafka. */
  function Transmit(r: Router, enqueued: bool, res: WriteResult, now: int): Router {
    if r.transmit == [] then r
    else
      var m := r.transmit[0];
      var t := r.(transmit := r.transmit[1..]);
      if enqueued || !r.kafkaEnabled then t else SendEnvelopeToKafka(t, m, res, now).0
  }

  function ClearSessionRouting(r: Router): Router {
    r.(routedToKafka := map[], routedAt := map[], events := r.events + [Cleared])
  }

  function Stale(routedAt: map<Sid, int>, now: int): set<Sid> {
    set sid | sid in routedAt && now - routedAt[sid] > STICKY_TTL_MS
  }

  function SweepSticky(r: Router, now: int): Router {
    var stale := Stale(r.routedAt, now);
    r.(routedToKafka := r.routedToKafka - stale, routedAt := r.routedAt - stale, events := r.events + [Swept(stale)])
  }

  datatype Call =
    | Process(sid: Sid, msgID: string, payload: string, answers: Answers)
    | TakeTransmit(enqueued: bool, res: WriteResult, now: int)
    | InitKafka
    | Clear
    | Sweep(now: int)

  function Apply(capacity: nat, r: Router, call: Call): Router {
    match call
    case Process(sid, msgID, payload, a) => ProcessLocal(capacity, r, sid, msgID, payload, a).0
    case TakeTransmit(enqueued, res, now) => Transmit(r, enqueued, res, now)
    case InitKafka => r.(kafkaEnabled := true)
    case Clear => ClearSessionRouting(r)
    case Sweep(now) => SweepSticky(r, now)
  }

  function Run(capacity: nat, calls: seq<Call>): Router {
    if calls == [] then NewRouter() else Apply(capacity, Run(capacity, calls[..|calls| - 1]), calls[|calls| - 1])
  }

  // ---------------------------------------------------------------- the imperative router

  /** What is left of a map when every stale session not in `todo` has been removed. */
  ghost function Cleaned<V>(m: map<Sid, V>, stale: set<Sid>, todo: set<Sid>): map<Sid, V> {
    m - (stale - todo)
  }

  lemma CleanOne<V>(m: map<Sid, V>, stale: set<Sid>, todo: set<Sid>, sid: Sid)
    requires sid in todo
    ensures Cleaned(m, stale, todo - {sid}) ==
      if sid in stale then Cleaned(m, stale, todo) - {sid} else Cleaned(m, stale, todo)
    ensures sid in m ==> sid in Cleaned(m, stale, todo) && Cleaned(m, stale, todo)[sid] == m[sid]
  {
  }

  class HybridRouter {
    const capacity: nat
    var kafkaEnabled: bool
    var sessionSeqNums: map<Sid, nat>
    var sessionRoutedToKafka: map<Sid, bool>
    var sessionRoutedAt: map<Sid, int>
    var transmit: seq<Msg>
    ghost var log: seq<Msg>
    ghost var events: seq<Event>

    ghost function State(): Router
      reads this
    {
      Router(kafkaEnabled, sessionSeqNums, sessionRoutedToKafka, sessionRoutedAt, transmit, log, events)
    }

    constructor (capacity: nat)
      ensures State() == NewRouter() && this.capacity == capacity
    {
      this.capacity, kafkaEnabled := capacity, false;
      sessionSeqNums, sessionRoutedToKafka, sessionRoutedAt := map[], map[], map[];
      transmit, log, events := [], [], [];
    }

    method WriteToKafka(m: Msg, res: WriteResult)
      modifies this`log, this`events
      ensures State() == WriteMessages(old(State()), m, res)
    {
      if res != NotWritten {
        log := log + [m];
      }
      if res == Written {
        events := events + [Wrote(m)];
      }
    }

    method SendEnvelope(m: Msg, res: WriteResult, now: int) returns (ok: bool)
      modifies this
      ensures (State(), ok) == SendEnvelopeToKafka(old(State()), m, res, now)
    {
      WriteToKafka(m, res);
      if res != Written {
        return false;
      }
      if !Routed(sessionRoutedToKafka, m.sid) {
        sessionRoutedToKafka := sessionRoutedToKafka[m.sid := true];
        sessionRoutedAt := sessionRoutedAt[m.sid := now];
      }
      return true;
    }

    method TrySend(m: Msg, res: WriteResult, now: int) returns (ok: bool)
      modifies this
      ensures (State(), ok) == SendToChannel(capacity, old(State()), m, res, now)
    {
      if |transmit| < capacity {
        transmit := transmit + [m];
        events := events + [Put(m)];
        return true;
      }
      if kafkaEnabled {
        ok := SendEnvelope(m, res, now);
        return;
      }
      return false;
    }

    method Send(sid: Sid, msgID: string, payload: string, a: Answers) returns (ok: bool)
      modifies this
      ensures (State(), ok) == ProcessLocal(capacity, old(State()), sid, msgID, payload, a)
    {
      var seqNum := (if sid in sessionSeqNums then sessionSeqNums[sid] else 0) + 1;
      sessionSeqNums := sessionSeqNums[sid := seqNum];
      var m := Msg(sid, Envelope(seqNum, msgID, payload));
      var isRoutedToKafka := Routed(sessionRoutedToKafka, sid);
      if (isRoutedToKafka || a.overflow) && kafkaEnabled {
        if !isRoutedToKafka {
          sessionRoutedToKafka := sessionRoutedToKafka[sid := true];
          sessionRoutedAt := sessionRoutedAt[sid := a.now];
        }
        WriteToKafka(m, a.first);
        if a.first != Written {
          if isRoutedToKafka {
            return false;
          }
          ok := TrySend(m, a.second, a.now);
          return;
        }
        return true;
      }
      ok := TrySend(m, a.second, a.now);
    }

    /** The loop of one tick: Go iterates the map in any order. */
    method RemoveStale(now: int)
      modifies this`sessionRoutedAt, this`sessionRoutedToKafka
      ensures sessionRoutedAt == old(sessionRoutedAt) - Stale(old(sessionRoutedAt), now)
      ensures sessionRoutedToKafka == old(sessionRoutedToKafka) - Stale(old(sessionRoutedAt), now)
    {
      var todo := sessionRoutedAt.Keys;
      ghost var at, marks, stale := sessionRoutedAt, sessionRoutedToKafka, Stale(sessionRoutedAt, now);
      while todo != {}
        invariant todo <= at.Keys
        invariant sessionRoutedAt == Cleaned(at, stale, todo)
        invariant sessionRoutedToKafka == Cleaned(marks, stale, todo)
        decreases |todo|
      {
        var sid :| sid in todo;
        CleanOne(at, stale, todo, sid);
        CleanOne(marks, stale, todo, sid);
        todo := todo - {sid};
        if now - sessionRoutedAt[sid] > STICKY_TTL_MS {
          sessionRoutedToKafka := sessionRoutedToKafka - {sid};
          sessionRoutedAt := sessionRoutedAt - {sid};
        }
      }
      assert stale - {} == stale;
    }

    /** startStickySessionCleanup, one tick. */
    method CleanupSticky(now: int)
      modifies this`sessionRoutedAt, this`sessionRoutedToKafka, this`events
      ensures State() == SweepSticky(old(State()), now)
    {
      ghost var stale := Stale(sessionRoutedAt, now);
      RemoveStale(now);
      events := events + [Swept(stale)];
    }
  }

  // ---------------------------------------------------------------- invariants over calls

  ghost predicate MapsAgree(r: Router) {
    && r.routedToKafka.Keys == r.routedAt.Keys
    && (forall sid :: sid in r.routedToKafka ==> r.routedToKafka[sid])
    && (r.routedToKafka != map[] ==> r.kafkaEnabled)
  }

  ghost predicate ReleasedAfter(es: seq<Event>, i: nat, sid: Sid) {
    exists k :: i < k < |es| && Releases(es[k], sid)
  }

  /** A Kafka write whose stickiness was not released since still has its session marked. */
  ghost predicate WritesStick(r: Router) {
    forall i :: 0 <= i < |r.events| && r.events[i].Wrote? ==>
      Routed(r.routedToKafka, r.events[i].m.sid) || ReleasedAfter(r.events, i, r.events[i].m.sid)
  }

  ghost predicate Inv(r: Router) {
    MapsAgree(r) && WritesStick(r) && StickyOrder(r.events)
  }

  lemma StillReleased(es: seq<Event>, e: Event, i: nat, sid: Sid)
    requires ReleasedAfter(es, i, sid)
    ensures ReleasedAfter(es + [e], i, sid)
  {
    var k :| i < k < |es| && Releases(es[k], sid);
    assert (es + [e])[k] == es[k];
  }

  /** Adding one event: a Put needs an unmarked session, everything else is free. */
  lemma EventKeepsOrder(r: Router, e: Event)
    requires WritesStick(r) && StickyOrder(r.events)
    requires e.Put? ==> !Routed(r.routedToKafka, e.m.sid)
    ensures StickyOrder(r.events + [e])
  {
    var es := r.events + [e];
    forall i, j | 0 <= i < j < |es| && es[i].Wrote? && es[j].Put? && es[i].m.sid == es[j].m.sid
      ensures exists k :: i < k < j && Releases(es[k], es[i].m.sid)
    {
      if j < |r.events| {
        var k :| i < k < j && Releases(r.events[k], r.events[i].m.sid);
        assert Releases(es[k], es[i].m.sid);
      } else {
        assert ReleasedAfter(r.events, i, es[i].m.sid);
        var k :| i < k < |r.events| && Releases(r.events[k], es[i].m.sid);
        assert Releases(es[k], es[i].m.sid);
      }
    }
  }

  lemma EventKeepsSticking(r: Router, s: Router, e: Event)
    requires WritesStick(r) && s.events == r.events + [e]
    requires forall sid :: Routed(r.routedToKafka, sid) ==> Routed(s.routedToKafka, sid) || Releases(e, sid)
    requires e.Wrote? ==> Routed(s.routedToKafka, e.m.sid)
    ensures WritesStick(s)
  {
    forall i | 0 <= i < |s.events| && s.events[i].Wrote?
      ensures Routed(s.routedToKafka, s.events[i].m.sid) || ReleasedAfter(s.events, i, s.events[i].m.sid)
    {
      var sid := s.events[i].m.sid;
      if i < |r.events| {
        if ReleasedAfter(r.events, i, sid) {
          StillReleased(r.events, e, i, sid);
        } else if !Routed(s.routedToKafka, sid) {
          assert Releases(s.events[|r.events|], sid);
        }
      }
    }
  }

  lemma KafkaKeepsInv(r: Router, m: Msg, res: WriteResult, now: int)
    requires Inv(r) && r.kafkaEnabled
    ensures Inv(SendEnvelopeToKafka(r, m, res, now).0)
  {
    if res == Written {
      EventKeepsOrder(r, Wrote(m));
      EventKeepsSticking(r, SendEnvelopeToKafka(r, m, res, now).0, Wrote(m));
    }
  }

  lemma ChannelKeepsInv(capacity: nat, r: Router, m: Msg, res: WriteResult, now: int)
    requires Inv(r)
    requires |r.transmit| < capacity ==> WasUnmarked(r, m.sid)
    ensures Inv(SendToChannel(capacity, r, m, res, now).0)
  {
    if |r.transmit| < capacity {
      PutKeepsInv(r, m);
    } else if r.kafkaEnabled {
      KafkaKeepsInv(r, m, res, now);
    }
  }

  /** No unreleased Kafka write of the session: it may be marked already by a first write
      that failed. */
  ghost predicate WasUnmarked(r: Router, sid: Sid) {
    forall i :: 0 <= i < |r.events| && r.events[i].Wrote? && r.events[i].m.sid == sid ==> ReleasedAfter(r.events, i, sid)
  }

  lemma PutKeepsInv(r: Router, m: Msg)
    requires Inv(r) && WasUnmarked(r, m.sid)
    ensures Inv(r.(transmit := r.transmit + [m], events := r.events + [Put(m)]))
  {
    var unmarked := r.(routedToKafka := r.routedToKafka - {m.sid});
    assert WritesStick(unmarked) by {
      forall i | 0 <= i < |r.events| && r.events[i].Wrote?
        ensures Routed(unmarked.routedToKafka, r.events[i].m.sid) || ReleasedAfter(r.events, i, r.events[i].m.sid)
      {
      }
    }
    EventKeepsOrder(unmarked, Put(m));
    EventKeepsSticking(r, r.(transmit := r.transmit + [m], events := r.events + [Put(m)]), Put(m));
  }

  lemma ProcessKeepsInv(capacity: nat, r: Router, sid: Sid, msgID: string, payload: string, a: Answers)
    requires Inv(r)
    ensures Inv(ProcessLocal(capacity, r, sid, msgID, payload, a).0)
  {
    var m := Msg(sid, Envelope(NextSeq(r, sid), msgID, payload));
    var n := r.(seqNums := r.seqNums[sid := NextSeq(r, sid)]);
    var isRouted := Routed(n.routedToKafka, sid);
    if (isRouted || a.overflow) && n.kafkaEnabled {
      var k := if isRouted then n else Stick(n, sid, a.now);
      assert Inv(k);
      if a.first == Written {
        KafkaKeepsInv(k, m, Written, a.now);
      } else if !isRouted {
        ChannelKeepsInv(capacity, WriteMessages(k, m, a.first), m, a.second, a.now);
      }
    } else {
      ChannelKeepsInv(capacity, n, m, a.second, a.now);
    }
  }

  lemma SweepKeepsInv(r: Router, now: int)
    requires Inv(r)
    ensures Inv(SweepSticky(r, now))
  {
    EventKeepsOrder(r, Swept(Stale(r.routedAt, now)));
    EventKeepsSticking(r, SweepSticky(r, now), Swept(Stale(r.routedAt, now)));
  }

  lemma CallKeepsInv(capacity: nat, r: Router, call: Call)
    requires Inv(r)
    ensures Inv(Apply(capacity, r, call))
  {
    match call
    case Process(sid, msgID, payload, a) => ProcessKeepsInv(capacity, r, sid, msgID, payload, a);
    case TakeTransmit(enqueued, res, now) =>
      if r.transmit != [] && !enqueued && r.kafkaEnabled {
        KafkaKeepsInv(r.(transmit := r.transmit[1..]), r.transmit[0], res, now);
      }
    case InitKafka =>
    case Clear =>
      EventKeepsOrder(r, Cleared);
      EventKeepsSticking(r, ClearSessionRouting(r), Cleared);
    case Sweep(now) => SweepKeepsInv(r, now);
  }

  /** Router calls taken as atomic: over every sequence of calls the two sticky maps have the
      same keys, a sticky session implies Kafka is on, and no session goes back to the channel
      after a successful Kafka write before a clear or a TTL sweep releases it. */
  lemma {:induction false} StickyUntilReleased(capacity: nat, calls: seq<Call>)
    ensures Inv(Run(capacity, calls))
  {
    if calls != [] {
      StickyUntilReleased(capacity, calls[..|calls| - 1]);
      CallKeepsInv(capacity, Run(capacity, calls[..|calls| - 1]), calls[|calls| - 1]);
    }
  }

  lemma ChannelHandsOver(capacity: nat, r: Router, m: Msg, res: WriteResult, now: int)
    ensures var (s, ok) := SendToChannel(capacity, r, m, res, now);
      && s.seqNums == r.seqNums
      && (ok <==> s.events == r.events + [Put(m)] || s.events == r.events + [Wrote(m)])
      && (!ok <==> s.events == r.events)
      && (ok ==> m in s.log || m in s.transmit)
  {
  }

  /** An accepted message has exactly one successful hand-over, on the channel or to Kafka; a
      refused one has none. Its number is used up either way. */
  lemma AcceptedIffHandedOver(capacity: nat, r: Router, sid: Sid, msgID: string, payload: string, a: Answers)
    ensures var (s, ok) := ProcessLocal(capacity, r, sid, msgID, payload, a);
      var m := Msg(sid, Envelope(NextSeq(r, sid), msgID, payload));
      && NextSeq(s, sid) == NextSeq(r, sid) + 1
      && (ok <==> s.events == r.events + [Put(m)] || s.events == r.events + [Wrote(m)])
      && (!ok <==> s.events == r.events)
      && (ok ==> m in s.log || m in s.transmit)
  {
    var m := Msg(sid, Envelope(NextSeq(r, sid), msgID, payload));
    var n := r.(seqNums := r.seqNums[sid := NextSeq(r, sid)]);
    ChannelHandsOver(capacity, n, m, a.second, a.now);
    ChannelHandsOver(capacity, WriteMessages(Stick(n, sid, a.now), m, a.first), m, a.second, a.now);
  }

  // ---------------------------------------------------------------- marks and the clock

  lemma SendMarks(capacity: nat, r: Router, t: Sid, msgID: string, payload: string, a: Answers, sid: Sid)
    requires !Routed(r.routedToKafka, sid)
    ensures Routed(ProcessLocal(capacity, r, t, msgID, payload, a).0.routedToKafka, sid) <==>
      t == sid && r.kafkaEnabled && (a.overflow || (|r.transmit| >= capacity && a.second == Written))
  {
  }

  lemma TransmitMarks(r: Router, enqueued: bool, res: WriteResult, now: int, sid: Sid)
    requires !Routed(r.routedToKafka, sid)
    ensures Routed(Transmit(r, enqueued, res, now).routedToKafka, sid) <==>
      r.kafkaEnabled && !enqueued && res == Written && r.transmit != [] && r.transmit[0].sid == sid
  {
  }

  /** A session becomes marked by its own send, in overflow or when that was written to Kafka because
      the channel was full, and by the Transmit loop's write of its message: in no other way. */
  lemma WhatMarks(capacity: nat, r: Router, call: Call, sid: Sid)
    requires !Routed(r.routedToKafka, sid)
    ensures Routed(Apply(capacity, r, call).routedToKafka, sid) <==>
      && r.kafkaEnabled
      && (|| (call.Process? && call.sid == sid
              && (call.answers.overflow || (|r.transmit| >= capacity && call.answers.second == Written)))
          || (call.TakeTransmit? && !call.enqueued && call.res == Written
              && r.transmit != [] && r.transmit[0].sid == sid))
  {
    match call
    case Process(t, msgID, payload, a) => SendMarks(capacity, r, t, msgID, payload, a, sid);
    case TakeTransmit(enqueued, res, now) => TransmitMarks(r, enqueued, res, now, sid);
    case _ =>
  }

  /** The clock a call reads. */
  function Clock(call: Call): int {
    match call
    case Process(_, _, _, a) => a.now
    case TakeTransmit(_, _, now) => now
    case Sweep(now) => now
    case _ => 0
  }

  lemma MarkRecordsTheClock(capacity: nat, r: Router, call: Call, sid: Sid)
    requires !Routed(r.routedToKafka, sid) && Routed(Apply(capacity, r, call).routedToKafka, sid)
    ensures sid in Apply(capacity, r, call).routedAt && Apply(capacity, r, call).routedAt[sid] == Clock(call)
  {
    WhatMarks(capacity, r, call, sid);
  }

  lemma MarkKeepsItsTime(capacity: nat, r: Router, call: Call, sid: Sid)
    requires Routed(r.routedToKafka, sid) && Routed(Apply(capacity, r, call).routedToKafka, sid)
    requires sid in r.routedAt
    ensures sid in Apply(capacity, r, call).routedAt && Apply(capacity, r, call).routedAt[sid] == r.routedAt[sid]
  {
  }

  /** The session was marked by call i and has been since. */
  ghost predicate MarkedSince(capacity: nat, calls: seq<Call>, i: nat, sid: Sid) {
    && i < |calls| && !Routed(Run(capacity, calls[..i]).routedToKafka, sid)
    && forall n :: i < n <= |calls| ==> MarkedAt(capacity, calls, n, sid)
  }

  ghost predicate MarkedAt(capacity: nat, calls: seq<Call>, n: nat, sid: Sid) {
    n <= |calls| && Routed(Run(capacity, calls[..n]).routedToKafka, sid)
  }

  lemma MarkedBefore(capacity: nat, calls: seq<Call>, i: nat, sid: Sid)
    requires MarkedSince(capacity, calls, i, sid) && i + 1 < |calls|
    ensures MarkedSince(capacity, calls[..|calls| - 1], i, sid)
  {
    var front := calls[..|calls| - 1];
    assert front[..i] == calls[..i];
    forall n | i < n <= |front| ensures MarkedAt(capacity, front, n, sid) {
      assert MarkedAt(capacity, calls, n, sid) && front[..n] == calls[..n];
    }
  }

  lemma {:induction false} TimeOfTheMark(capacity: nat, calls: seq<Call>, i: nat, sid: Sid)
    requires MarkedSince(capacity, calls, i, sid)
    ensures sid in Run(capacity, calls).routedAt && Run(capacity, calls).routedAt[sid] == Clock(calls[i])
  {
    var n := |calls| - 1;
    assert MarkedAt(capacity, calls, n + 1, sid) && calls[..n + 1] == calls;
    if i == n {
      MarkRecordsTheClock(capacity, Run(capacity, calls[..n]), calls[n], sid);
    } else {
      MarkedBefore(capacity, calls, i, sid);
      TimeOfTheMark(capacity, calls[..n], i, sid);
      assert MarkedAt(capacity, calls, n, sid);
      MarkKeepsItsTime(capacity, Run(capacity, calls[..n]), calls[n], sid);
    }
  }

  /** Over every run of calls, by the clocks of the calls alone: a tick of the cleanup releases a
      session if and only if it has been marked for more than five minutes. */
  lemma SweepReleasesIffOld(capacity: nat, calls: seq<Call>, i: nat, sid: Sid, now: int)
    requires MarkedSince(capacity, calls, i, sid)
    ensures Routed(Apply(capacity, Run(capacity, calls), Sweep(now)).routedToKafka, sid) <==> now - Clock(calls[i]) <= 5 * 60 * 1000
  {
    TimeOfTheMark(capacity, calls, i, sid);
    assert MarkedAt(capacity, calls, |calls|, sid) && calls[..|calls|] == calls;
  }

  lemma SendReleasesNobody(capacity: nat, r: Router, t: Sid, msgID: string, payload: string, a: Answers, sid: Sid)
    requires Routed(r.routedToKafka, sid)
    ensures Routed(ProcessLocal(capacity, r, t, msgID, payload, a).0.routedToKafka, sid)
  {
  }

  lemma TransmitReleasesNobody(r: Router, enqueued: bool, res: WriteResult, now: int, sid: Sid)
    requires Routed(r.routedToKafka, sid)
    ensures Routed(Transmit(r, enqueued, res, now).routedToKafka, sid)
  {
  }

  /** And nothing but such a tick or a clear releases anybody. */
  lemma WhatReleases(capacity: nat, r: Router, call: Call, sid: Sid)
    requires Routed(r.routedToKafka, sid)
    ensures Routed(Apply(capacity, r, call).routedToKafka, sid) <==>
      call != Clear && !(call.Sweep? && sid in r.routedAt && call.now - r.routedAt[sid] > 5 * 60 * 1000)
  {
    match call
    case Process(t, msgID, payload, a) => SendReleasesNobody(capacity, r, t, msgID, payload, a, sid);
    case TakeTransmit(enqueued, res, now) => TransmitReleasesNobody(r, enqueued, res, now, sid);
    case _ =>
  }

  /** Which route a message takes: in overflow or once sticky Kafka, otherwise the channel as long as
      it has room; a session that was not sticky falls back from a failed write to the channel, a
      full channel spills to Kafka, and a sticky session has no other way. */
  lemma RoutesTaken(capacity: nat, r: Router, sid: Sid, msgID: string, payload: string, a: Answers)
    ensures var s := ProcessLocal(capacity, r, sid, msgID, payload, a).0;
      var m, sticky := Msg(sid, Envelope(NextSeq(r, sid), msgID, payload)), Routed(r.routedToKafka, sid);
      var kafkaFirst := r.kafkaEnabled && (a.overflow || sticky);
      var channel := |r.transmit| < capacity && (kafkaFirst ==> !sticky && a.first != Written);
      var kafka := (kafkaFirst && a.first == Written)
        || (r.kafkaEnabled && !sticky && (a.overflow ==> a.first != Written) && |r.transmit| >= capacity && a.second == Written);
      && !(channel && kafka)
      && s.events == r.events + (if channel then [Put(m)] else if kafka then [Wrote(m)] else [])
      && s.transmit == r.transmit + (if channel then [m] else [])
      && s.log == r.log
           + (if kafkaFirst && a.first != NotWritten then [m] else [])
           + (if r.kafkaEnabled && (kafkaFirst ==> !sticky && a.first != Written) && !channel && a.second != NotWritten then [m] else [])
  {
  }

  function SendsOf(calls: seq<Call>, sid: Sid): nat {
    if calls == [] then 0
    else
      var last := calls[|calls| - 1];
      SendsOf(calls[..|calls| - 1], sid) + (if last.Process? && last.sid == sid then 1 else 0)
  }

  /** The n-th send of a session carries number n, whatever became of the others. */
  lemma {:induction false} NumbersCountTheSends(capacity: nat, calls: seq<Call>, sid: Sid)
    ensures NextSeq(Run(capacity, calls), sid) == SendsOf(calls, sid) + 1
  {
    if calls != [] {
      var n := |calls| - 1;
      NumbersCountTheSends(capacity, calls[..n], sid);
      CallNumbers(capacity, Run(capacity, calls[..n]), calls[n], sid);
    }
  }

  lemma CallNumbers(capacity: nat, r: Router, call: Call, sid: Sid)
    ensures NextSeq(Apply(capacity, r, call), sid) == NextSeq(r, sid) + (if call.Process? && call.sid == sid then 1 else 0)
  {
    if call.Process? {
      AcceptedIffHandedOver(capacity, r, call.sid, call.msgID, call.payload, call.answers);
      if call.sid != sid { OthersKeepNumbers(capacity, r, call.sid, call.msgID, call.payload, call.answers, sid); }
    }
  }

  lemma OthersKeepNumbers(capacity: nat, r: Router, t: Sid, msgID: string, payload: string, a: Answers, sid: Sid)
    requires t != sid
    ensures NextSeq(ProcessLocal(capacity, r, t, msgID, payload, a).0, sid) == NextSeq(r, sid)
  {
  }
}
