/**
 Session stickiness when calls interleave: what the steps of Pipeline keep of the promise that
 HybridRouter keeps for atomic calls, and how an atomic call is a run of those steps.
*/
module Stickiness {
  import opened Wrappers
  import opened SessionQueues
  import opened Routing
  import opened Pipeline
  import opened PipelineRuns
  import R = HybridRouting

  // ---------------------------------------------------------------- one goroutine per session

  /** No session has two goroutines between its number and its hand-over, the Transmit loop's
      fallback included. Calls that have no number yet do not matter. */
  ghost predicate OneFlight(f: Front) {
    forall t, u :: t in f.threads && u in f.threads && f.threads[t].m.sid == f.threads[u].m.sid ==> t == u
  }

  /** A clear or a sweep releases no session whose goroutine has marked it (or found the mark)
      and has not written to Kafka yet. */
  ghost predicate SparesWriters(f: Front, st: Step) {
    forall t :: t in f.threads && f.threads[t].Write? ==> st != Clear && !(st.Sweep? && f.threads[t].m.sid in st.sids)
  }

  ghost predicate ReleasedAfter(es: seq<Event>, i: nat, sid: Sid) {
    exists k :: i < k < |es| && Releases(es[k], sid)
  }

  /** Every Kafka write of the session has been released since. */
  ghost predicate NoneHeld(es: seq<Event>, sid: Sid) {
    forall i :: 0 <= i < |es| && es[i].Wrote? && es[i].m.sid == sid ==> ReleasedAfter(es, i, sid)
  }

  /** What a goroutine knows where it stands. */
  ghost predicate Knows(f: Front, pc: Pc) {
    match pc
    case Write(m, wasSticky) => m.sid in f.sticky && (!wasSticky ==> NoneHeld(f.events, m.sid))
    case MarkFirst(m) => NoneHeld(f.events, m.sid)
    case TryChannel(m) => NoneHeld(f.events, m.sid)
    case _ => true
  }

  ghost predicate AboutToMark(f: Front, sid: Sid) {
    exists t :: t in f.threads && f.threads[t].MarkAfter? && f.threads[t].m.sid == sid
  }

  /** A session with an unreleased Kafka write is marked, or its goroutine is about to mark it. */
  ghost predicate Held(f: Front, sid: Sid) {
    NoneHeld(f.events, sid) || sid in f.sticky || AboutToMark(f, sid)
  }

  ghost predicate Sticks(f: Front) {
    && StickyOrder(f.events)
    && (forall sid :: Held(f, sid))
    && (forall t :: t in f.threads ==> Knows(f, f.threads[t]))
  }

  lemma ReleasedSnoc(es: seq<Event>, e: Event, i: nat, sid: Sid)
    requires i < |es|
    ensures ReleasedAfter(es + [e], i, sid) <==> ReleasedAfter(es, i, sid) || Releases(e, sid)
  {
    var more := es + [e];
    if ReleasedAfter(es, i, sid) {
      var k :| i < k < |es| && Releases(es[k], sid);
      assert more[k] == es[k];
    }
    assert more[|es|] == e;
  }

  /** How one event changes what is held. */
  lemma NoneHeldSnoc(es: seq<Event>, e: Event, sid: Sid)
    ensures NoneHeld(es + [e], sid) <==> (NoneHeld(es, sid) || Releases(e, sid)) && !(e.Wrote? && e.m.sid == sid)
  {
    var more := es + [e];
    forall i | 0 <= i < |es| ensures more[i] == es[i] && (ReleasedAfter(more, i, sid) <==> ReleasedAfter(es, i, sid) || Releases(e, sid)) {
      ReleasedSnoc(es, e, i, sid);
    }
    assert more[|es|] == e && !ReleasedAfter(more, |es|, sid);
    if NoneHeld(more, sid) && !Releases(e, sid) {
      forall i | 0 <= i < |es| && es[i].Wrote? && es[i].m.sid == sid ensures ReleasedAfter(es, i, sid) {
        assert more[i] == es[i];
      }
    }
  }

  lemma OrderSnoc(es: seq<Event>, e: Event)
    requires StickyOrder(es)
    requires e.Put? ==> NoneHeld(es, e.m.sid)
    ensures StickyOrder(es + [e])
  {
    var more := es + [e];
    forall i, j | 0 <= i < j < |more| && more[i].Wrote? && more[j].Put? && more[i].m.sid == more[j].m.sid
      ensures exists k :: i < k < j && Releases(more[k], more[i].m.sid)
    {
      assert j == |es| ==> ReleasedAfter(es, i, e.m.sid);
      var k :| i < k < j && k < |es| && Releases(es[k], es[i].m.sid);
      assert more[k] == es[k];
    }
  }

  // ---------------------------------------------------------------- the steps

  /** Without Kafka nothing is ever marked or written. */
  ghost predicate OffMeansOff(c: Config, f: Front) {
    c.kafkaEnabled || (f.sticky == {} && forall t :: t in f.threads ==> f.threads[t].Numbered? || f.threads[t].TryChannel?)
  }

  lemma StepKeepsOff(c: Config, s: Sys, st: Step)
    requires OffMeansOff(c, s.front)
    ensures OffMeansOff(c, Apply(c, s, st).front)
  {
  }

  /** One goroutine's section: it ends where it knows what it must, and the others, which belong
      to other sessions, lose nothing. */
  lemma ContinueSticks(c: Config, f: Front, tid: nat, act: Action)
    requires Sticks(f) && OneFlight(f) && OffMeansOff(c, f) && tid in f.threads
    ensures Sticks(Continue(c, f, tid, f.threads[tid], act))
  {
    var pc := f.threads[tid];
    var r := Continue(c, f, tid, pc, act);
    ContinueOrders(c, f, tid, act);
    forall sid ensures Held(r, sid) {
      ContinueHolds(c, f, tid, act, sid);
    }
    forall t | t in r.threads ensures Knows(r, r.threads[t]) {
      if t == tid { SelfKnows(c, f, tid, act); } else { OthersKnow(c, f, tid, act, t); }
    }
  }

  /** The event of a goroutine's section, if it has one. */
  lemma ContinueEvent(c: Config, f: Front, tid: nat, act: Action)
    requires tid in f.threads
    ensures var r, m := Continue(c, f, tid, f.threads[tid], act), f.threads[tid].m;
      || r.events == f.events
      || (r.events == f.events + [Put(m)] && f.threads[tid].TryChannel? && tid !in r.threads && r.sticky == f.sticky)
      || (r.events == f.events + [Wrote(m)] && f.threads[tid].Write? && tid !in r.threads && r.sticky == f.sticky)
      || (r.events == f.events + [Wrote(m)] && f.threads[tid].OverflowWrite? && r.threads == f.threads[tid := MarkAfter(m)])
  {
  }

  lemma ContinueOrders(c: Config, f: Front, tid: nat, act: Action)
    requires Sticks(f) && tid in f.threads
    ensures StickyOrder(Continue(c, f, tid, f.threads[tid], act).events)
  {
    var m := f.threads[tid].m;
    ContinueEvent(c, f, tid, act);
    assert Knows(f, f.threads[tid]);
    if f.threads[tid].TryChannel? { OrderSnoc(f.events, Put(m)); }
    OrderSnoc(f.events, Wrote(m));
  }

  lemma ContinueHolds(c: Config, f: Front, tid: nat, act: Action, sid: Sid)
    requires Sticks(f) && OneFlight(f) && tid in f.threads
    ensures Held(Continue(c, f, tid, f.threads[tid], act), sid)
  {
    var r, m := Continue(c, f, tid, f.threads[tid], act), f.threads[tid].m;
    ContinueEvent(c, f, tid, act);
    NoneHeldSnoc(f.events, Put(m), sid);
    NoneHeldSnoc(f.events, Wrote(m), sid);
    assert Held(f, sid) && Knows(f, f.threads[tid]);
    if r.events != f.events && f.threads[tid].OverflowWrite? {
      assert r.threads[tid] == MarkAfter(m);
    }
    if AboutToMark(f, sid) {
      var t :| t in f.threads && f.threads[t].MarkAfter? && f.threads[t].m.sid == sid;
      assert t != tid ==> t in r.threads && r.threads[t] == f.threads[t];
    }
  }

  lemma NobodyMarks(f: Front, tid: nat)
    requires OneFlight(f) && tid in f.threads && !f.threads[tid].MarkAfter?
    ensures !AboutToMark(f, f.threads[tid].m.sid)
  {
  }

  lemma OtherSessionsUnmoved(c: Config, f: Front, tid: nat, act: Action, sid: Sid)
    requires tid in f.threads && f.threads[tid].m.sid != sid
    ensures var r := Continue(c, f, tid, f.threads[tid], act);
      (NoneHeld(r.events, sid) <==> NoneHeld(f.events, sid)) && (sid in r.sticky <==> sid in f.sticky)
  {
    var m := f.threads[tid].m;
    ContinueEvent(c, f, tid, act);
    NoneHeldSnoc(f.events, Put(m), sid);
    NoneHeldSnoc(f.events, Wrote(m), sid);
  }

  lemma OthersKnow(c: Config, f: Front, tid: nat, act: Action, t: nat)
    requires Sticks(f) && OneFlight(f) && tid in f.threads && t != tid && t in f.threads
    requires t in Continue(c, f, tid, f.threads[tid], act).threads
    ensures var r := Continue(c, f, tid, f.threads[tid], act); Knows(r, r.threads[t])
  {
    assert Knows(f, f.threads[t]);
    OtherSessionsUnmoved(c, f, tid, act, f.threads[t].m.sid);
  }

  lemma SelfKnows(c: Config, f: Front, tid: nat, act: Action)
    requires Sticks(f) && OneFlight(f) && OffMeansOff(c, f) && tid in f.threads
    requires tid in Continue(c, f, tid, f.threads[tid], act).threads
    ensures var r := Continue(c, f, tid, f.threads[tid], act); Knows(r, r.threads[tid])
  {
    ContinueEvent(c, f, tid, act);
    assert Knows(f, f.threads[tid]) && Held(f, f.threads[tid].m.sid);
    if !f.threads[tid].MarkAfter? { NobodyMarks(f, tid); }
  }

  lemma NumberSticks(f: Front, tid: nat)
    requires Sticks(f) && tid !in f.threads
    ensures Sticks(DoNumber(f, tid))
  {
    var r := DoNumber(f, tid);
    forall sid ensures Held(r, sid) {
      assert Held(f, sid);
      if AboutToMark(f, sid) {
        var t :| t in f.threads && f.threads[t].MarkAfter? && f.threads[t].m.sid == sid;
        assert r.threads[t] == f.threads[t];
      }
    }
    forall t | t in r.threads ensures Knows(r, r.threads[t]) {
      assert t != tid ==> Knows(f, f.threads[t]);
    }
  }

  lemma DispatchSticks(c: Config, s: Sys, ok: bool)
    requires Sticks(s.front)
    ensures Sticks(DoDispatch(c, s, ok).front)
  {
    var f, r := s.front, DoDispatch(c, s, ok).front;
    forall sid ensures Held(r, sid) {
      assert Held(f, sid);
      if AboutToMark(f, sid) {
        var t :| t in f.threads && f.threads[t].MarkAfter? && f.threads[t].m.sid == sid;
        assert r.threads[t] == f.threads[t];
      }
    }
    forall t | t in r.threads ensures Knows(r, r.threads[t]) {
      assert t in f.threads && r.threads[t] == f.threads[t] ==> Knows(f, f.threads[t]);
    }
  }

  lemma ReleaseSticks(f: Front, sticky: set<Sid>, e: Event)
    requires Sticks(f) && (e == Cleared || e.Swept?)
    requires forall sid :: sid in sticky <==> sid in f.sticky && !Releases(e, sid)
    requires forall t :: t in f.threads && f.threads[t].Write? ==> !Releases(e, f.threads[t].m.sid)
    ensures Sticks(f.(sticky := sticky, events := f.events + [e]))
  {
    var r := f.(sticky := sticky, events := f.events + [e]);
    OrderSnoc(f.events, e);
    forall sid ensures Held(r, sid) {
      assert Held(f, sid);
      NoneHeldSnoc(f.events, e, sid);
      assert AboutToMark(f, sid) ==> AboutToMark(r, sid);
    }
    forall t | t in r.threads ensures Knows(r, r.threads[t]) {
      assert Knows(f, f.threads[t]);
      NoneHeldSnoc(f.events, e, f.threads[t].m.sid);
    }
  }

  /** A call in its numbering phase has no other place where it stands. */
  ghost predicate CallersApart(f: Front) {
    forall t :: t in f.counters.callers ==> t !in f.threads && t != 0
  }

  lemma ProduceKeepsApart(c: Config, f: Front, tid: nat, act: Action)
    requires CallersApart(f)
    ensures CallersApart(DoProduce(c, f, tid, act))
  {
  }

  lemma StepKeepsApart(c: Config, s: Sys, st: Step)
    requires CallersApart(s.front)
    ensures CallersApart(Apply(c, s, st).front)
  {
    if st.Producer? { ProduceKeepsApart(c, s.front, st.tid, st.act); }
  }

  lemma StepSticks(c: Config, s: Sys, st: Step)
    requires Sticks(s.front) && OneFlight(s.front) && CallersApart(s.front) && OffMeansOff(c, s.front)
    requires SparesWriters(s.front, st)
    ensures Sticks(Apply(c, s, st).front)
  {
    match st
    case Producer(tid, act) =>
      if act.Number? {
        if tid in s.front.counters.callers { NumberSticks(s.front, tid); }
      } else if !act.Start? {
        if tid in s.front.threads { ContinueSticks(c, s.front, tid, act); }
      } else {
        StartSticks(s.front, tid, act);
      }
    case Consume(_) =>
    case Dispatch(ok) => DispatchSticks(c, s, ok);
    case Take(_) =>
    case Attempt(_) =>
    case Clear => ReleaseSticks(s.front, {}, Cleared);
    case Sweep(sids) => ReleaseSticks(s.front, s.front.sticky - sids, Swept(sids));
  }

  lemma StartSticks(f: Front, tid: nat, act: Action)
    requires Sticks(f) && act.Start?
    ensures Sticks(DoStart(f, tid, act.sid, act.msgID, act.payload))
  {
    var r := DoStart(f, tid, act.sid, act.msgID, act.payload);
    forall sid ensures Held(r, sid) { assert Held(f, sid) && (AboutToMark(f, sid) ==> AboutToMark(r, sid)); }
    forall t | t in r.threads ensures Knows(r, r.threads[t]) { assert Knows(f, f.threads[t]); }
  }

  ghost predicate OneFlightAt(c: Config, steps: seq<Step>, n: nat) {
    n <= |steps| && OneFlight(Run(c, steps[..n]).front)
  }

  ghost predicate OneFlightThroughout(c: Config, steps: seq<Step>) {
    forall n :: 0 <= n <= |steps| ==> OneFlightAt(c, steps, n)
  }

  ghost predicate SparesWritersThroughout(c: Config, steps: seq<Step>) {
    forall n :: 0 <= n < |steps| ==> SparesWriters(Run(c, steps[..n]).front, steps[n])
  }

  lemma {:induction false} EveryRunSticks(c: Config, steps: seq<Step>)
    requires OneFlightThroughout(c, steps) && SparesWritersThroughout(c, steps)
    ensures Sticks(Run(c, steps).front) && CallersApart(Run(c, steps).front) && OffMeansOff(c, Run(c, steps).front)
  {
    if steps != [] {
      var m := |steps| - 1;
      forall n | 0 <= n <= m ensures OneFlightAt(c, steps[..m], n) {
        assert steps[..m][..n] == steps[..n] && OneFlightAt(c, steps, n);
      }
      forall n | 0 <= n < m ensures SparesWriters(Run(c, steps[..m][..n]).front, steps[..m][n]) {
        assert steps[..m][..n] == steps[..n] && steps[..m][n] == steps[n];
      }
      assert OneFlightAt(c, steps, m);
      EveryRunSticks(c, steps[..m]);
      StepSticks(c, Run(c, steps[..m]), steps[m]);
      StepKeepsApart(c, Run(c, steps[..m]), steps[m]);
      StepKeepsOff(c, Run(c, steps[..m]), steps[m]);
    }
  }

  /** Under every interleaving of all sessions, routes, redeliveries, clears and sweeps: if no
      session ever has two goroutines in flight, and no clear or sweep comes between a session's
      mark and its Kafka write, nothing of a session goes to the channel after its Kafka write
      before it is released. Both conditions are needed. */
  lemma StickyWithOneFlight(c: Config, steps: seq<Step>)
    requires OneFlightThroughout(c, steps) && SparesWritersThroughout(c, steps)
    ensures StickyOrder(Run(c, steps).front.events)
  {
    EveryRunSticks(c, steps);
  }

  // ---------------------------------------------------------------- the two conditions are needed

  /** `k` sections of numbering in a row. */
  function Numbers(f: Front, tid: nat, k: nat): Front {
    if k == 0 then f else DoNumber(Numbers(f, tid, k - 1), tid)
  }

  ghost predicate TookNumber(f: Front, r: Front, tid: nat, m: Msg) {
    && r.numbered == f.numbered[m.sid := At(f.numbered, m.sid) + [m.env]]
    && r.threads == f.threads[tid := Numbered(m)]
    && r.counters.callers == f.counters.callers
    && (r.sticky, r.channel, r.log, r.events) == (f.sticky, f.channel, f.log, f.events)
  }

  lemma ThreeSections(f: Front, tid: nat, m: Msg)
    requires CellsCount(f.counters, f.numbered) && m.env.seqNum == |At(f.numbered, m.sid)| + 1
    requires tid != 0 && tid !in f.threads && tid !in f.counters.callers
    ensures var f0 := DoStart(f, tid, m.sid, m.env.msgID, m.env.payload);
      TookNumber(f, DoNumber(DoNumber(DoNumber(f0, tid), tid), tid), tid, m)
  {
    assert CellCounts(f.counters, f.numbered, m.sid);
    assert m == Msg(m.sid, Envelope(m.env.seqNum, m.env.msgID, m.env.payload));
  }

  lemma ThreeNumbers(f: Front, tid: nat)
    ensures Numbers(f, tid, 3) == DoNumber(DoNumber(DoNumber(f, tid), tid), tid)
  {
    assert Numbers(f, tid, 0) == f;
    assert Numbers(f, tid, 1) == DoNumber(f, tid);
    assert Numbers(f, tid, 2) == DoNumber(DoNumber(f, tid), tid);
  }

  /** Three sections without interruption are enough to get the session's next number; any
      further ones are not enabled. */
  lemma {:induction false} TakesNumber(f: Front, tid: nat, m: Msg, k: nat)
    requires CellsCount(f.counters, f.numbered) && m.env.seqNum == |At(f.numbered, m.sid)| + 1
    requires tid != 0 && tid !in f.threads && tid !in f.counters.callers && k >= 3
    ensures TookNumber(f, Numbers(DoStart(f, tid, m.sid, m.env.msgID, m.env.payload), tid, k), tid, m)
  {
    if k > 3 {
      TakesNumber(f, tid, m, k - 1);
    } else {
      ThreeSections(f, tid, m);
      ThreeNumbers(DoStart(f, tid, m.sid, m.env.msgID, m.env.payload), tid);
    }
  }

  lemma FlightExtends(c: Config, steps: seq<Step>, more: seq<Step>)
    requires |more| == |steps| + 1 && steps <= more
    requires OneFlightThroughout(c, steps) && OneFlight(Run(c, more).front)
    ensures OneFlightThroughout(c, more)
  {
    forall n | 0 <= n <= |more| ensures OneFlightAt(c, more, n) {
      if n <= |steps| {
        assert more[..n] == steps[..n] && OneFlightAt(c, steps, n);
      } else {
        assert more[..n] == more;
      }
    }
  }

  /** One more step of a run in which no session has two goroutines in flight. */
  lemma RunAlone(c: Config, steps: seq<Step>, st: Step) returns (more: seq<Step>)
    requires OneFlightThroughout(c, steps) && OneFlight(Apply(c, Run(c, steps), st).front)
    ensures more == steps + [st] && Run(c, more) == Apply(c, Run(c, steps), st) && OneFlightThroughout(c, more)
  {
    more := RunOne(c, steps, st);
    FlightExtends(c, steps, more);
  }

  predicate OnlyProducers(steps: seq<Step>) {
    forall n :: 0 <= n < |steps| ==> steps[n].Producer?
  }

  lemma {:induction false} EveryRunApart(c: Config, steps: seq<Step>)
    ensures CallersApart(Run(c, steps).front)
  {
    if steps != [] {
      EveryRunApart(c, steps[..|steps| - 1]);
      StepKeepsApart(c, Run(c, steps[..|steps| - 1]), steps[|steps| - 1]);
    }
  }

  lemma NumberLeavesOthers(f: Front, tid: nat)
    requires CallersApart(f) && OneFlight(DoNumber(f, tid))
    ensures OneFlight(f)
  {
    var r := DoNumber(f, tid);
    forall t, u | t in f.threads && u in f.threads && f.threads[t].m.sid == f.threads[u].m.sid ensures t == u {
      assert r.threads[t] == f.threads[t] && r.threads[u] == f.threads[u];
    }
  }

  /** One section of numbering: it adds at most the goroutine itself. */
  lemma RunNumbers(c: Config, steps: seq<Step>, tid: nat) returns (more: seq<Step>)
    ensures Run(c, more) == Run(c, steps).(front := DoNumber(Run(c, steps).front, tid))
    ensures OnlyProducers(steps) ==> OnlyProducers(more)
    ensures OneFlight(Run(c, more).front) ==> OneFlight(Run(c, steps).front)
    ensures OneFlightThroughout(c, steps) && OneFlight(Run(c, more).front) ==> OneFlightThroughout(c, more)
  {
    more := RunOne(c, steps, Producer(tid, Number));
    EveryRunApart(c, steps);
    if OneFlight(Run(c, more).front) {
      NumberLeavesOthers(Run(c, steps).front, tid);
      if OneFlightThroughout(c, steps) { FlightExtends(c, steps, more); }
    }
  }

  lemma {:induction false} RunNumbersOn(c: Config, steps: seq<Step>, tid: nat, k: nat) returns (more: seq<Step>)
    ensures Run(c, more) == Run(c, steps).(front := Numbers(Run(c, steps).front, tid, k))
    ensures OnlyProducers(steps) ==> OnlyProducers(more)
    ensures OneFlight(Run(c, more).front) ==> OneFlight(Run(c, steps).front)
    ensures OneFlightThroughout(c, steps) && OneFlight(Run(c, more).front) ==> OneFlightThroughout(c, more)
  {
    more := steps;
    if k > 0 {
      more := RunNumbersOn(c, steps, tid, k - 1);
      more := RunNumbers(c, more, tid);
    }
  }

  lemma RunStarts(c: Config, steps: seq<Step>, tid: nat, m: Msg) returns (more: seq<Step>)
    ensures Run(c, more) == Run(c, steps).(front := DoStart(Run(c, steps).front, tid, m.sid, m.env.msgID, m.env.payload))
    ensures OnlyProducers(steps) ==> OnlyProducers(more)
    ensures OneFlightThroughout(c, steps) && OneFlight(Run(c, more).front) ==> OneFlightThroughout(c, more)
  {
    more := RunOne(c, steps, Producer(tid, Start(m.sid, m.env.msgID, m.env.payload)));
    if OneFlightThroughout(c, steps) && OneFlight(Run(c, more).front) { FlightExtends(c, steps, more); }
  }

  /** A run that takes a number for goroutine `tid`. */
  lemma RunTakesNumber(c: Config, steps: seq<Step>, tid: nat, m: Msg) returns (more: seq<Step>)
    requires var f := Run(c, steps).front;
      && tid != 0 && tid !in f.threads && tid !in f.counters.callers && m.env.seqNum == |At(f.numbered, m.sid)| + 1
    ensures TookNumber(Run(c, steps).front, Run(c, more).front, tid, m)
    ensures Run(c, more).back == Run(c, steps).back && Run(c, more).consumer == Run(c, steps).consumer
    ensures OneFlightThroughout(c, steps) && OneFlight(Run(c, more).front) ==> OneFlightThroughout(c, more)
    ensures OnlyProducers(steps) ==> OnlyProducers(more)
  {
    EveryRun(c, steps);
    var k: nat :| k >= 3;
    TakesNumber(Run(c, steps).front, tid, m, k);
    more := RunStarts(c, steps, tid, m);
    more := RunNumbersOn(c, more, tid, k);
  }

  lemma BrokenOrder(es: seq<Event>, i: nat, w: Msg, p: Msg)
    requires |es| == i + 2 && es[i] == Wrote(w) && es[i + 1] == Put(p) && w.sid == p.sid
    ensures !StickyOrder(es)
  {
    assert es[i].m.sid == es[i + 1].m.sid;
  }

  /** One section of a goroutine that stands at `pc`. */
  lemma Goes(c: Config, steps: seq<Step>, tid: nat, pc: Pc, act: Action) returns (more: seq<Step>)
    requires tid in Run(c, steps).front.threads && Run(c, steps).front.threads[tid] == pc && !act.Start? && !act.Number?
    ensures Run(c, more) == Run(c, steps).(front := Continue(c, Run(c, steps).front, tid, pc, act))
    ensures OnlyProducers(steps) ==> OnlyProducers(more)
    ensures OneFlightThroughout(c, steps) && OneFlight(Run(c, more).front) ==> OneFlightThroughout(c, more)
  {
    more := RunOne(c, steps, Producer(tid, act));
    if OneFlightThroughout(c, steps) && OneFlight(Run(c, more).front) { FlightExtends(c, steps, more); }
  }

  /** A front in which the one session has these goroutines, no stickiness and an empty channel. */
  ghost predicate Stage(f: Front, threads: map<nat, Pc>, sid: Sid, numbered: seq<Envelope>, sticky: set<Sid>, es: seq<Event>) {
    && f.threads == threads && f.counters.callers == map[] && At(f.numbered, sid) == numbered
    && f.sticky == sticky && f.channel == [] && f.events == es
  }

  /** The session's next message is numbered and takes the channel's branch: nothing is marked. */
  lemma NumberedNext(c: Config, steps: seq<Step>, threads: map<nat, Pc>, tid: nat, m: Msg, ns: seq<Envelope>, es: seq<Event>)
    returns (more: seq<Step>)
    requires Stage(Run(c, steps).front, threads, m.sid, ns, {}, es)
    requires tid != 0 && tid !in threads && m.env.seqNum == |ns| + 1
    ensures Stage(Run(c, more).front, threads[tid := Numbered(m)], m.sid, ns + [m.env], {}, es)
    ensures OnlyProducers(steps) ==> OnlyProducers(more)
    ensures OneFlightThroughout(c, steps) && threads == map[] ==> OneFlightThroughout(c, more)
  {
    more := RunTakesNumber(c, steps, tid, m);
  }

  lemma NothingYet(c: Config, sid: Sid)
    ensures Stage(Run(c, []).front, map[], sid, [], {}, [])
    ensures OneFlightThroughout(c, []) && OnlyProducers([])
  {
  }

  /** The stages a goroutine goes through when it is the first to mark its session. */
  lemma MarksAndWrites(c: Config, f: Front, threads: map<nat, Pc>, tid: nat, m: Msg, ns: seq<Envelope>)
    requires c.kafkaEnabled && tid in threads && threads[tid] == Numbered(m)
    requires Stage(f, threads, m.sid, ns, {}, [])
    ensures var f1 := Continue(c, f, tid, Numbered(m), Route(true));
      var f2 := Continue(c, f1, tid, MarkFirst(m), Mark);
      && Stage(f1, threads[tid := MarkFirst(m)], m.sid, ns, {}, [])
      && Stage(f2, threads[tid := Write(m, false)], m.sid, ns, {m.sid}, [])
      && Stage(Continue(c, f2, tid, Write(m, false), KafkaWrite(Written)), threads - {tid}, m.sid, ns, {m.sid}, [Wrote(m)])
  {
  }

  lemma SecondWrites(c: Config, steps: seq<Step>, a: Msg, b: Msg) returns (more: seq<Step>)
    requires c.kafkaEnabled && a.sid == b.sid && b.env.seqNum == 2 && OnlyProducers(steps)
    requires Stage(Run(c, steps).front, map[1 := TryChannel(a)], a.sid, [a.env], {}, [])
    ensures Stage(Run(c, more).front, map[1 := TryChannel(a)], a.sid, [a.env, b.env], {a.sid}, [Wrote(b)])
    ensures OnlyProducers(more)
  {
    var both: map<nat, Pc> := map[1 := TryChannel(a)][2 := Numbered(b)];
    more := NumberedNext(c, steps, map[1 := TryChannel(a)], 2, b, [a.env], []);
    MarksAndWrites(c, Run(c, more).front, both, 2, b, [a.env, b.env]);
    more := Goes(c, more, 2, Numbered(b), Route(true));
    more := Goes(c, more, 2, MarkFirst(b), Mark);
    more := Goes(c, more, 2, Write(b, false), KafkaWrite(Written));
    assert both - {2} == map[1 := TryChannel(a)];
  }

  /** Two goroutines of one session in flight: the first has read the sticky map before the
      second marks the session and writes to Kafka. */
  lemma TwoInFlightBreakStickiness(c: Config)
    requires c.kafkaEnabled && c.capacity >= 1
    ensures exists steps :: SparesWritersThroughout(c, steps) && !StickyOrder(Run(c, steps).front.events)
  {
    var a, b := Msg("s", Envelope(1, "M1", "first")), Msg("s", Envelope(2, "M2", "second"));
    NothingYet(c, "s");
    var steps := NumberedNext(c, [], map[], 1, a, [], []);
    steps := Goes(c, steps, 1, Numbered(a), Route(false));
    steps := SecondWrites(c, steps, a, b);
    steps := Goes(c, steps, 1, TryChannel(a), SendToChannel);
    BrokenOrder(Run(c, steps).front.events, 0, b, a);
    ProducersSpare(c, steps);
  }

  lemma ProducersSpare(c: Config, steps: seq<Step>)
    requires OnlyProducers(steps)
    ensures SparesWritersThroughout(c, steps)
  {
  }

  lemma MarksBeforeTheWrite(c: Config, f: Front, m: Msg, ns: seq<Envelope>)
    requires c.kafkaEnabled && Stage(f, map[1 := Numbered(m)], m.sid, ns, {}, [])
    ensures var f1 := Continue(c, f, 1, Numbered(m), Route(true));
      && Stage(f1, map[1 := MarkFirst(m)], m.sid, ns, {}, [])
      && Stage(Continue(c, f1, 1, MarkFirst(m), Mark), map[1 := Write(m, false)], m.sid, ns, {m.sid}, [])
  {
  }

  lemma WritesUnmarked(c: Config, f: Front, m: Msg, ns: seq<Envelope>)
    requires Stage(f, map[1 := Write(m, false)], m.sid, ns, {m.sid}, [])
    ensures var f3 := f.(sticky := {}, events := f.events + [Cleared]);
      && Stage(f3, map[1 := Write(m, false)], m.sid, ns, {}, [Cleared])
      && Stage(Continue(c, f3, 1, Write(m, false), KafkaWrite(Written)), map[], m.sid, ns, {}, [Cleared, Wrote(m)])
  {
  }

  lemma WritesAfterRelease(c: Config, a: Msg) returns (steps: seq<Step>)
    requires c.kafkaEnabled && a.env.seqNum == 1
    ensures Stage(Run(c, steps).front, map[], a.sid, [a.env], {}, [Cleared, Wrote(a)])
    ensures OneFlightThroughout(c, steps)
  {
    NothingYet(c, a.sid);
    steps := NumberedNext(c, [], map[], 1, a, [], []);
    MarksBeforeTheWrite(c, Run(c, steps).front, a, [a.env]);
    steps := Goes(c, steps, 1, Numbered(a), Route(true));
    steps := Goes(c, steps, 1, MarkFirst(a), Mark);
    WritesUnmarked(c, Run(c, steps).front, a, [a.env]);
    steps := RunAlone(c, steps, Clear);
    steps := Goes(c, steps, 1, Write(a, false), KafkaWrite(Written));
  }

  lemma TakesChannel(c: Config, f: Front, m: Msg, ns: seq<Envelope>, es: seq<Event>)
    requires c.capacity >= 1 && Stage(f, map[1 := Numbered(m)], m.sid, ns, {}, es)
    ensures var f1 := Continue(c, f, 1, Numbered(m), Route(false));
      var f2 := Continue(c, f1, 1, TryChannel(m), SendToChannel);
      && f1.threads == map[1 := TryChannel(m)] && f2.threads == map[] && f2.events == es + [Put(m)]
  {
  }

  /** A clear between a session's mark and its write: the write is then unmarked, and although
      the session never has two goroutines in flight its next message takes the channel. */
  lemma ReleaseDuringWriteBreaksStickiness(c: Config)
    requires c.kafkaEnabled && c.capacity >= 1
    ensures exists steps :: OneFlightThroughout(c, steps) && !StickyOrder(Run(c, steps).front.events)
  {
    var a, b := Msg("s", Envelope(1, "M1", "first")), Msg("s", Envelope(2, "M2", "second"));
    var steps := WritesAfterRelease(c, a);
    steps := NumberedNext(c, steps, map[], 1, b, [a.env], [Cleared, Wrote(a)]);
    TakesChannel(c, Run(c, steps).front, b, [a.env, b.env], [Cleared, Wrote(a)]);
    steps := Goes(c, steps, 1, Numbered(b), Route(false));
    steps := Goes(c, steps, 1, TryChannel(b), SendToChannel);
    BrokenOrder(Run(c, steps).front.events, 1, a, b);
  }

  // ---------------------------------------------------------------- atomic calls are runs

  /** The router of HybridRouting and the front of Pipeline in corresponding states. */
  ghost predicate Corresponds(c: Config, r: R.Router, f: Front) {
    && r.kafkaEnabled == c.kafkaEnabled
    && (forall sid :: R.Routed(r.routedToKafka, sid) <==> sid in f.sticky)
    && (r.transmit, r.log, r.events) == (f.channel, f.log, f.events)
    && (forall sid :: R.NextSeq(r, sid) == |At(f.numbered, sid)| + 1)
  }

  function Then(c: Config, f: Front, tid: nat, act: Action): Front {
    if tid in f.threads then Continue(c, f, tid, f.threads[tid], act) else f
  }

  /** From sendToChannel on: the channel, or a Kafka write and the mark after it. */
  function ChannelSections(c: Config, f: Front, tid: nat, a: R.Answers): Front {
    Then(c, Then(c, Then(c, f, tid, SendToChannel), tid, KafkaWrite(a.second)), tid, Mark)
  }

  /** The sections a call of processLocal may run, in order; those it does not reach are not
      enabled and change nothing. */
  function Sections(c: Config, f: Front, tid: nat, a: R.Answers): Front {
    ChannelSections(c, Then(c, Then(c, Then(c, f, tid, Route(a.overflow)), tid, Mark), tid, KafkaWrite(a.first)), tid, a)
  }

  lemma AppendCorresponds(c: Config, r: R.Router, f: Front, m: Msg, res: WriteResult)
    requires Corresponds(c, r, f)
    ensures Corresponds(c, R.WriteMessages(r, m, res), Append(f, m, res))
  {
  }

  lemma StickCorresponds(c: Config, r: R.Router, f: Front, g: Front, sid: Sid, now: int)
    requires Corresponds(c, r, f)
    requires g.sticky == f.sticky + {sid}
    requires (g.channel, g.log, g.events, g.numbered) == (f.channel, f.log, f.events, f.numbered)
    ensures Corresponds(c, R.Stick(r, sid, now), g)
  {
  }

  lemma ChannelCorresponds(c: Config, r: R.Router, f: Front, tid: nat, m: Msg, a: R.Answers)
    requires Corresponds(c, r, f) && tid in f.threads && f.threads[tid] == TryChannel(m)
    ensures var g := ChannelSections(c, f, tid, a);
      && Corresponds(c, R.SendToChannel(c.capacity, r, m, a.second, a.now).0, g)
      && g.threads == f.threads - {tid} && g.counters == f.counters
  {
    var g1 := Then(c, f, tid, SendToChannel);
    if |f.channel| >= c.capacity && c.kafkaEnabled {
      assert g1 == Goto(f, tid, OverflowWrite(m));
      AppendCorresponds(c, r, g1, m, a.second);
      if a.second == Written {
        StickCorresponds(c, R.WriteMessages(r, m, a.second), Append(g1, m, a.second), ChannelSections(c, f, tid, a), m.sid, a.now);
      }
    }
  }

  lemma NumberedCorresponds(c: Config, r: R.Router, f: Front, g: Front, m: Msg)
    requires Corresponds(c, r, f) && m.env.seqNum == R.NextSeq(r, m.sid)
    requires g.numbered == f.numbered[m.sid := At(f.numbered, m.sid) + [m.env]]
    requires (g.sticky, g.channel, g.log, g.events) == (f.sticky, f.channel, f.log, f.events)
    ensures Corresponds(c, r.(seqNums := r.seqNums[m.sid := m.env.seqNum]), g)
  {
    forall sid ensures R.NextSeq(r.(seqNums := r.seqNums[m.sid := m.env.seqNum]), sid) == |At(g.numbered, sid)| + 1 {
      assert R.NextSeq(r, sid) == |At(f.numbered, sid)| + 1;
    }
  }

  lemma SectionsCorrespond(c: Config, r: R.Router, f: Front, tid: nat, sid: Sid, msgID: string, payload: string, a: R.Answers)
    requires Corresponds(c, r, f) && CellsCount(f.counters, f.numbered)
    requires tid != 0 && tid !in f.threads && tid !in f.counters.callers
    ensures var g := Sections(c, Numbers(DoStart(f, tid, sid, msgID, payload), tid, 3), tid, a);
      && Corresponds(c, R.ProcessLocal(c.capacity, r, sid, msgID, payload, a).0, g)
      && g.threads == f.threads && g.counters.callers == f.counters.callers
  {
    var m := Msg(sid, Envelope(R.NextSeq(r, sid), msgID, payload));
    var f0 := Numbers(DoStart(f, tid, sid, msgID, payload), tid, 3);
    TakesNumber(f, tid, m, 3);
    var n := r.(seqNums := r.seqNums[sid := R.NextSeq(r, sid)]);
    NumberedCorresponds(c, r, f, f0, m);
    RoutedCallIsARun(c, n, f0, tid, m, a);
  }

  /** One call of processLocal by goroutine `tid`, section by section. */
  function SendSteps(tid: nat, sid: Sid, msgID: string, payload: string, a: R.Answers): seq<Step> {
    [Producer(tid, Start(sid, msgID, payload)), Producer(tid, Number), Producer(tid, Number), Producer(tid, Number),
     Producer(tid, Route(a.overflow)), Producer(tid, Mark), Producer(tid, KafkaWrite(a.first)),
     Producer(tid, SendToChannel), Producer(tid, KafkaWrite(a.second)), Producer(tid, Mark)]
  }

  lemma RunNumbered(c: Config, steps: seq<Step>, tid: nat, sid: Sid, msgID: string, payload: string) returns (more: seq<Step>)
    ensures more == steps + [Producer(tid, Start(sid, msgID, payload)), Producer(tid, Number), Producer(tid, Number), Producer(tid, Number)]
    ensures Run(c, more) == Run(c, steps).(front := Numbers(DoStart(Run(c, steps).front, tid, sid, msgID, payload), tid, 3))
  {
    more := RunOne(c, steps, Producer(tid, Start(sid, msgID, payload)));
    ThreeNumbers(Run(c, more).front, tid);
    more := RunOne(c, more, Producer(tid, Number));
    more := RunOne(c, more, Producer(tid, Number));
    more := RunOne(c, more, Producer(tid, Number));
  }

  lemma RunSections(c: Config, steps: seq<Step>, tid: nat, a: R.Answers) returns (more: seq<Step>)
    ensures more == steps + [Producer(tid, Route(a.overflow)), Producer(tid, Mark), Producer(tid, KafkaWrite(a.first)),
                             Producer(tid, SendToChannel), Producer(tid, KafkaWrite(a.second)), Producer(tid, Mark)]
    ensures Run(c, more) == Run(c, steps).(front := Sections(c, Run(c, steps).front, tid, a))
  {
    more := RunOne(c, steps, Producer(tid, Route(a.overflow)));
    more := RunOne(c, more, Producer(tid, Mark));
    more := RunOne(c, more, Producer(tid, KafkaWrite(a.first)));
    more := RunOne(c, more, Producer(tid, SendToChannel));
    more := RunOne(c, more, Producer(tid, KafkaWrite(a.second)));
    more := RunOne(c, more, Producer(tid, Mark));
  }

  /** processLocal as one call of HybridRouting is these steps of Pipeline, uninterrupted. */
  lemma AtomicCallIsARun(c: Config, r: R.Router, steps: seq<Step>, tid: nat, sid: Sid, msgID: string, payload: string, a: R.Answers)
    requires Corresponds(c, r, Run(c, steps).front)
    requires tid != 0 && tid !in Run(c, steps).front.threads && tid !in Run(c, steps).front.counters.callers
    ensures var s, t := Run(c, steps), Run(c, steps + SendSteps(tid, sid, msgID, payload, a));
      && Corresponds(c, R.ProcessLocal(c.capacity, r, sid, msgID, payload, a).0, t.front)
      && t.front.threads == s.front.threads && t.front.counters.callers == s.front.counters.callers
      && t.back == s.back && t.consumer == s.consumer
  {
    EveryRun(c, steps);
    SectionsCorrespond(c, r, Run(c, steps).front, tid, sid, msgID, payload, a);
    var more := RunNumbered(c, steps, tid, sid, msgID, payload);
    more := RunSections(c, more, tid, a);
    assert more == steps + SendSteps(tid, sid, msgID, payload, a);
  }

  /** What processLocal does once it has the number. */
  function Routed(capacity: nat, n: R.Router, m: Msg, a: R.Answers): R.Router {
    var isRouted := R.Routed(n.routedToKafka, m.sid);
    if (isRouted || a.overflow) && n.kafkaEnabled then
      var w := R.WriteMessages(if isRouted then n else R.Stick(n, m.sid, a.now), m, a.first);
      if a.first == Written || isRouted then w else R.SendToChannel(capacity, w, m, a.second, a.now).0
    else R.SendToChannel(capacity, n, m, a.second, a.now).0
  }

  lemma MarkedCallIsARun(c: Config, n: R.Router, f: Front, tid: nat, m: Msg, a: R.Answers)
    requires Corresponds(c, n, f) && tid in f.threads && f.threads[tid] == Numbered(m)
    requires c.kafkaEnabled && a.overflow && !R.Routed(n.routedToKafka, m.sid)
    ensures var g := Sections(c, f, tid, a);
      && Corresponds(c, Routed(c.capacity, n, m, a), g)
      && g.threads == f.threads - {tid} && g.counters == f.counters
  {
    var f1 := Then(c, f, tid, Route(a.overflow));
    var f2 := Then(c, f1, tid, Mark);
    var f3 := Then(c, f2, tid, KafkaWrite(a.first));
    assert f1 == Goto(f, tid, MarkFirst(m)) && f2.threads[tid] == Write(m, false);
    StickCorresponds(c, n, f1, f2, m.sid, a.now);
    AppendCorresponds(c, R.Stick(n, m.sid, a.now), f2, m, a.first);
    if a.first != Written {
      assert f3 == Goto(Append(f2, m, a.first), tid, TryChannel(m));
      ChannelCorresponds(c, R.WriteMessages(R.Stick(n, m.sid, a.now), m, a.first), f3, tid, m, a);
    } else {
      assert f3 == Return(Append(f2, m, a.first), tid);
    }
  }

  lemma RoutedCallIsARun(c: Config, n: R.Router, f: Front, tid: nat, m: Msg, a: R.Answers)
    requires Corresponds(c, n, f) && tid in f.threads && f.threads[tid] == Numbered(m)
    ensures var g := Sections(c, f, tid, a);
      && Corresponds(c, Routed(c.capacity, n, m, a), g)
      && g.threads == f.threads - {tid} && g.counters == f.counters
  {
    var isRouted := R.Routed(n.routedToKafka, m.sid);
    var f1 := Then(c, f, tid, Route(a.overflow));
    var f3 := Then(c, Then(c, f1, tid, Mark), tid, KafkaWrite(a.first));
    if !((isRouted || a.overflow) && c.kafkaEnabled) {
      assert f3 == f1 == Goto(f, tid, TryChannel(m));
      ChannelCorresponds(c, n, f3, tid, m, a);
    } else if isRouted {
      assert f1 == Goto(f, tid, Write(m, true));
      AppendCorresponds(c, n, f1, m, a.first);
      assert f3 == Return(Append(f1, m, a.first), tid);
    } else {
      MarkedCallIsARun(c, n, f, tid, m, a);
    }
  }

  lemma OverflowCorresponds(c: Config, t: R.Router, f: Front, tid: nat, m: Msg, res: WriteResult, now: int)
    requires Corresponds(c, t, f) && tid !in f.threads
    ensures var g := Then(c, Then(c, Goto(f, tid, OverflowWrite(m)), tid, KafkaWrite(res)), tid, Mark);
      Corresponds(c, R.SendEnvelopeToKafka(t, m, res, now).0, g) && g.threads == f.threads && g.counters == f.counters
  {
    var f1 := Goto(f, tid, OverflowWrite(m));
    var f2 := Then(c, f1, tid, KafkaWrite(res));
    AppendCorresponds(c, t, f1, m, res);
    if res == Written {
      StickCorresponds(c, R.WriteMessages(t, m, res), Append(f1, m, res), Then(c, f2, tid, Mark), m.sid, now);
    }
  }

  lemma DispatchCorresponds(c: Config, r: R.Router, s: Sys, ok: bool)
    requires Corresponds(c, r, s.front) && s.front.threads == map[] && s.front.channel != []
    ensures var f, t := s.front.(channel := s.front.channel[1..]), r.(transmit := r.transmit[1..]);
      && Corresponds(c, t, f)
      && DoDispatch(c, s, ok).front == if ok || !c.kafkaEnabled then f else Goto(f, 0, OverflowWrite(s.front.channel[0]))
  {
  }

  /** One turn of the Transmit loop, as the steps of goroutine 0. */
  lemma TransmitIsARun(c: Config, r: R.Router, steps: seq<Step>, enqueued: bool, res: WriteResult, now: int) returns (more: seq<Step>)
    requires Corresponds(c, r, Run(c, steps).front) && Run(c, steps).front.threads == map[]
    ensures var f, g := Run(c, steps).front, Run(c, more).front;
      Corresponds(c, R.Transmit(r, enqueued, res, now), g) && g.threads == map[] && g.counters == f.counters
  {
    more := steps;
    var f := Run(c, steps).front;
    if f.channel != [] {
      DispatchCorresponds(c, r, Run(c, steps), enqueued);
      more := RunOne(c, steps, Dispatch(enqueued));
      if !enqueued && c.kafkaEnabled {
        OverflowCorresponds(c, r.(transmit := r.transmit[1..]), f.(channel := f.channel[1..]), 0, f.channel[0], res, now);
        more := RunOne(c, more, Producer(0, KafkaWrite(res)));
        more := RunOne(c, more, Producer(0, Mark));
      }
    }
  }

  lemma ReleaseCorresponds(c: Config, r: R.Router, f: Front, now: int)
    requires Corresponds(c, r, f)
    ensures Corresponds(c, R.ClearSessionRouting(r), f.(sticky := {}, events := f.events + [Cleared]))
    ensures var sids := R.Stale(r.routedAt, now);
      Corresponds(c, R.SweepSticky(r, now), f.(sticky := f.sticky - sids, events := f.events + [Swept(sids)]))
  {
  }

  /** Start turns Kafka on, if it does, before anything is sent. */
  ghost predicate StartsUp(c: Config, calls: seq<R.Call>) {
    && (c.kafkaEnabled ==> calls != [] && calls[0].InitKafka?)
    && forall i :: 0 <= i < |calls| && (i > 0 || !c.kafkaEnabled) ==> !calls[i].InitKafka?
  }

  /** Nobody is under way, and the front is as the router. */
  ghost predicate StandsFor(c: Config, r: R.Router, steps: seq<Step>) {
    var f := Run(c, steps).front;
    Corresponds(c, r, f) && f.threads == map[] && f.counters.callers == map[]
  }

  lemma CallIsARun(c: Config, r: R.Router, steps: seq<Step>, call: R.Call) returns (more: seq<Step>)
    requires StandsFor(c, r, steps) && !call.InitKafka?
    ensures StandsFor(c, R.Apply(c.capacity, r, call), more)
  {
    match call
    case Process(sid, msgID, payload, a) =>
      AtomicCallIsARun(c, r, steps, 1, sid, msgID, payload, a);
      more := steps + SendSteps(1, sid, msgID, payload, a);
    case TakeTransmit(enqueued, res, now) => more := TransmitIsARun(c, r, steps, enqueued, res, now);
    case Clear =>
      ReleaseCorresponds(c, r, Run(c, steps).front, 0);
      more := RunOne(c, steps, Clear);
    case Sweep(now) =>
      ReleaseCorresponds(c, r, Run(c, steps).front, now);
      more := RunOne(c, steps, Sweep(R.Stale(r.routedAt, now)));
  }

  lemma StartCorresponds(c: Config, calls: seq<R.Call>)
    requires StartsUp(c, calls) && |calls| == if c.kafkaEnabled then 1 else 0
    ensures Corresponds(c, R.Run(c.capacity, calls), Init().front)
  {
    assert c.kafkaEnabled ==> R.Run(c.capacity, calls[..0]) == R.NewRouter();
  }

  lemma StartedUpBefore(c: Config, calls: seq<R.Call>)
    requires StartsUp(c, calls) && |calls| > if c.kafkaEnabled then 1 else 0
    ensures StartsUp(c, calls[..|calls| - 1]) && !calls[|calls| - 1].InitKafka?
  {
  }

  lemma NextCallIsARun(c: Config, calls: seq<R.Call>, steps: seq<Step>) returns (more: seq<Step>)
    requires calls != [] && !calls[|calls| - 1].InitKafka?
    requires StandsFor(c, R.Run(c.capacity, calls[..|calls| - 1]), steps)
    ensures StandsFor(c, R.Run(c.capacity, calls), more)
  {
    more := CallIsARun(c, R.Run(c.capacity, calls[..|calls| - 1]), steps, calls[|calls| - 1]);
  }

  /** Every run of atomic calls is a run of the pipeline with the same counters, stickiness, routes
      and events: what holds of every interleaving holds of it. */
  lemma {:induction false} AtomicCallsAreARun(c: Config, calls: seq<R.Call>) returns (steps: seq<Step>)
    requires StartsUp(c, calls)
    ensures StandsFor(c, R.Run(c.capacity, calls), steps)
  {
    steps := [];
    if |calls| == (if c.kafkaEnabled then 1 else 0) {
      StartCorresponds(c, calls);
    } else {
      StartedUpBefore(c, calls);
      steps := AtomicCallsAreARun(c, calls[..|calls| - 1]);
      steps := NextCallIsARun(c, calls, steps);
    }
  }
}
