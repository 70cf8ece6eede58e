/**
 What holds in every run of the pipeline, whatever the interleaving of producers, Transmit
 loop, Kafka consumer and session workers, and whatever the broker, the processor and the
 timeouts answer.
*/
module PipelineRuns {
  import opened Wrappers
  import opened SessionQueues
  import opened SessionOrder
  import opened Routing
  import opened Pipeline

  /** One more step of a concrete run. */
  lemma RunOne(c: Config, steps: seq<Step>, st: Step) returns (more: seq<Step>)
    ensures more == steps + [st] && Run(c, more) == Apply(c, Run(c, steps), st)
  {
    more := steps + [st];
    assert more[..|more| - 1] == steps;
  }

  // ------------------------------------------------------------ the invariant

  ghost predicate CellsHold(s: Sys) {
    CellsCount(s.front.counters, s.front.numbered)
  }

  ghost predicate AllGenuine(s: Sys) {
    forall m :: Present(s, m) ==> Genuine(s.front, m)
  }

  /** The invariant of a worker between two attempts; `current` is the item it stands before. */
  ghost predicate Midway(q: Queue, current: Option<Item>) {
    InOrder(q) && BufferAhead(q) && Acknowledged(q) && (current.Some? ==> current.value.env.seqNum == q.next)
  }

  function Current(b: Back, sid: Sid): Option<Item> {
    if sid in b.busy then Some(b.busy[sid]) else None
  }

  /** Where the worker will be when it turns to its queue again. */
  function Onward(q: Queue, current: Option<Item>, p: Processor): Queue {
    if current.Some? then Drain(q, current.value, p) else q
  }

  /** The worker is on its way to what its arrivals make of it. */
  ghost predicate OnItsWay(q: Queue, current: Option<Item>, xs: seq<Item>, p: Processor) {
    Midway(q, current) && Onward(q, current, p) == ReceiveAll(xs, p)
  }

  ghost predicate Follows(b: Back, sid: Sid, p: Processor) {
    OnItsWay(Worker(b, sid), Current(b, sid), At(b.arrived, sid), p)
  }

  ghost predicate WorkersFollow(c: Config, b: Back) {
    forall sid :: Follows(b, sid, c.processor(sid))
  }

  ghost predicate Extends(q: Queue, r: Queue) {
    q.next <= r.next && q.processed <= r.processed && q.finished <= r.finished
  }

  lemma {:induction false} DrainExtends(q: Queue, it: Item, p: Processor)
    ensures Extends(q, Drain(q, it, p))
    decreases |q.buffer|
  {
    if p(it, q.attempts) == Success {
      var r := Advance(q, it);
      if r.next in r.buffer {
        PopShrinks(r);
        DrainExtends(Pop(r), r.buffer[r.next], p);
      }
    }
  }

  lemma FollowerExtends(b: Back, sid: Sid, p: Processor)
    requires Follows(b, sid, p)
    ensures Extends(Worker(b, sid), ReceiveAll(At(b.arrived, sid), p))
  {
    if sid in b.busy { DrainExtends(Worker(b, sid), b.busy[sid], p); }
  }

  /** The worker of the message's session has moved past its number. */
  ghost predicate Behind(b: Back, m: Msg) {
    m.env.seqNum < Worker(b, m.sid).next
  }

  ghost predicate AllBehind(b: Back, ms: seq<Msg>) {
    forall m :: m in ms ==> Behind(b, m)
  }

  ghost predicate Awaited(b: Back, k: Consumer) {
    match k.phase
    case Fetching => true
    case Enqueuing(dones) => |dones| <= |k.batch|
    case Waiting(dones, j) => |dones| == |k.batch| && j <= |k.batch| && AllBehind(b, k.batch[..j])
    case Failed => true
    case Accepted => AllBehind(b, k.batch)
  }

  ghost predicate Settled(s: Sys) {
    forall m :: m in s.consumer.committed ==> Genuine(s.front, m) && (Behind(s.back, m) || m in s.consumer.dead)
  }

  ghost predicate Inv(c: Config, s: Sys) {
    CellsHold(s) && AllGenuine(s) && WorkersFollow(c, s.back) && Awaited(s.back, s.consumer) && Settled(s)
  }

  lemma GenuineStays(c: Config, s: Sys, st: Step, m: Msg)
    requires Genuine(s.front, m)
    ensures Genuine(Apply(c, s, st).front, m)
  {
  }

  lemma StepKeepsGenuine(c: Config, s: Sys, st: Step, m: Msg)
    requires CellsHold(s) && AllGenuine(s) && Present(Apply(c, s, st), m)
    ensures Genuine(Apply(c, s, st).front, m)
  {
    StepPresent(c, s, st, m);
    if Present(s, m) {
      GenuineStays(c, s, st, m);
    }
  }

  lemma OthersLeaveWorker(c: Config, s: Sys, st: Step, sid: Sid)
    requires st != Take(sid) && st != Attempt(sid)
    ensures var b, r := s.back, Apply(c, s, st).back;
      Worker(r, sid) == Worker(b, sid) && At(r.arrived, sid) == At(b.arrived, sid) && Current(r, sid) == Current(b, sid)
  {
  }

  lemma DiscardKeepsMidway(q: Queue, it: Item)
    requires Midway(q, None) && it.env.seqNum < q.next
    ensures Midway(Discard(q, it), None)
  {
    assert forall f :: f in q.finished ==> f in Discard(q, it).finished;
  }

  lemma TakenOnItsWay(q: Queue, xs: seq<Item>, it: Item, p: Processor)
    requires OnItsWay(q, None, xs, p)
    ensures if it.env.seqNum > q.next then OnItsWay(Stash(q, it), None, xs + [it], p)
            else if it.env.seqNum < q.next then OnItsWay(Discard(q, it), None, xs + [it], p)
            else OnItsWay(q, Some(it), xs + [it], p)
  {
    ReceiveAllSnoc(xs, it, p);
    if it.env.seqNum < q.next { DiscardKeepsMidway(q, it); }
  }

  lemma Taken(b: Back, sid: Sid)
    requires sid !in b.busy && At(b.queues, sid) != []
    ensures var r, w, it := DoTake(b, sid), Worker(b, sid), At(b.queues, sid)[0];
      && At(r.arrived, sid) == At(b.arrived, sid) + [it]
      && Worker(r, sid) == (if it.env.seqNum > w.next then Stash(w, it) else if it.env.seqNum < w.next then Discard(w, it) else w)
      && Current(r, sid) == if it.env.seqNum == w.next then Some(it) else None
  {
  }

  lemma TakeKeepsWorker(b: Back, sid: Sid, p: Processor)
    requires Follows(b, sid, p)
    ensures Follows(DoTake(b, sid), sid, p) && Worker(DoTake(b, sid), sid).next == Worker(b, sid).next
  {
    if sid !in b.busy && At(b.queues, sid) != [] {
      Taken(b, sid);
      TakenOnItsWay(Worker(b, sid), At(b.arrived, sid), At(b.queues, sid)[0], p);
    }
  }

  lemma AdvanceKeepsMidway(q: Queue, it: Item)
    requires Midway(q, Some(it))
    ensures Midway(Turn(q, it, Success).0, Turn(q, it, Success).1)
  {
    var r := Advance(q, it);
    assert r.finished[|q.finished|] == Finished(it, true);
    assert forall f :: f in q.finished ==> f in r.finished;
  }

  lemma FailureKeepsMidway(q: Queue, it: Item)
    requires Midway(q, Some(it))
    ensures Midway(Finish(q, it, false), None)
  {
    assert forall f :: f in q.finished ==> f in Finish(q, it, false).finished;
  }

  lemma AttemptKeepsWorker(c: Config, b: Back, sid: Sid)
    requires Follows(b, sid, c.processor(sid))
    ensures Follows(DoAttempt(c, b, sid), sid, c.processor(sid))
    ensures Worker(b, sid).next <= Worker(DoAttempt(c, b, sid), sid).next
  {
    if sid in b.busy {
      var q, it := Worker(b, sid), b.busy[sid];
      DrainTurns(q, it, c.processor(sid));
      if c.processor(sid)(it, q.attempts) == Success { AdvanceKeepsMidway(q, it); } else { FailureKeepsMidway(q, it); }
    }
  }

  lemma StepKeepsWorker(c: Config, s: Sys, st: Step, sid: Sid)
    requires Follows(s.back, sid, c.processor(sid))
    ensures Follows(Apply(c, s, st).back, sid, c.processor(sid))
    ensures Worker(s.back, sid).next <= Worker(Apply(c, s, st).back, sid).next
  {
    if st == Take(sid) {
      TakeKeepsWorker(s.back, sid, c.processor(sid));
    } else if st == Attempt(sid) {
      AttemptKeepsWorker(c, s.back, sid);
    } else {
      OthersLeaveWorker(c, s, st, sid);
    }
  }

  lemma StaysBehind(c: Config, s: Sys, st: Step, m: Msg)
    requires WorkersFollow(c, s.back) && Behind(s.back, m)
    ensures Behind(Apply(c, s, st).back, m)
  {
    StepKeepsWorker(c, s, st, m.sid);
  }

  lemma AwaitKeepsAwaited(c: Config, b: Back, k: Consumer, timeout: bool)
    requires WorkersFollow(c, b) && Awaited(b, k)
    ensures Awaited(b, DoAwait(b, k, timeout))
  {
    if k.phase.Waiting? && k.phase.acked < |k.batch| {
      var dones, j := k.phase.dones, k.phase.acked;
      var m := k.batch[j];
      if !timeout && Finished(Item(m.env, Some(dones[j])), true) in Worker(b, m.sid).finished {
        assert Follows(b, m.sid, c.processor(m.sid)) && Behind(b, m);
        assert k.batch[..j + 1] == k.batch[..j] + [m];
      }
    } else if k.phase.Waiting? {
      assert k.batch[..k.phase.acked] == k.batch;
    }
  }

  lemma EnqueueKeepsAwaited(s: Sys, ok: bool)
    requires Awaited(s.back, s.consumer)
    ensures Awaited(DoEnqueue(s, ok).back, DoEnqueue(s, ok).consumer)
  {
  }

  lemma CarriesOver(b: Back, r: Back, k: Consumer)
    requires Awaited(b, k) && forall m :: Behind(b, m) ==> Behind(r, m)
    ensures Awaited(r, k)
  {
  }

  lemma ConsumeKeepsAwaited(c: Config, s: Sys, op: ConsumerOp)
    requires WorkersFollow(c, s.back) && Awaited(s.back, s.consumer)
    ensures Awaited(DoConsume(c, s, op).back, DoConsume(c, s, op).consumer)
  {
    if op.Await? {
      AwaitKeepsAwaited(c, s.back, s.consumer, op.timeout);
    } else if op.Enqueue? {
      EnqueueKeepsAwaited(s, op.ok);
    }
  }

  lemma StepKeepsAwaited(c: Config, s: Sys, st: Step)
    requires WorkersFollow(c, s.back) && Awaited(s.back, s.consumer)
    ensures Awaited(Apply(c, s, st).back, Apply(c, s, st).consumer)
  {
    match st
    case Consume(op) => ConsumeKeepsAwaited(c, s, op);
    case _ =>
      forall m | Behind(s.back, m) ensures Behind(Apply(c, s, st).back, m) {
        StaysBehind(c, s, st, m);
      }
      CarriesOver(s.back, Apply(c, s, st).back, s.consumer);
  }

  lemma StepKeepsSettled(c: Config, s: Sys, st: Step, m: Msg)
    requires Inv(c, s) && m in Apply(c, s, st).consumer.committed
    ensures Behind(Apply(c, s, st).back, m) || m in Apply(c, s, st).consumer.dead
    ensures Genuine(Apply(c, s, st).front, m)
  {
    assert Present(s, m) || m in s.consumer.committed;
    GenuineStays(c, s, st, m);
    if Behind(s.back, m) {
      StaysBehind(c, s, st, m);
    }
  }

  lemma StepKeepsInv(c: Config, s: Sys, st: Step)
    requires Inv(c, s)
    ensures Inv(c, Apply(c, s, st))
  {
    var r := Apply(c, s, st);
    StepKeepsCells(c, s, st);
    forall m | Present(r, m) ensures Genuine(r.front, m) {
      StepKeepsGenuine(c, s, st, m);
    }
    forall sid ensures Follows(r.back, sid, c.processor(sid)) {
      StepKeepsWorker(c, s, st, sid);
    }
    forall m | m in r.consumer.committed ensures Genuine(r.front, m) && (Behind(r.back, m) || m in r.consumer.dead) {
      StepKeepsSettled(c, s, st, m);
    }
    StepKeepsAwaited(c, s, st);
  }

  lemma {:induction false} EveryRun(c: Config, steps: seq<Step>)
    ensures Inv(c, Run(c, steps))
  {
    if steps == [] {
      forall sid ensures Follows(Run(c, steps).back, sid, c.processor(sid)) {
      }
    } else {
      var n := |steps| - 1;
      EveryRun(c, steps[..n]);
      StepKeepsInv(c, Run(c, steps[..n]), steps[n]);
    }
  }

  // ------------------------------------------------------------ order over both routes

  lemma ProcessedWasNumbered(c: Config, s: Sys, sid: Sid, i: nat)
    requires Inv(c, s) && i < |Worker(s.back, sid).processed|
    ensures var n := At(s.front.numbered, sid);
      i < |n| && Worker(s.back, sid).processed[i].env == n[i]
  {
    var xs := At(s.back.arrived, sid);
    ProcessedInOrder(xs, c.processor(sid));
    FollowerExtends(s.back, sid, c.processor(sid));
    var m := Msg(sid, Worker(s.back, sid).processed[i].env);
    assert m.env in EnvsOf(xs);
    assert Genuine(s.front, m);
  }

  /** Whatever mix of channel, Kafka, fallback and redelivery each envelope takes, the
      envelopes a worker has processed are exactly the first next - 1 envelopes numbered
      for its session: in order, each once. */
  lemma SessionsStayInOrder(c: Config, steps: seq<Step>, sid: Sid)
    ensures var s := Run(c, steps);
      var w, n := Worker(s.back, sid), At(s.front.numbered, sid);
      1 <= w.next <= |n| + 1 && Envelopes(w.processed) == n[..w.next - 1]
  {
    var s := Run(c, steps);
    EveryRun(c, steps);
    var w := Worker(s.back, sid);
    assert Follows(s.back, sid, c.processor(sid));
    forall i | 0 <= i < |w.processed|
      ensures i < |At(s.front.numbered, sid)| && w.processed[i].env == At(s.front.numbered, sid)[i]
    {
      ProcessedWasNumbered(c, s, sid, i);
    }
    if w.processed != [] {
      ProcessedWasNumbered(c, s, sid, |w.processed| - 1);
    }
  }

  ghost predicate Counted(n: seq<Envelope>) {
    forall i :: 0 <= i < |n| ==> n[i].seqNum == i + 1
  }

  lemma StepKeepsCounted(c: Config, s: Sys, st: Step, sid: Sid)
    requires CellsHold(s) && Counted(At(s.front.numbered, sid))
    ensures Counted(At(Apply(c, s, st).front.numbered, sid))
  {
    if st.Producer? && st.act.Number? {
      var k := s.front.counters;
      assert st.tid in k.callers ==> HoldsItsCell(k, k.callers[st.tid]);
      assert CellCounts(k, s.front.numbered, sid);
    }
  }

  /** Lookup, creation and Add of any number of producers interleave freely: the numbers given
      out for a session are 1, 2, 3, .. without a gap or a repeat, and its one counter stands at
      the last of them. */
  lemma {:induction false} NumberedAreNumbered(c: Config, steps: seq<Step>, sid: Sid)
    ensures var f := Run(c, steps).front;
      && Counted(At(f.numbered, sid))
      && CellsCount(f.counters, f.numbered) && CellCounts(f.counters, f.numbered, sid)
  {
    if steps == [] {
      assert CellCounts(Run(c, steps).front.counters, Run(c, steps).front.numbered, sid);
    } else {
      var n := |steps| - 1;
      NumberedAreNumbered(c, steps[..n], sid);
      StepKeepsCounted(c, Run(c, steps[..n]), steps[n], sid);
      StepKeepsCells(c, Run(c, steps[..n]), steps[n]);
      assert CellCounts(Run(c, steps).front.counters, Run(c, steps).front.numbered, sid);
    }
  }

  lemma AllProcessedMeansAllArrived(xs: seq<Item>, p: Processor, n: seq<Envelope>)
    requires n <= Envelopes(ReceiveAll(xs, p).processed)
    ensures forall e :: e in n ==> e in EnvsOf(xs)
  {
    var w := ReceiveAll(xs, p);
    ProcessedInOrder(xs, p);
    forall e | e in n ensures e in EnvsOf(xs) {
      var i :| 0 <= i < |n| && n[i] == e;
      assert Envelopes(w.processed)[i] == w.processed[i].env;
    }
  }

  lemma AllArrivedMeansAllPassed(xs: seq<Item>, p: Processor, n: seq<Envelope>)
    requires forall it, k :: p(it, k) == Success
    requires Counted(n) && forall e :: e in n ==> e in EnvsOf(xs)
    ensures ReceiveAll(xs, p).next > |n|
  {
    Frontier(xs, p);
    forall k | 1 <= k <= |n| ensures k in Seqs(xs) {
      assert n[k - 1] in n;
      var x :| x in xs && x.env == n[k - 1];
    }
  }

  /** The item a worker stands before arrived. */
  lemma CurrentArrived(b: Back, sid: Sid, p: Processor)
    requires Follows(b, sid, p) && sid in b.busy
    ensures b.busy[sid] in At(b.arrived, sid)
  {
    var q, it, xs := Worker(b, sid), b.busy[sid], At(b.arrived, sid);
    var (r, next) := Turn(q, it, p(it, q.attempts));
    var answer := Finished(it, p(it, q.attempts) == Success);
    DrainTurns(q, it, p);
    if next.Some? { DrainExtends(r, next.value, p); }
    assert r.finished[|q.finished|] == answer && answer in ReceiveAll(xs, p).finished;
    EveryRunKeepsInv(xs, p);
    TallyHas(ReceiveAll(xs, p).finished, answer);
    assert it in multiset(xs);
  }

  lemma CurrentIsNumbered(s: Sys, sid: Sid, p: Processor)
    requires AllGenuine(s) && Follows(s.back, sid, p) && sid in s.back.busy
    ensures Worker(s.back, sid).next <= |At(s.front.numbered, sid)|
  {
    CurrentArrived(s.back, sid, p);
    assert Genuine(s.front, Msg(sid, s.back.busy[sid].env));
  }

  /** With a processor that succeeds, a session is fully processed if and only if a copy of
      each of its numbered envelopes has reached the worker and it has no attempt before it. */
  lemma FullyProcessedIffAllArrived(c: Config, steps: seq<Step>, sid: Sid)
    requires forall it, n :: c.processor(sid)(it, n) == Success
    ensures var s := Run(c, steps);
      var n := At(s.front.numbered, sid);
      Envelopes(Worker(s.back, sid).processed) == n <==>
        sid !in s.back.busy && (forall e :: e in n ==> e in EnvsOf(At(s.back.arrived, sid)))
  {
    var s := Run(c, steps);
    EveryRun(c, steps);
    SessionsStayInOrder(c, steps, sid);
    NumberedAreNumbered(c, steps, sid);
    var n, xs := At(s.front.numbered, sid), At(s.back.arrived, sid);
    assert Follows(s.back, sid, c.processor(sid));
    if Envelopes(Worker(s.back, sid).processed) == n {
      FollowerExtends(s.back, sid, c.processor(sid));
      assert n <= Envelopes(ReceiveAll(xs, c.processor(sid)).processed);
      AllProcessedMeansAllArrived(xs, c.processor(sid), n);
      if sid in s.back.busy { CurrentIsNumbered(s, sid, c.processor(sid)); }
    }
    if sid !in s.back.busy && forall e :: e in n ==> e in EnvsOf(xs) {
      AllArrivedMeansAllPassed(xs, c.processor(sid), n);
      assert n[..|n|] == n;
    }
  }

  // ------------------------------------------------------------ lost numbers

  lemma LostOneStep(c: Config, s: Sys, st: Step, m: Msg)
    requires CellsHold(s) && Genuine(s.front, m) && !Present(s, m)
    ensures CellsHold(Apply(c, s, st)) && Genuine(Apply(c, s, st).front, m) && !Present(Apply(c, s, st), m)
  {
    StepKeepsCells(c, s, st);
    GenuineStays(c, s, st, m);
    if Present(Apply(c, s, st), m) {
      StepPresent(c, s, st, m);
    }
  }

  function Continued(c: Config, s: Sys, more: seq<Step>): Sys {
    if more == [] then s else Apply(c, Continued(c, s, more[..|more| - 1]), more[|more| - 1])
  }

  lemma {:induction false} RunContinued(c: Config, steps: seq<Step>, more: seq<Step>)
    ensures Run(c, steps + more) == Continued(c, Run(c, steps), more)
  {
    if more == [] {
      assert steps + more == steps;
    } else {
      RunContinued(c, steps, more[..|more| - 1]);
      assert (steps + more)[..|steps + more| - 1] == steps + more[..|more| - 1];
    }
  }

  lemma {:induction false} LostStaysLost(c: Config, s: Sys, more: seq<Step>, m: Msg)
    requires CellsHold(s) && Genuine(s.front, m) && !Present(s, m)
    ensures CellsHold(Continued(c, s, more))
    ensures Genuine(Continued(c, s, more).front, m) && !Present(Continued(c, s, more), m)
  {
    if more != [] {
      LostStaysLost(c, s, more[..|more| - 1], m);
      LostOneStep(c, Continued(c, s, more[..|more| - 1]), more[|more| - 1], m);
    }
  }

  /** Once the last copy of a numbered envelope is gone (a refused send, a failed sticky
      write, a dropped Transmit entry), its number blocks the session in every continuation:
      whatever is sent afterwards, nothing from that number on is ever processed. */
  lemma LostNumberBlocksForever(c: Config, steps: seq<Step>, more: seq<Step>, m: Msg)
    requires Genuine(Run(c, steps).front, m) && !Present(Run(c, steps), m)
    ensures Worker(Run(c, steps + more).back, m.sid).next <= m.env.seqNum
  {
    RunContinued(c, steps, more);
    EveryRun(c, steps);
    LostStaysLost(c, Run(c, steps), more, m);
    EveryRun(c, steps + more);
    var s := Run(c, steps + more);
    var xs := At(s.back.arrived, m.sid);
    forall x | x in xs ensures x.env.seqNum != m.env.seqNum {
      assert x.env in EnvsOf(xs);
      assert Present(s, Msg(m.sid, x.env));
    }
    GapBlocks(xs, c.processor(m.sid), m.env.seqNum);
    FollowerExtends(s.back, m.sid, c.processor(m.sid));
  }

  // ------------------------------------------------------------ idle cleanup

  /** cleanupIdleSessions removes a queue whose channel and buffer are empty; the next envelope
      of the session makes a fresh one. The session's counter is in the router and stays. */
  function Cleanup(s: Sys, sid: Sid): Sys {
    if At(s.back.queues, sid) != [] || Worker(s.back, sid).buffer != map[] || sid in s.back.busy then s
    else
      s.(back := s.back.(queues := s.back.queues - {sid}, arrived := s.back.arrived - {sid},
                         workers := s.back.workers - {sid}))
  }

  lemma {:induction false} WorkersFollowOn(c: Config, s: Sys, more: seq<Step>)
    requires WorkersFollow(c, s.back)
    ensures WorkersFollow(c, Continued(c, s, more).back)
  {
    if more != [] {
      var n := |more| - 1;
      WorkersFollowOn(c, s, more[..n]);
      forall sid ensures Follows(Continued(c, s, more).back, sid, c.processor(sid)) {
        StepKeepsWorker(c, Continued(c, s, more[..n]), more[n], sid);
      }
    }
  }

  lemma {:induction false} CellsHoldOn(c: Config, s: Sys, more: seq<Step>, sid: Sid)
    requires CellsHold(s) && Counted(At(s.front.numbered, sid))
    ensures CellsHold(Continued(c, s, more)) && Counted(At(Continued(c, s, more).front.numbered, sid))
  {
    if more != [] {
      var n := |more| - 1;
      CellsHoldOn(c, s, more[..n], sid);
      StepKeepsCells(c, Continued(c, s, more[..n]), more[n]);
      StepKeepsCounted(c, Continued(c, s, more[..n]), more[n], sid);
    }
  }

  lemma StepExtendsNumbered(c: Config, s: Sys, st: Step, sid: Sid)
    ensures At(s.front.numbered, sid) <= At(Apply(c, s, st).front.numbered, sid)
  {
  }

  lemma {:induction false} NumberedGrows(c: Config, s: Sys, more: seq<Step>, sid: Sid)
    ensures At(s.front.numbered, sid) <= At(Continued(c, s, more).front.numbered, sid)
  {
    if more != [] {
      var n := |more| - 1;
      NumberedGrows(c, s, more[..n], sid);
      StepExtendsNumbered(c, Continued(c, s, more[..n]), more[n], sid);
    }
  }

  lemma CleanupKeepsWorkers(c: Config, s: Sys, sid: Sid)
    requires WorkersFollow(c, s.back)
    ensures WorkersFollow(c, Cleanup(s, sid).back)
  {
    forall t ensures Follows(Cleanup(s, sid).back, t, c.processor(t)) {
      assert Follows(s.back, t, c.processor(t));
    }
  }

  /** After idle cleanup of a session the counter keeps running: later envelopes carry later
      numbers. With a succeeding processor the new queue attempts anything if and only if a
      copy of number 1 reaches it again. */
  lemma CleanedSessionServes(c: Config, steps: seq<Step>, sid: Sid, more: seq<Step>)
    requires forall it, n :: c.processor(sid)(it, n) == Success
    requires Cleanup(Run(c, steps), sid) != Run(c, steps)
    ensures var r := Continued(c, Cleanup(Run(c, steps), sid), more);
      && At(Run(c, steps).front.numbered, sid) <= At(r.front.numbered, sid) && Counted(At(r.front.numbered, sid))
      && (Worker(r.back, sid).processed != [] || sid in r.back.busy <==> 1 in Seqs(At(r.back.arrived, sid)))
  {
    var s := Run(c, steps);
    EveryRun(c, steps);
    NumberedAreNumbered(c, steps, sid);
    CellsHoldOn(c, Cleanup(s, sid), more, sid);
    NumberedGrows(c, Cleanup(s, sid), more, sid);
    CleanupKeepsWorkers(c, s, sid);
    WorkersFollowOn(c, Cleanup(s, sid), more);
    FollowerServes(Continued(c, Cleanup(s, sid), more).back, sid, c.processor(sid));
  }

  lemma FollowerServes(b: Back, sid: Sid, p: Processor)
    requires Follows(b, sid, p) && forall it, n :: p(it, n) == Success
    ensures Worker(b, sid).processed != [] || sid in b.busy <==> 1 in Seqs(At(b.arrived, sid))
  {
    var xs := At(b.arrived, sid);
    RecreatedQueueServes(xs, p);
    FollowerExtends(b, sid, p);
    if sid in b.busy && Worker(b, sid).processed == [] { CurrentArrived(b, sid, p); }
  }

  /** So if no copy of a session's first envelope is left on either route when its idle queue is
      cleaned up, nothing of that session is ever processed again, whatever is sent. */
  lemma CleanedSessionStalls(c: Config, steps: seq<Step>, m: Msg, more: seq<Step>)
    requires Genuine(Run(c, steps).front, m) && m.env.seqNum == 1
    requires !Present(Cleanup(Run(c, steps), m.sid), m)
    ensures Worker(Continued(c, Cleanup(Run(c, steps), m.sid), more).back, m.sid).processed == []
  {
    var s := Cleanup(Run(c, steps), m.sid);
    EveryRun(c, steps);
    LostStaysLost(c, s, more, m);
    CleanupKeepsWorkers(c, Run(c, steps), m.sid);
    WorkersFollowOn(c, s, more);
    NumberedAreNumbered(c, steps, m.sid);
    var r := Continued(c, s, more);
    AllStayGenuine(c, s, more);
    var xs := At(r.back.arrived, m.sid);
    forall x | x in xs ensures x.env.seqNum != 1 {
      assert x.env in EnvsOf(xs);
      assert Present(r, Msg(m.sid, x.env));
    }
    GapBlocks(xs, c.processor(m.sid), 1);
    FollowerExtends(r.back, m.sid, c.processor(m.sid));
    ProcessedInOrder(xs, c.processor(m.sid));
  }

  lemma {:induction false} AllStayGenuine(c: Config, s: Sys, more: seq<Step>)
    requires CellsHold(s) && AllGenuine(s)
    ensures CellsHold(Continued(c, s, more)) && AllGenuine(Continued(c, s, more))
  {
    if more != [] {
      var n := |more| - 1;
      var before := Continued(c, s, more[..n]);
      AllStayGenuine(c, s, more[..n]);
      StepKeepsCells(c, before, more[n]);
      forall m | Present(Apply(c, before, more[n]), m) ensures Genuine(Apply(c, before, more[n]).front, m) {
        StepKeepsGenuine(c, before, more[n], m);
      }
    }
  }

  // ------------------------------------------------------------ commits

  lemma BehindIsProcessed(s: Sys, m: Msg)
    requires Genuine(s.front, m) && Behind(s.back, m)
    requires Worker(s.back, m.sid).next <= |At(s.front.numbered, m.sid)| + 1
    requires Envelopes(Worker(s.back, m.sid).processed)
          == At(s.front.numbered, m.sid)[..Worker(s.back, m.sid).next - 1]
    ensures var w := Worker(s.back, m.sid);
      1 <= m.env.seqNum <= |w.processed| && w.processed[m.env.seqNum - 1].env == m.env
  {
    var w, n := Worker(s.back, m.sid), At(s.front.numbered, m.sid);
    assert Envelopes(w.processed)[m.env.seqNum - 1] == n[m.env.seqNum - 1];
  }

  /** Every message ever passed to CommitMessages is dead-lettered or was processed, at its
      place in the order of its session. */
  lemma CommittedIsSettled(c: Config, steps: seq<Step>, m: Msg)
    requires m in Run(c, steps).consumer.committed && m !in Run(c, steps).consumer.dead
    ensures var w := Worker(Run(c, steps).back, m.sid);
      1 <= m.env.seqNum <= |w.processed| && w.processed[m.env.seqNum - 1].env == m.env
  {
    EveryRun(c, steps);
    SessionsStayInOrder(c, steps, m.sid);
    BehindIsProcessed(Run(c, steps), m);
  }

  // ------------------------------------------------------------ result channels

  function Line(b: Back, sid: Sid): seq<Item> {
    At(b.arrived, sid) + At(b.queues, sid)
  }

  ghost predicate Minted(xs: seq<Item>, n: nat) {
    forall x :: x in xs && x.done.Some? ==> x.done.value < n
  }

  ghost predicate Apart(xs: seq<Item>, ys: seq<Item>, same: bool) {
    forall i, j :: 0 <= i < |xs| && 0 <= j < |ys| && !(same && i == j) && xs[i].done.Some? ==> xs[i].done != ys[j].done
  }

  /** Every result channel was made by this consumer and is carried by one queued item. */
  ghost predicate OwnChannels(b: Back) {
    && (forall sid :: Minted(Line(b, sid), b.nextDone))
    && (forall sid, t :: Apart(Line(b, sid), Line(b, t), sid == t))
  }

  ghost predicate FreshFor(x: Item, xs: seq<Item>) {
    x.done.Some? ==> forall y :: y in xs ==> y.done != x.done
  }

  lemma MintedIsFresh(xs: seq<Item>, x: Item, n: nat)
    requires Minted(xs, n) && x.done in {None, Some(n)}
    ensures FreshFor(x, xs)
  {
  }

  lemma ApartLeft(xs: seq<Item>, ys: seq<Item>, x: Item)
    requires Apart(xs, ys, false) && FreshFor(x, ys)
    ensures Apart(xs + [x], ys, false)
  {
  }

  lemma ApartRight(xs: seq<Item>, ys: seq<Item>, x: Item)
    requires Apart(xs, ys, false) && FreshFor(x, xs)
    ensures Apart(xs, ys + [x], false)
  {
  }

  lemma ApartBoth(xs: seq<Item>, x: Item)
    requires Apart(xs, xs, true) && FreshFor(x, xs)
    ensures Apart(xs + [x], xs + [x], true)
  {
  }

  ghost predicate Offered(b: Back, r: Back, sid: Sid, x: Item) {
    && x.done in {None, Some(b.nextDone)}
    && r.nextDone == (if x.done == None then b.nextDone else b.nextDone + 1)
    && (forall t :: Line(r, t) == if t == sid then Line(b, t) + [x] else Line(b, t))
  }

  lemma OfferIsOffered(b: Back, m: Msg, done: Option<nat>, r: Back)
    requires done == None || done == Some(b.nextDone)
    requires r == Offer(b, m, done).(nextDone := if done == None then b.nextDone else b.nextDone + 1)
    ensures Offered(b, r, m.sid, Item(m.env, done))
  {
  }

  lemma OfferedKeepsApart(b: Back, r: Back, sid: Sid, x: Item, t: Sid, u: Sid)
    requires OwnChannels(b) && Offered(b, r, sid, x)
    ensures Apart(Line(r, t), Line(r, u), t == u)
  {
    var xs, ys := Line(b, t), Line(b, u);
    assert Apart(xs, ys, t == u) && Minted(xs, b.nextDone) && Minted(ys, b.nextDone);
    MintedIsFresh(xs, x, b.nextDone);
    MintedIsFresh(ys, x, b.nextDone);
    if t == sid {
      if u == sid { ApartBoth(xs, x); } else { ApartLeft(xs, ys, x); }
    } else if u == sid {
      ApartRight(xs, ys, x);
    }
  }

  lemma OfferedKeepsMinted(b: Back, r: Back, sid: Sid, x: Item, t: Sid)
    requires OwnChannels(b) && Offered(b, r, sid, x)
    ensures Minted(Line(r, t), r.nextDone)
  {
    assert Minted(Line(b, t), b.nextDone);
  }

  lemma OfferedKeepsChannels(b: Back, r: Back, sid: Sid, x: Item)
    requires OwnChannels(b) && Offered(b, r, sid, x)
    ensures OwnChannels(r)
  {
    forall t ensures Minted(Line(r, t), r.nextDone) { OfferedKeepsMinted(b, r, sid, x, t); }
    forall t, u ensures Apart(Line(r, t), Line(r, u), t == u) { OfferedKeepsApart(b, r, sid, x, t, u); }
  }

  lemma SameLinesKeepChannels(b: Back, r: Back)
    requires OwnChannels(b) && r.nextDone == b.nextDone && forall t :: Line(r, t) == Line(b, t)
    ensures OwnChannels(r)
  {
    forall t, u ensures Apart(Line(r, t), Line(r, u), t == u) { assert Apart(Line(b, t), Line(b, u), t == u); }
  }

  lemma TakeKeepsLine(b: Back, sid: Sid, t: Sid)
    ensures Line(DoTake(b, sid), t) == Line(b, t)
  {
    var q := At(b.queues, sid);
    assert q != [] ==> q == [q[0]] + q[1..];
  }

  lemma TakeKeepsChannels(b: Back, sid: Sid)
    requires OwnChannels(b)
    ensures OwnChannels(DoTake(b, sid))
  {
    forall t ensures Line(DoTake(b, sid), t) == Line(b, t) { TakeKeepsLine(b, sid, t); }
    SameLinesKeepChannels(b, DoTake(b, sid));
  }

  lemma AttemptKeepsChannels(c: Config, b: Back, sid: Sid)
    requires OwnChannels(b)
    ensures OwnChannels(DoAttempt(c, b, sid))
  {
    SameLinesKeepChannels(b, DoAttempt(c, b, sid));
  }

  lemma DispatchKeepsChannels(c: Config, s: Sys, ok: bool)
    requires OwnChannels(s.back)
    ensures OwnChannels(DoDispatch(c, s, ok).back)
  {
    if s.front.channel != [] {
      var m := s.front.channel[0];
      OfferIsOffered(s.back, m, None, Offer(s.back, m, None));
      OfferedKeepsChannels(s.back, Offer(s.back, m, None), m.sid, Item(m.env, None));
    }
  }

  lemma EnqueueKeepsChannels(s: Sys, ok: bool)
    requires OwnChannels(s.back)
    ensures OwnChannels(DoEnqueue(s, ok).back)
  {
    var k := s.consumer;
    if k.phase.Enqueuing? && |k.phase.dones| < |k.batch| {
      var m, done := k.batch[|k.phase.dones|], Some(s.back.nextDone);
      var offered := Offer(s.back, m, done).(nextDone := s.back.nextDone + 1);
      OfferIsOffered(s.back, m, done, offered);
      OfferedKeepsChannels(s.back, offered, m.sid, Item(m.env, done));
    }
  }

  lemma OthersLeaveBack(c: Config, s: Sys, st: Step)
    requires !st.Take? && !st.Attempt? && !st.Dispatch? && !(st.Consume? && st.op.Enqueue?)
    ensures Apply(c, s, st).back == s.back
  {
  }

  lemma StepKeepsChannels(c: Config, s: Sys, st: Step)
    requires OwnChannels(s.back)
    ensures OwnChannels(Apply(c, s, st).back)
  {
    if st.Take? {
      TakeKeepsChannels(s.back, st.sid);
    } else if st.Attempt? {
      AttemptKeepsChannels(c, s.back, st.sid);
    } else if st.Dispatch? {
      DispatchKeepsChannels(c, s, st.ok);
    } else if st.Consume? && st.op.Enqueue? {
      EnqueueKeepsChannels(s, st.op.ok);
    } else {
      OthersLeaveBack(c, s, st);
    }
  }

  lemma {:induction false} EveryRunKeepsChannels(c: Config, steps: seq<Step>)
    ensures OwnChannels(Run(c, steps).back)
  {
    if steps != [] {
      EveryRunKeepsChannels(c, steps[..|steps| - 1]);
      StepKeepsChannels(c, Run(c, steps[..|steps| - 1]), steps[|steps| - 1]);
    }
  }

  /** The worker never blocks on a waiter: over the whole run the capacity-1 channel of the
      i-th arrival of a session gets at most one value, and none from another session. */
  lemma NoWorkerBlocksOnAnAnswer(c: Config, steps: seq<Step>, sid: Sid, i: nat, other: Sid)
    requires i < |At(Run(c, steps).back.arrived, sid)| && other != sid
    requires At(Run(c, steps).back.arrived, sid)[i].done.Some?
    ensures var b := Run(c, steps).back;
      var d := At(b.arrived, sid)[i].done.value;
      Sends(Worker(b, sid).finished, d) <= 1 && Sends(Worker(b, other).finished, d) == 0
  {
    var b := Run(c, steps).back;
    EveryRun(c, steps);
    EveryRunKeepsChannels(c, steps);
    var xs, ys := At(b.arrived, sid), At(b.arrived, other);
    assert Apart(Line(b, sid), Line(b, sid), true) && Apart(Line(b, sid), Line(b, other), false);
    forall j | 0 <= j < |xs| && j != i ensures xs[j].done != xs[i].done {
      assert xs[j] == Line(b, sid)[j] && xs[i] == Line(b, sid)[i];
    }
    AnsweredAtMostOnce(xs, c.processor(sid), i);
    FollowerExtends(b, sid, c.processor(sid));
    FewerSends(Worker(b, sid).finished, ReceiveAll(xs, c.processor(sid)).finished, xs[i].done.value);
    forall y | y in ys ensures y.done != xs[i].done {
      var j :| 0 <= j < |ys| && ys[j] == y;
      assert ys[j] == Line(b, other)[j] && xs[i] == Line(b, sid)[i];
    }
    forall f | f in Worker(b, other).finished ensures f.item in ys {
      AnsweredArrived(b, other, c.processor(other), f);
    }
    NoSends(Worker(b, other).finished, xs[i].done.value);
  }

  lemma AnsweredArrived(b: Back, sid: Sid, p: Processor, f: Finished)
    requires Follows(b, sid, p) && f in Worker(b, sid).finished
    ensures f.item in At(b.arrived, sid)
  {
    var xs := At(b.arrived, sid);
    FollowerExtends(b, sid, p);
    EveryRunKeepsInv(xs, p);
    TallyHas(ReceiveAll(xs, p).finished, f);
    assert f.item in multiset(xs);
  }

  lemma {:induction false} FewerSends(fs: seq<Finished>, gs: seq<Finished>, d: nat)
    requires fs <= gs
    ensures Sends(fs, d) <= Sends(gs, d)
  {
    if fs != gs {
      assert fs <= gs[..|gs| - 1];
      FewerSends(fs, gs[..|gs| - 1], d);
    }
  }

  lemma {:induction false} NoSends(fs: seq<Finished>, d: nat)
    requires forall f :: f in fs ==> f.item.done != Some(d)
    ensures Sends(fs, d) == 0
  {
    if fs != [] {
      assert fs[|fs| - 1] in fs;
      NoSends(fs[..|fs| - 1], d);
    }
  }
}
