/**
 Nothing that was handed over is stuck: from every state of every run there is a way on, by steps
 of the goroutines alone, that brings every copy to its worker, processes a session to its end and
 commits what is in the topic.
*/
module PipelineProgress {
  import opened Wrappers
  import opened SessionQueues
  import opened SessionOrder
  import opened Routing
  import opened Pipeline
  import opened PipelineRuns

  ghost predicate Succeeds(c: Config, sid: Sid) {
    forall it, n :: c.processor(sid)(it, n) == Success
  }

  /** The message left its producer, on one of the two routes. */
  ghost predicate HandedOver(s: Sys, m: Msg) {
    m in s.front.channel || m in s.front.log || InBack(s.back, m)
  }

  /** The same envelopes are numbered, and nothing that was handed over is gone. */
  ghost predicate KeepsAll(s: Sys, r: Sys) {
    && r.front.numbered == s.front.numbered && s.front.log <= r.front.log
    && forall m :: HandedOver(s, m) ==> HandedOver(r, m)
  }

  ghost predicate Arrived(b: Back, m: Msg) {
    m.env in EnvsOf(At(b.arrived, m.sid))
  }

  ghost predicate Queued(b: Back, m: Msg) {
    m.env in EnvsOf(At(b.queues, m.sid))
  }

  // ------------------------------------------------------------ the producers

  /** What a goroutine's steps leave: all it does is to add to the routes. */
  ghost predicate OnlySends(s: Sys, r: Sys, tid: nat) {
    && s.front.channel <= r.front.channel && s.front.log <= r.front.log && r.front.numbered == s.front.numbered
    && r.front.counters == s.front.counters
    && r.front.threads - {tid} == s.front.threads - {tid} && r.back == s.back && r.consumer == s.consumer
  }

  lemma Moves(c: Config, steps: seq<Step>, tid: nat, act: Action) returns (more: seq<Step>)
    requires tid in Run(c, steps).front.threads && !act.Start? && !act.Number?
    ensures var s := Run(c, steps);
      Run(c, more) == s.(front := Continue(c, s.front, tid, s.front.threads[tid], act))
  {
    more := RunOne(c, steps, Producer(tid, act));
  }

  lemma AfterTheWrite(c: Config, steps: seq<Step>, tid: nat) returns (more: seq<Step>)
    requires tid in Run(c, steps).front.threads
    requires Run(c, steps).front.threads[tid].Write? || Run(c, steps).front.threads[tid].MarkAfter?
          || Run(c, steps).front.threads[tid].OverflowWrite?
    ensures var s, r := Run(c, steps), Run(c, more);
      && tid !in r.front.threads && OnlySends(s, r, tid)
      && (s.front.threads[tid].MarkAfter? || s.front.threads[tid].m in r.front.log)
  {
    if Run(c, steps).front.threads[tid].MarkAfter? {
      more := Moves(c, steps, tid, Mark);
    } else {
      more := Moves(c, steps, tid, KafkaWrite(Written));
      if Run(c, steps).front.threads[tid].OverflowWrite? {
        more := Moves(c, more, tid, Mark);
      }
    }
  }

  lemma FromTheChannel(c: Config, steps: seq<Step>, tid: nat) returns (more: seq<Step>)
    requires tid in Run(c, steps).front.threads && Run(c, steps).front.threads[tid].TryChannel?
    ensures var s, r := Run(c, steps), Run(c, more);
      var m := s.front.threads[tid].m;
      && tid !in r.front.threads && OnlySends(s, r, tid)
      && (c.kafkaEnabled || |s.front.channel| < c.capacity ==> m in r.front.channel || m in r.front.log)
  {
    more := Moves(c, steps, tid, SendToChannel);
    if tid in Run(c, more).front.threads {
      more := AfterTheWrite(c, more, tid);
    }
  }

  /** Every goroutine under way can come to its end, and hands its message over if Kafka is on or the
      channel has room, unless it stands behind its write. */
  lemma EveryCallCanEnd(c: Config, steps: seq<Step>, tid: nat) returns (more: seq<Step>)
    requires tid in Run(c, steps).front.threads
    ensures var s, r := Run(c, steps), Run(c, more);
      var pc := s.front.threads[tid];
      && tid !in r.front.threads && OnlySends(s, r, tid)
      && (c.kafkaEnabled || (|s.front.channel| < c.capacity && (pc.Numbered? || pc.TryChannel?)) ==>
           pc.MarkAfter? || pc.m in r.front.channel || pc.m in r.front.log)
  {
    match Run(c, steps).front.threads[tid]
    case Numbered(m) =>
      more := Moves(c, steps, tid, Route(false));
      if Run(c, more).front.threads[tid].TryChannel? {
        more := FromTheChannel(c, more, tid);
      } else {
        more := AfterTheWrite(c, more, tid);
      }
    case MarkFirst(m) =>
      more := Moves(c, steps, tid, Mark);
      more := AfterTheWrite(c, more, tid);
    case TryChannel(_) => more := FromTheChannel(c, steps, tid);
    case _ => more := AfterTheWrite(c, steps, tid);
  }

  // ------------------------------------------------------------ the workers

  /** Only the worker of the session moved on. */
  ghost predicate OnlyWorks(s: Sys, r: Sys, sid: Sid) {
    && r.front == s.front && r.consumer == s.consumer && r.back.nextDone == s.back.nextDone
    && (forall t :: t != sid ==> At(r.back.queues, t) == At(s.back.queues, t) && At(r.back.arrived, t) == At(s.back.arrived, t))
  }

  lemma AttemptSucceeds(c: Config, b: Back, sid: Sid)
    requires Succeeds(c, sid) && sid in b.busy
    ensures var r := DoAttempt(c, b, sid);
      && r.queues == b.queues && r.arrived == b.arrived && r.nextDone == b.nextDone
      && (sid in r.busy ==> |Worker(r, sid).buffer| < |Worker(b, sid).buffer|)
  {
    var w := Advance(Worker(b, sid), b.busy[sid]);
    if w.next in w.buffer { PopShrinks(w); }
  }

  /** A worker that succeeds comes back to its queue. */
  lemma {:induction false} WorkerComesBack(c: Config, steps: seq<Step>, sid: Sid) returns (more: seq<Step>)
    requires Succeeds(c, sid)
    ensures var s, r := Run(c, steps), Run(c, more);
      && sid !in r.back.busy && r.front == s.front && r.consumer == s.consumer && r.back.nextDone == s.back.nextDone
      && r.back.queues == s.back.queues && r.back.arrived == s.back.arrived
    decreases |Worker(Run(c, steps).back, sid).buffer|
  {
    more := steps;
    var b := Run(c, steps).back;
    if sid in b.busy {
      AttemptSucceeds(c, b, sid);
      more := RunOne(c, steps, Attempt(sid));
      if sid in Run(c, more).back.busy { more := WorkerComesBack(c, more, sid); }
    }
  }

  lemma WorkerTakes(c: Config, steps: seq<Step>, sid: Sid) returns (more: seq<Step>)
    requires var b := Run(c, steps).back; sid !in b.busy && At(b.queues, sid) != []
    ensures var s, r := Run(c, steps), Run(c, more);
      && OnlyWorks(s, r, sid) && At(r.back.queues, sid) == At(s.back.queues, sid)[1..]
      && At(r.back.arrived, sid) == At(s.back.arrived, sid) + [At(s.back.queues, sid)[0]]
  {
    more := RunOne(c, steps, Take(sid));
  }

  /** And takes everything from it. */
  lemma {:induction false} QueueIsEmptied(c: Config, steps: seq<Step>, sid: Sid) returns (more: seq<Step>)
    requires Succeeds(c, sid)
    ensures var s, r := Run(c, steps), Run(c, more);
      && OnlyWorks(s, r, sid) && sid !in r.back.busy && At(r.back.queues, sid) == []
      && At(r.back.arrived, sid) == At(s.back.arrived, sid) + At(s.back.queues, sid)
    decreases |At(Run(c, steps).back.queues, sid)|
  {
    more := WorkerComesBack(c, steps, sid);
    var q := At(Run(c, more).back.queues, sid);
    if q != [] {
      more := WorkerTakes(c, more, sid);
      more := QueueIsEmptied(c, more, sid);
      assert q == [q[0]] + q[1..];
    }
  }

  // ------------------------------------------------------------ the two routes

  /** The head of the channel gets to its queue. */
  lemma HeadIsDispatched(c: Config, steps: seq<Step>) returns (more: seq<Step>)
    requires Run(c, steps).front.channel != []
    ensures var s, r := Run(c, steps), Run(c, more);
      && r.front.numbered == s.front.numbered && s.front.channel[1..] <= r.front.channel && s.front.log <= r.front.log
      && r.consumer == s.consumer && r.back.arrived == s.back.arrived
      && Queued(r.back, s.front.channel[0]) && (forall m :: Queued(s.back, m) ==> Queued(r.back, m))
  {
    more := steps;
    if 0 in Run(c, steps).front.threads {
      more := EveryCallCanEnd(c, steps, 0);
    }
    var s := Run(c, more);
    more := RunOne(c, more, Dispatch(true));
    var m := s.front.channel[0];
    assert Run(c, more).back == Offer(s.back, m, None);
    OfferQueues(s.back, m, None);
  }

  lemma OfferQueues(b: Back, m: Msg, done: Option<nat>)
    ensures Queued(Offer(b, m, done), m) && Offer(b, m, done).arrived == b.arrived
    ensures forall x :: Queued(b, x) ==> Queued(Offer(b, m, done), x)
  {
    var q := At(b.queues, m.sid) + [Item(m.env, done)];
    assert q[|q| - 1] in q;
  }

  lemma {:induction false} ChannelIsDispatched(c: Config, steps: seq<Step>, p: nat) returns (more: seq<Step>)
    requires p <= |Run(c, steps).front.channel|
    ensures var s, r := Run(c, steps), Run(c, more);
      && r.front.numbered == s.front.numbered && s.front.log <= r.front.log && s.front.channel[p..] <= r.front.channel
      && r.consumer == s.consumer
      && (forall i :: 0 <= i < p ==> Queued(r.back, s.front.channel[i]))
      && (forall m :: Queued(s.back, m) ==> Queued(r.back, m)) && r.back.arrived == s.back.arrived
  {
    more := steps;
    var ch := Run(c, steps).front.channel;
    if p == 0 {
      assert ch[p..] == ch;
    } else {
      more := ChannelIsDispatched(c, steps, p - 1);
      assert Run(c, more).front.channel[0] == ch[p - 1..][0] == ch[p - 1];
      var mid := Run(c, more).front.channel;
      more := HeadIsDispatched(c, more);
      assert ch[p..] == ch[p - 1..][1..] && ch[p - 1..][1..] <= mid[1..];
    }
  }

  /** A record of the topic is fetched again and gets to its queue, with a channel of its own. */
  lemma RecordIsOffered(c: Config, steps: seq<Step>, i: nat) returns (more: seq<Step>)
    requires i < |Run(c, steps).front.log|
    ensures var s, r := Run(c, steps), Run(c, more);
      var m := s.front.log[i];
      && r.front == s.front && r.back == Offer(s.back, m, Some(s.back.nextDone)).(nextDone := s.back.nextDone + 1)
      && r.consumer == Consumer([m], Enqueuing([s.back.nextDone]), 0, s.consumer.committed, s.consumer.dead)
  {
    more := RunOne(c, steps, Consume(RecoverPanic));
    more := RunOne(c, more, Consume(Fetch(i)));
    var m := Run(c, steps).front.log[i];
    assert Run(c, more).consumer.batch == [m];
    more := RunOne(c, more, Consume(Submit));
    assert Run(c, more).consumer.phase == Enqueuing([]);
    var b := Run(c, steps).back;
    more := RunOne(c, more, Consume(Enqueue(true)));
    assert [] + [b.nextDone] == [b.nextDone];
  }

  // ------------------------------------------------------------ a copy reaches its worker

  /** Nothing that arrived is forgotten. */
  ghost predicate Further(s: Sys, r: Sys) {
    KeepsAll(s, r) && forall m :: Arrived(s.back, m) ==> Arrived(r.back, m)
  }

  lemma QueueArrives(c: Config, steps: seq<Step>, m: Msg) returns (more: seq<Step>)
    requires Succeeds(c, m.sid) && Queued(Run(c, steps).back, m)
    ensures Further(Run(c, steps), Run(c, more)) && Arrived(Run(c, more).back, m)
  {
    more := QueueIsEmptied(c, steps, m.sid);
    WorkIsFurther(Run(c, steps), Run(c, more), m.sid);
  }

  lemma WorkIsFurther(s: Sys, r: Sys, sid: Sid)
    requires OnlyWorks(s, r, sid) && At(r.back.arrived, sid) == At(s.back.arrived, sid) + At(s.back.queues, sid)
    ensures Further(s, r) && forall m: Msg :: m.sid == sid && InBack(s.back, m) ==> Arrived(r.back, m)
  {
  }

  lemma DispatchIsFurther(c: Config, steps: seq<Step>, p: nat) returns (more: seq<Step>)
    requires p < |Run(c, steps).front.channel|
    ensures Further(Run(c, steps), Run(c, more)) && Queued(Run(c, more).back, Run(c, steps).front.channel[p])
  {
    more := ChannelIsDispatched(c, steps, p + 1);
    var s, r := Run(c, steps), Run(c, more);
    forall m | HandedOver(s, m) ensures HandedOver(r, m) {
      if m in s.front.channel {
        var i :| 0 <= i < |s.front.channel| && s.front.channel[i] == m;
        if i > p { assert s.front.channel[p + 1..][i - p - 1] == m; } else { assert Queued(r.back, m); }
      } else if m in s.front.log {
        var i :| 0 <= i < |s.front.log| && s.front.log[i] == m;
        assert r.front.log[i] == m;
      } else {
        assert Queued(s.back, m) || Arrived(s.back, m);
      }
    }
  }

  lemma OfferIsFurther(c: Config, steps: seq<Step>, i: nat) returns (more: seq<Step>)
    requires i < |Run(c, steps).front.log|
    ensures Further(Run(c, steps), Run(c, more)) && Queued(Run(c, more).back, Run(c, steps).front.log[i])
  {
    more := RecordIsOffered(c, steps, i);
    OfferQueues(Run(c, steps).back, Run(c, steps).front.log[i], Some(Run(c, steps).back.nextDone));
  }

  /** Every copy that was handed over can reach its worker, and no other is lost on the way. */
  lemma CanArrive(c: Config, steps: seq<Step>, m: Msg) returns (more: seq<Step>)
    requires Succeeds(c, m.sid) && HandedOver(Run(c, steps), m)
    ensures Further(Run(c, steps), Run(c, more)) && Arrived(Run(c, more).back, m)
  {
    more := steps;
    var s := Run(c, steps);
    if !Arrived(s.back, m) {
      if !Queued(s.back, m) {
        if m in s.front.channel {
          var p :| 0 <= p < |s.front.channel| && s.front.channel[p] == m;
          more := DispatchIsFurther(c, steps, p);
        } else {
          var i :| 0 <= i < |s.front.log| && s.front.log[i] == m;
          more := OfferIsFurther(c, steps, i);
        }
      }
      more := QueueArrives(c, more, m);
    }
  }

  // ------------------------------------------------------------ a session comes to its end

  ghost predicate AllHandedOver(s: Sys, sid: Sid) {
    forall e :: e in At(s.front.numbered, sid) ==> HandedOver(s, Msg(sid, e))
  }

  ghost predicate ArrivedUpTo(s: Sys, n: seq<Envelope>, sid: Sid, k: nat) {
    forall i :: 0 <= i < k && i < |n| ==> Arrived(s.back, Msg(sid, n[i]))
  }

  lemma FurtherOn(s: Sys, r: Sys, t: Sys, n: seq<Envelope>, sid: Sid, k: nat)
    requires Further(s, r) && Further(r, t) && ArrivedUpTo(r, n, sid, k)
    requires k < |n| ==> Arrived(t.back, Msg(sid, n[k]))
    ensures Further(s, t) && ArrivedUpTo(t, n, sid, k + 1)
  {
  }

  lemma NextCanArrive(c: Config, steps: seq<Step>, s: Sys, n: seq<Envelope>, sid: Sid, k: nat) returns (more: seq<Step>)
    requires Succeeds(c, sid) && Further(s, Run(c, steps)) && ArrivedUpTo(Run(c, steps), n, sid, k)
    requires k < |n| && HandedOver(s, Msg(sid, n[k]))
    ensures Further(s, Run(c, more)) && ArrivedUpTo(Run(c, more), n, sid, k + 1)
  {
    more := CanArrive(c, steps, Msg(sid, n[k]));
    FurtherOn(s, Run(c, steps), Run(c, more), n, sid, k);
  }

  lemma {:induction false} AllCanArrive(c: Config, steps: seq<Step>, sid: Sid, k: nat) returns (more: seq<Step>)
    requires Succeeds(c, sid) && AllHandedOver(Run(c, steps), sid) && k <= |At(Run(c, steps).front.numbered, sid)|
    ensures Further(Run(c, steps), Run(c, more))
    ensures ArrivedUpTo(Run(c, more), At(Run(c, steps).front.numbered, sid), sid, k)
  {
    more := steps;
    if k > 0 {
      var n := At(Run(c, steps).front.numbered, sid);
      more := AllCanArrive(c, steps, sid, k - 1);
      assert n[k - 1] in n;
      more := NextCanArrive(c, more, Run(c, steps), n, sid, k - 1);
    }
  }

  /** If every envelope numbered for a session was handed over and the processor succeeds, the
      session can be processed to its last envelope, from every state of every run. */
  lemma CanBeProcessed(c: Config, steps: seq<Step>, sid: Sid) returns (more: seq<Step>)
    requires Succeeds(c, sid) && AllHandedOver(Run(c, steps), sid)
    ensures Further(Run(c, steps), Run(c, more))
    ensures sid !in Run(c, more).back.busy && At(Run(c, more).back.queues, sid) == []
    ensures Envelopes(Worker(Run(c, more).back, sid).processed) == At(Run(c, steps).front.numbered, sid)
  {
    var n := At(Run(c, steps).front.numbered, sid);
    more := AllCanArrive(c, steps, sid, |n|);
    var mid := Run(c, more);
    more := QueueIsEmptied(c, more, sid);
    WorkIsFurther(mid, Run(c, more), sid);
    forall e | e in n ensures e in EnvsOf(At(Run(c, more).back.arrived, sid)) {
      var i :| 0 <= i < |n| && n[i] == e;
      assert Arrived(Run(c, more).back, Msg(sid, n[i]));
    }
    FullyProcessedIffAllArrived(c, more, sid);
  }

  // ------------------------------------------------------------ a record is committed

  lemma DuplicateIsAnswered(c: Config, steps: seq<Step>, sid: Sid, it: Item) returns (more: seq<Step>)
    requires var b := Run(c, steps).back;
      sid !in b.busy && At(b.queues, sid) == [it] && it.env.seqNum < Worker(b, sid).next
    ensures var s, r := Run(c, steps), Run(c, more);
      && r.front == s.front && r.consumer == s.consumer && Finished(it, true) in Worker(r.back, sid).finished
      && (forall m :: InBack(s.back, m) ==> InBack(r.back, m)) && (forall m :: Arrived(s.back, m) ==> Arrived(r.back, m))
  {
    more := RunOne(c, steps, Take(sid));
    var w := Worker(Run(c, steps).back, sid);
    assert Worker(Run(c, more).back, sid) == Discard(w, it);
    assert Discard(w, it).finished[|w.finished|] == Finished(it, true);
  }

  /** The worker answers a record it has passed, and the consumer commits it. */
  lemma PassedIsCommitted(c: Config, steps: seq<Step>, i: nat) returns (more: seq<Step>)
    requires i < |Run(c, steps).front.log|
    requires var s, m := Run(c, steps), Run(c, steps).front.log[i];
      Behind(s.back, m) && m.sid !in s.back.busy && At(s.back.queues, m.sid) == []
    ensures var s, r := Run(c, steps), Run(c, more);
      && r.consumer.committed == s.consumer.committed + [s.front.log[i]] && r.consumer.dead == s.consumer.dead
      && r.front == s.front && r.consumer.batch == [] && r.consumer.phase == Fetching && Further(s, r)
  {
    var s, m := Run(c, steps), Run(c, steps).front.log[i];
    var it := Item(m.env, Some(s.back.nextDone));
    more := RecordIsOffered(c, steps, i);
    OfferQueues(s.back, m, it.done);
    assert At(Run(c, more).back.queues, m.sid) == [it];
    more := DuplicateIsAnswered(c, more, m.sid, it);
    more := AnswerIsCommitted(c, more, m, s.back.nextDone);
  }

  lemma AnswerIsCommitted(c: Config, steps: seq<Step>, m: Msg, done: nat) returns (more: seq<Step>)
    requires var s := Run(c, steps);
      && s.consumer == Consumer([m], Enqueuing([done]), 0, s.consumer.committed, s.consumer.dead)
      && Finished(Item(m.env, Some(done)), true) in Worker(s.back, m.sid).finished
    ensures var s, r := Run(c, steps), Run(c, more);
      r == s.(consumer := Consumer([], Fetching, 0, s.consumer.committed + [m], s.consumer.dead))
  {
    more := RunOne(c, steps, Consume(Enqueue(true)));
    more := RunOne(c, more, Consume(Await(false)));
    assert Run(c, more).consumer.phase == Waiting([done], 1);
    more := RunOne(c, more, Consume(Await(false)));
    more := RunOne(c, more, Consume(Settle(true)));
  }

  /** So in a session whose envelopes were all handed over, every record of the topic can be committed
      without a dead letter. */
  lemma CanBeCommitted(c: Config, steps: seq<Step>, m: Msg) returns (more: seq<Step>)
    requires Succeeds(c, m.sid) && AllHandedOver(Run(c, steps), m.sid) && m in Run(c, steps).front.log
    ensures Further(Run(c, steps), Run(c, more)) && m in Run(c, more).consumer.committed
  {
    more := CanBeProcessed(c, steps, m.sid);
    var r := Run(c, more);
    assert HandedOver(Run(c, steps), m) && HandedOver(r, m);
    EveryRun(c, steps);
    EveryRun(c, more);
    assert Present(Run(c, steps), m) && Genuine(r.front, m);
    var i :| 0 <= i < |Run(c, steps).front.log| && Run(c, steps).front.log[i] == m;
    assert r.front.log[i] == m;
    assert Follows(r.back, m.sid, c.processor(m.sid)) && |Envelopes(Worker(r.back, m.sid).processed)| + 1 == Worker(r.back, m.sid).next;
    more := PassedIsCommitted(c, more, i);
  }

  // ------------------------------------------------------------ a batch is given up

  /** A consumer that waits for the answer to a record moves on exactly if the worker's nil is there
      and the context has not ended, and fails exactly if it ended or the answer is an error. */
  lemma WaitEndsIff(c: Config, steps: seq<Step>, timeout: bool) returns (more: seq<Step>)
    requires var k := Run(c, steps).consumer; k.phase.Waiting? && k.phase.acked < |k.batch|
    ensures |Run(c, steps).consumer.phase.dones| == |Run(c, steps).consumer.batch|
    ensures var s, r := Run(c, steps), Run(c, more);
      var dones, j := s.consumer.phase.dones, s.consumer.phase.acked;
      var m, fs := s.consumer.batch[j], Worker(s.back, s.consumer.batch[j].sid).finished;
      && r == s.(consumer := s.consumer.(phase := r.consumer.phase))
      && (r.consumer.phase == Waiting(dones, j + 1) <==> !timeout && Finished(Item(m.env, Some(dones[j])), true) in fs)
      && (r.consumer.phase == Failed <==>
            timeout || (Finished(Item(m.env, Some(dones[j])), true) !in fs && Finished(Item(m.env, Some(dones[j])), false) in fs))
      && (r.consumer.phase in {Waiting(dones, j), Waiting(dones, j + 1), Failed})
  {
    EveryRun(c, steps);
    more := RunOne(c, steps, Consume(Await(timeout)));
  }

  /** One round in which the hand-over of a record fails. */
  lemma FailsOnce(c: Config, steps: seq<Step>, i: nat, dlqOk: bool) returns (more: seq<Step>)
    requires var s := Run(c, steps); i < |s.front.log| && s.consumer.batch == [] && s.consumer.phase == Fetching
    ensures var s, r := Run(c, steps), Run(c, more);
      && r.front == s.front && r.back == s.back && r.consumer.batch == [] && r.consumer.phase == Fetching
      && (if c.dlqEnabled && s.consumer.attempts + 1 >= c.maxAttempts && dlqOk then
            r.consumer.dead == s.consumer.dead + [s.front.log[i]]
            && r.consumer.committed == s.consumer.committed + [s.front.log[i]] && r.consumer.attempts == 0
          else r.consumer == s.consumer.(attempts := s.consumer.attempts + 1))
  {
    more := RunOne(c, steps, Consume(Fetch(i)));
    assert Run(c, more).consumer.batch == [Run(c, steps).front.log[i]];
    more := RunOne(c, more, Consume(Submit));
    assert Run(c, more).consumer.phase == Enqueuing([]);
    more := RunOne(c, more, Consume(Enqueue(false)));
    assert Run(c, more).consumer.phase == Failed;
    more := RunOne(c, more, Consume(Settle(dlqOk)));
  }

  lemma {:induction false} FailsAgain(c: Config, steps: seq<Step>, i: nat, k: nat) returns (more: seq<Step>)
    requires var s := Run(c, steps); i < |s.front.log| && s.consumer.batch == [] && s.consumer.phase == Fetching
    ensures var s, r := Run(c, steps), Run(c, more);
      && r.front == s.front && r.back == s.back && r.consumer == s.consumer.(attempts := s.consumer.attempts + k)
  {
    more := steps;
    if k > 0 {
      more := FailsAgain(c, steps, i, k - 1);
      more := FailsOnce(c, more, i, false);
    }
  }

  /** A record that cannot be handed over does not stand in the way: with a dead-letter topic it can be
      dead-lettered and committed, and nothing else changes. */
  lemma CanBeDeadLettered(c: Config, steps: seq<Step>, i: nat) returns (more: seq<Step>)
    requires c.dlqEnabled && i < |Run(c, steps).front.log|
    ensures var s, r := Run(c, steps), Run(c, more);
      && r.front == s.front && r.back == s.back
      && r.consumer.dead == s.consumer.dead + [s.front.log[i]]
      && r.consumer.committed == s.consumer.committed + [s.front.log[i]]
  {
    more := RunOne(c, steps, Consume(RecoverPanic));
    more := FailsAgain(c, more, i, c.maxAttempts);
    more := FailsOnce(c, more, i, true);
  }
}
