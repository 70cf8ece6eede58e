/**
 The consumer of the pipeline and the consumer loop on its own are one: whatever the rest of the
 pipeline does, its consumer does what the loop does with some sequence of answers.
*/
module ConsumerRefinement {
  import opened Routing
  import opened Pipeline
  import opened PipelineRuns
  import K = KafkaConsumption

  ghost predicate SameSettings(c: Config, k: K.Config) {
    (k.dlqTopic != "" <==> c.dlqEnabled) && K.MaxProcessAttempts(k) == c.maxAttempts
  }

  /** `rec` says at which partition and offset a message of the topic is. */
  function Records(ms: seq<Msg>, rec: Msg -> K.Record): seq<K.Record> {
    seq(|ms|, i requires 0 <= i < |ms| => rec(ms[i]))
  }

  function Concat(batches: seq<seq<K.Record>>): seq<K.Record> {
    if batches == [] then [] else Concat(batches[..|batches| - 1]) + batches[|batches| - 1]
  }

  function DeadOf(rounds: seq<K.Round>): seq<K.Record> {
    if rounds == [] then []
    else
      var last := rounds[|rounds| - 1];
      DeadOf(rounds[..|rounds| - 1]) + (if last.DeadLettered? then last.batch else [])
  }

  /** The loop has counted the same failures, committed the same records and dead-lettered the same. */
  ghost predicate Matches(s: Consumer, l: K.Loop, rec: Msg -> K.Record) {
    && l.processAttempts == s.attempts
    && Concat(l.commits) == Records(s.committed, rec) && DeadOf(l.rounds) == Records(s.dead, rec)
  }

  ghost predicate Batched(s: Consumer) {
    |s.batch| <= FETCH_LIMIT && (s.phase != Fetching ==> s.batch != [])
  }

  /** What the answers of a round were, read off the state in which the consumer ends it. */
  function RoundInput(s: Consumer, rec: Msg -> K.Record, op: ConsumerOp): K.Input {
    var fetched := Records(s.batch, rec);
    match op
    case Settle(dlqOk) => K.Input(fetched, K.Nowhere, s.phase == Accepted, dlqOk, true)
    case _ => K.Input(fetched, if s.batch == [] then K.InFetch else K.InHandOver, false, false, false)
  }

  predicate EndsRound(s: Consumer, op: ConsumerOp) {
    op.RecoverPanic? || (op.Settle? && (s.phase == Accepted || s.phase == Failed))
  }

  lemma RecordsSplit(a: seq<Msg>, b: seq<Msg>, rec: Msg -> K.Record)
    ensures Records(a + b, rec) == Records(a, rec) + Records(b, rec)
  {
  }

  lemma Settles(c: Config, k: K.Config, s: Consumer, l: K.Loop, rec: Msg -> K.Record, dlqOk: bool)
    requires SameSettings(c, k) && Batched(s) && Matches(s, l, rec) && EndsRound(s, Settle(dlqOk))
    ensures Matches(DoSettle(c, s, dlqOk), K.Turn(k, l, RoundInput(s, rec, Settle(dlqOk))), rec)
  {
    var i := RoundInput(s, rec, Settle(dlqOk));
    var t := K.Turn(k, l, i);
    K.TurnDecides(k, l, i, K.Refused(i) && k.dlqTopic != "" && l.processAttempts + 1 >= K.MaxProcessAttempts(k));
    RecordsSplit(s.committed, s.batch, rec);
    RecordsSplit(s.dead, s.batch, rec);
    assert K.Fetched(i.fetches) == Records(s.batch, rec);
    assert t.rounds[..|l.rounds|] == l.rounds;
    assert t.commits != l.commits ==> t.commits[..|l.commits|] == l.commits;
  }

  lemma Recovers(c: Config, k: K.Config, s: Consumer, l: K.Loop, rec: Msg -> K.Record)
    requires Batched(s) && Matches(s, l, rec)
    ensures Matches(s.(batch := [], phase := Fetching, attempts := 0), K.Turn(k, l, RoundInput(s, rec, RecoverPanic)), rec)
  {
    var t := K.Turn(k, l, RoundInput(s, rec, RecoverPanic));
    assert t.rounds[..|l.rounds|] == l.rounds;
  }

  lemma OthersLeaveConsumer(c: Config, s: Sys, st: Step)
    requires !st.Consume? || !EndsRound(s.consumer, st.op)
    ensures var k, r := s.consumer, Apply(c, s, st).consumer;
      (r.attempts, r.committed, r.dead) == (k.attempts, k.committed, k.dead)
  {
  }

  lemma StaysBatched(c: Config, s: Sys, st: Step)
    requires Batched(s.consumer)
    ensures Batched(Apply(c, s, st).consumer)
  {
  }

  lemma StepFollows(c: Config, k: K.Config, rec: Msg -> K.Record, s: Sys, st: Step, inputs: seq<K.Input>) returns (more: seq<K.Input>)
    requires SameSettings(c, k) && Batched(s.consumer) && Matches(s.consumer, K.Consume(k, inputs), rec)
    ensures Matches(Apply(c, s, st).consumer, K.Consume(k, more), rec)
  {
    if st.Consume? && EndsRound(s.consumer, st.op) {
      more := inputs + [RoundInput(s.consumer, rec, st.op)];
      assert more[..|inputs|] == inputs;
      if st.op.Settle? {
        Settles(c, k, s.consumer, K.Consume(k, inputs), rec, st.op.dlqOk);
      } else {
        Recovers(c, k, s.consumer, K.Consume(k, inputs), rec);
      }
    } else {
      more := inputs;
      OthersLeaveConsumer(c, s, st);
    }
  }

  /** In every run of the pipeline: the failures counted, the records committed and those
      dead-lettered are those of a run of the consumer loop. */
  lemma {:induction false} ConsumerFollowsTheLoop(c: Config, k: K.Config, rec: Msg -> K.Record, steps: seq<Step>)
    returns (inputs: seq<K.Input>)
    requires SameSettings(c, k)
    ensures Matches(Run(c, steps).consumer, K.Consume(k, inputs), rec) && Batched(Run(c, steps).consumer)
  {
    inputs := [];
    if steps != [] {
      var n := |steps| - 1;
      inputs := ConsumerFollowsTheLoop(c, k, rec, steps[..n]);
      inputs := StepFollows(c, k, rec, Run(c, steps[..n]), steps[n], inputs);
      StaysBatched(c, Run(c, steps[..n]), steps[n]);
    }
  }
}
