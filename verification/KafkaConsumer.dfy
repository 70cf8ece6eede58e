/**
 The Kafka consumer loop: consumeKafkaMessages in internal/service/chat/hybrid_router.go.

 A round is one turn of the inner loop: fetch a batch, hand it to the session workers, then
 commit, retry or dead-letter. The environment of a round is an `Input`; nothing is assumed
 about what FetchMessage returns after a failed round unless a lemma says so.
*/
module KafkaConsumption {
  /** One group reader fetches from every partition of the topic. */
  datatype Record = Record(partition: nat, offset: nat, value: string)

  const BATCH_SIZE := 200
  const MAX_RETRY_COUNT := 10

  datatype Config = Config(maxProcessRetries: int, dlqTopic: string)

  function MaxProcessAttempts(c: Config): nat {
    if c.maxProcessRetries <= 0 then 5 else c.maxProcessRetries
  }

  /** Where the round panics, if it gets there. */
  datatype Panic = Nowhere | InFetch | InHandOver | InDeadLetter | InCommit

  /** The successful reads FetchMessage offers before it reports an error or panics, and what the
      later calls of the round answer. `commitOk` of a commit that panics is its effect. */
  datatype Input = Input(fetches: seq<Record>, panic: Panic, accepted: bool, dlqOk: bool, commitOk: bool)

  datatype Round =
    | Idle
    | Panicked(batch: seq<Record>)
    | Accepted(batch: seq<Record>, commitOk: bool)
    | Retried(batch: seq<Record>, attempts: nat)
    | DlqFailed(batch: seq<Record>, attempts: nat)
    | DeadLettered(batch: seq<Record>, attempts: nat, commitOk: bool)

  datatype Loop = Loop(
    retryCount: nat, processAttempts: nat, rounds: seq<Round>,
    commits: seq<seq<Record>>)       // every CommitMessages call, successful or not

  function NewLoop(): Loop {
    Loop(0, 0, [], [])
  }

  function Fetched(fetches: seq<Record>): (batch: seq<Record>)
    ensures batch <= fetches && (|batch| == BATCH_SIZE || (batch == fetches && |batch| < BATCH_SIZE))
  {
    if |fetches| < BATCH_SIZE then fetches else fetches[..BATCH_SIZE]
  }

  function RetryCountAfter(retryCount: nat, fetches: seq<Record>): nat {
    var n := if fetches == [] then retryCount else 0;
    if |fetches| >= BATCH_SIZE then 0
    else if n + 1 >= MAX_RETRY_COUNT then 0 else n + 1
  }

  function Log(l: Loop, r: Round, attempts: nat): Loop {
    l.(processAttempts := attempts, rounds := l.rounds + [r])
  }

  /** The outer loop starts the inner one anew, with both counters at 0. */
  function Recovered(l: Loop, batch: seq<Record>): Loop {
    Log(l, Panicked(batch), 0).(retryCount := 0)
  }

  function Turn(c: Config, l: Loop, i: Input): Loop {
    var batch := Fetched(i.fetches);
    var f := l.(retryCount := RetryCountAfter(l.retryCount, i.fetches));
    var settled := l.(retryCount := if i.panic == InCommit then 0 else f.retryCount, commits := f.commits + [batch]);
    if i.panic == InFetch && |batch| < BATCH_SIZE then Recovered(l, batch)
    else if batch == [] then Log(f, Idle, f.processAttempts)
    else if i.panic == InHandOver then Recovered(l, batch)
    else if i.accepted then Log(settled, Accepted(batch, i.commitOk), 0)
    else
      var attempts := f.processAttempts + 1;
      if c.dlqTopic == "" || attempts < MaxProcessAttempts(c) then Log(f, Retried(batch, attempts), attempts)
      else if i.panic == InDeadLetter then Recovered(l, batch)
      else if !i.dlqOk then Log(f, DlqFailed(batch, attempts), attempts)
      else Log(settled, DeadLettered(batch, attempts, i.commitOk), 0)
  }

  function Consume(c: Config, inputs: seq<Input>): Loop {
    if inputs == [] then NewLoop() else Turn(c, Consume(c, inputs[..|inputs| - 1]), inputs[|inputs| - 1])
  }

  // ---------------------------------------------------------------- the imperative loop

  class KafkaConsumer {
    const config: Config
    var retryCount: nat
    var processAttempts: nat
    ghost var rounds: seq<Round>
    ghost var commits: seq<seq<Record>>

    ghost function State(): Loop
      reads this
    {
      Loop(retryCount, processAttempts, rounds, commits)
    }

    constructor (config: Config)
      ensures State() == NewLoop() && this.config == config
    {
      this.config := config;
      retryCount, processAttempts, rounds, commits := 0, 0, [], [];
    }

    /** The fetch loop ends only with a full batch or with a read error: a shorter batch is
        never handed over while FetchMessage merely waits for traffic. */
    method FetchBatch(fetches: seq<Record>) returns (batch: seq<Record>, fetchErr: bool)
      modifies this`retryCount
      ensures batch == Fetched(fetches) && fetchErr == (|batch| < BATCH_SIZE)
      ensures retryCount == RetryCountAfter(old(retryCount), fetches)
    {
      batch, fetchErr := [], false;
      while |batch| < BATCH_SIZE
        invariant |batch| <= BATCH_SIZE && |batch| <= |fetches| && batch == fetches[..|batch|]
        invariant retryCount == if batch == [] then old(retryCount) else 0
      {
        if |batch| >= |fetches| {
          fetchErr := true;
          retryCount := retryCount + 1;
          if retryCount >= MAX_RETRY_COUNT {
            retryCount := 0;
          }
          break;
        }
        retryCount := 0;
        batch := batch + [fetches[|batch|]];
      }
    }

    method Commit(batch: seq<Record>)
      modifies this`commits
      ensures commits == old(commits) + [batch]
    {
      commits := commits + [batch];
    }

    /** The deferred recover: the inner function starts again with fresh counters. */
    method Restart()
      modifies this`retryCount, this`processAttempts
      ensures retryCount == 0 && processAttempts == 0
    {
      retryCount, processAttempts := 0, 0;
    }

    method RunRound(i: Input)
      modifies this
      ensures State() == Turn(config, old(State()), i)
    {
      var batch, fetchErr := FetchBatch(i.fetches);
      if i.panic == InFetch && fetchErr {
        rounds := rounds + [Panicked(batch)];
        Restart();
        return;
      }
      if |batch| == 0 {
        rounds := rounds + [Idle];
        return;
      }
      if i.panic == InHandOver {
        rounds := rounds + [Panicked(batch)];
        Restart();
        return;
      }
      if !i.accepted {
        processAttempts := processAttempts + 1;
        if config.dlqTopic != "" && processAttempts >= MaxProcessAttempts(config) {
          if i.panic == InDeadLetter {
            rounds := rounds + [Panicked(batch)];
            Restart();
            return;
          }
          if !i.dlqOk {
            rounds := rounds + [DlqFailed(batch, processAttempts)];
            return;
          }
          Commit(batch);
          rounds := rounds + [DeadLettered(batch, processAttempts, i.commitOk)];
          if i.panic == InCommit { Restart(); } else { processAttempts := 0; }
          return;
        }
        rounds := rounds + [Retried(batch, processAttempts)];
        return;
      }
      processAttempts := 0;
      Commit(batch);
      rounds := rounds + [Accepted(batch, i.commitOk)];
      if i.panic == InCommit { Restart(); }
    }

    method Run(inputs: seq<Input>)
      requires State() == NewLoop()
      modifies this
      ensures State() == Consume(config, inputs)
    {
      var n := 0;
      while n < |inputs|
        invariant 0 <= n <= |inputs|
        invariant State() == Consume(config, inputs[..n])
      {
        RunRound(inputs[n]);
        assert inputs[..n + 1][..n] == inputs[..n];
        n := n + 1;
      }
      assert inputs[..n] == inputs;
    }
  }

  // ---------------------------------------------------------------- what was committed

  predicate Settles(r: Round) {
    r.Accepted? || r.DeadLettered?
  }

  function Batch(r: Round): seq<Record> {
    if r.Idle? then [] else r.batch
  }

  function SettledBatches(rounds: seq<Round>): seq<seq<Record>> {
    if rounds == [] then []
    else
      var last := rounds[|rounds| - 1];
      SettledBatches(rounds[..|rounds| - 1]) + (if Settles(last) then [last.batch] else [])
  }

  /** Failed rounds in a row up to the end; an idle round does not interrupt the row. */
  function FailStreak(rounds: seq<Round>): nat {
    if rounds == [] then 0
    else
      var last, front := rounds[|rounds| - 1], rounds[..|rounds| - 1];
      match last
      case Idle => FailStreak(front)
      case Retried(_, _) => FailStreak(front) + 1
      case DlqFailed(_, _) => FailStreak(front) + 1
      case _ => 0
  }

  /** What a round's attempt number means, given the rounds before it. */
  ghost predicate Counts(c: Config, before: seq<Round>, r: Round) {
    match r
    case DeadLettered(_, n, _) => n == FailStreak(before) + 1 && n >= MaxProcessAttempts(c) && c.dlqTopic != ""
    case DlqFailed(_, n) => n == FailStreak(before) + 1 && n >= MaxProcessAttempts(c) && c.dlqTopic != ""
    case Retried(_, n) => n == FailStreak(before) + 1 && (n < MaxProcessAttempts(c) || c.dlqTopic == "")
    case _ => true
  }

  ghost predicate CountsFailures(c: Config, rounds: seq<Round>) {
    forall i :: 0 <= i < |rounds| ==> Counts(c, rounds[..i], rounds[i])
  }

  lemma CountsSnoc(c: Config, rounds: seq<Round>, r: Round)
    requires CountsFailures(c, rounds) && Counts(c, rounds, r)
    ensures CountsFailures(c, rounds + [r])
  {
    var all := rounds + [r];
    forall i | 0 <= i < |all| ensures Counts(c, all[..i], all[i]) {
      assert all[..i] == rounds[..i];
      assert rounds[..|rounds|] == rounds;
    }
  }

  lemma SnocFacts(rounds: seq<Round>, r: Round)
    ensures SettledBatches(rounds + [r]) == SettledBatches(rounds) + (if Settles(r) then [r.batch] else [])
    ensures FailStreak(rounds + [r]) ==
      match r case Idle => FailStreak(rounds) case Retried(_, _) => FailStreak(rounds) + 1
              case DlqFailed(_, _) => FailStreak(rounds) + 1 case _ => 0
  {
    assert (rounds + [r])[..|rounds|] == rounds;
  }

  lemma TurnSettles(c: Config, l: Loop, i: Input)
    requires l.commits == SettledBatches(l.rounds) && l.processAttempts == FailStreak(l.rounds)
    ensures var k := Turn(c, l, i);
      && |k.rounds| == |l.rounds| + 1 && k.rounds == l.rounds + [k.rounds[|l.rounds|]]
      && Counts(c, l.rounds, k.rounds[|l.rounds|])
      && k.commits == SettledBatches(k.rounds) && k.processAttempts == FailStreak(k.rounds)
  {
    var k := Turn(c, l, i);
    SnocFacts(l.rounds, k.rounds[|l.rounds|]);
  }

  /** Over every run: exactly the accepted and the dead-lettered batches are passed to
      CommitMessages, in order; a batch is dead-lettered (or its dead-letter write attempted)
      exactly after at least the configured number of failed rounds in a row. */
  lemma {:induction false} CommitsAreSettledBatches(c: Config, inputs: seq<Input>)
    ensures var l := Consume(c, inputs);
      && l.commits == SettledBatches(l.rounds)
      && l.processAttempts == FailStreak(l.rounds)
      && CountsFailures(c, l.rounds)
  {
    if inputs != [] {
      var n := |inputs| - 1;
      CommitsAreSettledBatches(c, inputs[..n]);
      var l := Consume(c, inputs[..n]);
      TurnSettles(c, l, inputs[n]);
      CountsSnoc(c, l.rounds, Turn(c, l, inputs[n]).rounds[|l.rounds|]);
    }
  }

  // ---------------------------------------------------------------- what the answers decide

  predicate PanicsEarly(i: Input) {
    (i.panic == InFetch && |Fetched(i.fetches)| < BATCH_SIZE) || (i.panic == InHandOver && i.fetches != [])
  }

  /** EnqueueMessagesAndWait was called with a batch and returned an error. */
  predicate Refused(i: Input) {
    i.fetches != [] && !PanicsEarly(i) && !i.accepted
  }

  predicate Starved(i: Input) {
    i.fetches == [] && !PanicsEarly(i)
  }

  function Refusals(inputs: seq<Input>, j: nat, k: nat): nat
    requires j <= k <= |inputs|
  {
    if j == k then 0 else Refusals(inputs, j, k - 1) + (if Refused(inputs[k - 1]) then 1 else 0)
  }

  /** Refused for at least the configured number of times in a row, this time included. */
  ghost predicate Due(c: Config, inputs: seq<Input>, k: nat)
    decreases k, 2
  {
    && k < |inputs| && Refused(inputs[k]) && c.dlqTopic != ""
    && exists j: nat :: j <= k && InARow(c, inputs, j, k) && Refusals(inputs, j, k) + 1 >= MaxProcessAttempts(c)
  }

  /** From input j on the loop met nothing but refusals and empty reads, committed nothing and did
      not panic. */
  ghost predicate InARow(c: Config, inputs: seq<Input>, j: nat, k: nat)
    decreases k, 1
  {
    j <= k <= |inputs| && forall i: nat :: j <= i < k ==> Calm(c, inputs, i)
  }

  ghost predicate Calm(c: Config, inputs: seq<Input>, i: nat)
    decreases i, 4
  {
    && i < |inputs| && (Refused(inputs[i]) || Starved(inputs[i]))
    && Consume(c, inputs[..i + 1]).commits == Consume(c, inputs[..i]).commits
    && !Panics(c, inputs, i)
  }

  /** Before the batch is answered, or in a dead-letter write that is due. */
  ghost predicate Panics(c: Config, inputs: seq<Input>, k: nat)
    decreases k, 3
  {
    k < |inputs| && (PanicsEarly(inputs[k]) || (inputs[k].panic == InDeadLetter && Due(c, inputs, k)))
  }

  /** Accepted, or due and taken by the dead-letter topic. */
  ghost predicate Answered(c: Config, inputs: seq<Input>, k: nat) {
    && k < |inputs| && inputs[k].fetches != [] && !Panics(c, inputs, k)
    && (inputs[k].accepted || (Due(c, inputs, k) && inputs[k].dlqOk))
  }

  function AttemptsAfter(c: Config, inputs: seq<Input>, k: nat): nat
    requires k <= |inputs|
  {
    Consume(c, inputs[..k]).processAttempts
  }

  lemma TurnAfter(c: Config, inputs: seq<Input>, k: nat)
    requires k < |inputs|
    ensures Consume(c, inputs[..k + 1]) == Turn(c, Consume(c, inputs[..k]), inputs[k])
  {
    assert inputs[..k + 1][..k] == inputs[..k];
  }

  lemma NextInARow(c: Config, inputs: seq<Input>, j: nat, k: nat)
    requires j <= k < |inputs|
    ensures InARow(c, inputs, j, k + 1) <==> InARow(c, inputs, j, k) && Calm(c, inputs, k)
    ensures Refusals(inputs, j, k + 1) == Refusals(inputs, j, k) + (if Refused(inputs[k]) then 1 else 0)
  {
  }

  /** The counter of the loop is the longest such row. */
  lemma {:induction false} AttemptsAreTheRow(c: Config, inputs: seq<Input>, k: nat) returns (j: nat)
    requires k <= |inputs|
    ensures j <= k && InARow(c, inputs, j, k) && Refusals(inputs, j, k) == AttemptsAfter(c, inputs, k)
    ensures forall i: nat :: i <= k && InARow(c, inputs, i, k) ==> Refusals(inputs, i, k) <= AttemptsAfter(c, inputs, k)
  {
    j := k;
    if k > 0 {
      var l := AttemptsAreTheRow(c, inputs, k - 1);
      StepCounts(c, inputs, k - 1, l);
      NextInARow(c, inputs, l, k - 1);
      if Calm(c, inputs, k - 1) { j := l; }
      forall i: nat | i <= k && InARow(c, inputs, i, k) ensures Refusals(inputs, i, k) <= AttemptsAfter(c, inputs, k) {
        if i < k { NextInARow(c, inputs, i, k - 1); }
      }
    }
  }

  /** Given what the counter means before input k: when a dead letter is due, and the counter after. */
  lemma StepCounts(c: Config, inputs: seq<Input>, k: nat, j: nat)
    requires k < |inputs| && j <= k && InARow(c, inputs, j, k) && Refusals(inputs, j, k) == AttemptsAfter(c, inputs, k)
    requires forall i: nat :: i <= k && InARow(c, inputs, i, k) ==> Refusals(inputs, i, k) <= AttemptsAfter(c, inputs, k)
    ensures Due(c, inputs, k) <==> Refused(inputs[k]) && c.dlqTopic != "" && AttemptsAfter(c, inputs, k) + 1 >= MaxProcessAttempts(c)
    ensures AttemptsAfter(c, inputs, k + 1) ==
      if Calm(c, inputs, k) then AttemptsAfter(c, inputs, k) + (if Refused(inputs[k]) then 1 else 0) else 0
  {
    TurnAfter(c, inputs, k);
  }

  /** One turn, given whether a dead letter is due. */
  lemma TurnDecides(c: Config, l: Loop, i: Input, due: bool)
    requires due == (Refused(i) && c.dlqTopic != "" && l.processAttempts + 1 >= MaxProcessAttempts(c))
    ensures var panics := PanicsEarly(i) || (i.panic == InDeadLetter && due);
      var batch, n := Fetched(i.fetches), l.processAttempts + 1;
      && Turn(c, l, i).commits ==
           l.commits + (if i.fetches != [] && !panics && (i.accepted || (due && i.dlqOk)) then [batch] else [])
      && Turn(c, l, i).rounds == l.rounds + [
           if panics then Panicked(batch)
           else if i.fetches == [] then Idle
           else if i.accepted then Accepted(batch, i.commitOk)
           else if !due then Retried(batch, n)
           else if i.dlqOk then DeadLettered(batch, n, i.commitOk)
           else DlqFailed(batch, n)]
  {
  }

  /**
   What every round does, in terms of what was fetched and answered alone. A batch is committed if
   and only if it was accepted, or refused for the configured number of times in a row and then
   taken by the dead-letter topic; nothing else is; and each round is labelled with what happened.
   */
  lemma AnswersDecide(c: Config, inputs: seq<Input>, k: nat)
    requires k < |inputs|
    ensures var before, after := Consume(c, inputs[..k]), Consume(c, inputs[..k + 1]);
      var i, batch := inputs[k], inputs[k].fetches[..if |inputs[k].fetches| < BATCH_SIZE then |inputs[k].fetches| else BATCH_SIZE];
      && after.commits == before.commits + (if Answered(c, inputs, k) then [batch] else [])
      && |before.rounds| == k && before.rounds <= after.rounds && |after.rounds| == k + 1
      && after.rounds[k] ==
           if Panics(c, inputs, k) then Panicked(batch)
           else if i.fetches == [] then Idle
           else if i.accepted then Accepted(batch, i.commitOk)
           else if !Due(c, inputs, k) then Retried(batch, before.processAttempts + 1)
           else if i.dlqOk then DeadLettered(batch, before.processAttempts + 1, i.commitOk)
           else DlqFailed(batch, before.processAttempts + 1)
  {
    var j := AttemptsAreTheRow(c, inputs, k);
    StepCounts(c, inputs, k, j);
    TurnAfter(c, inputs, k);
    TurnDecides(c, Consume(c, inputs[..k]), inputs[k], Due(c, inputs, k));
    RoundPerInput(c, inputs[..k]);
    assert inputs[k].fetches == inputs[k].fetches[..|inputs[k].fetches|];
  }

  lemma TurnLogs(c: Config, l: Loop, i: Input)
    ensures |Turn(c, l, i).rounds| == |l.rounds| + 1
  {
  }

  lemma {:induction false} RoundPerInput(c: Config, inputs: seq<Input>)
    ensures |Consume(c, inputs).rounds| == |inputs|
  {
    if inputs != [] {
      var n := |inputs| - 1;
      RoundPerInput(c, inputs[..n]);
      TurnLogs(c, Consume(c, inputs[..n]), inputs[n]);
    }
  }

  ghost predicate CountsReads(before: nat, i: Input, after: nat) {
    && after < MAX_RETRY_COUNT
    && (Starved(i) ==> after == (before + 1) % MAX_RETRY_COUNT)
    && (i.fetches != [] && i.panic == Nowhere ==> after == if |i.fetches| < BATCH_SIZE then 1 else 0)
    && (PanicsEarly(i) || (i.panic == InCommit && i.fetches != [] && i.accepted) ==> after == 0)
  }

  lemma TurnCountsReads(c: Config, l: Loop, i: Input)
    requires l.retryCount < MAX_RETRY_COUNT
    ensures CountsReads(l.retryCount, i, Turn(c, l, i).retryCount)
  {
  }

  /** The retry count goes up by one with every empty read and starts again at the tenth. Reading
      anything ends the row, and the error that cuts a batch short is the first of the next. */
  lemma {:induction false} RetryCountCountsEmptyReads(c: Config, inputs: seq<Input>)
    ensures Consume(c, inputs).retryCount < MAX_RETRY_COUNT
    ensures inputs != [] ==>
      CountsReads(Consume(c, inputs[..|inputs| - 1]).retryCount, inputs[|inputs| - 1], Consume(c, inputs).retryCount)
  {
    if inputs != [] {
      var n := |inputs| - 1;
      RetryCountCountsEmptyReads(c, inputs[..n]);
      TurnCountsReads(c, Consume(c, inputs[..n]), inputs[n]);
    }
  }

  // ---------------------------------------------------------------- what was dead-lettered

  predicate Fails(r: Round) {
    r.Retried? || r.DlqFailed?
  }

  /** The rounds in which exactly this batch was handed over and failed; the round that
      dead-letters it is one of them. */
  function Failures(rounds: seq<Round>, b: seq<Record>): nat {
    if rounds == [] then 0
    else
      var last := rounds[|rounds| - 1];
      Failures(rounds[..|rounds| - 1], b) + (if (Fails(last) || last.DeadLettered?) && last.batch == b then 1 else 0)
  }

  predicate HandsOver(r: Round) {
    !r.Idle? && !r.Panicked?
  }

  /** A reader that returns to the batch of a failed round: the next round that hands anything
      over, with no panic before it, gets the same batch. */
  ghost predicate Repeats(rounds: seq<Round>) {
    forall i, j :: 0 <= i < j < |rounds| && Fails(rounds[i]) && HandsOver(rounds[j]) && OnlyIdle(rounds, i + 1, j) ==>
      rounds[j].batch == rounds[i].batch
  }

  ghost predicate OnlyIdle(rounds: seq<Round>, from: nat, to: nat) {
    forall k :: from <= k < to && k < |rounds| ==> rounds[k].Idle?
  }

  /** Under such a reader the failed rounds in a row are failures of one and the same batch. */
  lemma {:induction false} StreakIsOneBatch(rounds: seq<Round>, k: nat, i: nat)
    requires Repeats(rounds) && k <= i < |rounds| && OnlyIdle(rounds, k, i) && HandsOver(rounds[i])
    ensures Failures(rounds[..k], rounds[i].batch) >= FailStreak(rounds[..k])
  {
    if k > 0 {
      var last := rounds[k - 1];
      assert rounds[..k][..k - 1] == rounds[..k - 1];
      if last.Idle? {
        StreakIsOneBatch(rounds, k - 1, i);
      } else if Fails(last) {
        assert last.batch == rounds[i].batch;
        StreakIsOneBatch(rounds, k - 1, k - 1);
      }
    }
  }

  lemma FailedBefore(c: Config, rounds: seq<Round>, i: nat)
    requires Repeats(rounds) && CountsFailures(c, rounds) && i < |rounds| && rounds[i].DeadLettered?
    ensures Failures(rounds[..i + 1], rounds[i].batch) >= MaxProcessAttempts(c)
  {
    StreakIsOneBatch(rounds, i, i);
    assert Counts(c, rounds[..i], rounds[i]);
    assert rounds[..i + 1][..i] == rounds[..i];
  }

  /** Under a reader that returns to a failed batch, every dead-lettered batch itself failed at
      least the configured number of rounds. */
  lemma DeadLetteredAfterItsOwnFailures(c: Config, inputs: seq<Input>, i: nat)
    requires Repeats(Consume(c, inputs).rounds)
    requires i < |Consume(c, inputs).rounds| && Consume(c, inputs).rounds[i].DeadLettered?
    ensures var rounds := Consume(c, inputs).rounds;
      Failures(rounds[..i + 1], rounds[i].batch) >= MaxProcessAttempts(c)
  {
    CommitsAreSettledBatches(c, inputs);
    FailedBefore(c, Consume(c, inputs).rounds, i);
  }

  lemma {:induction false} NoFailuresOf(rounds: seq<Round>, b: seq<Record>)
    requires forall k :: 0 <= k < |rounds| && !rounds[k].Idle? ==> rounds[k].batch != b
    ensures Failures(rounds, b) == 0
  {
    if rounds != [] { NoFailuresOf(rounds[..|rounds| - 1], b); }
  }

  lemma {:induction false} OneFailureOf(rounds: seq<Round>, i: nat, b: seq<Record>)
    requires i < |rounds| && rounds[i].DeadLettered? && rounds[i].batch == b
    requires forall k :: 0 <= k < |rounds| && k != i && !rounds[k].Idle? ==> rounds[k].batch != b
    ensures Failures(rounds, b) == 1
  {
    var n := |rounds| - 1;
    if i == n {
      NoFailuresOf(rounds[..n], b);
    } else {
      OneFailureOf(rounds[..n], i, b);
    }
  }

  /** Under a reader that only moves forward, a dead-lettered batch was handed over exactly once,
      whatever the configured number of attempts. */
  lemma DeadLetteredAfterOneFailure(c: Config, inputs: seq<Input>, start: nat -> nat, i: nat)
    requires Sequential(Consume(c, inputs).rounds, start)
    requires i < |Consume(c, inputs).rounds| && Consume(c, inputs).rounds[i].DeadLettered?
    ensures var rounds := Consume(c, inputs).rounds; Failures(rounds, rounds[i].batch) == 1
  {
    var rounds := Consume(c, inputs).rounds;
    var b := rounds[i].batch;
    RoundsCarryBatches(c, inputs);
    forall k | 0 <= k < |rounds| && k != i && !rounds[k].Idle? ensures rounds[k].batch != b {
      assert rounds[i] in rounds && b[0] in b;
      if rounds[k].batch == b { HandedOverOnce(rounds, start, i, k, b[0], b[0]); }
    }
    OneFailureOf(rounds, i, b);
  }

  /** The comment speaks of the same batch failing repeatedly; the counter only counts rounds.
      A batch handed over a single time can be dead-lettered. */
  lemma DeadLetteredAfterOneTry(a: Record, b: Record)
    requires a != b
    ensures exists inputs: seq<Input> ::
      var rs := Consume(Config(2, "dlq"), inputs).rounds;
      rs == [Retried([a], 1), DeadLettered([b], 2, true)]
  {
    var c := Config(2, "dlq");
    var fail := (r: Record) => Input([r], Nowhere, false, true, true);
    var inputs := [fail(a), fail(b)];
    assert inputs[..1] == [fail(a)] && inputs[..1][..0] == [];
    assert Consume(c, []) == NewLoop();
    assert Consume(c, inputs[..1]) == Turn(c, NewLoop(), fail(a));
    assert Consume(c, inputs) == Turn(c, Consume(c, inputs[..1]), fail(b));
  }

  // ---------------------------------------------------------------- what a commit covers

  /** The records of one partition, in fetch order. */
  function Part(batch: seq<Record>, p: nat): seq<Record> {
    if batch == [] then []
    else
      var last := batch[|batch| - 1];
      Part(batch[..|batch| - 1], p) + (if last.partition == p then [last] else [])
  }

  lemma {:induction false} PartHas(batch: seq<Record>, p: nat, r: Record)
    ensures r in Part(batch, p) <==> r in batch && r.partition == p
  {
    if batch != [] {
      var n := |batch| - 1;
      PartHas(batch[..n], p, r);
      assert batch == batch[..n] + [batch[n]];
    }
  }

  function Share(r: Round, p: nat): seq<Record> {
    Part(Batch(r), p)
  }

  /** How many records of the partition the first `k` rounds fetched. */
  function Taken(rounds: seq<Round>, p: nat, k: nat): nat
    requires k <= |rounds|
  {
    if k == 0 then 0 else Taken(rounds, p, k - 1) + |Share(rounds[k - 1], p)|
  }

  /** A reader that only moves forward in each partition, from any start offset: failed batches
      are not read again. */
  ghost predicate Sequential(rounds: seq<Round>, start: nat -> nat) {
    forall i: nat, p: nat :: i < |rounds| ==> Follows(rounds, start, p, i)
  }

  ghost predicate Follows(rounds: seq<Round>, start: nat -> nat, p: nat, i: nat)
    requires i < |rounds|
  {
    forall j :: 0 <= j < |Share(rounds[i], p)| ==>
      Share(rounds[i], p)[j].offset == start(p) + Taken(rounds, p, i) + j
  }

  predicate Commits(r: Round) {
    Settles(r) && r.commitOk
  }

  /** The offset the group resumes from in a partition after `k` rounds: one past the
      partition's last record in the last commit that has one. */
  function Watermark(rounds: seq<Round>, first: nat, p: nat, k: nat): nat
    requires k <= |rounds|
  {
    if k == 0 then first
    else if Commits(rounds[k - 1]) && Share(rounds[k - 1], p) != [] then first + Taken(rounds, p, k)
    else Watermark(rounds, first, p, k - 1)
  }

  ghost predicate SettledOffset(rounds: seq<Round>, p: nat, o: nat) {
    exists i, r :: 0 <= i < |rounds| && Settles(rounds[i]) && r in rounds[i].batch && r.partition == p && r.offset == o
  }

  predicate Abandons(r: Round) {
    !r.Idle? && !Settles(r)
  }

  /** Some batch with records of the partition was given up before a later commit of it. */
  ghost predicate AbandonedBeforeCommit(rounds: seq<Round>, p: nat) {
    exists i, j :: 0 <= i < j < |rounds|
      && Abandons(rounds[i]) && Share(rounds[i], p) != [] && Commits(rounds[j]) && Share(rounds[j], p) != []
  }

  lemma {:induction false} TakenPasses(rounds: seq<Round>, p: nat, i: nat, j: nat)
    requires i < j <= |rounds|
    ensures Taken(rounds, p, i) + |Share(rounds[i], p)| <= Taken(rounds, p, j)
  {
    if i < j - 1 { TakenPasses(rounds, p, i, j - 1); }
  }

  /** A forward-only reader hands no record over twice. */
  lemma HandedOverOnce(rounds: seq<Round>, start: nat -> nat, i: nat, k: nat, r: Record, q: Record)
    requires Sequential(rounds, start) && i < |rounds| && k < |rounds| && i != k
    requires r in Batch(rounds[i]) && q in Batch(rounds[k]) && r.partition == q.partition
    ensures r.offset != q.offset
  {
    var p := r.partition;
    assert Follows(rounds, start, p, i) && Follows(rounds, start, p, k);
    PartHas(Batch(rounds[i]), p, r);
    PartHas(Batch(rounds[k]), p, q);
    var a :| 0 <= a < |Share(rounds[i], p)| && Share(rounds[i], p)[a] == r;
    var b :| 0 <= b < |Share(rounds[k], p)| && Share(rounds[k], p)[b] == q;
    if i < k { TakenPasses(rounds, p, i, k); } else { TakenPasses(rounds, p, k, i); }
  }

  lemma {:induction false} WatermarkIsACommit(rounds: seq<Round>, first: nat, p: nat, k: nat) returns (j: nat)
    requires k <= |rounds| && Watermark(rounds, first, p, k) > first
    ensures j < k && Commits(rounds[j]) && Share(rounds[j], p) != []
    ensures Watermark(rounds, first, p, k) == first + Taken(rounds, p, j + 1)
  {
    j := k - 1;
    if !(Commits(rounds[k - 1]) && Share(rounds[k - 1], p) != []) {
      j := WatermarkIsACommit(rounds, first, p, k - 1);
    }
  }

  lemma {:induction false} WatermarkBelow(rounds: seq<Round>, first: nat, p: nat, k: nat)
    requires k <= |rounds|
    ensures Watermark(rounds, first, p, k) <= first + Taken(rounds, p, k)
  {
    if k > 0 { WatermarkBelow(rounds, first, p, k - 1); }
  }

  lemma WatermarkStep(rounds: seq<Round>, first: nat, p: nat, k: nat)
    requires k < |rounds|
    ensures Watermark(rounds, first, p, k) <= Watermark(rounds, first, p, k + 1)
  {
    WatermarkBelow(rounds, first, p, k);
    var taken := |Share(rounds[k], p)|;
    assert Taken(rounds, p, k + 1) == Taken(rounds, p, k) + taken;
  }

  lemma {:induction false} WatermarkGrows(rounds: seq<Round>, first: nat, p: nat, j: nat, k: nat)
    requires j <= k <= |rounds|
    ensures Watermark(rounds, first, p, j) <= Watermark(rounds, first, p, k)
    decreases k - j
  {
    if j < k {
      WatermarkStep(rounds, first, p, j);
      WatermarkGrows(rounds, first, p, j + 1, k);
    }
  }

  lemma WatermarkCoversCommit(rounds: seq<Round>, first: nat, p: nat, j: nat, k: nat)
    requires j < k <= |rounds| && Commits(rounds[j]) && Share(rounds[j], p) != []
    ensures first + Taken(rounds, p, j + 1) <= Watermark(rounds, first, p, k)
  {
    WatermarkGrows(rounds, first, p, j + 1, k);
  }

  lemma {:induction false} RoundOfRecord(rounds: seq<Round>, p: nat, o: nat, end: nat) returns (i: nat)
    requires end <= |rounds| && o < Taken(rounds, p, end)
    ensures i < end && Taken(rounds, p, i) <= o < Taken(rounds, p, i) + |Share(rounds[i], p)|
  {
    i := end - 1;
    if o < Taken(rounds, p, end - 1) {
      i := RoundOfRecord(rounds, p, o, end - 1);
    }
  }

  lemma AbandonedIsNotSettled(rounds: seq<Round>, start: nat -> nat, p: nat, i: nat)
    requires Sequential(rounds, start) && i < |rounds| && Abandons(rounds[i]) && Share(rounds[i], p) != []
    ensures !SettledOffset(rounds, p, start(p) + Taken(rounds, p, i))
  {
    var lost := Share(rounds[i], p)[0];
    assert Follows(rounds, start, p, i);
    PartHas(Batch(rounds[i]), p, lost);
    forall k, r | 0 <= k < |rounds| && Settles(rounds[k]) && r in rounds[k].batch && r.partition == p
      ensures r.offset != start(p) + Taken(rounds, p, i)
    {
      HandedOverOnce(rounds, start, i, k, lost, r);
    }
  }

  lemma AbandonedIsPassed(rounds: seq<Round>, start: nat -> nat, p: nat, i: nat, j: nat)
    requires i < j < |rounds| && Share(rounds[i], p) != [] && Commits(rounds[j]) && Share(rounds[j], p) != []
    ensures start(p) + Taken(rounds, p, i) < Watermark(rounds, start(p), p, |rounds|)
  {
    TakenPasses(rounds, p, i, j + 1);
    WatermarkCoversCommit(rounds, start(p), p, j, |rounds|);
  }

  lemma RecordInShare(rounds: seq<Round>, start: nat -> nat, p: nat, i: nat, o: nat) returns (r: Record)
    requires Sequential(rounds, start) && i < |rounds|
    requires Taken(rounds, p, i) <= o < Taken(rounds, p, i) + |Share(rounds[i], p)|
    ensures r in Batch(rounds[i]) && r.partition == p && r.offset == start(p) + o
  {
    assert Follows(rounds, start, p, i);
    r := Share(rounds[i], p)[o - Taken(rounds, p, i)];
    PartHas(Batch(rounds[i]), p, r);
  }

  /** The record with a covered offset, and a commit of its partition from that round on. */
  lemma CoveringCommit(rounds: seq<Round>, start: nat -> nat, p: nat, o: nat) returns (i: nat, j: nat, r: Record)
    requires Sequential(rounds, start) && start(p) <= o < Watermark(rounds, start(p), p, |rounds|)
    ensures i <= j < |rounds| && Commits(rounds[j]) && Share(rounds[j], p) != [] && Share(rounds[i], p) != []
    ensures r in Batch(rounds[i]) && r.partition == p && r.offset == o
  {
    j := WatermarkIsACommit(rounds, start(p), p, |rounds|);
    i := RoundOfRecord(rounds, p, o - start(p), j + 1);
    r := RecordInShare(rounds, start, p, i, o - start(p));
  }

  lemma KeptIsSettled(rounds: seq<Round>, p: nat, i: nat, j: nat)
    requires !AbandonedBeforeCommit(rounds, p) && i <= j < |rounds|
    requires Commits(rounds[j]) && Share(rounds[j], p) != [] && Share(rounds[i], p) != []
    ensures Settles(rounds[i])
  {
    assert i != j ==> !Abandons(rounds[i]);
  }

  lemma CoveredIsSettled(rounds: seq<Round>, start: nat -> nat, p: nat, o: nat)
    requires Sequential(rounds, start) && !AbandonedBeforeCommit(rounds, p)
    requires start(p) <= o < Watermark(rounds, start(p), p, |rounds|)
    ensures SettledOffset(rounds, p, o)
  {
    var i, j, r := CoveringCommit(rounds, start, p, o);
    KeptIsSettled(rounds, p, i, j);
    assert r in rounds[i].batch;
  }

  lemma {:induction false} RoundsCarryBatches(c: Config, inputs: seq<Input>)
    ensures forall r :: r in Consume(c, inputs).rounds && HandsOver(r) ==> r.batch != []
  {
    if inputs != [] {
      RoundsCarryBatches(c, inputs[..|inputs| - 1]);
    }
  }

  /** With a reader that only moves forward, in each partition of the topic and for batches that
      mix partitions: everything below the partition's committed offset was accepted or
      dead-lettered if and only if no batch with records of the partition was given up (retried,
      failed dead-letter write, panic) before a later commit of the partition. "Retry the whole
      batch" does not retry it by itself. */
  lemma CommitCoversIffNothingAbandoned(c: Config, inputs: seq<Input>, start: nat -> nat, p: nat)
    requires Sequential(Consume(c, inputs).rounds, start)
    ensures var rounds := Consume(c, inputs).rounds;
      (forall o: nat :: start(p) <= o < Watermark(rounds, start(p), p, |rounds|) ==> SettledOffset(rounds, p, o))
        <==> !AbandonedBeforeCommit(rounds, p)
  {
    var rounds := Consume(c, inputs).rounds;
    if AbandonedBeforeCommit(rounds, p) {
      var i, j :| 0 <= i < j < |rounds|
        && Abandons(rounds[i]) && Share(rounds[i], p) != [] && Commits(rounds[j]) && Share(rounds[j], p) != [];
      AbandonedIsPassed(rounds, start, p, i, j);
      AbandonedIsNotSettled(rounds, start, p, i);
    } else {
      forall o: nat | start(p) <= o < Watermark(rounds, start(p), p, |rounds|) ensures SettledOffset(rounds, p, o) {
        CoveredIsSettled(rounds, start, p, o);
      }
    }
  }
}
