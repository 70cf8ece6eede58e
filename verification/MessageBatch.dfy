/**
 The batched durable write: internal/service/chat/message_batch.go.

 A step is one atomic section: an Enqueue, the swap at the start of flush, one database
 attempt, the unlock at the end of flush, Shutdown. A database attempt may apply any prefix
 of the batch before it reports its result. Class `MessageBatchWriter` is the imperative form.
*/
module MessageBatch {
  import opened Wrappers

  const MAX_FLUSH_RETRIES := 3

  datatype Row = Row(uuid: string, content: string)

  /** `done` is the identity of the capacity-1 channel Enqueue returned. */
  datatype BatchItem = BatchItem(message: Row, done: nat)

  datatype Answer = Answer(item: BatchItem, ok: bool)

  /** A batch whose flush is over, the outcome completeBatch reported, and the prefix of it that
      its attempts applied. */
  datatype Done = Done(items: seq<BatchItem>, ok: bool, applied: nat)

  type Table = map<string, Row>

  // ---------------------------------------------------------------- the message table

  /** INSERT with ON CONFLICT DO NOTHING. */
  function Insert(t: Table, r: Row): Table {
    if r.uuid in t then t else t[r.uuid := r]
  }

  function InsertAll(t: Table, rs: seq<Row>): Table {
    if rs == [] then t else Insert(InsertAll(t, rs[..|rs| - 1]), rs[|rs| - 1])
  }

  function Rows(items: seq<BatchItem>): seq<Row> {
    seq(|items|, i requires 0 <= i < |items| => items[i].message)
  }

  // ---------------------------------------------------------------- the writer

  datatype Phase = Idle | Writing(attempt: nat) | Finishing

  /** What a database attempt did: how much of the batch it applied, and what it reported. */
  datatype Attempt = Attempt(applied: nat, ok: bool)

  datatype Stats = Stats(enqueued: nat, flushed: nat, flushes: nat, errors: nat)

  /** The history of a writer. */
  datatype Ledger = Ledger(
    history: seq<BatchItem>,                  // every item Enqueue put into the buffer
    batches: seq<Done>,                       // finished flushes
    direct: seq<Answer>,                      // single inserts after Shutdown
    answers: seq<Answer>,                     // values sent on done channels
    reached: nat)                             // the prefix of the batch in flight applied so far

  datatype Writer = Writer(
    buffer: seq<BatchItem>, inFlight: seq<BatchItem>, phase: Phase, started: bool, closed: bool,
    table: Table, nextDone: nat, stats: Stats, log: Ledger)

  function NewWriter(): Writer {
    Writer([], [], Idle, false, false, map[], 0, Stats(0, 0, 0, 0), Ledger([], [], [], [], 0))
  }

  /** Every call makes its own channel. After Shutdown a message is inserted on its own, with
      result `ok`, and answered at once. */
  function Enqueue(w: Writer, msg: Row, ok: bool): Writer {
    var x, n := BatchItem(msg, w.nextDone), w.(nextDone := w.nextDone + 1);
    if w.closed then
      n.(table := if ok then Insert(w.table, msg) else w.table,
         log := w.log.(direct := w.log.direct + [Answer(x, ok)], answers := w.log.answers + [Answer(x, ok)]))
    else
      n.(started := true, buffer := w.buffer + [x], stats := w.stats.(enqueued := w.stats.enqueued + 1),
         log := w.log.(history := w.log.history + [x]))
  }

  function BeginFlush(w: Writer): Writer {
    if w.phase != Idle || w.buffer == [] then w
    else w.(phase := Writing(0), inFlight := w.buffer, buffer := [], log := w.log.(reached := 0))
  }

  function Answers(items: seq<BatchItem>, ok: bool): seq<Answer> {
    seq(|items|, i requires 0 <= i < |items| => Answer(items[i], ok))
  }

  function CompleteBatch(w: Writer, ok: bool): Writer {
    w.(phase := Finishing, inFlight := [],
       log := w.log.(batches := w.log.batches + [Done(w.inFlight, ok, w.log.reached)],
                     answers := w.log.answers + Answers(w.inFlight, ok), reached := 0))
  }

  function Extent(w: Writer, a: Attempt): (n: nat)
    ensures n <= |w.inFlight|
  {
    if a.ok || a.applied > |w.inFlight| then |w.inFlight| else a.applied
  }

  function Max(a: nat, b: nat): nat {
    if a > b then a else b
  }

  /** The effect of one attempt on the table. */
  function Applied(w: Writer, a: Attempt): Writer {
    w.(table := InsertAll(w.table, Rows(w.inFlight[..Extent(w, a)])),
       log := w.log.(reached := Max(w.log.reached, Extent(w, a))))
  }

  function TryInsert(w: Writer, a: Attempt): Writer {
    if !w.phase.Writing? then w
    else
      var n, t := |w.inFlight|, Applied(w, a);
      if a.ok then
        CompleteBatch(t.(stats := w.stats.(flushed := w.stats.flushed + n, flushes := w.stats.flushes + 1)), true)
      else if w.phase.attempt == MAX_FLUSH_RETRIES - 1 then
        CompleteBatch(t.(stats := w.stats.(errors := w.stats.errors + n)), false)
      else t.(phase := Writing(w.phase.attempt + 1))
  }

  function EndFlush(w: Writer): Writer {
    if w.phase == Finishing then w.(phase := Idle) else w
  }

  function Close(w: Writer): Writer {
    if w.started then w.(closed := true) else w
  }

  datatype Step =
    | DoEnqueue(msg: Row, ok: bool)
    | DoBeginFlush
    | DoAttempt(a: Attempt)
    | DoEndFlush
    | DoShutdown

  function Apply(w: Writer, st: Step): Writer {
    match st
    case DoEnqueue(msg, ok) => Enqueue(w, msg, ok)
    case DoBeginFlush => BeginFlush(w)
    case DoAttempt(a) => TryInsert(w, a)
    case DoEndFlush => EndFlush(w)
    case DoShutdown => Close(w)
  }

  function Run(steps: seq<Step>): Writer {
    if steps == [] then NewWriter() else Apply(Run(steps[..|steps| - 1]), steps[|steps| - 1])
  }

  /** A flush that nothing interrupts, with the database's answers to its attempts. */
  function Flush(w: Writer, db: nat -> Attempt): Writer {
    if w.phase != Idle || w.buffer == [] then w else EndFlush(Retry(BeginFlush(w), db))
  }

  function Retry(w: Writer, db: nat -> Attempt): Writer
    decreases if w.phase.Writing? then MAX_FLUSH_RETRIES - w.phase.attempt else -1
  {
    if !w.phase.Writing? || w.phase.attempt >= MAX_FLUSH_RETRIES then w
    else Retry(TryInsert(w, db(w.phase.attempt)), db)
  }

  // ---------------------------------------------------------------- the imperative writer

  /** `flushing` of the source is phase != Idle; `inFlight` and the attempt number in `phase`
      are the locals of the goroutine that runs flush. */
  class MessageBatchWriter {
    var buffer: seq<BatchItem>
    var inFlight: seq<BatchItem>
    var phase: Phase
    var started: bool
    var closed: bool
    var table: Table                       // the database behind dao.GormDB
    var nextDone: nat
    var stats: Stats
    ghost var log: Ledger

    ghost function State(): Writer
      reads this
    {
      Writer(buffer, inFlight, phase, started, closed, table, nextDone, stats, log)
    }

    constructor ()
      ensures State() == NewWriter()
    {
      buffer, inFlight, phase, started, closed, table, nextDone := [], [], Idle, false, false, map[], 0;
      stats, log := Stats(0, 0, 0, 0), Ledger([], [], [], [], 0);
    }

    /** CreateInBatches with ON CONFLICT DO NOTHING. */
    method CreateInBatches(messages: seq<Row>)
      modifies this`table
      ensures table == InsertAll(old(table), messages)
    {
      var i := 0;
      while i < |messages|
        invariant 0 <= i <= |messages|
        invariant table == InsertAll(old(table), messages[..i])
      {
        if messages[i].uuid !in table {
          table := table[messages[i].uuid := messages[i]];
        }
        assert messages[..i + 1][..i] == messages[..i];
        i := i + 1;
      }
      assert messages[..i] == messages;
    }

    method EnqueueMessage(msg: Row, ok: bool) returns (done: nat)
      modifies this
      ensures State() == Enqueue(old(State()), msg, ok) && done == old(nextDone)
    {
      done := nextDone;
      nextDone := nextDone + 1;
      var x := BatchItem(msg, done);
      if closed {
        if ok {
          assert [msg][..0] == [];
          CreateInBatches([msg]);
        }
        log := log.(direct := log.direct + [Answer(x, ok)], answers := log.answers + [Answer(x, ok)]);
        return;
      }
      started := true;
      buffer := buffer + [x];
      stats := stats.(enqueued := stats.enqueued + 1);
      log := log.(history := log.history + [x]);
    }

    method CompleteItems(ok: bool)
      modifies this`log, this`inFlight, this`phase
      ensures State() == CompleteBatch(old(State()), ok)
    {
      var i := 0;
      while i < |inFlight|
        modifies this`log
        invariant 0 <= i <= |inFlight|
        invariant log == old(log).(answers := old(log.answers) + Answers(inFlight[..i], ok))
      {
        log := log.(answers := log.answers + [Answer(inFlight[i], ok)]);
        assert Answers(inFlight[..i + 1], ok) == Answers(inFlight[..i], ok) + [Answer(inFlight[i], ok)];
        i := i + 1;
      }
      assert inFlight[..i] == inFlight;
      log := log.(batches := log.batches + [Done(inFlight, ok, log.reached)], reached := 0);
      inFlight, phase := [], Finishing;
    }

    /** The locked section at the start of flush. */
    method SwapBuffer() returns (mine: bool)
      modifies this
      ensures State() == BeginFlush(old(State()))
      ensures mine == (old(phase) == Idle && old(buffer) != [])
    {
      if phase != Idle || |buffer| == 0 {
        return false;
      }
      inFlight, buffer, phase := buffer, [], Writing(0);
      log := log.(reached := 0);
      return true;
    }

    /** One turn of the retry loop. */
    method AttemptInsert(a: Attempt)
      requires phase.Writing?
      modifies this
      ensures State() == TryInsert(old(State()), a)
    {
      var n := if a.ok || a.applied > |inFlight| then |inFlight| else a.applied;
      CreateInBatches(Rows(inFlight[..n]));
      log := log.(reached := Max(log.reached, n));
      if a.ok {
        stats := stats.(flushed := stats.flushed + |inFlight|, flushes := stats.flushes + 1);
        CompleteItems(true);
      } else if phase.attempt == MAX_FLUSH_RETRIES - 1 {
        stats := stats.(errors := stats.errors + |inFlight|);
        CompleteItems(false);
      } else {
        phase := Writing(phase.attempt + 1);
      }
    }

    /** flush, when no other goroutine gets in between. */
    method FlushBuffer(db: nat -> Attempt)
      modifies this
      ensures State() == Flush(old(State()), db)
    {
      var mine := SwapBuffer();
      if !mine {
        return;
      }
      while phase.Writing?
        invariant Retry(State(), db) == Retry(BeginFlush(old(State())), db)
        invariant phase.Writing? ==> phase.attempt < MAX_FLUSH_RETRIES
        decreases if phase.Writing? then MAX_FLUSH_RETRIES - phase.attempt else -1
      {
        AttemptInsert(db(phase.attempt));
      }
      if phase == Finishing {
        phase := Idle;
      }
    }

    /** Shutdown: the last flush returns at once if another one is running. */
    method Shutdown(db: nat -> Attempt)
      modifies this
      ensures State() == if !old(started) || old(closed) then old(State()) else Flush(Close(old(State())), db)
    {
      if !started || closed {
        return;
      }
      closed := true;
      FlushBuffer(db);
    }
  }

  // ---------------------------------------------------------------- insert-ignore

  lemma {:induction false} InsertAllSplit(t: Table, a: seq<Row>, b: seq<Row>)
    ensures InsertAll(t, a + b) == InsertAll(InsertAll(t, a), b)
  {
    if b == [] {
      assert a + b == a;
    } else {
      assert (a + b)[..|a + b| - 1] == a + b[..|b| - 1];
      InsertAllSplit(t, a, b[..|b| - 1]);
    }
  }

  function Uuids(rs: seq<Row>): set<string> {
    set r | r in rs :: r.uuid
  }

  /** Insert-ignore keeps every existing row and adds exactly the missing keys. */
  lemma {:induction false} InsertAllKeeps(t: Table, rs: seq<Row>)
    ensures InsertAll(t, rs).Keys == t.Keys + Uuids(rs)
    ensures forall k :: k in t ==> InsertAll(t, rs)[k] == t[k]
  {
    if rs != [] {
      var n := |rs| - 1;
      InsertAllKeeps(t, rs[..n]);
      assert rs == rs[..n] + [rs[n]];
      assert Uuids(rs) == Uuids(rs[..n]) + {rs[n].uuid};
    }
  }

  lemma {:induction false} InsertAllPresent(t: Table, rs: seq<Row>)
    requires Uuids(rs) <= t.Keys
    ensures InsertAll(t, rs) == t
  {
    if rs != [] {
      var n := |rs| - 1;
      assert forall r :: r in rs[..n] ==> r in rs;
      assert rs[n] in rs && rs[n].uuid in Uuids(rs);
      InsertAllPresent(t, rs[..n]);
    }
  }

  /** Applying a prefix and then the whole again is applying the whole once. */
  lemma PrefixThenWhole(t: Table, rs: seq<Row>, k: nat)
    requires k <= |rs|
    ensures InsertAll(InsertAll(t, rs[..k]), rs) == InsertAll(t, rs)
  {
    assert rs == rs[..k] + rs[k..];
    InsertAllSplit(t, rs[..k], rs[k..]);
    InsertAllSplit(InsertAll(t, rs[..k]), rs[..k], rs[k..]);
    InsertAllKeeps(t, rs[..k]);
    InsertAllPresent(InsertAll(t, rs[..k]), rs[..k]);
  }

  lemma TwoPrefixes(t: Table, rs: seq<Row>, j: nat, k: nat)
    requires j <= |rs| && k <= |rs|
    ensures InsertAll(InsertAll(t, rs[..j]), rs[..k]) == InsertAll(t, rs[..if j <= k then k else j])
  {
    if j <= k {
      assert rs[..k][..j] == rs[..j];
      PrefixThenWhole(t, rs[..k], j);
    } else {
      InsertAllKeeps(t, rs[..j]);
      assert forall r :: r in rs[..k] ==> r in rs[..j];
      InsertAllPresent(InsertAll(t, rs[..j]), rs[..k]);
    }
  }

  /** The first occurrence of each uuid, in order. */
  function FirstOccurrences(rs: seq<Row>): seq<Row> {
    if rs == [] then []
    else
      var front := rs[..|rs| - 1];
      FirstOccurrences(front) + (if rs[|rs| - 1].uuid in Uuids(front) then [] else [rs[|rs| - 1]])
  }

  lemma {:induction false} ReplaysChangeNothing(rs: seq<Row>)
    ensures InsertAll(map[], rs) == InsertAll(map[], FirstOccurrences(rs))
  {
    if rs != [] {
      var front, last := rs[..|rs| - 1], rs[|rs| - 1];
      ReplaysChangeNothing(front);
      InsertAllKeeps(map[], front);
      if last.uuid !in Uuids(front) {
        assert FirstOccurrences(rs)[..|FirstOccurrences(front)|] == FirstOccurrences(front);
      } else {
        assert FirstOccurrences(rs) == FirstOccurrences(front);
      }
    }
  }

  // ---------------------------------------------------------------- every interleaving

  function Flat(bs: seq<Done>): seq<BatchItem> {
    if bs == [] then [] else Flat(bs[..|bs| - 1]) + bs[|bs| - 1].items
  }

  /** The items of the batches that reached the database. */
  function Flushed(bs: seq<Done>): seq<BatchItem> {
    if bs == [] then []
    else Flushed(bs[..|bs| - 1]) + (if bs[|bs| - 1].ok then bs[|bs| - 1].items else [])
  }

  /** How many batches were answered nil. */
  function Written(bs: seq<Done>): nat {
    if bs == [] then 0 else Written(bs[..|bs| - 1]) + (if bs[|bs| - 1].ok then 1 else 0)
  }

  function FlatAnswers(bs: seq<Done>): seq<Answer> {
    if bs == [] then [] else FlatAnswers(bs[..|bs| - 1]) + Answers(bs[|bs| - 1].items, bs[|bs| - 1].ok)
  }

  /** Nothing is lost, duplicated or reordered between Enqueue and completion. */
  ghost predicate Ordered(w: Writer) {
    && w.log.history == Flat(w.log.batches) + w.inFlight + w.buffer
    && (w.phase.Writing? <==> w.inFlight != [])
    && (w.phase.Writing? ==> w.phase.attempt < MAX_FLUSH_RETRIES)
  }

  ghost predicate Counted(w: Writer) {
    && w.stats.enqueued == |w.log.history|
    && w.stats.flushed + w.stats.errors == |Flat(w.log.batches)|
    && w.stats.flushed == |Flushed(w.log.batches)| && w.stats.flushes == Written(w.log.batches)
  }

  /** What was sent on the done channels: each finished batch's outcome to each of its items,
      and the single inserts after Shutdown. */
  ghost predicate Answered(w: Writer) {
    multiset(w.log.answers) == multiset(FlatAnswers(w.log.batches)) + multiset(w.log.direct)
  }

  ghost predicate Durable(w: Writer) {
    forall a :: a in w.log.answers && a.ok ==> a.item.message.uuid in w.table
  }

  lemma FlatSnoc(bs: seq<Done>, d: Done)
    ensures Flat(bs + [d]) == Flat(bs) + d.items
    ensures FlatAnswers(bs + [d]) == FlatAnswers(bs) + Answers(d.items, d.ok)
    ensures Flushed(bs + [d]) == Flushed(bs) + (if d.ok then d.items else [])
    ensures Written(bs + [d]) == Written(bs) + (if d.ok then 1 else 0)
  {
  }

  lemma EnqueueOrders(w: Writer, msg: Row, ok: bool)
    requires Ordered(w)
    ensures Ordered(Enqueue(w, msg, ok))
  {
    var x := BatchItem(msg, w.nextDone);
    assert Flat(w.log.batches) + w.inFlight + (w.buffer + [x]) == Flat(w.log.batches) + w.inFlight + w.buffer + [x];
  }

  lemma BeginOrders(w: Writer)
    requires Ordered(w)
    ensures Ordered(BeginFlush(w))
  {
    if w.phase == Idle && w.buffer != [] {
      assert Flat(w.log.batches) + w.inFlight + w.buffer == Flat(w.log.batches) + w.buffer + [];
    }
  }

  lemma CompleteOrders(w: Writer, ok: bool)
    requires Ordered(w)
    ensures Ordered(CompleteBatch(w, ok))
  {
    FlatSnoc(w.log.batches, Done(w.inFlight, ok, w.log.reached));
    assert Flat(w.log.batches) + w.inFlight + [] + w.buffer == Flat(w.log.batches) + w.inFlight + w.buffer;
  }

  lemma AppliedOrders(w: Writer, a: Attempt, stats: Stats)
    requires Ordered(w)
    ensures Ordered(Applied(w, a).(stats := stats))
  {
  }

  lemma AttemptOrders(w: Writer, a: Attempt)
    requires Ordered(w)
    ensures Ordered(TryInsert(w, a))
  {
    if w.phase.Writing? {
      var n := |w.inFlight|;
      if a.ok {
        var stats := w.stats.(flushed := w.stats.flushed + n, flushes := w.stats.flushes + 1);
        AppliedOrders(w, a, stats);
        CompleteOrders(Applied(w, a).(stats := stats), true);
      } else if w.phase.attempt == MAX_FLUSH_RETRIES - 1 {
        var stats := w.stats.(errors := w.stats.errors + n);
        AppliedOrders(w, a, stats);
        CompleteOrders(Applied(w, a).(stats := stats), false);
      }
    }
  }

  lemma StepOrders(w: Writer, st: Step)
    requires Ordered(w)
    ensures Ordered(Apply(w, st))
  {
    match st
    case DoEnqueue(msg, ok) => EnqueueOrders(w, msg, ok);
    case DoBeginFlush => BeginOrders(w);
    case DoAttempt(a) => AttemptOrders(w, a);
    case DoEndFlush =>
    case DoShutdown =>
  }

  lemma AttemptCounts(w: Writer, a: Attempt)
    requires Counted(w)
    ensures Counted(TryInsert(w, a))
  {
    if w.phase.Writing? {
      FlatSnoc(w.log.batches, Done(w.inFlight, a.ok, Applied(w, a).log.reached));
    }
  }

  lemma StepCounts(w: Writer, st: Step)
    requires Counted(w)
    ensures Counted(Apply(w, st))
  {
    match st
    case DoAttempt(a) => AttemptCounts(w, a);
    case DoEnqueue(_, _) =>
    case DoBeginFlush =>
    case DoEndFlush =>
    case DoShutdown =>
  }

  lemma SendBoth(sent: seq<Answer>, flat: seq<Answer>, direct: seq<Answer>, more: seq<Answer>)
    requires multiset(sent) == multiset(flat) + multiset(direct)
    ensures multiset(sent + more) == multiset(flat + more) + multiset(direct)
    ensures multiset(sent + more) == multiset(flat) + multiset(direct + more)
  {
  }

  lemma CompleteAnswers(w: Writer, ok: bool)
    requires Answered(w)
    ensures Answered(CompleteBatch(w, ok))
  {
    FlatSnoc(w.log.batches, Done(w.inFlight, ok, w.log.reached));
    SendBoth(w.log.answers, FlatAnswers(w.log.batches), w.log.direct, Answers(w.inFlight, ok));
  }

  lemma AttemptAnswers(w: Writer, a: Attempt)
    requires Answered(w)
    ensures Answered(TryInsert(w, a))
  {
    if w.phase.Writing? {
      var n, t := |w.inFlight|, Applied(w, a);
      assert Answered(t);
      if a.ok {
        CompleteAnswers(t.(stats := w.stats.(flushed := w.stats.flushed + n, flushes := w.stats.flushes + 1)), true);
      } else if w.phase.attempt == MAX_FLUSH_RETRIES - 1 {
        CompleteAnswers(t.(stats := w.stats.(errors := w.stats.errors + n)), false);
      }
    }
  }

  lemma StepAnswers(w: Writer, st: Step)
    requires Answered(w)
    ensures Answered(Apply(w, st))
  {
    match st
    case DoEnqueue(msg, ok) =>
      SendBoth(w.log.answers, FlatAnswers(w.log.batches), w.log.direct, [Answer(BatchItem(msg, w.nextDone), ok)]);
    case DoAttempt(a) => AttemptAnswers(w, a);
    case DoBeginFlush =>
    case DoEndFlush =>
    case DoShutdown =>
  }

  lemma TableGrows(w: Writer, st: Step)
    ensures w.table.Keys <= Apply(w, st).table.Keys
    ensures forall k :: k in w.table ==> Apply(w, st).table[k] == w.table[k]
  {
    match st
    case DoAttempt(a) => InsertAllKeeps(w.table, Rows(w.inFlight[..Extent(w, a)]));
    case DoEnqueue(_, _) =>
    case DoBeginFlush =>
    case DoEndFlush =>
    case DoShutdown =>
  }

  lemma InFlightIsIn(w: Writer, a: Attempt)
    requires a.ok
    ensures forall i :: 0 <= i < |w.inFlight| ==> w.inFlight[i].message.uuid in Applied(w, a).table
  {
    var rs := Rows(w.inFlight);
    assert w.inFlight[..|w.inFlight|] == w.inFlight;
    InsertAllKeeps(w.table, rs);
    forall i | 0 <= i < |w.inFlight| ensures w.inFlight[i].message.uuid in Uuids(rs) {
      assert rs[i] in rs;
    }
  }

  lemma StepStaysDurable(w: Writer, st: Step)
    requires Durable(w)
    ensures Durable(Apply(w, st))
  {
    TableGrows(w, st);
    if st.DoAttempt? && w.phase.Writing? && st.a.ok {
      InFlightIsIn(w, st.a);
    }
  }

  /** Under every interleaving: enqueue history = finished batches ++ batch in flight ++ buffer,
      the counters add up, answers are batch outcomes, and a nil answer means the row is there. */
  lemma {:induction false} EveryRun(steps: seq<Step>)
    ensures var w := Run(steps);
      && Ordered(w) && Counted(w) && Answered(w) && Durable(w)
      && w.stats.enqueued == w.stats.flushed + w.stats.errors + |w.inFlight| + |w.buffer|
  {
    if steps != [] {
      var n := |steps| - 1;
      EveryRun(steps[..n]);
      StepOrders(Run(steps[..n]), steps[n]);
      StepCounts(Run(steps[..n]), steps[n]);
      StepAnswers(Run(steps[..n]), steps[n]);
      StepStaysDurable(Run(steps[..n]), steps[n]);
    }
  }

  // ---------------------------------------------------------------- one answer per channel

  function Dones(items: seq<BatchItem>): seq<nat> {
    seq(|items|, i requires 0 <= i < |items| => items[i].done)
  }

  function SentOn(answers: seq<Answer>): seq<nat> {
    seq(|answers|, i requires 0 <= i < |answers| => answers[i].item.done)
  }

  /** The channels already used, then those of the batch in flight, then the buffered ones. */
  function Line(w: Writer): seq<nat> {
    SentOn(w.log.answers) + Dones(w.inFlight) + Dones(w.buffer)
  }

  ghost predicate Distinct(xs: seq<nat>, bound: nat) {
    && (forall i :: 0 <= i < |xs| ==> xs[i] < bound)
    && (forall i, j :: 0 <= i < j < |xs| ==> xs[i] != xs[j])
  }

  lemma EnqueueKeepsLine(w: Writer, msg: Row, ok: bool)
    requires Distinct(Line(w), w.nextDone)
    ensures Distinct(Line(Enqueue(w, msg, ok)), w.nextDone + 1)
  {
    var r, waiting := Enqueue(w, msg, ok), Dones(w.inFlight) + Dones(w.buffer);
    if w.closed {
      assert Line(r) == SentOn(w.log.answers) + [w.nextDone] + waiting;
      assert Line(w) == SentOn(w.log.answers) + waiting;
      DistinctInsert(SentOn(w.log.answers), waiting, w.nextDone);
    } else {
      assert Line(r) == Line(w) + [w.nextDone];
    }
  }

  lemma AttemptKeepsLine(w: Writer, a: Attempt)
    ensures Line(TryInsert(w, a)) == Line(w)
  {
  }

  lemma StepKeepsLine(w: Writer, st: Step)
    requires Ordered(w) && Distinct(Line(w), w.nextDone)
    ensures Distinct(Line(Apply(w, st)), Apply(w, st).nextDone)
  {
    match st
    case DoEnqueue(msg, ok) => EnqueueKeepsLine(w, msg, ok);
    case DoBeginFlush => assert Line(BeginFlush(w)) == Line(w);
    case DoAttempt(a) => AttemptKeepsLine(w, a);
    case _ =>
  }

  lemma DistinctInsert(a: seq<nat>, b: seq<nat>, n: nat)
    requires Distinct(a + b, n)
    ensures Distinct(a + [n] + b, n + 1)
  {
    var c := a + [n] + b;
    forall i | 0 <= i < |c| ensures c[i] <= n && (c[i] == n <==> i == |a|) {
      assert i < |a| ==> c[i] == (a + b)[i];
      assert i > |a| ==> c[i] == (a + b)[i - 1];
    }
    forall i, j | 0 <= i < j < |c| ensures c[i] != c[j] {
      if i != |a| && j != |a| {
        assert (a + b)[if i < |a| then i else i - 1] != (a + b)[if j < |a| then j else j - 1];
      }
    }
  }

  lemma {:induction false} LineStaysDistinct(steps: seq<Step>)
    ensures Distinct(Line(Run(steps)), Run(steps).nextDone)
  {
    if steps != [] {
      var n := |steps| - 1;
      EveryRun(steps[..n]);
      LineStaysDistinct(steps[..n]);
      StepKeepsLine(Run(steps[..n]), steps[n]);
    }
  }

  /** Each done channel gets at most one value, which is its own batch's outcome (or that of
      its single insert after Shutdown); a nil value means the row is in the table. */
  lemma OneAnswerPerChannel(steps: seq<Step>, i: nat, j: nat)
    requires i < j < |Run(steps).log.answers|
    ensures var w := Run(steps);
      && w.log.answers[i].item.done != w.log.answers[j].item.done
      && (w.log.answers[i] in FlatAnswers(w.log.batches) || w.log.answers[i] in w.log.direct)
      && (w.log.answers[i].ok ==> w.log.answers[i].item.message.uuid in w.table)
  {
    var w := Run(steps);
    EveryRun(steps);
    LineStaysDistinct(steps);
    assert Line(w)[i] == w.log.answers[i].item.done && Line(w)[j] == w.log.answers[j].item.done;
    assert w.log.answers[i] in multiset(w.log.answers);
  }

  // ---------------------------------------------------------------- the table after a run

  function Lookup(t: Table, u: string): Option<Row> {
    if u in t then Some(t[u]) else None
  }

  /** The first row of that uuid. */
  function FirstOf(rs: seq<Row>, u: string): Option<Row> {
    if rs == [] then None
    else
      var n := |rs| - 1;
      if FirstOf(rs[..n], u).Some? then FirstOf(rs[..n], u)
      else if rs[n].uuid == u then Some(rs[n])
      else None
  }

  lemma {:induction false} FirstOfConcat(a: seq<Row>, b: seq<Row>, u: string)
    ensures FirstOf(a + b, u) == if FirstOf(a, u).Some? then FirstOf(a, u) else FirstOf(b, u)
  {
    if b == [] {
      assert a + b == a;
    } else {
      var n := |b| - 1;
      assert (a + b)[..|a + b| - 1] == a + b[..n];
      FirstOfConcat(a, b[..n], u);
    }
  }

  lemma {:induction false} InsertAllLooksUp(t: Table, rs: seq<Row>, u: string)
    ensures Lookup(InsertAll(t, rs), u) == if u in t then Some(t[u]) else FirstOf(rs, u)
  {
    if rs != [] { InsertAllLooksUp(t, rs[..|rs| - 1], u); }
  }

  /** A prefix followed by a prefix of the same rows looks like the longer of the two. */
  lemma PrefixesLookUp(done: seq<Row>, all: seq<Row>, k: nat, n: nat, u: string)
    requires k <= |all| && n <= |all|
    ensures FirstOf(done + all[..Max(k, n)], u) ==
      if FirstOf(done + all[..k], u).Some? then FirstOf(done + all[..k], u) else FirstOf(all[..n], u)
  {
    FirstOfConcat(done, all[..k], u);
    FirstOfConcat(done, all[..n], u);
    if n <= k {
      assert all[..k] == all[..n] + all[n..k];
      FirstOfConcat(all[..n], all[n..k], u);
    } else {
      assert all[..n] == all[..k] + all[k..n];
      FirstOfConcat(all[..k], all[k..n], u);
    }
  }

  /** The items that reached the table, in order: each finished batch's applied prefix, then that
      of the batch in flight. */
  function LandedOf(bs: seq<Done>): seq<BatchItem> {
    if bs == [] then []
    else
      var d := bs[|bs| - 1];
      LandedOf(bs[..|bs| - 1]) + (if d.applied <= |d.items| then d.items[..d.applied] else d.items)
  }

  ghost predicate Reaches(w: Writer) {
    && w.log.reached <= |w.inFlight|
    && (forall d :: d in w.log.batches ==> d.applied <= |d.items| && (d.ok ==> d.applied == |d.items|))
  }

  function Landed(w: Writer): seq<Row>
    requires Reaches(w)
  {
    Rows(LandedOf(w.log.batches)) + Rows(w.inFlight)[..w.log.reached]
  }

  /** The uuids inserted on their own after Shutdown. */
  function DirectUuids(w: Writer): set<string> {
    set a | a in w.log.direct && a.ok :: a.item.message.uuid
  }

  lemma LandedSnoc(bs: seq<Done>, d: Done)
    requires d.applied <= |d.items|
    ensures Rows(LandedOf(bs + [d])) == Rows(LandedOf(bs)) + Rows(d.items)[..d.applied]
  {
    assert (bs + [d])[..|bs|] == bs;
  }

  lemma CompleteLands(w: Writer, ok: bool)
    requires Reaches(w) && (ok ==> w.log.reached == |w.inFlight|)
    ensures Reaches(CompleteBatch(w, ok)) && Landed(CompleteBatch(w, ok)) == Landed(w)
  {
    LandedSnoc(w.log.batches, Done(w.inFlight, ok, w.log.reached));
  }

  lemma AppliedLands(w: Writer, a: Attempt, u: string)
    requires Reaches(w) && Lookup(w.table, u) == FirstOf(Landed(w), u)
    ensures Reaches(Applied(w, a)) && Lookup(Applied(w, a).table, u) == FirstOf(Landed(Applied(w, a)), u)
  {
    var n := Extent(w, a);
    InsertAllLooksUp(w.table, Rows(w.inFlight[..n]), u);
    assert Rows(w.inFlight[..n]) == Rows(w.inFlight)[..n];
    PrefixesLookUp(Rows(LandedOf(w.log.batches)), Rows(w.inFlight), w.log.reached, n, u);
  }

  lemma AttemptLands(w: Writer, a: Attempt, u: string)
    requires Reaches(w) && w.phase.Writing? && Lookup(w.table, u) == FirstOf(Landed(w), u)
    ensures Reaches(TryInsert(w, a)) && Lookup(TryInsert(w, a).table, u) == FirstOf(Landed(TryInsert(w, a)), u)
  {
    var n, t := |w.inFlight|, Applied(w, a);
    AppliedLands(w, a, u);
    if a.ok {
      CompleteLands(t.(stats := w.stats.(flushed := w.stats.flushed + n, flushes := w.stats.flushes + 1)), true);
    } else if w.phase.attempt == MAX_FLUSH_RETRIES - 1 {
      CompleteLands(t.(stats := w.stats.(errors := w.stats.errors + n)), false);
    }
  }

  lemma StepLands(w: Writer, st: Step, u: string)
    requires Ordered(w) && Reaches(w) && u !in DirectUuids(Apply(w, st))
    requires Lookup(w.table, u) == FirstOf(Landed(w), u)
    ensures Reaches(Apply(w, st)) && Lookup(Apply(w, st).table, u) == FirstOf(Landed(Apply(w, st)), u)
  {
    match st
    case DoAttempt(a) => if w.phase.Writing? { AttemptLands(w, a, u); }
    case DoEnqueue(msg, ok) =>
      if w.closed && ok {
        assert Answer(BatchItem(msg, w.nextDone), ok) in Apply(w, st).log.direct;
      }
    case DoBeginFlush => assert w.phase == Idle ==> Rows(w.inFlight)[..w.log.reached] == [];
    case DoEndFlush =>
    case DoShutdown =>
  }

  lemma DirectGrows(w: Writer, st: Step)
    ensures DirectUuids(w) <= DirectUuids(Apply(w, st))
  {
    assert forall a :: a in w.log.direct ==> a in Apply(w, st).log.direct;
  }

  /** In every run the row of a uuid is that of its first item to reach the table, unless one was
      inserted on its own after Shutdown. */
  lemma {:induction false} RowIsFirstToLand(steps: seq<Step>, u: string)
    requires u !in DirectUuids(Run(steps))
    ensures Reaches(Run(steps)) && Lookup(Run(steps).table, u) == FirstOf(Landed(Run(steps)), u)
  {
    if steps == [] {
      assert Landed(Run(steps)) == [];
    } else {
      var n := |steps| - 1;
      EveryRun(steps[..n]);
      DirectGrows(Run(steps[..n]), steps[n]);
      RowIsFirstToLand(steps[..n], u);
      StepLands(Run(steps[..n]), steps[n], u);
    }
  }

  // ---------------------------------------------------------------- which items landed

  /** The i-th item ever enqueued lies past the applied prefix of a finally failed batch. */
  ghost predicate MissedIn(bs: seq<Done>, i: nat) {
    bs != [] &&
      var d, before := bs[|bs| - 1], |Flat(bs[..|bs| - 1])|;
      if i < before then MissedIn(bs[..|bs| - 1], i) else i - before < |d.items| && i - before >= d.applied
  }

  lemma {:induction false} MissedOnlyByFailure(bs: seq<Done>, i: nat)
    requires forall d :: d in bs ==> d.applied <= |d.items| && (d.ok ==> d.applied == |d.items|)
    requires MissedIn(bs, i)
    ensures exists d :: d in bs && !d.ok
  {
    var n := |bs| - 1;
    if i < |Flat(bs[..n])| {
      assert forall d :: d in bs[..n] ==> d in bs;
      MissedOnlyByFailure(bs[..n], i);
    } else {
      assert bs[n] in bs;
    }
  }

  lemma LandedSplits(bs: seq<Done>, u: string)
    requires bs != [] && forall d :: d in bs ==> d.applied <= |d.items|
    ensures var d, front := bs[|bs| - 1], bs[..|bs| - 1];
      && d.applied <= |d.items| && (forall e :: e in front ==> e.applied <= |e.items|)
      && Flat(bs) == Flat(front) + d.items
      && FirstOf(Rows(LandedOf(bs)), u) ==
         (if FirstOf(Rows(LandedOf(front)), u).Some? then FirstOf(Rows(LandedOf(front)), u)
          else FirstOf(Rows(d.items)[..d.applied], u))
  {
    var d, front := bs[|bs| - 1], bs[..|bs| - 1];
    assert d in bs && bs == front + [d];
    LandedSnoc(front, d);
    FirstOfConcat(Rows(LandedOf(front)), Rows(d.items)[..d.applied], u);
  }

  lemma {:induction false} NoneLands(bs: seq<Done>, u: string)
    requires forall d :: d in bs ==> d.applied <= |d.items|
    requires forall j :: 0 <= j < |Flat(bs)| ==> Flat(bs)[j].message.uuid != u
    ensures FirstOf(Rows(LandedOf(bs)), u) == None
  {
    if bs != [] {
      var d, front := bs[|bs| - 1], bs[..|bs| - 1];
      LandedSplits(bs, u);
      assert forall j :: 0 <= j < |Flat(front)| ==> Flat(bs)[j] == Flat(front)[j];
      NoneLands(front, u);
      forall j | 0 <= j < d.applied ensures Rows(d.items)[..d.applied][j].uuid != u {
        assert Flat(bs)[|Flat(front)| + j] == d.items[j];
      }
      NoneOf(Rows(d.items)[..d.applied], u);
    }
  }

  /** If the first item of a uuid was not missed, it is the first to land. */
  lemma {:induction false} FirstLands(bs: seq<Done>, i: nat, u: string)
    requires forall d :: d in bs ==> d.applied <= |d.items|
    requires i < |Flat(bs)| && Flat(bs)[i].message.uuid == u && forall j :: 0 <= j < i ==> Flat(bs)[j].message.uuid != u
    requires !MissedIn(bs, i)
    ensures FirstOf(Rows(LandedOf(bs)), u) == Some(Flat(bs)[i].message)
  {
    var d, front := bs[|bs| - 1], bs[..|bs| - 1];
    var before := |Flat(front)|;
    LandedSplits(bs, u);
    assert forall j :: 0 <= j < before ==> Flat(bs)[j] == Flat(front)[j];
    if i < before {
      FirstLands(front, i, u);
    } else {
      NoneLands(front, u);
      forall j | 0 <= j < i - before ensures Rows(d.items)[..d.applied][j].uuid != u {
        assert Flat(bs)[before + j] == d.items[j];
      }
      FirstAt(Rows(d.items)[..d.applied], i - before, u);
    }
  }

  lemma {:induction false} NoneOf(rs: seq<Row>, u: string)
    requires forall j :: 0 <= j < |rs| ==> rs[j].uuid != u
    ensures FirstOf(rs, u) == None
  {
    if rs != [] { NoneOf(rs[..|rs| - 1], u); }
  }

  lemma FirstAt(rs: seq<Row>, i: nat, u: string)
    requires i < |rs| && rs[i].uuid == u && forall j :: 0 <= j < i ==> rs[j].uuid != u
    ensures FirstOf(rs, u) == Some(rs[i])
  {
    assert rs == rs[..i + 1] + rs[i + 1..] && rs[..i + 1][..i] == rs[..i];
    NoneOf(rs[..i], u);
    FirstOfConcat(rs[..i + 1], rs[i + 1..], u);
  }

  /** Once its flush is over, the first item ever enqueued for a uuid gives the row, whatever
      replays carry, unless it lies past the applied prefix of a finally failed batch. */
  lemma FirstEnqueuedUnlessMissed(steps: seq<Step>, i: nat, u: string)
    requires u !in DirectUuids(Run(steps))
    requires i < |Flat(Run(steps).log.batches)| <= |Run(steps).log.history|
    requires Run(steps).log.history[i].message.uuid == u
    requires forall j :: 0 <= j < i ==> Run(steps).log.history[j].message.uuid != u
    requires !MissedIn(Run(steps).log.batches, i)
    ensures u in Run(steps).table && Run(steps).table[u] == Run(steps).log.history[i].message
  {
    var w := Run(steps);
    EveryRun(steps);
    RowIsFirstToLand(steps, u);
    assert forall j :: 0 <= j < |Flat(w.log.batches)| ==> Flat(w.log.batches)[j] == w.log.history[j];
    FirstLands(w.log.batches, i, u);
    FirstOfConcat(Rows(LandedOf(w.log.batches)), Rows(w.inFlight)[..w.log.reached], u);
  }

  /** With no finally failed flush so far, the row of a uuid is the first one enqueued for it as
      soon as that one's flush is over, whatever is still buffered or in flight. */
  lemma FirstEnqueuedUnlessAFlushFails(steps: seq<Step>, i: nat, u: string)
    requires u !in DirectUuids(Run(steps)) && forall d :: d in Run(steps).log.batches ==> d.ok
    requires i < |Flat(Run(steps).log.batches)| <= |Run(steps).log.history|
    requires Run(steps).log.history[i].message.uuid == u
    requires forall j :: 0 <= j < i ==> Run(steps).log.history[j].message.uuid != u
    ensures u in Run(steps).table && Run(steps).table[u] == Run(steps).log.history[i].message
  {
    RowIsFirstToLand(steps, u);
    if MissedIn(Run(steps).log.batches, i) {
      MissedOnlyByFailure(Run(steps).log.batches, i);
    } else {
      FirstEnqueuedUnlessMissed(steps, i, u);
    }
  }

  lemma {:induction false} AllLanded(bs: seq<Done>)
    requires forall d :: d in bs ==> d.applied == |d.items|
    ensures LandedOf(bs) == Flat(bs)
  {
    if bs != [] {
      assert forall d :: d in bs[..|bs| - 1] ==> d in bs;
      assert bs[|bs| - 1] in bs;
      AllLanded(bs[..|bs| - 1]);
    }
  }

  /** With every flush done and none finally failed, whatever rows the copies carry, the table is
      that of the first occurrence of each uuid, in enqueue order. */
  lemma WithoutFailuresFirstEnqueuedWin(steps: seq<Step>)
    requires var w := Run(steps);
      w.inFlight == [] && w.buffer == [] && w.log.direct == [] && forall d :: d in w.log.batches ==> d.ok
    ensures Run(steps).table == InsertAll(map[], FirstOccurrences(Rows(Run(steps).log.history)))
  {
    var w := Run(steps);
    var rs := Rows(w.log.history);
    EveryRun(steps);
    ReplaysChangeNothing(rs);
    forall u ensures Lookup(w.table, u) == Lookup(InsertAll(map[], rs), u) {
      RowIsFirstToLand(steps, u);
      AllLanded(w.log.batches);
      assert w.log.history == Flat(w.log.batches) && Landed(w) == rs;
      InsertAllLooksUp(map[], rs, u);
    }
    SameLookups(w.table, InsertAll(map[], rs));
  }

  lemma SameLookups(s: Table, t: Table)
    requires forall u :: Lookup(s, u) == Lookup(t, u)
    ensures s == t
  {
    forall u ensures u in s <==> u in t { assert Lookup(s, u) == Lookup(t, u); }
    forall u | u in s ensures s[u] == t[u] { assert Lookup(s, u) == Lookup(t, u); }
  }

  // ---------------------------------------------------------------- replays repair failures

  function Messages(answers: seq<Answer>): seq<Row> {
    seq(|answers|, i requires 0 <= i < |answers| => answers[i].item.message)
  }

  /** Every row Enqueue was ever given. */
  function Given(w: Writer): seq<Row> {
    Rows(w.log.history) + Messages(w.log.direct)
  }

  /** Copies of one uuid agree in what `columns` shows of them: a replay repeats the envelope it
      replays, but the row is stamped anew, and a client may send other content under one id. */
  ghost predicate Agree<T(!new)>(rs: seq<Row>, columns: Row -> T) {
    forall r, q :: r in rs && q in rs && r.uuid == q.uuid ==> columns(r) == columns(q)
  }

  /** Whatever is in the table was given to Enqueue. */
  ghost predicate FromGiven(t: Table, rs: seq<Row>) {
    forall u :: u in t ==> t[u] in rs && t[u].uuid == u
  }

  lemma {:induction false} InsertAllFrom(t: Table, rs: seq<Row>, all: seq<Row>)
    requires FromGiven(t, all) && forall i :: 0 <= i < |rs| ==> rs[i] in all
    ensures FromGiven(InsertAll(t, rs), all)
  {
    if rs != [] { InsertAllFrom(t, rs[..|rs| - 1], all); }
  }

  lemma EnqueueGives(w: Writer, msg: Row, ok: bool)
    ensures forall r :: r in Given(w) ==> r in Given(Enqueue(w, msg, ok))
    ensures msg in Given(Enqueue(w, msg, ok))
  {
    var now, x := Enqueue(w, msg, ok), BatchItem(msg, w.nextDone);
    if w.closed {
      assert Messages(w.log.direct + [Answer(x, ok)]) == Messages(w.log.direct) + [msg];
      assert Given(now) == Given(w) + [msg];
    } else {
      assert Rows(w.log.history + [x]) == Rows(w.log.history) + [msg];
      assert Given(now) == Rows(w.log.history) + [msg] + Messages(w.log.direct);
    }
  }

  lemma OthersGiveNothing(w: Writer, st: Step)
    requires !st.DoEnqueue?
    ensures Given(Apply(w, st)) == Given(w)
  {
  }

  lemma InFlightGiven(w: Writer, i: nat)
    requires Ordered(w) && i < |w.inFlight|
    ensures w.inFlight[i].message in Given(w)
  {
    assert w.log.history[|Flat(w.log.batches)| + i] == w.inFlight[i];
    assert Given(w)[|Flat(w.log.batches)| + i] == w.inFlight[i].message;
  }

  lemma StepFromGiven(w: Writer, st: Step)
    requires Ordered(w) && FromGiven(w.table, Given(w))
    ensures FromGiven(Apply(w, st).table, Given(Apply(w, st)))
  {
    match st
    case DoAttempt(a) =>
      OthersGiveNothing(w, st);
      var rs := Rows(w.inFlight[..Extent(w, a)]);
      forall i | 0 <= i < |rs| ensures rs[i] in Given(w) { InFlightGiven(w, i); }
      InsertAllFrom(w.table, rs, Given(w));
    case DoEnqueue(msg, ok) => EnqueueGives(w, msg, ok);
    case DoBeginFlush => OthersGiveNothing(w, st);
    case DoEndFlush =>
    case DoShutdown =>
  }

  lemma {:induction false} TableIsFromGiven(steps: seq<Step>)
    ensures FromGiven(Run(steps).table, Given(Run(steps)))
  {
    if steps != [] {
      var n := |steps| - 1;
      EveryRun(steps[..n]);
      TableIsFromGiven(steps[..n]);
      StepFromGiven(Run(steps[..n]), steps[n]);
    }
  }

  ghost predicate AnsweredNil(w: Writer, u: string) {
    exists a :: a in w.log.answers && a.ok && a.item.message.uuid == u
  }

  /** Failed flushes, half-applied attempts, replays and inserts after Shutdown in any order: once
      every uuid ever given was answered nil at least once, the table is what inserting each
      uuid's first occurrence once, in order, would leave, in all columns in which the copies of
      a uuid agree. */
  lemma TableHoldsFirstOccurrences<T(!new)>(steps: seq<Step>, columns: Row -> T)
    requires Agree(Given(Run(steps)), columns)
    requires forall r :: r in Given(Run(steps)) ==> AnsweredNil(Run(steps), r.uuid)
    ensures var first := InsertAll(map[], FirstOccurrences(Given(Run(steps))));
      && Run(steps).table.Keys == first.Keys
      && forall u :: u in first ==> columns(Run(steps).table[u]) == columns(first[u])
  {
    var w := Run(steps);
    var rs := Given(w);
    EveryRun(steps);
    TableIsFromGiven(steps);
    ReplaysChangeNothing(rs);
    InsertAllKeeps(map[], rs);
    InsertAllFrom(map[], rs, rs);
    forall u | u in Uuids(rs) ensures u in w.table {
      var r :| r in rs && r.uuid == u;
      assert AnsweredNil(w, r.uuid);
    }
    forall u | u in w.table ensures u in Uuids(rs) { assert w.table[u] in rs; }
  }

  /** A row is never replaced, whatever is enqueued or flushed later. */
  lemma {:induction false} RowsAreNeverReplaced(steps: seq<Step>, more: seq<Step>, uuid: string)
    requires uuid in Run(steps).table
    ensures uuid in Run(steps + more).table && Run(steps + more).table[uuid] == Run(steps).table[uuid]
  {
    if more == [] {
      assert steps + more == steps;
    } else {
      var n := |more| - 1;
      RowsAreNeverReplaced(steps, more[..n], uuid);
      assert (steps + more)[..|steps + more| - 1] == steps + more[..n];
      TableGrows(Run(steps + more[..n]), more[n]);
    }
  }

  // ---------------------------------------------------------------- when a flush gives up

  /** Some attempt from the `from`-th to the last one a flush may make succeeds. */
  ghost predicate SomeWorks(db: nat -> Attempt, from: nat) {
    exists k: nat :: from <= k < MAX_FLUSH_RETRIES && db(k).ok
  }

  /** The attempts so far have left the rows applied up to `reached`. */
  ghost predicate Holding(w: Writer, before: Table) {
    && w.log.reached <= |w.inFlight|
    && w.table == InsertAll(before, Rows(w.inFlight[..w.log.reached]))
  }

  lemma AttemptHolds(w: Writer, a: Attempt, before: Table)
    requires Holding(w, before)
    ensures Holding(Applied(w, a), before)
    ensures a.ok ==> Applied(w, a).log.reached == |w.inFlight|
  {
    var rs := Rows(w.inFlight);
    TwoPrefixes(before, rs, w.log.reached, Extent(w, a));
    assert forall n: nat :: n <= |rs| ==> Rows(w.inFlight[..n]) == rs[..n];
  }

  lemma {:induction false} RetryAnswers(w: Writer, db: nat -> Attempt, before: Table) returns (n: nat)
    requires w.phase.Writing? && w.phase.attempt < MAX_FLUSH_RETRIES && Holding(w, before)
    ensures var r := Retry(w, db);
      && r.phase == Finishing && r.buffer == w.buffer && r.inFlight == []
      && r.log.answers == w.log.answers + Answers(w.inFlight, SomeWorks(db, w.phase.attempt))
      && n <= |w.inFlight| && (SomeWorks(db, w.phase.attempt) ==> n == |w.inFlight|)
      && r.table == InsertAll(before, Rows(w.inFlight[..n]))
    decreases MAX_FLUSH_RETRIES - w.phase.attempt
  {
    var k := w.phase.attempt;
    var t := TryInsert(w, db(k));
    AttemptHolds(w, db(k), before);
    n := Applied(w, db(k)).log.reached;
    assert SomeWorks(db, k) <==> db(k).ok || SomeWorks(db, k + 1);
    if t.phase.Writing? {
      n := RetryAnswers(t, db, before);
    }
  }

  /** A flush that nothing interrupts answers every item of the buffer, and answers nil if and only
      if one of the three attempts works; then all its rows are in, otherwise those of a prefix. */
  lemma FlushAnswersNilIffSomeAttemptWorks(w: Writer, db: nat -> Attempt) returns (n: nat)
    requires w.phase == Idle && w.buffer != []
    ensures var r, works := Flush(w, db), db(0).ok || db(1).ok || db(2).ok;
      && r.phase == Idle && r.buffer == [] && r.inFlight == []
      && r.log.answers == w.log.answers + Answers(w.buffer, works)
      && n <= |w.buffer| && (works ==> n == |w.buffer|)
      && r.table == InsertAll(w.table, Rows(w.buffer[..n]))
  {
    assert w.buffer[..0] == [] && Rows([]) == [];
    n := RetryAnswers(BeginFlush(w), db, w.table);
    assert SomeWorks(db, 0) <==> db(0).ok || db(1).ok || db(2).ok;
  }

  /** The attempts among the steps from `from` on. */
  function AttemptsIn(steps: seq<Step>, from: nat): seq<Attempt>
    requires from <= |steps|
  {
    if from == |steps| then []
    else
      var last := steps[|steps| - 1];
      AttemptsIn(steps[..|steps| - 1], from) + (if last.DoAttempt? then [last.a] else [])
  }

  ghost predicate AllFailed(attempts: seq<Attempt>) {
    forall i :: 0 <= i < |attempts| ==> !attempts[i].ok
  }

  /** The swap at step `begin` took these items into a flush. */
  ghost predicate SwappedAt(steps: seq<Step>, begin: nat, items: seq<BatchItem>) {
    begin < |steps| && steps[begin].DoBeginFlush? && Run(steps[..begin]).phase == Idle && Run(steps[..begin]).buffer == items
  }

  lemma SwapStays(steps: seq<Step>, begin: nat, items: seq<BatchItem>)
    requires steps != [] && SwappedAt(steps[..|steps| - 1], begin, items)
    ensures SwappedAt(steps, begin, items)
  {
    assert steps[..|steps| - 1][..begin] == steps[..begin];
  }

  lemma StartsOrGoesOn(w: Writer, st: Step)
    requires Apply(w, st).phase.Writing?
    ensures if w.phase.Writing? then
        && Apply(w, st).inFlight == w.inFlight && (st.DoAttempt? ==> !st.a.ok)
        && Apply(w, st).phase.attempt == w.phase.attempt + (if st.DoAttempt? then 1 else 0)
      else
        st.DoBeginFlush? && w.phase == Idle && Apply(w, st).inFlight == w.buffer && Apply(w, st).phase.attempt == 0
  {
  }

  /** While a flush is writing, all its attempts since the swap failed, and their number is the
      attempt number. */
  lemma {:induction false} WritingSince(steps: seq<Step>) returns (begin: nat)
    requires Run(steps).phase.Writing?
    ensures SwappedAt(steps, begin, Run(steps).inFlight)
    ensures |AttemptsIn(steps, begin + 1)| == Run(steps).phase.attempt && AllFailed(AttemptsIn(steps, begin + 1))
  {
    var n := |steps| - 1;
    var w := Run(steps[..n]);
    StartsOrGoesOn(w, steps[n]);
    if w.phase.Writing? {
      begin := WritingSince(steps[..n]);
      SwapStays(steps, begin, w.inFlight);
    } else {
      begin := n;
      assert AttemptsIn(steps, n + 1) == [];
    }
  }

  /** The attempts of a flush with this outcome: given up after exactly MAX_FLUSH_RETRIES failed
      ones, answered nil after one that worked. */
  ghost predicate Justifies(tries: seq<Attempt>, ok: bool) {
    && 1 <= |tries| <= MAX_FLUSH_RETRIES && AllFailed(tries[..|tries| - 1]) && tries[|tries| - 1].ok == ok
    && (!ok ==> |tries| == MAX_FLUSH_RETRIES)
  }

  lemma BatchesStay(w: Writer, st: Step)
    ensures w.log.batches <= Apply(w, st).log.batches
  {
  }

  lemma EndsNow(w: Writer, st: Step)
    requires |Apply(w, st).log.batches| > |w.log.batches|
    ensures st.DoAttempt? && w.phase.Writing? && |Apply(w, st).log.batches| == |w.log.batches| + 1
    ensures var d := Apply(w, st).log.batches[|w.log.batches|];
      d.items == w.inFlight && d.ok == st.a.ok && (!d.ok ==> w.phase.attempt == MAX_FLUSH_RETRIES - 1)
  {
  }

  /** Every flush that is over took its items at step `begin`, and the attempts since then up to
      step `end`, its last one, justify its outcome. */
  ghost predicate EndedBy(steps: seq<Step>, d: Done, b: nat, begin: nat, end: nat) {
    && begin < end < |steps| && SwappedAt(steps, begin, d.items)
    && |Run(steps[..end]).log.batches| == b && |Run(steps[..end + 1]).log.batches| == b + 1
    && Justifies(AttemptsIn(steps[..end + 1], begin + 1), d.ok)
  }

  lemma EndedStays(steps: seq<Step>, d: Done, b: nat, begin: nat, end: nat)
    requires steps != [] && EndedBy(steps[..|steps| - 1], d, b, begin, end)
    ensures EndedBy(steps, d, b, begin, end)
  {
    var n := |steps| - 1;
    SwapStays(steps, begin, d.items);
    assert steps[..n][..end] == steps[..end] && steps[..n][..end + 1] == steps[..end + 1];
  }

  lemma EndsWithLast(steps: seq<Step>, b: nat) returns (begin: nat)
    requires steps != [] && |Run(steps[..|steps| - 1]).log.batches| == b < |Run(steps).log.batches|
    ensures EndedBy(steps, Run(steps).log.batches[b], b, begin, |steps| - 1)
  {
    var n := |steps| - 1;
    var w := Run(steps[..n]);
    EveryRun(steps[..n]);
    EndsNow(w, steps[n]);
    begin := WritingSince(steps[..n]);
    SwapStays(steps, begin, w.inFlight);
    assert steps[..n + 1] == steps;
    var before, tries := AttemptsIn(steps[..n], begin + 1), AttemptsIn(steps, begin + 1);
    assert tries == before + [steps[n].a] && tries[..|tries| - 1] == before;
  }

  lemma {:induction false} BatchEndedBy(steps: seq<Step>, b: nat) returns (begin: nat, end: nat)
    requires b < |Run(steps).log.batches|
    ensures EndedBy(steps, Run(steps).log.batches[b], b, begin, end)
  {
    var n := |steps| - 1;
    var w := Run(steps[..n]);
    BatchesStay(w, steps[n]);
    if b < |w.log.batches| {
      begin, end := BatchEndedBy(steps[..n], b);
      EndedStays(steps, w.log.batches[b], b, begin, end);
    } else {
      EndsNow(w, steps[n]);
      end := n;
      begin := EndsWithLast(steps, b);
    }
  }

  // ---------------------------------------------------------------- shutdown

  /** Shutdown's final flush empties the buffer if and only if no flush was running or there
      was nothing to write; otherwise it leaves the buffer as it was. */
  lemma ShutdownDrainsIffNoFlushRuns(w: Writer, db: nat -> Attempt)
    ensures var r := Flush(Close(w), db);
      && (r.buffer == [] <==> w.phase == Idle || w.buffer == [])
      && (r.buffer != [] ==> r.buffer == w.buffer)
  {
    if w.phase == Idle && w.buffer != [] {
      var n := FlushAnswersNilIffSomeAttemptWorks(Close(w), db);
    }
  }

  lemma ClosedBuffersNothing(w: Writer, st: Step)
    requires w.closed
    ensures Apply(w, st).closed && Apply(w, st).log.history == w.log.history
    ensures st.DoEnqueue? ==>
      Apply(w, st).log.answers == w.log.answers + [Answer(BatchItem(st.msg, w.nextDone), st.ok)]
      && (st.ok ==> st.msg.uuid in Apply(w, st).table)
  {
  }

  /** Once something was written through the buffer, Shutdown ends that for good: whatever is enqueued
      later is inserted on its own and answered at once. */
  lemma {:induction false} AfterShutdownNothingIsBuffered(steps: seq<Step>, more: seq<Step>)
    requires Run(steps).log.history != []
    ensures Run(steps + [DoShutdown] + more).closed
    ensures Run(steps + [DoShutdown] + more).log.history == Run(steps).log.history
  {
    var all := steps + [DoShutdown] + more;
    ClosedIffShutDownInUse(steps);
    if more == [] {
      assert all == steps + [DoShutdown] && all[..|steps|] == steps;
    } else {
      var n := |more| - 1;
      AfterShutdownNothingIsBuffered(steps, more[..n]);
      assert all[..|all| - 1] == steps + [DoShutdown] + more[..n];
      ClosedBuffersNothing(Run(steps + [DoShutdown] + more[..n]), more[n]);
    }
  }

  /** Shutdown was called at a time when something had been written through the buffer. */
  ghost predicate ShutDownInUse(steps: seq<Step>) {
    steps != [] &&
      var front := steps[..|steps| - 1];
      ShutDownInUse(front) || (steps[|steps| - 1].DoShutdown? && Run(front).log.history != [])
  }

  lemma StepCloses(w: Writer, st: Step)
    requires w.started <==> w.log.history != []
    ensures Apply(w, st).started <==> Apply(w, st).log.history != []
    ensures Apply(w, st).closed <==> w.closed || (st.DoShutdown? && w.log.history != [])
  {
  }

  lemma {:induction false} ClosedIffShutDownInUse(steps: seq<Step>)
    ensures Run(steps).closed <==> ShutDownInUse(steps)
    ensures Run(steps).started <==> Run(steps).log.history != []
  {
    if steps != [] {
      var n := |steps| - 1;
      ClosedIffShutDownInUse(steps[..n]);
      StepCloses(Run(steps[..n]), steps[n]);
    }
  }
}
