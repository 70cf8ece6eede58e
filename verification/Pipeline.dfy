/**
 The whole path of an envelope as a step relation: concurrent producers in processLocal,
 the Transmit channel, the Kafka topic with redelivery, the consumer loop with its waiters,
 and one worker per session (hybrid_router.go and session_router.go).

 One step is one atomic section of the source: a lock, an atomic counter, a channel
 operation, a broker call, or one attempt of the processor with its answer. A run is any sequence of steps; a step that is not enabled
 changes nothing, so "for every sequence of steps" is "for every interleaving".
*/
module Pipeline {
  import opened Wrappers
  import opened SessionQueues
  import opened SessionOrder
  import opened Routing

  /** How many records the consumer fetches for one batch. */
  const FETCH_LIMIT := 200

  datatype Config = Config(
    kafkaEnabled: bool, capacity: nat, dlqEnabled: bool, maxAttempts: nat,
    processor: Sid -> Processor)

  /** A call of processLocal that has no number yet: it is in getOrCreateSessionSeq, or holds
      the session's counter and is about to add to it. */
  datatype Caller =
    | Looking(sid: Sid, msgID: string, payload: string)             // before the read lock
    | Creating(sid: Sid, msgID: string, payload: string)            // saw no counter; before the write lock
    | Adding(sid: Sid, msgID: string, payload: string, cell: nat)   // before the atomic Add

  /** An atomic counter, and the session it was made for. */
  datatype Cell = Cell(owner: Sid, count: nat)

  /** sessionSeqNums holds pointers to counters: `cellOf` is the map, `cells` the memory. */
  datatype Counters = Counters(callers: map<nat, Caller>, cellOf: map<Sid, nat>, cells: seq<Cell>)

  /** Where a goroutine stands between two atomic sections. */
  datatype Pc =
    | Numbered(m: Msg)                    // counter bumped, envelope built
    | MarkFirst(m: Msg)                   // overflow: about to set the sticky mark
    | Write(m: Msg, wasSticky: bool)      // about to write to Kafka
    | TryChannel(m: Msg)                  // sendToChannel
    | OverflowWrite(m: Msg)               // sendEnvelopeToKafka: about to write
    | MarkAfter(m: Msg)                   // sendEnvelopeToKafka: about to set the sticky mark

  /** HybridRouter: counters, running calls, sticky marks and the two routes. */
  datatype Front = Front(
    counters: Counters,
    numbered: map<Sid, seq<Envelope>>,    // history: the envelopes of each session, in the order of the Adds
    threads: map<nat, Pc>,                // goroutine 0 is the Transmit loop of Start
    sticky: set<Sid>,
    channel: seq<Msg>,
    log: seq<Msg>,
    events: seq<Event>)

  /** SessionRouter: the queues and their workers. */
  datatype Back = Back(
    queues: map<Sid, seq<Item>>,
    arrived: map<Sid, seq<Item>>,         // what each worker has taken from its queue so far
    workers: map<Sid, Queue>,
    busy: map<Sid, Item>,                 // the item a worker stands before, inside processEnvelope
    nextDone: nat)

  datatype Phase =
    | Fetching
    | Enqueuing(dones: seq<nat>)
    | Waiting(dones: seq<nat>, acked: nat)
    | Failed
    | Accepted

  /** consumeKafkaMessages: the current batch and what the loop has settled. */
  datatype Consumer = Consumer(
    batch: seq<Msg>, phase: Phase, attempts: nat,
    committed: seq<Msg>,                  // everything ever passed to CommitMessages
    dead: seq<Msg>)                       // everything SendToDLQ accepted

  datatype Sys = Sys(front: Front, back: Back, consumer: Consumer)

  function Init(): Sys {
    Sys(Front(Counters(map[], map[], []), map[], map[], {}, [], [], []), Back(map[], map[], map[], map[], 0), Consumer([], Fetching, 0, [], []))
  }

  /** A goroutine in processLocal, sendToChannel or sendEnvelopeToKafka. */
  datatype Action =
    | Start(sid: Sid, msgID: string, payload: string)
    | Number
    | Route(overflow: bool)
    | Mark
    | KafkaWrite(res: WriteResult)
    | SendToChannel

  /** The goroutine of consumeKafkaMessages. */
  datatype ConsumerOp =
    | Fetch(i: nat)
    | Submit
    | Enqueue(ok: bool)
    | Await(timeout: bool)
    | Settle(dlqOk: bool)
    | RecoverPanic

  datatype Step =
    | Producer(tid: nat, act: Action)
    | Consume(op: ConsumerOp)
    | Dispatch(ok: bool)
    | Take(sid: Sid)
    | Attempt(sid: Sid)
    | Clear
    | Sweep(sids: set<Sid>)

  function At<T>(m: map<Sid, seq<T>>, sid: Sid): seq<T> {
    if sid in m then m[sid] else []
  }

  function Worker(b: Back, sid: Sid): Queue {
    if sid in b.workers then b.workers[sid] else NewQueue()
  }

  // ---------------------------------------------------------------- producers

  function DoStart(f: Front, tid: nat, sid: Sid, msgID: string, payload: string): Front {
    var k := f.counters;
    if tid == 0 || tid in f.threads || tid in k.callers then f
    else f.(counters := k.(callers := k.callers[tid := Looking(sid, msgID, payload)]))
  }

  function Found(k: Counters, tid: nat, who: Caller, cell: nat): Counters {
    k.(callers := k.callers[tid := Adding(who.sid, who.msgID, who.payload, cell)])
  }

  /** The lookup under the read lock. */
  function Look(k: Counters, tid: nat, who: Caller): Counters {
    if who.sid in k.cellOf then Found(k, tid, who, k.cellOf[who.sid])
    else k.(callers := k.callers[tid := Creating(who.sid, who.msgID, who.payload)])
  }

  /** Under the write lock: look again, and create the counter only if it is still missing. */
  function Create(k: Counters, tid: nat, who: Caller): Counters {
    if who.sid in k.cellOf then Found(k, tid, who, k.cellOf[who.sid])
    else Found(k, tid, who, |k.cells|).(cells := k.cells + [Cell(who.sid, 0)], cellOf := k.cellOf[who.sid := |k.cells|])
  }

  /** Add(1) on the counter, and the envelope with the number it returns. */
  function Add(f: Front, tid: nat, who: Caller): Front
    requires who.Adding? && who.cell < |f.counters.cells|
  {
    var k := f.counters;
    var env := Envelope(k.cells[who.cell].count + 1, who.msgID, who.payload);
    f.(counters := Counters(k.callers - {tid}, k.cellOf, k.cells[who.cell := Cell(k.cells[who.cell].owner, k.cells[who.cell].count + 1)]),
       numbered := f.numbered[who.sid := At(f.numbered, who.sid) + [env]],
       threads := f.threads[tid := Numbered(Msg(who.sid, env))])
  }

  /** The next atomic section of a call without a number. */
  function DoNumber(f: Front, tid: nat): Front {
    var k := f.counters;
    if tid !in k.callers then f
    else
      var who := k.callers[tid];
      match who
      case Looking(_, _, _) => f.(counters := Look(k, tid, who))
      case Creating(_, _, _) => f.(counters := Create(k, tid, who))
      case Adding(_, _, _, cell) => if cell < |k.cells| then Add(f, tid, who) else f
  }

  function RoutePc(c: Config, m: Msg, isRouted: bool, overflow: bool): Pc {
    if (isRouted || overflow) && c.kafkaEnabled then
      if isRouted then Write(m, true) else MarkFirst(m)
    else TryChannel(m)
  }

  function Append(f: Front, m: Msg, res: WriteResult): Front {
    f.(log := if res == NotWritten then f.log else f.log + [m],
       events := if res == Written then f.events + [Wrote(m)] else f.events)
  }

  function Goto(f: Front, tid: nat, pc: Pc): Front {
    f.(threads := f.threads[tid := pc])
  }

  function Return(f: Front, tid: nat): Front {
    f.(threads := f.threads - {tid})
  }

  function DoChannel(c: Config, f: Front, tid: nat, m: Msg): Front {
    if |f.channel| < c.capacity then
      Return(f, tid).(channel := f.channel + [m], events := f.events + [Put(m)])
    else if c.kafkaEnabled then Goto(f, tid, OverflowWrite(m))
    else Return(f, tid)
  }

  /** The next atomic section of a goroutine that stands at `pc`. */
  function Continue(c: Config, f: Front, tid: nat, pc: Pc, act: Action): Front {
    match (pc, act)
    case (Numbered(m), Route(overflow)) => Goto(f, tid, RoutePc(c, m, m.sid in f.sticky, overflow))
    case (MarkFirst(m), Mark) => Goto(f, tid, Write(m, false)).(sticky := f.sticky + {m.sid})
    case (Write(m, wasSticky), KafkaWrite(res)) =>
      if res == Written || wasSticky then Return(Append(f, m, res), tid)
      else Goto(Append(f, m, res), tid, TryChannel(m))
    case (TryChannel(m), SendToChannel) => DoChannel(c, f, tid, m)
    case (OverflowWrite(m), KafkaWrite(res)) =>
      if res == Written then Goto(Append(f, m, res), tid, MarkAfter(m)) else Return(Append(f, m, res), tid)
    case (MarkAfter(m), Mark) => Return(f, tid).(sticky := f.sticky + {m.sid})
    case _ => f
  }

  function DoProduce(c: Config, f: Front, tid: nat, act: Action): Front {
    if act.Start? then DoStart(f, tid, act.sid, act.msgID, act.payload)
    else if act.Number? then DoNumber(f, tid)
    else if tid in f.threads then Continue(c, f, tid, f.threads[tid], act)
    else f
  }

  // ---------------------------------------------------------------- session queues

  function Offer(b: Back, m: Msg, done: Option<nat>): Back {
    b.(queues := b.queues[m.sid := At(b.queues, m.sid) + [Item(m.env, done)]])
  }

  /** The Transmit loop takes the head of the channel; EnqueueMessage may time out. */
  function DoDispatch(c: Config, s: Sys, ok: bool): Sys {
    var f := s.front;
    if 0 in f.threads || f.channel == [] then s
    else
      var m := f.channel[0];
      var g := f.(channel := f.channel[1..]);
      if ok then s.(front := g, back := Offer(s.back, m, None))
      else if c.kafkaEnabled then s.(front := Goto(g, 0, OverflowWrite(m)))
      else s.(front := g)
  }

  /** The worker takes the head of its queue and compares its number under the lock: too early
      is buffered, too late is answered, the expected one it turns to. */
  function DoTake(b: Back, sid: Sid): Back {
    var q, w := At(b.queues, sid), Worker(b, sid);
    if sid in b.busy || q == [] then b
    else
      var it := q[0];
      var t := b.(queues := b.queues[sid := q[1..]], arrived := b.arrived[sid := At(b.arrived, sid) + [it]]);
      if it.env.seqNum > w.next then t.(workers := b.workers[sid := Stash(w, it)])
      else if it.env.seqNum < w.next then t.(workers := b.workers[sid := Discard(w, it)])
      else t.(busy := b.busy[sid := it])
  }

  /** The attempt at the current item ends with `o`: its answer is sent, and on success the next
      buffered item is current. Between the two no other goroutine can tell how far it is. */
  function Attempted(b: Back, sid: Sid, o: Outcome): Back {
    if sid !in b.busy then b
    else
      var (w, next) := Turn(Worker(b, sid), b.busy[sid], o);
      b.(workers := b.workers[sid := w], busy := if next.Some? then b.busy[sid := next.value] else b.busy - {sid})
  }

  function DoAttempt(c: Config, b: Back, sid: Sid): Back {
    if sid !in b.busy then b
    else Attempted(b, sid, c.processor(sid)(b.busy[sid], Worker(b, sid).attempts))
  }

  // ---------------------------------------------------------------- consumer

  /** EnqueueMessagesAndWait, first loop: one fresh result channel per message. */
  function DoEnqueue(s: Sys, ok: bool): Sys {
    var k := s.consumer;
    if !k.phase.Enqueuing? then s
    else
      var dones := k.phase.dones;
      if |dones| >= |k.batch| then s.(consumer := k.(phase := Waiting(dones, 0)))
      else if !ok then s.(consumer := k.(phase := Failed))
      else
        s.(back := Offer(s.back, k.batch[|dones|], Some(s.back.nextDone)).(nextDone := s.back.nextDone + 1),
           consumer := k.(phase := Enqueuing(dones + [s.back.nextDone])))
  }

  /** EnqueueMessagesAndWait, second loop: wait on the result channels in batch order. When an
      answer and the end of the context are both there, select may take either. */
  function DoAwait(b: Back, k: Consumer, timeout: bool): Consumer {
    if !k.phase.Waiting? then k
    else
      var dones, j := k.phase.dones, k.phase.acked;
      if j >= |k.batch| || j >= |dones| then k.(phase := Accepted)
      else
        var fs := Worker(b, k.batch[j].sid).finished;
        var mine := Item(k.batch[j].env, Some(dones[j]));
        if timeout then k.(phase := Failed)
        else if Finished(mine, true) in fs then k.(phase := Waiting(dones, j + 1))
        else if Finished(mine, false) in fs then k.(phase := Failed)
        else k
  }

  function DoSettle(c: Config, k: Consumer, dlqOk: bool): Consumer {
    match k.phase
    case Accepted => Consumer([], Fetching, 0, k.committed + k.batch, k.dead)
    case Failed =>
      if !c.dlqEnabled || k.attempts + 1 < c.maxAttempts || !dlqOk then
        k.(batch := [], phase := Fetching, attempts := k.attempts + 1)
      else
        Consumer([], Fetching, 0, k.committed + k.batch, k.dead + k.batch)
    case _ => k
  }

  function DoConsume(c: Config, s: Sys, op: ConsumerOp): Sys {
    var k := s.consumer;
    match op
    case Fetch(i) =>
      if k.phase == Fetching && |k.batch| < FETCH_LIMIT && i < |s.front.log|
      then s.(consumer := k.(batch := k.batch + [s.front.log[i]])) else s
    case Submit => if k.phase == Fetching && k.batch != [] then s.(consumer := k.(phase := Enqueuing([]))) else s
    case Enqueue(ok) => DoEnqueue(s, ok)
    case Await(timeout) => s.(consumer := DoAwait(s.back, k, timeout))
    case Settle(dlqOk) => s.(consumer := DoSettle(c, k, dlqOk))
    case RecoverPanic => s.(consumer := k.(batch := [], phase := Fetching, attempts := 0))
  }

  function Apply(c: Config, s: Sys, st: Step): Sys {
    match st
    case Producer(tid, act) => s.(front := DoProduce(c, s.front, tid, act))
    case Consume(op) => DoConsume(c, s, op)
    case Dispatch(ok) => DoDispatch(c, s, ok)
    case Take(sid) => s.(back := DoTake(s.back, sid))
    case Attempt(sid) => s.(back := DoAttempt(c, s.back, sid))
    case Clear => s.(front := s.front.(sticky := {}, events := s.front.events + [Cleared]))
    case Sweep(sids) => s.(front := s.front.(sticky := s.front.sticky - sids, events := s.front.events + [Swept(sids)]))
  }

  function Run(c: Config, steps: seq<Step>): Sys {
    if steps == [] then Init() else Apply(c, Run(c, steps[..|steps| - 1]), steps[|steps| - 1])
  }

  // ---------------------------------------------------------------- where copies are

  function EnvsOf(items: seq<Item>): set<Envelope> {
    set it | it in items :: it.env
  }

  ghost predicate InThreads(f: Front, m: Msg) {
    exists tid :: tid in f.threads && f.threads[tid].m == m
  }

  ghost predicate InFront(f: Front, m: Msg) {
    InThreads(f, m) || m in f.channel || m in f.log
  }

  ghost predicate InBack(b: Back, m: Msg) {
    m.env in EnvsOf(At(b.queues, m.sid)) || m.env in EnvsOf(At(b.arrived, m.sid))
  }

  /** Some copy of the message is still somewhere in the system, or reached its worker. */
  ghost predicate Present(s: Sys, m: Msg) {
    InFront(s.front, m) || InBack(s.back, m) || m in s.consumer.batch
  }

  ghost predicate Genuine(f: Front, m: Msg) {
    var n := At(f.numbered, m.sid);
    1 <= m.env.seqNum <= |n| && n[m.env.seqNum - 1] == m.env
  }

  /** A session has one counter, made once and never replaced, that holds how many numbers it
      has given out. */
  ghost predicate CellCounts(k: Counters, numbered: map<Sid, seq<Envelope>>, sid: Sid) {
    if sid in k.cellOf then k.cellOf[sid] < |k.cells| && k.cells[k.cellOf[sid]] == Cell(sid, |At(numbered, sid)|)
    else At(numbered, sid) == []
  }

  /** Whoever is about to add holds the counter of its session. */
  ghost predicate HoldsItsCell(k: Counters, who: Caller) {
    who.Adding? ==> who.sid in k.cellOf && who.cell == k.cellOf[who.sid]
  }

  ghost predicate CellsCount(k: Counters, numbered: map<Sid, seq<Envelope>>) {
    && (forall sid :: CellCounts(k, numbered, sid))
    && (forall tid :: tid in k.callers ==> HoldsItsCell(k, k.callers[tid]))
  }

  lemma NumberKeepsCell(f: Front, tid: nat, sid: Sid)
    requires CellsCount(f.counters, f.numbered)
    ensures CellCounts(DoNumber(f, tid).counters, DoNumber(f, tid).numbered, sid)
  {
    assert CellCounts(f.counters, f.numbered, sid);
    if tid in f.counters.callers {
      assert CellCounts(f.counters, f.numbered, f.counters.callers[tid].sid);
    }
  }

  lemma NumberKeepsHold(f: Front, tid: nat, t: nat)
    requires CellsCount(f.counters, f.numbered) && t in DoNumber(f, tid).counters.callers
    ensures HoldsItsCell(DoNumber(f, tid).counters, DoNumber(f, tid).counters.callers[t])
  {
    assert HoldsItsCell(f.counters, f.counters.callers[t]);
  }

  lemma NumberKeepsCells(f: Front, tid: nat)
    requires CellsCount(f.counters, f.numbered)
    ensures CellsCount(DoNumber(f, tid).counters, DoNumber(f, tid).numbered)
  {
    forall sid ensures CellCounts(DoNumber(f, tid).counters, DoNumber(f, tid).numbered, sid) {
      NumberKeepsCell(f, tid, sid);
    }
    forall t | t in DoNumber(f, tid).counters.callers
      ensures HoldsItsCell(DoNumber(f, tid).counters, DoNumber(f, tid).counters.callers[t])
    {
      NumberKeepsHold(f, tid, t);
    }
  }

  lemma StartKeepsCells(f: Front, tid: nat, sid: Sid, msgID: string, payload: string)
    requires CellsCount(f.counters, f.numbered)
    ensures CellsCount(DoStart(f, tid, sid, msgID, payload).counters, DoStart(f, tid, sid, msgID, payload).numbered)
  {
    var k := DoStart(f, tid, sid, msgID, payload).counters;
    forall t ensures CellCounts(k, f.numbered, t) { assert CellCounts(f.counters, f.numbered, t); }
  }

  lemma OthersLeaveCells(c: Config, s: Sys, st: Step)
    requires !(st.Producer? && (st.act.Start? || st.act.Number?))
    ensures Apply(c, s, st).front.counters == s.front.counters && Apply(c, s, st).front.numbered == s.front.numbered
  {
  }

  lemma StepKeepsCells(c: Config, s: Sys, st: Step)
    requires CellsCount(s.front.counters, s.front.numbered)
    ensures CellsCount(Apply(c, s, st).front.counters, Apply(c, s, st).front.numbered)
  {
    if st.Producer? && st.act.Number? {
      NumberKeepsCells(s.front, st.tid);
    } else if st.Producer? && st.act.Start? {
      StartKeepsCells(s.front, st.tid, st.act.sid, st.act.msgID, st.act.payload);
    } else {
      OthersLeaveCells(c, s, st);
    }
  }

  lemma NumberPresent(f: Front, tid: nat, m: Msg)
    requires CellsCount(f.counters, f.numbered) && InFront(DoNumber(f, tid), m)
    ensures InFront(f, m) || (m.env.seqNum == |At(f.numbered, m.sid)| + 1 && Genuine(DoNumber(f, tid), m))
  {
    var r := DoNumber(f, tid);
    if tid in f.counters.callers {
      var who := f.counters.callers[tid];
      assert CellCounts(f.counters, f.numbered, who.sid) && HoldsItsCell(f.counters, who);
    }
    if InThreads(r, m) && !InThreads(f, m) {
      var t :| t in r.threads && r.threads[t].m == m;
      assert t == tid;
    }
  }

  lemma ContinuePresent(c: Config, f: Front, tid: nat, act: Action, m: Msg)
    requires tid in f.threads && InFront(Continue(c, f, tid, f.threads[tid], act), m)
    ensures InFront(f, m)
  {
  }

  lemma DispatchPresent(c: Config, s: Sys, ok: bool, m: Msg)
    requires Present(DoDispatch(c, s, ok), m)
    ensures Present(s, m)
  {
  }

  lemma TakePresent(b: Back, sid: Sid, m: Msg)
    requires InBack(DoTake(b, sid), m)
    ensures InBack(b, m)
  {
  }

  lemma ConsumePresent(c: Config, s: Sys, op: ConsumerOp, m: Msg)
    requires Present(DoConsume(c, s, op), m)
    ensures Present(s, m)
  {
  }

  /** Apart from the session counter, no step invents a message. */
  lemma StepPresent(c: Config, s: Sys, st: Step, m: Msg)
    requires CellsCount(s.front.counters, s.front.numbered) && Present(Apply(c, s, st), m)
    ensures Present(s, m)
         || (st.Producer? && st.act.Number? && m.env.seqNum == |At(s.front.numbered, m.sid)| + 1
             && Genuine(Apply(c, s, st).front, m))
  {
    match st
    case Producer(tid, act) =>
      if InFront(DoProduce(c, s.front, tid, act), m) {
        if act.Number? {
          NumberPresent(s.front, tid, m);
        } else if !act.Start? && tid in s.front.threads {
          ContinuePresent(c, s.front, tid, act, m);
        }
      }
    case Consume(op) => ConsumePresent(c, s, op, m);
    case Dispatch(ok) => DispatchPresent(c, s, ok, m);
    case Take(sid) =>
      if InBack(DoTake(s.back, sid), m) {
        TakePresent(s.back, sid, m);
      }
    case _ => assert InThreads(Apply(c, s, st).front, m) == InThreads(s.front, m);
  }
}
