/**
 From a Kafka acknowledgement to a row: message_processor.go (persistMessage) between the
 session workers and the batch writer.

 The pipeline and the batch writer run together. A processor call that stores its message gives
 the writer a row under the envelope's own id; if the item carries a result channel the call
 then waits for its own row's answer. Steps of the pipeline, of the writer (other Enqueue calls
 included) and of the processor calls interleave freely.
*/
module Durability {
  import opened Wrappers
  import opened SessionQueues
  import opened SessionOrder
  import opened Routing
  import opened Pipeline
  import opened PipelineRuns
  import S = Stickiness
  import W = MessageBatch

  /** `storing` is the row a worker's current call gave to the writer; `made` is the history of
      each worker's attempts. */
  datatype Joint = Joint(sys: Sys, writer: W.Writer, storing: map<Sid, W.BatchItem>, made: map<Sid, seq<Outcome>>)

  /** How a processor call comes to its end: it gets through; it returns an error before, instead
      of or after storing, the end of the context included; it panics. */
  datatype Ending = Through | Error | Crash

  datatype Move =
    | Flow(st: Step)                                  // any step of the pipeline but an attempt
    | Store(sid: Sid, content: string, ok: bool)      // persistMessage: Enqueue
    | Conclude(sid: Sid, e: Ending)
    | Batch(ws: W.Step)

  function Begin(): Joint {
    Joint(Init(), W.NewWriter(), map[], map[])
  }

  function Received(w: W.Writer, x: W.BatchItem): Option<bool> {
    if W.Answer(x, true) in w.log.answers then Some(true)
    else if W.Answer(x, false) in w.log.answers then Some(false)
    else None
  }

  /** persistMessage: a caller that does not wait never learns the outcome; a waiting one takes
      the answer on its own channel, and has no outcome before it is there. */
  function PersistMessage(wait: bool, received: Option<bool>): Option<Outcome> {
    if !wait then Some(Success)
    else match received
      case None => None
      case Some(ok) => Some(if ok then Success else Failure)
  }

  /** The outcome of the current call, if it can end this way now. */
  function Ends(j: Joint, stored: Envelope -> bool, sid: Sid, e: Ending): Option<Outcome>
    requires sid in j.sys.back.busy
  {
    var it := j.sys.back.busy[sid];
    match e
    case Crash => Some(Panic)
    case Error => Some(Failure)
    case Through =>
      if !stored(it.env) then Some(Success)
      else if sid !in j.storing then None
      else PersistMessage(it.done.Some?, Received(j.writer, j.storing[sid]))
  }

  function StoreRow(j: Joint, stored: Envelope -> bool, sid: Sid, content: string, ok: bool): Joint {
    if sid !in j.sys.back.busy || sid in j.storing || !stored(j.sys.back.busy[sid].env) then j
    else
      var row := W.Row(j.sys.back.busy[sid].env.msgID, content);
      j.(writer := W.Enqueue(j.writer, row, ok), storing := j.storing[sid := W.BatchItem(row, j.writer.nextDone)])
  }

  function Made(j: Joint, sid: Sid): seq<Outcome> {
    if sid in j.made then j.made[sid] else []
  }

  function ConcludeWith(j: Joint, sid: Sid, o: Outcome): Joint {
    Joint(j.sys.(back := Attempted(j.sys.back, sid, o)), j.writer, j.storing - {sid}, j.made[sid := Made(j, sid) + [o]])
  }

  function DoConclude(j: Joint, stored: Envelope -> bool, sid: Sid, e: Ending): Joint {
    if sid !in j.sys.back.busy || Ends(j, stored, sid, e) == None then j
    else ConcludeWith(j, sid, Ends(j, stored, sid, e).value)
  }

  function Act(c: Config, stored: Envelope -> bool, j: Joint, mv: Move): Joint {
    match mv
    case Flow(st) => if st.Attempt? then j else j.(sys := Apply(c, j.sys, st))
    case Store(sid, content, ok) => StoreRow(j, stored, sid, content, ok)
    case Conclude(sid, e) => DoConclude(j, stored, sid, e)
    case Batch(ws) => j.(writer := W.Apply(j.writer, ws))
  }

  /** Every run of both. The processor of `c` is never asked. */
  function Play(c: Config, stored: Envelope -> bool, moves: seq<Move>): Joint {
    if moves == [] then Begin()
    else Act(c, stored, Play(c, stored, moves[..|moves| - 1]), moves[|moves| - 1])
  }

  lemma PlayOne(c: Config, stored: Envelope -> bool, moves: seq<Move>, mv: Move) returns (more: seq<Move>)
    ensures more == moves + [mv] && Play(c, stored, more) == Act(c, stored, Play(c, stored, moves), mv)
  {
    more := moves + [mv];
    assert more[..|moves|] == moves;
  }

  // ---------------------------------------------------------------- a joint run is a run of the pipeline

  /** The processor that answers every attempt as the joint run did. */
  function Record(made: map<Sid, seq<Outcome>>): Sid -> Processor {
    sid => (it, n: nat) => if sid in made && n < |made[sid]| then made[sid][n] else Failure
  }

  ghost predicate Foretells(p: Sid -> Processor, j: Joint) {
    forall sid :: ForetellsOne(p, j, sid)
  }

  ghost predicate ForetellsOne(p: Sid -> Processor, j: Joint, sid: Sid) {
    forall it, n: nat :: n < |Made(j, sid)| ==> p(sid)(it, n) == Made(j, sid)[n]
  }

  ghost predicate CountsAttempts(j: Joint) {
    forall sid :: Worker(j.sys.back, sid).attempts == |Made(j, sid)|
  }

  lemma ActExtendsMade(c: Config, stored: Envelope -> bool, j: Joint, mv: Move, sid: Sid)
    ensures Made(j, sid) <= Made(Act(c, stored, j, mv), sid)
  {
  }

  lemma ForetoldBefore(c: Config, stored: Envelope -> bool, j: Joint, mv: Move, p: Sid -> Processor)
    requires Foretells(p, Act(c, stored, j, mv))
    ensures Foretells(p, j)
  {
    forall sid ensures ForetellsOne(p, j, sid) {
      ActExtendsMade(c, stored, j, mv, sid);
      assert ForetellsOne(p, Act(c, stored, j, mv), sid);
    }
  }

  lemma FlowIgnoresProcessor(c: Config, p: Sid -> Processor, s: Sys, st: Step)
    requires !st.Attempt?
    ensures Apply(c, s, st) == Apply(c.(processor := p), s, st)
  {
  }

  lemma FlowKeepsAttempts(c: Config, s: Sys, st: Step, sid: Sid)
    requires !st.Attempt?
    ensures Worker(Apply(c, s, st).back, sid).attempts == Worker(s.back, sid).attempts
  {
  }

  lemma AttemptedCounts(b: Back, sid: Sid, o: Outcome, t: Sid)
    requires sid in b.busy
    ensures Worker(Attempted(b, sid, o), t).attempts == Worker(b, t).attempts + (if t == sid then 1 else 0)
  {
  }

  lemma ActCountsAttempts(c: Config, stored: Envelope -> bool, j: Joint, mv: Move)
    requires CountsAttempts(j)
    ensures CountsAttempts(Act(c, stored, j, mv))
  {
    var r := Act(c, stored, j, mv);
    forall t ensures Worker(r.sys.back, t).attempts == |Made(r, t)| {
      match mv
      case Flow(st) => if !st.Attempt? { FlowKeepsAttempts(c, j.sys, st, t); }
      case Conclude(sid, e) =>
        if sid in j.sys.back.busy && Ends(j, stored, sid, e).Some? {
          AttemptedCounts(j.sys.back, sid, Ends(j, stored, sid, e).value, t);
        }
      case _ =>
    }
  }

  /** What the move is for the pipeline alone. */
  lemma MoveIsAStep(c: Config, stored: Envelope -> bool, j: Joint, mv: Move, p: Sid -> Processor, steps: seq<Step>)
    returns (more: seq<Step>)
    requires CountsAttempts(j) && Foretells(p, Act(c, stored, j, mv))
    requires Run(c.(processor := p), steps) == j.sys
    ensures Run(c.(processor := p), more) == Act(c, stored, j, mv).sys
  {
    more := steps;
    match mv
    case Flow(st) =>
      if !st.Attempt? {
        FlowIgnoresProcessor(c, p, j.sys, st);
        more := RunOne(c.(processor := p), steps, st);
      }
    case Conclude(sid, e) =>
      if sid in j.sys.back.busy && Ends(j, stored, sid, e).Some? {
        ConcludeIsAnAttempt(c, j, sid, Ends(j, stored, sid, e).value, p);
        more := RunOne(c.(processor := p), steps, Attempt(sid));
      }
    case _ =>
  }

  lemma ConcludeIsAnAttempt(c: Config, j: Joint, sid: Sid, o: Outcome, p: Sid -> Processor)
    requires sid in j.sys.back.busy && CountsAttempts(j) && Foretells(p, ConcludeWith(j, sid, o))
    ensures Apply(c.(processor := p), j.sys, Attempt(sid)) == ConcludeWith(j, sid, o).sys
  {
    assert ForetellsOne(p, ConcludeWith(j, sid, o), sid);
    assert Made(ConcludeWith(j, sid, o), sid)[|Made(j, sid)|] == o;
  }

  lemma {:induction false} PlayIsForetold(c: Config, stored: Envelope -> bool, moves: seq<Move>, p: Sid -> Processor)
    returns (steps: seq<Step>)
    requires Foretells(p, Play(c, stored, moves))
    ensures Run(c.(processor := p), steps) == Play(c, stored, moves).sys
    ensures CountsAttempts(Play(c, stored, moves))
  {
    steps := [];
    if moves != [] {
      var n := |moves| - 1;
      ForetoldBefore(c, stored, Play(c, stored, moves[..n]), moves[n], p);
      steps := PlayIsForetold(c, stored, moves[..n], p);
      steps := MoveIsAStep(c, stored, Play(c, stored, moves[..n]), moves[n], p, steps);
      ActCountsAttempts(c, stored, Play(c, stored, moves[..n]), moves[n]);
    }
  }

  /** A joint run is, for the pipeline, a run with the processor it records: what holds of every
      run of the pipeline holds of every joint run. */
  lemma JointIsARun(c: Config, stored: Envelope -> bool, moves: seq<Move>) returns (steps: seq<Step>)
    ensures var j := Play(c, stored, moves); Run(c.(processor := Record(j.made)), steps) == j.sys
  {
    var j := Play(c, stored, moves);
    forall sid ensures ForetellsOne(Record(j.made), j, sid) {
    }
    steps := PlayIsForetold(c, stored, moves, Record(j.made));
  }

  // ---------------------------------------------------------------- what a success stands on

  ghost predicate GivenTo(w: W.Writer, uuid: string) {
    exists r :: r in W.Given(w) && r.uuid == uuid
  }

  ghost predicate Kept(w: W.Writer, it: Item) {
    GivenTo(w, it.env.msgID) && (it.done.Some? ==> W.AnsweredNil(w, it.env.msgID))
  }

  /** What each worker has processed, as far as it is stored, the writer was given, and answered
      nil if the item carried a channel. */
  ghost predicate Backed(b: Back, w: W.Writer, stored: Envelope -> bool, sid: Sid) {
    forall it :: it in Worker(b, sid).processed && stored(it.env) ==> Kept(w, it)
  }

  /** A call under way gave the writer a row under its own envelope's id. */
  ghost predicate OwnRow(j: Joint, sid: Sid) {
    sid in j.storing ==>
      && sid in j.sys.back.busy && j.storing[sid].message.uuid == j.sys.back.busy[sid].env.msgID
      && GivenTo(j.writer, j.storing[sid].message.uuid)
  }

  ghost predicate JointInv(j: Joint, stored: Envelope -> bool) {
    forall sid :: Backed(j.sys.back, j.writer, stored, sid) && OwnRow(j, sid)
  }

  lemma AnswersExtend(w: W.Writer, st: W.Step)
    ensures w.log.answers <= W.Apply(w, st).log.answers
  {
  }

  lemma WriterRemembers(w: W.Writer, st: W.Step, u: string)
    ensures GivenTo(w, u) ==> GivenTo(W.Apply(w, st), u)
    ensures W.AnsweredNil(w, u) ==> W.AnsweredNil(W.Apply(w, st), u)
  {
    AnswersExtend(w, st);
    if st.DoEnqueue? { W.EnqueueGives(w, st.msg, st.ok); } else { W.OthersGiveNothing(w, st); }
  }

  lemma WriteKeepsJoint(j: Joint, stored: Envelope -> bool, st: W.Step)
    requires JointInv(j, stored)
    ensures JointInv(j.(writer := W.Apply(j.writer, st)), stored)
  {
    var r := j.(writer := W.Apply(j.writer, st));
    forall sid ensures Backed(r.sys.back, r.writer, stored, sid) && OwnRow(r, sid) {
      assert Backed(j.sys.back, j.writer, stored, sid) && OwnRow(j, sid);
      forall it | it in Worker(j.sys.back, sid).processed && stored(it.env) ensures Kept(r.writer, it) {
        WriterRemembers(j.writer, st, it.env.msgID);
      }
      if sid in j.storing { WriterRemembers(j.writer, st, j.storing[sid].message.uuid); }
    }
  }

  lemma StoreKeepsJoint(j: Joint, stored: Envelope -> bool, sid: Sid, content: string, ok: bool)
    requires JointInv(j, stored)
    ensures JointInv(StoreRow(j, stored, sid, content, ok), stored)
  {
    var r := StoreRow(j, stored, sid, content, ok);
    if r != j {
      var row := W.Row(j.sys.back.busy[sid].env.msgID, content);
      var given := j.(writer := W.Apply(j.writer, W.DoEnqueue(row, ok)));
      WriteKeepsJoint(j, stored, W.DoEnqueue(row, ok));
      W.EnqueueGives(j.writer, row, ok);
      forall t ensures Backed(r.sys.back, r.writer, stored, t) && OwnRow(r, t) {
        assert Backed(given.sys.back, given.writer, stored, t) && OwnRow(given, t);
      }
    }
  }

  lemma FlowLeavesCalls(c: Config, s: Sys, st: Step, sid: Sid)
    requires !st.Attempt?
    ensures var b, r := s.back, Apply(c, s, st).back;
      && Worker(r, sid).processed == Worker(b, sid).processed
      && (sid in b.busy ==> sid in r.busy && r.busy[sid] == b.busy[sid])
  {
  }

  lemma FlowKeepsJoint(c: Config, j: Joint, stored: Envelope -> bool, st: Step)
    requires JointInv(j, stored) && !st.Attempt?
    ensures JointInv(j.(sys := Apply(c, j.sys, st)), stored)
  {
    var r := j.(sys := Apply(c, j.sys, st));
    forall sid ensures Backed(r.sys.back, r.writer, stored, sid) && OwnRow(r, sid) {
      assert Backed(j.sys.back, j.writer, stored, sid) && OwnRow(j, sid);
      FlowLeavesCalls(c, j.sys, st, sid);
    }
  }

  lemma AttemptedProcesses(b: Back, sid: Sid, o: Outcome, t: Sid)
    requires sid in b.busy
    ensures Worker(Attempted(b, sid, o), t).processed
         == Worker(b, t).processed + (if t == sid && o == Success then [b.busy[sid]] else [])
    ensures t != sid && t in b.busy ==> t in Attempted(b, sid, o).busy && Attempted(b, sid, o).busy[t] == b.busy[t]
  {
  }

  lemma SuccessIsKept(j: Joint, stored: Envelope -> bool, sid: Sid, e: Ending)
    requires OwnRow(j, sid) && sid in j.sys.back.busy && stored(j.sys.back.busy[sid].env)
    requires Ends(j, stored, sid, e) == Some(Success)
    ensures Kept(j.writer, j.sys.back.busy[sid])
  {
    if j.sys.back.busy[sid].done.Some? {
      assert W.Answer(j.storing[sid], true) in j.writer.log.answers;
    }
  }

  lemma ConcludeKeepsJoint(j: Joint, stored: Envelope -> bool, sid: Sid, e: Ending)
    requires JointInv(j, stored)
    ensures JointInv(DoConclude(j, stored, sid, e), stored)
  {
    if sid in j.sys.back.busy && Ends(j, stored, sid, e).Some? {
      var o := Ends(j, stored, sid, e).value;
      var r := ConcludeWith(j, sid, o);
      forall t ensures Backed(r.sys.back, r.writer, stored, t) && OwnRow(r, t) {
        assert Backed(j.sys.back, j.writer, stored, t) && OwnRow(j, t);
        AttemptedProcesses(j.sys.back, sid, o, t);
        if t == sid && o == Success && stored(j.sys.back.busy[sid].env) { SuccessIsKept(j, stored, sid, e); }
      }
    }
  }

  lemma {:induction false} EveryPlay(c: Config, stored: Envelope -> bool, moves: seq<Move>)
    ensures JointInv(Play(c, stored, moves), stored)
  {
    if moves != [] {
      var n := |moves| - 1;
      var j := Play(c, stored, moves[..n]);
      EveryPlay(c, stored, moves[..n]);
      match moves[n]
      case Flow(st) => if !st.Attempt? { FlowKeepsJoint(c, j, stored, st); }
      case Store(sid, content, ok) => StoreKeepsJoint(j, stored, sid, content, ok);
      case Conclude(sid, e) => ConcludeKeepsJoint(j, stored, sid, e);
      case Batch(ws) => WriteKeepsJoint(j, stored, ws);
    }
  }

  lemma RunOneWrite(writes: seq<W.Step>, st: W.Step) returns (more: seq<W.Step>)
    ensures W.Run(more) == W.Apply(W.Run(writes), st)
  {
    more := writes + [st];
    assert more[..|writes|] == writes;
  }

  lemma {:induction false} WriterRuns(c: Config, stored: Envelope -> bool, moves: seq<Move>) returns (writes: seq<W.Step>)
    ensures W.Run(writes) == Play(c, stored, moves).writer
  {
    writes := [];
    if moves != [] {
      var n := |moves| - 1;
      var j := Play(c, stored, moves[..n]);
      writes := WriterRuns(c, stored, moves[..n]);
      match moves[n]
      case Flow(_) =>
      case Conclude(_, _) =>
      case Store(sid, content, ok) =>
        if StoreRow(j, stored, sid, content, ok) != j {
          writes := RunOneWrite(writes, W.DoEnqueue(W.Row(j.sys.back.busy[sid].env.msgID, content), ok));
        }
      case Batch(ws) => writes := RunOneWrite(writes, ws);
    }
  }

  /** A copy of that id that carried a channel was processed. */
  ghost predicate WaitedCopy(b: Back, stored: Envelope -> bool, id: string) {
    exists sid, it :: it in Worker(b, sid).processed && stored(it.env) && it.done.Some? && it.env.msgID == id
  }

  lemma WaitedCopyHasItsRow(c: Config, stored: Envelope -> bool, moves: seq<Move>, id: string)
    requires WaitedCopy(Play(c, stored, moves).sys.back, stored, id)
    ensures id in Play(c, stored, moves).writer.table
  {
    var j := Play(c, stored, moves);
    EveryPlay(c, stored, moves);
    var sid, it :| it in Worker(j.sys.back, sid).processed && stored(it.env) && it.done.Some? && it.env.msgID == id;
    assert Backed(j.sys.back, j.writer, stored, sid);
    assert W.AnsweredNil(j.writer, id);
    var writes := WriterRuns(c, stored, moves);
    W.EveryRun(writes);
  }

  // ---------------------------------------------------------------- the exact condition

  ghost predicate Quiet(w: W.Writer) {
    w.phase == W.Idle && w.inFlight == [] && w.buffer == [] && !w.closed && w.log.direct == []
  }

  /** A flush that lands, or is given up after its last retry. */
  function Flushed(w: W.Writer, lands: bool): W.Writer {
    var a := W.Attempt(0, lands);
    var begun := W.BeginFlush(w);
    W.EndFlush(if lands then W.TryInsert(begun, a) else W.TryInsert(W.TryInsert(W.TryInsert(begun, a), a), a))
  }

  lemma FlushedOne(v: W.Writer, row: W.Row, lands: bool)
    requires Quiet(v)
    ensures var x := W.BatchItem(row, v.nextDone);
      var w := Flushed(W.Enqueue(v, row, true), lands);
      && Quiet(w) && w.table == (if lands then W.Insert(v.table, row) else v.table)
      && w.log.answers == v.log.answers + [W.Answer(x, lands)]
  {
    var x := W.BatchItem(row, v.nextDone);
    var begun := W.BeginFlush(W.Enqueue(v, row, true));
    assert begun.inFlight == [x] && W.Answers([x], lands) == [W.Answer(x, lands)];
    if lands {
      assert [x][..1] == [x] && W.Rows([x]) == [row];
      assert [row][..0] == [] && W.InsertAll(v.table, [row]) == W.Insert(v.table, row);
    } else {
      assert [x][..0] == [] && W.Rows([]) == [];
    }
  }

  lemma PlayFlush(c: Config, stored: Envelope -> bool, moves: seq<Move>, lands: bool) returns (more: seq<Move>)
    ensures var j := Play(c, stored, moves);
      Play(c, stored, more) == j.(writer := Flushed(j.writer, lands))
  {
    var a := W.DoAttempt(W.Attempt(0, lands));
    more := PlayOne(c, stored, moves, Batch(W.DoBeginFlush));
    more := PlayOne(c, stored, more, Batch(a));
    if !lands {
      more := PlayOne(c, stored, more, Batch(a));
      more := PlayOne(c, stored, more, Batch(a));
    }
    more := PlayOne(c, stored, more, Batch(W.DoEndFlush));
  }

  /** The current call stores its row, and a flush of that row alone lands or is given up. */
  lemma StoreAndFlush(c: Config, stored: Envelope -> bool, moves: seq<Move>, sid: Sid, lands: bool) returns (more: seq<Move>)
    requires var j := Play(c, stored, moves);
      Quiet(j.writer) && sid in j.sys.back.busy && sid !in j.storing && stored(j.sys.back.busy[sid].env)
    ensures var j, r := Play(c, stored, moves), Play(c, stored, more);
      && r.sys == j.sys && Quiet(r.writer) && r.storing.Keys == j.storing.Keys + {sid}
      && (forall t :: t in j.storing ==> r.storing[t] == j.storing[t])
      && r.storing[sid].message.uuid == j.sys.back.busy[sid].env.msgID
      && r.writer.table.Keys == j.writer.table.Keys + (if lands then {j.sys.back.busy[sid].env.msgID} else {})
      && r.writer.log.answers == j.writer.log.answers + [W.Answer(r.storing[sid], lands)]
  {
    var j := Play(c, stored, moves);
    more := PlayOne(c, stored, moves, Store(sid, "", true));
    FlushedOne(j.writer, W.Row(j.sys.back.busy[sid].env.msgID, ""), lands);
    more := PlayFlush(c, stored, more, lands);
  }

  /** The same pipeline with a writer that gave up every row of `id` and has nothing left to
      write; all other rows landed at once. */
  ghost predicate Without(j: Joint, a: Joint, id: string) {
    && a.sys == j.sys && a.storing.Keys == j.storing.Keys
    && Quiet(a.writer) && id !in a.writer.table
    && forall sid :: sid in a.storing ==> LandedUnless(a, sid, id)
  }

  ghost predicate LandedUnless(a: Joint, sid: Sid, id: string) {
    && sid in a.storing && sid in a.sys.back.busy && a.storing[sid].message.uuid == a.sys.back.busy[sid].env.msgID
    && (a.storing[sid].message.uuid != id ==> W.Answer(a.storing[sid], true) in a.writer.log.answers)
  }

  lemma StoreWithout(c: Config, stored: Envelope -> bool, j: Joint, alt: seq<Move>, sid: Sid, content: string, ok: bool, id: string)
    returns (more: seq<Move>)
    requires Without(j, Play(c, stored, alt), id)
    ensures Without(StoreRow(j, stored, sid, content, ok), Play(c, stored, more), id)
  {
    more := alt;
    var r := StoreRow(j, stored, sid, content, ok);
    if sid in j.sys.back.busy && sid !in j.storing && stored(j.sys.back.busy[sid].env) {
      more := StoreAndFlush(c, stored, alt, sid, j.sys.back.busy[sid].env.msgID != id);
      var a, b := Play(c, stored, alt), Play(c, stored, more);
      forall t | t in b.storing ensures LandedUnless(b, t, id) {
        if t == sid {
          assert b.writer.log.answers[|a.writer.log.answers|] == W.Answer(b.storing[sid], j.sys.back.busy[sid].env.msgID != id);
        } else {
          assert LandedUnless(a, t, id);
        }
      }
    }
  }

  lemma FlowWithout(c: Config, stored: Envelope -> bool, j: Joint, alt: seq<Move>, st: Step, id: string) returns (more: seq<Move>)
    requires Without(j, Play(c, stored, alt), id) && !st.Attempt?
    ensures Without(j.(sys := Apply(c, j.sys, st)), Play(c, stored, more), id)
  {
    more := PlayOne(c, stored, alt, Flow(st));
    var a, b := Play(c, stored, alt), Play(c, stored, more);
    forall t | t in b.storing ensures LandedUnless(b, t, id) {
      assert LandedUnless(a, t, id);
      FlowLeavesCalls(c, j.sys, st, t);
    }
  }

  function EndingFor(o: Outcome): Ending {
    match o case Success => Through case Failure => Error case Panic => Crash
  }

  lemma EndsTheSame(j: Joint, a: Joint, stored: Envelope -> bool, sid: Sid, e: Ending, id: string)
    requires Without(j, a, id) && sid in j.sys.back.busy && Ends(j, stored, sid, e).Some?
    requires var it := j.sys.back.busy[sid];
      Ends(j, stored, sid, e) == Some(Success) && stored(it.env) && it.done.Some? ==> it.env.msgID != id
    ensures Ends(a, stored, sid, EndingFor(Ends(j, stored, sid, e).value)) == Ends(j, stored, sid, e)
  {
    if sid in a.storing { assert LandedUnless(a, sid, id); }
  }

  lemma ConcludeWithout(c: Config, stored: Envelope -> bool, j: Joint, alt: seq<Move>, sid: Sid, e: Ending, id: string)
    returns (more: seq<Move>)
    requires Without(j, Play(c, stored, alt), id)
    requires !WaitedCopy(DoConclude(j, stored, sid, e).sys.back, stored, id)
    ensures Without(DoConclude(j, stored, sid, e), Play(c, stored, more), id)
  {
    more := alt;
    if sid in j.sys.back.busy && Ends(j, stored, sid, e).Some? {
      var o, it := Ends(j, stored, sid, e).value, j.sys.back.busy[sid];
      AttemptedProcesses(j.sys.back, sid, o, sid);
      if o == Success && stored(it.env) && it.done.Some? {
        assert it in Worker(DoConclude(j, stored, sid, e).sys.back, sid).processed;
      }
      EndsTheSame(j, Play(c, stored, alt), stored, sid, e, id);
      more := PlayOne(c, stored, alt, Conclude(sid, EndingFor(o)));
      ConcludedWithout(j, Play(c, stored, alt), sid, o, id);
    }
  }

  lemma ConcludedWithout(j: Joint, a: Joint, sid: Sid, o: Outcome, id: string)
    requires Without(j, a, id) && sid in j.sys.back.busy
    ensures Without(ConcludeWith(j, sid, o), ConcludeWith(a, sid, o), id)
  {
    var b := ConcludeWith(a, sid, o);
    forall t | t in b.storing ensures LandedUnless(b, t, id) {
      assert LandedUnless(a, t, id);
      AttemptedProcesses(a.sys.back, sid, o, t);
    }
  }

  lemma ActKeepsProcessed(c: Config, stored: Envelope -> bool, j: Joint, mv: Move, sid: Sid)
    ensures Worker(j.sys.back, sid).processed <= Worker(Act(c, stored, j, mv).sys.back, sid).processed
  {
    match mv
    case Flow(st) => if !st.Attempt? { FlowLeavesCalls(c, j.sys, st, sid); }
    case Conclude(t, e) =>
      if t in j.sys.back.busy && Ends(j, stored, t, e).Some? {
        AttemptedProcesses(j.sys.back, t, Ends(j, stored, t, e).value, sid);
      }
    case _ =>
  }

  lemma WaitedStays(c: Config, stored: Envelope -> bool, j: Joint, mv: Move, id: string)
    requires WaitedCopy(j.sys.back, stored, id)
    ensures WaitedCopy(Act(c, stored, j, mv).sys.back, stored, id)
  {
    var sid, it :| it in Worker(j.sys.back, sid).processed && stored(it.env) && it.done.Some? && it.env.msgID == id;
    ActKeepsProcessed(c, stored, j, mv, sid);
    assert it in Worker(Act(c, stored, j, mv).sys.back, sid).processed;
  }

  /** If no copy of an id that carried a channel was processed, the pipeline cannot tell that the
      writer lost every row of it: the same run of the pipeline is possible with a writer that
      gave them all up and has nothing left to write. */
  lemma {:induction false} UnwaitedRowCanBeLost(c: Config, stored: Envelope -> bool, moves: seq<Move>, id: string)
    returns (alt: seq<Move>)
    requires !WaitedCopy(Play(c, stored, moves).sys.back, stored, id)
    ensures Without(Play(c, stored, moves), Play(c, stored, alt), id)
  {
    alt := [];
    if moves != [] {
      var n := |moves| - 1;
      var j := Play(c, stored, moves[..n]);
      if WaitedCopy(j.sys.back, stored, id) { WaitedStays(c, stored, j, moves[n], id); }
      alt := UnwaitedRowCanBeLost(c, stored, moves[..n], id);
      match moves[n]
      case Flow(st) => if !st.Attempt? { alt := FlowWithout(c, stored, j, alt, st, id); }
      case Store(sid, content, ok) => alt := StoreWithout(c, stored, j, alt, sid, content, ok, id);
      case Conclude(sid, e) => alt := ConcludeWithout(c, stored, j, alt, sid, e, id);
      case Batch(_) =>
    }
  }

  /** Whatever the writer did, the row is there. */
  ghost predicate SureOfItsRow(c: Config, stored: Envelope -> bool, s: Sys, id: string) {
    forall moves :: Play(c, stored, moves).sys == s ==> id in Play(c, stored, moves).writer.table
  }

  /** In every joint run a message is sure of its row if and only if a copy that carried a result
      channel was processed. */
  lemma SureIffACopyWaited(c: Config, stored: Envelope -> bool, moves: seq<Move>, id: string)
    ensures var s := Play(c, stored, moves).sys; SureOfItsRow(c, stored, s, id) <==> WaitedCopy(s.back, stored, id)
  {
    var s := Play(c, stored, moves).sys;
    if WaitedCopy(s.back, stored, id) {
      forall others | Play(c, stored, others).sys == s ensures id in Play(c, stored, others).writer.table {
        WaitedCopyHasItsRow(c, stored, others, id);
      }
    } else {
      var alt := UnwaitedRowCanBeLost(c, stored, moves, id);
      assert Play(c, stored, alt).sys == s;
    }
  }

  /** In every joint run: a committed message of a stored kind that was not dead-lettered was
      given to the batch writer; if the copy processed at its place carried a result channel, it
      has its row; and it is sure of its row if and only if some processed copy of its id did. */
  lemma CommittedIsDurable(c: Config, stored: Envelope -> bool, moves: seq<Move>, m: Msg)
    requires stored(m.env)
    requires var k := Play(c, stored, moves).sys.consumer; m in k.committed && m !in k.dead
    ensures var j := Play(c, stored, moves);
      var processed := Worker(j.sys.back, m.sid).processed;
      && GivenTo(j.writer, m.env.msgID)
      && 1 <= m.env.seqNum <= |processed| && processed[m.env.seqNum - 1].env == m.env
      && (processed[m.env.seqNum - 1].done.Some? ==> m.env.msgID in j.writer.table)
      && (SureOfItsRow(c, stored, j.sys, m.env.msgID) <==> WaitedCopy(j.sys.back, stored, m.env.msgID))
  {
    var j := Play(c, stored, moves);
    var steps := JointIsARun(c, stored, moves);
    CommittedIsSettled(c.(processor := Record(j.made)), steps, m);
    EveryPlay(c, stored, moves);
    var it := Worker(j.sys.back, m.sid).processed[m.env.seqNum - 1];
    assert Backed(j.sys.back, j.writer, stored, m.sid) && Kept(j.writer, it);
    SureIffACopyWaited(c, stored, moves, m.env.msgID);
    if it.done.Some? { WaitedCopyHasItsRow(c, stored, moves, m.env.msgID); }
  }

  // ---------------------------------------------------------------- every run of the pipeline is a joint run

  lemma AttemptIsJoint(c: Config, stored: Envelope -> bool, moves: seq<Move>, sid: Sid) returns (more: seq<Move>)
    requires Quiet(Play(c, stored, moves).writer) && Play(c, stored, moves).storing == map[]
    ensures Play(c, stored, more).sys == Apply(c, Play(c, stored, moves).sys, Attempt(sid))
    ensures Quiet(Play(c, stored, more).writer) && Play(c, stored, more).storing == map[]
  {
    more := moves;
    var j := Play(c, stored, moves);
    if sid in j.sys.back.busy {
      var it := j.sys.back.busy[sid];
      var o := c.processor(sid)(it, Worker(j.sys.back, sid).attempts);
      if stored(it.env) {
        more := StoreAndFlush(c, stored, moves, sid, true);
        var r := Play(c, stored, more);
        assert r.writer.log.answers[|j.writer.log.answers|] == W.Answer(r.storing[sid], true);
      }
      assert Ends(Play(c, stored, more), stored, sid, EndingFor(o)) == Some(o);
      more := PlayOne(c, stored, more, Conclude(sid, EndingFor(o)));
    }
  }

  /** Conversely no processor is too strange: whatever it answers, the run of the pipeline is
      that of a joint run. */
  lemma {:induction false} EveryRunIsJoint(c: Config, stored: Envelope -> bool, steps: seq<Step>) returns (moves: seq<Move>)
    ensures Play(c, stored, moves).sys == Run(c, steps)
    ensures Quiet(Play(c, stored, moves).writer) && Play(c, stored, moves).storing == map[]
  {
    moves := [];
    if steps != [] {
      var n := |steps| - 1;
      moves := EveryRunIsJoint(c, stored, steps[..n]);
      if steps[n].Attempt? {
        moves := AttemptIsJoint(c, stored, moves, steps[n].sid);
      } else {
        moves := PlayOne(c, stored, moves, Flow(steps[n]));
      }
    }
  }

  // ---------------------------------------------------------------- a commit without a row

  /** The condition can fail for a committed message. The broker stores a record but reports an
      error, so the producer falls back to the channel; that copy is processed without waiting,
      and the Kafka copy is acknowledged as a duplicate and committed. If the flush of the row is
      given up, nothing writes it any more. */
  lemma CommitCanRestOnACopyThatNeverWaited(c: Config, stored: Envelope -> bool, m: Msg) returns (moves: seq<Move>)
    requires c.kafkaEnabled && c.capacity >= 1 && m.env.seqNum == 1
    ensures var j := Play(c, stored, moves);
      && m in j.sys.consumer.committed && m !in j.sys.consumer.dead
      && m.env.msgID !in j.writer.table && Quiet(j.writer)
  {
    var d := c.(processor := _ => (_, _) => Success);
    var steps := UnwaitedCopyProcessed(d, m);
    steps := KafkaCopyOffered(d, steps, m);
    steps := DuplicateAnswered(d, steps, m);
    steps := AnswerCommitted(d, steps, m);
    moves := EveryRunIsJoint(d, stored, steps);
    SameForAnyProcessor(c, d, stored, moves);
    moves := UnwaitedRowCanBeLost(c, stored, moves, m.env.msgID);
  }

  lemma {:induction false} SameForAnyProcessor(c: Config, d: Config, stored: Envelope -> bool, moves: seq<Move>)
    requires d == c.(processor := d.processor)
    ensures Play(c, stored, moves) == Play(d, stored, moves)
  {
    if moves != [] {
      var n := |moves| - 1;
      SameForAnyProcessor(c, d, stored, moves[..n]);
      if moves[n].Flow? && !moves[n].st.Attempt? {
        FlowIgnoresProcessor(c, d.processor, Play(c, stored, moves[..n]).sys, moves[n].st);
      }
    }
  }

  lemma DuplicateAnswered(c: Config, steps: seq<Step>, m: Msg) returns (more: seq<Step>)
    requires m.env.seqNum == 1 && OnlyUnwaited(Run(c, steps).back, m)
    requires At(Run(c, steps).back.queues, m.sid) == [Item(m.env, Some(0))]
    ensures OnlyUnwaited(Run(c, more).back, m) && Run(c, more).consumer == Run(c, steps).consumer
    ensures Finished(Item(m.env, Some(0)), true) in Worker(Run(c, more).back, m.sid).finished
  {
    var before := Worker(Run(c, steps).back, m.sid);
    more := RunOne(c, steps, Take(m.sid));
    var after := Worker(Run(c, more).back, m.sid);
    assert after == Discard(before, Item(m.env, Some(0)));
    assert after.finished[|before.finished|] == Finished(Item(m.env, Some(0)), true);
  }

  lemma AnswerCommitted(c: Config, steps: seq<Step>, m: Msg) returns (more: seq<Step>)
    requires Run(c, steps).consumer == Consumer([m], Waiting([0], 0), 0, [], [])
    requires Finished(Item(m.env, Some(0)), true) in Worker(Run(c, steps).back, m.sid).finished
    ensures Run(c, more).back == Run(c, steps).back
    ensures Run(c, more).consumer.committed == [m] && Run(c, more).consumer.dead == []
  {
    more := RunOne(c, steps, Consume(Await(false)));
    more := RunOne(c, more, Consume(Await(false)));
    assert Run(c, more).consumer == Consumer([m], Accepted, 0, [], []);
    more := RunOne(c, more, Consume(Settle(true)));
  }

  /** Only this session has a worker, and it processed the one copy that came over the channel. */
  ghost predicate OnlyUnwaited(b: Back, m: Msg) {
    && b.workers.Keys == {m.sid} && b.busy == map[] && b.workers[m.sid].next == 2 && b.workers[m.sid].processed == [Item(m.env, None)]
  }

  lemma UnwaitedCopyProcessed(c: Config, m: Msg) returns (steps: seq<Step>)
    requires c.kafkaEnabled && c.capacity >= 1 && m.env.seqNum == 1
    requires forall it, n :: c.processor(m.sid)(it, n) == Success
    ensures var s := Run(c, steps);
      && s.front.log == [m] && s.consumer == Init().consumer && s.back.nextDone == 0
      && At(s.back.queues, m.sid) == [] && OnlyUnwaited(s.back, m)
  {
    steps := BothRoutes(c, m);
    steps := RunOne(c, steps, Take(m.sid));
    assert Run(c, steps).back.busy == map[m.sid := Item(m.env, None)] && Run(c, steps).back.workers == map[];
    steps := RunOne(c, steps, Attempt(m.sid));
  }

  /** The consumer fetches the Kafka copy and offers it to the same session with a waiter. */
  lemma KafkaCopyOffered(c: Config, steps: seq<Step>, m: Msg) returns (more: seq<Step>)
    requires var s := Run(c, steps);
      s.front.log == [m] && s.consumer == Init().consumer && s.back.nextDone == 0 && At(s.back.queues, m.sid) == []
    ensures var s := Run(c, more);
      && s.consumer == Consumer([m], Waiting([0], 0), 0, [], [])
      && s.back.workers == Run(c, steps).back.workers && s.back.busy == Run(c, steps).back.busy
      && At(s.back.queues, m.sid) == [Item(m.env, Some(0))]
  {
    more := RunOne(c, steps, Consume(Fetch(0)));
    more := RunOne(c, more, Consume(Submit));
    assert Run(c, more).consumer == Consumer([m], Enqueuing([]), 0, [], []);
    more := RunOne(c, more, Consume(Enqueue(true)));
    assert Run(c, more).consumer.phase.dones == [0];
    assert Run(c, more).consumer == Consumer([m], Enqueuing([0]), 0, [], []);
    more := RunOne(c, more, Consume(Enqueue(true)));
  }

  /** The broker keeps the record but reports an error; the producer takes the channel. */
  lemma FallsBack(c: Config, f: Front, m: Msg)
    requires c.kafkaEnabled && c.capacity >= 1
    requires f.threads == map[1 := Numbered(m)] && f.sticky == {} && f.channel == [] && f.log == []
    ensures var f1 := Continue(c, f, 1, Numbered(m), Route(true));
      var f2 := Continue(c, f1, 1, MarkFirst(m), Mark);
      var f3 := Continue(c, f2, 1, Write(m, false), KafkaWrite(WrittenButFailed));
      var f4 := Continue(c, f3, 1, TryChannel(m), SendToChannel);
      && f1.threads == map[1 := MarkFirst(m)] && f2.threads == map[1 := Write(m, false)]
      && f3.threads == map[1 := TryChannel(m)] && f4.threads == map[] && f4.channel == [m] && f4.log == [m]
  {
  }

  lemma WrittenAndPut(c: Config, m: Msg) returns (steps: seq<Step>)
    requires c.kafkaEnabled && c.capacity >= 1 && m.env.seqNum == 1
    ensures var s := Run(c, steps);
      && s.front.log == [m] && s.front.channel == [m] && s.front.threads == map[]
      && s.consumer == Init().consumer && s.back == Init().back
  {
    assert Run(c, []) == Init();
    steps := S.RunTakesNumber(c, [], 1, m);
    FallsBack(c, Run(c, steps).front, m);
    steps := S.Goes(c, steps, 1, Numbered(m), Route(true));
    steps := S.Goes(c, steps, 1, MarkFirst(m), Mark);
    steps := S.Goes(c, steps, 1, Write(m, false), KafkaWrite(WrittenButFailed));
    steps := S.Goes(c, steps, 1, TryChannel(m), SendToChannel);
  }

  /** One copy on the Kafka log, one offered to the session queue without a waiter. */
  lemma BothRoutes(c: Config, m: Msg) returns (steps: seq<Step>)
    requires c.kafkaEnabled && c.capacity >= 1 && m.env.seqNum == 1
    ensures var s := Run(c, steps);
      && s.front.log == [m] && s.consumer == Init().consumer
      && s.back == Back(map[m.sid := [Item(m.env, None)]], map[], map[], map[], 0)
  {
    steps := WrittenAndPut(c, m);
    steps := RunOne(c, steps, Dispatch(true));
    assert At(Run(c, steps).back.queues, m.sid) == [Item(m.env, None)];
  }
}
