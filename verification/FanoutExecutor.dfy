/**
 The group fan-out pool: internal/service/chat/fanout_executor.go, before Close.

 FNV-1a is any function into 32-bit values. A step is one Submit or one task taken by a worker.
*/
module Fanout {
  const FANOUT_WORKER_COUNT := 8
  const FANOUT_QUEUE_SIZE := 1024

  datatype Task = Task(groupId: string, message: string)

  datatype Pool = Pool(
    queues: seq<seq<Task>>, executed: seq<seq<Task>>,     // per worker
    submitted: seq<Task>, dropped: seq<Task>, drops: nat)

  ghost predicate Shaped(p: Pool) {
    |p.queues| == |p.executed| == FANOUT_WORKER_COUNT
  }

  function NewPool(): (p: Pool)
    ensures Shaped(p)
  {
    Pool(seq(FANOUT_WORKER_COUNT, _ => []), seq(FANOUT_WORKER_COUNT, _ => []), [], [], 0)
  }

  function Shard(hash: string -> nat, groupId: string): (w: nat)
    ensures w < FANOUT_WORKER_COUNT
  {
    hash(groupId) % FANOUT_WORKER_COUNT
  }

  function Submit(hash: string -> nat, p: Pool, t: Task): (r: Pool)
    requires Shaped(p)
    ensures Shaped(r)
  {
    var w, s := Shard(hash, t.groupId), p.(submitted := p.submitted + [t]);
    if |p.queues[w]| < FANOUT_QUEUE_SIZE then s.(queues := p.queues[w := p.queues[w] + [t]])
    else s.(dropped := p.dropped + [t], drops := p.drops + 1)
  }

  function Work(p: Pool, w: nat): (r: Pool)
    requires Shaped(p)
    ensures Shaped(r)
  {
    if w >= FANOUT_WORKER_COUNT || p.queues[w] == [] then p
    else p.(queues := p.queues[w := p.queues[w][1..]], executed := p.executed[w := p.executed[w] + [p.queues[w][0]]])
  }

  datatype Step = DoSubmit(t: Task) | DoWork(w: nat)

  function Run(hash: string -> nat, steps: seq<Step>): (p: Pool)
    ensures Shaped(p)
  {
    if steps == [] then NewPool()
    else
      var p, st := Run(hash, steps[..|steps| - 1]), steps[|steps| - 1];
      match st
      case DoSubmit(t) => Submit(hash, p, t)
      case DoWork(w) => Work(p, w)
  }

  class FanoutExecutor {
    const hash: string -> nat
    var workers: seq<seq<Task>>
    var queueDrops: nat
    ghost var executed: seq<seq<Task>>
    ghost var submitted: seq<Task>
    ghost var dropped: seq<Task>

    ghost function State(): Pool
      reads this
    {
      Pool(workers, executed, submitted, dropped, queueDrops)
    }

    constructor (hash: string -> nat)
      ensures State() == NewPool() && this.hash == hash
    {
      this.hash := hash;
      workers, queueDrops := seq(FANOUT_WORKER_COUNT, _ => []), 0;
      executed, submitted, dropped := seq(FANOUT_WORKER_COUNT, _ => []), [], [];
    }

    /** Submit never blocks: a full queue drops the task. */
    method SubmitTask(groupId: string, message: string)
      requires Shaped(State())
      modifies this
      ensures State() == Submit(hash, old(State()), Task(groupId, message))
    {
      var worker := hash(groupId) % |workers|;
      submitted := submitted + [Task(groupId, message)];
      if |workers[worker]| < FANOUT_QUEUE_SIZE {
        workers := workers[worker := workers[worker] + [Task(groupId, message)]];
      } else {
        dropped := dropped + [Task(groupId, message)];
        queueDrops := queueDrops + 1;
      }
    }

    /** One turn of worker `id`; nothing happens while its queue is empty. */
    method RunWorker(id: nat)
      requires Shaped(State()) && id < |workers|
      modifies this
      ensures State() == Work(old(State()), id)
    {
      if workers[id] != [] {
        var task := workers[id][0];
        workers := workers[id := workers[id][1..]];
        executed := executed[id := executed[id] + [task]];
      }
    }
  }

  // ---------------------------------------------------------------- order per group

  function OfGroup(ts: seq<Task>, g: string): seq<Task> {
    if ts == [] then []
    else OfGroup(ts[..|ts| - 1], g) + (if ts[|ts| - 1].groupId == g then [ts[|ts| - 1]] else [])
  }

  lemma OfGroupSnoc(ts: seq<Task>, t: Task, g: string)
    ensures OfGroup(ts + [t], g) == if t.groupId == g then OfGroup(ts, g) + [t] else OfGroup(ts, g)
  {
  }

  predicate Subsequence<T(==)>(a: seq<T>, b: seq<T>) {
    if a == [] then true
    else if b == [] then false
    else if a[|a| - 1] == b[|b| - 1] && Subsequence(a[..|a| - 1], b[..|b| - 1]) then true
    else Subsequence(a, b[..|b| - 1])
  }

  lemma SubsequenceGrows<T>(a: seq<T>, b: seq<T>, x: T)
    requires Subsequence(a, b)
    ensures Subsequence(a, b + [x]) && Subsequence(a + [x], b + [x])
  {
  }

  /** A worker's tasks so far: those executed, then those waiting. */
  function Lane(p: Pool, w: nat): seq<Task>
    requires Shaped(p) && w < FANOUT_WORKER_COUNT
  {
    p.executed[w] + p.queues[w]
  }

  function Total(ls: seq<seq<Task>>): nat {
    if ls == [] then 0 else Total(ls[..|ls| - 1]) + |ls[|ls| - 1]|
  }

  lemma {:induction false} TotalUpdate(ls: seq<seq<Task>>, w: nat, l: seq<Task>)
    requires w < |ls|
    ensures Total(ls[w := l]) == Total(ls) - |ls[w]| + |l|
  {
    var n := |ls| - 1;
    if w == n {
      assert ls[w := l][..n] == ls[..n];
    } else {
      assert ls[w := l][..n] == ls[..n][w := l];
      TotalUpdate(ls[..n], w, l);
    }
  }

  /** Tasks of a group are only ever with the worker of its shard. */
  ghost predicate OnlyOwnLane(hash: string -> nat, p: Pool, g: string)
    requires Shaped(p)
  {
    forall w :: 0 <= w < FANOUT_WORKER_COUNT && w != Shard(hash, g) ==> OfGroup(Lane(p, w), g) == []
  }

  /** Of one group: what the worker executed, then what waits there, is in submission order; and
      with the dropped tasks it is everything submitted. */
  ghost predicate GroupKept(hash: string -> nat, p: Pool, g: string)
    requires Shaped(p)
  {
    OnlyOwnLane(hash, p, g) && Kept(OfGroup(Lane(p, Shard(hash, g)), g), OfGroup(p.submitted, g), OfGroup(p.dropped, g))
  }

  lemma SubmitLane(hash: string -> nat, p: Pool, t: Task, w: nat)
    requires Shaped(p) && w < FANOUT_WORKER_COUNT
    ensures var r := Submit(hash, p, t);
      || Lane(r, w) == Lane(p, w)
      || (w == Shard(hash, t.groupId) && Lane(r, w) == Lane(p, w) + [t])
  {
  }

  lemma SubmitKeepsOthersOut(hash: string -> nat, p: Pool, t: Task, g: string)
    requires Shaped(p) && OnlyOwnLane(hash, p, g)
    ensures OnlyOwnLane(hash, Submit(hash, p, t), g)
  {
    forall w | 0 <= w < FANOUT_WORKER_COUNT && w != Shard(hash, g) ensures OfGroup(Lane(Submit(hash, p, t), w), g) == [] {
      SubmitLane(hash, p, t, w);
      OfGroupSnoc(Lane(p, w), t, g);
    }
  }

  /** How one submission changes a group's own lane and its dropped tasks. */
  lemma SubmitMoves(hash: string -> nat, p: Pool, t: Task, g: string)
    requires Shaped(p)
    ensures var r, w := Submit(hash, p, t), Shard(hash, g);
      if t.groupId != g then
        (OfGroup(Lane(r, w), g), OfGroup(r.dropped, g)) == (OfGroup(Lane(p, w), g), OfGroup(p.dropped, g))
      else
        || (OfGroup(Lane(r, w), g), OfGroup(r.dropped, g)) == (OfGroup(Lane(p, w), g) + [t], OfGroup(p.dropped, g))
        || (OfGroup(Lane(r, w), g), OfGroup(r.dropped, g)) == (OfGroup(Lane(p, w), g), OfGroup(p.dropped, g) + [t])
  {
    var w := Shard(hash, g);
    SubmitLane(hash, p, t, w);
    OfGroupSnoc(Lane(p, w), t, g);
    OfGroupSnoc(p.dropped, t, g);
    SubmitTakesOrDrops(hash, p, t);
  }

  ghost predicate Kept(kept: seq<Task>, submitted: seq<Task>, dropped: seq<Task>) {
    Subsequence(kept, submitted) && multiset(submitted) == multiset(kept) + multiset(dropped)
  }

  lemma TaskAdded(kept: seq<Task>, submitted: seq<Task>, dropped: seq<Task>, t: Task)
    requires Kept(kept, submitted, dropped)
    ensures Kept(kept + [t], submitted + [t], dropped) && Kept(kept, submitted + [t], dropped + [t])
  {
    SubsequenceGrows(kept, submitted, t);
  }

  lemma SubmitKeepsGroup(hash: string -> nat, p: Pool, t: Task, g: string)
    requires Shaped(p) && GroupKept(hash, p, g)
    ensures GroupKept(hash, Submit(hash, p, t), g)
  {
    SubmitKeepsOthersOut(hash, p, t, g);
    SubmitMoves(hash, p, t, g);
    OfGroupSnoc(p.submitted, t, g);
    TaskAdded(OfGroup(Lane(p, Shard(hash, g)), g), OfGroup(p.submitted, g), OfGroup(p.dropped, g), t);
  }

  /** A submitted task goes to the end of its lane or to the dropped ones, not both. */
  lemma SubmitTakesOrDrops(hash: string -> nat, p: Pool, t: Task)
    requires Shaped(p)
    ensures var r, w := Submit(hash, p, t), Shard(hash, t.groupId);
      || (Lane(r, w) == Lane(p, w) + [t] && r.dropped == p.dropped)
      || (Lane(r, w) == Lane(p, w) && r.dropped == p.dropped + [t])
  {
    var w := Shard(hash, t.groupId);
    assert p.executed[w] + (p.queues[w] + [t]) == Lane(p, w) + [t];
  }

  lemma WorkKeepsGroup(hash: string -> nat, p: Pool, w: nat, g: string)
    requires Shaped(p) && GroupKept(hash, p, g)
    ensures GroupKept(hash, Work(p, w), g)
  {
    forall v | 0 <= v < FANOUT_WORKER_COUNT ensures Lane(Work(p, w), v) == Lane(p, v) { WorkKeepsLanes(p, w, v); }
  }

  lemma WorkKeepsLanes(p: Pool, w: nat, v: nat)
    requires Shaped(p) && v < FANOUT_WORKER_COUNT
    ensures Lane(Work(p, w), v) == Lane(p, v)
  {
  }

  /** For every group, whichever groups share a worker and whatever is dropped: no other worker
      ever holds or executes a task of the group; its tasks executed, followed by those still
      queued, are in submission order; and submitted = executed + queued + dropped, task by task.
      The drop counter counts the dropped tasks. */
  lemma {:induction false} GroupOrderIsKept(hash: string -> nat, steps: seq<Step>, g: string)
    ensures GroupKept(hash, Run(hash, steps), g)
    ensures Run(hash, steps).drops == |Run(hash, steps).dropped|
  {
    if steps == [] {
      assert forall w :: 0 <= w < FANOUT_WORKER_COUNT ==> Lane(NewPool(), w) == [];
    } else {
      var n := |steps| - 1;
      var p := Run(hash, steps[..n]);
      GroupOrderIsKept(hash, steps[..n], g);
      match steps[n]
      case DoSubmit(t) => SubmitKeepsGroup(hash, p, t, g);
      case DoWork(w) => WorkKeepsGroup(hash, p, w, g);
    }
  }

  lemma StepConserves(hash: string -> nat, p: Pool, st: Step)
    requires Shaped(p) && |p.submitted| == Total(p.executed) + Total(p.queues) + p.drops
    ensures var r := match st case DoSubmit(t) => Submit(hash, p, t) case DoWork(w) => Work(p, w);
      |r.submitted| == Total(r.executed) + Total(r.queues) + r.drops
  {
    match st
    case DoSubmit(t) => TotalUpdate(p.queues, Shard(hash, t.groupId), p.queues[Shard(hash, t.groupId)] + [t]);
    case DoWork(w) =>
      if w < FANOUT_WORKER_COUNT && p.queues[w] != [] {
        TotalUpdate(p.queues, w, p.queues[w][1..]);
        TotalUpdate(p.executed, w, p.executed[w] + [p.queues[w][0]]);
      }
  }

  /** And over all groups: submitted = executed + queued + dropped in number. */
  lemma {:induction false} EveryTaskIsCounted(hash: string -> nat, steps: seq<Step>)
    ensures var p := Run(hash, steps); |p.submitted| == Total(p.executed) + Total(p.queues) + p.drops
  {
    if steps == [] {
      EmptyTotals(NewPool().queues);
      EmptyTotals(NewPool().executed);
    } else {
      EveryTaskIsCounted(hash, steps[..|steps| - 1]);
      StepConserves(hash, Run(hash, steps[..|steps| - 1]), steps[|steps| - 1]);
    }
  }

  lemma {:induction false} PartOfTotal(ls: seq<seq<Task>>, w: nat)
    requires w < |ls|
    ensures |ls[w]| <= Total(ls)
  {
    if w < |ls| - 1 { PartOfTotal(ls[..|ls| - 1], w); }
  }

  /** No queue outgrows its capacity, and while fewer tasks wait than one queue holds, whatever
      the hash, nothing is dropped. */
  lemma {:induction false} NothingDroppedBelowCapacity(hash: string -> nat, steps: seq<Step>)
    ensures forall w :: 0 <= w < FANOUT_WORKER_COUNT ==> |Run(hash, steps).queues[w]| <= FANOUT_QUEUE_SIZE
    ensures (forall n :: 0 <= n < |steps| ==> Total(Run(hash, steps[..n]).queues) < FANOUT_QUEUE_SIZE) ==>
      Run(hash, steps).drops == 0
  {
    if steps != [] {
      var m := |steps| - 1;
      var p := Run(hash, steps[..m]);
      NothingDroppedBelowCapacity(hash, steps[..m]);
      forall n | 0 <= n < m ensures steps[..m][..n] == steps[..n] {}
      if steps[m].DoSubmit? { PartOfTotal(p.queues, Shard(hash, steps[m].t.groupId)); }
    }
  }

  lemma {:induction false} EmptyTotals(ls: seq<seq<Task>>)
    requires forall i :: 0 <= i < |ls| ==> ls[i] == []
    ensures Total(ls) == 0
  {
    if ls != [] {
      EmptyTotals(ls[..|ls| - 1]);
    }
  }

  // ---------------------------------------------------------------- every task gets its turn

  function Turns(w: nat, k: nat): seq<Step> {
    seq(k, _ => DoWork(w))
  }

  /** `k` turns of a worker with that many tasks waiting execute exactly the `k` oldest, in order, and
      touch nothing else; all of them, if it takes as many turns as there are. */
  lemma {:induction false} EveryTaskGetsItsTurn(hash: string -> nat, steps: seq<Step>, w: nat, k: nat)
    requires w < FANOUT_WORKER_COUNT && k <= |Run(hash, steps).queues[w]|
    ensures var p, r := Run(hash, steps), Run(hash, steps + Turns(w, k));
      && r.executed[w] == p.executed[w] + p.queues[w][..k] && r.queues[w] == p.queues[w][k..]
      && (forall v :: 0 <= v < FANOUT_WORKER_COUNT && v != w ==> r.executed[v] == p.executed[v] && r.queues[v] == p.queues[v])
      && (r.submitted, r.dropped, r.drops) == (p.submitted, p.dropped, p.drops)
  {
    if k == 0 {
      assert steps + Turns(w, 0) == steps;
    } else {
      EveryTaskGetsItsTurn(hash, steps, w, k - 1);
      var all := steps + Turns(w, k);
      assert all[..|all| - 1] == steps + Turns(w, k - 1) && all[|all| - 1] == DoWork(w);
      var p := Run(hash, steps);
      assert p.queues[w][..k] == p.queues[w][..k - 1] + [p.queues[w][k - 1]];
    }
  }

  /** Two groups wait for each other if and only if their hashes agree modulo the number of workers. */
  lemma WhoSharesAWorker(hash: string -> nat, g: string, h: string)
    ensures Shard(hash, g) == Shard(hash, h) <==> (hash(g) as int - hash(h) as int) % FANOUT_WORKER_COUNT == 0
  {
    var a, b := hash(g), hash(h);
    assert a as int - b as int == (a / FANOUT_WORKER_COUNT - b / FANOUT_WORKER_COUNT) * FANOUT_WORKER_COUNT
      + (a % FANOUT_WORKER_COUNT - b % FANOUT_WORKER_COUNT);
  }

  function SubmittedBy(steps: seq<Step>): seq<Task> {
    if steps == [] then []
    else
      var last := steps[|steps| - 1];
      SubmittedBy(steps[..|steps| - 1]) + (if last.DoSubmit? then [last.t] else [])
  }

  /** The submitted tasks are those of the Submit calls, in order. */
  lemma {:induction false} SubmittedAreTheSubmits(hash: string -> nat, steps: seq<Step>)
    ensures Run(hash, steps).submitted == SubmittedBy(steps)
  {
    if steps != [] { SubmittedAreTheSubmits(hash, steps[..|steps| - 1]); }
  }
}
