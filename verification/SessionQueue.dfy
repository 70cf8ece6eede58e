/**
 The worker of one session: internal/service/chat/session_router.go.

 A `Queue` is the worker's state together with the history a reader of the code has
 in mind: which items were processed, which `finishQueuedEnvelope` calls were made and
 which buffered items were overwritten. `Receive` is one call of `processEnvelope`;
 class `SessionQueue` is the imperative form and is proved to compute it.
*/
module SessionQueues {
  import opened Wrappers

  datatype Envelope = Envelope(seqNum: nat, msgID: string, payload: string)

  /** A queued envelope. `done` is the identity of its capacity-1 result channel. */
  datatype Item = Item(env: Envelope, done: Option<nat>)

  datatype Outcome = Success | Failure | Panic

  /** What the processor answers to the n-th attempt this worker makes. Any behaviour of
      the processor over a run is one such function. */
  type Processor = (Item, nat) -> Outcome

  /** One call of finishQueuedEnvelope; it sends on the channel only if there is one. */
  datatype Finished = Finished(item: Item, ok: bool)

  datatype Queue = Queue(
    next: nat, buffer: map<nat, Item>, attempts: nat,
    processed: seq<Item>, finished: seq<Finished>, lost: seq<Item>)

  function NewQueue(): Queue {
    Queue(1, map[], 0, [], [], [])
  }

  // ---------------------------------------------------------------- operations

  function Finish(q: Queue, it: Item, ok: bool): Queue {
    q.(attempts := q.attempts + 1, finished := q.finished + [Finished(it, ok)])
  }

  function Advance(q: Queue, it: Item): Queue {
    Finish(q, it, true).(next := q.next + 1, processed := q.processed + [it])
  }

  function Pop(q: Queue): Queue {
    q.(buffer := q.buffer - {q.next})
  }

  lemma RemoveShrinks(b: map<nat, Item>, k: nat)
    requires k in b
    ensures |b - {k}| < |b|
  {
  }

  lemma PopShrinks(q: Queue)
    requires q.next in q.buffer
    ensures |Pop(q).buffer| < |q.buffer|
  {
  }

  /** The `for` loop: process `it`, then whatever the buffer holds next. */
  function Drain(q: Queue, it: Item, p: Processor): Queue
    decreases |q.buffer|
  {
    if p(it, q.attempts) != Success then Finish(q, it, false)
    else
      var r := Advance(q, it);
      if r.next in r.buffer then
        PopShrinks(r);
        Drain(Pop(r), r.buffer[r.next], p)
      else r
  }

  /** One turn of that loop: the attempt, and the item the next turn takes, if any. */
  function Turn(q: Queue, it: Item, o: Outcome): (Queue, Option<Item>) {
    if o != Success then (Finish(q, it, false), None)
    else
      var r := Advance(q, it);
      if r.next in r.buffer then (Pop(r), Some(r.buffer[r.next])) else (r, None)
  }

  lemma DrainTurns(q: Queue, it: Item, p: Processor)
    ensures var (r, next) := Turn(q, it, p(it, q.attempts));
      Drain(q, it, p) == if next.Some? then Drain(r, next.value, p) else r
  {
  }

  function Stash(q: Queue, it: Item): Queue {
    var k := it.env.seqNum;
    q.(buffer := q.buffer[k := it], lost := if k in q.buffer then q.lost + [q.buffer[k]] else q.lost)
  }

  function Discard(q: Queue, it: Item): Queue {
    q.(finished := q.finished + [Finished(it, true)])
  }

  function Receive(q: Queue, it: Item, p: Processor): Queue {
    if it.env.seqNum > q.next then Stash(q, it)
    else if it.env.seqNum < q.next then Discard(q, it)
    else Drain(q, it, p)
  }

  /** The worker's state after a fresh queue received `xs`, one by one. */
  function ReceiveAll(xs: seq<Item>, p: Processor): Queue {
    if xs == [] then NewQueue() else Receive(ReceiveAll(xs[..|xs| - 1], p), xs[|xs| - 1], p)
  }

  lemma ReceiveAllSnoc(xs: seq<Item>, x: Item, p: Processor)
    ensures ReceiveAll(xs + [x], p) == Receive(ReceiveAll(xs, p), x, p)
  {
  }

  // ---------------------------------------------------------------- the invariant

  function Tally(fs: seq<Finished>): multiset<Item> {
    if fs == [] then multiset{} else Tally(fs[..|fs| - 1]) + multiset{fs[|fs| - 1].item}
  }

  lemma TallySnoc(fs: seq<Finished>, f: Finished)
    ensures Tally(fs + [f]) == Tally(fs) + multiset{f.item}
  {
  }

  lemma {:induction false} TallyHas(fs: seq<Finished>, f: Finished)
    requires f in fs
    ensures f.item in Tally(fs)
  {
    if f != fs[|fs| - 1] {
      assert f in fs[..|fs| - 1];
      TallyHas(fs[..|fs| - 1], f);
    }
  }

  ghost predicate InOrder(q: Queue) {
    && q.next == |q.processed| + 1
    && (forall i :: 0 <= i < |q.processed| ==> q.processed[i].env.seqNum == i + 1)
  }

  ghost predicate BufferAhead(q: Queue) {
    forall k :: k in q.buffer ==> k > q.next && q.buffer[k].env.seqNum == k
  }

  ghost predicate Acknowledged(q: Queue) {
    && (forall f :: f in q.finished && f.ok ==> f.item.env.seqNum < q.next)
    && (forall i :: 0 <= i < |q.processed| ==> Finished(q.processed[i], true) in q.finished)
  }

  /** Every item received so far was finished, is buffered, or was overwritten: once each. */
  ghost predicate Conserved(q: Queue, received: multiset<Item>) {
    received == Tally(q.finished) + multiset(q.buffer.Values) + multiset(q.lost)
  }

  ghost predicate Inv(q: Queue, received: multiset<Item>) {
    InOrder(q) && BufferAhead(q) && Acknowledged(q) && Conserved(q, received)
  }

  ghost predicate Keyed(b: map<nat, Item>) {
    forall k :: k in b ==> b[k].env.seqNum == k
  }

  lemma RemoveTally(b: map<nat, Item>, k: nat)
    requires Keyed(b) && k in b
    ensures multiset(b.Values) == multiset((b - {k}).Values) + multiset{b[k]}
  {
    var rest := b - {k};
    forall v | v in b.Values ensures v in rest.Values + {b[k]} {
      var j :| j in b && b[j] == v;
      if j != k {
        assert j in rest && rest[j] == v;
      }
    }
    assert b.Values == rest.Values + {b[k]};
    assert b[k] !in rest.Values;
  }

  lemma StashTally(q: Queue, it: Item)
    requires Keyed(q.buffer)
    ensures multiset(Stash(q, it).buffer.Values) + multiset(Stash(q, it).lost)
         == multiset(q.buffer.Values) + multiset(q.lost) + multiset{it}
  {
    var k := it.env.seqNum;
    RemoveTally(q.buffer[k := it], k);
    assert q.buffer[k := it] - {k} == q.buffer - {k};
    if k in q.buffer {
      RemoveTally(q.buffer, k);
    } else {
      assert q.buffer - {k} == q.buffer;
    }
  }

  lemma {:induction false} DrainKeepsOrder(q: Queue, it: Item, p: Processor)
    requires InOrder(q) && BufferAhead(q) && Acknowledged(q) && it.env.seqNum == q.next
    ensures var r := Drain(q, it, p); InOrder(r) && BufferAhead(r) && Acknowledged(r) && r.next >= q.next
    decreases |q.buffer|
  {
    if p(it, q.attempts) == Success {
      var r := Advance(q, it);
      assert Acknowledged(r) by {
        assert r.finished[|q.finished|] == Finished(it, true);
        assert forall f :: f in q.finished ==> f in r.finished;
      }
      if r.next in r.buffer {
        PopShrinks(r);
        DrainKeepsOrder(Pop(r), r.buffer[r.next], p);
      }
    } else {
      assert forall f :: f in q.finished ==> f in Finish(q, it, false).finished;
    }
  }

  lemma FinishConserves(q: Queue, it: Item, ok: bool, received: multiset<Item>)
    requires Conserved(q, received)
    ensures Conserved(q.(finished := q.finished + [Finished(it, ok)]), received + multiset{it})
  {
    TallySnoc(q.finished, Finished(it, ok));
  }

  lemma PopConserves(q: Queue, received: multiset<Item>)
    requires Conserved(q, received) && Keyed(q.buffer) && q.next in q.buffer
    ensures q.buffer[q.next] in received && Conserved(Pop(q), received - multiset{q.buffer[q.next]})
  {
    RemoveTally(q.buffer, q.next);
  }

  lemma {:induction false} DrainConserves(q: Queue, it: Item, p: Processor, received: multiset<Item>)
    requires Conserved(q, received) && Keyed(q.buffer)
    ensures Conserved(Drain(q, it, p), received + multiset{it})
    decreases |q.buffer|
  {
    var all := received + multiset{it};
    FinishConserves(q, it, p(it, q.attempts) == Success, received);
    if p(it, q.attempts) == Success {
      var r := Advance(q, it);
      if r.next in r.buffer {
        var next := r.buffer[r.next];
        PopShrinks(r);
        PopConserves(r, all);
        DrainConserves(Pop(r), next, p, all - multiset{next});
        assert all - multiset{next} + multiset{next} == all;
      }
    }
  }

  lemma ReceiveKeepsOrder(q: Queue, it: Item, p: Processor)
    requires InOrder(q) && BufferAhead(q) && Acknowledged(q)
    ensures var r := Receive(q, it, p); InOrder(r) && BufferAhead(r) && Acknowledged(r) && r.next >= q.next
  {
    if it.env.seqNum < q.next {
      assert forall f :: f in q.finished ==> f in Discard(q, it).finished;
    } else if it.env.seqNum == q.next {
      DrainKeepsOrder(q, it, p);
    }
  }

  lemma StashConserves(q: Queue, it: Item, received: multiset<Item>)
    requires Conserved(q, received) && Keyed(q.buffer)
    ensures Conserved(Stash(q, it), received + multiset{it})
  {
    StashTally(q, it);
    var done := Tally(q.finished);
    var held := multiset(q.buffer.Values) + multiset(q.lost);
    assert received == done + held;
    assert received + multiset{it} == done + (held + multiset{it});
  }

  lemma ReceiveConserves(q: Queue, it: Item, p: Processor, received: multiset<Item>)
    requires Conserved(q, received) && Keyed(q.buffer)
    ensures Conserved(Receive(q, it, p), received + multiset{it})
  {
    if it.env.seqNum > q.next {
      StashConserves(q, it, received);
    } else if it.env.seqNum < q.next {
      TallySnoc(q.finished, Finished(it, true));
    } else {
      DrainConserves(q, it, p, received);
    }
  }

  lemma {:induction false} EveryRunKeepsInv(xs: seq<Item>, p: Processor)
    ensures Inv(ReceiveAll(xs, p), multiset(xs))
  {
    if xs != [] {
      var n := |xs| - 1;
      EveryRunKeepsInv(xs[..n], p);
      ReceiveKeepsOrder(ReceiveAll(xs[..n], p), xs[n], p);
      ReceiveConserves(ReceiveAll(xs[..n], p), xs[n], p, multiset(xs[..n]));
      assert xs == xs[..n] + [xs[n]];
    }
  }

  // ---------------------------------------------------------------- result channels

  /** How many values were sent on channel `d`: an item without a channel sends none. */
  function Sends(fs: seq<Finished>, d: nat): nat {
    if fs == [] then 0
    else Sends(fs[..|fs| - 1], d) + (if fs[|fs| - 1].item.done == Some(d) then 1 else 0)
  }

  // ---------------------------------------------------------------- the imperative worker

  class SessionQueue {
    const processor: Processor
    var nextExpectedSeq: nat
    var buffer: map<nat, Item>
    var attempts: nat
    ghost var processed: seq<Item>
    ghost var finished: seq<Finished>
    ghost var lost: seq<Item>

    ghost function State(): Queue
      reads this
    {
      Queue(nextExpectedSeq, buffer, attempts, processed, finished, lost)
    }

    constructor (processor: Processor)
      ensures State() == NewQueue() && this.processor == processor
    {
      this.processor := processor;
      nextExpectedSeq, buffer, attempts := 1, map[], 0;
      processed, finished, lost := [], [], [];
    }

    /** At most the item's own channel gets a value, and it gets exactly one. */
    method FinishQueuedEnvelope(item: Item, ok: bool)
      modifies this`finished
      ensures finished == old(finished) + [Finished(item, ok)]
      ensures forall d: nat :: Sends(finished, d) == Sends(old(finished), d) + (if item.done == Some(d) then 1 else 0)
    {
      finished := finished + [Finished(item, ok)];
    }

    /** processEnvelope. The recovered panic and the returned error both end the call after
        answering the current item with an error and without moving nextExpectedSeq. */
    method ProcessEnvelope(envelope: Item)
      modifies this
      ensures State() == Receive(old(State()), envelope, processor)
    {
      var item := envelope;
      if item.env.seqNum > nextExpectedSeq {
        if item.env.seqNum in buffer {
          lost := lost + [buffer[item.env.seqNum]];
        }
        buffer := buffer[item.env.seqNum := item];
        return;
      }
      if item.env.seqNum < nextExpectedSeq {
        FinishQueuedEnvelope(item, true);
        return;
      }
      while true
        invariant Drain(State(), item, processor) == Drain(old(State()), envelope, processor)
        decreases |buffer|
      {
        ghost var r := Advance(State(), item);
        var outcome := processor(item, attempts);
        attempts := attempts + 1;
        if outcome != Success {
          FinishQueuedEnvelope(item, false);
          return;
        }
        FinishQueuedEnvelope(item, true);
        processed := processed + [item];
        nextExpectedSeq := nextExpectedSeq + 1;
        assert State() == r;
        if nextExpectedSeq !in buffer {
          return;
        }
        RemoveShrinks(buffer, nextExpectedSeq);
        item := buffer[nextExpectedSeq];
        buffer := buffer - {nextExpectedSeq};
        assert State() == Pop(r);
      }
    }
  }
}
