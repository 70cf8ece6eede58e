/**
 What a session worker guarantees over every sequence of arrivals: gaps, duplicates,
 redeliveries and failing attempts included.
*/
module SessionOrder {
  import opened Wrappers
  import opened SessionQueues

  function Seqs(xs: seq<Item>): set<nat> {
    set x | x in xs :: x.env.seqNum
  }

  function Envelopes(xs: seq<Item>): seq<Envelope> {
    seq(|xs|, i requires 0 <= i < |xs| => xs[i].env)
  }

  /** Copies of one sequence number carry one envelope: the counter numbers it once. */
  ghost predicate Consistent(xs: seq<Item>) {
    forall x, y :: x in xs && y in xs && x.env.seqNum == y.env.seqNum ==> x.env == y.env
  }

  // ------------------------------------------------------------ safety, any processor

  /** The processed items carry 1, 2, .., next - 1 in this order, and each of them arrived. */
  lemma ProcessedInOrder(xs: seq<Item>, p: Processor)
    ensures var q := ReceiveAll(xs, p);
      && |q.processed| == q.next - 1
      && (forall i :: 0 <= i < |q.processed| ==> q.processed[i].env.seqNum == i + 1 && q.processed[i] in xs)
  {
    var q := ReceiveAll(xs, p);
    EveryRunKeepsInv(xs, p);
    forall i | 0 <= i < |q.processed| ensures q.processed[i] in xs {
      TallyHas(q.finished, Finished(q.processed[i], true));
      assert q.processed[i] in multiset(xs);
    }
  }

  lemma PassedNumberArrived(xs: seq<Item>, p: Processor, k: nat)
    requires 1 <= k < ReceiveAll(xs, p).next
    ensures k in Seqs(xs)
  {
    ProcessedInOrder(xs, p);
    assert ReceiveAll(xs, p).processed[k - 1] in xs;
  }

  /** A number that never arrives blocks all its successors, whatever the processor does. */
  lemma GapBlocks(xs: seq<Item>, p: Processor, gap: nat)
    requires gap >= 1 && gap !in Seqs(xs)
    ensures ReceiveAll(xs, p).next <= gap
  {
    if ReceiveAll(xs, p).next > gap {
      PassedNumberArrived(xs, p, gap);
    }
  }

  /** A queue recreated after idle cleanup expects 1 again: it serves a running session
      if and only if number 1 arrives once more. */
  lemma RecreatedQueueServes(xs: seq<Item>, p: Processor)
    requires forall it, n :: p(it, n) == Success
    ensures ReceiveAll(xs, p).processed != [] <==> 1 in Seqs(xs)
  {
    ProcessedInOrder(xs, p);
    Frontier(xs, p);
  }

  // ------------------------------------------------------------ answers to waiters

  lemma {:induction false} SendsIsTally(fs: seq<Finished>, d: nat, it: Item)
    requires it.done == Some(d)
    requires forall f :: f in fs && f.item.done == Some(d) ==> f.item == it
    ensures Sends(fs, d) == Tally(fs)[it]
  {
    if fs != [] {
      SendsIsTally(fs[..|fs| - 1], d, it);
      assert fs[|fs| - 1] in fs;
    }
  }

  lemma {:induction false} OccursOnce(xs: seq<Item>, i: nat)
    requires i < |xs| && forall j :: 0 <= j < |xs| && j != i ==> xs[j] != xs[i]
    ensures multiset(xs)[xs[i]] == 1
  {
    assert xs == xs[..i] + [xs[i]] + xs[i + 1..];
    assert xs[i] !in xs[..i] && xs[i] !in xs[i + 1..];
  }

  ghost predicate OwnChannel(xs: seq<Item>, i: nat)
    requires i < |xs|
  {
    xs[i].done.Some? && forall j :: 0 <= j < |xs| && j != i ==> xs[j].done != xs[i].done
  }

  ghost predicate Answered(q: Queue, it: Item) {
    Finished(it, true) in q.finished || Finished(it, false) in q.finished
  }

  lemma {:induction false} TallyFrom(fs: seq<Finished>, it: Item)
    requires it in Tally(fs)
    ensures Finished(it, true) in fs || Finished(it, false) in fs
  {
    var last := fs[|fs| - 1];
    if last.item != it {
      TallyFrom(fs[..|fs| - 1], it);
    } else {
      assert last in fs;
    }
  }

  /** The capacity-1 channel of a waiter gets at most one value, and it gets one exactly
      when the item is neither still buffered nor was overwritten in the buffer. */
  lemma AnsweredAtMostOnce(xs: seq<Item>, p: Processor, i: nat)
    requires i < |xs| && OwnChannel(xs, i)
    ensures var q := ReceiveAll(xs, p); var it := xs[i];
      && Sends(q.finished, it.done.value) <= 1
      && (Sends(q.finished, it.done.value) == 1 <==> Answered(q, it))
      && (Answered(q, it) <==> it !in q.buffer.Values && it !in q.lost)
  {
    var q := ReceiveAll(xs, p);
    var it := xs[i];
    EveryRunKeepsInv(xs, p);
    OccursOnce(xs, i);
    forall f | f in q.finished && f.item.done == it.done ensures f.item == it {
      TallyHas(q.finished, f);
      assert f.item in multiset(xs);
    }
    SendsIsTally(q.finished, it.done.value, it);
    assert multiset(xs)[it] == Tally(q.finished)[it] + multiset(q.buffer.Values)[it] + multiset(q.lost)[it];
    if Answered(q, it) {
      TallyHas(q.finished, if Finished(it, true) in q.finished then Finished(it, true) else Finished(it, false));
    } else if it in Tally(q.finished) {
      TallyFrom(q.finished, it);
    }
  }

  /** A nil answer means the number is behind the frontier: some copy was processed. */
  lemma NilAnswerMeansProcessed(xs: seq<Item>, p: Processor, it: Item)
    requires Finished(it, true) in ReceiveAll(xs, p).finished && it.env.seqNum >= 1
    ensures var q := ReceiveAll(xs, p);
      && it.env.seqNum <= |q.processed| == q.next - 1
      && q.processed[it.env.seqNum - 1].env.seqNum == it.env.seqNum
      && q.processed[it.env.seqNum - 1] in xs
  {
    EveryRunKeepsInv(xs, p);
    ProcessedInOrder(xs, p);
  }

  // ------------------------------------------------------------ progress, succeeding processor

  /** next - 1 is the largest m with 1..m all arrived; the buffer holds the later arrivals. */
  ghost predicate AtFrontier(q: Queue, arrived: set<nat>) {
    && q.next >= 1
    && (forall k :: 1 <= k < q.next ==> k in arrived)
    && q.next !in arrived
    && (forall k :: k in q.buffer <==> k in arrived && k > q.next)
  }

  lemma {:induction false} DrainReachesFrontier(q: Queue, it: Item, p: Processor, arrived: set<nat>)
    requires forall x, n :: p(x, n) == Success
    requires q.next >= 1 && q.next in arrived
    requires forall k :: 1 <= k < q.next ==> k in arrived
    requires forall k :: k in q.buffer <==> k in arrived && k > q.next
    ensures AtFrontier(Drain(q, it, p), arrived)
    decreases |q.buffer|
  {
    var r := Advance(q, it);
    if r.next in r.buffer {
      PopShrinks(r);
      DrainReachesFrontier(Pop(r), r.buffer[r.next], p, arrived);
    }
  }

  lemma {:induction false} Frontier(xs: seq<Item>, p: Processor)
    requires forall it, n :: p(it, n) == Success
    ensures AtFrontier(ReceiveAll(xs, p), Seqs(xs))
  {
    if xs != [] {
      var n := |xs| - 1;
      Frontier(xs[..n], p);
      assert xs == xs[..n] + [xs[n]];
      assert Seqs(xs) == Seqs(xs[..n]) + {xs[n].env.seqNum};
      var q := ReceiveAll(xs[..n], p);
      if xs[n].env.seqNum == q.next {
        DrainReachesFrontier(q, xs[n], p, Seqs(xs));
      }
    }
  }

  /** The result does not depend on the order of arrival nor on how often a copy arrives. */
  lemma ArrivalOrderIrrelevant(xs: seq<Item>, ys: seq<Item>, p: Processor)
    requires forall it, n :: p(it, n) == Success
    requires Seqs(xs) == Seqs(ys) && Consistent(xs + ys)
    ensures var q, r := ReceiveAll(xs, p), ReceiveAll(ys, p);
      && q.next == r.next && q.buffer.Keys == r.buffer.Keys
      && Envelopes(q.processed) == Envelopes(r.processed)
  {
    var q, r := ReceiveAll(xs, p), ReceiveAll(ys, p);
    Frontier(xs, p);
    Frontier(ys, p);
    assert q.next == r.next;
    ProcessedInOrder(xs, p);
    ProcessedInOrder(ys, p);
    forall i | 0 <= i < |q.processed| ensures q.processed[i].env == r.processed[i].env {
      assert q.processed[i] in xs + ys && r.processed[i] in xs + ys;
    }
  }

  // ------------------------------------------------------------ retry of a failed batch

  /** Every retry copy seen so far was answered nil, or sits in the buffer intact. */
  ghost predicate Settling(q: Queue, retry: map<nat, Item>, seen: set<nat>) {
    forall k :: k in seen && k in retry ==>
      if k < q.next then Finished(retry[k], true) in q.finished
      else k in q.buffer && q.buffer[k] == retry[k]
  }

  ghost predicate RetrySucceeds(retry: map<nat, Item>, p: Processor) {
    forall k, n :: k in retry ==> p(retry[k], n) == Success
  }

  /** Once its retry copy is there, no other copy of a number arrives. Earlier ones may. */
  ghost predicate RetryComesLast(xs: seq<Item>, retry: map<nat, Item>) {
    forall j :: 0 <= j < |xs| && xs[j].env.seqNum in retry && xs[j] != retry[xs[j].env.seqNum] ==>
      retry[xs[j].env.seqNum] !in xs[..j]
  }

  function Arrived(xs: seq<Item>, retry: map<nat, Item>): set<nat> {
    set k | k in retry && retry[k] in xs
  }

  lemma {:induction false} DrainSettles(q: Queue, it: Item, p: Processor, retry: map<nat, Item>, seen: set<nat>)
    requires RetrySucceeds(retry, p) && Keyed(retry)
    requires BufferAhead(q) && it.env.seqNum == q.next
    requires Settling(q, retry, seen - {q.next})
    requires q.next in seen && q.next in retry ==> it == retry[q.next]
    ensures Settling(Drain(q, it, p), retry, seen)
    decreases |q.buffer|
  {
    if p(it, q.attempts) == Success {
      var r := Advance(q, it);
      assert r.finished[|q.finished|] == Finished(it, true);
      assert forall f :: f in q.finished ==> f in r.finished;
      assert Settling(r, retry, seen);
      if r.next in r.buffer {
        PopShrinks(r);
        DrainSettles(Pop(r), r.buffer[r.next], p, retry, seen);
      }
    } else {
      assert forall f :: f in q.finished ==> f in Finish(q, it, false).finished;
    }
  }

  lemma ReceiveSettles(q: Queue, x: Item, p: Processor, retry: map<nat, Item>, seen: set<nat>)
    requires RetrySucceeds(retry, p) && Keyed(retry)
    requires BufferAhead(q)
    requires Settling(q, retry, seen - {x.env.seqNum})
    requires x.env.seqNum in seen && x.env.seqNum in retry ==> x == retry[x.env.seqNum]
    ensures Settling(Receive(q, x, p), retry, seen)
  {
    var k := x.env.seqNum;
    if k == q.next {
      DrainSettles(q, x, p, retry, seen);
    } else if k < q.next {
      assert Discard(q, x).finished[|q.finished|] == Finished(x, true);
      assert forall f :: f in q.finished ==> f in Discard(q, x).finished;
    }
  }

  function Resume(q: Queue, xs: seq<Item>, p: Processor): Queue {
    if xs == [] then q else Receive(Resume(q, xs[..|xs| - 1], p), xs[|xs| - 1], p)
  }

  lemma ArrivedNext(xs: seq<Item>, retry: map<nat, Item>)
    requires xs != [] && Keyed(retry) && RetryComesLast(xs, retry)
    ensures var x, before := xs[|xs| - 1], Arrived(xs[..|xs| - 1], retry);
      && RetryComesLast(xs[..|xs| - 1], retry)
      && Arrived(xs, retry) - {x.env.seqNum} <= before
      && (x.env.seqNum in Arrived(xs, retry) ==> x == retry[x.env.seqNum])
  {
    var n := |xs| - 1;
    assert xs == xs[..n] + [xs[n]];
    forall j | 0 <= j < n && xs[j].env.seqNum in retry && xs[j] != retry[xs[j].env.seqNum]
      ensures retry[xs[j].env.seqNum] !in xs[..n][..j]
    {
      assert xs[..n][..j] == xs[..j];
    }
  }

  lemma {:induction false} ResumeSettles(q: Queue, xs: seq<Item>, p: Processor, retry: map<nat, Item>)
    requires RetrySucceeds(retry, p) && Keyed(retry) && RetryComesLast(xs, retry)
    requires InOrder(q) && BufferAhead(q) && Acknowledged(q)
    ensures var r := Resume(q, xs, p);
      InOrder(r) && BufferAhead(r) && Acknowledged(r) && r.next >= q.next && Settling(r, retry, Arrived(xs, retry))
  {
    if xs != [] {
      var n := |xs| - 1;
      ArrivedNext(xs, retry);
      ResumeSettles(q, xs[..n], p, retry);
      var mid := Resume(q, xs[..n], p);
      ReceiveKeepsOrder(mid, xs[n], p);
      ReceiveSettles(mid, xs[n], p, retry, Arrived(xs, retry));
    }
  }

  /** Resubmitting a contiguous batch first..last that starts at or below the frontier
      answers every retry waiter nil and moves the frontier past the batch: in whatever order
      the retry copies arrive, with whatever else arriving in between, other copies of the
      batch's own numbers included, as long as none comes after its retry copy; and even if
      every stale copy, buffered or arriving, fails. */
  lemma ResubmittedBatchCompletes(q: Queue, received: multiset<Item>, xs: seq<Item>, p: Processor,
                                  retry: map<nat, Item>, first: nat, last: nat)
    requires Inv(q, received)
    requires first <= q.next && first <= last
    requires (forall k :: k in retry <==> first <= k <= last) && Keyed(retry) && RetrySucceeds(retry, p)
    requires forall k :: k in retry ==> retry[k] in xs
    requires RetryComesLast(xs, retry)
    ensures var r := Resume(q, xs, p);
      && r.next > last
      && (forall k :: k in retry ==> Finished(retry[k], true) in r.finished)
  {
    ResumeSettles(q, xs, p, retry);
    var r := Resume(q, xs, p);
    assert r.next in retry ==> r.next in Arrived(xs, retry);
    forall k | k in retry ensures Finished(retry[k], true) in r.finished {
      assert k in Arrived(xs, retry);
    }
  }

  /** The second loop of EnqueueMessagesAndWait: wait for the answers in batch order and leave
      at the first error. `expired(i)` says that the context ends the i-th wait; a wait without
      an answer can only end that way. */
  method AwaitAll(items: seq<Item>, answers: seq<Finished>, expired: nat -> bool) returns (ok: bool)
    ensures ok <==> forall i :: 0 <= i < |items| ==> Finished(items[i], true) in answers && !expired(i)
  {
    var i := 0;
    while i < |items|
      invariant 0 <= i <= |items|
      invariant forall j :: 0 <= j < i ==> Finished(items[j], true) in answers && !expired(j)
    {
      if expired(i) || Finished(items[i], true) !in answers {
        return false;
      }
      i := i + 1;
    }
    return true;
  }

  /** The proviso is needed: a later copy of a number still ahead of the frontier overwrites the
      retry copy in the buffer, and then its waiter gets no answer in any continuation. */
  lemma LaterCopySilencesTheWaiter(xs: seq<Item>, p: Processor, i: nat, late: Item, more: seq<Item>)
    requires i < |xs| && xs[i] in ReceiveAll(xs, p).buffer.Values
    requires late.env.seqNum == xs[i].env.seqNum && OwnChannel(xs + [late] + more, i)
    ensures Sends(ReceiveAll(xs + [late] + more, p).finished, xs[i].done.value) == 0
  {
    var all := xs + [late] + more;
    assert all[i] == xs[i];
    EveryRunKeepsInv(xs, p);
    AnsweredAtMostOnce(all, p, i);
    assert xs[i] in ReceiveAll(xs + [late], p).lost by {
      ReceiveAllSnoc(xs, late, p);
    }
    LostStays(xs + [late], p, more, xs[i]);
  }

  lemma {:induction false} DrainKeepsLost(q: Queue, it: Item, p: Processor)
    ensures Drain(q, it, p).lost == q.lost
    decreases |q.buffer|
  {
    if p(it, q.attempts) == Success {
      var r := Advance(q, it);
      if r.next in r.buffer {
        PopShrinks(r);
        DrainKeepsLost(Pop(r), r.buffer[r.next], p);
      }
    }
  }

  lemma {:induction false} LostStays(xs: seq<Item>, p: Processor, more: seq<Item>, it: Item)
    requires it in ReceiveAll(xs, p).lost
    ensures it in ReceiveAll(xs + more, p).lost
  {
    if more == [] {
      assert xs + more == xs;
    } else {
      var n := |more| - 1;
      LostStays(xs, p, more[..n], it);
      assert xs + more == (xs + more[..n]) + [more[n]];
      ReceiveAllSnoc(xs + more[..n], more[n], p);
      var q := ReceiveAll(xs + more[..n], p);
      if more[n].env.seqNum == q.next {
        DrainKeepsLost(q, more[n], p);
      }
    }
  }
}
