/**
 Receiver-side deduplication: dedupSeenBefore and DeliverLocalBatch in
 internal/service/chat/distributor.go. Times are milliseconds and never decrease.
*/
module Deduplication {
  const DEDUP_TTL_MS := 120_000
  const DEDUP_HARD_LIMIT := 200_000

  datatype Mark = Mark(key: string, t: int)

  /** dedupSeen, with the history a reader has in mind: every pair ever recorded. */
  datatype Dedup = Dedup(seen: map<string, int>, marks: seq<Mark>, clock: int)

  function NewDedup(start: int): Dedup {
    Dedup(map[], [], start)
  }

  function KeyOf(dedupKey: string, target: string): string {
    dedupKey + "|" + target
  }

  function Purge(seen: map<string, int>, now: int): map<string, int> {
    map k | k in seen && now - seen[k] < DEDUP_TTL_MS :: seen[k]
  }

  /** dedupSeenBefore: the new state, and whether the pair was seen within the TTL. */
  function Query(d: Dedup, dedupKey: string, target: string, now: int): (Dedup, bool) {
    var key := KeyOf(dedupKey, target);
    if dedupKey == "" then (d.(clock := now), false)
    else if key in d.seen && now - d.seen[key] < DEDUP_TTL_MS then (d.(clock := now), true)
    else
      var seen := d.seen[key := now];
      (Dedup(if |seen| > DEDUP_HARD_LIMIT then Purge(seen, now) else seen, d.marks + [Mark(key, now)], now), false)
  }

  /** The answer of a map that is never purged. */
  ghost predicate SeenWithin(marks: seq<Mark>, key: string, now: int) {
    exists i :: 0 <= i < |marks| && marks[i].key == key && now - marks[i].t < DEDUP_TTL_MS
  }

  // ---------------------------------------------------------------- purging is unobservable

  ghost predicate Remembers(seen: map<string, int>, marks: seq<Mark>, clock: int) {
    forall key, now :: now >= clock ==> ((key in seen && now - seen[key] < DEDUP_TTL_MS) <==> SeenWithin(marks, key, now))
  }

  ghost predicate SpacedMarks(marks: seq<Mark>) {
    forall i, j :: 0 <= i < j < |marks| && marks[i].key == marks[j].key ==> marks[j].t - marks[i].t >= DEDUP_TTL_MS
  }

  ghost predicate Valid(d: Dedup) {
    && Remembers(d.seen, d.marks, d.clock)
    && SpacedMarks(d.marks)
    && (forall k :: k in d.seen ==> d.seen[k] <= d.clock)
  }

  lemma MarkSeen(marks: seq<Mark>, m: Mark, key: string, now: int)
    ensures SeenWithin(marks + [m], key, now) <==> SeenWithin(marks, key, now) || (m.key == key && now - m.t < DEDUP_TTL_MS)
  {
    var more := marks + [m];
    if SeenWithin(marks, key, now) {
      var i :| 0 <= i < |marks| && marks[i].key == key && now - marks[i].t < DEDUP_TTL_MS;
      assert more[i] == marks[i];
    }
    assert more[|marks|] == m;
  }

  lemma RecordRemembers(d: Dedup, key: string, now: int)
    requires Valid(d) && now >= d.clock && !SeenWithin(d.marks, key, now)
    ensures Remembers(d.seen[key := now], d.marks + [Mark(key, now)], now)
  {
    forall k, t | t >= now
      ensures (k in d.seen[key := now] && t - d.seen[key := now][k] < DEDUP_TTL_MS)
         <==> SeenWithin(d.marks + [Mark(key, now)], k, t)
    {
      MarkSeen(d.marks, Mark(key, now), k, t);
    }
  }

  lemma PurgeRemembers(seen: map<string, int>, marks: seq<Mark>, now: int)
    requires Remembers(seen, marks, now)
    ensures Remembers(Purge(seen, now), marks, now)
  {
  }

  lemma RecordIsSpaced(marks: seq<Mark>, key: string, now: int)
    requires SpacedMarks(marks) && !SeenWithin(marks, key, now)
    ensures SpacedMarks(marks + [Mark(key, now)])
  {
  }

  /** Purging at the size limit cannot be observed: every query is answered as the full,
      never purged history would answer it. Two recorded marks of one key are a TTL apart. */
  lemma QueryAnswersAsFullHistory(d: Dedup, dedupKey: string, target: string, now: int)
    requires Valid(d) && now >= d.clock
    ensures var (e, answer) := Query(d, dedupKey, target, now);
      && Valid(e)
      && (answer <==> dedupKey != "" && SeenWithin(d.marks, KeyOf(dedupKey, target), now))
      && e.marks == (if answer || dedupKey == "" then d.marks else d.marks + [Mark(KeyOf(dedupKey, target), now)])
  {
    var key := KeyOf(dedupKey, target);
    var (e, answer) := Query(d, dedupKey, target, now);
    if dedupKey != "" && !answer {
      RecordRemembers(d, key, now);
      RecordIsSpaced(d.marks, key, now);
      PurgeRemembers(d.seen[key := now], e.marks, now);
    }
  }

  // ---------------------------------------------------------------- deliveries

  datatype Delivery = Delivery(dedupKey: string, target: string, t: int)

  /** One target of a batch handled at one time, and the deliveries attempted so far. */
  datatype Receiver = Receiver(dedup: Dedup, delivered: seq<Delivery>)

  function HandleTarget(r: Receiver, dedupKey: string, target: string, now: int): Receiver {
    var (d, before) := Query(r.dedup, dedupKey, target, now);
    Receiver(d, if before then r.delivered else r.delivered + [Delivery(dedupKey, target, now)])
  }

  /** DeliverLocalBatch: `times[i]` is the clock when the i-th target is handled. */
  function HandleBatch(r: Receiver, dedupKey: string, targets: seq<string>, times: seq<int>): Receiver
    requires |targets| == |times|
  {
    if targets == [] then r
    else
      var n := |targets| - 1;
      HandleTarget(HandleBatch(r, dedupKey, targets[..n], times[..n]), dedupKey, targets[n], times[n])
  }

  lemma HandleNext(r: Receiver, dedupKey: string, targets: seq<string>, times: seq<int>, n: nat)
    requires n < |targets| == |times|
    ensures HandleBatch(r, dedupKey, targets[..n + 1], times[..n + 1]) ==
      HandleTarget(HandleBatch(r, dedupKey, targets[..n], times[..n]), dedupKey, targets[n], times[n])
  {
    assert targets[..n + 1][..n] == targets[..n] && times[..n + 1][..n] == times[..n];
  }

  class Inbox {
    var dedupSeen: map<string, int>
    ghost var marks: seq<Mark>
    ghost var clock: int
    ghost var delivered: seq<Delivery>

    ghost function State(): Receiver
      reads this
    {
      Receiver(Dedup(dedupSeen, marks, clock), delivered)
    }

    constructor (ghost start: int)
      ensures State() == Receiver(NewDedup(start), [])
    {
      dedupSeen, marks, clock, delivered := map[], [], start, [];
    }

    method PurgeOld(now: int)
      modifies this`dedupSeen
      ensures dedupSeen == Purge(old(dedupSeen), now)
    {
      var todo := dedupSeen.Keys;
      ghost var gone: set<string> := {};
      while todo != {}
        modifies this`dedupSeen
        invariant todo <= old(dedupSeen).Keys
        invariant gone == set k | k in old(dedupSeen).Keys - todo && now - old(dedupSeen)[k] >= DEDUP_TTL_MS
        invariant dedupSeen == old(dedupSeen) - gone
        decreases |todo|
      {
        var k :| k in todo;
        todo := todo - {k};
        if now - dedupSeen[k] >= DEDUP_TTL_MS {
          dedupSeen := dedupSeen - {k};
          gone := gone + {k};
        }
      }
    }

    method DedupSeenBefore(dedupKey: string, target: string, now: int) returns (before: bool)
      modifies this`dedupSeen, this`marks, this`clock
      ensures (State().dedup, before) == Query(old(State()).dedup, dedupKey, target, now)
    {
      clock := now;
      if dedupKey == "" {
        return false;
      }
      var key := dedupKey + "|" + target;
      if key in dedupSeen && now - dedupSeen[key] < DEDUP_TTL_MS {
        return true;
      }
      dedupSeen := dedupSeen[key := now];
      marks := marks + [Mark(key, now)];
      if |dedupSeen| > DEDUP_HARD_LIMIT {
        PurgeOld(now);
      }
      return false;
    }

    method DeliverLocalBatch(dedupKey: string, targets: seq<string>, times: seq<int>)
      requires |targets| == |times|
      modifies this
      ensures State() == HandleBatch(old(State()), dedupKey, targets, times)
    {
      var n := 0;
      while n < |targets|
        invariant 0 <= n <= |targets|
        invariant State() == HandleBatch(old(State()), dedupKey, targets[..n], times[..n])
      {
        var before := DedupSeenBefore(dedupKey, targets[n], times[n]);
        if !before {
          delivered := delivered + [Delivery(dedupKey, targets[n], times[n])];
        }
        HandleNext(old(State()), dedupKey, targets, times, n);
        n := n + 1;
      }
      assert targets[..n] == targets && times[..n] == times;
    }
  }

  /** Any sequence of handled targets, in batches or not, delivered first or redelivered. */
  datatype Arrival = Arrival(dedupKey: string, target: string, t: int)

  function Receive(start: int, xs: seq<Arrival>): Receiver {
    if xs == [] then Receiver(NewDedup(start), [])
    else
      var x := xs[|xs| - 1];
      HandleTarget(Receive(start, xs[..|xs| - 1]), x.dedupKey, x.target, x.t)
  }

  ghost predicate Timed(start: int, xs: seq<Arrival>) {
    && (forall i :: 0 <= i < |xs| ==> start <= xs[i].t)
    && (forall i, j :: 0 <= i < j < |xs| ==> xs[i].t <= xs[j].t)
  }

  ghost predicate Backed(r: Receiver) {
    forall i :: 0 <= i < |r.delivered| && r.delivered[i].dedupKey != "" ==>
      Mark(KeyOf(r.delivered[i].dedupKey, r.delivered[i].target), r.delivered[i].t) in r.dedup.marks
  }

  ghost predicate SpacedDeliveries(ds: seq<Delivery>) {
    forall i, j :: 0 <= i < j < |ds| && ds[i].dedupKey == ds[j].dedupKey != "" && ds[i].target == ds[j].target ==>
      ds[j].t - ds[i].t >= DEDUP_TTL_MS
  }

  lemma HandleKeepsSpacing(r: Receiver, dedupKey: string, target: string, now: int)
    requires Valid(r.dedup) && Backed(r) && SpacedDeliveries(r.delivered) && now >= r.dedup.clock
    ensures var s := HandleTarget(r, dedupKey, target, now);
      Valid(s.dedup) && Backed(s) && SpacedDeliveries(s.delivered) && s.dedup.clock == now
  {
    var s := HandleTarget(r, dedupKey, target, now);
    var key := KeyOf(dedupKey, target);
    QueryAnswersAsFullHistory(r.dedup, dedupKey, target, now);
    assert forall m :: m in r.dedup.marks ==> m in s.dedup.marks;
    if s.delivered != r.delivered && dedupKey != "" {
      assert s.dedup.marks[|r.dedup.marks|] == Mark(key, now);
      forall i | 0 <= i < |r.delivered| && r.delivered[i].dedupKey == dedupKey && r.delivered[i].target == target
        ensures now - r.delivered[i].t >= DEDUP_TTL_MS
      {
        assert Mark(key, r.delivered[i].t) in r.dedup.marks;
      }
    }
  }

  /** However often the bus redelivers, two deliveries of the same message to the same target
      are at least the TTL apart. */
  lemma {:induction false} RedeliveriesAreSpaced(start: int, xs: seq<Arrival>)
    requires Timed(start, xs)
    ensures var r := Receive(start, xs);
      && Valid(r.dedup) && Backed(r) && SpacedDeliveries(r.delivered)
      && r.dedup.clock == (if xs == [] then start else xs[|xs| - 1].t)
  {
    if xs != [] {
      var n := |xs| - 1;
      RedeliveriesAreSpaced(start, xs[..n]);
      HandleKeepsSpacing(Receive(start, xs[..n]), xs[n].dedupKey, xs[n].target, xs[n].t);
    }
  }

  // ---------------------------------------------------------------- keys

  /** The joined key tells pairs apart if the message ids hold no separator. */
  lemma KeysTellPairsApart(a: string, x: string, b: string, y: string)
    requires '|' !in a && '|' !in b
    ensures KeyOf(a, x) == KeyOf(b, y) <==> a == b && x == y
  {
    var k, l := KeyOf(a, x), KeyOf(b, y);
    FirstSeparator(a, x);
    FirstSeparator(b, y);
    if k == l {
      assert k[|a|] == '|' && l[|b|] == '|';
      assert k[..|a|] == a && l[..|b|] == b;
      assert k[|a| + 1..] == x && l[|b| + 1..] == y;
    }
  }

  lemma FirstSeparator(a: string, x: string)
    requires '|' !in a
    ensures KeyOf(a, x)[|a|] == '|' && forall i :: 0 <= i < |a| ==> KeyOf(a, x)[i] != '|'
  {
  }

  // ---------------------------------------------------------------- nothing else is dropped

  /** Every mark was left by a delivery of an id without a separator. */
  ghost predicate Traced(r: Receiver) {
    forall m :: m in r.dedup.marks ==>
      exists d :: d in r.delivered && '|' !in d.dedupKey && m == Mark(KeyOf(d.dedupKey, d.target), d.t)
  }

  ghost predicate DeliveredWithin(ds: seq<Delivery>, dedupKey: string, target: string, now: int) {
    exists d :: d in ds && d.dedupKey == dedupKey && d.target == target && now - d.t < DEDUP_TTL_MS
  }

  lemma SeenMeansDelivered(r: Receiver, dedupKey: string, target: string, now: int)
    requires Backed(r) && Traced(r) && dedupKey != "" && '|' !in dedupKey
    ensures SeenWithin(r.dedup.marks, KeyOf(dedupKey, target), now) <==> DeliveredWithin(r.delivered, dedupKey, target, now)
  {
    var key := KeyOf(dedupKey, target);
    if SeenWithin(r.dedup.marks, key, now) {
      var i :| 0 <= i < |r.dedup.marks| && r.dedup.marks[i].key == key && now - r.dedup.marks[i].t < DEDUP_TTL_MS;
      assert r.dedup.marks[i] in r.dedup.marks;
      var d :| d in r.delivered && '|' !in d.dedupKey && r.dedup.marks[i] == Mark(KeyOf(d.dedupKey, d.target), d.t);
      KeysTellPairsApart(d.dedupKey, d.target, dedupKey, target);
    }
    if DeliveredWithin(r.delivered, dedupKey, target, now) {
      var d :| d in r.delivered && d.dedupKey == dedupKey && d.target == target && now - d.t < DEDUP_TTL_MS;
      var j :| 0 <= j < |r.delivered| && r.delivered[j] == d;
      assert Mark(key, d.t) in r.dedup.marks;
    }
  }

  lemma HandleKeepsTraced(r: Receiver, dedupKey: string, target: string, now: int)
    requires Traced(r) && '|' !in dedupKey
    ensures Traced(HandleTarget(r, dedupKey, target, now))
  {
    var s := HandleTarget(r, dedupKey, target, now);
    forall m | m in s.dedup.marks
      ensures exists d :: d in s.delivered && '|' !in d.dedupKey && m == Mark(KeyOf(d.dedupKey, d.target), d.t)
    {
      if m in r.dedup.marks {
        var d :| d in r.delivered && '|' !in d.dedupKey && m == Mark(KeyOf(d.dedupKey, d.target), d.t);
        assert d in s.delivered;
      } else {
        assert s.delivered[|r.delivered|] == Delivery(dedupKey, target, now);
      }
    }
  }

  ghost predicate PlainIds(xs: seq<Arrival>) {
    forall x :: x in xs ==> '|' !in x.dedupKey
  }

  lemma {:induction false} RunIsTraced(start: int, xs: seq<Arrival>)
    requires PlainIds(xs)
    ensures Traced(Receive(start, xs))
  {
    if xs != [] {
      var n := |xs| - 1;
      assert xs[n] in xs && forall x :: x in xs[..n] ==> x in xs;
      RunIsTraced(start, xs[..n]);
      HandleKeepsTraced(Receive(start, xs[..n]), xs[n].dedupKey, xs[n].target, xs[n].t);
    }
  }

  /** Over every run, with the ids the entry makes: a handled target is delivered, unless the same
      message was delivered to the same target less than the TTL before; and never otherwise. A
      message without an id is always delivered. */
  lemma DeliveredUnlessRecent(start: int, xs: seq<Arrival>, x: Arrival)
    requires Timed(start, xs + [x]) && PlainIds(xs) && '|' !in x.dedupKey
    ensures var before, after := Receive(start, xs).delivered, Receive(start, xs + [x]).delivered;
      after == if x.dedupKey != "" && DeliveredWithin(before, x.dedupKey, x.target, x.t) then before
               else before + [Delivery(x.dedupKey, x.target, x.t)]
  {
    var r := Receive(start, xs);
    assert (xs + [x])[..|xs|] == xs;
    assert forall i :: 0 <= i < |xs| ==> (xs + [x])[i] == xs[i];
    assert (xs + [x])[|xs|] == x;
    RedeliveriesAreSpaced(start, xs);
    RunIsTraced(start, xs);
    QueryAnswersAsFullHistory(r.dedup, x.dedupKey, x.target, x.t);
    if x.dedupKey != "" { SeenMeansDelivered(r, x.dedupKey, x.target, x.t); }
  }

  // ---------------------------------------------------------------- memory

  /** What a query forgets and what it keeps: nothing younger than the TTL is forgotten, and nothing at
      all while the map holds no more than its limit; past the limit only what is younger stays. */
  lemma QueryBoundsMemory(d: Dedup, dedupKey: string, target: string, now: int)
    ensures var r := Query(d, dedupKey, target, now).0;
      && (forall k :: k in d.seen && k !in r.seen ==> now - d.seen[k] >= DEDUP_TTL_MS)
      && (|d.seen| < DEDUP_HARD_LIMIT ==> d.seen.Keys <= r.seen.Keys)
      && (r.marks != d.marks && |r.seen| > DEDUP_HARD_LIMIT ==> forall k :: k in r.seen ==> now - r.seen[k] < DEDUP_TTL_MS)
      && (r.marks != d.marks && |d.seen| >= DEDUP_HARD_LIMIT && KeyOf(dedupKey, target) !in d.seen ==>
            forall k :: k in r.seen ==> now - r.seen[k] < DEDUP_TTL_MS)
  {
    var key := KeyOf(dedupKey, target);
    var seen := d.seen[key := now];
    assert seen.Keys == d.seen.Keys + {key};
    if key !in d.seen {
      assert |d.seen.Keys + {key}| == |d.seen.Keys| + 1;
    } else {
      assert d.seen.Keys + {key} == d.seen.Keys;
    }
  }
}
