/**
 The consistent-hash ring: internal/service/chat/session_ring.go.

 CRC-32 is any function into 32-bit values. The library sorts are known only by their
 contract (sort.Slice is not stable), so whatever is proved holds for every arrangement of
 entries with equal hashes.
*/
module SessionRings {
  import opened Sequences
  import opened Decimals

  const DEFAULT_RING_REPLICAS := 128
  const CIRCLE := 0x1_0000_0000

  type Hash = h: nat | h < CIRCLE

  datatype Entry = Entry(hash: Hash, instance: string)

  // ---------------------------------------------------------------- sorting

  ghost predicate TotalPreorder<T(!new)>(le: (T, T) -> bool) {
    && (forall a, b :: le(a, b) || le(b, a))
    && (forall a, b, c :: le(a, b) && le(b, c) ==> le(a, c))
  }

  ghost predicate SortedBy<T>(xs: seq<T>, le: (T, T) -> bool) {
    forall i, j :: 0 <= i < j < |xs| ==> le(xs[i], xs[j])
  }

  method Insert<T>(ys: seq<T>, k: nat, x: T, ghost le: (T, T) -> bool) returns (zs: seq<T>)
    requires k <= |ys| && SortedBy(ys, le)
    requires (forall i :: 0 <= i < k ==> le(ys[i], x)) && (forall i :: k <= i < |ys| ==> le(x, ys[i]))
    ensures SortedBy(zs, le) && multiset(zs) == multiset(ys) + multiset{x}
  {
    zs := ys[..k] + [x] + ys[k..];
    assert ys == ys[..k] + ys[k..];
  }

  /** Stands for sort.Strings and sort.Slice. */
  method Sort<T(!new)>(xs: seq<T>, le: (T, T) -> bool) returns (ys: seq<T>)
    requires TotalPreorder(le)
    ensures SortedBy(ys, le) && multiset(ys) == multiset(xs)
  {
    ys := [];
    var n := 0;
    while n < |xs|
      invariant 0 <= n <= |xs|
      invariant SortedBy(ys, le) && multiset(ys) == multiset(xs[..n])
    {
      var k := 0;
      while k < |ys| && le(ys[k], xs[n])
        invariant 0 <= k <= |ys|
        invariant forall i :: 0 <= i < k ==> le(ys[i], xs[n])
      {
        k := k + 1;
      }
      var x := xs[n];
      forall j | k <= j < |ys| ensures le(x, ys[j]) {
        assert le(x, ys[k]);
        assert k < j ==> le(ys[k], ys[j]);
      }
      assert ys == ys[..k] + ys[k..] && xs[..n + 1] == xs[..n] + [xs[n]];
      ys := Insert(ys, k, x, le);
      n := n + 1;
    }
    assert xs[..n] == xs;
  }

  predicate StringLe(a: string, b: string) {
    a == [] || (b != [] && (a[0] < b[0] || (a[0] == b[0] && StringLe(a[1..], b[1..]))))
  }

  predicate HashLe(a: Entry, b: Entry) {
    a.hash <= b.hash
  }

  lemma {:induction false} StringLeTotal(a: string, b: string)
    ensures StringLe(a, b) || StringLe(b, a)
    ensures StringLe(a, b) && StringLe(b, a) ==> a == b
  {
    if a != [] && b != [] && a[0] == b[0] {
      StringLeTotal(a[1..], b[1..]);
      assert a == [a[0]] + a[1..] && b == [b[0]] + b[1..];
    }
  }

  lemma {:induction false} StringLeTransitive(a: string, b: string, c: string)
    requires StringLe(a, b) && StringLe(b, c)
    ensures StringLe(a, c)
  {
    if a != [] && a[0] == b[0] == c[0] {
      StringLeTransitive(a[1..], b[1..], c[1..]);
    }
  }

  lemma StringLeIsOrder()
    ensures TotalPreorder(StringLe)
  {
    forall a, b ensures StringLe(a, b) || StringLe(b, a) {
      StringLeTotal(a, b);
    }
    forall a, b, c | StringLe(a, b) && StringLe(b, c) ensures StringLe(a, c) {
      StringLeTransitive(a, b, c);
    }
  }

  // ---------------------------------------------------------------- virtual nodes

  function NodeKey(inst: string, i: nat): string {
    inst + "#" + Itoa(i)
  }

  lemma LastSeparator(inst: string, i: nat, p: nat)
    requires p < |NodeKey(inst, i)|
    ensures NodeKey(inst, i)[|inst|] == '#' && (p > |inst| ==> NodeKey(inst, i)[p] != '#')
  {
    var key := NodeKey(inst, i);
    assert p > |inst| ==> key[p] == Itoa(i)[p - |inst| - 1];
  }

  /** No two virtual nodes, of one instance or of two, are hashed from one key: only a collision of
      the hash puts them on one point. */
  lemma NodeKeysDiffer(a: string, i: nat, b: string, j: nat)
    ensures NodeKey(a, i) == NodeKey(b, j) <==> a == b && i == j
  {
    var x, y := NodeKey(a, i), NodeKey(b, j);
    if x == y {
      LastSeparator(a, i, |b|);
      LastSeparator(b, j, |a|);
      assert |a| == |b|;
      assert x[..|a|] == a && y[..|b|] == b && x[|a| + 1..] == Itoa(i) && y[|b| + 1..] == Itoa(j);
      ItoaTellsApart(i, j);
    }
  }

  function VirtualNode(hashKey: string -> Hash, inst: string, i: nat): Entry {
    Entry(hashKey(NodeKey(inst, i)), inst)
  }

  function NodesOf(hashKey: string -> Hash, inst: string, replicas: nat): seq<Entry> {
    seq(replicas, i requires 0 <= i < replicas => VirtualNode(hashKey, inst, i))
  }

  function AllNodes(hashKey: string -> Hash, insts: seq<string>, replicas: nat): seq<Entry> {
    if insts == [] then []
    else AllNodes(hashKey, insts[..|insts| - 1], replicas) + NodesOf(hashKey, insts[|insts| - 1], replicas)
  }

  /** The points of a set of instances on the circle. */
  ghost function Points(hashKey: string -> Hash, insts: set<string>, replicas: nat): set<Entry> {
    set inst, i | inst in insts && 0 <= i < replicas :: VirtualNode(hashKey, inst, i)
  }

  lemma {:induction false} AllNodesArePoints(hashKey: string -> Hash, insts: seq<string>, replicas: nat, e: Entry)
    ensures e in AllNodes(hashKey, insts, replicas) <==> e in Points(hashKey, Elements(insts), replicas)
  {
    if insts != [] {
      var n := |insts| - 1;
      AllNodesArePoints(hashKey, insts[..n], replicas, e);
      var nodes := NodesOf(hashKey, insts[n], replicas);
      assert insts == insts[..n] + [insts[n]];
      if e in nodes {
        var i :| 0 <= i < |nodes| && nodes[i] == e;
        assert insts[n] in insts && e == VirtualNode(hashKey, insts[n], i);
      }
      if e in Points(hashKey, Elements(insts), replicas) {
        var inst, i :| inst in insts && 0 <= i < replicas && e == VirtualNode(hashKey, inst, i);
        if inst == insts[n] {
          assert nodes[i] == e;
        } else {
          assert inst in insts[..n];
        }
      }
      if e in Points(hashKey, Elements(insts[..n]), replicas) {
        var inst, i :| inst in insts[..n] && 0 <= i < replicas && e == VirtualNode(hashKey, inst, i);
        assert inst in insts;
      }
    }
  }

  // ---------------------------------------------------------------- the imperative ring

  /** Linear scan: the first entry at or after `h`, and the first entry of all if none is. */
  function ScanFrom(ring: seq<Entry>, h: Hash, i: nat): (r: nat)
    requires i <= |ring|
    ensures ring != [] ==> r < |ring|
    decreases |ring| - i
  {
    if i == |ring| then 0 else if ring[i].hash >= h then i else ScanFrom(ring, h, i + 1)
  }

  function HomeOn(ring: seq<Entry>, h: Hash): string {
    if ring == [] then "" else ring[ScanFrom(ring, h, 0)].instance
  }

  lemma {:induction false} ScanFinds(ring: seq<Entry>, h: Hash, i: nat, k: nat)
    requires i <= k <= |ring|
    requires forall j :: i <= j < k ==> ring[j].hash < h
    requires k < |ring| ==> ring[k].hash >= h
    ensures ScanFrom(ring, h, i) == if k == |ring| then 0 else k
    decreases k - i
  {
    if i < k {
      ScanFinds(ring, h, i + 1, k);
    }
  }

  class SessionRing {
    const replicas: nat
    const hashKey: string -> Hash
    var instances: seq<string>
    var ring: seq<Entry>

    /** The ring holds exactly the virtual nodes of the listed instances, sorted by hash. */
    ghost predicate Holds(insts: set<string>)
      reads this
    {
      && SortedBy(ring, HashLe)
      && Elements(ring) == Points(hashKey, insts, replicas)
    }

    constructor (replicas: int, hashKey: string -> Hash)
      ensures this.replicas == (if replicas <= 0 then DEFAULT_RING_REPLICAS else replicas)
      ensures this.hashKey == hashKey && instances == [] && ring == [] && Holds({})
    {
      this.replicas := if replicas <= 0 then DEFAULT_RING_REPLICAS else replicas;
      this.hashKey := hashKey;
      instances, ring := [], [];
    }

    method Unique(given: seq<string>) returns (uniq: seq<string>)
      ensures Elements(uniq) == Elements(given) - {""}
      ensures NoRepeats(uniq)
    {
      uniq := [];
      var seen: set<string> := {};
      var n := 0;
      while n < |given|
        invariant 0 <= n <= |given|
        invariant seen == Elements(uniq) == Elements(given[..n]) - {""}
        invariant NoRepeats(uniq)
      {
        var inst := given[n];
        assert given[..n + 1] == given[..n] + [inst];
        if inst != "" && inst !in seen {
          seen := seen + {inst};
          uniq := uniq + [inst];
        }
        n := n + 1;
      }
      assert given[..n] == given;
    }

    method BuildNodes(uniq: seq<string>) returns (nodes: seq<Entry>)
      ensures nodes == AllNodes(hashKey, uniq, replicas)
    {
      nodes := [];
      var n := 0;
      while n < |uniq|
        invariant 0 <= n <= |uniq|
        invariant nodes == AllNodes(hashKey, uniq[..n], replicas)
      {
        var i := 0;
        while i < replicas
          invariant 0 <= i <= replicas
          invariant nodes == AllNodes(hashKey, uniq[..n], replicas) + NodesOf(hashKey, uniq[n], replicas)[..i]
        {
          nodes := nodes + [VirtualNode(hashKey, uniq[n], i)];
          i := i + 1;
        }
        assert uniq[..n + 1][..n] == uniq[..n];
        n := n + 1;
      }
      assert uniq[..n] == uniq;
    }

    method SetInstances(given: seq<string>)
      modifies this
      ensures Holds(Elements(given) - {""})
      ensures SortedBy(instances, StringLe) && Elements(instances) == Elements(given) - {""}
      ensures NoRepeats(instances)
      ensures multiset(ring) == multiset(AllNodes(hashKey, instances, replicas))
    {
      var uniq := Unique(given);
      StringLeIsOrder();
      var sorted := Sort(uniq, StringLe);
      SameElements(uniq, sorted);
      StaysUnique(uniq, sorted);
      var nodes := BuildNodes(sorted);
      var r := Sort(nodes, HashLe);
      SameElements(nodes, r);
      forall e ensures e in nodes <==> e in Points(hashKey, Elements(sorted), replicas) {
        AllNodesArePoints(hashKey, sorted, replicas, e);
      }
      instances := sorted;
      ring := r;
    }

    /** sort.Search's bisection, then the wrap-around. */
    method Home(sessionID: string) returns (home: string)
      requires SortedBy(ring, HashLe)
      ensures home == HomeOn(ring, hashKey(sessionID))
    {
      if |ring| == 0 {
        return "";
      }
      var h := hashKey(sessionID);
      var i, j := 0, |ring|;
      while i < j
        invariant 0 <= i <= j <= |ring|
        invariant forall k :: 0 <= k < i ==> ring[k].hash < h
        invariant forall k :: j <= k < |ring| ==> ring[k].hash >= h
      {
        var mid := (i + j) / 2;
        if ring[mid].hash >= h {
          j := mid;
        } else {
          i := mid + 1;
        }
      }
      ScanFinds(ring, h, 0, i);
      if i == |ring| {
        i := 0;
      }
      return ring[i].instance;
    }
  }

  // ---------------------------------------------------------------- the circle

  /** Clockwise distance from a session's hash to a point. */
  function Clockwise(h: Hash, p: Hash): nat {
    if p >= h then p - h else p + CIRCLE - h
  }

  ghost predicate Nearest(points: set<Entry>, h: Hash, e: Entry) {
    e in points && forall q :: q in points ==> Clockwise(h, e.hash) <= Clockwise(h, q.hash)
  }

  ghost predicate Owns(points: set<Entry>, h: Hash, inst: string) {
    exists e :: Nearest(points, h, e) && e.instance == inst
  }

  /** Two instances never share a point. */
  ghost predicate NoCollision(points: set<Entry>) {
    forall e, f :: e in points && f in points && e.hash == f.hash ==> e.instance == f.instance
  }

  /** The first entry at or after h, or the first of all if none is, is the nearest clockwise. */
  lemma FirstIsNearest(ring: seq<Entry>, h: Hash, i: nat)
    requires i <= |ring| && ring != [] && SortedBy(ring, HashLe)
    requires forall j :: 0 <= j < i ==> ring[j].hash < h
    requires i < |ring| ==> ring[i].hash >= h
    ensures Nearest(Elements(ring), h, ring[if i == |ring| then 0 else i])
  {
    var s := if i == |ring| then 0 else i;
    forall q | q in ring ensures Clockwise(h, ring[s].hash) <= Clockwise(h, q.hash) {
      var k :| 0 <= k < |ring| && ring[k] == q;
      assert k > s ==> HashLe(ring[s], ring[k]);
    }
  }

  lemma {:induction false} ScanIsNearest(ring: seq<Entry>, h: Hash, i: nat)
    requires i <= |ring| && ring != [] && SortedBy(ring, HashLe)
    requires forall j :: 0 <= j < i ==> ring[j].hash < h
    ensures ScanFrom(ring, h, i) < |ring|
    ensures Nearest(Elements(ring), h, ring[ScanFrom(ring, h, i)])
    decreases |ring| - i
  {
    if i < |ring| && ring[i].hash < h {
      ScanIsNearest(ring, h, i + 1);
    } else {
      FirstIsNearest(ring, h, i);
    }
  }

  /** The linear scan finds the owner of the clockwise nearest point. */
  lemma HomeOwns(ring: seq<Entry>, h: Hash)
    requires ring != [] && SortedBy(ring, HashLe)
    ensures Owns(Elements(ring), h, HomeOn(ring, h))
  {
    ScanIsNearest(ring, h, 0);
  }

  lemma OwnerIsUnique(points: set<Entry>, h: Hash, a: string, b: string)
    requires NoCollision(points) && Owns(points, h, a) && Owns(points, h, b)
    ensures a == b
  {
  }

  ghost predicate Arrangement(ring: seq<Entry>, points: set<Entry>) {
    SortedBy(ring, HashLe) && Elements(ring) == points
  }

  lemma RingHasPoints(ring: seq<Entry>)
    ensures ring == [] <==> Elements(ring) == {}
  {
    if ring != [] {
      assert ring[0] in Elements(ring);
    }
  }

  /** The home depends only on the set of instances: not on the order or the repeats in which
      they were listed, nor on how the sort arranged them. */
  lemma HomeDependsOnlyOnTheSet(hashKey: string -> Hash, replicas: nat, insts: set<string>, a: seq<Entry>, b: seq<Entry>, h: Hash)
    requires Arrangement(a, Points(hashKey, insts, replicas)) && Arrangement(b, Points(hashKey, insts, replicas))
    requires NoCollision(Points(hashKey, insts, replicas))
    ensures HomeOn(a, h) == HomeOn(b, h)
  {
    RingHasPoints(a);
    RingHasPoints(b);
    if a != [] {
      HomeOwns(a, h);
      HomeOwns(b, h);
      OwnerIsUnique(Points(hashKey, insts, replicas), h, HomeOn(a, h), HomeOn(b, h));
    }
  }

  /** Removing an instance changes the home only of sessions that lived on it: whatever the
      order in which the instances were listed, if no two instances share a point. */
  lemma RemovalMovesOnlyItsSessions(hashKey: string -> Hash, replicas: nat, insts: set<string>, gone: string,
                                    before: seq<Entry>, after: seq<Entry>, h: Hash)
    requires Arrangement(before, Points(hashKey, insts, replicas))
    requires Arrangement(after, Points(hashKey, insts - {gone}, replicas))
    requires NoCollision(Points(hashKey, insts, replicas))
    requires HomeOn(before, h) != gone
    ensures HomeOn(after, h) == HomeOn(before, h)
  {
    var all, rest := Points(hashKey, insts, replicas), Points(hashKey, insts - {gone}, replicas);
    assert rest <= all;
    if before == [] {
      RingHasPoints(before);
      RingHasPoints(after);
      return;
    }
    HomeOwns(before, h);
    var e :| Nearest(all, h, e) && e.instance == HomeOn(before, h);
    var i :| e.instance in insts && 0 <= i < replicas && e == VirtualNode(hashKey, e.instance, i);
    assert e.instance in insts - {gone};
    assert e in rest;
    assert Nearest(rest, h, e);
    assert e in Elements(after);
    HomeOwns(after, h);
    OwnerIsUnique(rest, h, HomeOn(after, h), e.instance);
  }

  /** Adding an instance moves sessions only to the new instance. */
  lemma AdditionMovesOnlyToTheNewcomer(hashKey: string -> Hash, replicas: nat, insts: set<string>, comer: string,
                                       before: seq<Entry>, after: seq<Entry>, h: Hash)
    requires comer !in insts
    requires Arrangement(before, Points(hashKey, insts, replicas))
    requires Arrangement(after, Points(hashKey, insts + {comer}, replicas))
    requires NoCollision(Points(hashKey, insts + {comer}, replicas))
    ensures HomeOn(after, h) == HomeOn(before, h) || HomeOn(after, h) == comer
  {
    if HomeOn(after, h) != comer {
      assert insts + {comer} - {comer} == insts;
      RemovalMovesOnlyItsSessions(hashKey, replicas, insts + {comer}, comer, after, before, h);
    }
  }

  // ---------------------------------------------------------------- determinism

  lemma SwapEqualHashes(ring: seq<Entry>, s: nat, k: nat)
    requires SortedBy(ring, HashLe) && s < |ring| && k < |ring| && ring[s].hash == ring[k].hash
    ensures var other := ring[s := ring[k]][k := ring[s]];
      && SortedBy(other, HashLe) && multiset(other) == multiset(ring)
      && forall i :: 0 <= i < |ring| ==> other[i].hash == ring[i].hash
  {
    var other := ring[s := ring[k]][k := ring[s]];
    forall i, j | 0 <= i < j < |other| ensures HashLe(other[i], other[j]) {
      assert HashLe(ring[i], ring[j]);
    }
  }

  lemma NearestShareHash(points: set<Entry>, h: Hash, e: Entry, f: Entry)
    requires Nearest(points, h, e) && Nearest(points, h, f)
    ensures e.hash == f.hash
  {
  }

  /** Any owner of a nearest point can be the home: swap it to the front of its equals. */
  lemma AnyNearestCanWin(ring: seq<Entry>, h: Hash, e: Entry) returns (other: seq<Entry>)
    requires ring != [] && SortedBy(ring, HashLe) && Nearest(Elements(ring), h, e)
    ensures SortedBy(other, HashLe) && multiset(other) == multiset(ring) && HomeOn(other, h) == e.instance
  {
    ScanIsNearest(ring, h, 0);
    var s := ScanFrom(ring, h, 0);
    var k :| 0 <= k < |ring| && ring[k] == e;
    NearestShareHash(Elements(ring), h, ring[s], e);
    SwapEqualHashes(ring, s, k);
    other := ring[s := ring[k]][k := ring[s]];
    ScanByHash(ring, other, h, 0);
  }

  lemma {:induction false} ScanByHash(a: seq<Entry>, b: seq<Entry>, h: Hash, i: nat)
    requires |a| == |b| && i <= |a| && forall j :: 0 <= j < |a| ==> a[j].hash == b[j].hash
    ensures ScanFrom(a, h, i) == ScanFrom(b, h, i)
    decreases |a| - i
  {
    if i < |a| && a[i].hash < h {
      ScanByHash(a, b, h, i + 1);
    }
  }

  /** Every arrangement of the same entries gives one home if and only if the nearest points
      have one owner. The unstable sort decides otherwise. */
  lemma HomeIsDeterminedIffNearestOwnersAgree(ring: seq<Entry>, h: Hash)
    requires ring != [] && SortedBy(ring, HashLe)
    ensures (forall other :: SortedBy(other, HashLe) && multiset(other) == multiset(ring) ==> HomeOn(other, h) == HomeOn(ring, h))
       <==> (forall e, f :: Nearest(Elements(ring), h, e) && Nearest(Elements(ring), h, f) ==> e.instance == f.instance)
  {
    var points := Elements(ring);
    HomeOwns(ring, h);
    if forall e, f :: Nearest(points, h, e) && Nearest(points, h, f) ==> e.instance == f.instance {
      forall other | SortedBy(other, HashLe) && multiset(other) == multiset(ring) ensures HomeOn(other, h) == HomeOn(ring, h) {
        SameElements(other, ring);
        HomeOwns(other, h);
      }
    }
    if forall other :: SortedBy(other, HashLe) && multiset(other) == multiset(ring) ==> HomeOn(other, h) == HomeOn(ring, h) {
      forall e | Nearest(points, h, e) ensures e.instance == HomeOn(ring, h) {
        var other := AnyNearestCanWin(ring, h, e);
      }
    }
  }

  // ---------------------------------------------------------------- one sort for all

  lemma LastIsLargest(xs: seq<string>, x: string)
    requires SortedBy(xs, StringLe) && x in xs
    ensures StringLe(x, xs[|xs| - 1])
  {
    var i :| 0 <= i < |xs| && xs[i] == x;
    StringLeTotal(x, x);
  }

  lemma WithoutLast(xs: seq<string>)
    requires xs != [] && SortedBy(xs, StringLe) && NoRepeats(xs)
    ensures var front := xs[..|xs| - 1];
      SortedBy(front, StringLe) && NoRepeats(front) && Elements(front) == Elements(xs) - {xs[|xs| - 1]}
  {
    assert xs == xs[..|xs| - 1] + [xs[|xs| - 1]];
  }

  lemma NoElements(xs: seq<string>)
    ensures xs == [] <==> Elements(xs) == {}
  {
    if xs != [] { assert xs[0] in Elements(xs); }
  }

  lemma LastIsDetermined(xs: seq<string>, ys: seq<string>)
    requires SortedBy(xs, StringLe) && SortedBy(ys, StringLe) && Elements(xs) == Elements(ys) && xs != [] && ys != []
    ensures xs[|xs| - 1] == ys[|ys| - 1]
  {
    var x, y := xs[|xs| - 1], ys[|ys| - 1];
    assert x in Elements(ys) && y in Elements(xs);
    LastIsLargest(xs, y);
    LastIsLargest(ys, x);
    StringLeTotal(x, y);
  }

  /** The sorted list of instances is determined by their set. */
  lemma {:induction false} SortedNamesAreDetermined(xs: seq<string>, ys: seq<string>)
    requires SortedBy(xs, StringLe) && SortedBy(ys, StringLe) && NoRepeats(xs) && NoRepeats(ys)
    requires Elements(xs) == Elements(ys)
    ensures xs == ys
  {
    NoElements(xs);
    NoElements(ys);
    if xs != [] {
      LastIsDetermined(xs, ys);
      WithoutLast(xs);
      WithoutLast(ys);
      SortedNamesAreDetermined(xs[..|xs| - 1], ys[..|ys| - 1]);
      assert xs == xs[..|xs| - 1] + [xs[|xs| - 1]] && ys == ys[..|ys| - 1] + [ys[|ys| - 1]];
    }
  }

  /** So with one sort that is a function of its input, as that of a single build of the program
      is, the home depends only on the set of instances, collisions or not. */
  lemma OneSortOneHome(sort: seq<Entry> -> seq<Entry>, hashKey: string -> Hash, replicas: nat,
                       xs: seq<string>, ys: seq<string>, h: Hash)
    requires SortedBy(xs, StringLe) && SortedBy(ys, StringLe) && NoRepeats(xs) && NoRepeats(ys)
    requires Elements(xs) == Elements(ys)
    ensures HomeOn(sort(AllNodes(hashKey, xs, replicas)), h) == HomeOn(sort(AllNodes(hashKey, ys, replicas)), h)
  {
    SortedNamesAreDetermined(xs, ys);
  }
}
