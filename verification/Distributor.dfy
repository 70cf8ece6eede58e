/**
 Delivery to the instances that hold the connections: internal/service/chat/distributor.go.
*/
module Distribution {
  import opened Wrappers
  import opened Sequences

  // ---------------------------------------------------------------- routing of targets

  /** Where one target of a Deliver call goes. */
  datatype Destination = Nobody | Local | Remote(instance: string) | Unlocated

  /** `locations` is the answer of LookupMany; None is its error. */
  function Router(self: string, clients: set<string>, locations: Option<map<string, string>>): string -> Destination {
    t =>
      if t == "" then Nobody
      else if t in clients then Local
      else if locations.Some? && t in locations.value && locations.value[t] != "" && locations.value[t] != self
      then Remote(locations.value[t])
      else Unlocated
  }

  /** The targets bound for `d`, in target order. */
  function Bound(ts: seq<string>, route: string -> Destination, d: Destination): seq<string> {
    if ts == [] then []
    else Bound(ts[..|ts| - 1], route, d) + (if route(ts[|ts| - 1]) == d then [ts[|ts| - 1]] else [])
  }

  lemma BoundNext(ts: seq<string>, n: nat, route: string -> Destination, d: Destination)
    requires n < |ts|
    ensures Bound(ts[..n + 1], route, d) == Bound(ts[..n], route, d) + (if route(ts[n]) == d then [ts[n]] else [])
  {
    assert ts[..n + 1][..n] == ts[..n];
  }

  /** A target is in the bucket of its own destination as often as in the target list, and in
      no other bucket: targets are conserved as a multiset. */
  lemma {:induction false} TargetsConserved(ts: seq<string>, route: string -> Destination, u: string, d: Destination)
    ensures multiset(Bound(ts, route, d))[u] == if d == route(u) then multiset(ts)[u] else 0
  {
    if ts != [] {
      var n := |ts| - 1;
      TargetsConserved(ts[..n], route, u, d);
      assert ts == ts[..n] + [ts[n]];
    }
  }

  /** The target is connected to another instance that is known. */
  predicate LivesAt(t: string, self: string, clients: set<string>, locations: Option<map<string, string>>, inst: string) {
    && t != "" && t !in clients && locations.Some? && t in locations.value && locations.value[t] == inst
    && inst != "" && inst != self
  }

  /** As often as it was given, a target goes to the local connections if it is connected here, to
      the instance it is connected to if that is known, and nowhere else. */
  lemma WhereTargetsGo(ts: seq<string>, self: string, clients: set<string>, locations: Option<map<string, string>>,
                       t: string, inst: string)
    ensures var route := Router(self, clients, locations);
      && multiset(Bound(ts, route, Local))[t] == (if t != "" && t in clients then multiset(ts)[t] else 0)
      && multiset(Bound(ts, route, Remote(inst)))[t]
         == (if LivesAt(t, self, clients, locations, inst) then multiset(ts)[t] else 0)
  {
    var route := Router(self, clients, locations);
    TargetsConserved(ts, route, t, Local);
    TargetsConserved(ts, route, t, Remote(inst));
  }

  function Others(ts: seq<string>, clients: set<string>): seq<string> {
    if ts == [] then []
    else
      var t := ts[|ts| - 1];
      Others(ts[..|ts| - 1], clients) + (if t != "" && t !in clients then [t] else [])
  }

  lemma {:induction false} RemotesAreOthers(ts: seq<string>, self: string, clients: set<string>,
                                            locations: Option<map<string, string>>, inst: string)
    ensures var route := Router(self, clients, locations);
      Bound(ts, route, Remote(inst)) == Bound(Others(ts, clients), route, Remote(inst))
  {
    if ts != [] {
      var n := |ts| - 1;
      RemotesAreOthers(ts[..n], self, clients, locations, inst);
      var o, t := Others(ts[..n], clients), ts[n];
      if t != "" && t !in clients {
        assert Others(ts, clients) == o + [t] && (o + [t])[..|o|] == o;
      } else {
        assert Others(ts, clients) == o;
      }
    }
  }

  lemma {:induction false} OthersAreOthers(ts: seq<string>, clients: set<string>, t: string)
    requires t in Others(ts, clients)
    ensures t != "" && t !in clients
  {
    if t in Others(ts[..|ts| - 1], clients) {
      OthersAreOthers(ts[..|ts| - 1], clients, t);
    }
  }

  lemma {:induction false} NeverToSelf(ts: seq<string>, self: string, clients: set<string>,
                                       locations: Option<map<string, string>>, inst: string)
    requires inst == "" || inst == self
    ensures Bound(ts, Router(self, clients, locations), Remote(inst)) == []
  {
    if ts != [] {
      NeverToSelf(ts[..|ts| - 1], self, clients, locations, inst);
    }
  }

  lemma {:induction false} NoneLocated(ts: seq<string>, self: string, clients: set<string>, inst: string)
    ensures Bound(ts, Router(self, clients, None), Remote(inst)) == []
  {
    if ts != [] {
      NoneLocated(ts[..|ts| - 1], self, clients, inst);
    }
  }

  /** byInstance: per remote instance, the targets bound to it; no empty group. */
  ghost predicate Grouped(byInstance: map<string, seq<string>>, ts: seq<string>, route: string -> Destination) {
    forall inst ::
      && (inst in byInstance <==> Bound(ts, route, Remote(inst)) != [])
      && (inst in byInstance ==> byInstance[inst] == Bound(ts, route, Remote(inst)))
  }

  function Placed(byInstance: map<string, seq<string>>, t: string, d: Destination): map<string, seq<string>> {
    if !d.Remote? then byInstance
    else byInstance[d.instance := (if d.instance in byInstance then byInstance[d.instance] else []) + [t]]
  }

  function GroupsOf(ts: seq<string>, route: string -> Destination): map<string, seq<string>> {
    if ts == [] then map[]
    else Placed(GroupsOf(ts[..|ts| - 1], route), ts[|ts| - 1], route(ts[|ts| - 1]))
  }

  lemma {:induction false} GroupsAreGrouped(ts: seq<string>, route: string -> Destination)
    ensures Grouped(GroupsOf(ts, route), ts, route)
  {
    if ts != [] {
      GroupsAreGrouped(ts[..|ts| - 1], route);
    }
  }

  datatype Batch = Batch(instance: string, targets: seq<string>)

  ghost predicate PublishesOnce(published: seq<Batch>, byInstance: map<string, seq<string>>) {
    && (forall b :: b in published <==> b.instance in byInstance && byInstance[b.instance] == b.targets)
    && (forall i, j :: 0 <= i < j < |published| ==> published[i].instance != published[j].instance)
  }

  ghost predicate RightLocal(local: seq<string>, ts: seq<string>, clients: set<string>) {
    forall t :: multiset(local)[t] == if t != "" && t in clients then multiset(ts)[t] else 0
  }

  ghost predicate RightBatch(b: Batch, ts: seq<string>, self: string, clients: set<string>, locations: Option<map<string, string>>) {
    forall t :: multiset(b.targets)[t] == if LivesAt(t, self, clients, locations, b.instance) then multiset(ts)[t] else 0
  }

  ghost predicate SomeBatchFor(published: seq<Batch>, inst: string) {
    exists b :: b in published && b.instance == inst
  }

  /** As often as it was given, every target is in the local list if it is connected here and in the
      batch for its own instance if it is connected there; no batch is missing. */
  ghost predicate AllReached(ts: seq<string>, self: string, clients: set<string>, locations: Option<map<string, string>>,
                             local: seq<string>, published: seq<Batch>, enabled: bool) {
    && RightLocal(local, ts, clients)
    && (forall b :: b in published ==> RightBatch(b, ts, self, clients, locations))
    && (enabled ==> forall t, inst :: t in ts && LivesAt(t, self, clients, locations, inst) ==> SomeBatchFor(published, inst))
  }

  lemma LocalIsRight(ts: seq<string>, self: string, clients: set<string>, locations: Option<map<string, string>>)
    ensures RightLocal(Bound(ts, Router(self, clients, locations), Local), ts, clients)
  {
    forall t ensures multiset(Bound(ts, Router(self, clients, locations), Local))[t]
                  == if t != "" && t in clients then multiset(ts)[t] else 0 {
      WhereTargetsGo(ts, self, clients, locations, t, "");
    }
  }

  lemma BatchIsRight(ts: seq<string>, self: string, clients: set<string>, locations: Option<map<string, string>>, b: Batch)
    requires b.targets == Bound(ts, Router(self, clients, locations), Remote(b.instance))
    ensures RightBatch(b, ts, self, clients, locations)
  {
    forall t ensures multiset(b.targets)[t] == if LivesAt(t, self, clients, locations, b.instance) then multiset(ts)[t] else 0 {
      WhereTargetsGo(ts, self, clients, locations, t, b.instance);
    }
  }

  lemma BatchIsThere(ts: seq<string>, self: string, clients: set<string>, locations: Option<map<string, string>>,
                     byInstance: map<string, seq<string>>, published: seq<Batch>, t: string, inst: string)
    requires Grouped(byInstance, ts, Router(self, clients, locations)) && PublishesOnce(published, byInstance)
    requires t in ts && LivesAt(t, self, clients, locations, inst)
    ensures SomeBatchFor(published, inst)
  {
    WhereTargetsGo(ts, self, clients, locations, t, inst);
    assert multiset(ts)[t] > 0;
    assert Bound(ts, Router(self, clients, locations), Remote(inst)) != [];
    assert Batch(inst, byInstance[inst]) in published;
  }

  lemma ReachesAll(ts: seq<string>, self: string, clients: set<string>, locations: Option<map<string, string>>,
                   byInstance: map<string, seq<string>>, published: seq<Batch>)
    requires Grouped(byInstance, ts, Router(self, clients, locations)) && PublishesOnce(published, byInstance)
    ensures AllReached(ts, self, clients, locations, Bound(ts, Router(self, clients, locations), Local), published, true)
  {
    LocalIsRight(ts, self, clients, locations);
    forall b | b in published ensures RightBatch(b, ts, self, clients, locations) {
      BatchIsRight(ts, self, clients, locations, b);
    }
    forall t, inst | t in ts && LivesAt(t, self, clients, locations, inst) ensures SomeBatchFor(published, inst) {
      BatchIsThere(ts, self, clients, locations, byInstance, published, t, inst);
    }
  }

  class Distributor {
    const instanceID: string
    var enabled: bool
    var clients: set<string>

    constructor (instanceID: string)
      ensures this.instanceID == instanceID && !enabled && clients == {}
    {
      this.instanceID, enabled, clients := instanceID, false, {};
    }

    /** Local targets in order, and the batches published: one per remote instance, in the
        arbitrary order of a Go map iteration, none while clustering is off. */
    method Deliver(targets: seq<string>, locations: Option<map<string, string>>)
      returns (local: seq<string>, published: seq<Batch>, byInstance: map<string, seq<string>>)
      ensures local == Bound(targets, Router(instanceID, clients, locations), Local)
      ensures enabled ==> Grouped(byInstance, targets, Router(instanceID, clients, locations))
      ensures !enabled ==> byInstance == map[]
      ensures PublishesOnce(published, byInstance)
      ensures forall b :: b in published ==> b.instance != "" && b.instance != instanceID
      ensures AllReached(targets, instanceID, clients, locations, local, published, enabled)
    {
      var pending: seq<string>;
      local, pending := Partition(targets, locations);
      byInstance, published := map[], [];
      if enabled {
        if |pending| > 0 && locations.Some? {
          forall t | t in pending ensures t != "" && t !in clients {
            OthersAreOthers(targets, clients, t);
          }
          byInstance := Group(pending, locations.value);
          ghost var route := Router(instanceID, clients, locations);
          forall inst ensures Bound(targets, route, Remote(inst)) == Bound(pending, route, Remote(inst))
                           && (inst in {"", instanceID} ==> Bound(pending, route, Remote(inst)) == []) {
            RemotesAreOthers(targets, instanceID, clients, locations, inst);
            if inst == "" || inst == instanceID {
              NeverToSelf(pending, instanceID, clients, locations, inst);
            }
          }
          published := PublishAll(byInstance);
        } else {
          forall inst ensures Bound(targets, Router(instanceID, clients, locations), Remote(inst)) == [] {
            RemotesAreOthers(targets, instanceID, clients, locations, inst);
            NoneLocated(pending, instanceID, clients, inst);
          }
        }
      }
      LocalIsRight(targets, instanceID, clients, locations);
      if enabled { ReachesAll(targets, instanceID, clients, locations, byInstance, published); }
    }

    method Partition(targets: seq<string>, ghost locations: Option<map<string, string>>)
      returns (local: seq<string>, pending: seq<string>)
      ensures local == Bound(targets, Router(instanceID, clients, locations), Local)
      ensures pending == Others(targets, clients)
    {
      local, pending := [], [];
      ghost var route := Router(instanceID, clients, locations);
      var n := 0;
      while n < |targets|
        invariant 0 <= n <= |targets|
        invariant local == Bound(targets[..n], route, Local)
        invariant pending == Others(targets[..n], clients)
      {
        var t := targets[n];
        BoundNext(targets, n, route, Local);
        assert targets[..n + 1][..n] == targets[..n];
        if t != "" {
          if t in clients {
            local := local + [t];
          } else {
            pending := pending + [t];
          }
        }
        n := n + 1;
      }
      assert targets[..n] == targets;
    }

    method Group(pending: seq<string>, locations: map<string, string>) returns (byInstance: map<string, seq<string>>)
      requires "" !in pending && forall t :: t in pending ==> t !in clients
      ensures Grouped(byInstance, pending, Router(instanceID, clients, Some(locations)))
    {
      byInstance := map[];
      ghost var route := Router(instanceID, clients, Some(locations));
      var n := 0;
      while n < |pending|
        invariant 0 <= n <= |pending|
        invariant byInstance == GroupsOf(pending[..n], route)
      {
        var t := pending[n];
        assert pending[..n + 1][..n] == pending[..n];
        if t in locations && locations[t] != "" && locations[t] != instanceID {
          var inst := locations[t];
          byInstance := byInstance[inst := (if inst in byInstance then byInstance[inst] else []) + [t]];
        }
        n := n + 1;
      }
      assert pending[..n] == pending;
      GroupsAreGrouped(pending, route);
    }

    method PublishAll(byInstance: map<string, seq<string>>) returns (published: seq<Batch>)
      ensures PublishesOnce(published, byInstance)
    {
      published := [];
      var todo := byInstance.Keys;
      while todo != {}
        invariant todo <= byInstance.Keys
        invariant PublishesOnce(published, byInstance - todo)
        decreases |todo|
      {
        var inst :| inst in todo;
        todo := todo - {inst};
        published := published + [Batch(inst, byInstance[inst])];
      }
      assert byInstance - todo == byInstance;
    }
  }

  /** The published batches are the same for every iteration order of the map. */
  lemma IterationOrderIrrelevant(p: seq<Batch>, q: seq<Batch>, byInstance: map<string, seq<string>>)
    requires PublishesOnce(p, byInstance) && PublishesOnce(q, byInstance)
    ensures multiset(p) == multiset(q)
  {
    assert forall i, j :: 0 <= i < j < |p| && p[i] == p[j] ==> p[i].instance == p[j].instance;
    assert forall i, j :: 0 <= i < j < |q| && q[i] == q[j] ==> q[i].instance == q[j].instance;
    forall b ensures multiset(p)[b] == multiset(q)[b] {
      CountPresent(p, b);
      CountPresent(q, b);
    }
  }
}
