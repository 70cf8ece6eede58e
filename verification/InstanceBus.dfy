/**
 The bus between instances: Run and process in internal/service/transport/instance_bus.go, over
 the Redis stream and consumer group that XAddMessage, XReadGroupMessages and XAck drive.

 An entry's id is its index in the stream. MAXLEN trimming removes a prefix of the stream; a
 trimmed entry that is still pending is returned without its fields. Everything here lives in
 Redis, so a restart of the consumer is not a step.
*/
module InstanceBuses {
  import opened Wrappers

  const READ_COUNT := 100

  datatype Entry = Entry(payload: string, wellFormed: bool)

  /** Discarded: no "msg" field, or it does not parse. */
  datatype Result = Discarded | Failed | Handled

  datatype Event = Event(id: nat, result: Result, acked: bool)

  /** What the environment does with one processed entry: the handler, then the XACK. */
  datatype Verdict = Verdict(handlerOk: bool, ackOk: bool)
  type Oracle = (nat, nat) -> Verdict     // entry id, length of the log so far

  datatype Bus = Bus(
    entries: seq<Entry>, trimmed: nat,
    group: Option<nat>,                   // the length of the stream when the consumer group was made
    cursor: nat,                          // entries below it have been delivered, or were trimmed unread
    pending: seq<nat>,                    // delivered and not acknowledged, in id order
    log: seq<Event>,                      // history: every entry given to process, in order
    skipped: set<nat>)                    // history: trimmed before they were delivered

  function NewBus(): Bus {
    Bus([], 0, None, 0, [], [], {})
  }

  function Min(a: nat, b: nat): nat {
    if a < b then a else b
  }

  function Max(a: nat, b: nat): nat {
    if a > b then a else b
  }

  function Range(lo: nat, hi: nat): (ids: seq<nat>)
    ensures forall x :: x in ids <==> lo <= x < hi
    ensures forall i :: 0 <= i < |ids| ==> ids[i] == lo + i
    decreases hi - lo
  {
    if lo >= hi then [] else [lo] + Range(lo + 1, hi)
  }

  function Without(ids: seq<nat>, id: nat): seq<nat> {
    if ids == [] then []
    else if ids[0] == id then Without(ids[1..], id)
    else [ids[0]] + Without(ids[1..], id)
  }

  function Judge(b: Bus, v: Oracle, id: nat): Event {
    var result :=
      if id >= |b.entries| || id < b.trimmed || !b.entries[id].wellFormed then Discarded
      else if v(id, |b.log|).handlerOk then Handled
      else Failed;
    Event(id, result, result != Failed && v(id, |b.log|).ackOk)
  }

  /** One turn of the loop in process. */
  function Process(b: Bus, v: Oracle, id: nat): Bus {
    var e := Judge(b, v, id);
    b.(log := b.log + [e], pending := if e.acked then Without(b.pending, id) else b.pending)
  }

  function ProcessAll(b: Bus, v: Oracle, ids: seq<nat>): Bus {
    if ids == [] then b else Process(ProcessAll(b, v, ids[..|ids| - 1]), v, ids[|ids| - 1])
  }

  /** XREADGROUP from "0": the oldest pending entries, at most READ_COUNT. */
  function Oldest(b: Bus): seq<nat> {
    b.pending[..Min(READ_COUNT, |b.pending|)]
  }

  function Retry(b: Bus, v: Oracle): Bus {
    ProcessAll(b, v, Oldest(b))
  }

  function From(b: Bus): nat {
    Max(b.cursor, b.trimmed)
  }

  /** XREADGROUP from ">": the next unread entries become pending. */
  function Unread(b: Bus): seq<nat> {
    if b.group == None then [] else Range(From(b), Min(From(b) + READ_COUNT, |b.entries|))
  }

  /** XGROUP CREATE at "$": what is in the stream by then is never delivered. */
  function MakeGroup(b: Bus): Bus {
    if b.group.Some? then b else b.(group := Some(|b.entries|), cursor := |b.entries|)
  }

  /** The first entry the group can see. */
  function First(b: Bus): nat {
    if b.group.Some? then b.group.value else 0
  }

  function Deliver(b: Bus): Bus {
    if Unread(b) == [] then b
    else
      b.(cursor := Min(From(b) + READ_COUNT, |b.entries|), pending := b.pending + Unread(b),
         skipped := b.skipped + set i | i in Range(b.cursor, b.trimmed))
  }

  function ReadNew(b: Bus, v: Oracle): Bus {
    ProcessAll(Deliver(b), v, Unread(b))
  }

  datatype Step = Publish(e: Entry) | Trim(n: nat) | CreateGroup | RetryPending | ReadNext

  function Do(b: Bus, v: Oracle, s: Step): Bus {
    match s
    case Publish(e) => b.(entries := b.entries + [e])
    case Trim(n) => if b.trimmed <= n <= |b.entries| then b.(trimmed := n) else b
    case CreateGroup => MakeGroup(b)
    case RetryPending => Retry(b, v)
    case ReadNext => ReadNew(b, v)
  }

  function RunFrom(b: Bus, v: Oracle, steps: seq<Step>): Bus {
    if steps == [] then b else Do(RunFrom(b, v, steps[..|steps| - 1]), v, steps[|steps| - 1])
  }

  function Run(v: Oracle, steps: seq<Step>): Bus {
    RunFrom(NewBus(), v, steps)
  }

  // ---------------------------------------------------------------- what every step keeps

  ghost predicate Seen(log: seq<Event>, id: nat) {
    exists k :: 0 <= k < |log| && log[k].id == id
  }

  ghost predicate Acked(log: seq<Event>, id: nat) {
    exists k :: 0 <= k < |log| && log[k].id == id && log[k].acked
  }

  ghost predicate Sorted(ids: seq<nat>) {
    forall i, j :: 0 <= i < j < |ids| ==> ids[i] < ids[j]
  }

  /** Every delivered entry is pending or acknowledged, and never both. */
  ghost predicate Accounted(b: Bus) {
    && (forall id :: First(b) <= id < b.cursor ==> (id in b.pending || Acked(b.log, id) || id in b.skipped))
    && (forall id :: id in b.pending ==> id < b.cursor && !Acked(b.log, id) && id !in b.skipped)
    && (forall id :: id in b.skipped ==> id < b.cursor && id < b.trimmed && !Seen(b.log, id))
    && (forall k :: 0 <= k < |b.log| ==> b.log[k].id < b.cursor)
  }

  /** Nothing happens without the group, nor before its first entry. */
  ghost predicate Grouped(b: Bus) {
    && First(b) <= b.cursor
    && (b.group == None ==> b.cursor == 0 && b.pending == [] && b.log == [] && b.skipped == {})
    && (forall id :: id in b.pending || id in b.skipped ==> First(b) <= id)
    && (forall k :: 0 <= k < |b.log| ==> First(b) <= b.log[k].id)
  }

  /** An acknowledgement means success or an unreadable entry, and is the entry's last event. */
  ghost predicate AcksAreFinal(b: Bus) {
    && (forall k :: 0 <= k < |b.log| && b.log[k].acked ==> b.log[k].result != Failed)
    && (forall j, k :: 0 <= j < k < |b.log| && b.log[j].id == b.log[k].id ==> !b.log[j].acked)
  }

  ghost predicate Inv(b: Bus) {
    && b.cursor <= |b.entries| && b.trimmed <= |b.entries| && Sorted(b.pending)
    && Grouped(b) && Accounted(b) && AcksAreFinal(b)
  }

  lemma {:induction false} WithoutSorted(ids: seq<nat>, id: nat)
    requires Sorted(ids)
    ensures Sorted(Without(ids, id))
    ensures forall x :: x in Without(ids, id) <==> x in ids && x != id
  {
    if ids != [] {
      WithoutSorted(ids[1..], id);
      assert ids == [ids[0]] + ids[1..];
      assert forall x :: x in ids[1..] ==> ids[0] < x;
      var rest, all := Without(ids[1..], id), Without(ids, id);
      if ids[0] != id {
        forall i, j | 0 <= i < j < |all| ensures all[i] < all[j] {
          assert all[j] == rest[j - 1] && rest[j - 1] in rest;
          assert i > 0 ==> all[i] == rest[i - 1];
        }
      }
    }
  }

  lemma LogGrows(log: seq<Event>, e: Event)
    ensures forall id :: Seen(log + [e], id) <==> Seen(log, id) || id == e.id
    ensures forall id :: Acked(log + [e], id) <==> Acked(log, id) || (id == e.id && e.acked)
  {
    var now := log + [e];
    assert now[|log|] == e;
    forall id | Seen(log, id) ensures Seen(now, id) {
      var k :| 0 <= k < |log| && log[k].id == id;
      assert now[k].id == id;
    }
    forall id | Acked(log, id) ensures Acked(now, id) {
      var k :| 0 <= k < |log| && log[k].id == id && log[k].acked;
      assert now[k].id == id && now[k].acked;
    }
  }

  lemma ProcessKeepsInv(b: Bus, v: Oracle, id: nat)
    requires Inv(b) && id in b.pending
    ensures Inv(Process(b, v, id))
    ensures forall x :: x in b.pending && x != id ==> x in Process(b, v, id).pending
  {
    var e := Judge(b, v, id);
    WithoutSorted(b.pending, id);
    LogGrows(b.log, e);
  }

  /** One batch: only the log and the pending list change, one event for each entry, in order. */
  lemma {:induction false} ProcessAllLogs(b: Bus, v: Oracle, ids: seq<nat>)
    ensures ProcessAll(b, v, ids) ==
      b.(pending := ProcessAll(b, v, ids).pending, log := ProcessAll(b, v, ids).log)
    ensures |ProcessAll(b, v, ids).log| == |b.log| + |ids| && b.log <= ProcessAll(b, v, ids).log
    ensures forall i :: 0 <= i < |ids| ==> ProcessAll(b, v, ids).log[|b.log| + i].id == ids[i]
  {
    if ids != [] { ProcessAllLogs(b, v, ids[..|ids| - 1]); }
  }

  lemma {:induction false} ProcessAllKeepsInv(b: Bus, v: Oracle, ids: seq<nat>)
    requires Inv(b) && Sorted(ids)
    requires forall x :: x in ids ==> x in b.pending
    ensures Inv(ProcessAll(b, v, ids))
    ensures forall x :: x in b.pending && x !in ids ==> x in ProcessAll(b, v, ids).pending
  {
    if ids != [] {
      var n := |ids| - 1;
      ProcessAllKeepsInv(b, v, ids[..n]);
      assert ids[n] !in ids[..n];
      ProcessKeepsInv(ProcessAll(b, v, ids[..n]), v, ids[n]);
    }
  }

  lemma DeliverKeepsSorted(b: Bus)
    requires Inv(b)
    ensures Sorted(Deliver(b).pending)
  {
    var now := Deliver(b);
    forall i, j | 0 <= i < j < |now.pending| ensures now.pending[i] < now.pending[j] {
      if i < |b.pending| <= j { assert b.pending[i] in b.pending; }
    }
  }

  lemma DeliverKeepsInv(b: Bus)
    requires Inv(b)
    ensures Inv(Deliver(b))
    ensures forall x :: x in Unread(b) ==> x in Deliver(b).pending && !Seen(b.log, x)
    ensures Sorted(Unread(b))
  {
    var now := Deliver(b);
    DeliverKeepsSorted(b);
    forall id | First(b) <= id < now.cursor ensures id in now.pending || Acked(now.log, id) || id in now.skipped {
      assert b.cursor <= id && b.trimmed <= id ==> id in Unread(b);
    }
  }

  lemma DoKeepsInv(b: Bus, v: Oracle, s: Step)
    requires Inv(b)
    ensures Inv(Do(b, v, s))
  {
    match s
    case RetryPending => ProcessAllKeepsInv(b, v, Oldest(b));
    case ReadNext =>
      DeliverKeepsInv(b);
      ProcessAllKeepsInv(Deliver(b), v, Unread(b));
    case Publish(_) =>
    case Trim(_) =>
    case CreateGroup =>
  }

  lemma {:induction false} EveryRunFrom(b: Bus, v: Oracle, steps: seq<Step>)
    requires Inv(b)
    ensures Inv(RunFrom(b, v, steps))
  {
    if steps != [] {
      EveryRunFrom(b, v, steps[..|steps| - 1]);
      DoKeepsInv(RunFrom(b, v, steps[..|steps| - 1]), v, steps[|steps| - 1]);
    }
  }

  ghost predicate ExactlyOne(p: bool, q: bool, r: bool, t: bool) {
    (p || q || r || t) && !(p && q) && !(p && r) && !(p && t) && !(q && r) && !(q && t) && !(r && t)
  }

  /**
   Over every run an entry published after the group was made is in exactly one place: unread,
   pending, acknowledged, or trimmed before it was ever delivered. One published before is never
   given to process.
   */
  lemma EveryEntryIsAccountedFor(v: Oracle, steps: seq<Step>, id: nat)
    requires id < |Run(v, steps).entries|
    ensures var b := Run(v, steps);
      if id < First(b) then id < b.cursor && id !in b.pending && id !in b.skipped && !Seen(b.log, id)
      else ExactlyOne(id >= b.cursor, id in b.pending, Acked(b.log, id), id in b.skipped)
  {
    EveryRunFrom(NewBus(), v, steps);
  }

  // ---------------------------------------------------------------- at least once, in order

  /** Nothing readable is thrown away and the handler sees nothing unreadable: a discarded entry was
      malformed or had been trimmed, and any other got the handler's answer. What was discarded or
      handled is acknowledged if the store does it, what failed is not. */
  ghost predicate Honest(b: Bus, v: Oracle) {
    forall k :: 0 <= k < |b.log| ==> HonestEvent(b, b.log[k], v(b.log[k].id, k))
  }

  ghost predicate HonestEvent(b: Bus, e: Event, answer: Verdict) {
    && e.id < |b.entries|
    && (e.result == Discarded ==> e.id < b.trimmed || !b.entries[e.id].wellFormed)
    && (e.result != Discarded ==> b.entries[e.id].wellFormed && (e.result == Handled <==> answer.handlerOk))
    && (e.acked <==> e.result != Failed && answer.ackOk)
  }

  lemma {:induction false} ProcessAllKeepsHonest(b: Bus, v: Oracle, ids: seq<nat>)
    requires Honest(b, v) && forall i :: 0 <= i < |ids| ==> ids[i] < |b.entries|
    ensures Honest(ProcessAll(b, v, ids), v)
  {
    if ids != [] {
      ProcessAllKeepsHonest(b, v, ids[..|ids| - 1]);
      var part := ProcessAll(b, v, ids[..|ids| - 1]);
      ProcessAllLogs(b, v, ids[..|ids| - 1]);
      assert ProcessAll(b, v, ids).log == part.log + [Judge(part, v, ids[|ids| - 1])];
    }
  }

  lemma {:induction false} EveryRunIsHonest(v: Oracle, steps: seq<Step>)
    ensures Honest(Run(v, steps), v)
  {
    if steps != [] {
      var before, s := Run(v, steps[..|steps| - 1]), steps[|steps| - 1];
      EveryRunIsHonest(v, steps[..|steps| - 1]);
      EveryRunFrom(NewBus(), v, steps[..|steps| - 1]);
      match s
      case RetryPending =>
        forall i | 0 <= i < |Oldest(before)| ensures Oldest(before)[i] in before.pending {}
        ProcessAllKeepsHonest(before, v, Oldest(before));
      case ReadNext =>
        forall i | 0 <= i < |Unread(before)| ensures Unread(before)[i] < |before.entries| {
          assert Unread(before)[i] in Unread(before);
        }
        ProcessAllKeepsHonest(Deliver(before), v, Unread(before));
      case Publish(_) =>
      case Trim(_) =>
      case CreateGroup =>
    }
  }

  /** At some moment before event k the entry had been trimmed from the stream. */
  ghost predicate TrimmedBefore(v: Oracle, steps: seq<Step>, id: nat, k: nat) {
    exists m :: 0 <= m <= |steps| && id < Run(v, steps[..m]).trimmed && |Run(v, steps[..m]).log| <= k
  }

  lemma TrimmedBeforeStays(v: Oracle, steps: seq<Step>, id: nat, k: nat)
    requires steps != [] && TrimmedBefore(v, steps[..|steps| - 1], id, k)
    ensures TrimmedBefore(v, steps, id, k)
  {
    var n := |steps| - 1;
    var m :| 0 <= m <= n && id < Run(v, steps[..n][..m]).trimmed && |Run(v, steps[..n][..m]).log| <= k;
    assert steps[..n][..m] == steps[..m];
  }

  /** What one step leaves as it was: the events so far, the entries, and, if it logs anything,
      the trimming. */
  lemma StepExtends(b: Bus, v: Oracle, s: Step)
    ensures b.log <= Do(b, v, s).log && b.entries <= Do(b, v, s).entries
    ensures Do(b, v, s).log != b.log ==> Do(b, v, s).trimmed == b.trimmed
  {
    match s
    case RetryPending => ProcessAllLogs(b, v, Oldest(b));
    case ReadNext => ProcessAllLogs(Deliver(b), v, Unread(b));
    case Publish(_) =>
    case Trim(_) =>
    case CreateGroup =>
  }

  /** At least once: a well-formed entry is acknowledged only on a successful handler call, unless
      it had been trimmed from the stream before it was processed. */
  lemma {:induction false} AckedWasHandled(v: Oracle, steps: seq<Step>, k: nat)
    requires k < |Run(v, steps).log| && Run(v, steps).log[k].acked
    requires Run(v, steps).log[k].id < |Run(v, steps).entries|
    requires Run(v, steps).entries[Run(v, steps).log[k].id].wellFormed
    ensures Run(v, steps).log[k].result == Handled || TrimmedBefore(v, steps, Run(v, steps).log[k].id, k)
  {
    EveryRunFrom(NewBus(), v, steps);
    EveryRunIsHonest(v, steps);
    if steps != [] {
      var n := |steps| - 1;
      var before, e := Run(v, steps[..n]), Run(v, steps).log[k];
      StepExtends(before, v, steps[n]);
      EveryRunIsHonest(v, steps[..n]);
      if k < |before.log| {
        assert before.log[k] == e;
        AckedWasHandled(v, steps[..n], k);
        if e.result != Handled { TrimmedBeforeStays(v, steps, e.id, k); }
      } else if e.result != Handled {
        assert e.id < before.trimmed && |before.log| <= k;
      }
    }
  }

  /** The handler sees an entry a second time only if it failed the first time, or the XACK did. */
  lemma RepeatsOnlyUnacked(v: Oracle, steps: seq<Step>, j: nat, k: nat)
    requires j < k < |Run(v, steps).log| && Run(v, steps).log[j].id == Run(v, steps).log[k].id
    ensures !Run(v, steps).log[j].acked
  {
    EveryRunFrom(NewBus(), v, steps);
  }

  /** An entry is first processed after every entry that is first processed before it. */
  ghost predicate InOrder(log: seq<Event>) {
    forall k :: 0 <= k < |log| ==> Seen(log[..k], log[k].id) || forall j :: 0 <= j < k ==> log[j].id < log[k].id
  }

  lemma AppendKeepsOrder(log: seq<Event>, e: Event)
    requires InOrder(log)
    requires Seen(log, e.id) || forall j :: 0 <= j < |log| ==> log[j].id < e.id
    ensures InOrder(log + [e])
  {
    var now := log + [e];
    forall k | 0 <= k < |now| ensures Seen(now[..k], now[k].id) || forall j :: 0 <= j < k ==> now[j].id < now[k].id {
      assert now[..k] == log[..k] && log[..|log|] == log;
    }
  }

  lemma {:induction false} RetriesKeepOrder(b: Bus, v: Oracle, ids: seq<nat>)
    requires InOrder(b.log) && forall i :: 0 <= i < |ids| ==> Seen(b.log, ids[i])
    ensures InOrder(ProcessAll(b, v, ids).log)
  {
    if ids != [] {
      var n := |ids| - 1;
      var part := ProcessAll(b, v, ids[..n]);
      RetriesKeepOrder(b, v, ids[..n]);
      ProcessAllLogs(b, v, ids[..n]);
      var k :| 0 <= k < |b.log| && b.log[k].id == ids[n];
      assert part.log[k] == b.log[k];
      AppendKeepsOrder(part.log, Judge(part, v, ids[n]));
    }
  }

  lemma {:induction false} NewOnesKeepOrder(b: Bus, v: Oracle, ids: seq<nat>, above: nat)
    requires InOrder(b.log) && Sorted(ids) && forall i :: 0 <= i < |ids| ==> above <= ids[i]
    requires forall k :: 0 <= k < |b.log| ==> b.log[k].id < above
    ensures InOrder(ProcessAll(b, v, ids).log)
    ensures forall k :: 0 <= k < |ProcessAll(b, v, ids).log| ==>
      ProcessAll(b, v, ids).log[k].id < if ids == [] then above else ids[|ids| - 1] + 1
  {
    if ids != [] {
      var n := |ids| - 1;
      var part := ProcessAll(b, v, ids[..n]);
      NewOnesKeepOrder(b, v, ids[..n], above);
      assert n > 0 ==> ids[n - 1] < ids[n];
      AppendKeepsOrder(part.log, Judge(part, v, ids[n]));
    }
  }

  ghost predicate PendingSeen(b: Bus) {
    forall id :: id in b.pending ==> Seen(b.log, id)
  }

  lemma {:induction false} ProcessAllShrinks(b: Bus, v: Oracle, ids: seq<nat>)
    requires Sorted(b.pending)
    ensures Sorted(ProcessAll(b, v, ids).pending)
    ensures forall x :: x in ProcessAll(b, v, ids).pending ==> x in b.pending
  {
    if ids != [] {
      var part := ProcessAll(b, v, ids[..|ids| - 1]);
      ProcessAllShrinks(b, v, ids[..|ids| - 1]);
      WithoutSorted(part.pending, ids[|ids| - 1]);
    }
  }

  lemma BatchKeepsSeen(b: Bus, v: Oracle, ids: seq<nat>)
    requires Sorted(b.pending) && forall id :: id in b.pending ==> Seen(b.log, id) || id in ids
    ensures PendingSeen(ProcessAll(b, v, ids))
  {
    var now := ProcessAll(b, v, ids);
    ProcessAllShrinks(b, v, ids);
    ProcessAllLogs(b, v, ids);
    forall id | id in now.pending ensures Seen(now.log, id) {
      if Seen(b.log, id) {
        var k :| 0 <= k < |b.log| && b.log[k].id == id;
        assert now.log[k].id == id;
      } else {
        var i :| 0 <= i < |ids| && ids[i] == id;
        assert now.log[|b.log| + i].id == id;
      }
    }
  }

  lemma DoKeepsSeen(b: Bus, v: Oracle, s: Step)
    requires Inv(b) && PendingSeen(b)
    ensures PendingSeen(Do(b, v, s))
  {
    match s
    case RetryPending => BatchKeepsSeen(b, v, Oldest(b));
    case ReadNext =>
      DeliverKeepsInv(b);
      BatchKeepsSeen(Deliver(b), v, Unread(b));
    case Publish(_) =>
    case Trim(_) =>
    case CreateGroup =>
  }

  /** Over every run entries are first processed in stream order; only retries come out of order. */
  lemma {:induction false} EveryRunIsInOrder(v: Oracle, steps: seq<Step>)
    ensures InOrder(Run(v, steps).log) && PendingSeen(Run(v, steps))
  {
    if steps != [] {
      var before, s := Run(v, steps[..|steps| - 1]), steps[|steps| - 1];
      EveryRunIsInOrder(v, steps[..|steps| - 1]);
      EveryRunFrom(NewBus(), v, steps[..|steps| - 1]);
      DoKeepsSeen(before, v, s);
      match s
      case RetryPending =>
        forall i | 0 <= i < |Oldest(before)| ensures Oldest(before)[i] in before.pending {}
        RetriesKeepOrder(before, v, Oldest(before));
      case ReadNext =>
        DeliverKeepsInv(before);
        NewOnesKeepOrder(Deliver(before), v, Unread(before), before.cursor);
      case Publish(_) =>
      case Trim(_) =>
      case CreateGroup =>
    }
  }

  // ---------------------------------------------------------------- which entries get their turn

  lemma {:induction false} WithoutPrefix(ids: seq<nat>, id: nat, n: nat)
    requires n <= |ids| && id !in ids[..n]
    ensures n <= |Without(ids, id)| && Without(ids, id)[..n] == ids[..n]
  {
    if n > 0 {
      assert ids[0] in ids[..n] && ids[1..][..n - 1] == ids[..n][1..];
      WithoutPrefix(ids[1..], id, n - 1);
      assert ids[..n] == [ids[0]] + ids[1..][..n - 1];
    }
  }

  lemma {:induction false} ProcessAllKeepsPrefix(b: Bus, v: Oracle, ids: seq<nat>, n: nat)
    requires n <= |b.pending|
    requires forall x :: x in ids ==> x !in b.pending[..n] || Hopeless(b, v, x)
    ensures n <= |ProcessAll(b, v, ids).pending| && ProcessAll(b, v, ids).pending[..n] == b.pending[..n]
  {
    if ids != [] {
      var part := ProcessAll(b, v, ids[..|ids| - 1]);
      ProcessAllKeepsPrefix(b, v, ids[..|ids| - 1], n);
      ProcessAllLogs(b, v, ids[..|ids| - 1]);
      if ids[|ids| - 1] !in b.pending[..n] { WithoutPrefix(part.pending, ids[|ids| - 1], n); }
    }
  }

  /** A readable entry that the handler refuses whenever it is asked. */
  ghost predicate Hopeless(b: Bus, v: Oracle, id: nat) {
    b.trimmed <= id < |b.entries| && b.entries[id].wellFormed && forall n: nat :: !v(id, n).handlerOk
  }

  /** Once the oldest READ_COUNT pending entries cannot be handled, they block every later one. */
  ghost predicate Starving(b: Bus, v: Oracle) {
    |b.pending| >= READ_COUNT && forall i :: 0 <= i < READ_COUNT ==> Hopeless(b, v, b.pending[i])
  }

  /** What a starving step leaves: the blocking prefix, and the entries behind it untouched. */
  ghost predicate Blocks(b: Bus, now: Bus) {
    && READ_COUNT <= |b.pending| <= |now.pending| && now.pending[..READ_COUNT] == b.pending[..READ_COUNT]
    && (forall i :: 0 <= i < |b.pending| ==> now.pending[i] == b.pending[i])
    && b.log <= now.log
    && forall k :: |b.log| <= k < |now.log| ==> now.log[k].id in b.pending ==> now.log[k].id in b.pending[..READ_COUNT]
  }

  lemma StarvingRetry(b: Bus, v: Oracle)
    requires Inv(b) && Starving(b, v)
    ensures Blocks(b, Retry(b, v))
  {
    var ids := b.pending[..READ_COUNT];
    assert Oldest(b) == ids;
    ProcessAllLogs(b, v, ids);
    ProcessAllKeepsPrefix(b, v, ids, |b.pending|);
    var now := Retry(b, v);
    assert forall i :: 0 <= i < |b.pending| ==> now.pending[..|b.pending|][i] == b.pending[..|b.pending|][i];
    forall k | |b.log| <= k < |now.log| ensures now.log[k].id in ids {
      assert now.log[|b.log| + (k - |b.log|)].id == ids[k - |b.log|];
    }
  }

  lemma UnreadIsNew(b: Bus)
    requires Inv(b)
    ensures forall i :: 0 <= i < |Unread(b)| ==> Unread(b)[i] !in b.pending
    ensures b.pending <= Deliver(b).pending
  {
  }

  lemma StarvingRead(b: Bus, v: Oracle)
    requires Inv(b) && Starving(b, v)
    ensures Blocks(b, ReadNew(b, v))
  {
    var start, ids, n := Deliver(b), Unread(b), |b.pending|;
    UnreadIsNew(b);
    ProcessAllLogs(start, v, ids);
    assert start.pending[..n] == b.pending;
    ProcessAllKeepsPrefix(start, v, ids, n);
    var now := ReadNew(b, v);
    assert now.pending[..n] == b.pending;
    forall i | 0 <= i < n ensures now.pending[i] == b.pending[i] { assert now.pending[..n][i] == b.pending[i]; }
    forall k | |b.log| <= k < |now.log| ensures now.log[k].id !in b.pending {
      assert now.log[|b.log| + (k - |b.log|)].id == ids[k - |b.log|];
    }
  }

  lemma StarvingStep(b: Bus, v: Oracle, s: Step)
    requires Inv(b) && Starving(b, v) && (s.Trim? ==> s.n <= b.pending[0])
    ensures Blocks(b, Do(b, v, s)) && Starving(Do(b, v, s), v)
  {
    match s
    case RetryPending =>
      StarvingRetry(b, v);
      ProcessAllLogs(b, v, Oldest(b));
    case ReadNext =>
      StarvingRead(b, v);
      ProcessAllLogs(Deliver(b), v, Unread(b));
    case Publish(_) =>
    case CreateGroup =>
    case Trim(n) =>
      forall i | 0 <= i < READ_COUNT ensures Hopeless(Do(b, v, s), v, b.pending[i]) {
        assert Hopeless(b, v, b.pending[i]) && b.pending[0] <= b.pending[i];
      }
  }

  /** Head-of-line blocking: as long as trimming does not reach the oldest of them, no later
      pending entry is ever given to the handler, whatever is published, retried or read. */
  lemma {:induction false} StarvedForGood(b: Bus, v: Oracle, steps: seq<Step>, i: nat)
    requires Inv(b) && Starving(b, v) && READ_COUNT <= i < |b.pending|
    requires forall n :: 0 <= n < |steps| && steps[n].Trim? ==> steps[n].n <= b.pending[0]
    ensures Starving(RunFrom(b, v, steps), v)
    ensures i < |RunFrom(b, v, steps).pending| && RunFrom(b, v, steps).pending[i] == b.pending[i]
    ensures RunFrom(b, v, steps).pending[0] == b.pending[0]
    ensures b.log <= RunFrom(b, v, steps).log
    ensures forall k :: |b.log| <= k < |RunFrom(b, v, steps).log| ==> RunFrom(b, v, steps).log[k].id != b.pending[i]
  {
    if steps != [] {
      var m := |steps| - 1;
      var before := RunFrom(b, v, steps[..m]);
      StarvedForGood(b, v, steps[..m], i);
      EveryRunFrom(b, v, steps[..m]);
      StarvingStep(before, v, steps[m]);
      assert before.pending[i] in before.pending && before.pending[i] !in before.pending[..READ_COUNT];
    }
  }

  /** A batch over the oldest entries of which the first k have been trimmed and the others are
      hopeless drops exactly those k. */
  lemma {:induction false} BatchDropsTrimmed(b: Bus, v: Oracle, k: nat, m: nat)
    requires Sorted(b.pending) && k <= |b.pending| && m <= |b.pending|
    requires forall i :: 0 <= i < k ==> b.pending[i] < b.trimmed && forall n: nat :: v(b.pending[i], n).ackOk
    requires forall i :: k <= i < m ==> Hopeless(b, v, b.pending[i])
    ensures ProcessAll(b, v, b.pending[..m]).pending == b.pending[Min(k, m)..]
  {
    if m > 0 {
      assert b.pending[..m][..m - 1] == b.pending[..m - 1];
      BatchDropsTrimmed(b, v, k, m - 1);
      ProcessAllLogs(b, v, b.pending[..m - 1]);
      if m <= k {
        WithoutHead(b.pending[m - 1..]);
      } else {
        assert Hopeless(b, v, b.pending[m - 1]);
      }
    }
  }

  /** What the first trim beyond the oldest of them does: the trimmed ones come back without
      fields, are discarded and acknowledged, and that many later entries move up; one of them
      gets a turn in the retry after that exactly if it is then among the READ_COUNT oldest. */
  lemma TrimmingUnblocks(b: Bus, v: Oracle, n: nat, k: nat, i: nat)
    requires Inv(b) && Starving(b, v) && b.pending[0] < n <= |b.entries|
    requires k <= READ_COUNT && forall j :: 0 <= j < READ_COUNT ==> (b.pending[j] < n <==> j < k)
    requires forall j, l: nat :: 0 <= j < k ==> v(b.pending[j], l).ackOk
    requires READ_COUNT <= i < |b.pending|
    ensures var after := Retry(Do(b, v, Trim(n)), v);
      && k >= 1 && after.pending == b.pending[k..]
      && ((exists l :: |after.log| <= l < |Retry(after, v).log| && Retry(after, v).log[l].id == b.pending[i])
          <==> i - k < READ_COUNT)
  {
    assert Hopeless(b, v, b.pending[0]);
    var c := Do(b, v, Trim(n));
    assert c == b.(trimmed := n);
    forall j | k <= j < READ_COUNT ensures Hopeless(c, v, c.pending[j]) { assert Hopeless(b, v, b.pending[j]); }
    BatchDropsTrimmed(c, v, k, READ_COUNT);
    DoKeepsInv(b, v, Trim(n));
    DoKeepsInv(c, v, RetryPending);
    var after := Retry(c, v);
    assert after.pending[i - k] == b.pending[i];
    RetriedIffAmongOldest(after, v, i - k);
  }

  lemma {:induction false} WithoutAbsent(ids: seq<nat>, id: nat)
    requires id !in ids
    ensures Without(ids, id) == ids
  {
    if ids != [] { WithoutAbsent(ids[1..], id); }
  }

  lemma WithoutHead(ids: seq<nat>)
    requires ids != [] && Sorted(ids)
    ensures Without(ids, ids[0]) == ids[1..]
  {
    assert ids[0] !in ids[1..];
    WithoutAbsent(ids[1..], ids[0]);
  }

  lemma {:induction false} HealthyBatchClears(b: Bus, v: Oracle, n: nat)
    requires Sorted(b.pending) && n <= |b.pending|
    requires forall id: nat, k: nat :: v(id, k) == Verdict(true, true)
    ensures ProcessAll(b, v, b.pending[..n]).pending == b.pending[n..]
  {
    if n > 0 {
      assert b.pending[..n][..n - 1] == b.pending[..n - 1];
      HealthyBatchClears(b, v, n - 1);
      WithoutHead(b.pending[n - 1..]);
    }
  }

  /** While the handler and Redis work, a turn settles the oldest READ_COUNT entries and no others. */
  lemma HealthyRetryClears(b: Bus, v: Oracle)
    requires Inv(b)
    requires forall id: nat, k: nat :: v(id, k) == Verdict(true, true)
    ensures Retry(b, v).pending == b.pending[Min(READ_COUNT, |b.pending|)..]
  {
    HealthyBatchClears(b, v, Min(READ_COUNT, |b.pending|));
  }

  /** A pending entry is given to the handler again exactly when it is among the READ_COUNT oldest. */
  lemma RetriedIffAmongOldest(b: Bus, v: Oracle, i: nat)
    requires Inv(b) && i < |b.pending|
    ensures (exists k :: |b.log| <= k < |Retry(b, v).log| && Retry(b, v).log[k].id == b.pending[i]) <==> i < READ_COUNT
  {
    var ids, now := Oldest(b), Retry(b, v);
    ProcessAllLogs(b, v, ids);
    if i < READ_COUNT { assert now.log[|b.log| + i].id == ids[i]; }
    forall k | |b.log| <= k < |now.log| && now.log[k].id == b.pending[i] ensures i < READ_COUNT {
      assert now.log[|b.log| + (k - |b.log|)].id == ids[k - |b.log|] == b.pending[k - |b.log|];
    }
  }

  /** The entry was trimmed before it was delivered, noticed by a read or not yet. */
  predicate PassedUnread(b: Bus, id: nat) {
    id in b.skipped || b.cursor <= id < b.trimmed
  }

  lemma OnlyTrimsPass(b: Bus, v: Oracle, s: Step, id: nat)
    requires Inv(b) && !PassedUnread(b, id) && PassedUnread(Do(b, v, s), id)
    ensures s.Trim? && b.cursor <= id && b.trimmed <= id < s.n <= |b.entries|
  {
    match s
    case RetryPending => ProcessAllLogs(b, v, Oldest(b));
    case ReadNext => ProcessAllLogs(Deliver(b), v, Unread(b));
    case Publish(_) =>
    case Trim(_) =>
    case CreateGroup =>
  }

  /**
   A published entry is lost unread only behind a backlog: at some moment at least maxLen newer
   entries had been published while it was still unread.
   */
  lemma {:induction false} LostOnlyBehindABacklog(v: Oracle, steps: seq<Step>, maxLen: nat, id: nat) returns (m: nat)
    requires forall k :: 0 <= k < |steps| && steps[k].Trim? ==>
      steps[k].n + maxLen <= |Run(v, steps[..k]).entries| || steps[k].n <= Run(v, steps[..k]).trimmed
    requires PassedUnread(Run(v, steps), id)
    ensures m < |steps| && Run(v, steps[..m]).cursor <= id && id + maxLen < |Run(v, steps[..m]).entries|
  {
    var n := |steps| - 1;
    var before := Run(v, steps[..n]);
    EveryRunFrom(NewBus(), v, steps[..n]);
    if PassedUnread(before, id) {
      forall k | 0 <= k < n ensures steps[..n][..k] == steps[..k] {}
      m := LostOnlyBehindABacklog(v, steps[..n], maxLen, id);
      assert steps[..n][..m] == steps[..m];
    } else {
      m := n;
      OnlyTrimsPass(before, v, steps[n], id);
    }
  }

  // ---------------------------------------------------------------- the consumer

  /** What one turn of the loop meets: what is published and trimmed first, and whether the reads work. */
  datatype Turn = Turn(arrivals: seq<Entry>, trim: nat, pendingReads: bool, newReads: bool)

  function PublishAll(b: Bus, es: seq<Entry>): Bus {
    if es == [] then b else b.(entries := b.entries + es)
  }

  function TakeTurn(b: Bus, v: Oracle, t: Turn): Bus {
    var b0 := Do(PublishAll(b, t.arrivals), v, Trim(t.trim));
    var b1 := if t.pendingReads then Retry(b0, v) else b0;
    if t.newReads then ReadNew(b1, v) else b1
  }

  function TakeTurns(b: Bus, v: Oracle, turns: seq<Turn>): Bus {
    if turns == [] then b else TakeTurn(TakeTurns(b, v, turns[..|turns| - 1]), v, turns[|turns| - 1])
  }

  /** The stream and the consumer group, and the one consumer's loop over them. */
  class InstanceBus {
    var entries: seq<Entry>
    var trimmed: nat
    var group: Option<nat>
    var cursor: nat
    var pending: seq<nat>
    var log: seq<Event>
    ghost var skipped: set<nat>

    ghost function State(): Bus
      reads this
    {
      Bus(entries, trimmed, group, cursor, pending, log, skipped)
    }

    constructor ()
      ensures State() == NewBus()
    {
      entries, trimmed, group, cursor, pending, log, skipped := [], 0, None, 0, [], [], {};
    }

    /** XGroupCreateMkStream; an existing group answers BUSYGROUP. */
    method EnsureGroup()
      modifies `group, `cursor
      ensures State() == MakeGroup(old(State()))
    {
      if group == None {
        group, cursor := Some(|entries|), |entries|;
      }
    }

    method Process(v: Oracle, ids: seq<nat>)
      modifies `pending, `log
      ensures State() == ProcessAll(old(State()), v, ids)
    {
      var i := 0;
      while i < |ids|
        invariant i <= |ids|
        invariant State() == ProcessAll(old(State()), v, ids[..i])
      {
        assert ids[..i + 1][..i] == ids[..i];
        var id, verdict := ids[i], v(ids[i], |log|);
        if id >= |entries| || id < trimmed || !entries[id].wellFormed {
          if verdict.ackOk { pending := Without(pending, id); }
          log := log + [Event(id, Discarded, verdict.ackOk)];
        } else if !verdict.handlerOk {
          log := log + [Event(id, Failed, false)];
        } else {
          if verdict.ackOk { pending := Without(pending, id); }
          log := log + [Event(id, Handled, verdict.ackOk)];
        }
        i := i + 1;
      }
      assert ids[..|ids|] == ids;
    }

    method ReadUnread() returns (ids: seq<nat>)
      modifies `cursor, `pending, `skipped
      ensures ids == Unread(old(State())) && State() == Deliver(old(State()))
    {
      if group == None {
        return [];
      }
      var from := Max(cursor, trimmed);
      ids := Range(from, Min(from + READ_COUNT, |entries|));
      if ids != [] {
        skipped := skipped + set i | i in Range(cursor, trimmed);
        cursor := Min(from + READ_COUNT, |entries|);
        pending := pending + ids;
      }
    }

    /** The body of the loop in Run: retry what is pending, then read what is new. */
    method RunTurn(v: Oracle, t: Turn)
      modifies this
      ensures State() == TakeTurn(old(State()), v, t)
    {
      if t.arrivals != [] { entries := entries + t.arrivals; }
      if trimmed <= t.trim <= |entries| { trimmed := t.trim; }
      if t.pendingReads { Process(v, pending[..Min(READ_COUNT, |pending|)]); }
      if t.newReads {
        var ids := ReadUnread();
        Process(v, ids);
      }
    }

    method Run(v: Oracle, turns: seq<Turn>)
      requires Inv(State())
      modifies this
      ensures State() == TakeTurns(MakeGroup(old(State())), v, turns) && Inv(State())
    {
      DoKeepsInv(State(), v, CreateGroup);
      EnsureGroup();
      var i := 0;
      while i < |turns|
        invariant i <= |turns|
        invariant State() == TakeTurns(MakeGroup(old(State())), v, turns[..i]) && Inv(State())
      {
        assert turns[..i + 1][..i] == turns[..i];
        TurnKeepsInv(State(), v, turns[i]);
        RunTurn(v, turns[i]);
        i := i + 1;
      }
      assert turns[..|turns|] == turns;
    }
  }

  lemma PublishAllKeepsInv(b: Bus, es: seq<Entry>)
    requires Inv(b)
    ensures Inv(PublishAll(b, es))
  {
  }

  lemma TurnKeepsInv(b: Bus, v: Oracle, t: Turn)
    requires Inv(b)
    ensures Inv(TakeTurn(b, v, t))
  {
    var b0 := Do(PublishAll(b, t.arrivals), v, Trim(t.trim));
    var b1 := if t.pendingReads then Do(b0, v, RetryPending) else b0;
    PublishAllKeepsInv(b, t.arrivals);
    DoKeepsInv(PublishAll(b, t.arrivals), v, Trim(t.trim));
    DoKeepsInv(b0, v, RetryPending);
    DoKeepsInv(b1, v, ReadNext);
  }

  // ---------------------------------------------------------------- nothing waits for ever

  /** A read of new entries gives the next READ_COUNT of them, or all there are, to process: whatever
      is in the stream, was not delivered yet and comes within that number. */
  lemma ReadNewProcesses(b: Bus, v: Oracle, id: nat)
    requires Inv(b) && b.group.Some?
    requires b.cursor <= id && b.trimmed <= id < |b.entries| && id < Max(b.cursor, b.trimmed) + READ_COUNT
    ensures exists k :: |b.log| <= k < |ReadNew(b, v).log| && ReadNew(b, v).log[k].id == id
  {
    var ids := Unread(b);
    ProcessAllLogs(Deliver(b), v, ids);
    assert id in ids;
    var i :| 0 <= i < |ids| && ids[i] == id;
    assert ReadNew(b, v).log[|b.log| + i].id == id;
  }

  /** The first entry a read can still find. */
  function Next(b: Bus): nat {
    Max(b.cursor, b.trimmed)
  }

  /** A turn in which nothing is published or trimmed and the read of new entries works. */
  ghost predicate Reads(b: Bus, t: Turn) {
    t.arrivals == [] && t.trim <= b.trimmed && t.newReads
  }

  /** Nothing was published or trimmed from b to r, and no event was forgotten. */
  ghost predicate Onward(b: Bus, r: Bus) {
    Inv(r) && (r.entries, r.trimmed, r.group) == (b.entries, b.trimmed, b.group) && b.log <= r.log
  }

  lemma RetryMovesOn(b: Bus, v: Oracle)
    requires Inv(b)
    ensures Onward(b, Retry(b, v)) && Retry(b, v).cursor == b.cursor
  {
    ProcessAllLogs(b, v, Oldest(b));
    DoKeepsInv(b, v, RetryPending);
  }

  lemma ReadMovesOn(b: Bus, v: Oracle)
    requires Inv(b) && b.group.Some?
    ensures Onward(b, ReadNew(b, v)) && Next(ReadNew(b, v)) == Min(Next(b) + READ_COUNT, |b.entries|)
  {
    ProcessAllLogs(Deliver(b), v, Unread(b));
    DoKeepsInv(b, v, ReadNext);
  }

  lemma QuietTrim(b: Bus, v: Oracle, n: nat)
    requires n <= b.trimmed
    ensures Do(b, v, Trim(n)) == b
  {
  }

  lemma QuietStart(b: Bus, v: Oracle, t: Turn)
    requires Reads(b, t)
    ensures TakeTurn(b, v, t) == ReadNew(if t.pendingReads then Retry(b, v) else b, v)
  {
    QuietTrim(b, v, t.trim);
    assert PublishAll(b, t.arrivals) == b;
  }

  lemma TurnReads(b: Bus, v: Oracle, t: Turn)
    requires Inv(b) && b.group.Some? && Reads(b, t)
    ensures var r := TakeTurn(b, v, t);
      && Onward(b, r) && Next(r) == Min(Next(b) + READ_COUNT, |b.entries|)
      && forall id :: Next(b) <= id < |b.entries| && id < Next(b) + READ_COUNT ==> Seen(r.log, id)
  {
    var b1 := if t.pendingReads then Retry(b, v) else b;
    QuietStart(b, v, t);
    RetryMovesOn(b, v);
    ReadMovesOn(b1, v);
    forall id | Next(b) <= id < |b.entries| && id < Next(b) + READ_COUNT ensures Seen(TakeTurn(b, v, t).log, id) {
      ReadNewProcesses(b1, v, id);
    }
  }

  lemma SeenStays(log: seq<Event>, more: seq<Event>, id: nat)
    requires log <= more && Seen(log, id)
    ensures Seen(more, id)
  {
    var k :| 0 <= k < |log| && log[k].id == id;
    assert more[k].id == id;
  }

  /** Enough such turns give every entry that is in the stream and was not delivered yet to process,
      whatever the handler and the acknowledgements do. */
  lemma {:induction false} EveryEntryGetsItsTurn(b: Bus, v: Oracle, turns: seq<Turn>)
    requires Inv(b) && b.group.Some? && forall i :: 0 <= i < |turns| ==> Reads(b, turns[i])
    ensures var r := TakeTurns(b, v, turns);
      && Onward(b, r) && Next(r) == Min(Next(b) + |turns| * READ_COUNT, |b.entries|)
      && forall id :: Next(b) <= id < |b.entries| && id < Next(b) + |turns| * READ_COUNT ==> Seen(r.log, id)
  {
    if turns != [] {
      var n := |turns| - 1;
      var m, r := TakeTurns(b, v, turns[..n]), TakeTurns(b, v, turns);
      EveryEntryGetsItsTurn(b, v, turns[..n]);
      assert Reads(m, turns[n]);
      TurnReads(m, v, turns[n]);
      forall id | Next(b) <= id < |b.entries| && id < Next(b) + |turns| * READ_COUNT ensures Seen(r.log, id) {
        if id < Next(b) + n * READ_COUNT { SeenStays(m.log, r.log, id); }
      }
    }
  }

  // ---------------------------------------------------------------- publishing, and reads that fail

  function PublishedBy(steps: seq<Step>): seq<Entry> {
    if steps == [] then []
    else
      var last := steps[|steps| - 1];
      PublishedBy(steps[..|steps| - 1]) + (if last.Publish? then [last.e] else [])
  }

  lemma StepPublishes(b: Bus, v: Oracle, s: Step)
    ensures Do(b, v, s).entries == b.entries + (if s.Publish? then [s.e] else [])
    ensures Do(b, v, s).group == if s.CreateGroup? && b.group == None then Some(|b.entries|) else b.group
  {
    match s
    case RetryPending => ProcessAllLogs(b, v, Oldest(b));
    case ReadNext => ProcessAllLogs(Deliver(b), v, Unread(b));
    case _ =>
  }

  /** How long the stream was at the first CreateGroup. */
  function GroupMadeAt(steps: seq<Step>): Option<nat> {
    if steps == [] then None
    else
      var front := steps[..|steps| - 1];
      if GroupMadeAt(front).Some? then GroupMadeAt(front)
      else if steps[|steps| - 1].CreateGroup? then Some(|PublishedBy(front)|)
      else None
  }

  /** The stream is what was published, in order, trimmed or not; the group starts where the stream
      ended when it was first made. */
  lemma {:induction false} StreamIsWhatWasPublished(v: Oracle, steps: seq<Step>)
    ensures Run(v, steps).entries == PublishedBy(steps) && Run(v, steps).group == GroupMadeAt(steps)
  {
    if steps != [] {
      var n := |steps| - 1;
      StreamIsWhatWasPublished(v, steps[..n]);
      StepPublishes(Run(v, steps[..n]), v, steps[n]);
    }
  }

  function Arrivals(turns: seq<Turn>): seq<Entry> {
    if turns == [] then [] else Arrivals(turns[..|turns| - 1]) + turns[|turns| - 1].arrivals
  }

  /** Over any turns the stream grows by the arrivals; a turn whose read of new entries fails delivers
      none, and one whose reads both fail gives nothing to process. */
  lemma {:induction false} TurnsPublish(b: Bus, v: Oracle, turns: seq<Turn>)
    ensures TakeTurns(b, v, turns).entries == b.entries + Arrivals(turns)
    ensures turns != [] ==>
      var before, last := TakeTurns(b, v, turns[..|turns| - 1]), turns[|turns| - 1];
      && (!last.newReads ==> TakeTurns(b, v, turns).cursor == before.cursor)
      && (!last.newReads && !last.pendingReads ==>
            TakeTurns(b, v, turns).log == before.log && TakeTurns(b, v, turns).pending == before.pending)
  {
    if turns != [] {
      var n := |turns| - 1;
      TurnsPublish(b, v, turns[..n]);
      TurnPublishes(TakeTurns(b, v, turns[..n]), v, turns[n]);
    }
  }

  lemma TurnPublishes(b: Bus, v: Oracle, t: Turn)
    ensures var r := TakeTurn(b, v, t);
      && r.entries == b.entries + t.arrivals && (!t.newReads ==> r.cursor == b.cursor)
      && (!t.newReads && !t.pendingReads ==> r.log == b.log && r.pending == b.pending)
  {
    var b0 := Do(PublishAll(b, t.arrivals), v, Trim(t.trim));
    var b1 := if t.pendingReads then Retry(b0, v) else b0;
    assert b0.entries == b.entries + t.arrivals;
    ProcessAllLogs(b0, v, Oldest(b0));
    ProcessAllLogs(Deliver(b1), v, Unread(b1));
  }
}
