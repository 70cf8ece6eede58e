/**
 The fixed-window rate limiter of one key: internal/https_server/middleware/ratelimit.go.

 INCR and EXPIRE are two separate calls to the counter store, so they are two steps; requests
 may come in between. An expiring key is gone from its expiry time on. Times never decrease.
*/
module RateLimiting {
  import opened Wrappers

  datatype Config = Config(limit: nat, window: int)

  /** One admitted request, and the number (from 1) of the window in which it was counted. */
  datatype Admit = Admit(t: int, w: nat)

  datatype Limiter = Limiter(
    count: nat, expiresAt: Option<int>,     // the key in the store; count 0 is no key
    pending: bool,                          // a request saw count 1 and has yet to call EXPIRE
    blocked: nat,
    starts: seq<int>, admits: seq<Admit>)   // history: opening times of windows, admissions

  function NewLimiter(): Limiter {
    Limiter(0, None, false, 0, [], [])
  }

  function Expired(l: Limiter, t: int): bool {
    l.count == 0 || (l.expiresAt.Some? && t >= l.expiresAt.value)
  }

  /** INCR and the comparison with the limit; an error of the store lets the request pass. */
  function Request(c: Config, l: Limiter, t: int): Limiter {
    var k :=
      if Expired(l, t) then l.(count := 1, expiresAt := None, pending := true, starts := l.starts + [t])
      else l.(count := l.count + 1);
    if k.count > c.limit then k.(blocked := k.blocked + 1)
    else k.(admits := k.admits + [Admit(t, |k.starts|)])
  }

  function Expire(c: Config, l: Limiter, t: int, ok: bool): Limiter {
    if !l.pending then l
    else l.(pending := false, expiresAt := if ok && l.count > 0 then Some(t + c.window) else l.expiresAt)
  }

  datatype Step = DoRequest(t: int) | DoExpire(t: int, ok: bool)

  function Apply(c: Config, l: Limiter, st: Step): Limiter {
    match st
    case DoRequest(t) => Request(c, l, t)
    case DoExpire(t, ok) => Expire(c, l, t, ok)
  }

  function Run(c: Config, steps: seq<Step>): Limiter {
    if steps == [] then NewLimiter() else Apply(c, Run(c, steps[..|steps| - 1]), steps[|steps| - 1])
  }

  class RateLimiter {
    const config: Config
    var count: nat
    var expiresAt: Option<int>
    var pending: bool
    var blockedTotal: nat
    ghost var starts: seq<int>
    ghost var admits: seq<Admit>

    ghost function State(): Limiter
      reads this
    {
      Limiter(count, expiresAt, pending, blockedTotal, starts, admits)
    }

    constructor (config: Config)
      ensures State() == NewLimiter() && this.config == config
    {
      this.config := config;
      count, expiresAt, pending, blockedTotal, starts, admits := 0, None, false, 0, [], [];
    }

    method Incr(now: int) returns (n: nat)
      modifies this`count, this`expiresAt, this`pending, this`starts
      ensures n == count == if Expired(old(State()), now) then 1 else old(count) + 1
      ensures if Expired(old(State()), now) then expiresAt == None && pending && starts == old(starts) + [now]
              else expiresAt == old(expiresAt) && pending == old(pending) && starts == old(starts)
    {
      if count == 0 || (expiresAt.Some? && now >= expiresAt.value) {
        count, expiresAt, pending := 0, None, true;
        starts := starts + [now];
      }
      count := count + 1;
      return count;
    }

    /** The middleware. `incr` and `expire` say whether the store answers; `later` is the clock
        at the EXPIRE call. Returns whether the request goes on. */
    method Handle(now: int, incr: bool, later: int, expire: bool) returns (admitted: bool)
      modifies this
      ensures !incr ==> admitted && State() == old(State())
      ensures incr ==> State() == (var r := Request(config, old(State()), now);
                                   if Expired(old(State()), now) then Expire(config, r, later, expire) else r)
      ensures incr ==> admitted == (|admits| == |old(admits)| + 1)
    {
      if !incr {
        return true;
      }
      var n := Incr(now);
      if n == 1 {
        if expire {
          expiresAt := Some(later + config.window);
        }
        pending := false;
      }
      if n > config.limit {
        blockedTotal := blockedTotal + 1;
        return false;
      }
      admits := admits + [Admit(now, |starts|)];
      return true;
    }
  }

  // ---------------------------------------------------------------- counting

  function InWindow(admits: seq<Admit>, w: nat): nat {
    if admits == [] then 0
    else InWindow(admits[..|admits| - 1], w) + (if admits[|admits| - 1].w == w then 1 else 0)
  }

  function Between(admits: seq<Admit>, from: int, to: int): nat {
    if admits == [] then 0
    else Between(admits[..|admits| - 1], from, to) + (if from <= admits[|admits| - 1].t < to then 1 else 0)
  }

  lemma CountSnoc(admits: seq<Admit>, a: Admit, w: nat, from: int, to: int)
    ensures InWindow(admits + [a], w) == InWindow(admits, w) + (if a.w == w then 1 else 0)
    ensures Between(admits + [a], from, to) == Between(admits, from, to) + (if from <= a.t < to then 1 else 0)
  {
  }

  // ---------------------------------------------------------------- windows

  ghost predicate Timed(steps: seq<Step>) {
    forall i, j :: 0 <= i < j < |steps| ==> steps[i].t <= steps[j].t
  }

  /** Windows open at least a window length apart: the key cannot expire earlier. */
  ghost predicate WindowsApart(c: Config, l: Limiter, clock: int) {
    && (forall i, j :: 0 <= i < j < |l.starts| ==> l.starts[j] - l.starts[i] >= c.window)
    && (forall i :: 0 <= i < |l.starts| ==> l.starts[i] <= clock)
    && (l.count == 0 <==> l.starts == [])
    && (l.expiresAt.Some? ==> l.starts != [] && l.expiresAt.value >= l.starts[|l.starts| - 1] + c.window)
  }

  /** Admissions lie in their windows. */
  ghost predicate AdmitsInside(l: Limiter, clock: int) {
    forall a :: a in l.admits ==>
      && 1 <= a.w <= |l.starts| && l.starts[a.w - 1] <= a.t <= clock
      && (a.w < |l.starts| ==> a.t <= l.starts[a.w])
  }

  ghost predicate Opened(starts: seq<int>, admits: seq<Admit>, i: nat)
    requires i < |starts|
  {
    Admit(starts[i], i + 1) in admits
  }

  /** No window admits more than the limit, and the request that opens it is the first. */
  ghost predicate Quota(c: Config, l: Limiter) {
    && (forall w: nat :: InWindow(l.admits, w) <= c.limit)
    && InWindow(l.admits, |l.starts|) <= l.count
    && (c.limit >= 1 ==> forall i :: 0 <= i < |l.starts| ==> Opened(l.starts, l.admits, i))
  }

  ghost predicate Inv(c: Config, l: Limiter, clock: int) {
    WindowsApart(c, l, clock) && AdmitsInside(l, clock) && Quota(c, l)
  }

  lemma {:induction false} NoneOf(admits: seq<Admit>, w: nat)
    requires forall a :: a in admits ==> a.w != w
    ensures InWindow(admits, w) == 0
  {
    if admits != [] {
      assert admits[|admits| - 1] in admits;
      NoneOf(admits[..|admits| - 1], w);
    }
  }

  lemma RequestKeepsWindows(c: Config, l: Limiter, t: int, clock: int)
    requires c.window > 0 && WindowsApart(c, l, clock) && clock <= t
    ensures WindowsApart(c, Request(c, l, t), t)
  {
  }

  lemma RequestKeepsInside(c: Config, l: Limiter, t: int, clock: int)
    requires WindowsApart(c, l, clock) && AdmitsInside(l, clock) && clock <= t
    ensures AdmitsInside(Request(c, l, t), t)
  {
  }

  lemma RequestKeepsCounts(c: Config, l: Limiter, t: int, clock: int, w: nat)
    requires Inv(c, l, clock)
    ensures InWindow(Request(c, l, t).admits, w) <= c.limit
    ensures InWindow(Request(c, l, t).admits, |Request(c, l, t).starts|) <= Request(c, l, t).count
  {
    var n := |Request(c, l, t).starts|;
    if Expired(l, t) { NoneOf(l.admits, n); }
    CountSnoc(l.admits, Admit(t, n), w, 0, 0);
    CountSnoc(l.admits, Admit(t, n), n, 0, 0);
  }

  lemma RequestKeepsQuota(c: Config, l: Limiter, t: int, clock: int)
    requires Inv(c, l, clock)
    ensures Quota(c, Request(c, l, t))
  {
    var r := Request(c, l, t);
    var a := Admit(t, |r.starts|);
    forall w: nat
      ensures InWindow(r.admits, w) <= c.limit && InWindow(r.admits, |r.starts|) <= r.count
    {
      RequestKeepsCounts(c, l, t, clock, w);
    }
    RequestKeepsCounts(c, l, t, clock, 0);
    forall i | c.limit >= 1 && 0 <= i < |r.starts| ensures Opened(r.starts, r.admits, i) {
      if i == |l.starts| {
        assert r.admits[|l.admits|] == a;
      } else {
        assert Opened(l.starts, l.admits, i);
      }
    }
  }

  lemma StepKeepsInv(c: Config, l: Limiter, st: Step, clock: int)
    requires c.window > 0 && Inv(c, l, clock) && clock <= st.t
    ensures Inv(c, Apply(c, l, st), st.t)
  {
    if st.DoRequest? {
      RequestKeepsWindows(c, l, st.t, clock);
      RequestKeepsInside(c, l, st.t, clock);
      RequestKeepsQuota(c, l, st.t, clock);
    }
  }

  lemma {:induction false} EveryRun(c: Config, steps: seq<Step>)
    requires c.window > 0 && Timed(steps) && steps != []
    ensures Inv(c, Run(c, steps), steps[|steps| - 1].t)
  {
    var n := |steps| - 1;
    if n == 0 {
      assert steps[..0] == [];
      StepKeepsInv(c, NewLimiter(), steps[0], steps[0].t);
    } else {
      EveryRun(c, steps[..n]);
      StepKeepsInv(c, Run(c, steps[..n]), steps[n], steps[n - 1].t);
    }
  }

  // ---------------------------------------------------------------- the bound

  lemma {:induction false} TwoWindows(admits: seq<Admit>, from: int, to: int, w: nat)
    requires forall a :: a in admits && from <= a.t < to ==> a.w == w || a.w == w + 1
    ensures Between(admits, from, to) <= InWindow(admits, w) + InWindow(admits, w + 1)
  {
    if admits != [] {
      assert admits[|admits| - 1] in admits;
      TwoWindows(admits[..|admits| - 1], from, to, w);
    }
  }

  lemma {:induction false} OneWindowLess(admits: seq<Admit>, from: int, to: int, w: nat, out: Admit)
    requires forall a :: a in admits && from <= a.t < to ==> a.w == w || a.w == w + 1
    requires out in admits && out.w == w && !(from <= out.t < to)
    ensures Between(admits, from, to) + 1 <= InWindow(admits, w) + InWindow(admits, w + 1)
  {
    var n := |admits| - 1;
    assert admits[n] in admits;
    if admits[n] == out {
      TwoWindows(admits[..n], from, to, w);
    } else {
      assert out in admits[..n];
      OneWindowLess(admits[..n], from, to, w, out);
    }
  }

  lemma {:induction false} FirstBetween(admits: seq<Admit>, from: int, to: int) returns (w: nat)
    requires Between(admits, from, to) > 0
    ensures exists a :: a in admits && from <= a.t < to && a.w == w
    ensures forall a :: a in admits && from <= a.t < to ==> w <= a.w
  {
    var n := |admits| - 1;
    if Between(admits[..n], from, to) > 0 {
      w := FirstBetween(admits[..n], from, to);
      var a :| a in admits[..n] && from <= a.t < to && a.w == w;
      assert a in admits;
      if from <= admits[n].t < to && admits[n].w < w {
        w := admits[n].w;
        assert admits[n] in admits;
      }
    } else {
      w := admits[n].w;
      NothingBetween(admits[..n], from, to);
      assert admits[n] in admits;
    }
  }

  lemma {:induction false} NothingBetween(admits: seq<Admit>, from: int, to: int)
    requires Between(admits, from, to) == 0
    ensures forall a :: a in admits ==> !(from <= a.t < to)
  {
    if admits != [] {
      NothingBetween(admits[..|admits| - 1], from, to);
    }
  }

  lemma ReachesTwoWindows(c: Config, l: Limiter, clock: int, from: int, w: nat)
    requires c.window > 0 && Inv(c, l, clock)
    requires exists a :: a in l.admits && from <= a.t && a.w == w
    ensures forall a :: a in l.admits && from <= a.t < from + c.window && w <= a.w ==> a.w == w || a.w == w + 1
  {
  }

  /** While the counter store works, any half-open interval of the window's length admits at
      most 2 * limit - 1 requests (and none if the limit is 0), and each window at most limit. */
  lemma AtMostTwiceTheLimit(c: Config, steps: seq<Step>, from: int)
    requires c.window > 0 && Timed(steps) && steps != []
    ensures var l := Run(c, steps);
      && Between(l.admits, from, from + c.window) <= (if c.limit == 0 then 0 else 2 * c.limit - 1)
      && forall w: nat :: InWindow(l.admits, w) <= c.limit
  {
    var l, to := Run(c, steps), from + c.window;
    EveryRun(c, steps);
    if Between(l.admits, from, to) > 0 {
      var w := FirstBetween(l.admits, from, to);
      ReachesTwoWindows(c, l, steps[|steps| - 1].t, from, w);
      TwoWindows(l.admits, from, to, w);
      BoundFrom(c, l, steps[|steps| - 1].t, from, w);
    }
  }

  lemma BoundFrom(c: Config, l: Limiter, clock: int, from: int, w: nat)
    requires c.window > 0 && Inv(c, l, clock) && Between(l.admits, from, from + c.window) > 0
    requires forall a :: a in l.admits && from <= a.t < from + c.window ==> a.w == w || a.w == w + 1
    requires exists a :: a in l.admits && from <= a.t < from + c.window && a.w == w
    ensures c.limit >= 1 && Between(l.admits, from, from + c.window) <= 2 * c.limit - 1
  {
    var to := from + c.window;
    TwoWindows(l.admits, from, to, w);
    if c.limit >= 1 && InWindow(l.admits, w + 1) > 0 {
      var opener := Admit(l.starts[w - 1], w);
      assert Opened(l.starts, l.admits, w - 1);
      if exists a :: a in l.admits && from <= a.t < to && a.w == w + 1 {
        var a :| a in l.admits && from <= a.t < to && a.w == w + 1;
        assert l.starts[w] - l.starts[w - 1] >= c.window;
        OneWindowLess(l.admits, from, to, w, opener);
      } else {
        OnlyWindow(l.admits, from, to, w);
      }
    }
  }

  lemma {:induction false} OnlyWindow(admits: seq<Admit>, from: int, to: int, w: nat)
    requires forall a :: a in admits && from <= a.t < to ==> a.w == w
    ensures Between(admits, from, to) <= InWindow(admits, w)
  {
    if admits != [] {
      assert admits[|admits| - 1] in admits;
      OnlyWindow(admits[..|admits| - 1], from, to, w);
    }
  }

  lemma RunOne(c: Config, steps: seq<Step>, st: Step) returns (more: seq<Step>)
    ensures more == steps + [st] && Run(c, more) == Apply(c, Run(c, steps), st)
  {
    more := steps + [st];
    assert more[..|steps|] == steps;
  }

  ghost predicate UpTo(steps: seq<Step>, t: int) {
    Timed(steps) && forall i :: 0 <= i < |steps| ==> steps[i].t <= t
  }

  lemma RunLater(c: Config, steps: seq<Step>, st: Step) returns (more: seq<Step>)
    requires UpTo(steps, st.t)
    ensures Run(c, more) == Apply(c, Run(c, steps), st) && UpTo(more, st.t)
  {
    more := RunOne(c, steps, st);
  }

  /** k more requests at time t in a window that has room for them. */
  lemma {:induction false} Fill(c: Config, steps: seq<Step>, t: int, k: nat, from: int, to: int) returns (more: seq<Step>)
    requires UpTo(steps, t) && !Expired(Run(c, steps), t) && Run(c, steps).count + k <= c.limit
    ensures UpTo(more, t)
    ensures var l, r := Run(c, steps), Run(c, more);
      && r.count == l.count + k && r.expiresAt == l.expiresAt && r.pending == l.pending
      && Between(r.admits, from, to) == Between(l.admits, from, to) + (if from <= t < to then k else 0)
  {
    more := steps;
    if k > 0 {
      more := Fill(c, steps, t, k - 1, from, to);
      CountSnoc(Run(c, more).admits, Admit(t, |Run(c, more).starts|), 0, from, to);
      more := RunLater(c, more, DoRequest(t));
    }
  }

  lemma OpensFirst(c: Config) returns (steps: seq<Step>)
    requires c.limit >= 1 && c.window >= 2
    ensures UpTo(steps, 0)
    ensures var l := Run(c, steps);
      l.count == 1 && l.expiresAt == Some(c.window) && Between(l.admits, c.window - 1, 2 * c.window - 1) == 0
  {
    assert Run(c, []) == NewLimiter();
    steps := RunLater(c, [], DoRequest(0));
    var first := Run(c, steps);
    assert first.admits == [] + [Admit(0, 1)];
    CountSnoc([], Admit(0, 1), 0, c.window - 1, 2 * c.window - 1);
    steps := RunLater(c, steps, DoExpire(0, true));
  }

  lemma OpensNext(c: Config, steps: seq<Step>, from: int, to: int) returns (more: seq<Step>)
    requires c.limit >= 1 && UpTo(steps, c.window) && Run(c, steps).expiresAt == Some(c.window) && from <= c.window < to
    ensures UpTo(more, c.window)
    ensures var l, r := Run(c, steps), Run(c, more);
      r.count == 1 && r.expiresAt == None && Between(r.admits, from, to) == Between(l.admits, from, to) + 1
  {
    CountSnoc(Run(c, steps).admits, Admit(c.window, |Run(c, steps).starts| + 1), 0, from, to);
    more := RunLater(c, steps, DoRequest(c.window));
  }

  /** The bound is met, for every limit and every window longer than one unit of the clock: one
      request opens a window, the others come at its end, and the next window is filled at once. */
  lemma BoundIsTight(limit: nat, window: int) returns (steps: seq<Step>)
    requires limit >= 1 && window >= 2
    ensures Timed(steps)
    ensures Between(Run(Config(limit, window), steps).admits, window - 1, 2 * window - 1) == 2 * limit - 1
  {
    var c, from, to := Config(limit, window), window - 1, 2 * window - 1;
    steps := OpensFirst(c);
    steps := Fill(c, steps, window - 1, limit - 1, from, to);
    steps := OpensNext(c, steps, from, to);
    steps := Fill(c, steps, window, limit - 1, from, to);
  }

  // ---------------------------------------------------------------- nobody is blocked early

  lemma OpenWindowCounts(c: Config, l: Limiter, st: Step, clock: int)
    requires Inv(c, l, clock)
    requires InWindow(l.admits, |l.starts|) == Min(l.count, c.limit)
    ensures InWindow(Apply(c, l, st).admits, |Apply(c, l, st).starts|) == Min(Apply(c, l, st).count, c.limit)
  {
    if st.DoRequest? {
      var n := |Request(c, l, st.t).starts|;
      if Expired(l, st.t) { NoneOf(l.admits, n); }
      CountSnoc(l.admits, Admit(st.t, n), n, 0, 0);
    }
  }

  /** The open window has admitted exactly its first `limit` requests, and every request that
      did not pass is in the blocked total. */
  lemma {:induction false} BlocksOnlyBeyondTheLimit(c: Config, steps: seq<Step>)
    requires c.window > 0 && Timed(steps)
    ensures var l := Run(c, steps);
      && InWindow(l.admits, |l.starts|) == Min(l.count, c.limit)
      && |l.admits| + l.blocked == Requests(steps)
  {
    if steps != [] {
      var n := |steps| - 1;
      BlocksOnlyBeyondTheLimit(c, steps[..n]);
      if n > 0 {
        EveryRun(c, steps[..n]);
        OpenWindowCounts(c, Run(c, steps[..n]), steps[n], steps[n - 1].t);
      } else {
        OpenWindowCounts(c, NewLimiter(), steps[n], steps[n].t);
      }
    }
  }

  // ---------------------------------------------------------------- a failed EXPIRE

  function Continued(c: Config, l: Limiter, more: seq<Step>): Limiter {
    if more == [] then l else Apply(c, Continued(c, l, more[..|more| - 1]), more[|more| - 1])
  }

  function Requests(steps: seq<Step>): nat {
    if steps == [] then 0
    else Requests(steps[..|steps| - 1]) + (if steps[|steps| - 1].DoRequest? then 1 else 0)
  }

  function Min(a: nat, b: nat): nat {
    if a <= b then a else b
  }

  /** If the EXPIRE of a window fails, the key never expires: of all later requests, whenever
      they come, exactly those pass that were left of this one limit. The store does not have
      to fail again. */
  lemma {:induction false} WithoutExpiryTheKeyBlocks(c: Config, l: Limiter, more: seq<Step>)
    requires l.count >= 1 && l.expiresAt == None && !l.pending
    ensures var r := Continued(c, l, more);
      && r.expiresAt == None && !r.pending && r.starts == l.starts
      && r.count == l.count + Requests(more)
      && |r.admits| - |l.admits| == Min(r.count, c.limit) - Min(l.count, c.limit)
  {
    if more != [] {
      WithoutExpiryTheKeyBlocks(c, l, more[..|more| - 1]);
    }
  }

  /** The store answered an error to the one EXPIRE of the window open at step j. */
  ghost predicate FailsAt(c: Config, steps: seq<Step>, j: nat) {
    j < |steps| && steps[j].DoExpire? && !steps[j].ok && Run(c, steps[..j]).pending
  }

  /** The key is there, will not expire, and nobody is about to change that. */
  ghost predicate Stuck(l: Limiter) {
    l.count >= 1 && l.expiresAt == None && !l.pending
  }

  lemma StepSticks(c: Config, l: Limiter, st: Step)
    requires l.pending ==> l.count >= 1 && l.expiresAt == None
    ensures Apply(c, l, st).pending ==> Apply(c, l, st).count >= 1 && Apply(c, l, st).expiresAt == None
    ensures Stuck(Apply(c, l, st)) <==> Stuck(l) || (st.DoExpire? && !st.ok && l.pending)
  {
  }

  /** In every run the key is without an expiry for good if and only if some window's EXPIRE
      failed, however long ago. */
  lemma {:induction false} StuckIffAnExpireFailed(c: Config, steps: seq<Step>)
    ensures Stuck(Run(c, steps)) <==> exists j :: FailsAt(c, steps, j)
    ensures Run(c, steps).pending ==> Run(c, steps).count >= 1 && Run(c, steps).expiresAt == None
  {
    if steps != [] {
      var n := |steps| - 1;
      StuckIffAnExpireFailed(c, steps[..n]);
      StepSticks(c, Run(c, steps[..n]), steps[n]);
      forall j: nat | FailsAt(c, steps[..n], j) ensures FailsAt(c, steps, j) { assert steps[..n][..j] == steps[..j]; }
      forall j: nat | FailsAt(c, steps, j) && j != n ensures FailsAt(c, steps[..n], j) { assert steps[..n][..j] == steps[..j]; }
      assert steps[n].DoExpire? && !steps[n].ok && Run(c, steps[..n]).pending <==> FailsAt(c, steps, n);
    }
  }

  lemma {:induction false} RunContinued(c: Config, steps: seq<Step>, more: seq<Step>)
    ensures Run(c, steps + more) == Continued(c, Run(c, steps), more)
  {
    if more == [] {
      assert steps + more == steps;
    } else {
      RunContinued(c, steps, more[..|more| - 1]);
      assert (steps + more)[..|steps + more| - 1] == steps + more[..|more| - 1];
    }
  }

  /** And then, however the run goes on, only what was left of that one limit passes, and every
      other request is blocked. */
  lemma FailedExpireBlocksForGood(c: Config, steps: seq<Step>, j: nat, more: seq<Step>)
    requires FailsAt(c, steps, j)
    ensures var l, r := Run(c, steps), Run(c, steps + more);
      && Stuck(r) && r.starts == l.starts
      && |r.admits| - |l.admits| == Min(l.count + Requests(more), c.limit) - Min(l.count, c.limit)
  {
    StuckIffAnExpireFailed(c, steps);
    RunContinued(c, steps, more);
    WithoutExpiryTheKeyBlocks(c, Run(c, steps), more);
  }

  // ---------------------------------------------------------------- when a window ends

  /** The EXPIRE at step j took effect, and no window was opened since. */
  ghost predicate Expiring(c: Config, steps: seq<Step>, j: nat) {
    && j < |steps| && steps[j].DoExpire? && steps[j].ok && Run(c, steps[..j]).pending
    && Run(c, steps).starts == Run(c, steps[..j]).starts
  }

  lemma StartsGrow(c: Config, l: Limiter, st: Step)
    ensures l.starts <= Apply(c, l, st).starts
  {
  }

  lemma {:induction false} StartsOnlyGrow(c: Config, steps: seq<Step>, j: nat)
    requires j <= |steps|
    ensures Run(c, steps[..j]).starts <= Run(c, steps).starts
  {
    if j < |steps| {
      var n := |steps| - 1;
      StartsOnlyGrow(c, steps[..n], j);
      assert steps[..n][..j] == steps[..j];
      StartsGrow(c, Run(c, steps[..n]), steps[n]);
    } else {
      assert steps[..j] == steps;
    }
  }

  lemma {:induction false} ExpiresThen(c: Config, steps: seq<Step>, j: nat)
    requires Expiring(c, steps, j)
    ensures var l := Run(c, steps); l.count >= 1 && !l.pending && l.expiresAt == Some(steps[j].t + c.window)
  {
    var n := |steps| - 1;
    if j == n {
      StuckIffAnExpireFailed(c, steps[..n]);
    } else {
      assert steps[..n][..j] == steps[..j];
      StartsOnlyGrow(c, steps[..n], j);
      StartsGrow(c, Run(c, steps[..n]), steps[n]);
      ExpiresThen(c, steps[..n], j);
    }
  }

  /** The window of an EXPIRE called at te ends exactly at te + window: a request from then on opens
      the next one, and passes; an earlier one is still counted, and passes if and only if there were
      fewer than `limit` before it. */
  lemma WindowEndsOnTime(c: Config, steps: seq<Step>, j: nat, t: int)
    requires Expiring(c, steps, j) && c.limit >= 1
    ensures var l, r := Run(c, steps), Run(c, steps + [DoRequest(t)]);
      var over := t >= steps[j].t + c.window;
      && r.starts == l.starts + (if over then [t] else [])
      && r.count == (if over then 1 else l.count + 1)
      && (r.admits == l.admits + [Admit(t, |r.starts|)] <==> over || l.count < c.limit)
      && (r.admits == l.admits <==> !over && l.count >= c.limit)
  {
    ExpiresThen(c, steps, j);
    assert (steps + [DoRequest(t)])[..|steps|] == steps;
  }

  /** The very first request opens the first window and passes. */
  lemma FirstRequestPasses(c: Config, t: int)
    requires c.limit >= 1
    ensures var r := Run(c, [DoRequest(t)]); r.starts == [t] && r.admits == [Admit(t, 1)] && r.pending && r.count == 1
  {
    assert [DoRequest(t)][..0] == [];
  }
}
