/**
 The backpressure detector: internal/service/chat/backpressure_detector.go.

 A `Sample` is one call of check: the channel depth and the clock (milliseconds), one
 reading per call. The zero time of the source is None.
*/
module Backpressure {
  import opened Wrappers

  const COOLDOWN_MS := 10_000

  datatype Config = Config(high: int, low: int, duration: int, cooldown: int)

  /** NewBackpressureDetector; Go's division truncates, which only matters below the floor of 1. */
  function NewConfig(high: int, durationSec: int): Config {
    var low := if high >= 0 then high * 3 / 4 else -(-high * 3 / 4);
    Config(high, if low < 1 then 1 else low, durationSec * 1000, COOLDOWN_MS)
  }

  datatype Sample = Sample(t: int, depth: nat)

  predicate High(c: Config, s: Sample) {
    s.depth > c.high
  }

  predicate Low(c: Config, s: Sample) {
    s.depth <= c.high && s.depth <= c.low
  }

  /** The detector's fields, and the times at which the mode changed so far. */
  datatype Detector = Detector(
    overflow: bool, aboveSince: Option<int>, belowSince: Option<int>, callbacks: nat, switches: seq<int>)

  function NewDetector(): Detector {
    Detector(false, None, None, 0, [])
  }

  function Check(c: Config, d: Detector, s: Sample): Detector {
    if High(c, s) then
      var since := if d.aboveSince == None then s.t else d.aboveSince.value;
      var on := !d.overflow && s.t - since >= c.duration;
      Detector(d.overflow || on, Some(since), None, d.callbacks, if on then d.switches + [s.t] else d.switches)
    else if Low(c, s) then
      if !d.overflow then d.(aboveSince := None)
      else
        var since := if d.belowSince == None then s.t else d.belowSince.value;
        if s.t - since >= c.cooldown then Detector(false, None, None, d.callbacks + 1, d.switches + [s.t])
        else d.(aboveSince := None, belowSince := Some(since))
    else d
  }

  function Run(c: Config, h: seq<Sample>): Detector {
    if h == [] then NewDetector() else Check(c, Run(c, h[..|h| - 1]), h[|h| - 1])
  }

  // ---------------------------------------------------------------- the imperative detector

  class BackpressureDetector {
    const config: Config
    var overflowMode: bool
    var aboveSince: Option<int>
    var belowSince: Option<int>
    var overflowEndCalls: nat
    ghost var switches: seq<int>

    ghost function State(): Detector
      reads this
    {
      Detector(overflowMode, aboveSince, belowSince, overflowEndCalls, switches)
    }

    /** The low mark is three quarters of the high one, rounded down, and at least 1; so it lies
        at or below the high mark exactly if that is at least 1. */
    constructor (highThreshold: int, durationSec: int)
      ensures State() == NewDetector() && config == NewConfig(highThreshold, durationSec)
      ensures config.high == highThreshold && config.low >= 1 && (config.low <= config.high <==> highThreshold >= 1)
      ensures if highThreshold >= 2 then 4 * config.low <= 3 * config.high < 4 * config.low + 4 else config.low == 1
      ensures config.duration == 1000 * durationSec && config.cooldown == COOLDOWN_MS
    {
      config := NewConfig(highThreshold, durationSec);
      overflowMode, aboveSince, belowSince, overflowEndCalls, switches := false, None, None, 0, [];
    }

    method CheckDepth(depth: nat, now: int)
      modifies this
      ensures State() == Check(config, old(State()), Sample(now, depth))
    {
      if depth > config.high {
        if aboveSince == None {
          aboveSince := Some(now);
        }
        if !overflowMode && now - aboveSince.value >= config.duration {
          overflowMode := true;
          switches := switches + [now];
        }
        belowSince := None;
      } else if depth <= config.low {
        if overflowMode {
          if belowSince == None {
            belowSince := Some(now);
          }
          if now - belowSince.value >= config.cooldown {
            overflowMode := false;
            belowSince := None;
            switches := switches + [now];
            overflowEndCalls := overflowEndCalls + 1;
          }
        }
        aboveSince := None;
      }
    }
  }

  // ---------------------------------------------------------------- what the samples say

  ghost predicate Timed(h: seq<Sample>) {
    forall i, j :: 0 <= i < j < |h| ==> h[i].t <= h[j].t
  }

  /** Some sample at or before `t` was high and none since was low. */
  ghost predicate HighSince(c: Config, h: seq<Sample>, t: int) {
    exists i :: 0 <= i < |h| && High(c, h[i]) && h[i].t <= t && forall j :: i <= j < |h| ==> !Low(c, h[j])
  }

  /** Some sample at or before `t` was low and none since was high. */
  ghost predicate LowSince(c: Config, h: seq<Sample>, t: int) {
    exists i :: 0 <= i < |h| && Low(c, h[i]) && h[i].t <= t && forall j :: i <= j < |h| ==> !High(c, h[j])
  }

  lemma HighSinceSnoc(c: Config, h: seq<Sample>, s: Sample, t: int)
    ensures HighSince(c, h + [s], t) <==> !Low(c, s) && (HighSince(c, h, t) || (High(c, s) && s.t <= t))
  {
    var g := h + [s];
    if HighSince(c, h, t) && !Low(c, s) {
      var i :| 0 <= i < |h| && High(c, h[i]) && h[i].t <= t && forall j :: i <= j < |h| ==> !Low(c, h[j]);
      assert High(c, g[i]) && g[i].t <= t && forall j :: i <= j < |g| ==> !Low(c, g[j]);
    }
    if High(c, s) && s.t <= t {
      assert High(c, g[|h|]);
    }
    if HighSince(c, g, t) {
      var i :| 0 <= i < |g| && High(c, g[i]) && g[i].t <= t && forall j :: i <= j < |g| ==> !Low(c, g[j]);
      assert !Low(c, g[|h|]);
      if i < |h| {
        assert forall j :: i <= j < |h| ==> !Low(c, h[j]) by {
          assert forall j :: 0 <= j < |h| ==> g[j] == h[j];
        }
      }
    }
  }

  lemma LowSinceSnoc(c: Config, h: seq<Sample>, s: Sample, t: int)
    ensures LowSince(c, h + [s], t) <==> !High(c, s) && (LowSince(c, h, t) || (Low(c, s) && s.t <= t))
  {
    var g := h + [s];
    if LowSince(c, h, t) && !High(c, s) {
      var i :| 0 <= i < |h| && Low(c, h[i]) && h[i].t <= t && forall j :: i <= j < |h| ==> !High(c, h[j]);
      assert Low(c, g[i]) && g[i].t <= t && forall j :: i <= j < |g| ==> !High(c, g[j]);
    }
    if Low(c, s) && s.t <= t {
      assert Low(c, g[|h|]);
    }
    if LowSince(c, g, t) {
      var i :| 0 <= i < |g| && Low(c, g[i]) && g[i].t <= t && forall j :: i <= j < |g| ==> !High(c, g[j]);
      assert !High(c, g[|h|]);
      if i < |h| {
        assert forall j :: i <= j < |h| ==> !High(c, h[j]) by {
          assert forall j :: 0 <= j < |h| ==> g[j] == h[j];
        }
      }
    }
  }

  /** The two timers say exactly what the samples say, and never run together. */
  ghost predicate TimersMean(c: Config, h: seq<Sample>, d: Detector) {
    && (d.aboveSince == None || d.belowSince == None)
    && (forall t :: HighSince(c, h, t) <==> d.aboveSince.Some? && d.aboveSince.value <= t)
    && (if d.overflow then forall t :: LowSince(c, h, t) <==> d.belowSince.Some? && d.belowSince.value <= t
        else d.belowSince == None)
    && (forall x :: x in {d.aboveSince, d.belowSince} && x.Some? ==> h != [] && h[0].t <= x.value <= h[|h| - 1].t)
  }

  lemma CheckKeepsTimers(c: Config, h: seq<Sample>, s: Sample, d: Detector)
    requires Timed(h + [s]) && TimersMean(c, h, d)
    ensures TimersMean(c, h + [s], Check(c, d, s))
  {
    var g, r := h + [s], Check(c, d, s);
    if h != [] {
      assert g[0] == h[0] && g[|h| - 1] == h[|h| - 1] && g[|h| - 1].t <= g[|h|].t;
    }
    forall t ensures HighSince(c, g, t) <==> r.aboveSince.Some? && r.aboveSince.value <= t {
      HighSinceSnoc(c, h, s, t);
    }
    if r.overflow {
      forall t ensures LowSince(c, g, t) <==> r.belowSince.Some? && r.belowSince.value <= t {
        LowSinceSnoc(c, h, s, t);
      }
    }
  }

  lemma {:induction false} TimersMeanWhatSamplesSay(c: Config, h: seq<Sample>)
    requires Timed(h)
    ensures TimersMean(c, h, Run(c, h))
  {
    if h != [] {
      var n := |h| - 1;
      TimersMeanWhatSamplesSay(c, h[..n]);
      assert h[..n] + [h[n]] == h;
      CheckKeepsTimers(c, h[..n], h[n], Run(c, h[..n]));
    }
  }

  lemma CheckSwitches(c: Config, h: seq<Sample>, s: Sample, d: Detector)
    requires TimersMean(c, h, d) && Timed(h + [s])
    ensures !d.overflow ==> (Check(c, d, s).overflow <==> High(c, s) && HighSince(c, h + [s], s.t - c.duration))
    ensures d.overflow ==> (!Check(c, d, s).overflow <==> Low(c, s) && LowSince(c, h + [s], s.t - c.cooldown))
  {
    HighSinceSnoc(c, h, s, s.t - c.duration);
    LowSinceSnoc(c, h, s, s.t - c.cooldown);
    if h != [] {
      assert (h + [s])[|h| - 1].t <= (h + [s])[|h|].t;
    }
  }

  /** Overflow turns on at a sample exactly when it is off, the sample is high, and some sample
      at least `duration` earlier was high with none low since. It turns off exactly when it is
      on, the sample is low, and some sample at least `cooldown` earlier was low with none high
      since. */
  lemma SwitchesExactlyWhen(c: Config, h: seq<Sample>, s: Sample)
    requires Timed(h + [s])
    ensures var before, after := Run(c, h).overflow, Run(c, h + [s]).overflow;
      && (!before ==> (after <==> High(c, s) && HighSince(c, h + [s], s.t - c.duration)))
      && (before ==> (!after <==> Low(c, s) && LowSince(c, h + [s], s.t - c.cooldown)))
  {
    assert forall i :: 0 <= i < |h| ==> (h + [s])[i] == h[i];
    TimersMeanWhatSamplesSay(c, h);
    CheckSwitches(c, h, s, Run(c, h));
    assert (h + [s])[..|h|] == h;
  }

  // ---------------------------------------------------------------- no flapping

  function Latest(start: int, switches: seq<int>): int {
    if switches == [] then start else switches[|switches| - 1]
  }

  /** Even changes turn overflow on, odd ones off; each keeps its distance from the previous one. */
  ghost predicate KeepsDistance(c: Config, start: int, switches: seq<int>, i: nat)
    requires i < |switches|
  {
    switches[i] >= Latest(start, switches[..i]) + (if i % 2 == 0 then c.duration else c.cooldown)
  }

  ghost predicate Spaced(c: Config, start: int, d: Detector) {
    && (d.overflow <==> |d.switches| % 2 == 1)
    && d.callbacks == |d.switches| / 2
    && (forall i :: 0 <= i < |d.switches| ==> KeepsDistance(c, start, d.switches, i))
    && (d.aboveSince.Some? && !d.overflow ==> d.aboveSince.value >= Latest(start, d.switches))
    && (d.belowSince.Some? && d.overflow ==> d.belowSince.value >= Latest(start, d.switches))
  }

  lemma SwitchKeepsDistance(c: Config, start: int, switches: seq<int>, t: int)
    requires forall i :: 0 <= i < |switches| ==> KeepsDistance(c, start, switches, i)
    requires t >= Latest(start, switches) + (if |switches| % 2 == 0 then c.duration else c.cooldown)
    ensures forall i :: 0 <= i < |switches| + 1 ==> KeepsDistance(c, start, switches + [t], i)
  {
    forall i | 0 <= i < |switches| + 1 ensures KeepsDistance(c, start, switches + [t], i) {
      assert (switches + [t])[..i] == switches[..i];
      if i < |switches| {
        assert KeepsDistance(c, start, switches, i);
      } else {
        assert switches[..i] == switches;
      }
    }
  }

  lemma CheckKeepsSpaced(c: Config, start: int, d: Detector, s: Sample)
    requires Spaced(c, start, d) && Latest(start, d.switches) <= s.t
    ensures Spaced(c, start, Check(c, d, s)) && Latest(start, Check(c, d, s).switches) <= s.t
  {
    if Check(c, d, s).overflow != d.overflow {
      SwitchKeepsDistance(c, start, d.switches, s.t);
    }
  }

  lemma {:induction false} RunIsSpaced(c: Config, h: seq<Sample>)
    requires Timed(h) && h != []
    ensures Spaced(c, h[0].t, Run(c, h)) && Latest(h[0].t, Run(c, h).switches) <= h[|h| - 1].t
  {
    var n := |h| - 1;
    if n == 0 {
      assert h[..0] == [];
      CheckKeepsSpaced(c, h[0].t, NewDetector(), h[0]);
    } else {
      RunIsSpaced(c, h[..n]);
      CheckKeepsSpaced(c, h[0].t, Run(c, h[..n]), h[n]);
    }
  }

  lemma {:induction false} CyclesTake(c: Config, start: int, d: Detector, k: nat)
    requires Spaced(c, start, d) && 1 <= k && 2 * k <= |d.switches|
    ensures d.switches[2 * k - 1] - start >= k * (c.duration + c.cooldown)
  {
    var on, off := 2 * k - 2, 2 * k - 1;
    assert KeepsDistance(c, start, d.switches, on) && KeepsDistance(c, start, d.switches, off);
    assert d.switches[off] >= Latest(start, d.switches[..on]) + (c.duration + c.cooldown);
    var cycle := c.duration + c.cooldown;
    assert k * cycle == (k - 1) * cycle + cycle;
    if k > 1 {
      CyclesTake(c, start, d, k - 1);
    }
  }

  /** No flapping: in any run of samples, mode changes alternate, the k-th complete on-off
      cycle ends at least k * (duration + cooldown) after the first sample, and the end-of-
      overflow callback has run exactly once per completed cycle. */
  lemma NoFlapping(c: Config, h: seq<Sample>, k: nat)
    requires Timed(h) && h != [] && 1 <= k <= Run(c, h).callbacks
    ensures var d := Run(c, h);
      && d.callbacks == |d.switches| / 2 && (d.overflow <==> |d.switches| % 2 == 1)
      && h[|h| - 1].t - h[0].t >= d.switches[2 * k - 1] - h[0].t >= k * (c.duration + c.cooldown)
  {
    var d := Run(c, h);
    RunIsSpaced(c, h);
    CyclesTake(c, h[0].t, d, k);
    LatestIsLast(c, h, 2 * k - 1);
  }

  lemma {:induction false} LatestIsLast(c: Config, h: seq<Sample>, i: nat)
    requires Timed(h) && h != [] && i < |Run(c, h).switches|
    ensures Run(c, h).switches[i] <= h[|h| - 1].t
  {
    var n := |h| - 1;
    if i < |Run(c, h[..n]).switches| {
      LatestIsLast(c, h[..n], i);
    }
  }

  // ---------------------------------------------------------------- a steady load

  /** What samples of one depth, the first of them at `start` and the last at `now`, have led to. */
  ghost predicate Settling(c: Config, before: bool, d: Detector, depth: nat, start: int, now: int) {
    if depth > c.high then
      && d.aboveSince.Some? && d.aboveSince.value <= start
      && (before || now - start >= c.duration ==> d.overflow)
    else if depth <= c.low then
      && (d.overflow ==> before && d.belowSince.Some? && d.belowSince.value <= start)
      && (now - start >= c.cooldown ==> !d.overflow)
    else d.overflow == before
  }

  lemma FirstSettles(c: Config, h: seq<Sample>, s: Sample)
    requires Timed(h + [s])
    ensures Settling(c, Run(c, h).overflow, Check(c, Run(c, h), s), s.depth, s.t, s.t)
  {
    assert forall i :: 0 <= i < |h| ==> (h + [s])[i] == h[i];
    TimersMeanWhatSamplesSay(c, h);
    if h != [] { assert (h + [s])[|h| - 1].t <= (h + [s])[|h|].t; }
  }

  lemma NextSettles(c: Config, before: bool, d: Detector, start: int, now: int, s: Sample)
    requires Settling(c, before, d, s.depth, start, now) && now <= s.t
    ensures Settling(c, before, Check(c, d, s), s.depth, start, s.t)
  {
  }

  lemma {:induction false} SteadySettles(c: Config, h: seq<Sample>, more: seq<Sample>, depth: nat)
    requires Timed(h + more) && more != [] && forall i :: 0 <= i < |more| ==> more[i].depth == depth
    ensures Settling(c, Run(c, h).overflow, Run(c, h + more), depth, more[0].t, more[|more| - 1].t)
  {
    var n := |more| - 1;
    var all := h + more;
    assert all[..|all| - 1] == h + more[..n] && all[|all| - 1] == more[n];
    if n == 0 {
      assert h + more == h + [more[0]] && more[..0] == [] && h + [] == h;
      FirstSettles(c, h, more[0]);
    } else {
      assert forall i :: 0 <= i < |h + more[..n]| ==> (h + more[..n])[i] == all[i];
      SteadySettles(c, h, more[..n], depth);
      assert all[|h| + n - 1] == more[n - 1] && all[|h| + n] == more[n];
      NextSettles(c, Run(c, h).overflow, Run(c, h + more[..n]), more[0].t, more[n - 1].t, more[n]);
    }
  }

  /** Whatever came before: a load above the high mark for `duration` ends in overflow, one at or below
      the low mark for `cooldown` ends without, and one in between changes nothing. */
  lemma SteadyLoadSettles(c: Config, h: seq<Sample>, more: seq<Sample>, depth: nat)
    requires Timed(h + more) && more != [] && forall i :: 0 <= i < |more| ==> more[i].depth == depth
    ensures var before, after, lasted := Run(c, h).overflow, Run(c, h + more).overflow, more[|more| - 1].t - more[0].t;
      && (depth > c.high && lasted >= c.duration ==> after)
      && (depth <= c.high && depth <= c.low && lasted >= c.cooldown ==> !after)
      && (c.low < depth <= c.high ==> after == before)
      && (depth > c.high && before ==> after) && (depth <= c.low && depth <= c.high && !before ==> !after)
  {
    SteadySettles(c, h, more, depth);
  }
}
