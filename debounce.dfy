/**
 * The delay gate and the edge-triggered alert state shared by every check of a
 * container (cmd/alertd_container.go). `Tracker` is the mutable part of a
 * `MetricCheck` or `StaticCheck` together with its configured `MinDelay`;
 * `Gate` is `ShouldDelayMetric`/`ShouldDelayStatic`, and `Step` is the gate
 * followed by the failure/recovery switch that the CPU, PID, memory and
 * running checks share. Time is whole seconds.
 */
module Debounce {
  import opened Wrappers

  datatype Tracker = Tracker(active: bool, minDelay: Option<nat>, delaying: bool, since: int)

  /**
   * Whole seconds from `since` to `now`. The daemon reads a monotonic clock, so
   * a difference below zero cannot occur; it is counted as zero.
   */
  function Elapsed(since: int, now: int): nat
  {
    if now < since then 0 else now - since
  }

  /** What the gate answers and the state it leaves behind. */
  datatype Gated = Gated(suppress: bool, next: Tracker)

  /** ShouldDelayMetric / ShouldDelayStatic, with `now` for time.Now(). */
  function Gate(t: Tracker, breach: bool, now: int): (g: Gated)
    ensures g.next.active == t.active && g.next.minDelay == t.minDelay
    ensures t.minDelay.None? ==> !g.suppress && g.next == t
    ensures t.minDelay.Some? && breach && !t.delaying ==>
      g.suppress && g.next == t.(delaying := true, since := now)
    ensures t.minDelay.Some? && breach && t.delaying ==>
      g.next == t && (g.suppress <==> Elapsed(t.since, now) < t.minDelay.value)
    ensures t.minDelay.Some? && !breach ==> !g.suppress && g.next == t.(delaying := false)
    ensures g.suppress ==> breach && g.next.delaying
  {
    match t.minDelay
    case None => Gated(false, t)
    case Some(d) =>
      if breach then
        if !t.delaying then Gated(true, t.(delaying := true, since := now))
        else Gated(Elapsed(t.since, now) < d, t)
      else
        Gated(false, t.(delaying := false))
  }

  datatype Edge = Failure | Recovery

  /** The state after one check and the alert edge it raised, if any. */
  datatype Stepped = Stepped(next: Tracker, edge: Option<Edge>)

  /**
   * One run of CheckCPUUsage, CheckMinPids, CheckMemory or CheckRunning on a
   * breach decision: the gate first, then a failure when a breach finds the
   * alert inactive and a recovery when a non-breach finds it active.
   */
  function Step(t: Tracker, breach: bool, now: int): (s: Stepped)
    ensures s.next.minDelay == t.minDelay
    ensures s.edge.Some? <==> s.next.active != t.active
    ensures s.edge == Some(Failure) ==> breach && !t.active
    ensures s.edge == Some(Recovery) ==> !breach && t.active
    ensures breach == t.active ==> s.edge.None?
    ensures t.active && !breach ==> s.edge == Some(Recovery)
    ensures breach && !t.active ==> (s.edge == Some(Failure) <==> !Gate(t, breach, now).suppress)
    ensures t.minDelay.None? ==> s.next == t.(active := breach)
    ensures s.next.delaying == Gate(t, breach, now).next.delaying
    ensures s.next.since == Gate(t, breach, now).next.since
  {
    var g := Gate(t, breach, now);
    if g.suppress then Stepped(g.next, None)
    else if breach && !t.active then Stepped(g.next.(active := true), Some(Failure))
    else if !breach && t.active then Stepped(g.next.(active := false), Some(Recovery))
    else Stepped(g.next, None)
  }

  /** One observation of a check: whether the limit was breached, and when. */
  datatype Sample = Sample(breach: bool, now: int)

  /** The state after running the check once per sample, in order. */
  function Run(t: Tracker, samples: seq<Sample>): Tracker
    decreases |samples|
  {
    if samples == [] then t
    else
      var last := samples[|samples| - 1];
      Step(Run(t, samples[..|samples| - 1]), last.breach, last.now).next
  }

  /** The edge raised by the check on sample `k`. */
  function EdgeAt(t: Tracker, samples: seq<Sample>, k: nat): Option<Edge>
    requires k < |samples|
  {
    Step(Run(t, samples[..k]), samples[k].breach, samples[k].now).edge
  }

  lemma {:induction false} RunKeepsDelay(t: Tracker, samples: seq<Sample>)
    ensures Run(t, samples).minDelay == t.minDelay
    decreases |samples|
  {
    if samples != [] {
      RunKeepsDelay(t, samples[..|samples| - 1]);
    }
  }

  /**
   * Without a delay the checks are purely edge-triggered: the alert is active
   * exactly when the latest sample breached, and a sample raises an edge
   * exactly when its breach differs from the previous one.
   */
  lemma {:induction false} NoDelayFollowsBreach(t: Tracker, samples: seq<Sample>, k: nat)
    requires t.minDelay.None?
    requires k < |samples|
    ensures Run(t, samples[..k + 1]).active == samples[k].breach
    ensures EdgeAt(t, samples, k).Some? <==> samples[k].breach != (if k == 0 then t.active else samples[k - 1].breach)
  {
    RunKeepsDelay(t, samples[..k]);
    assert samples[..k + 1][..k] == samples[..k];
    if k > 0 {
      NoDelayFollowsBreach(t, samples, k - 1);
    }
  }

  /** Some sample after the first, among the first `n`, is at least `d` seconds after the first. */
  ghost predicate Ripe(samples: seq<Sample>, d: nat, n: nat)
    requires n <= |samples|
  {
    n > 1 && (Ripe(samples, d, n - 1) || Elapsed(samples[0].now, samples[n - 1].now) >= d)
  }

  /**
   * Debouncing under a sustained breach: the first sample starts the delay
   * window and is suppressed, the alert stays quiet while the window is
   * open, and the failure fires on the first later sample at least `minDelay`
   * seconds after the first one; the window start is never moved.
   */
  lemma {:induction false} SustainedBreach(t: Tracker, samples: seq<Sample>, n: nat)
    requires t.minDelay.Some? && !t.active && !t.delaying
    requires forall i :: 0 <= i < |samples| ==> samples[i].breach
    requires 1 <= n <= |samples|
    ensures Run(t, samples[..n]) == t.(delaying := true, since := samples[0].now, active := Ripe(samples, t.minDelay.value, n))
  {
    var prefix := samples[..n - 1];
    assert samples[..n][..n - 1] == prefix;
    if n > 1 {
      SustainedBreach(t, samples, n - 1);
    }
  }

  /** With a delay, the failure edge of a sustained breach is raised exactly once: on the first ripe sample. */
  lemma SustainedBreachFiresOnce(t: Tracker, samples: seq<Sample>, k: nat)
    requires t.minDelay.Some? && !t.active && !t.delaying
    requires forall i :: 0 <= i < |samples| ==> samples[i].breach
    requires k < |samples|
    ensures EdgeAt(t, samples, k) == Some(Failure) <==>
      k > 0 && !Ripe(samples, t.minDelay.value, k) && Ripe(samples, t.minDelay.value, k + 1)
    ensures EdgeAt(t, samples, k) != Some(Recovery)
  {
    if k > 0 {
      SustainedBreach(t, samples, k);
      SustainedBreach(t, samples, k + 1);
      assert samples[..k + 1][..k] == samples[..k];
    }
  }

  /**
   * A zero delay is not the same as no delay: the first breaching check is
   * still suppressed, and the failure comes one check later.
   */
  lemma ZeroDelaySuppressesOnce(t: Tracker, now: int, later: int)
    requires t.minDelay == Some(0) && !t.active && !t.delaying
    ensures Step(t, true, now).edge.None?
    ensures Step(Step(t, true, now).next, true, later).edge == Some(Failure)
  {
  }

  /**
   * A check without a breach closes the delay window, so the next breach
   * opens a fresh one and is suppressed again.
   */
  lemma DelayReset(t: Tracker, quiet: int, again: int)
    requires t.minDelay.Some?
    ensures !Step(t, false, quiet).next.delaying
    ensures Step(Step(t, false, quiet).next, true, again).edge.None?
    ensures Step(Step(t, false, quiet).next, true, again).next.since == again
  {
  }
}
