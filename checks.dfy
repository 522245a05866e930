/**
 * What one container's checks do, as functions of the checks' state
 * (cmd/alertd_container.go). A `View` is the state of the five checks of an
 * AlertdContainer together with its alert list; the classes of module
 * Container are proved to update their fields exactly as these functions say.
 * Docker's answers (container inspection and statistics) are inputs, template
 * execution is a `Renderer` function, and time is whole seconds.
 */
module Checks {
  import opened Wrappers
  import opened Strings
  import opened Errors
  import opened Debounce
  import opened Types

  /** The data a check hands to its templates. */
  datatype Payload =
    | NameData(name: string)
    | RunningData(name: string, expected: bool, running: bool)
    | UsageData(name: string, limit: nat, usage: nat)

  /** Executor.ExecuteTemplate: the text the named template renders for a payload. */
  type Renderer = (string, Payload) -> string

  /** The figures of types.Stats that the checks read; CPU usage is already a percentage. */
  datatype Stats = Stats(cpuUsage: nat, pidsCurrent: nat, memoryUsage: nat)

  /** The outcome of ContainerInspect: the container's running state, or the error text. */
  datatype Inspection = Inspected(running: bool) | InspectFailed(message: string)

  /** The outcome of GetStats. */
  datatype StatsResult = StatsRead(stats: Stats) | StatsFailed(message: string)

  /** What Docker answers about one container in one cycle. */
  datatype Observation = Observation(inspect: Inspection, stats: StatsResult)

  /** The error ContainerInspect returns, nil when it found the container. */
  function InspectError(i: Inspection): Option<string>
  {
    match i
    case Inspected(_) => None
    case InspectFailed(m) => Some(m)
  }

  /** The fixed configuration of an AlertdContainer: its name, limits, expected state and templates. */
  datatype Settings = Settings(
    name: string,
    maxCPU: Option<nat>,
    maxMem: Option<nat>,
    minProcs: Option<nat>,
    expectedRunning: Option<bool>,
    render: Renderer)

  /** The state of a container's five checks and its alert list. */
  datatype View = View(cpu: Tracker, mem: Tracker, pid: Tracker, exist: Tracker, running: Tracker, alerts: seq<Alert>)

  const UnknownContainer := "No such container:"

  /** IsUnknown: the inspect error says Docker has no such container. */
  function IsUnknown(e: Option<string>): (r: bool)
    ensures r <==> e.Some? && exists i :: OccursAt(e.value, UnknownContainer, i)
  {
    if e.Some? then Contains(e.value, UnknownContainer) else false
  }

  /** HasErrored: an error other than an unknown container, so Docker could not be asked. */
  function HasErrored(e: Option<string>): (r: bool)
    ensures r <==> e.Some? && !(exists i :: OccursAt(e.value, UnknownContainer, i))
  {
    e.Some? && !IsUnknown(e)
  }

  /** HasBecomeKnown: the existence alert is active and the inspection succeeded. */
  function HasBecomeKnown(existActive: bool, e: Option<string>): (r: bool)
    ensures r ==> !IsUnknown(e) && !HasErrored(e)
  {
    existActive && e.None?
  }

  /** Every inspect error is either an unknown container or a communication error, never both. */
  lemma ErrorClasses(e: Option<string>)
    ensures e.None? ==> !IsUnknown(e) && !HasErrored(e)
    ensures e.Some? ==> IsUnknown(e) != HasErrored(e)
  {
  }

  /** MemUsageMB: bytes in whole megabytes of 1000000 bytes, rounded down. */
  function MemUsageMB(bytes: nat): (mb: nat)
    ensures mb * 1000000 <= bytes < (mb + 1) * 1000000
  {
    bytes / 1000000
  }

  /** ShouldAlertCPU */
  predicate ShouldAlertCPU(usage: nat, limit: nat)
  {
    usage > limit
  }

  /** ShouldAlertMinPIDS */
  predicate ShouldAlertMinPids(current: nat, limit: nat)
  {
    current < limit
  }

  /** ShouldAlertMemory: the usage in whole megabytes exceeds the limit. */
  predicate ShouldAlertMemory(bytes: nat, limit: nat)
  {
    MemUsageMB(bytes) > limit
  }

  /** ShouldAlertRunning */
  predicate ShouldAlertRunning(expected: bool, running: bool)
  {
    expected != running
  }

  /**
   * Seen in bytes, the memory check breaches from (limit + 1) megabytes on: a
   * usage of limit megabytes and 999999 bytes does not breach.
   */
  lemma MemoryThreshold(bytes: nat, limit: nat)
    ensures ShouldAlertMemory(bytes, limit) <==> bytes >= (limit + 1) * 1000000
  {
    var mb := MemUsageMB(bytes);
    if mb > limit {
      assert (limit + 1) * 1000000 <= mb * 1000000;
    } else {
      assert (mb + 1) * 1000000 <= (limit + 1) * 1000000;
    }
  }

  /** The names of the four templates a check executes. */
  datatype TemplateNames = TemplateNames(failureMessage: string, failureTitle: string, recoveryMessage: string, recoveryTitle: string)

  const CpuTemplates := TemplateNames("cpu-failure-message", "cpu-failure-title", "cpu-recovery-message", "cpu-recovery-title")
  const PidTemplates := TemplateNames("min-pid-failure-message", "min-pid-failure-title", "min-pid-recovery-message", "min-pid-recovery-title")
  const MemTemplates := TemplateNames("memory-failure-message", "memory-failure-title", "memory-recovery-message", "memory-recovery-title")
  const RunningTemplates := TemplateNames("running-failure-message", "running-failure-title", "running-recovery-message", "running-recovery-title")
  const ExistTemplates := TemplateNames("exist-failure-message", "exist-failure-title", "exist-recovery-message", "exist-recovery-title")

  /** The alert of an edge: the check's failure or recovery templates executed on its data. */
  function EdgeAlert(render: Renderer, names: TemplateNames, edge: Edge, data: Payload): Alert
  {
    match edge
    case Failure => Alert(render(names.failureMessage, data), render(names.failureTitle, data), None)
    case Recovery => Alert(render(names.recoveryMessage, data), render(names.recoveryTitle, data), None)
  }

  /** The state of a check and the alert list after it ran. */
  datatype Checked = Checked(state: Tracker, alerts: seq<Alert>)

  /**
   * The body shared by CheckCPUUsage, CheckMinPids, CheckMemory and
   * CheckRunning once the breach is known: gate, then at most one alert,
   * appended exactly when the alert state toggles, rendered from the
   * failure templates when it turned on and from the recovery ones when it
   * turned off.
   */
  function Evaluate(t: Tracker, alerts: seq<Alert>, breach: bool, now: int, render: Renderer, names: TemplateNames, data: Payload): (c: Checked)
    ensures c.state == Step(t, breach, now).next
    ensures |alerts| <= |c.alerts| <= |alerts| + 1 && c.alerts[..|alerts|] == alerts
    ensures |c.alerts| == |alerts| + 1 <==> c.state.active != t.active
    ensures |c.alerts| == |alerts| + 1 ==>
      c.alerts[|alerts|] == EdgeAlert(render, names, if c.state.active then Failure else Recovery, data)
    ensures c.state.active && !t.active ==> breach
    ensures !c.state.active && t.active ==> !breach
  {
    var s := Step(t, breach, now);
    match s.edge
    case None => Checked(s.next, alerts)
    case Some(edge) => Checked(s.next, alerts + [EdgeAlert(render, names, edge, data)])
  }

  /** CheckCPUUsage: nothing without a limit; otherwise usage above the limit is a breach. */
  function CpuSpec(st: Settings, v: View, s: Stats, now: int): (r: View)
    ensures st.maxCPU.None? ==> r == v
    ensures r == v.(cpu := r.cpu, alerts := r.alerts)
    ensures |v.alerts| <= |r.alerts| <= |v.alerts| + 1 && r.alerts[..|v.alerts|] == v.alerts
    ensures |r.alerts| == |v.alerts| + 1 <==> r.cpu.active != v.cpu.active
    ensures r.cpu.active && !v.cpu.active ==> st.maxCPU.Some? && ShouldAlertCPU(s.cpuUsage, st.maxCPU.value)
    ensures !r.cpu.active && v.cpu.active ==> st.maxCPU.Some? && !ShouldAlertCPU(s.cpuUsage, st.maxCPU.value)
    ensures r.cpu.minDelay == v.cpu.minDelay
    ensures st.maxCPU.Some? ==> r.cpu == Step(v.cpu, ShouldAlertCPU(s.cpuUsage, st.maxCPU.value), now).next
    ensures st.maxCPU.Some? && |r.alerts| == |v.alerts| + 1 ==>
      r.alerts[|v.alerts|] == EdgeAlert(st.render, CpuTemplates, if r.cpu.active then Failure else Recovery,
                                        UsageData(st.name, st.maxCPU.value, s.cpuUsage))
  {
    match st.maxCPU
    case None => v
    case Some(limit) =>
      var c := Evaluate(v.cpu, v.alerts, ShouldAlertCPU(s.cpuUsage, limit), now, st.render, CpuTemplates, UsageData(st.name, limit, s.cpuUsage));
      v.(cpu := c.state, alerts := c.alerts)
  }

  /** CheckMinPids: nothing without a limit; otherwise fewer processes than the limit is a breach. */
  function PidSpec(st: Settings, v: View, s: Stats, now: int): (r: View)
    ensures st.minProcs.None? ==> r == v
    ensures r == v.(pid := r.pid, alerts := r.alerts)
    ensures |v.alerts| <= |r.alerts| <= |v.alerts| + 1 && r.alerts[..|v.alerts|] == v.alerts
    ensures |r.alerts| == |v.alerts| + 1 <==> r.pid.active != v.pid.active
    ensures r.pid.active && !v.pid.active ==> st.minProcs.Some? && ShouldAlertMinPids(s.pidsCurrent, st.minProcs.value)
    ensures !r.pid.active && v.pid.active ==> st.minProcs.Some? && !ShouldAlertMinPids(s.pidsCurrent, st.minProcs.value)
    ensures r.pid.minDelay == v.pid.minDelay
    ensures st.minProcs.Some? ==> r.pid == Step(v.pid, ShouldAlertMinPids(s.pidsCurrent, st.minProcs.value), now).next
    ensures st.minProcs.Some? && |r.alerts| == |v.alerts| + 1 ==>
      r.alerts[|v.alerts|] == EdgeAlert(st.render, PidTemplates, if r.pid.active then Failure else Recovery,
                                        UsageData(st.name, st.minProcs.value, s.pidsCurrent))
  {
    match st.minProcs
    case None => v
    case Some(limit) =>
      var c := Evaluate(v.pid, v.alerts, ShouldAlertMinPids(s.pidsCurrent, limit), now, st.render, PidTemplates, UsageData(st.name, limit, s.pidsCurrent));
      v.(pid := c.state, alerts := c.alerts)
  }

  /** CheckMemory: nothing without a limit; otherwise whole megabytes above the limit is a breach. */
  function MemSpec(st: Settings, v: View, s: Stats, now: int): (r: View)
    ensures st.maxMem.None? ==> r == v
    ensures r == v.(mem := r.mem, alerts := r.alerts)
    ensures |v.alerts| <= |r.alerts| <= |v.alerts| + 1 && r.alerts[..|v.alerts|] == v.alerts
    ensures |r.alerts| == |v.alerts| + 1 <==> r.mem.active != v.mem.active
    ensures r.mem.active && !v.mem.active ==> st.maxMem.Some? && ShouldAlertMemory(s.memoryUsage, st.maxMem.value)
    ensures !r.mem.active && v.mem.active ==> st.maxMem.Some? && !ShouldAlertMemory(s.memoryUsage, st.maxMem.value)
    ensures r.mem.minDelay == v.mem.minDelay
    ensures st.maxMem.Some? ==> r.mem == Step(v.mem, ShouldAlertMemory(s.memoryUsage, st.maxMem.value), now).next
    ensures st.maxMem.Some? && |r.alerts| == |v.alerts| + 1 ==>
      r.alerts[|v.alerts|] == EdgeAlert(st.render, MemTemplates, if r.mem.active then Failure else Recovery,
                                        UsageData(st.name, st.maxMem.value, MemUsageMB(s.memoryUsage)))
  {
    match st.maxMem
    case None => v
    case Some(limit) =>
      var c := Evaluate(v.mem, v.alerts, ShouldAlertMemory(s.memoryUsage, limit), now, st.render, MemTemplates, UsageData(st.name, limit, MemUsageMB(s.memoryUsage)));
      v.(mem := c.state, alerts := c.alerts)
  }

  /** CheckRunning: a running state other than the expected one is a breach. */
  function RunningSpec(st: Settings, v: View, running: bool, now: int): (r: View)
    requires st.expectedRunning.Some?
    ensures r == v.(running := r.running, alerts := r.alerts)
    ensures |v.alerts| <= |r.alerts| <= |v.alerts| + 1 && r.alerts[..|v.alerts|] == v.alerts
    ensures |r.alerts| == |v.alerts| + 1 <==> r.running.active != v.running.active
    ensures r.running.active && !v.running.active ==> ShouldAlertRunning(st.expectedRunning.value, running)
    ensures !r.running.active && v.running.active ==> !ShouldAlertRunning(st.expectedRunning.value, running)
    ensures r.running.minDelay == v.running.minDelay
    ensures r.running == Step(v.running, ShouldAlertRunning(st.expectedRunning.value, running), now).next
    ensures |r.alerts| == |v.alerts| + 1 ==>
      r.alerts[|v.alerts|] == EdgeAlert(st.render, RunningTemplates, if r.running.active then Failure else Recovery,
                                        RunningData(st.name, st.expectedRunning.value, running))
  {
    var expected := st.expectedRunning.value;
    var c := Evaluate(v.running, v.alerts, ShouldAlertRunning(expected, running), now, st.render, RunningTemplates, RunningData(st.name, expected, running));
    v.(running := c.state, alerts := c.alerts)
  }

  /** The alert CheckExist adds for an error that is not an unknown container. */
  function CommunicationAlert(name: string, e: string): Alert
  {
    Alert(name, Text(ErrUnknown), Some(e))
  }

  /**
   * CheckExist. An unknown container raises the existence failure (through
   * the delay gate) when the alert is inactive and is ignored when it is
   * active; any other error adds a communication alert on every call and
   * touches no state; a successful inspection ends an active alert with a
   * recovery; otherwise nothing happens.
   */
  function ExistSpec(st: Settings, v: View, e: Option<string>, now: int): (r: View)
    ensures r == v.(exist := r.exist, alerts := r.alerts)
    ensures r.exist.minDelay == v.exist.minDelay
    ensures |v.alerts| <= |r.alerts| <= |v.alerts| + 1 && r.alerts[..|v.alerts|] == v.alerts
    ensures IsUnknown(e) && !v.exist.active ==>
      Checked(r.exist, r.alerts) == Evaluate(v.exist, v.alerts, true, now, st.render, ExistTemplates, NameData(st.name))
    ensures IsUnknown(e) && v.exist.active ==> r == v
    ensures HasErrored(e) ==> r == v.(alerts := v.alerts + [CommunicationAlert(st.name, e.value)])
    ensures HasBecomeKnown(v.exist.active, e) ==>
      Checked(r.exist, r.alerts) == Evaluate(v.exist, v.alerts, false, now, st.render, ExistTemplates, NameData(st.name))
      && !r.exist.active && |r.alerts| == |v.alerts| + 1
    ensures e.None? && !v.exist.active ==> r == v
  {
    if IsUnknown(e) && !v.exist.active then
      var g := Gate(v.exist, true, now);
      if g.suppress then v.(exist := g.next)
      else
        v.(exist := g.next.(active := true), alerts := v.alerts + [EdgeAlert(st.render, ExistTemplates, Failure, NameData(st.name))])
    else if IsUnknown(e) && v.exist.active then v
    else if HasErrored(e) then v.(alerts := v.alerts + [CommunicationAlert(st.name, e.value)])
    else if HasBecomeKnown(v.exist.active, e) then
      var g := Gate(v.exist, false, now);
      v.(exist := g.next.(active := false), alerts := v.alerts + [EdgeAlert(st.render, ExistTemplates, Recovery, NameData(st.name))])
    else v
  }

  /**
   * Unlike the other checks, CheckExist does not consult the gate when the
   * container is found and its alert is inactive, so a delay window opened
   * by an earlier "No such container" answer stays open: a container that
   * vanishes again later is treated as if it had been missing all along.
   */
  lemma ExistDelayNotReset(st: Settings, v: View, now: int)
    requires v.exist.minDelay.Some? && v.exist.delaying && !v.exist.active
    ensures ExistSpec(st, v, None, now).exist.delaying
    ensures !Step(v.exist, false, now).next.delaying
  {
  }

  /**
   * While the delay holds back the failure of a missing container, nothing
   * stops the turn, so the statistics are still asked for: a failed request
   * puts its own alert in the batch on every cycle of the window, which the
   * delay was meant to keep quiet.
   */
  lemma ExistDelayLetsStatsAlertThrough(st: Settings, v: View, message: string, statsMessage: string, now: int)
    requires IsUnknown(Some(message)) && !v.exist.active && Gate(v.exist, true, now).suppress
    requires !v.running.active && st.expectedRunning != Some(false)
    ensures Cycle(st, v, Observation(InspectFailed(message), StatsFailed(statsMessage)), now).alerts == [StatsAlert(statsMessage)]
  {
    var statics := StaticsSpec(st, v.(alerts := []), InspectFailed(message), now);
    assert statics.alerts == [] && !statics.exist.active && !statics.running.active;
  }

  /** CheckStatics: the existence check, then the running check when the container was inspected and a state is expected. */
  function StaticsSpec(st: Settings, v: View, i: Inspection, now: int): (r: View)
    ensures r.cpu == v.cpu && r.mem == v.mem && r.pid == v.pid
    ensures i.InspectFailed? || st.expectedRunning.None? ==> r.running == v.running
    ensures |v.alerts| <= |r.alerts| <= |v.alerts| + 2 && r.alerts[..|v.alerts|] == v.alerts
  {
    var afterExist := ExistSpec(st, v, InspectError(i), now);
    if i.Inspected? && st.expectedRunning.Some? then RunningSpec(st, afterExist, i.running, now)
    else afterExist
  }

  /**
   * ChecksShouldStop: the metric checks are skipped while the container is
   * missing or not in its expected state, when it is expected to be stopped,
   * and when the static checks already produced an alert.
   */
  predicate Stops(st: Settings, v: View)
  {
    if v.running.active then true
    else if v.exist.active then true
    else if st.expectedRunning == Some(false) then true
    else v.alerts != []
  }

  /** The alert CheckMetrics adds when the statistics could not be fetched. */
  function StatsAlert(e: string): Alert
  {
    Alert("Received an unknown error", "", Some(e))
  }

  /**
   * CheckMetrics: on an error, one alert and no check; otherwise the CPU, PID
   * and memory checks in that order, each skipped without its limit.
   */
  function MetricsSpec(st: Settings, v: View, s: StatsResult, now: int): (r: View)
    ensures r.exist == v.exist && r.running == v.running
    ensures s.StatsFailed? ==> r == v.(alerts := v.alerts + [StatsAlert(s.message)])
    ensures |v.alerts| <= |r.alerts| <= |v.alerts| + 3 && r.alerts[..|v.alerts|] == v.alerts
  {
    match s
    case StatsFailed(m) => v.(alerts := v.alerts + [StatsAlert(m)])
    case StatsRead(stats) => MemSpec(st, PidSpec(st, CpuSpec(st, v, stats, now), stats, now), stats, now)
  }

  /** The alerts `Evaluate` adds, on their own. */
  function Raised(t: Tracker, breach: bool, now: int, render: Renderer, names: TemplateNames, data: Payload): (a: seq<Alert>)
    ensures |a| <= 1
    ensures a != [] <==> Step(t, breach, now).edge.Some?
  {
    match Step(t, breach, now).edge
    case None => []
    case Some(edge) => [EdgeAlert(render, names, edge, data)]
  }

  lemma EvaluateAppends(t: Tracker, alerts: seq<Alert>, breach: bool, now: int, render: Renderer, names: TemplateNames, data: Payload)
    ensures Evaluate(t, alerts, breach, now, render, names, data).alerts == alerts + Raised(t, breach, now, render, names, data)
  {
  }

  /**
   * The metric checks report in a fixed order: the CPU alert, if any, then
   * the PID alert, then the memory alert, and each check sees only its own
   * state.
   */
  lemma MetricsOrder(st: Settings, v: View, stats: Stats, now: int)
    requires st.maxCPU.Some? && st.minProcs.Some? && st.maxMem.Some?
    ensures var r := MetricsSpec(st, v, StatsRead(stats), now);
      r.alerts == v.alerts
        + Raised(v.cpu, ShouldAlertCPU(stats.cpuUsage, st.maxCPU.value), now, st.render, CpuTemplates,
                 UsageData(st.name, st.maxCPU.value, stats.cpuUsage))
        + Raised(v.pid, ShouldAlertMinPids(stats.pidsCurrent, st.minProcs.value), now, st.render, PidTemplates,
                 UsageData(st.name, st.minProcs.value, stats.pidsCurrent))
        + Raised(v.mem, ShouldAlertMemory(stats.memoryUsage, st.maxMem.value), now, st.render, MemTemplates,
                 UsageData(st.name, st.maxMem.value, MemUsageMB(stats.memoryUsage)))
  {
    var cpuLimit, pidLimit, memLimit := st.maxCPU.value, st.minProcs.value, st.maxMem.value;
    var a := CpuSpec(st, v, stats, now);
    EvaluateAppends(v.cpu, v.alerts, ShouldAlertCPU(stats.cpuUsage, cpuLimit), now, st.render, CpuTemplates, UsageData(st.name, cpuLimit, stats.cpuUsage));
    var b := PidSpec(st, a, stats, now);
    EvaluateAppends(a.pid, a.alerts, ShouldAlertMinPids(stats.pidsCurrent, pidLimit), now, st.render, PidTemplates, UsageData(st.name, pidLimit, stats.pidsCurrent));
    var c := MemSpec(st, b, stats, now);
    EvaluateAppends(b.mem, b.alerts, ShouldAlertMemory(stats.memoryUsage, memLimit), now, st.render, MemTemplates, UsageData(st.name, memLimit, MemUsageMB(stats.memoryUsage)));
    assert a.pid == v.pid && b.mem == v.mem;
  }

  /**
   * One container's turn in CheckContainers: its list is cleared, the static
   * checks run, and the metric checks run only when ChecksShouldStop does not
   * hold. The container contributes its whole list to the cycle's batch.
   */
  function Cycle(st: Settings, v: View, o: Observation, now: int): (r: View)
    ensures |r.alerts| <= 3
  {
    var statics := StaticsSpec(st, v.(alerts := []), o.inspect, now);
    if Stops(st, statics) then statics
    else
      assert statics.alerts == [];
      MetricsSpec(st, statics, o.stats, now)
  }

  /** A container whose static checks raised an alert raises no metric alert in that cycle, and its metric checks keep their state. */
  lemma StaticAlertSkipsMetrics(st: Settings, v: View, o: Observation, now: int)
    requires StaticsSpec(st, v.(alerts := []), o.inspect, now).alerts != []
    ensures var r := Cycle(st, v, o, now);
      r.alerts == StaticsSpec(st, v.(alerts := []), o.inspect, now).alerts
      && r.cpu == v.cpu && r.mem == v.mem && r.pid == v.pid
  {
  }

  /** When the static checks stop the turn, no metric check runs: their states are untouched and the statistics are never read. */
  lemma StopSkipsMetrics(st: Settings, v: View, o: Observation, now: int)
    requires Stops(st, StaticsSpec(st, v.(alerts := []), o.inspect, now))
    ensures var r := Cycle(st, v, o, now);
      r.cpu == v.cpu && r.mem == v.mem && r.pid == v.pid
    ensures forall s: StatsResult :: Cycle(st, v, o, now) == Cycle(st, v, o.(stats := s), now)
  {
  }

  /**
   * A communication error with Docker is reported on every cycle: the
   * container's batch is exactly the one communication alert, no check's
   * state changes, and the metrics are skipped.
   */
  lemma CommunicationErrorCycle(st: Settings, v: View, message: string, s: StatsResult, now: int)
    requires !IsUnknown(Some(message))
    ensures Cycle(st, v, Observation(InspectFailed(message), s), now) == v.(alerts := [CommunicationAlert(st.name, message)])
  {
    var statics := StaticsSpec(st, v.(alerts := []), InspectFailed(message), now);
    assert statics == v.(alerts := [CommunicationAlert(st.name, message)]);
    assert Stops(st, statics);
  }

  /** The views and per-cycle batches of a container observed over several cycles. */
  function CycleRun(st: Settings, v: View, obs: seq<Observation>, times: seq<int>): (r: seq<View>)
    requires |obs| == |times|
    ensures |r| == |obs|
    decreases |obs|
  {
    if obs == [] then []
    else
      var first := Cycle(st, v, obs[0], times[0]);
      [first] + CycleRun(st, first, obs[1..], times[1..])
  }

  /**
   * While Docker cannot be asked, the same communication alert is raised on
   * each of N cycles, so N cycles give N alerts, and the checks' states stay
   * as they were.
   */
  lemma {:induction false} CommunicationErrorRepeats(st: Settings, v: View, message: string, obs: seq<Observation>, times: seq<int>)
    requires |obs| == |times|
    requires !IsUnknown(Some(message))
    requires forall k :: 0 <= k < |obs| ==> obs[k].inspect == InspectFailed(message)
    ensures forall k :: 0 <= k < |obs| ==>
      CycleRun(st, v, obs, times)[k] == v.(alerts := [CommunicationAlert(st.name, message)])
    decreases |obs|
  {
    if obs != [] {
      CommunicationErrorCycle(st, v, message, obs[0].stats, times[0]);
      assert obs[0] == Observation(InspectFailed(message), obs[0].stats);
      var first := Cycle(st, v, obs[0], times[0]);
      assert first.(alerts := [CommunicationAlert(st.name, message)]) == v.(alerts := [CommunicationAlert(st.name, message)]);
      CommunicationErrorRepeats(st, first, message, obs[1..], times[1..]);
    }
  }
}
