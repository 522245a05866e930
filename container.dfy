/**
 * The checks of one container as the objects the daemon updates in place
 * (cmd/alertd_container.go). An AlertdContainer points at its alert list and
 * at five check objects; each operation changes only the objects it names,
 * and its effect on them is the corresponding function of module Checks.
 */
module Container {
  import opened Wrappers
  import opened Errors
  import opened Debounce
  import opened Types
  import opened Checks

  /** MetricCheck: a limit-based check (CPU, memory, PIDs) and its alert and delay state. */
  class MetricCheck {
    var alertActive: bool
    const limit: Option<nat>
    const minDelay: Option<nat>
    var delaying: bool
    var delaySince: int

    constructor(limit: Option<nat>, minDelay: Option<nat>, now: int)
      ensures this.limit == limit
      ensures State() == Tracker(false, minDelay, false, now)
    {
      this.limit := limit;
      this.minDelay := minDelay;
      alertActive := false;
      delaying := false;
      delaySince := now;
    }

    function State(): Tracker
      reads this
    {
      Tracker(alertActive, minDelay, delaying, delaySince)
    }

    /** ToggleAlertActive */
    method ToggleAlertActive()
      modifies this
      ensures State() == old(State()).(active := !old(alertActive))
    {
      alertActive := !alertActive;
    }
  }

  /** StaticCheck: a check of a fixed expectation (existence, running state) and its alert and delay state. */
  class StaticCheck {
    var alertActive: bool
    const expected: Option<bool>
    const minDelay: Option<nat>
    var delaying: bool
    var delaySince: int

    constructor(expected: Option<bool>, minDelay: Option<nat>, now: int)
      ensures this.expected == expected
      ensures State() == Tracker(false, minDelay, false, now)
    {
      this.expected := expected;
      this.minDelay := minDelay;
      alertActive := false;
      delaying := false;
      delaySince := now;
    }

    function State(): Tracker
      reads this
    {
      Tracker(alertActive, minDelay, delaying, delaySince)
    }

    /** ToggleAlertActive */
    method ToggleAlertActive()
      modifies this
      ensures State() == old(State()).(active := !old(alertActive))
    {
      alertActive := !alertActive;
    }
  }

  /** AlertdContainer: a monitored container, its alert list and its five checks. */
  class AlertdContainer {
    const name: string
    const alertList: AlertList
    const cpuCheck: MetricCheck
    const memCheck: MetricCheck
    const pidCheck: MetricCheck
    const existenceCheck: StaticCheck
    const runningCheck: StaticCheck
    const templates: Renderer

    /** The three metric checks, and the two static checks, are distinct objects. */
    ghost predicate Valid()
    {
      cpuCheck != memCheck && cpuCheck != pidCheck && memCheck != pidCheck && existenceCheck != runningCheck
    }

    /** The objects whose fields the container's operations change. */
    ghost function Repr(): set<object>
    {
      {alertList, cpuCheck, memCheck, pidCheck, existenceCheck, runningCheck}
    }

    /** The fixed part of the container. */
    function Config(): Settings
    {
      Settings(name, cpuCheck.limit, memCheck.limit, pidCheck.limit, runningCheck.expected, templates)
    }

    /** The state of the checks and the alert list. */
    ghost function View(): View
      reads Repr()
    {
      Checks.View(cpuCheck.State(), memCheck.State(), pidCheck.State(), existenceCheck.State(), runningCheck.State(), alertList.alerts)
    }

    /** The container InitCheckers builds from one configuration entry: every check idle, all sharing one delay. */
    constructor(name: string, maxCPU: Option<nat>, maxMem: Option<nat>, minProcs: Option<nat>,
                expectedRunning: Option<bool>, delay: Option<nat>, templates: Renderer, now: int)
      ensures Valid() && fresh(Repr())
      ensures Config() == Settings(name, maxCPU, maxMem, minProcs, expectedRunning, templates)
      ensures existenceCheck.expected == Some(true)
      ensures View() == Checks.View(Tracker(false, delay, false, now), Tracker(false, delay, false, now), Tracker(false, delay, false, now),
                             Tracker(false, delay, false, now), Tracker(false, delay, false, now), [])
    {
      this.name := name;
      alertList := new AlertList();
      cpuCheck := new MetricCheck(maxCPU, delay, now);
      memCheck := new MetricCheck(maxMem, delay, now);
      pidCheck := new MetricCheck(minProcs, delay, now);
      existenceCheck := new StaticCheck(Some(true), delay, now);
      runningCheck := new StaticCheck(expectedRunning, delay, now);
      this.templates := templates;
    }

    /** ShouldDelayMetric, with `now` for time.Now(). */
    method ShouldDelayMetric(alert: bool, metric: MetricCheck, now: int) returns (delay: bool)
      modifies metric
      ensures delay == Gate(old(metric.State()), alert, now).suppress
      ensures metric.State() == Gate(old(metric.State()), alert, now).next
    {
      if metric.minDelay.Some? {
        if alert {
          if !metric.delaying {
            metric.delaying := true;
            metric.delaySince := now;
            return true;
          } else if Elapsed(metric.delaySince, now) < metric.minDelay.value {
            return true;
          }
        } else {
          if metric.delaying {
            metric.delaying := false;
          }
        }
      }
      return false;
    }

    /** ShouldDelayStatic, with `now` for time.Now(). */
    method ShouldDelayStatic(alert: bool, check: StaticCheck, now: int) returns (delay: bool)
      modifies check
      ensures delay == Gate(old(check.State()), alert, now).suppress
      ensures check.State() == Gate(old(check.State()), alert, now).next
    {
      if check.minDelay.Some? {
        if alert {
          if !check.delaying {
            check.delaying := true;
            check.delaySince := now;
            return true;
          } else if Elapsed(check.delaySince, now) < check.minDelay.value {
            return true;
          }
        } else {
          if check.delaying {
            check.delaying := false;
          }
        }
      }
      return false;
    }

    /** ChecksShouldStop */
    function ChecksShouldStop(): (r: bool)
      reads Repr()
      ensures r == Stops(Config(), View())
    {
      if runningCheck.alertActive then true
      else if existenceCheck.alertActive then true
      else if runningCheck.expected.Some? && !runningCheck.expected.value then true
      else alertList.ShouldSend()
    }

    /** CheckExist */
    method CheckExist(e: Option<string>, now: int)
      requires Valid()
      modifies existenceCheck, alertList
      ensures View() == ExistSpec(Config(), old(View()), e, now)
    {
      ghost var v := View();
      ghost var r := ExistSpec(Config(), v, e, now);
      var data := NameData(name);
      if IsUnknown(e) && !existenceCheck.alertActive {
        var delay := ShouldDelayStatic(true, existenceCheck, now);
        if delay {
          assert r.exist == existenceCheck.State() && r.alerts == alertList.alerts;
          return;
        }
        var message := templates("exist-failure-message", data);
        var title := templates("exist-failure-title", data);
        alertList.Add(message, title, None);
        existenceCheck.ToggleAlertActive();
      } else if IsUnknown(e) && existenceCheck.alertActive {
        // the container is known to be missing: nothing to add
      } else if HasErrored(e) {
        alertList.Add(name, Text(ErrUnknown), e);
      } else if HasBecomeKnown(existenceCheck.alertActive, e) {
        var _ := ShouldDelayStatic(false, existenceCheck, now);
        var message := templates("exist-recovery-message", data);
        var title := templates("exist-recovery-title", data);
        alertList.Add(message, title, None);
        existenceCheck.ToggleAlertActive();
      }
      assert r.exist == existenceCheck.State() && r.alerts == alertList.alerts;
    }

    /** CheckRunning, on the running state of the inspected container. */
    method CheckRunning(running: bool, now: int)
      requires Valid() && runningCheck.expected.Some?
      modifies runningCheck, alertList
      ensures View() == RunningSpec(Config(), old(View()), running, now)
    {
      ghost var v := View();
      var a := ShouldAlertRunning(runningCheck.expected.value, running);
      var data := RunningData(name, runningCheck.expected.value, running);
      ghost var c := Evaluate(v.running, v.alerts, a, now, templates, RunningTemplates, data);
      var delay := ShouldDelayStatic(a, runningCheck, now);
      if delay {
        assert c == Checked(runningCheck.State(), alertList.alerts);
        return;
      }
      if a && !runningCheck.alertActive {
        var message := templates("running-failure-message", data);
        var title := templates("running-failure-title", data);
        alertList.Add(message, title, None);
        runningCheck.ToggleAlertActive();
      } else if !a && runningCheck.alertActive {
        var message := templates("running-recovery-message", data);
        var title := templates("running-recovery-title", data);
        alertList.Add(message, title, None);
        runningCheck.ToggleAlertActive();
      }
      assert c == Checked(runningCheck.State(), alertList.alerts);
    }

    /** CheckCPUUsage */
    method CheckCPUUsage(s: Stats, now: int)
      requires Valid()
      modifies cpuCheck, alertList
      ensures View() == CpuSpec(Config(), old(View()), s, now)
    {
      ghost var v := View();
      if cpuCheck.limit.None? {
        return;
      }
      var u := s.cpuUsage;
      var a := ShouldAlertCPU(u, cpuCheck.limit.value);
      var data := UsageData(name, cpuCheck.limit.value, u);
      ghost var c := Evaluate(v.cpu, v.alerts, a, now, templates, CpuTemplates, data);
      var delay := ShouldDelayMetric(a, cpuCheck, now);
      if delay {
        assert c == Checked(cpuCheck.State(), alertList.alerts);
        return;
      }
      if a && !cpuCheck.alertActive {
        var message := templates("cpu-failure-message", data);
        var title := templates("cpu-failure-title", data);
        alertList.Add(message, title, None);
        cpuCheck.ToggleAlertActive();
      } else if !a && cpuCheck.alertActive {
        var message := templates("cpu-recovery-message", data);
        var title := templates("cpu-recovery-title", data);
        alertList.Add(message, title, None);
        cpuCheck.ToggleAlertActive();
      }
      assert c == Checked(cpuCheck.State(), alertList.alerts);
    }

    /** CheckMinPids */
    method CheckMinPids(s: Stats, now: int)
      requires Valid()
      modifies pidCheck, alertList
      ensures View() == PidSpec(Config(), old(View()), s, now)
    {
      ghost var v := View();
      if pidCheck.limit.None? {
        return;
      }
      var a := ShouldAlertMinPids(s.pidsCurrent, pidCheck.limit.value);
      var data := UsageData(name, pidCheck.limit.value, s.pidsCurrent);
      ghost var c := Evaluate(v.pid, v.alerts, a, now, templates, PidTemplates, data);
      var delay := ShouldDelayMetric(a, pidCheck, now);
      if delay {
        assert c == Checked(pidCheck.State(), alertList.alerts);
        return;
      }
      if a && !pidCheck.alertActive {
        var message := templates("min-pid-failure-message", data);
        var title := templates("min-pid-failure-title", data);
        alertList.Add(message, title, None);
        pidCheck.ToggleAlertActive();
      } else if !a && pidCheck.alertActive {
        var message := templates("min-pid-recovery-message", data);
        var title := templates("min-pid-recovery-title", data);
        alertList.Add(message, title, None);
        pidCheck.ToggleAlertActive();
      }
      assert c == Checked(pidCheck.State(), alertList.alerts);
    }

    /** CheckMemory */
    method CheckMemory(s: Stats, now: int)
      requires Valid()
      modifies memCheck, alertList
      ensures View() == MemSpec(Config(), old(View()), s, now)
    {
      ghost var v := View();
      if memCheck.limit.None? {
        return;
      }
      var a := ShouldAlertMemory(s.memoryUsage, memCheck.limit.value);
      var data := UsageData(name, memCheck.limit.value, MemUsageMB(s.memoryUsage));
      ghost var c := Evaluate(v.mem, v.alerts, a, now, templates, MemTemplates, data);
      var delay := ShouldDelayMetric(a, memCheck, now);
      if delay {
        assert c == Checked(memCheck.State(), alertList.alerts);
        return;
      }
      if a && !memCheck.alertActive {
        var message := templates("memory-failure-message", data);
        var title := templates("memory-failure-title", data);
        alertList.Add(message, title, None);
        memCheck.ToggleAlertActive();
      } else if !a && memCheck.alertActive {
        var message := templates("memory-recovery-message", data);
        var title := templates("memory-recovery-title", data);
        alertList.Add(message, title, None);
        memCheck.ToggleAlertActive();
      }
      assert c == Checked(memCheck.State(), alertList.alerts);
    }

    /** CheckStatics, on the outcome of ContainerInspect. */
    method CheckStatics(i: Inspection, now: int)
      requires Valid()
      modifies existenceCheck, runningCheck, alertList
      ensures View() == StaticsSpec(Config(), old(View()), i, now)
    {
      CheckExist(InspectError(i), now);
      if i.Inspected? && runningCheck.expected.Some? {
        CheckRunning(i.running, now);
      }
    }

    /** CheckMetrics, on the outcome of GetStats. */
    method CheckMetrics(s: StatsResult, now: int)
      requires Valid()
      modifies cpuCheck, memCheck, pidCheck, alertList
      ensures View() == MetricsSpec(Config(), old(View()), s, now)
    {
      match s
      case StatsFailed(m) =>
        alertList.Add("Received an unknown error", "", Some(m));
      case StatsRead(stats) =>
        if cpuCheck.limit.Some? {
          CheckCPUUsage(stats, now);
        }
        if pidCheck.limit.Some? {
          CheckMinPids(stats, now);
        }
        if memCheck.limit.Some? {
          CheckMemory(stats, now);
        }
    }
  }
}
