/**
 * The monitor loop (cmd/monitor.go): InitCheckers builds one AlertdContainer
 * per configured container, CheckContainers runs one cycle of checks over all
 * of them and gathers their alerts into the global list, and Monitor repeats
 * cycles and hands each non-empty batch to the alerters. Docker's answers for
 * each container and cycle, and the time of each cycle, are inputs.
 */
module Monitor {
  import opened Wrappers
  import opened Debounce
  import opened Types
  import opened Checks
  import opened Container
  import opened Root
  import opened Alerters

  /** The fixed part InitCheckers gives the container of a configuration entry. */
  function SettingsOf(cc: ContainerConf, render: Renderer): Settings
  {
    Settings(cc.name, cc.maxCPU, cc.maxMem, cc.minProcs, cc.expectedRunning, render)
  }

  /** The state InitCheckers gives every container: no alert active, no delay running, no alert held. */
  function Idle(delay: Option<nat>, now: int): (v: View)
    ensures !v.cpu.active && !v.mem.active && !v.pid.active && !v.exist.active && !v.running.active
    ensures !v.cpu.delaying && !v.mem.delaying && !v.pid.delaying && !v.exist.delaying && !v.running.delaying
    ensures v.cpu.minDelay == v.mem.minDelay == v.pid.minDelay == v.exist.minDelay == v.running.minDelay == delay
    ensures v.alerts == []
  {
    var t := Tracker(false, delay, false, now);
    View(t, t, t, t, t, [])
  }

  function Configured(confs: seq<ContainerConf>, render: Renderer): (sts: seq<Settings>)
    ensures |sts| == |confs|
  {
    seq(|confs|, i requires 0 <= i < |confs| => SettingsOf(confs[i], render))
  }

  function Started(confs: seq<ContainerConf>, now: int): (vs: seq<View>)
    ensures |vs| == |confs|
  {
    seq(|confs|, i requires 0 <= i < |confs| => Idle(confs[i].delay, now))
  }

  /** The containers' alert lists: each container's batch of the cycle. */
  function Batches(vs: seq<View>): (b: seq<seq<Alert>>)
    ensures |b| == |vs|
    ensures forall i :: 0 <= i < |vs| ==> b[i] == vs[i].alerts
  {
    seq(|vs|, i requires 0 <= i < |vs| => vs[i].alerts)
  }

  /** The global list after a cycle: every container's alerts, in container order. */
  function Gathered(vs: seq<View>): seq<Alert>
  {
    Flatten(Batches(vs))
  }

  /** The state one cycle leaves a container in, given its settings, its state, its observation and the time. */
  type Turn = (Settings, View, Observation, int) -> View

  /**
   * The turn of Checks.Cycle. The fleet-level definitions take the turn as a
   * value, so that reasoning about the fleet stays apart from the details of
   * a single container's cycle.
   */
  ghost predicate IsCycle(turn: Turn)
  {
    forall st, v, o, now {:trigger Cycle(st, v, o, now)} :: turn(st, v, o, now) == Cycle(st, v, o, now)
  }

  /** One cycle over the fleet, every container checked at time `now`. */
  function Fleet(turn: Turn, sts: seq<Settings>, vs: seq<View>, obs: seq<Observation>, now: int): (r: seq<View>)
    requires |sts| == |vs| == |obs|
    ensures |r| == |vs|
    ensures forall i :: 0 <= i < |vs| ==> r[i] == turn(sts[i], vs[i], obs[i], now)
  {
    seq(|vs|, i requires 0 <= i < |vs| => turn(sts[i], vs[i], obs[i], now))
  }

  /** Each cycle has a time and one observation per container. */
  ghost predicate Rounds(vs: seq<View>, rounds: seq<seq<Observation>>, times: seq<int>)
  {
    |rounds| == |times| && forall r :: 0 <= r < |rounds| ==> |rounds[r]| == |vs|
  }

  /** The fleet's state after the given cycles. */
  function After(turn: Turn, sts: seq<Settings>, vs: seq<View>, rounds: seq<seq<Observation>>, times: seq<int>): (r: seq<View>)
    requires |sts| == |vs| && Rounds(vs, rounds, times)
    ensures |r| == |vs|
    decreases |rounds|
  {
    if rounds == [] then vs
    else
      var n := |rounds| - 1;
      Fleet(turn, sts, After(turn, sts, vs, rounds[..n], times[..n]), rounds[n], times[n])
  }

  /** What one AlertList.Evaluate hands to the alerters. */
  function Report(batch: seq<Alert>, channels: seq<Alerter>): seq<Dispatch>
  {
    if batch != [] then [Dispatch(batch, channels)] else []
  }

  /** Every batch sent over the given cycles, in order. */
  function Sent(turn: Turn, sts: seq<Settings>, vs: seq<View>, rounds: seq<seq<Observation>>, times: seq<int>,
                channels: seq<Alerter>): seq<Dispatch>
    requires |sts| == |vs| && Rounds(vs, rounds, times)
    decreases |rounds|
  {
    if rounds == [] then []
    else
      var n := |rounds| - 1;
      Sent(turn, sts, vs, rounds[..n], times[..n], channels) + Report(Gathered(After(turn, sts, vs, rounds, times)), channels)
  }

  /** Cycle i takes the fleet from its state after the first i cycles to its state after i + 1, and adds its report. */
  lemma Advance(turn: Turn, sts: seq<Settings>, vs: seq<View>, rounds: seq<seq<Observation>>, times: seq<int>,
                channels: seq<Alerter>, i: nat, acc: seq<Dispatch>)
    requires |sts| == |vs| && Rounds(vs, rounds, times) && i < |rounds|
    ensures Rounds(vs, rounds[..i], times[..i]) && Rounds(vs, rounds[..i + 1], times[..i + 1])
    ensures After(turn, sts, vs, rounds[..i + 1], times[..i + 1])
      == Fleet(turn, sts, After(turn, sts, vs, rounds[..i], times[..i]), rounds[i], times[i])
    ensures acc + Sent(turn, sts, vs, rounds[..i + 1], times[..i + 1], channels)
      == acc + Sent(turn, sts, vs, rounds[..i], times[..i], channels) + Report(Gathered(After(turn, sts, vs, rounds[..i + 1], times[..i + 1])), channels)
  {
    var r1, t1 := rounds[..i + 1], times[..i + 1];
    assert r1[..i] == rounds[..i] && t1[..i] == times[..i];
    assert r1[i] == rounds[i] && t1[i] == times[i];
    assert Rounds(vs, rounds[..i], times[..i]);
    assert Rounds(vs, r1, t1);
    var before := After(turn, sts, vs, rounds[..i], times[..i]);
    assert After(turn, sts, vs, r1, t1) == Fleet(turn, sts, before, rounds[i], times[i]);
    var report := Report(Gathered(After(turn, sts, vs, r1, t1)), channels);
    assert Sent(turn, sts, vs, r1, t1, channels) == Sent(turn, sts, vs, rounds[..i], times[..i], channels) + report;
  }

  /** The global list of a cycle is empty exactly when no container raised an alert. */
  lemma {:induction false} FlattenEmpty(b: seq<seq<Alert>>)
    ensures Flatten(b) == [] <==> forall i :: 0 <= i < |b| ==> b[i] == []
    decreases |b|
  {
    if b != [] {
      var n := |b| - 1;
      FlattenEmpty(b[..n]);
      assert forall i :: 0 <= i < n ==> b[..n][i] == b[i];
    }
  }

  lemma GatheredEmpty(vs: seq<View>)
    ensures Gathered(vs) == [] <==> forall i :: 0 <= i < |vs| ==> vs[i].alerts == []
  {
    FlattenEmpty(Batches(vs));
  }

  /** Lists of at most three alerts each flatten to at most three alerts per list. */
  lemma {:induction false} FlattenBound(b: seq<seq<Alert>>)
    requires forall i :: 0 <= i < |b| ==> |b[i]| <= 3
    ensures |Flatten(b)| <= 3 * |b|
    decreases |b|
  {
    if b != [] {
      var n := |b| - 1;
      assert forall i :: 0 <= i < n ==> b[..n][i] == b[i];
      FlattenBound(b[..n]);
      assert Flatten(b) == Flatten(b[..n]) + b[n];
    }
  }

  /** Every alert of list i is in the flattened lists. */
  lemma {:induction false} FlattenHas(b: seq<seq<Alert>>, i: nat, x: Alert)
    requires i < |b| && x in b[i]
    ensures x in Flatten(b)
    decreases |b|
  {
    var n := |b| - 1;
    if i < n {
      assert b[..n][i] == b[i];
      FlattenHas(b[..n], i, x);
    }
  }

  /** One cycle over the fleet gathers at most three alerts per container. */
  lemma FleetBound(turn: Turn, sts: seq<Settings>, vs: seq<View>, obs: seq<Observation>, now: int)
    requires IsCycle(turn)
    requires |sts| == |vs| == |obs|
    ensures |Gathered(Fleet(turn, sts, vs, obs, now))| <= 3 * |vs|
  {
    var r := Fleet(turn, sts, vs, obs, now);
    forall i | 0 <= i < |r|
      ensures |Batches(r)[i]| <= 3
    {
      assert r[i] == Cycle(sts[i], vs[i], obs[i], now);
    }
    FlattenBound(Batches(r));
  }

  /**
   * A container whose inspection fails with a communication error keeps its
   * checks' state and contributes exactly its communication alert to the
   * cycle's global list, whatever the other containers do.
   */
  lemma FleetCommunicationError(turn: Turn, sts: seq<Settings>, vs: seq<View>, obs: seq<Observation>, now: int,
                                i: nat, message: string)
    requires IsCycle(turn)
    requires |sts| == |vs| == |obs| && i < |vs|
    requires obs[i].inspect == InspectFailed(message) && !IsUnknown(Some(message))
    ensures Fleet(turn, sts, vs, obs, now)[i] == vs[i].(alerts := [CommunicationAlert(sts[i].name, message)])
    ensures CommunicationAlert(sts[i].name, message) in Gathered(Fleet(turn, sts, vs, obs, now))
  {
    var r := Fleet(turn, sts, vs, obs, now);
    assert r[i] == Cycle(sts[i], vs[i], obs[i], now);
    assert obs[i] == Observation(InspectFailed(message), obs[i].stats);
    CommunicationErrorCycle(sts[i], vs[i], message, obs[i].stats, now);
    FlattenHas(Batches(r), i, CommunicationAlert(sts[i].name, message));
  }

  /** At most one batch is sent per cycle, never an empty one, and always to the configured alerters. */
  lemma {:induction false} SentBatches(turn: Turn, sts: seq<Settings>, vs: seq<View>, rounds: seq<seq<Observation>>, times: seq<int>, channels: seq<Alerter>)
    requires |sts| == |vs| && Rounds(vs, rounds, times)
    ensures |Sent(turn, sts, vs, rounds, times, channels)| <= |rounds|
    ensures forall d :: d in Sent(turn, sts, vs, rounds, times, channels) ==> d.batch != [] && d.channels == channels
    decreases |rounds|
  {
    if rounds != [] {
      var n := |rounds| - 1;
      SentBatches(turn, sts, vs, rounds[..n], times[..n], channels);
    }
  }

  /**
   * While Docker cannot be reached, every cycle sends a batch: each container
   * whose inspection fails with an error other than an unknown container
   * raises its communication alert on every cycle.
   */
  lemma {:induction false} UnreachableSendsEveryCycle(turn: Turn, sts: seq<Settings>, vs: seq<View>,
                                                      rounds: seq<seq<Observation>>, times: seq<int>,
                                                      channels: seq<Alerter>, message: string)
    requires IsCycle(turn)
    requires |sts| == |vs| > 0 && Rounds(vs, rounds, times)
    requires !IsUnknown(Some(message))
    requires forall r :: 0 <= r < |rounds| ==> rounds[r][0].inspect == InspectFailed(message)
    ensures |Sent(turn, sts, vs, rounds, times, channels)| == |rounds|
    decreases |rounds|
  {
    if rounds != [] {
      var n := |rounds| - 1;
      assert Rounds(vs, rounds[..n], times[..n]);
      UnreachableSendsEveryCycle(turn, sts, vs, rounds[..n], times[..n], channels, message);
      var before := After(turn, sts, vs, rounds[..n], times[..n]);
      var now := After(turn, sts, vs, rounds, times);
      CommunicationErrorCycle(sts[0], before[0], message, rounds[n][0].stats, times[n]);
      assert now[0].alerts != [];
      GatheredEmpty(now);
    }
  }

  /** No two containers share a check or an alert list. */
  ghost predicate Disjoint(cnt: seq<AlertdContainer>)
  {
    forall i, j :: 0 <= i < j < |cnt| ==> cnt[i].Repr() !! cnt[j].Repr()
  }

  /** Disjointness in either order. */
  lemma Apart(cnt: seq<AlertdContainer>, i: nat, k: nat)
    requires Disjoint(cnt) && i < |cnt| && k < |cnt| && i != k
    ensures cnt[i].Repr() !! cnt[k].Repr()
  {
    if k < i {
      assert cnt[k].Repr() !! cnt[i].Repr();
    }
  }

  /** Every object whose fields checking the fleet changes. */
  ghost function Footprint(cnt: seq<AlertdContainer>): set<object>
  {
    set i, o | 0 <= i < |cnt| && o in cnt[i].Repr() :: o
  }

  /** A container that shares nothing with the fleet can join it. */
  lemma DisjointSnoc(cnt: seq<AlertdContainer>, x: AlertdContainer)
    requires Disjoint(cnt)
    requires forall j :: 0 <= j < |cnt| ==> cnt[j].Repr() !! x.Repr()
    ensures Disjoint(cnt + [x])
  {
    var d := cnt + [x];
    forall i, j | 0 <= i < j < |d|
      ensures d[i].Repr() !! d[j].Repr()
    {
      if j == |cnt| {
        assert d[i] == cnt[i];
      } else {
        assert d[i] == cnt[i] && d[j] == cnt[j];
      }
    }
  }

  /** An object none of the containers holds is outside the fleet's footprint. */
  lemma Outside(cnt: seq<AlertdContainer>, x: object)
    requires forall i :: 0 <= i < |cnt| ==> x !in cnt[i].Repr()
    ensures x !in Footprint(cnt)
  {
  }

  /** The containers' settings, in order. */
  function Configs(cnt: seq<AlertdContainer>): (sts: seq<Settings>)
    ensures |sts| == |cnt|
  {
    seq(|cnt|, i requires 0 <= i < |cnt| => cnt[i].Config())
  }

  /** The containers' states, in order. */
  ghost function Views(cnt: seq<AlertdContainer>): (vs: seq<View>)
    reads Footprint(cnt)
    ensures |vs| == |cnt|
  {
    seq(|cnt|, i requires 0 <= i < |cnt| reads Footprint(cnt) => cnt[i].View())
  }

  /** A cycle's global list grows by each container's batch in turn. */
  lemma GatheredSnoc(acc: seq<Alert>, vs: seq<View>, v: View)
    ensures acc + Gathered(vs + [v]) == acc + Gathered(vs) + v.alerts
  {
    var b := Batches(vs + [v]);
    assert b[..|vs|] == Batches(vs);
  }

  /**
   * Step k of CheckContainers: the fleet is checked up to container k and
   * untouched from there; putting container k's new state in place extends
   * the checked part by one, and its alerts extend the global list.
   */
  lemma Splice(start: seq<View>, want: seq<View>, before: seq<View>, k: nat, acc: seq<Alert>, base: seq<Alert>)
    requires |start| == |want| == |before| && k < |before|
    requires before[..k] == want[..k] && before[k..] == start[k..]
    requires acc == base + Gathered(before[..k])
    ensures before[k] == start[k]
    ensures before[k := want[k]][..k + 1] == want[..k + 1]
    ensures before[k := want[k]][k + 1..] == start[k + 1..]
    ensures acc + want[k].alerts == base + Gathered(before[k := want[k]][..k + 1])
  {
    assert before[k..][0] == start[k..][0];
    var after := before[k := want[k]];
    assert after[..k + 1] == before[..k] + [want[k]];
    assert after[k + 1..] == before[k..][1..];
    GatheredSnoc(base, before[..k], want[k]);
    assert want[..k + 1] == want[..k] + [want[k]];
  }

  /** InitCheckers, with `now` for the time.Now() every check's DelaySince starts at. */
  method InitCheckers(c: Conf, now: int) returns (cnt: seq<AlertdContainer>)
    ensures |cnt| == |c.containers|
    ensures forall i :: 0 <= i < |cnt| ==> cnt[i].Valid() && fresh(cnt[i].Repr())
    ensures forall i :: 0 <= i < |cnt| ==> cnt[i].existenceCheck.expected == Some(true)
    ensures Configs(cnt) == Configured(c.containers, c.templates.Render())
    ensures Views(cnt) == Started(c.containers, now)
    ensures Disjoint(cnt)
  {
    cnt := [];
    for i := 0 to |c.containers|
      invariant |cnt| == i
      invariant forall j :: 0 <= j < i ==> cnt[j].Valid() && fresh(cnt[j].Repr())
      invariant forall j :: 0 <= j < i ==> cnt[j].Config() == SettingsOf(c.containers[j], c.templates.Render())
      invariant forall j :: 0 <= j < i ==> cnt[j].existenceCheck.expected == Some(true)
      invariant forall j :: 0 <= j < i ==> cnt[j].View() == Idle(c.containers[j].delay, now)
      invariant Disjoint(cnt)
    {
      var v := c.containers[i];
      var container := new AlertdContainer(v.name, v.maxCPU, v.maxMem, v.minProcs, v.expectedRunning, v.delay,
                                           c.templates.Render(), now);
      DisjointSnoc(cnt, container);
      cnt := cnt + [container];
    }
  }

  /** The body of CheckContainers' loop, for one container. */
  method CheckContainer(c: AlertdContainer, o: Observation, now: int, a: AlertList)
    requires c.Valid() && a !in c.Repr()
    modifies c.Repr(), a
    ensures c.View() == Cycle(c.Config(), old(c.View()), o, now)
    ensures a.alerts == old(a.alerts) + c.alertList.alerts
  {
    c.alertList.Clear();
    c.CheckStatics(o.inspect, now);
    var stop := c.ChecksShouldStop();
    if stop {
      ghost var before := a.alerts;
      a.Concat([c.alertList]);
      AppendedOne(before, c.alertList.alerts);
      assert SelfMask([c.alertList], a) == [false];
      return;
    }
    c.CheckMetrics(o.stats, now);
    var send := c.alertList.ShouldSend();
    if send {
      ghost var before := a.alerts;
      a.Concat([c.alertList]);
      AppendedOne(before, c.alertList.alerts);
      assert SelfMask([c.alertList], a) == [false];
    }
  }

  /** Checking container k of the fleet leaves every other container as it was. */
  method CheckAt(cnt: seq<AlertdContainer>, obs: seq<Observation>, now: int, a: AlertList, k: nat, ghost turn: Turn)
    requires IsCycle(turn)
    requires k < |obs| == |cnt|
    requires forall i :: 0 <= i < |cnt| ==> cnt[i].Valid() && a !in cnt[i].Repr()
    requires Disjoint(cnt)
    modifies cnt[k].Repr(), a
    ensures Views(cnt) == old(Views(cnt))[k := turn(cnt[k].Config(), old(cnt[k].View()), obs[k], now)]
    ensures a.alerts == old(a.alerts) + cnt[k].View().alerts
  {
    CheckContainer(cnt[k], obs[k], now, a);
    forall i | 0 <= i < |cnt| && i != k
      ensures cnt[i].View() == old(cnt[i].View())
    {
      Apart(cnt, i, k);
    }
  }

  /** CheckContainers: one cycle over every container, each seeing its own observation. */
  method CheckContainers(cnt: seq<AlertdContainer>, obs: seq<Observation>, now: int, a: AlertList, ghost turn: Turn)
    requires IsCycle(turn)
    requires |obs| == |cnt|
    requires forall i :: 0 <= i < |cnt| ==> cnt[i].Valid() && a !in cnt[i].Repr()
    requires Disjoint(cnt)
    modifies Footprint(cnt), a
    ensures Views(cnt) == Fleet(turn, Configs(cnt), old(Views(cnt)), obs, now)
    ensures a.alerts == old(a.alerts) + Gathered(Views(cnt))
  {
    ghost var start := Views(cnt);
    ghost var want := Fleet(turn, Configs(cnt), start, obs, now);
    for k := 0 to |cnt|
      invariant Views(cnt)[..k] == want[..k]
      invariant Views(cnt)[k..] == start[k..]
      invariant a.alerts == old(a.alerts) + Gathered(Views(cnt)[..k])
    {
      ghost var before := Views(cnt);
      Splice(start, want, before, k, a.alerts, old(a.alerts));
      CheckAt(cnt, obs, now, a, k, turn);
      assert Views(cnt) == before[k := want[k]];
    }
    assert Views(cnt) == Views(cnt)[..|cnt|];
  }

  /** The body both of Monitor's loops run: clear the global list, check every container, evaluate the list. */
  method Round(cnt: seq<AlertdContainer>, a: AlertList, outbox: Outbox, obs: seq<Observation>, now: int,
               channels: seq<Alerter>, ghost turn: Turn)
    requires IsCycle(turn)
    requires |obs| == |cnt|
    requires forall i :: 0 <= i < |cnt| ==> cnt[i].Valid() && a !in cnt[i].Repr() && outbox !in cnt[i].Repr()
    requires Disjoint(cnt)
    modifies Footprint(cnt), a, outbox
    ensures Views(cnt) == Fleet(turn, Configs(cnt), old(Views(cnt)), obs, now)
    ensures a.alerts == Gathered(Views(cnt))
    ensures outbox.sent == old(outbox.sent) + Report(Gathered(Views(cnt)), channels)
  {
    Outside(cnt, a);
    ghost var v := Views(cnt);
    a.Clear();
    assert Views(cnt) == v;
    CheckContainers(cnt, obs, now, a, turn);
    ghost var w := Views(cnt);
    assert a.alerts == Gathered(w);
    Outside(cnt, outbox);
    a.Evaluate(channels, outbox);
    assert Views(cnt) == w;
  }

  /**
   * Monitor's counted loop over containers InitCheckers built: one round per
   * cycle, each with that cycle's observations and time.
   */
  method Repeat(cnt: seq<AlertdContainer>, a: AlertList, outbox: Outbox, rounds: seq<seq<Observation>>, times: seq<int>,
                channels: seq<Alerter>, ghost turn: Turn)
    requires IsCycle(turn)
    requires rounds != [] && Rounds(Views(cnt), rounds, times)
    requires forall i :: 0 <= i < |cnt| ==> cnt[i].Valid() && a !in cnt[i].Repr() && outbox !in cnt[i].Repr()
    requires Disjoint(cnt)
    modifies Footprint(cnt), a, outbox
    ensures outbox.sent == old(outbox.sent) + Sent(turn, Configs(cnt), old(Views(cnt)), rounds, times, channels)
    ensures a.alerts == Gathered(After(turn, Configs(cnt), old(Views(cnt)), rounds, times))
  {
    ghost var sts := Configs(cnt);
    ghost var v0 := Views(cnt);
    for i := 0 to |rounds|
      invariant Views(cnt) == After(turn, sts, v0, rounds[..i], times[..i])
      invariant outbox.sent == old(outbox.sent) + Sent(turn, sts, v0, rounds[..i], times[..i], channels)
      invariant i > 0 ==> a.alerts == Gathered(Views(cnt))
    {
      Advance(turn, sts, v0, rounds, times, channels, i, old(outbox.sent));
      Round(cnt, a, outbox, rounds[i], times[i], channels, turn);
    }
    assert rounds[..|rounds|] == rounds && times[..|rounds|] == times;
  }

  /**
   * Monitor with a positive Iterations: InitCheckers at `start`, then one
   * round per iteration, each with that cycle's observations and time.
   */
  method Monitor(c: Conf, a: AlertList, outbox: Outbox, start: int, rounds: seq<seq<Observation>>, times: seq<int>,
                 ghost turn: Turn)
    requires IsCycle(turn)
    requires c.iterations > 0 && |rounds| == c.iterations && |times| == c.iterations
    requires forall r :: 0 <= r < |rounds| ==> |rounds[r]| == |c.containers|
    modifies a, outbox
    ensures var sts := Configured(c.containers, c.templates.Render());
      outbox.sent == old(outbox.sent) + Sent(turn, sts, Started(c.containers, start), rounds, times, c.alerters)
    ensures a.alerts == Gathered(After(turn, Configured(c.containers, c.templates.Render()), Started(c.containers, start), rounds, times))
  {
    var cnt := InitCheckers(c, start);
    assert Rounds(Views(cnt), rounds, times);
    Repeat(cnt, a, outbox, rounds, times, c.alerters, turn);
  }
}
