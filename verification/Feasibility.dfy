/** Runs and observations that exist: closed-loop runs on every schedule, among them the controller's own, and the
    observations behind the surprising behaviours. */
module Feasibility {
  import opened Math32
  import opened Types
  import opened Pods
  import opened Calculator
  import opened Compute
  import opened Normaliser
  import opened Machine
  import opened Runs
  import opened Delay
  import opened FullChain
  import opened ClosedLoop
  import opened Timing
  import opened Convergence

  // ---------- Pods, readings and ticks ----------

  /** Pods are named by their number, in unary. */
  function Name(i: nat): string { seq(i, _ => 'x') }

  function ReadyPod(cfg: Config, i: nat): Pod {
    Pod(Name(i), [OwnerRef("Deployment", cfg.targetName)], Running,
        Some(ReadyCondition(true, false, cfg.readinessDelay)), Some(0), false)
  }

  function ReadyPods(cfg: Config, n: nat): seq<Pod> { seq(n, i requires 0 <= i < n => ReadyPod(cfg, i)) }

  lemma ReadyPodIsOwned(cfg: Config, i: nat)
    ensures OwnedBy(ReadyPod(cfg, i).owners, cfg.targetName)
  {
    assert MainOwner(ReadyPod(cfg, i).owners[0]) == cfg.targetName;
  }

  lemma {:induction false} AllPodsReady(cfg: Config, n: nat, now: int)
    ensures Tally(cfg, ReadyPods(cfg, n), now, Ready) == n
    ensures Tally(cfg, ReadyPods(cfg, n), now, Incorrect) == 0
  {
    if n > 0 {
      AllPodsReady(cfg, n - 1, now);
      assert ReadyPods(cfg, n)[..n - 1] == ReadyPods(cfg, n - 1);
      ReadyPodIsOwned(cfg, n - 1);
      assert Classify(cfg, ReadyPod(cfg, n - 1), now) == Ready;
    }
  }

  /** The first pod carries the whole load. */
  function Usage(load: int, n: nat): map<string, int> {
    if n == 0 then map[] else Usage(load, n - 1)[Name(n - 1) := if n == 1 then load else 0]
  }

  lemma {:induction false} UsageOf(load: int, n: nat, i: nat)
    ensures Name(i) in Usage(load, n) <==> i < n
  {
    if n > 0 {
      UsageOf(load, n - 1, i);
      assert i != n - 1 ==> |Name(i)| != |Name(n - 1)|;
    }
  }

  lemma {:induction false} UsageTotal(load: int, n: nat)
    ensures Total(Usage(load, n)) == if n == 0 then 0 else load
  {
    if n > 0 {
      UsageTotal(load, n - 1);
      UsageOf(load, n - 1, n - 1);
      TotalWithout(Usage(load, n), Name(n - 1));
      assert Usage(load, n) - {Name(n - 1)} == Usage(load, n - 1);
    }
  }

  /** Everything ready, and one reading of the whole load, in the form the metric asks for. */
  function Sight(cfg: Config, m: Metric, load: int, n: nat): Observation {
    Observation(Some(ReadyPods(cfg, n)),
                [if m.kind.External? then ExternalValues([load], 0) else ResourceUsage(Usage(load, n), 0)],
                (q: Request) => None, 0)
  }

  /** A reconcile at one instant that sees the load and whose writes succeed. */
  ghost function LoadedTick(cfg: Config, m: Metric, load: int, n: nat, now: int): Input
    requires cfg.modulo > 0
  {
    Tick(Clock(now, now, now, now), n, true,
         ComputeReplicas(cfg, Target(n, n), Sight(cfg, m, load, n), now), true, true, true)
  }

  lemma EveryoneIsAvailable(cfg: Config, m: Metric, load: int, n: nat, now: int)
    requires cfg.minAvailable <= 100 && n >= 1
    ensures AvailableReady(cfg, n, Sight(cfg, m, load, n), now) == Ok(n)
  {
    AllPodsReady(cfg, n, now);
    QuotientIsExact(100, n);
    assert |Sight(cfg, m, load, n).pods.value| == n;
  }

  /** Every pod counts for a resource metric, and none is ignored. */
  lemma EveryoneIsCounted(cfg: Config, load: int, n: nat, cpu: bool)
    ensures var tags := Tags(cfg, ReadyPods(cfg, n), Usage(load, n), cpu);
            |NamesIn(tags, Counted)| == n && NamesIn(tags, Ignored) == {}
  {
    var pods := ReadyPods(cfg, n);
    var tags := Tags(cfg, pods, Usage(load, n), cpu);
    forall i | 0 <= i < n ensures tags[i] == Tag(Name(i), Counted) {
      ReadyPodIsOwned(cfg, i);
      UsageOf(load, n, i);
    }
    assert UniqueNames(tags) by {
      assert forall i, j :: 0 <= i < j < n ==> |Name(i)| != |Name(j)|;
    }
    GroupFills(tags, Counted);
    GroupsFit(tags, Counted, Ignored);
  }

  lemma ResourceShowsLoad(cfg: Config, m: Metric, load: int, n: nat, now: int)
    requires cfg.modulo > 0 && cfg.minAvailable <= 100 && n >= 1 && m.kind.Resource?
    ensures ShowsLoad(cfg, m, load, n, Sight(cfg, m, load, n), now)
  {
    var usage := Usage(load, n);
    EveryoneIsCounted(cfg, load, n, m.name == "cpu");
    UsageTotal(load, n);
    UsageOf(load, n, 0);
    QuotientIsExact(100, n);
    assert usage - {} == usage;
    assert Name(0) in usage;
  }

  lemma TickIsLoaded(cfg: Config, m: Metric, load: int, w: World, now: int)
    requires Tuned(cfg, m, load) && cfg.minAvailable <= 100 && w.spec >= 1
    ensures Loaded(cfg, m, load, w, LoadedTick(cfg, m, load, w.spec, now), Sight(cfg, m, load, w.spec))
  {
    if m.kind.External? {
      AllPodsReady(cfg, w.spec, now);
      EveryoneIsAvailable(cfg, m, load, w.spec, now);
      SumOfOne(load);
    } else {
      ResourceShowsLoad(cfg, m, load, w.spec, now);
    }
  }

  // ---------- Closed-loop runs ----------

  /** Extends a run by one reconcile. */
  lemma Extend(cfg: Config, m: Metric, load: int, r: Run, obs: seq<Observation>, now: int)
    returns (q: Run, seen: seq<Observation>)
    requires LoadedRun(cfg, m, load, r, obs) && cfg.minAvailable <= 100
    requires InBounds(cfg, r.worlds[|obs|].spec)
    ensures LoadedRun(cfg, m, load, q, seen)
    ensures |seen| == |obs| + 1 && q.worlds[..|r.worlds|] == r.worlds
    ensures q.inputs == r.inputs + [LoadedTick(cfg, m, load, r.worlds[|obs|].spec, now)]
  {
    var n := |obs|;
    var w := r.worlds[n];
    var tick := LoadedTick(cfg, m, load, w.spec, now);
    q := Run(r.worlds + [Next(cfg, w, tick)], r.inputs + [tick]);
    seen := obs + [Sight(cfg, m, load, w.spec)];
    TickIsLoaded(cfg, m, load, w, now);
    forall k | 0 <= k <= n
      ensures Linked(cfg, q, k) && LoadedAt(cfg, m, load, q, seen, k)
    {
      if k < n {
        assert Linked(cfg, r, k) && LoadedAt(cfg, m, load, r, obs, k);
      }
    }
  }

  ghost predicate NonDecreasing(times: seq<int>) { forall i, j :: 0 <= i < j < |times| ==> times[i] <= times[j] }

  /** Input i happens at times[i], and its writes succeed. */
  ghost predicate HappensAt(ins: seq<Input>, times: seq<int>) {
    && |ins| == |times|
    && forall i :: 0 <= i < |ins| ==>
         && ins[i].Tick? && ins[i].statusOk && ins[i].scaleOk
         && ins[i].clock == Clock(times[i], times[i], times[i], times[i])
  }

  lemma HappeningIsLive(cfg: Config, r: Run, times: seq<int>)
    requires HappensAt(r.inputs, times) && NonDecreasing(times) && !cfg.dryRun && |r.inputs| < |r.worlds|
    ensures Live(cfg, r)
  {
  }

  lemma {:induction false} LoadedRunsExist(cfg: Config, m: Metric, load: int, w: World, times: seq<int>)
    returns (r: Run, obs: seq<Observation>)
    requires Tuned(cfg, m, load) && cfg.minAvailable <= 100 && InBounds(cfg, w.spec)
    ensures LoadedRun(cfg, m, load, r, obs) && HappensAt(r.inputs, times) && r.worlds[0] == w
  {
    if times == [] {
      r, obs := Run([w], []), [];
    } else {
      var last := |times| - 1;
      var p, before := LoadedRunsExist(cfg, m, load, w, times[..last]);
      StaysInBounds(cfg, m, load, p, before, last);
      r, obs := Extend(cfg, m, load, p, before, times[last]);
      assert forall i :: 0 <= i < last ==> r.inputs[i] == p.inputs[i] && times[..last][i] == times[i];
    }
  }

  /** One reconcile every period seconds, as the controller requeues itself. */
  function Schedule(start: int, period: nat, n: nat): seq<int> {
    seq(n, i requires 0 <= i < n => start + i * period)
  }

  lemma ScheduleAdvances(start: int, period: nat, n: nat, i: nat, j: nat)
    requires i <= j < n
    ensures Schedule(start, period, n)[i] <= Schedule(start, period, n)[j]
    ensures j == i + 1 ==> Schedule(start, period, n)[j] == Schedule(start, period, n)[i] + period
  {
    ProductIsMonotone(i, j, period);
    OneMoreSlot(i, period);
  }

  /** Nothing in the status lies after start. */
  ghost predicate InPast(s: Status, start: int) {
    && (s.lastScale.Some? ==> s.lastScale.value <= start)
    && forall side :: var t := TrueSince(s, side); t.Some? ==> t.value <= start
  }

  lemma ScheduleIsOnTime(cfg: Config, r: Run, start: int, period: nat, n: nat)
    requires HappensAt(r.inputs, Schedule(start, period, n)) && !cfg.dryRun
    requires |r.inputs| < |r.worlds| && InPast(r.worlds[0].status, start)
    ensures OnTime(cfg, r, period)
  {
    var times := Schedule(start, period, n);
    forall i, j | 0 <= i < j < |times| ensures times[i] <= times[j] {
      ScheduleAdvances(start, period, n, i, j);
    }
    HappeningIsLive(cfg, r, times);
    forall i | 1 <= i < n ensures r.inputs[i].clock.record <= r.inputs[i - 1].clock.begin + period {
      ScheduleAdvances(start, period, n, i - 1, i);
    }
  }

  /** From every count inside the bounds there are closed-loop runs of every length on every period, 15 seconds or
      any other, so the convergence theorems speak about the controller's own schedule. */
  lemma RegularRunsExist(cfg: Config, m: Metric, load: int, w: World, start: int, period: nat, n: nat)
    returns (r: Run, obs: seq<Observation>)
    requires Tuned(cfg, m, load) && cfg.minAvailable <= 100 && !cfg.dryRun
    requires InBounds(cfg, w.spec) && InPast(w.status, start)
    ensures LoadedRun(cfg, m, load, r, obs) && OnTime(cfg, r, period) && |obs| == n && r.worlds[0] == w
    ensures HappensAt(r.inputs, Schedule(start, period, n))
  {
    r, obs := LoadedRunsExist(cfg, m, load, w, Schedule(start, period, n));
    ScheduleIsOnTime(cfg, r, start, period, n);
  }

  // ---------- A zero that is not tolerated removes a replica ----------

  /** A pod of the target that has not started. */
  function StartingPod(cfg: Config): Pod {
    Pod("", [OwnerRef("Deployment", cfg.targetName)], Pending, None, None, false)
  }

  /** n pods are ready, one more is starting, and the metric reads zero. */
  function ZeroSight(cfg: Config, n: nat): Observation {
    Observation(Some(ReadyPods(cfg, n) + [StartingPod(cfg)]), [ExternalValues([0], 0)], (q: Request) => None, 0)
  }

  lemma OneIsStarting(cfg: Config, n: nat, now: int)
    requires n >= 1 && cfg.minAvailable <= 100 * n / (n + 1)
    ensures AvailableReady(cfg, n + 1, ZeroSight(cfg, n), now) == Ok(n)
  {
    var pods := ReadyPods(cfg, n) + [StartingPod(cfg)];
    assert pods[..n] == ReadyPods(cfg, n);
    AllPodsReady(cfg, n, now);
    assert OwnedBy(StartingPod(cfg).owners, cfg.targetName) by {
      assert MainOwner(StartingPod(cfg).owners[0]) == cfg.targetName;
    }
    assert Classify(cfg, pods[n], now) == Unready;
    assert ZeroSight(cfg, n).pods.value == pods;
  }

  /** Of n + 1 replicas n are ready and one is starting: outside the downscale window, a zero that is not tolerated,
      documented to cause no action, takes the starting replica away. */
  lemma UntoleratedZeroRemovesAReplica(cfg: Config, m: Metric, n: nat, w: World, now: int)
    returns (i: Input, o: Observation)
    requires ValidConfig(cfg) && !cfg.tolerateZero && !cfg.dryRun && cfg.downFactor > 0
    requires cfg.source == Metrics([m]) && m.kind.External?
    requires cfg.min <= n < cfg.max && w.spec == n + 1 && cfg.minAvailable <= 100 * n / (n + 1)
    requires !BacksOff(w.status, cfg.downWindow, now)
    ensures i.Tick? && i.found && i.scaleOk && i.clock == Clock(now, now, now, now) && i.observed == n + 1
    ensures Computes(cfg, w, i, o) && SeesZero(cfg, Target(w.spec, i.observed), o, now)
    ensures ReadyNow(cfg, i, o) == n && Next(cfg, w, i).spec == n
  {
    o := ZeroSight(cfg, n);
    i := Tick(Clock(now, now, now, now), n + 1, true,
              ComputeReplicas(cfg, Target(n + 1, n + 1), o, now), true, true, true);
    OneIsStarting(cfg, n, now);
    SumOfOne(0);
    ZeroIsApplied(cfg, w, i, o);
  }

  lemma ZeroIsApplied(cfg: Config, w: World, i: Input, o: Observation)
    requires ValidConfig(cfg) && InBounds(cfg, w.spec) && i.Tick? && i.found && i.observed > 0 && i.scaleOk
    requires Computes(cfg, w, i, o) && SeesZero(cfg, Target(w.spec, i.observed), o, i.clock.compute)
    requires ReadyNow(cfg, i, o) == w.spec - 1 >= cfg.min && cfg.downFactor > 0 && !cfg.dryRun
    requires !BacksOff(w.status, cfg.downWindow, i.clock.begin)
    ensures Next(cfg, w, i).spec == w.spec - 1
  {
    UntoleratedZeroHoldsIff(cfg, w, i, o);
    ZeroPlan(cfg, Target(w.spec, i.observed), o, i.clock.compute);
    StepSpec(cfg, w, i);
    NormaliserGuarantees(cfg, w.spec, Max(i.outcome.value.replicas, 0), i.outcome.value.ready);
  }

  // ---------- A zero of a resource metric ----------

  /** Every pod is ready and uses nothing: outside the downscale window the target is taken to its downscale limit at
      once, tolerated zero or not. */
  lemma ResourceZeroDrains(cfg: Config, m: Metric, w: World, now: int) returns (i: Input, o: Observation)
    requires ValidConfig(cfg) && cfg.source == Metrics([m]) && m.kind.Resource? && 0 <= m.low <= m.high
    requires AdjustedLow(m.low, cfg.tolerance) > 0 && cfg.modulo == 1 && cfg.minAvailable <= 100 && !cfg.dryRun
    requires cfg.min < w.spec <= cfg.max && cfg.downFactor > 0 && cfg.downDelay == 0
    requires !BacksOff(w.status, cfg.downWindow, now)
    ensures i.Tick? && i.found && i.scaleOk && i.clock == Clock(now, now, now, now) && i.observed == w.spec
    ensures Computes(cfg, w, i, o) && UsesNothing(cfg, Target(w.spec, w.spec), m, o) && CountedPods(cfg, m, o) == w.spec
    ensures Next(cfg, w, i).spec == Max(cfg.min, ScaleDownLimit(cfg, w.spec)) < w.spec
  {
    o := Sight(cfg, m, 0, w.spec);
    i := LoadedTick(cfg, m, 0, w.spec, now);
    ResourceShowsLoad(cfg, m, 0, w.spec, now);
    NothingIsApplied(cfg, m, w, i, o);
  }

  lemma NothingIsApplied(cfg: Config, m: Metric, w: World, i: Input, o: Observation)
    requires ValidConfig(cfg) && cfg.source == Metrics([m]) && 0 <= m.low <= m.high
    requires AdjustedLow(m.low, cfg.tolerance) > 0 && cfg.modulo == 1 && !cfg.dryRun
    requires cfg.min < w.spec <= cfg.max && cfg.downFactor > 0 && cfg.downDelay == 0
    requires i.Tick? && i.found && i.scaleOk && i.observed > 0 && Computes(cfg, w, i, o)
    requires UsesNothing(cfg, Target(w.spec, i.observed), m, o) && CountedPods(cfg, m, o) == w.spec
    requires !BacksOff(w.status, cfg.downWindow, i.clock.begin)
    ensures Next(cfg, w, i).spec == Max(cfg.min, ScaleDownLimit(cfg, w.spec)) < w.spec
  {
    assert Starves(cfg, m, w.spec) by {
      ProductIsMonotone(1, Divisor(cfg, w.spec), AdjustedLow(m.low, cfg.tolerance));
    }
    NothingPlan(cfg, Target(w.spec, i.observed), m, o, i.clock.compute);
    LeastNormal(cfg, w.spec);
    OpenStepApplies(cfg, w, i);
  }

  /** A proposal of 1 is limited to the downscale limit and the minimum. */
  lemma LeastNormal(cfg: Config, n: int)
    requires ValidConfig(cfg) && cfg.min < n <= cfg.max && cfg.downFactor > 0
    ensures Normalise(cfg, n, 1, n).replicas == Max(cfg.min, ScaleDownLimit(cfg, n)) < n
  {
    NormaliserIsClamp(cfg, n, 1, n);
    LimitsBracketCurrent(cfg, n);
  }

  /** Without a delay, an applied downscale outside its window takes effect. */
  lemma OpenStepApplies(cfg: Config, w: World, i: Input)
    requires ValidConfig(cfg) && InBounds(cfg, w.spec) && Decides(i) && i.observed > 0 && i.scaleOk && !cfg.dryRun
    requires cfg.downDelay == 0 && !BacksOff(w.status, cfg.downWindow, i.clock.begin)
    requires Normal(cfg, w.spec, i.outcome.value).replicas < w.spec
    ensures Next(cfg, w, i).spec == Normal(cfg, w.spec, i.outcome.value).replicas
  {
    GateShutIff(cfg, w, i, Below);
    StepSpec(cfg, w, i);
  }

  // ---------- Two reconciles in one second ----------

  /** Observations behind the upscale that overlooks a return into the band: a load at the high watermark, and one
      just above the tolerance. */
  lemma SharedSecondHappens(cfg: Config, m: Metric, w: World) returns (r: Run, obs: seq<Observation>)
    requires Tuned(cfg, m, 1) && cfg.converge.Off? && cfg.minAvailable <= 100
    requires MayGrow(cfg, w) && TrueSince(w.status, Above).None?
    ensures IsRun(cfg, r) && |r.inputs| == |obs| == 3 && r.worlds[0] == w
    ensures forall k :: 0 <= k < 3 ==> Computes(cfg, r.worlds[k], r.inputs[k], obs[k])
    ensures ClockMovesForward(r.inputs) && StatusPersisted(cfg, r)
    ensures Rescales(cfg, r.worlds[2], r.inputs[2], Above) && r.worlds[2].status.lastScale.Some?
    ensures Decides(r.inputs[0]) && r.inputs[0].clock.compute == r.inputs[2].clock.gate - cfg.upDelay
    ensures !OutOfBounds(Above, r.inputs[0].outcome.value)
  {
    var quiet, calm := QuietPlan(cfg, m, w);
    var busy, peak := BusyPlan(cfg, m, w, 0);
    var still, later := BusyPlan(cfg, m, w, cfg.upDelay);
    r := SharedSecondGoesUnnoticed(cfg, w, quiet, busy, still);
    obs := [calm, peak, later];
  }

  /** The plan is what the observation gives at that moment, for every world with n replicas. */
  ghost predicate Yields(cfg: Config, n: nat, now: int, plan: Calc, o: Observation)
    requires cfg.modulo > 0
  {
    forall v: World :: v.spec == n ==> Computes(cfg, v, QuickTick(now, n, plan), o)
  }

  lemma QuietPlan(cfg: Config, m: Metric, w: World) returns (plan: Calc, o: Observation)
    requires Tuned(cfg, m, 1) && cfg.converge.Off? && cfg.minAvailable <= 100 && InBounds(cfg, w.spec)
    ensures IsQuiet(w.spec, plan) && Yields(cfg, w.spec, 0, plan, o)
  {
    var load := m.high * w.spec;
    ProductIsMonotone(1, w.spec, m.high);
    ToleranceWidensBand(m.low, m.high, cfg.tolerance);
    ProductIsMonotone(m.high, AdjustedHigh(m.high, cfg.tolerance), w.spec);
    ProductIsMonotone(AdjustedLow(m.low, cfg.tolerance), m.high, w.spec);
    o := Sight(cfg, m, load, w.spec);
    var tick := LoadedTick(cfg, m, load, w.spec, 0);
    TickIsLoaded(cfg, m, load, w, 0);
    LoopPlan(cfg, m, load, w, tick, o);
    plan := tick.outcome.value;
  }

  lemma BusyPlan(cfg: Config, m: Metric, w: World, now: int) returns (plan: Calc, o: Observation)
    requires Tuned(cfg, m, 1) && cfg.minAvailable <= 100 && InBounds(cfg, w.spec)
    ensures IsBusy(w.spec, plan) && Yields(cfg, w.spec, now, plan, o)
  {
    var load := AdjustedHigh(m.high, cfg.tolerance) * w.spec + 1;
    ToleranceWidensBand(m.low, m.high, cfg.tolerance);
    ProductIsMonotone(0, AdjustedHigh(m.high, cfg.tolerance), w.spec);
    o := Sight(cfg, m, load, w.spec);
    var tick := LoadedTick(cfg, m, load, w.spec, now);
    TickIsLoaded(cfg, m, load, w, now);
    LoopPlan(cfg, m, load, w, tick, o);
    NeedAndRoom(cfg, m, load, w.spec);
    plan := tick.outcome.value;
  }

  // ---------- A target that reports no replica ----------

  /** While the target reports no replica, computeReplicas still succeeds when no availability is demanded. */
  lemma UnreportedStillComputes(cfg: Config, m: Metric, load: int, n: nat, now: int)
    requires cfg.modulo > 0 && cfg.source == Metrics([m]) && m.kind.External? && n >= 1
    ensures ComputeReplicas(cfg, Target(n, 0), Sight(cfg, m, load, n), now).Ok? <==> cfg.minAvailable <= 0
  {
    NobodyIsReported(cfg, m, load, n, now);
    SingleMetric(cfg, m, Target(n, 0), Sight(cfg, m, load, n), now);
  }

  lemma NobodyIsReported(cfg: Config, m: Metric, load: int, n: nat, now: int)
    requires n >= 1
    ensures AvailableReady(cfg, 0, Sight(cfg, m, load, n), now) == if cfg.minAvailable <= 0 then Ok(0) else Err
  {
    AllPodsReady(cfg, n, now);
  }

  /** A reconcile of a target of n replicas that reports none of its n ready pods. */
  ghost function UnreportedTick(cfg: Config, m: Metric, load: int, n: nat, now: int): Input
    requires cfg.modulo > 0
  {
    Tick(Clock(now, now, now, now), 0, true,
         ComputeReplicas(cfg, Target(n, 0), Sight(cfg, m, load, n), now), true, true, true)
  }

  /** Reconcile k of the run sees its n ready pods, none of them reported. */
  ghost predicate UnreportedAt(cfg: Config, m: Metric, load: int, r: Run, k: nat)
    requires k < |r.inputs| < |r.worlds| && cfg.modulo > 0
  {
    var n := r.worlds[k].spec;
    n >= 1 && r.inputs[k].Tick? && r.inputs[k] == UnreportedTick(cfg, m, load, n, r.inputs[k].clock.begin)
  }

  lemma {:induction false} UnreportedRunsExist(cfg: Config, m: Metric, load: int, w: World, n: nat) returns (r: Run)
    requires ValidConfig(cfg) && w.spec >= 1
    ensures IsRun(cfg, r) && |r.inputs| == n && r.worlds[0] == w
    ensures forall k {:trigger UnreportedAt(cfg, m, load, r, k)} :: 0 <= k < n ==> UnreportedAt(cfg, m, load, r, k)
    ensures r.worlds[n].spec >= 1
  {
    if n == 0 {
      r := Run([w], []);
    } else {
      var p := UnreportedRunsExist(cfg, m, load, w, n - 1);
      var v := p.worlds[n - 1];
      var tick := UnreportedTick(cfg, m, load, v.spec, n);
      r := Run(p.worlds + [Next(cfg, v, tick)], p.inputs + [tick]);
      PositiveStays(cfg, v, tick);
      forall k | 0 <= k < n ensures Linked(cfg, r, k) && UnreportedAt(cfg, m, load, r, k) {
        if k < n - 1 {
          assert Linked(cfg, p, k) && UnreportedAt(cfg, m, load, p, k);
        }
      }
    }
  }

  lemma PositiveStays(cfg: Config, w: World, i: Input)
    requires ValidConfig(cfg) && w.spec >= 1 && i.Tick?
    ensures Next(cfg, w, i).spec >= 1
  {
    StepSpec(cfg, w, i);
    if Decides(i) && InBounds(cfg, w.spec) {
      NormaliserGuarantees(cfg, w.spec, Max(i.outcome.value.replicas, 0), i.outcome.value.ready);
    }
  }

  /** Then the reset to 1 and its repair alternate for as long as that lasts, with every plan computed from the pods
      and the metric. */
  lemma UnreportedResetHappens(cfg: Config, m: Metric, load: int, w: World, n: nat) returns (r: Run)
    requires ValidConfig(cfg) && cfg.source == Metrics([m]) && m.kind.External? && cfg.minAvailable <= 0
    requires cfg.min > 1 && !cfg.dryRun && InBounds(cfg, w.spec)
    ensures IsRun(cfg, r) && |r.inputs| == n && r.worlds[0] == w
    ensures forall k {:trigger UnreportedAt(cfg, m, load, r, k)} :: 0 <= k < n ==> UnreportedAt(cfg, m, load, r, k)
    ensures n > 0 ==> r.worlds[n].spec == if n % 2 == 1 then 1 else cfg.min
  {
    r := UnreportedRunsExist(cfg, m, load, w, n);
    forall k | 0 <= k < n ensures Decides(r.inputs[k]) && r.inputs[k].observed == 0 && r.inputs[k].scaleOk {
      assert UnreportedAt(cfg, m, load, r, k);
      UnreportedStillComputes(cfg, m, load, r.worlds[k].spec, r.inputs[k].clock.begin);
    }
    UnreportedReplicasOscillate(cfg, r, n);
  }
}
