/** From raw observations to written replicas: properties of calculator, normaliser and gate together. */
module FullChain {
  import opened Math32
  import opened Types
  import opened Pods
  import opened Calculator
  import opened Compute
  import opened Normaliser
  import opened Machine
  import opened Runs
  import opened Delay

  /** The tick's outcome is what computeReplicas makes of the observation. */
  ghost predicate Computes(cfg: Config, w: World, i: Input, o: Observation)
    requires cfg.modulo > 0
  {
    i.Tick? ==> i.outcome == ComputeReplicas(cfg, Target(w.spec, i.observed), o, i.clock.compute)
  }

  // ---------- Unanimity ----------

  /** The plan asks for fewer replicas if and only if every metric does, and for more if and only if some metric
      does. */
  lemma PlanFollowsMetrics(cfg: Config, t: Target, o: Observation, now: int)
    requires cfg.modulo > 0 && cfg.source.Metrics? && t.spec >= 1 && ComputeReplicas(cfg, t, o, now).Ok?
    ensures var ps, plan := Proposals(cfg, t, o, now), ComputeReplicas(cfg, t, o, now).value;
            && (plan.replicas < t.spec <==> forall m :: 0 <= m < |ps| ==> ps[m].Ok? && ps[m].value.replicas < t.spec)
            && (plan.replicas > t.spec <==> exists m :: 0 <= m < |ps| && ps[m].Ok? && ps[m].value.replicas > t.spec)
  {
    PlanIsLargest(cfg, t, o, now);
    var ps, plan := Proposals(cfg, t, o, now), ComputeReplicas(cfg, t, o, now).value;
    if cfg.source.metrics != [] {
      var w :| 0 <= w < |ps| && ps[w].Ok? && plan == ps[w].value.(above := plan.above, below := plan.below);
      assert ps[w].value.replicas == plan.replicas;
    }
  }

  /** The gate only moves the count in the direction that was proposed. */
  lemma MoveWasProposed(cfg: Config, w: World, i: Input, side: Side)
    requires ValidConfig(cfg) && Rescales(cfg, w, i, side)
    ensures w.spec >= 1 && Moves(side, w.spec, i.outcome.value.replicas)
  {
    if w.spec != 0 {
      NormaliserGuarantees(cfg, w.spec, Max(i.outcome.value.replicas, 0), i.outcome.value.ready);
    }
  }

  /** A downscale that is not a repair means that every metric proposed fewer replicas than there are. */
  lemma DownscaleIsUnanimous(cfg: Config, w: World, i: Input, o: Observation, m: nat)
    requires ValidConfig(cfg) && cfg.source.Metrics? && Rescales(cfg, w, i, Below) && Computes(cfg, w, i, o)
    requires m < |cfg.source.metrics|
    ensures var p := Proposals(cfg, Target(w.spec, i.observed), o, i.clock.compute)[m];
            p.Ok? && p.value.replicas < w.spec
  {
    MoveWasProposed(cfg, w, i, Below);
    PlanFollowsMetrics(cfg, Target(w.spec, i.observed), o, i.clock.compute);
  }

  /** A valid spec may have no metric at all. Then nothing backs a downscale, and yet every applied reconcile outside
      the downscale window takes the count to its velocity limit, down to the minimum. */
  lemma NoMetricDrains(cfg: Config, w: World, i: Input, o: Observation)
    requires ValidConfig(cfg) && cfg.source == Metrics([]) && InBounds(cfg, w.spec)
    requires i.Tick? && i.found && i.observed > 0 && Computes(cfg, w, i, o)
    ensures Decides(i) && i.outcome.value == NOTHING
    ensures Next(cfg, w, i).spec ==
            if cfg.dryRun || !i.scaleOk || BacksOff(w.status, cfg.downWindow, i.clock.begin) then w.spec
            else Max(cfg.min, ScaleDownLimit(cfg, w.spec))
  {
    PlanIsLargest(cfg, Target(w.spec, i.observed), o, i.clock.compute);
    StepSpec(cfg, w, i);
    NormaliserIsClamp(cfg, w.spec, 0, 0);
    LimitsBracketCurrent(cfg, w.spec);
  }

  /** An upscale that is not a repair means that some metric proposed more; the reported name, timestamp and ready
      count are that metric's. */
  lemma UpscaleHasAWitness(cfg: Config, w: World, i: Input, o: Observation)
    requires ValidConfig(cfg) && cfg.source.Metrics? && Rescales(cfg, w, i, Above) && Computes(cfg, w, i, o)
    ensures exists m :: 0 <= m < |cfg.source.metrics| &&
              var p, plan := Proposals(cfg, Target(w.spec, i.observed), o, i.clock.compute)[m], i.outcome.value;
              p.Ok? && p.value.replicas > w.spec && plan == p.value.(above := plan.above, below := plan.below)
  {
    MoveWasProposed(cfg, w, i, Above);
    PlanIsLargest(cfg, Target(w.spec, i.observed), o, i.clock.compute);
  }

  // ---------- A recommender without watermarks ----------

  /** A found target is decided upon if and only if the recommender answers and the spec has both watermarks. */
  lemma RecommenderDecidesIff(cfg: Config, w: World, i: Input, o: Observation)
    requires cfg.modulo > 0 && cfg.source.Recommender? && i.Tick? && i.found && Computes(cfg, w, i, o)
    ensures Decides(i) <==>
            cfg.source.hasLow && cfg.source.hasHigh && Answered(cfg, Target(w.spec, i.observed), o, i.clock.compute)
    ensures i.outcome.Panic? <==>
            && !(cfg.source.hasLow && cfg.source.hasHigh)
            && Answered(cfg, Target(w.spec, i.observed), o, i.clock.compute)
  {
  }

  /** The answer that the recommender gave to this reconcile. */
  ghost function AnswerTo(cfg: Config, w: World, i: Input, o: Observation): Recommendation
    requires i.Tick? && Answered(cfg, Target(w.spec, i.observed), o, i.clock.compute)
  {
    var ready := AvailableReady(cfg, i.observed, o, i.clock.compute).value;
    o.recommend(Request(ready, w.spec, cfg.min, cfg.max)).value
  }

  /** A gated move follows the recommender: the recommended count lies on that side, or it equals the current count and
      a converge step on that side stays within the recommended bounds. */
  lemma MoveWasRecommended(cfg: Config, w: World, i: Input, o: Observation, side: Side)
    requires ValidConfig(cfg) && cfg.source.Recommender? && Rescales(cfg, w, i, side) && Computes(cfg, w, i, o)
    requires Answered(cfg, Target(w.spec, i.observed), o, i.clock.compute)
    requires AnswerTo(cfg, w, i, o).replicas != 0 || cfg.tolerateZero
    ensures var reco := AnswerTo(cfg, w, i, o);
            || Moves(side, w.spec, reco.replicas)
            || (&& reco.replicas == w.spec && Moves(side, w.spec, NextStop(cfg, w.spec))
                && StopIsRecommended(cfg, reco.lower, reco.upper, NextStop(cfg, w.spec)))
  {
    MoveWasProposed(cfg, w, i, side);
    RecommenderDecidesIff(cfg, w, i, o);
    RecommenderProposal(cfg, Target(w.spec, i.observed), o, i.clock.compute);
  }

  /** Validation does not ask a recommender spec for watermarks. Without them the WPA is inert: over every run the
      count, the counters and the rescale record never change, and while the recommender answers nothing at all is
      stored, not even a condition that would tell. */
  lemma {:induction false} MissingMarksMakeInert(cfg: Config, r: Run, obs: seq<Observation>, n: nat)
    requires cfg.modulo > 0 && cfg.source.Recommender? && !(cfg.source.hasLow && cfg.source.hasHigh)
    requires IsRun(cfg, r) && NoOutsideWrite(r.inputs) && |obs| == |r.inputs| && n <= |obs|
    requires forall j :: 0 <= j < n ==> Computes(cfg, r.worlds[j], r.inputs[j], obs[j])
    ensures var v, w := r.worlds[0], r.worlds[n];
            && w.spec == v.spec && w.ups == v.ups && w.downs == v.downs
            && w.status.lastScale == v.status.lastScale && w.status.events == v.status.events
    ensures (forall j :: 0 <= j < n ==> AnsweredAt(cfg, r, obs, j)) ==> r.worlds[n] == r.worlds[0]
  {
    if n > 0 {
      MissingMarksMakeInert(cfg, r, obs, n - 1);
      var w, i := r.worlds[n - 1], r.inputs[n - 1];
      assert Linked(cfg, r, n - 1);
      if i.found {
        RecommenderDecidesIff(cfg, w, i, obs[n - 1]);
      }
      StepSpec(cfg, w, i);
      StepCounters(cfg, w, i);
      StepStamp(cfg, w, i);
      assert AnsweredAt(cfg, r, obs, n - 1) ==> r.worlds[n] == w;
    }
  }

  /** Reconcile j finds its target and its recommender answers. */
  ghost predicate AnsweredAt(cfg: Config, r: Run, obs: seq<Observation>, j: nat)
    requires j < |obs| == |r.inputs| < |r.worlds| && NoOutsideWrite(r.inputs)
  {
    var i := r.inputs[j];
    i.found && Answered(cfg, Target(r.worlds[j].spec, i.observed), obs[j], i.clock.compute)
  }

  // ---------- Delay, metric by metric ----------

  /** A tick counts as out of bounds exactly when some metric is. */
  lemma OutOfBoundsIffSomeMetric(cfg: Config, w: World, i: Input, o: Observation, side: Side)
    requires cfg.modulo > 0 && cfg.source.Metrics? && Decides(i) && Computes(cfg, w, i, o)
    ensures OutOfBounds(side, i.outcome.value) <==>
            exists m :: 0 <= m < |cfg.source.metrics| &&
              var p := Proposals(cfg, Target(w.spec, i.observed), o, i.clock.compute)[m];
              p.Ok? && OutOfBounds(side, p.value)
  {
    var ps := Proposals(cfg, Target(w.spec, i.observed), o, i.clock.compute);
    var cs := Collect(ps).value;
    CollectKeepsAll(ps);
    MergeOrsFlags(cs);
    assert forall m :: 0 <= m < |ps| ==> ps[m] == Ok(cs[m]);
  }

  /** The delay promise in the terms of the documentation: when a delayed move goes through, at every
      successful computation of the last delay seconds at least one metric was beyond its watermark, not
      necessarily the same one. */
  lemma DelayOverMetricHistory(cfg: Config, r: Run, n: nat, side: Side, j: nat, o: Observation)
    requires cfg.modulo > 0 && cfg.source.Metrics?
    requires IsRun(cfg, r) && ClockMovesForward(r.inputs) && StatusPersisted(cfg, r)
    requires j <= n < |r.inputs| && Decides(r.inputs[j]) && Computes(cfg, r.worlds[j], r.inputs[j], o)
    requires Rescales(cfg, r.worlds[n], r.inputs[n], side) && r.worlds[n].status.lastScale.Some?
    requires DelayOf(cfg, side) > 0 && !Stable(r.inputs[n].outcome.value)
    requires var since := r.inputs[n].clock.gate - DelayOf(cfg, side);
             || r.inputs[j].clock.compute > since
             || (r.inputs[j].clock.compute == since && LastOfItsSecond(r.inputs, j, n + 1))
    ensures exists m :: 0 <= m < |cfg.source.metrics| &&
              var p := Proposals(cfg, Target(r.worlds[j].spec, r.inputs[j].observed), o, r.inputs[j].clock.compute)[m];
              p.Ok? && OutOfBounds(side, p.value)
  {
    DelayOverHistory(cfg, r, n, side, j);
    OutOfBoundsIffSomeMetric(cfg, r.worlds[j], r.inputs[j], o, side);
  }

  // ---------- Surge pods do not interfere ----------

  /** The target reports at least the pods that count as ready. */
  ghost predicate CoversReady(cfg: Config, i: Input, o: Observation) {
    i.Tick? ==> i.observed > 0 && (o.pods.Some? ==> i.observed >= Tally(cfg, o.pods.value, i.clock.compute, Ready))
  }

  lemma ProposalIgnoresSurge(cfg: Config, spec: int, a: nat, b: nat, o: Observation, now: int, m: Metric, i: nat)
    requires cfg.modulo > 0 && AvailableReady(cfg, a, o, now) == AvailableReady(cfg, b, o, now)
    ensures Proposal(cfg, Target(spec, a), o, now, m, i) == Proposal(cfg, Target(spec, b), o, now, m, i)
  {
  }

  lemma ComputeIgnoresSurge(cfg: Config, spec: int, a: nat, b: nat, o: Observation, now: int)
    requires cfg.modulo > 0
    requires o.pods.Some? ==> a >= Tally(cfg, o.pods.value, now, Ready) && b >= Tally(cfg, o.pods.value, now, Ready)
    ensures ComputeReplicas(cfg, Target(spec, a), o, now) == ComputeReplicas(cfg, Target(spec, b), o, now)
  {
    assert AvailableReady(cfg, a, o, now) == AvailableReady(cfg, b, o, now);
    if cfg.source.Metrics? {
      var ms := cfg.source.metrics;
      forall m | 0 <= m < |ms|
        ensures Proposal(cfg, Target(spec, a), o, now, ms[m], m) == Proposal(cfg, Target(spec, b), o, now, ms[m], m)
      {
        ProposalIgnoresSurge(cfg, spec, a, b, o, now, ms[m], m);
      }
      assert Proposals(cfg, Target(spec, a), o, now) == Proposals(cfg, Target(spec, b), o, now);
    }
  }

  /** Equal but for the replica count the target last reported. */
  ghost predicate Twins(v: World, w: World) {
    w == v.(status := v.status.(current := w.status.current))
  }

  /** The same moment and the same environment, except for what the target reports. */
  ghost predicate TwinInputs(i: Input, j: Input) {
    if i.Tick? then j.Tick? && j == i.(observed := j.observed, outcome := j.outcome) else i == j
  }

  lemma TwinVerdicts(cfg: Config, v: World, w: World, i: Input, j: Input)
    requires Twins(v, w) && TwinInputs(i, j) && Decides(i) && j.outcome == i.outcome && i.observed > 0 && j.observed > 0
    ensures VerdictOf(cfg, v, i) == VerdictOf(cfg, w, j)
  {
    var plan, clock := i.outcome.value, i.clock;
    var a := Observed(Fetched(cfg, v.status, clock), plan, clock);
    var b := Observed(Fetched(cfg, w.status, clock), plan, clock);
    assert b == a.(current := b.current);
    var n := Normal(cfg, v.spec, plan).replicas;
    assert ShouldScale(cfg, a, v.spec, n, clock, Stable(plan)) == ShouldScale(cfg, b, v.spec, n, clock, Stable(plan));
  }

  lemma TwinFinish(
    cfg: Config, s: Status, t: Status, spec: int, a: nat, b: nat, v: Verdict, clock: Clock, scaleOk: bool)
    requires t == s.(current := t.current)
    ensures var x, y := Finish(cfg, s, spec, a, v, clock, scaleOk), Finish(cfg, t, spec, b, v, clock, scaleOk);
            y == x.(status := x.status.(current := y.status.current))
  {
  }

  lemma TwinSteps(cfg: Config, v: World, w: World, i: Input, j: Input)
    requires Twins(v, w) && TwinInputs(i, j)
    requires i.Tick? ==> j.outcome == i.outcome && i.observed > 0 && j.observed > 0
    ensures Twins(Next(cfg, v, i), Next(cfg, w, j))
  {
    if Decides(i) {
      TwinVerdicts(cfg, v, w, i, j);
      var a := Decided(cfg, v.status, v.spec, i.outcome.value, i.clock);
      var b := Decided(cfg, w.status, w.spec, i.outcome.value, i.clock);
      assert b == a.(current := b.current);
      TwinFinish(cfg, a, b, v.spec, i.observed, j.observed, VerdictOf(cfg, v, i), i.clock, i.scaleOk);
    }
  }

  /** Two runs in the same environment whose targets report different replica counts, as during a rolling
      update, but always at least the ready pods: every decision, every write, every stored condition and
      counter is the same, for metrics and for recommenders. */
  lemma {:induction false} SurgeDoesNotInterfere(cfg: Config, r: Run, q: Run, obs: seq<Observation>, n: nat)
    requires ValidConfig(cfg) && IsRun(cfg, r) && IsRun(cfg, q) && Twins(r.worlds[0], q.worlds[0])
    requires |r.inputs| == |q.inputs| == |obs| && n <= |obs|
    requires forall i :: 0 <= i < |obs| ==> TwinInputs(r.inputs[i], q.inputs[i])
    requires forall i :: 0 <= i < |obs| ==>
               CoversReady(cfg, r.inputs[i], obs[i]) && CoversReady(cfg, q.inputs[i], obs[i])
    requires forall i :: 0 <= i < |obs| ==>
               Computes(cfg, r.worlds[i], r.inputs[i], obs[i]) && Computes(cfg, q.worlds[i], q.inputs[i], obs[i])
    ensures Twins(r.worlds[n], q.worlds[n])
    ensures n < |obs| && r.inputs[n].Tick? ==> q.inputs[n].Tick? && q.inputs[n].outcome == r.inputs[n].outcome
    ensures n < |obs| && Decides(r.inputs[n]) ==>
              && Decides(q.inputs[n])
              && VerdictOf(cfg, r.worlds[n], r.inputs[n]) == VerdictOf(cfg, q.worlds[n], q.inputs[n])
  {
    if n > 0 {
      SurgeDoesNotInterfere(cfg, r, q, obs, n - 1);
      assert Linked(cfg, r, n - 1) && Linked(cfg, q, n - 1);
      TwinSteps(cfg, r.worlds[n - 1], q.worlds[n - 1], r.inputs[n - 1], q.inputs[n - 1]);
    }
    if n < |obs| && r.inputs[n].Tick? {
      assert TwinInputs(r.inputs[n], q.inputs[n]);
      ComputeIgnoresSurge(cfg, r.worlds[n].spec, r.inputs[n].observed, q.inputs[n].observed, obs[n],
                          r.inputs[n].clock.compute);
      if Decides(r.inputs[n]) {
        TwinVerdicts(cfg, r.worlds[n], q.worlds[n], r.inputs[n], q.inputs[n]);
      }
    }
  }

  // ---------- When a decision changes nothing ----------

  /** The gate is shut for a move on the side: its forbidden window is open, or, outside the stable regime, the
      side's condition as this step marks it is not true, or not for as long as the delay. */
  predicate Shut(cfg: Config, w: World, i: Input, side: Side)
    requires Decides(i)
  {
    var s, plan := w.status, i.outcome.value;
    && s.lastScale.Some?
    && (|| BacksOff(s, WindowOf(cfg, side), i.clock.begin)
        || (&& DelayOf(cfg, side) > 0 && !Stable(plan)
            && var began := TrueSince(Mark(s, KindOf(side), OutOfBounds(side, plan), i.clock.compute), side);
               began.None? || i.clock.gate < began.value + DelayOf(cfg, side)))
  }

  /** The gate lets a move through exactly when it is not shut. */
  lemma GateShutIff(cfg: Config, w: World, i: Input, side: Side)
    requires ValidConfig(cfg) && Decides(i)
    requires var v := VerdictOf(cfg, w, i); !v.forced && Moves(side, w.spec, v.desired)
    ensures VerdictOf(cfg, w, i).rescale <==> !Shut(cfg, w, i, side)
  {
    GateReadsThisStep(cfg, w.status, i.outcome.value, i.clock, side);
  }

  /** The rules leave no room for going from n to p. */
  predicate NoRoom(cfg: Config, n: int, p: int, ready: int) {
    || (p < n && (n == cfg.min || cfg.downFactor == 0 || Aborted(cfg, n, p, ready)))
    || (p > n && (n == cfg.max || cfg.upFactor == 0))
  }

  lemma NormalKeepsIff(cfg: Config, n: int, p: int, ready: int)
    requires ValidConfig(cfg) && InBounds(cfg, n)
    ensures Normalise(cfg, n, p, ready).replicas == n <==> p == n || NoRoom(cfg, n, p, ready)
    ensures Normalise(cfg, n, p, ready).replicas < n ==> p < n
    ensures Normalise(cfg, n, p, ready).replicas > n ==> p > n
  {
    NormaliserIsClamp(cfg, n, p, ready);
    LimitsBracketCurrent(cfg, n);
  }

  /** Nothing is applied, or the plan asks for no change, or there is no room for it, or the gate is shut. */
  predicate Kept(cfg: Config, w: World, i: Input)
    requires Decides(i)
  {
    var n, p := w.spec, Max(i.outcome.value.replicas, 0);
    || cfg.dryRun || !i.scaleOk || p == n || NoRoom(cfg, n, p, i.outcome.value.ready)
    || Shut(cfg, w, i, if p > n then Above else Below)
  }

  /** Exactly when a reconcile of a count inside the bounds keeps it, whatever was proposed. */
  lemma KeptIff(cfg: Config, w: World, i: Input)
    requires ValidConfig(cfg) && InBounds(cfg, w.spec) && Decides(i) && i.observed > 0
    ensures Next(cfg, w, i).spec == w.spec <==> Kept(cfg, w, i)
  {
    StepSpec(cfg, w, i);
    NormalKeepsIff(cfg, w.spec, Max(i.outcome.value.replicas, 0), i.outcome.value.ready);
    var d := VerdictOf(cfg, w, i).desired;
    if d != w.spec {
      GateShutIff(cfg, w, i, if d > w.spec then Above else Below);
    }
  }

  // ---------- A zero that is not tolerated ----------

  /** Every metric is external and reads 0, or the recommender recommends 0. */
  ghost predicate SeesZero(cfg: Config, t: Target, o: Observation, now: int) {
    && !cfg.tolerateZero && AvailableReady(cfg, t.status, o, now).Ok?
    && match cfg.source
       case Metrics(ms) =>
         && ms != [] && |o.readings| >= |ms|
         && forall m :: 0 <= m < |ms| ==>
              ms[m].kind.External? && o.readings[m].ExternalValues? && Sum(o.readings[m].values) == 0
       case Recommender(_, hasLow, hasHigh) =>
         && hasLow && hasHigh && Answered(cfg, t, o, now)
         && var ready := AvailableReady(cfg, t.status, o, now).value;
            o.recommend(Request(ready, t.spec, cfg.min, cfg.max)).value.replicas == 0
  }

  /** The ready pods that a reconcile counts. */
  function ReadyNow(cfg: Config, i: Input, o: Observation): nat
    requires i.Tick? && AvailableReady(cfg, i.observed, o, i.clock.compute).Ok?
  {
    AvailableReady(cfg, i.observed, o, i.clock.compute).value
  }

  lemma ZeroPlan(cfg: Config, t: Target, o: Observation, now: int)
    requires cfg.modulo > 0 && t.status > 0 && SeesZero(cfg, t, o, now)
    ensures var c := ComputeReplicas(cfg, t, o, now);
            var ready := AvailableReady(cfg, t.status, o, now).value;
            c.Ok? && c.value.replicas == ready == c.value.ready && ready > 0 && Stable(c.value)
  {
    var ready := AvailableReady(cfg, t.status, o, now).value;
    if cfg.source.Metrics? {
      var ps := Proposals(cfg, t, o, now);
      assert forall m :: 0 <= m < |ps| ==>
               ps[m] == Ok(Calc(ready, cfg.source.metrics[m].name, o.readings[m].timestamp, ready, false, false));
      AllOkCollects(ps);
      CollectKeepsAll(ps);
      MergeIsWitnessed(Collect(ps).value);
      MergeOrsFlags(Collect(ps).value);
    }
  }

  /** The documentation says no action is taken on a zero that is not tolerated. The code proposes the ready count
      instead of the current one, so the count is kept exactly when the two agree, or the ready count is so low
      that the downscale is aborted, or the bounds or a zero factor leave no room to move, or the forbidden window
      of that direction is open, or nothing is applied anyway. */
  lemma UntoleratedZeroHoldsIff(cfg: Config, w: World, i: Input, o: Observation)
    requires ValidConfig(cfg) && InBounds(cfg, w.spec) && i.Tick? && i.found && i.observed > 0
    requires Computes(cfg, w, i, o) && SeesZero(cfg, Target(w.spec, i.observed), o, i.clock.compute)
    ensures Decides(i) && !VerdictOf(cfg, w, i).forced
    ensures var ready, n := ReadyNow(cfg, i, o), w.spec;
            Next(cfg, w, i).spec == n <==>
            || ready == n
            || cfg.dryRun || !i.scaleOk
            || (ready < n && (|| ready < ScaleDownLimit(cfg, n) || n == cfg.min
                              || BacksOff(w.status, cfg.downWindow, i.clock.begin)))
            || (ready > n && (|| cfg.upFactor == 0 || n == cfg.max
                              || BacksOff(w.status, cfg.upWindow, i.clock.begin)))
  {
    ZeroPlan(cfg, Target(w.spec, i.observed), o, i.clock.compute);
    KeptIff(cfg, w, i);
    LimitsBracketCurrent(cfg, w.spec);
  }

  /** Metric z is external and reads a zero that is not tolerated, whatever the other metrics read. */
  ghost predicate ReadsZero(cfg: Config, t: Target, o: Observation, now: int, z: nat) {
    && !cfg.tolerateZero && cfg.source.Metrics? && z < |cfg.source.metrics| && z < |o.readings|
    && cfg.source.metrics[z].kind.External? && AvailableReady(cfg, t.status, o, now).Ok?
    && o.readings[z].ExternalValues? && Sum(o.readings[z].values) == 0
  }

  /** Some metric other than z proposes n. */
  ghost predicate OtherProposes(ps: seq<Outcome<Calc>>, z: nat, n: int) {
    exists m :: 0 <= m < |ps| && m != z && ps[m].Ok? && ps[m].value.replicas == n
  }

  /** Beside other metrics such a zero only puts a floor under the plan: the plan is the ready count or the larger
      proposal of another metric. So it vetoes downscales below the ready count, and no upscale. */
  lemma ZeroIsAFloor(cfg: Config, w: World, i: Input, o: Observation, z: nat)
    requires ValidConfig(cfg) && InBounds(cfg, w.spec) && Decides(i) && i.observed > 0 && Computes(cfg, w, i, o)
    requires ReadsZero(cfg, Target(w.spec, i.observed), o, i.clock.compute, z)
    ensures var ready, p := ReadyNow(cfg, i, o), i.outcome.value.replicas;
            var ps := Proposals(cfg, Target(w.spec, i.observed), o, i.clock.compute);
            && p >= ready && (p == ready || OtherProposes(ps, z, p))
            && Next(cfg, w, i).spec >= Min(w.spec, ready)
            && (Next(cfg, w, i).spec > w.spec ==> ready > w.spec || OtherProposes(ps, z, p))
  {
    var t, now := Target(w.spec, i.observed), i.clock.compute;
    var ps, plan := Proposals(cfg, t, o, now), i.outcome.value;
    PlanIsLargest(cfg, t, o, now);
    assert ps[z].Ok? && ps[z].value.replicas == ReadyNow(cfg, i, o);
    var m :| 0 <= m < |ps| && ps[m].Ok? && plan == ps[m].value.(above := plan.above, below := plan.below);
    assert ps[m].value.replicas == plan.replicas;
    StepSpec(cfg, w, i);
    NormaliserGuarantees(cfg, w.spec, Max(plan.replicas, 0), plan.ready);
  }

  // ---------- A zero of a resource metric ----------

  /** Zero usage is below the low watermark. */
  predicate Starves(cfg: Config, m: Metric, ready: int) { AdjustedLow(m.low, cfg.tolerance) * Divisor(cfg, ready) > 0 }

  /** The resource metric is computed, from pods that use nothing. */
  ghost predicate UsesNothing(cfg: Config, t: Target, m: Metric, o: Observation)
    requires cfg.modulo > 0
  {
    && m.kind.Resource? && o.readings != [] && ResourceReplicas(cfg, t, m, o.readings[0], o).Ok?
    && var r := o.readings[0];
       Total(r.usage - NamesIn(Tags(cfg, o.pods.value, r.usage, m.name == "cpu"), Ignored)) == 0
  }

  ghost function CountedPods(cfg: Config, m: Metric, o: Observation): nat
    requires o.pods.Some? && o.readings != [] && o.readings[0].ResourceUsage?
  {
    |NamesIn(Tags(cfg, o.pods.value, o.readings[0].usage, m.name == "cpu"), Counted)|
  }

  lemma ProposeForNothing(cfg: Config, cur: int, ready: nat, m: Metric, nonFinite: int)
    requires ValidConfig(cfg) && 0 <= m.low <= m.high && (cfg.converge.Off? || Starves(cfg, m, ready))
    ensures var c := Propose(cfg, cur, ready, 0, m.low, m.high, nonFinite);
            c == if Starves(cfg, m, ready) then Count(Min(cur, cfg.modulo), false, true) else Count(cur, false, false)
  {
    RegimeAgainstMarks(cfg, cur, ready, 0, m.low, m.high, nonFinite);
    ToleranceWidensBand(m.low, m.high, cfg.tolerance);
    ProductIsMonotone(0, AdjustedHigh(m.high, cfg.tolerance), Divisor(cfg, ready));
    if Starves(cfg, m, ready) {
      assert Divisor(cfg, ready) > 0 && m.low > 0;
      assert Ratio(ready, 0.0, m.low) == 0.0;
      assert RoundToModulo(1, cfg.modulo) == cfg.modulo;
    }
  }

  lemma NothingPlan(cfg: Config, t: Target, m: Metric, o: Observation, now: int)
    requires ValidConfig(cfg) && cfg.source == Metrics([m]) && 0 <= m.low <= m.high && UsesNothing(cfg, t, m, o)
    requires cfg.converge.Off? || Starves(cfg, m, CountedPods(cfg, m, o))
    ensures var c, ready := ComputeReplicas(cfg, t, o, now), CountedPods(cfg, m, o);
            && c.Ok? && c.value.ready == ready
            && Count(c.value.replicas, c.value.above, c.value.below) ==
               (if Starves(cfg, m, ready) then Count(Min(t.spec, cfg.modulo), false, true)
                else Count(t.spec, false, false))
  {
    SingleMetric(cfg, m, t, o, now);
    ProposeForNothing(cfg, t.spec, CountedPods(cfg, m, o), m, o.nonFinite);
  }

  /** A resource metric does not look at TolerateZero at all: a zero is below the low watermark and asks for one
      modulo of replicas. The count is kept exactly when zero is not below the adjusted mark, or there is no room to
      go down, or the downscale is aborted, or the gate is shut, or nothing is applied. */
  lemma ResourceZeroHoldsIff(cfg: Config, w: World, i: Input, o: Observation, m: Metric)
    requires ValidConfig(cfg) && InBounds(cfg, w.spec) && i.Tick? && i.found && i.observed > 0 && Computes(cfg, w, i, o)
    requires cfg.source == Metrics([m]) && 0 <= m.low <= m.high && UsesNothing(cfg, Target(w.spec, i.observed), m, o)
    requires cfg.converge.Off? || Starves(cfg, m, CountedPods(cfg, m, o))
    ensures Decides(i) && !VerdictOf(cfg, w, i).forced
    ensures var ready, n := CountedPods(cfg, m, o), w.spec;
            Next(cfg, w, i).spec == n <==>
            || cfg.dryRun || !i.scaleOk
            || !Starves(cfg, m, ready) || n <= cfg.modulo
            || n == cfg.min || cfg.downFactor == 0 || Aborted(cfg, n, cfg.modulo, ready)
            || Shut(cfg, w, i, Below)
  {
    NothingPlan(cfg, Target(w.spec, i.observed), m, o, i.clock.compute);
    KeptIff(cfg, w, i);
  }
}
