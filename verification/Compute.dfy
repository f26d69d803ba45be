/** computeReplicas: from what the cluster and the metric providers report to one proposal. */
module Compute {
  import opened Math32
  import opened Types
  import opened Pods
  import opened Calculator

  datatype Reading =
    | NoReading
    | ExternalValues(values: seq<int>, timestamp: int)
    | ResourceUsage(usage: map<string, int>, timestamp: int)

  /** The request fields that vary between reconciles; DesiredReplicas always equals current. */
  datatype Request = Request(ready: int, current: int, min: int, max: int)

  datatype Recommendation = Recommendation(replicas: int, lower: int, upper: int, timestamp: int)

  /** nonFinite is the int32 that Go happens to convert an infinite or undefined float64 to; it is arbitrary. */
  datatype Observation = Observation(
    pods: Option<seq<Pod>>,
    readings: seq<Reading>,
    recommend: Request -> Option<Recommendation>,
    nonFinite: int)

  function FromCount(c: Count, name: string, timestamp: int, ready: int): Calc {
    Calc(c.replicas, name, timestamp, ready, c.above, c.below)
  }

  /** Ready pods capped by the replicas the target reports, or an error when too few are available. */
  function AvailableReady(cfg: Config, status: nat, o: Observation, now: int): Outcome<nat> {
    if o.pods.None? || o.pods.value == [] then Err
    else
      var pods := o.pods.value;
      var counted := Tally(cfg, pods, now, Ready);
      if counted == 0 then Err
      else
        var ready := Min(counted, status);
        ReadyRatioIsPercentage(cfg, pods, now, status);
        if 100 * ready / (|pods| - Tally(cfg, pods, now, Incorrect)) < cfg.minAvailable then Err
        else Ok(ready)
  }

  function ExternalReplicas(cfg: Config, t: Target, m: Metric, r: Reading, o: Observation, now: int): Outcome<Calc>
    requires cfg.modulo > 0
  {
    match AvailableReady(cfg, t.status, o, now)
    case Err => Err
    case Panic => Panic
    case Ok(ready) =>
      if !r.ExternalValues? then Err
      else
        var sum := Sum(r.values);
        if sum == 0 && !cfg.tolerateZero then
          Ok(Calc(ready, m.name, r.timestamp, ready, false, false))
        else
          Ok(FromCount(Propose(cfg, t.spec, ready, sum, m.low, m.high, o.nonFinite), m.name, r.timestamp, ready))
  }

  ghost function ResourceReplicas(cfg: Config, t: Target, m: Metric, r: Reading, o: Observation): Outcome<Calc>
    requires cfg.modulo > 0
  {
    if !r.ResourceUsage? || o.pods.None? || o.pods.value == [] then Err
    else
      var tags := Tags(cfg, o.pods.value, r.usage, m.name == "cpu");
      var ready := |NamesIn(tags, Counted)|;
      var ignored := NamesIn(tags, Ignored);
      if |tags| == |ignored| then Panic // integer division by zero
      else if 100 * ready / (|tags| - |ignored|) < cfg.minAvailable then Err
      else if r.usage - ignored == map[] then Err
      else
        Ok(FromCount(Propose(cfg, t.spec, ready, Total(r.usage - ignored), m.low, m.high, o.nonFinite),
                     m.name, r.timestamp, ready))
  }

  function RecommenderReplicas(cfg: Config, t: Target, o: Observation, now: int): Outcome<Calc>
    requires cfg.modulo > 0 && cfg.source.Recommender?
  {
    match AvailableReady(cfg, t.status, o, now)
    case Err => Err
    case Panic => Panic
    case Ok(ready) =>
      var reco := o.recommend(Request(ready, t.spec, cfg.min, cfg.max));
      if reco.None? then Err
      else if !cfg.source.hasLow || !cfg.source.hasHigh then Panic // nil watermark dereferenced for the gauges
      else if reco.value.replicas == 0 && !cfg.tolerateZero then
        Ok(Calc(ready, cfg.source.name, reco.value.timestamp, ready, false, false))
      else
        Ok(FromCount(AdjustReplicaCount(cfg, t.spec, reco.value.replicas, reco.value.lower, reco.value.upper),
                     cfg.source.name, reco.value.timestamp, ready))
  }

  // ---------- Availability ----------

  /** Pods are listed, some is ready, and the ready ones that the target reports make up the demanded percentage of
      those that are neither foreign nor ended. */
  ghost predicate IsAvailable(cfg: Config, status: nat, o: Observation, now: int) {
    && o.pods.Some? && o.pods.value != [] && Tally(cfg, o.pods.value, now, Ready) > 0
    && cfg.minAvailable * (|o.pods.value| - Tally(cfg, o.pods.value, now, Incorrect))
       <= 100 * Min(Tally(cfg, o.pods.value, now, Ready), status)
  }

  lemma AvailableIff(cfg: Config, status: nat, o: Observation, now: int)
    ensures AvailableReady(cfg, status, o, now) ==
            if IsAvailable(cfg, status, o, now) then Ok(Min(Tally(cfg, o.pods.value, now, Ready), status)) else Err
  {
    if o.pods.Some? && o.pods.value != [] && Tally(cfg, o.pods.value, now, Ready) > 0 {
      ReadyRatioIsPercentage(cfg, o.pods.value, now, status);
      RatioBelowIff(100 * Min(Tally(cfg, o.pods.value, now, Ready), status),
                    |o.pods.value| - Tally(cfg, o.pods.value, now, Incorrect), cfg.minAvailable);
    }
  }

  lemma RatioBelowIff(x: int, d: int, m: int)
    requires d > 0
    ensures x / d < m <==> x < m * d
  {
    var q := x / d;
    assert q * d <= x < (q + 1) * d;
    if q < m {
      ProductIsMonotone(q + 1, m, d);
    } else {
      ProductIsMonotone(m, q, d);
    }
  }

  lemma DemandGrows(m: int, d: int, e: int, x: nat)
    requires 0 <= d <= e && m * e <= x
    ensures m * d <= x
  {
    if m >= 0 {
      ProductIsMonotone(d, e, m);
    } else {
      ProductIsMonotone(m, 0, d);
    }
  }

  /** Pods of other targets and pods that have ended make no difference. */
  lemma AvailabilityIgnoresForeign(cfg: Config, status: nat, o: Observation, pods: seq<Pod>, p: Pod, now: int)
    requires !Ours(cfg, p) || HasEnded(p)
    ensures AvailableReady(cfg, status, o.(pods := Some(pods + [p])), now)
         == AvailableReady(cfg, status, o.(pods := Some(pods)), now)
  {
    OnePodMore(cfg, pods, p, now);
    AvailableIff(cfg, status, o.(pods := Some(pods)), now);
    AvailableIff(cfg, status, o.(pods := Some(pods + [p])), now);
  }

  /** A terminating pod, or one without start time or Ready condition, is never available: it leaves the ready count
      as it is and can only make the demanded percentage harder to meet. */
  lemma TerminatingPodIsNotAvailable(cfg: Config, status: nat, o: Observation, pods: seq<Pod>, p: Pod, now: int)
    requires !CanBeReady(p) && AvailableReady(cfg, status, o.(pods := Some(pods + [p])), now).Ok?
    ensures AvailableReady(cfg, status, o.(pods := Some(pods)), now)
         == AvailableReady(cfg, status, o.(pods := Some(pods + [p])), now)
  {
    OnePodMore(cfg, pods, p, now);
    AvailableIff(cfg, status, o.(pods := Some(pods)), now);
    AvailableIff(cfg, status, o.(pods := Some(pods + [p])), now);
    TallyPartitions(cfg, pods, now);
    var d, e := |pods| - Tally(cfg, pods, now, Incorrect), |pods + [p]| - Tally(cfg, pods + [p], now, Incorrect);
    DemandGrows(cfg.minAvailable, d, e, 100 * Min(Tally(cfg, pods, now, Ready), status));
  }

  // ---------- Which computations fail ----------

  /** The external path fails exactly without availability or without a reading, and never panics. */
  lemma ExternalFailsIff(cfg: Config, t: Target, m: Metric, r: Reading, o: Observation, now: int)
    requires cfg.modulo > 0
    ensures var c := ExternalReplicas(cfg, t, m, r, o, now);
            if IsAvailable(cfg, t.status, o, now) && r.ExternalValues? then c.Ok? else c.Err?
  {
    AvailableIff(cfg, t.status, o, now);
  }

  lemma NothingLeftIff(usage: map<string, int>, names: set<string>)
    ensures usage - names == map[] <==> usage.Keys - names == {}
  {
    assert (usage - names).Keys == usage.Keys - names;
    assert usage - names == map[] <==> (usage - names).Keys == {};
  }

  /** The resource path succeeds exactly with a reading, with pods of which not all are ignored and of which the
      demanded percentage is ready, and with a metric left. */
  lemma ResourceSucceedsIff(cfg: Config, t: Target, m: Metric, r: Reading, o: Observation)
    requires cfg.modulo > 0
    ensures ResourceReplicas(cfg, t, m, r, o).Ok? <==>
            && r.ResourceUsage? && o.pods.Some? && o.pods.value != []
            && var tags := Tags(cfg, o.pods.value, r.usage, m.name == "cpu");
               var ready, ignored := |NamesIn(tags, Counted)|, NamesIn(tags, Ignored);
               && |ignored| < |o.pods.value|
               && cfg.minAvailable * (|o.pods.value| - |ignored|) <= 100 * ready
               && r.usage.Keys - ignored != {}
  {
    if r.ResourceUsage? && o.pods.Some? && o.pods.value != [] {
      var tags := Tags(cfg, o.pods.value, r.usage, m.name == "cpu");
      var ready, ignored := |NamesIn(tags, Counted)|, NamesIn(tags, Ignored);
      NamesFit(tags, Ignored);
      NothingLeftIff(r.usage, ignored);
      if |ignored| < |tags| {
        RatioBelowIff(100 * ready, |tags| - |ignored|, cfg.minAvailable);
      }
    }
  }

  // ---------- Several metrics ----------

  /** One round of the metric loop: flags are OR-ed, the larger proposal wins, and 0 counts as "none yet". */
  function Combine(acc: Calc, c: Calc): Calc {
    var above, below := acc.above || c.above, acc.below || c.below;
    if acc.replicas == 0 || c.replicas > acc.replicas then c.(above := above, below := below)
    else acc.(above := above, below := below)
  }

  const NOTHING := Calc(0, "", 0, 0, false, false)

  /** The proposals of the metrics seen so far, folded in order. */
  function Merge(cs: seq<Calc>): Calc {
    if cs == [] then NOTHING else Combine(Merge(cs[..|cs| - 1]), cs[|cs| - 1])
  }

  /** Replicas reported when the loop sees the calculations one by one, ending at the first failure. */
  function Collect(outcomes: seq<Outcome<Calc>>): Outcome<seq<Calc>> {
    if outcomes == [] then Ok([])
    else
      var last := |outcomes| - 1;
      match Collect(outcomes[..last])
      case Err => Err
      case Panic => Panic
      case Ok(cs) =>
        match outcomes[last]
        case Err => Err
        case Panic => Panic
        case Ok(c) => Ok(cs + [c])
  }

  ghost function Proposal(cfg: Config, t: Target, o: Observation, now: int, m: Metric, i: nat): Outcome<Calc>
    requires cfg.modulo > 0
  {
    var r := if i < |o.readings| then o.readings[i] else NoReading;
    match m.kind
    case External => ExternalReplicas(cfg, t, m, r, o, now)
    case Resource => ResourceReplicas(cfg, t, m, r, o)
  }

  ghost function Proposals(cfg: Config, t: Target, o: Observation, now: int): seq<Outcome<Calc>>
    requires cfg.modulo > 0 && cfg.source.Metrics?
  {
    seq(|cfg.source.metrics|, i requires 0 <= i < |cfg.source.metrics| =>
      Proposal(cfg, t, o, now, cfg.source.metrics[i], i))
  }

  /** The outcome of computeReplicas for a target, an observation and a clock reading. */
  ghost function ComputeReplicas(cfg: Config, t: Target, o: Observation, now: int): Outcome<Calc>
    requires cfg.modulo > 0
  {
    if cfg.source.Recommender? then RecommenderReplicas(cfg, t, o, now)
    else
      match Collect(Proposals(cfg, t, o, now))
      case Err => Err
      case Panic => Panic
      case Ok(cs) => Ok(Merge(cs))
  }

  /** The accumulator loop of computeReplicasForMetrics over the calculators' answers. */
  method ComputeReplicasForMetrics(outcomes: seq<Outcome<Calc>>) returns (r: Outcome<Calc>)
    ensures match Collect(outcomes)
            case Err => r == Err
            case Panic => r == Panic
            case Ok(cs) => r == Ok(Merge(cs))
  {
    var replicas, name, timestamp, ready := 0, "", 0, 0;
    var above, below := false, false;
    for i := 0 to |outcomes|
      invariant Collect(outcomes[..i]).Ok?
      invariant Merge(Collect(outcomes[..i]).value) == Calc(replicas, name, timestamp, ready, above, below)
    {
      assert outcomes[..i + 1][..i] == outcomes[..i];
      if !outcomes[i].Ok? {
        FailureIsFinal(outcomes, i + 1);
        return outcomes[i];
      }
      var c := outcomes[i].value;
      ghost var cs := Collect(outcomes[..i]).value;
      assert (cs + [c])[..|cs|] == cs;
      above := above || c.above;
      below := below || c.below;
      if replicas == 0 || c.replicas > replicas {
        timestamp, replicas, name, ready := c.timestamp, c.replicas, c.name, c.ready;
      }
    }
    assert outcomes[..|outcomes|] == outcomes;
    return Ok(Calc(replicas, name, timestamp, ready, above, below));
  }

  lemma {:induction false} FailureIsFinal(outcomes: seq<Outcome<Calc>>, n: nat)
    requires n <= |outcomes| && !Collect(outcomes[..n]).Ok?
    ensures Collect(outcomes) == Collect(outcomes[..n])
    decreases |outcomes|
  {
    if n == |outcomes| {
      assert outcomes[..n] == outcomes;
    } else {
      var init := outcomes[..|outcomes| - 1];
      assert init[..n] == outcomes[..n];
      FailureIsFinal(init, n);
    }
  }

  // ---------- What the merged proposal means ----------

  ghost predicate IsMaximum(n: int, cs: seq<Calc>) {
    (exists i :: 0 <= i < |cs| && cs[i].replicas == n) && forall i :: 0 <= i < |cs| ==> cs[i].replicas <= n
  }

  /** All but the flags of c is that of the i-th proposal, and no earlier one is as large, if it is positive. */
  ghost predicate IsEarliest(cs: seq<Calc>, c: Calc, i: nat) {
    && i < |cs| && c == cs[i].(above := c.above, below := c.below)
    && (c.replicas > 0 ==> forall j :: 0 <= j < i ==> cs[j].replicas < c.replicas)
  }

  lemma {:induction false} FirstLargest(cs: seq<Calc>) returns (w: nat)
    requires cs != []
    ensures IsEarliest(cs, Merge(cs), w)
    ensures forall i :: 0 <= i < |cs| && cs[i].replicas > 0 ==> cs[i].replicas <= Merge(cs).replicas
  {
    var last := |cs| - 1;
    var init := cs[..last];
    assert Merge(cs) == Combine(Merge(init), cs[last]);
    w := last;
    if init != [] {
      var v := FirstLargest(init);
      assert forall i :: 0 <= i < last ==> cs[i] == init[i];
      if !(Merge(init).replicas == 0 || cs[last].replicas > Merge(init).replicas) {
        w := v;
      }
    }
  }

  /** Count, name, timestamp and ready count all come from one metric, the first with that count, and no positive
      proposal is lost. */
  lemma MergeIsWitnessed(cs: seq<Calc>)
    requires cs != []
    ensures exists i: nat :: IsEarliest(cs, Merge(cs), i)
    ensures forall i :: 0 <= i < |cs| && cs[i].replicas > 0 ==> cs[i].replicas <= Merge(cs).replicas
  {
    var w := FirstLargest(cs);
  }

  /** Each flag is the OR of the metrics' flags. */
  lemma {:induction false} MergeOrsFlags(cs: seq<Calc>)
    ensures Merge(cs).above <==> exists i :: 0 <= i < |cs| && cs[i].above
    ensures Merge(cs).below <==> exists i :: 0 <= i < |cs| && cs[i].below
  {
    if cs != [] {
      var last := |cs| - 1;
      MergeOrsFlags(cs[..last]);
      assert Merge(cs) == Combine(Merge(cs[..last]), cs[last]);
      assert forall i :: 0 <= i < last ==> cs[i] == cs[..last][i];
    }
  }

  /** For non-negative proposals the loop returns the maximum. */
  lemma NonNegativeMergeIsMaximum(cs: seq<Calc>)
    requires cs != [] && forall i :: 0 <= i < |cs| ==> cs[i].replicas >= 0
    ensures IsMaximum(Merge(cs).replicas, cs)
  {
    var w := FirstLargest(cs);
    assert cs[w].replicas == Merge(cs).replicas;
  }

  /** With no failing metric the outcome merges exactly the metrics' own proposals, in order. */
  lemma {:induction false} CollectKeepsAll(outcomes: seq<Outcome<Calc>>)
    requires Collect(outcomes).Ok?
    ensures |Collect(outcomes).value| == |outcomes|
    ensures forall i :: 0 <= i < |outcomes| ==> outcomes[i] == Ok(Collect(outcomes).value[i])
  {
    if outcomes != [] {
      CollectKeepsAll(outcomes[..|outcomes| - 1]);
    }
  }

  lemma {:induction false} AllOkCollects(ps: seq<Outcome<Calc>>)
    requires forall m :: 0 <= m < |ps| ==> ps[m].Ok?
    ensures Collect(ps).Ok?
  {
    if ps != [] {
      AllOkCollects(ps[..|ps| - 1]);
    }
  }

  /** One failing metric fails the whole computation. */
  lemma ComputesIffAllDo(cfg: Config, t: Target, o: Observation, now: int)
    requires cfg.modulo > 0 && cfg.source.Metrics?
    ensures ComputeReplicas(cfg, t, o, now).Ok? <==> forall p :: p in Proposals(cfg, t, o, now) ==> p.Ok?
  {
    var ps := Proposals(cfg, t, o, now);
    if Collect(ps).Ok? {
      CollectKeepsAll(ps);
    } else if forall p :: p in ps ==> p.Ok? {
      AllOkCollects(ps);
    }
  }

  lemma ProposalsAreNonNegative(cfg: Config, t: Target, o: Observation, now: int, m: Metric, i: nat)
    requires cfg.modulo > 0 && t.spec >= 0 && Proposal(cfg, t, o, now, m, i).Ok?
    ensures Proposal(cfg, t, o, now, m, i).value.replicas >= 0
  {
    var r := if i < |o.readings| then o.readings[i] else NoReading;
    if m.kind.External? {
      var ready := AvailableReady(cfg, t.status, o, now).value;
      ProposalIsNonNegative(cfg, t.spec, ready, Sum(r.values), m.low, m.high, o.nonFinite);
    } else {
      var tags := Tags(cfg, o.pods.value, r.usage, m.name == "cpu");
      ProposalIsNonNegative(cfg, t.spec, |NamesIn(tags, Counted)|, Total(r.usage - NamesIn(tags, Ignored)),
                            m.low, m.high, o.nonFinite);
    }
  }

  /** The plan is the largest of the metrics' proposals; all but its flags comes from one metric that made it, the
      first one if it is positive. */
  ghost predicate IsLargest(plan: Calc, ps: seq<Outcome<Calc>>) {
    && (exists m :: 0 <= m < |ps| && ps[m].Ok? && plan == ps[m].value.(above := plan.above, below := plan.below)
                    && (plan.replicas > 0 ==>
                          forall l :: 0 <= l < m ==> ps[l].Ok? && ps[l].value.replicas < plan.replicas))
    && forall m :: 0 <= m < |ps| ==> ps[m].Ok? && ps[m].value.replicas <= plan.replicas
  }

  /** computeReplicas yields the maximum of the metrics' proposals, with name, timestamp and ready count of one
      metric that attains it; without metrics it yields 0. */
  lemma PlanIsLargest(cfg: Config, t: Target, o: Observation, now: int)
    requires cfg.modulo > 0 && cfg.source.Metrics? && t.spec >= 0 && ComputeReplicas(cfg, t, o, now).Ok?
    ensures cfg.source.metrics == [] ==> ComputeReplicas(cfg, t, o, now).value == NOTHING
    ensures cfg.source.metrics != [] ==> IsLargest(ComputeReplicas(cfg, t, o, now).value, Proposals(cfg, t, o, now))
  {
    var ps := Proposals(cfg, t, o, now);
    var cs := Collect(ps).value;
    CollectKeepsAll(ps);
    if cs != [] {
      forall i | 0 <= i < |cs| ensures cs[i].replicas >= 0 {
        assert ps[i] == Proposal(cfg, t, o, now, cfg.source.metrics[i], i) == Ok(cs[i]);
        ProposalsAreNonNegative(cfg, t, o, now, cfg.source.metrics[i], i);
      }
      NonNegativeMergeIsMaximum(cs);
      var w := FirstLargest(cs);
      assert ps[w] == Ok(cs[w]);
    }
  }

  lemma SingleMetric(cfg: Config, m: Metric, t: Target, o: Observation, now: int)
    requires cfg.modulo > 0 && cfg.source == Metrics([m])
    ensures ComputeReplicas(cfg, t, o, now) == Proposal(cfg, t, o, now, m, 0)
  {
    var p := Proposal(cfg, t, o, now, m, 0);
    assert Proposals(cfg, t, o, now) == [p];
    SingleOutcome(p);
  }

  lemma SingleOutcome(p: Outcome<Calc>)
    ensures Collect([p]) == if p.Ok? then Ok([p.value]) else if p.Err? then Err else Panic
    ensures p.Ok? ==> Merge([p.value]) == p.value
  {
    assert [p][..0] == [];
    if p.Ok? {
      var none: seq<Calc> := [];
      assert none + [p.value] == [p.value];
      assert [p.value][..0] == none;
    }
  }

  /** A plan that carries the metric's own name, the reading's timestamp, the given ready count, and numbers
      justified by the metric sum. */
  ghost predicate Reports(cfg: Config, spec: int, m: Metric, timestamp: int, ready: int, sum: int, c: Calc)
    requires cfg.modulo > 0
  {
    && c.name == m.name && c.timestamp == timestamp && c.ready == ready
    && Justified(cfg, spec, ready, sum, m.low, m.high, Count(c.replicas, c.above, c.below))
  }

  /** An external reading, unless it is a zero that is not tolerated, yields a plan justified by the sum of its
      values. */
  lemma ExternalProposal(cfg: Config, t: Target, m: Metric, r: Reading, o: Observation, now: int)
    requires ValidConfig(cfg) && 0 <= m.low <= m.high && r.ExternalValues? && AvailableReady(cfg, t.status, o, now).Ok?
    requires Sum(r.values) != 0 || cfg.tolerateZero
    ensures var c, ready := ExternalReplicas(cfg, t, m, r, o, now), AvailableReady(cfg, t.status, o, now).value;
            c.Ok? && Reports(cfg, t.spec, m, r.timestamp, ready, Sum(r.values), c.value)
  {
    var ready := AvailableReady(cfg, t.status, o, now).value;
    ProposalIsJustified(cfg, t.spec, ready, Sum(r.values), m.low, m.high, o.nonFinite);
  }

  /** When the resource path succeeds, its plan is justified by the usage of the pods that are not ignored. */
  lemma ResourceProposal(cfg: Config, t: Target, m: Metric, r: Reading, o: Observation)
    requires ValidConfig(cfg) && 0 <= m.low <= m.high && ResourceReplicas(cfg, t, m, r, o).Ok?
    ensures var tags := Tags(cfg, o.pods.value, r.usage, m.name == "cpu");
            Reports(cfg, t.spec, m, r.timestamp, |NamesIn(tags, Counted)|, Total(r.usage - NamesIn(tags, Ignored)),
                    ResourceReplicas(cfg, t, m, r, o).value)
  {
    var tags := Tags(cfg, o.pods.value, r.usage, m.name == "cpu");
    ProposalIsJustified(cfg, t.spec, |NamesIn(tags, Counted)|, Total(r.usage - NamesIn(tags, Ignored)), m.low, m.high,
                        o.nonFinite);
  }

  /** The recommender was reached and answered. */
  ghost predicate Answered(cfg: Config, t: Target, o: Observation, now: int) {
    var ready := AvailableReady(cfg, t.status, o, now);
    ready.Ok? && o.recommend(Request(ready.value, t.spec, cfg.min, cfg.max)).Some?
  }

  /** When the recommender answers anything but a zero that is not tolerated, the plan carries its name, the answer's
      timestamp and the ready count, and follows the answer. */
  lemma RecommenderProposal(cfg: Config, t: Target, o: Observation, now: int)
    requires cfg.modulo > 0 && cfg.source.Recommender? && cfg.source.hasLow && cfg.source.hasHigh
    requires Answered(cfg, t, o, now)
    requires var ready := AvailableReady(cfg, t.status, o, now).value;
             o.recommend(Request(ready, t.spec, cfg.min, cfg.max)).value.replicas != 0 || cfg.tolerateZero
    ensures var c, ready := ComputeReplicas(cfg, t, o, now), AvailableReady(cfg, t.status, o, now).value;
            var reco := o.recommend(Request(ready, t.spec, cfg.min, cfg.max)).value;
            && c.Ok? && c.value.name == cfg.source.name && c.value.timestamp == reco.timestamp && c.value.ready == ready
            && Follows(cfg, t.spec, reco.replicas, reco.lower, reco.upper,
                       Count(c.value.replicas, c.value.above, c.value.below))
  {
    var ready := AvailableReady(cfg, t.status, o, now).value;
    var reco := o.recommend(Request(ready, t.spec, cfg.min, cfg.max)).value;
    RecommendationIsFollowed(cfg, t.spec, reco.replicas, reco.lower, reco.upper);
  }

  /** The resource path panics exactly when every listed pod is ignored. */
  lemma ResourcePanicsExactly(cfg: Config, t: Target, m: Metric, usage: map<string, int>, at: int, o: Observation)
    requires cfg.modulo > 0 && o.pods.Some? && o.pods.value != []
    requires UniqueNames(Tags(cfg, o.pods.value, usage, m.name == "cpu"))
    ensures ResourceReplicas(cfg, t, m, ResourceUsage(usage, at), o).Panic?
            <==> AllIn(Tags(cfg, o.pods.value, usage, m.name == "cpu"), Ignored)
  {
    GroupFills(Tags(cfg, o.pods.value, usage, m.name == "cpu"), Ignored);
  }
}
