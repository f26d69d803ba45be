/** From a user-written spec to the configuration the controller works from: defaulting, validation, and the
    completion of missing watermarks. */
module SpecPipeline {
  import opened Types
  import opened Calculator

  datatype MetricSource = MetricSource(name: string, hasSelector: bool, low: Option<int>, high: Option<int>)

  datatype RawMetric = RawMetric(kind: string, external: Option<MetricSource>, resource: Option<MetricSource>)

  datatype RecommenderSource = RecommenderSource(name: string, hasLow: bool, hasHigh: bool)

  /** The fields that defaulting and validation look at; rest carries everything else unchanged. */
  datatype RawSpec = RawSpec(
    targetKind: string,
    targetName: string,
    min: Option<int>,
    max: int,
    modulo: Option<int>,
    algorithm: string,
    tolerance: int,
    upFactor: Option<int>,
    downFactor: Option<int>,
    upWindow: int,
    downWindow: int,
    recommender: Option<RecommenderSource>,
    metrics: seq<RawMetric>,
    rest: Config)

  // ---------- Defaulting ----------

  const DEFAULT_TOLERANCE := 100
  const DEFAULT_DOWN_WINDOW := 300
  const DEFAULT_UP_WINDOW := 60
  const DEFAULT_DOWN_FACTOR := 20000
  const DEFAULT_UP_FACTOR := 50000
  const DEFAULT_ALGORITHM := "absolute"

  function OrElse(o: Option<int>, d: int): Option<int> { if o.None? then Some(d) else o }

  function Default(s: RawSpec): RawSpec {
    s.(min := OrElse(s.min, 1),
       modulo := OrElse(s.modulo, 1),
       algorithm := if s.algorithm == "" then DEFAULT_ALGORITHM else s.algorithm,
       tolerance := if s.tolerance == 0 then DEFAULT_TOLERANCE else s.tolerance,
       upFactor := OrElse(s.upFactor, DEFAULT_UP_FACTOR),
       downFactor := OrElse(s.downFactor, DEFAULT_DOWN_FACTOR),
       downWindow := if s.downWindow == 0 then DEFAULT_DOWN_WINDOW else s.downWindow,
       upWindow := if s.upWindow == 0 then DEFAULT_UP_WINDOW else s.upWindow)
  }

  predicate IsDefault(s: RawSpec) {
    && s.min.Some? && s.algorithm != "" && s.tolerance != 0
    && s.upFactor.Some? && s.downFactor.Some?
    && s.downWindow != 0 && s.modulo.Some? && s.upWindow != 0
  }

  /** Defaulting reaches its fixed point at once, and the check recognises exactly the fixed points: a WPA is
      requeued for defaulting at most once. */
  lemma DefaultingIsAFixedPoint(s: RawSpec)
    ensures IsDefault(Default(s))
    ensures Default(s) == s <==> IsDefault(s)
    ensures Default(Default(s)) == Default(s)
  {
    assert DEFAULT_ALGORITHM[0] == 'a';
    if IsDefault(s) {
      assert Default(s) == s;
    }
  }

  /** Defaulting fills gaps and nothing else: what the user set survives, whatever else is missing. */
  lemma DefaultFillsGaps(s: RawSpec)
    ensures var d := Default(s);
            && (if s.min.Some? then d.min == s.min else d.min == Some(1))
            && (if s.modulo.Some? then d.modulo == s.modulo else d.modulo == Some(1))
            && (if s.algorithm != "" then d.algorithm == s.algorithm else d.algorithm == "absolute")
            && (if s.tolerance != 0 then d.tolerance == s.tolerance else d.tolerance == 100)
            && (if s.upFactor.Some? then d.upFactor == s.upFactor else d.upFactor == Some(50000))
            && (if s.downFactor.Some? then d.downFactor == s.downFactor else d.downFactor == Some(20000))
            && (if s.upWindow != 0 then d.upWindow == s.upWindow else d.upWindow == 60)
            && (if s.downWindow != 0 then d.downWindow == s.downWindow else d.downWindow == 300)
            && d.targetKind == s.targetKind && d.targetName == s.targetName && d.max == s.max
            && d.recommender == s.recommender && d.metrics == s.metrics && d.rest == s.rest
  {
  }

  // ---------- Validation ----------

  datatype MetricError = NilSource | NoWatermarks | NoSelector | Inverted | UnknownKind

  datatype SpecError =
    | NoTarget | BadBounds | BadTolerance | NilFactor | NegativeUpFactor | BadDownFactor | TwoSources
    | BadMetric(index: nat, why: MetricError)

  function CheckSource(source: Option<MetricSource>): Option<MetricError> {
    match source
    case None => Some(NilSource)
    case Some(x) =>
      if x.low.None? && x.high.None? then Some(NoWatermarks)
      else if !x.hasSelector then Some(NoSelector)
      else if x.low.Some? && x.high.Some? && x.high.value < x.low.value then Some(Inverted)
      else None
  }

  function CheckMetric(m: RawMetric): Option<MetricError> {
    if m.kind == "External" then CheckSource(m.external)
    else if m.kind == "Resource" then CheckSource(m.resource)
    else Some(UnknownKind)
  }

  /** A metric is sound when its kind is known, its source is there with a selector and at least one watermark, and
      two watermarks are in order; otherwise the first of these that fails is named. */
  lemma CheckMetricIff(m: RawMetric)
    ensures var x := SourceOf(m);
            var known := m.kind == "External" || m.kind == "Resource";
            CheckMetric(m) ==
            if !known then Some(UnknownKind)
            else if x.None? then Some(NilSource)
            else if x.value.low == None == x.value.high then Some(NoWatermarks)
            else if !x.value.hasSelector then Some(NoSelector)
            else if exists l, h :: x.value.low == Some(l) && x.value.high == Some(h) && h < l then Some(Inverted)
            else None
  {
  }

  /** The first faulty metric, if any. */
  method CheckMetrics(metrics: seq<RawMetric>) returns (e: Option<SpecError>)
    ensures e.None? <==> forall i :: 0 <= i < |metrics| ==> CheckMetric(metrics[i]).None?
    ensures e.Some? ==>
              && e.value.BadMetric? && e.value.index < |metrics|
              && CheckMetric(metrics[e.value.index]) == Some(e.value.why)
              && forall i :: 0 <= i < e.value.index ==> CheckMetric(metrics[i]).None?
  {
    for i := 0 to |metrics|
      invariant forall j :: 0 <= j < i ==> CheckMetric(metrics[j]).None?
    {
      var why := CheckMetric(metrics[i]);
      if why.Some? {
        return Some(BadMetric(i, why.value));
      }
    }
    return None;
  }

  /** What a valid spec satisfies. */
  ghost predicate Sound(s: RawSpec) {
    && s.targetKind != "" && s.targetName != ""
    && s.min.Some? && s.min.value <= s.max
    && 0 <= s.tolerance <= 1000
    && s.upFactor.Some? && s.downFactor.Some? && 0 <= s.upFactor.value && 0 <= s.downFactor.value < 100000
    && !(s.recommender.Some? && s.metrics != [])
    && forall i :: 0 <= i < |s.metrics| ==> CheckMetric(s.metrics[i]).None?
  }

  /** The reported error is really there. */
  ghost predicate Explains(e: SpecError, s: RawSpec) {
    match e
    case NoTarget => s.targetKind == "" || s.targetName == ""
    case BadBounds => s.min.None? || s.max < s.min.value
    case BadTolerance => !(0 <= s.tolerance <= 1000)
    case NilFactor => s.upFactor.None? || s.downFactor.None?
    case NegativeUpFactor => s.upFactor.Some? && s.upFactor.value < 0
    case BadDownFactor => s.downFactor.Some? && !(0 <= s.downFactor.value < 100000)
    case TwoSources => s.recommender.Some? && s.metrics != []
    case BadMetric(i, why) => i < |s.metrics| && CheckMetric(s.metrics[i]) == Some(why)
  }

  /** The order in which errors are looked for. */
  function Rank(e: SpecError): nat {
    match e
    case NoTarget => 0
    case BadBounds => 1
    case BadTolerance => 2
    case NilFactor => 3
    case NegativeUpFactor => 4
    case BadDownFactor => 5
    case TwoSources => 6
    case BadMetric(i, _) => 7 + i
  }

  /** A sound spec passes; otherwise the first error in the order is reported. */
  method CheckValidity(s: RawSpec) returns (e: Option<SpecError>)
    ensures e.None? <==> Sound(s)
    ensures e.Some? ==> Explains(e.value, s)
    ensures e.Some? ==> forall f :: Rank(f) < Rank(e.value) ==> !Explains(f, s)
  {
    if s.targetKind == "" || s.targetName == "" {
      return Some(NoTarget);
    }
    if s.min.None? || s.max < s.min.value {
      return Some(BadBounds);
    }
    if s.tolerance > 1000 || s.tolerance < 0 {
      return Some(BadTolerance);
    }
    if s.upFactor.None? || s.downFactor.None? {
      return Some(NilFactor);
    }
    if s.upFactor.value < 0 {
      return Some(NegativeUpFactor);
    }
    if s.downFactor.value >= 100000 || s.downFactor.value < 0 {
      return Some(BadDownFactor);
    }
    if s.recommender.Some? && |s.metrics| > 0 {
      return Some(TwoSources);
    }
    e := CheckMetrics(s.metrics);
  }

  // ---------- Missing watermarks ----------

  function Complete(x: MetricSource): MetricSource {
    if x.low.None? && x.high.Some? then x.(low := x.high)
    else if x.high.None? && x.low.Some? then x.(high := x.low)
    else x
  }

  function Fill(m: RawMetric): RawMetric {
    if m.kind == "External" && m.external.Some? then m.(external := Some(Complete(m.external.value)))
    else if m.kind == "Resource" && m.resource.Some? then m.(resource := Some(Complete(m.resource.value)))
    else m
  }

  /** fillMissingWatermark: updates the metrics of the spec one by one. */
  method FillMissingWatermark(metrics: seq<RawMetric>) returns (r: seq<RawMetric>)
    ensures |r| == |metrics| && forall i :: 0 <= i < |r| ==> r[i] == Fill(metrics[i])
  {
    r := metrics;
    for i := 0 to |metrics|
      invariant |r| == |metrics|
      invariant forall j :: 0 <= j < i ==> r[j] == Fill(metrics[j])
      invariant forall j :: i <= j < |r| ==> r[j] == metrics[j]
    {
      var m := r[i];
      if m.kind == "External" {
        if m.external.Some? {
          if m.external.value.low.None? && m.external.value.high.Some? {
            m := m.(external := Some(m.external.value.(low := m.external.value.high)));
          }
          if m.external.value.high.None? && m.external.value.low.Some? {
            m := m.(external := Some(m.external.value.(high := m.external.value.low)));
          }
        }
      } else if m.kind == "Resource" {
        if m.resource.Some? {
          if m.resource.value.low.None? && m.resource.value.high.Some? {
            m := m.(resource := Some(m.resource.value.(low := m.resource.value.high)));
          }
          if m.resource.value.high.None? && m.resource.value.low.Some? {
            m := m.(resource := Some(m.resource.value.(high := m.resource.value.low)));
          }
        }
      }
      r := r[i := m];
    }
  }

  // ---------- The whole pipeline ----------

  /** The minimums the custom resource definition enforces; an omitted field reads as 0 or None. */
  ghost predicate Admitted(s: RawSpec) {
    && (s.min.Some? ==> s.min.value >= 1) && (s.modulo.Some? ==> s.modulo.value >= 1)
    && s.upWindow >= 0 && s.downWindow >= 0 && s.rest.upDelay >= 0 && s.rest.downDelay >= 0
  }

  function SourceOf(m: RawMetric): Option<MetricSource> { if m.kind == "External" then m.external else m.resource }

  /** A completed metric keeps kind, name and the watermarks it had; a missing one equals the other, and they are in
      order. */
  ghost predicate IsCompletion(raw: RawMetric, m: Metric) {
    var x := SourceOf(raw);
    && x.Some? && (x.value.low.Some? || x.value.high.Some?)
    && m.name == x.value.name && (m.kind.External? <==> raw.kind == "External")
    && (x.value.low.Some? ==> m.low == x.value.low.value)
    && (x.value.high.Some? ==> m.high == x.value.high.value)
    && (x.value.low.None? || x.value.high.None? ==> m.low == m.high)
    && m.low <= m.high
  }

  /** The metric the controller works with, once the spec is valid and its watermarks are filled. */
  function Resolve(m: RawMetric): (r: Metric)
    requires CheckMetric(m).None?
    ensures IsCompletion(m, r)
  {
    var x := SourceOf(Fill(m)).value;
    Metric(if m.kind == "External" then External else Resource, x.name, x.low.value, x.high.value)
  }

  ghost function Configure(s: RawSpec): Config
    requires Sound(s) && s.modulo.Some?
  {
    var source :=
      if s.recommender.Some? then
        Recommender(s.recommender.value.name, s.recommender.value.hasLow, s.recommender.value.hasHigh)
      else Metrics(seq(|s.metrics|, i requires 0 <= i < |s.metrics| => Resolve(s.metrics[i])));
    s.rest.(targetName := s.targetName, min := s.min.value, max := s.max, tolerance := s.tolerance,
            upFactor := s.upFactor.value, downFactor := s.downFactor.value,
            upWindow := s.upWindow, downWindow := s.downWindow,
            modulo := s.modulo.value, average := s.algorithm == "average", source := source)
  }

  /** A spec that the API server admits and that passes validation after defaulting yields a configuration the
      whole controller model can rely on; its metrics are the completed metrics of the spec, in order. A recommender
      need not have watermarks, and there need not be any metric. */
  lemma PipelineYieldsValidConfig(s: RawSpec)
    requires Admitted(s) && Sound(Default(s))
    ensures var cfg := Configure(Default(s));
            && ValidConfig(cfg)
            && (cfg.source.Recommender? <==> s.recommender.Some?)
            && match cfg.source
               case Metrics(ms) =>
                 |ms| == |s.metrics| && forall i :: 0 <= i < |ms| ==> IsCompletion(s.metrics[i], ms[i])
               case Recommender(name, hasLow, hasHigh) =>
                 s.metrics == [] && s.recommender == Some(RecommenderSource(name, hasLow, hasHigh))
  {
  }

  /** Every field the user set, or its default, reaches the controller in its own place. */
  lemma SpecReachesController(s: RawSpec)
    requires Admitted(s) && Sound(Default(s))
    ensures var cfg, rest := Configure(Default(s)), s.rest;
            && cfg.targetName == s.targetName && cfg.max == s.max
            && cfg.min == (if s.min.Some? then s.min.value else 1)
            && cfg.modulo == (if s.modulo.Some? then s.modulo.value else 1)
            && cfg.tolerance == (if s.tolerance != 0 then s.tolerance else 100)
            && cfg.upFactor == (if s.upFactor.Some? then s.upFactor.value else 50000)
            && cfg.downFactor == (if s.downFactor.Some? then s.downFactor.value else 20000)
            && cfg.upWindow == (if s.upWindow != 0 then s.upWindow else 60)
            && cfg.downWindow == (if s.downWindow != 0 then s.downWindow else 300)
            && (cfg.average <==> s.algorithm == "average")
            && cfg.upDelay == rest.upDelay && cfg.downDelay == rest.downDelay && cfg.converge == rest.converge
            && cfg.tolerateZero == rest.tolerateZero && cfg.dryRun == rest.dryRun
            && cfg.minAvailable == rest.minAvailable && cfg.readinessDelay == rest.readinessDelay
            && cfg.skipOwnerCheck == rest.skipOwnerCheck && cfg.skipNotScalingEvents == rest.skipNotScalingEvents
  {
    DefaultFillsGaps(s);
  }

  /** For non-negative watermarks the tolerance widens the band on both sides, so the pipeline leaves no metric
      that could be above and below at once. */
  lemma BandIsOrdered(s: RawSpec, i: nat)
    requires Admitted(s) && Sound(Default(s)) && s.recommender.None? && i < |s.metrics|
    requires SourceOf(s.metrics[i]).Some?
    requires var x := SourceOf(s.metrics[i]).value;
             (x.low.Some? ==> x.low.value >= 0) && (x.high.Some? ==> x.high.value >= 0)
    ensures var cfg := Configure(Default(s));
            && cfg.source.Metrics? && i < |cfg.source.metrics|
            && var m := cfg.source.metrics[i];
               AdjustedLow(m.low, cfg.tolerance) <= m.low <= m.high <= AdjustedHigh(m.high, cfg.tolerance)
  {
    PipelineYieldsValidConfig(s);
    var m := Configure(Default(s)).source.metrics[i];
    assert IsCompletion(s.metrics[i], m);
    ToleranceWidensBand(m.low, m.high, Default(s).tolerance);
  }
}
