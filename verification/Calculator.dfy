/** The arithmetic of replica_calculator.go: from usage and watermarks to a replica proposal. */
module Calculator {
  import opened Math32
  import opened Types

  datatype Count = Count(replicas: int, above: bool, below: bool)

  /** Scales a count up to the next multiple of the modulo; negative counts are left alone. */
  function RoundToModulo(count: int, modulo: int): int
    requires modulo > 0
  {
    var remainder := Mod(count, modulo);
    if remainder > 0 then count + modulo - remainder else count
  }

  function AdjustForUpscale(cfg: Config, cur: int, count: int): int
    requires cfg.modulo > 0
  {
    var rounded := RoundToModulo(count, cfg.modulo);
    if rounded < cur then cur else rounded
  }

  function AdjustForDownscale(cfg: Config, cur: int, count: int): int
    requires cfg.modulo > 0
  {
    var rounded := RoundToModulo(count, cfg.modulo);
    if rounded > cur then cur else rounded
  }

  /** Replicas needed for the load of the ready pods at the given mark. */
  function Ratio(ready: int, usage: real, mark: int): real
    requires mark != 0
  {
    ready as real * usage / mark as real
  }

  function CountUpscale(cfg: Config, cur: int, ready: int, usage: real, high: int, nonFinite: int): int
    requires cfg.modulo > 0
  {
    AdjustForUpscale(cfg, cur, if high == 0 then nonFinite else Ceil(Ratio(ready, usage, high)))
  }

  function CountDownscale(cfg: Config, cur: int, ready: int, usage: real, low: int, nonFinite: int): int
    requires cfg.modulo > 0
  {
    AdjustForDownscale(cfg, cur, Max(if low == 0 then nonFinite else Floor(Ratio(ready, usage, low)), 1))
  }

  function TryToConverge(cfg: Config, cur: int, lower: int, upper: int): int
    requires cfg.modulo > 0
  {
    match cfg.converge
    case TowardsHigh =>
      var fewer := Max(cur - cfg.modulo, 1);
      if fewer < lower then cur else fewer
    case TowardsLow =>
      var more := cur + cfg.modulo;
      if more > upper then cur else more
    case Off => cur
  }

  /** need and room are the counts that the load fills at the high and at the low mark; a zero mark has none. */
  function ConvergeWithin(cfg: Config, cur: int, low: int, high: int, need: int, room: int): int
    requires cfg.modulo > 0
  {
    var min := if cfg.min > 0 then cfg.min else 1;
    var lower := if high == 0 then cur else Cap(need, min, cfg.max);
    var upper := if low == 0 then cur else Cap(room, min, cfg.max);
    TryToConverge(cfg, cur, lower, upper)
  }

  function TryToConvergeForUsage(cfg: Config, cur: int, ready: int, usage: real, low: int, high: int): int
    requires cfg.modulo > 0
  {
    ConvergeWithin(cfg, cur, low, high,
                   if high == 0 then 0 else Ceil(Ratio(ready, usage, high)),
                   if low == 0 then 0 else Floor(Ratio(ready, usage, low)))
  }

  function AdjustedHigh(high: int, tolerance: int): int { high + TruncDiv(high * tolerance, 1000) }

  function AdjustedLow(low: int, tolerance: int): int { low - TruncDiv(low * tolerance, 1000) }

  /** nonFinite stands for Go's unspecified int32 of an infinite or undefined quotient (a zero watermark). */
  function GetReplicaCount(
    cfg: Config, cur: int, ready: int, usage: real, low: int, high: int, nonFinite: int): Count
    requires cfg.modulo > 0
  {
    if usage > AdjustedHigh(high, cfg.tolerance) as real then
      Count(CountUpscale(cfg, cur, ready, usage, high, nonFinite), true, false)
    else if usage < AdjustedLow(low, cfg.tolerance) as real then
      Count(CountDownscale(cfg, cur, ready, usage, low, nonFinite), false, true)
    else
      Count(TryToConvergeForUsage(cfg, cur, ready, usage, low, high), false, false)
  }

  /** getReplicaCount for a sum divided by no ready pod at all: the usage is infinite, with the sign of the sum, or
      undefined, and every count derived from it converts to some nonFinite value, which is then capped as usual. */
  function GetReplicaCountNoneReady(cfg: Config, cur: int, sum: int, low: int, high: int, nonFinite: int): Count
    requires cfg.modulo > 0
  {
    if sum > 0 then Count(AdjustForUpscale(cfg, cur, nonFinite), true, false)
    else if sum < 0 then Count(AdjustForDownscale(cfg, cur, Max(nonFinite, 1)), false, true)
    else Count(ConvergeWithin(cfg, cur, low, high, nonFinite, nonFinite), false, false)
  }

  /** The sum is shared among the ready pods by the average algorithm only. */
  function Divisor(cfg: Config, ready: int): int { if cfg.average then ready else 1 }

  /** The count proposed for a metric sum. */
  function Propose(cfg: Config, cur: int, ready: nat, sum: int, low: int, high: int, nonFinite: int): Count
    requires cfg.modulo > 0
  {
    if Divisor(cfg, ready) == 0 then GetReplicaCountNoneReady(cfg, cur, sum, low, high, nonFinite)
    else GetReplicaCount(cfg, cur, ready, sum as real / Divisor(cfg, ready) as real, low, high, nonFinite)
  }

  /** Recommender counterpart: the recommended count and its bounds replace usage and watermarks. */
  function AdjustReplicaCount(cfg: Config, cur: int, recommended: int, lower: int, upper: int): Count
    requires cfg.modulo > 0
  {
    if recommended > cur then
      Count(AdjustForUpscale(cfg, cur, recommended), cur < lower, cur > upper)
    else if recommended < cur then
      Count(AdjustForDownscale(cfg, cur, recommended), cur < lower, cur > upper)
    else
      Count(TryToConverge(cfg, cur, lower, upper), false, false)
  }

  // ---------- Proposals are optimal ----------

  lemma RoundingIsMultiple(count: int, modulo: int)
    requires modulo > 0 && count >= 0
    ensures var t := RoundToModulo(count, modulo); t % modulo == 0 && count <= t < count + modulo
  {
    var q, r := count / modulo, count % modulo;
    if r > 0 {
      var t := count + modulo - r;
      assert t == modulo * (q + 1);
      MultipleHasNoRemainder(modulo, q + 1);
    }
  }

  /** Rounding an exact count yields the least multiple at or above it, unless it is negative: then it is kept. */
  lemma RoundingIsLeast(x: real, modulo: int)
    requires modulo > 0
    ensures x >= 0.0 ==> Ceil(x) >= 0
    ensures Ceil(x) >= 0 ==> IsLeastMultiple(RoundToModulo(Ceil(x), modulo), modulo, x)
    ensures Ceil(x) < 0 ==> RoundToModulo(Ceil(x), modulo) == Ceil(x)
  {
    var count := Ceil(x);
    CeilIsLeast(x, -1);
    if count >= 0 {
      RoundingIsLeastUp(x, modulo);
    }
  }

  lemma RoundingIsLeastUp(x: real, modulo: int)
    requires modulo > 0 && Ceil(x) >= 0
    ensures IsLeastMultiple(RoundToModulo(Ceil(x), modulo), modulo, x)
  {
    var count := Ceil(x);
    var t := RoundToModulo(count, modulo);
    RoundingIsMultiple(count, modulo);
    CeilIsLeast(x, t);
    forall k: int | MultipleAtLeast(k, modulo, x)
      ensures t <= k
    {
      CeilIsLeast(x, k);
      if k < t {
        MultiplesApart(k, t, modulo);
      }
    }
  }

  /** n is a wanted count rounded up to the modulo, but not below the current one. */
  ghost predicate IsCappedUpscale(cfg: Config, cur: int, wanted: int, n: int)
    requires cfg.modulo > 0
  {
    if wanted < 0 then n == Max(cur, wanted)
    else exists target :: IsLeastMultiple(target, cfg.modulo, wanted as real) && n == Max(cur, target)
  }

  /** n is a wanted count, at least 1, rounded up to the modulo, but not above the current one. */
  ghost predicate IsCappedDownscale(cfg: Config, cur: int, wanted: int, n: int)
    requires cfg.modulo > 0
  {
    exists target :: IsLeastMultiple(target, cfg.modulo, Max(wanted, 1) as real) && n == Min(cur, target)
  }

  lemma UpscaleIsCapped(cfg: Config, cur: int, wanted: int)
    requires cfg.modulo > 0
    ensures IsCappedUpscale(cfg, cur, wanted, AdjustForUpscale(cfg, cur, wanted))
  {
    assert Ceil(wanted as real) == wanted;
    RoundingIsLeast(wanted as real, cfg.modulo);
    assert AdjustForUpscale(cfg, cur, wanted) == Max(cur, RoundToModulo(wanted, cfg.modulo));
  }

  lemma DownscaleIsCapped(cfg: Config, cur: int, wanted: int)
    requires cfg.modulo > 0
    ensures IsCappedDownscale(cfg, cur, wanted, AdjustForDownscale(cfg, cur, Max(wanted, 1)))
  {
    var whole := Max(wanted, 1);
    assert Ceil(whole as real) == whole;
    RoundingIsLeast(whole as real, cfg.modulo);
    assert AdjustForDownscale(cfg, cur, whole) == Min(cur, RoundToModulo(whole, cfg.modulo));
  }

  /** Without a ready pod to share it, a positive sum asks for more and a negative one for fewer replicas, capped as
      usual, whatever the undefined quotient is converted to. */
  lemma NoneReadyIsCapped(cfg: Config, cur: int, sum: int, low: int, high: int, nonFinite: int)
    requires cfg.modulo > 0
    ensures var c := GetReplicaCountNoneReady(cfg, cur, sum, low, high, nonFinite);
            && (c.above <==> sum > 0) && (c.below <==> sum < 0)
            && (c.above ==> IsCappedUpscale(cfg, cur, nonFinite, c.replicas))
            && (c.below ==> IsCappedDownscale(cfg, cur, nonFinite, c.replicas))
            && (sum == 0 && cfg.converge.Off? ==> c.replicas == cur)
  {
    UpscaleIsCapped(cfg, cur, nonFinite);
    DownscaleIsCapped(cfg, cur, nonFinite);
  }

  /** With a zero watermark the caps apply to whatever count the quotient is converted to. */
  lemma ZeroMarkIsCapped(cfg: Config, cur: int, ready: nat, usage: real, nonFinite: int)
    requires cfg.modulo > 0
    ensures IsCappedUpscale(cfg, cur, nonFinite, CountUpscale(cfg, cur, ready, usage, 0, nonFinite))
    ensures IsCappedDownscale(cfg, cur, nonFinite, CountDownscale(cfg, cur, ready, usage, 0, nonFinite))
  {
    UpscaleIsCapped(cfg, cur, nonFinite);
    DownscaleIsCapped(cfg, cur, nonFinite);
  }

  /** Above the high watermark the proposal is the larger of the current count and the fewest replicas, in
      multiples of the modulo, that carry the load at the high watermark; with a zero watermark, whose quotient is
      not finite, ZeroMarkIsCapped says what holds of the count it is converted to. */
  lemma UpscaleIsOptimal(cfg: Config, cur: int, ready: nat, usage: real, high: int, nonFinite: int)
    requires cfg.modulo > 0
    ensures CountUpscale(cfg, cur, ready, usage, high, nonFinite) >= cur
    ensures high > 0 && usage >= 0.0 ==>
              exists target :: IsLeastMultiple(target, cfg.modulo, Ratio(ready, usage, high))
                               && CountUpscale(cfg, cur, ready, usage, high, nonFinite) == Max(cur, target)
  {
    if high > 0 && usage >= 0.0 {
      RatioNonNegative(ready, usage, high);
      RoundingIsLeast(Ratio(ready, usage, high), cfg.modulo);
    }
  }

  /** Below the low watermark the proposal is the smaller of the current count and the least multiple of the
      modulo that reaches both 1 and the whole number of replicas the load would fill at the low watermark; with a
      zero watermark it still lies between 1 and the current count, if that is positive. */
  lemma DownscaleIsOptimal(cfg: Config, cur: int, ready: nat, usage: real, low: int, nonFinite: int)
    requires cfg.modulo > 0
    ensures Min(cur, 1) <= CountDownscale(cfg, cur, ready, usage, low, nonFinite) <= cur
    ensures low > 0 ==>
              exists target ::
                && IsLeastMultiple(target, cfg.modulo, Max(1, Floor(Ratio(ready, usage, low))) as real)
                && CountDownscale(cfg, cur, ready, usage, low, nonFinite) == Min(cur, target)
  {
    var whole := Max(if low == 0 then nonFinite else Floor(Ratio(ready, usage, low)), 1);
    RoundingIsMultiple(whole, cfg.modulo);
    assert Ceil(whole as real) == whole;
    RoundingIsLeast(whole as real, cfg.modulo);
    assert CountDownscale(cfg, cur, ready, usage, low, nonFinite) == Min(cur, RoundToModulo(whole, cfg.modulo));
  }

  lemma RatioNonNegative(ready: nat, usage: real, mark: int)
    requires mark > 0 && usage >= 0.0
    ensures Ratio(ready, usage, mark) >= 0.0
  {
    assert ready as real * usage >= 0.0;
    var p := ready as real * usage;
    assert p / mark as real >= 0.0;
  }

  /** With the average algorithm the target depends on the metric sum alone, not on how many pods are ready. */
  lemma AverageCancelsReady(ready: int, sum: int, mark: int)
    requires ready > 0 && mark != 0
    ensures Ratio(ready, sum as real / ready as real, mark) == sum as real / mark as real
  {
    var u := sum as real / ready as real;
    assert ready as real * u == sum as real;
  }

  lemma AverageAgainstMark(load: int, n: int, mark: int)
    requires n > 0
    ensures load as real / n as real > mark as real <==> load > mark * n
    ensures load as real / n as real < mark as real <==> load < mark * n
  {
    var u := load as real / n as real;
    assert u * n as real == load as real;
    assert mark as real * n as real == (mark * n) as real;
    if u > mark as real {
      assert u * n as real > mark as real * n as real;
    } else if u < mark as real {
      assert u * n as real < mark as real * n as real;
    }
  }

  // ---------- Watermarks ----------

  /** a is the high watermark enlarged by the tolerance, in per mille, rounded down. */
  ghost predicate IsUpperMark(a: int, high: int, tolerance: int) {
    1000 * a <= high * (1000 + tolerance) < 1000 * (a + 1)
  }

  /** a is the low watermark reduced by the tolerance, rounded up. */
  ghost predicate IsLowerMark(a: int, low: int, tolerance: int) {
    1000 * (a - 1) < low * (1000 - tolerance) <= 1000 * a
  }

  /** The adjusted marks are the watermarks enlarged and reduced by the whole tolerance, truncated towards the band. */
  lemma MarksAreProportional(low: int, high: int, tolerance: int)
    requires 0 <= low && 0 <= high && 0 <= tolerance
    ensures IsUpperMark(AdjustedHigh(high, tolerance), high, tolerance)
    ensures IsLowerMark(AdjustedLow(low, tolerance), low, tolerance)
  {
    assert high * (1000 + tolerance) == 1000 * high + high * tolerance;
    assert low * (1000 - tolerance) == 1000 * low - low * tolerance;
    assert high * tolerance >= 0 && low * tolerance >= 0;
  }

  lemma ToleranceWidensBand(low: int, high: int, tolerance: int)
    requires 0 <= low <= high && 0 <= tolerance <= 1000
    ensures 0 <= AdjustedLow(low, tolerance) <= low <= high <= AdjustedHigh(high, tolerance)
  {
    assert 0 <= low * tolerance <= low * 1000;
    assert 0 <= high * tolerance;
    assert (low * 1000) / 1000 == low;
  }

  /** No single metric is both above and below: the three regimes are exactly those of the tolerance band. */
  lemma RegimesAreExclusive(cfg: Config, cur: int, ready: int, usage: real, low: int, high: int, nonFinite: int)
    requires cfg.modulo > 0 && 0 <= cfg.tolerance <= 1000 && 0 <= low <= high
    ensures var c := GetReplicaCount(cfg, cur, ready, usage, low, high, nonFinite);
            && !(c.above && c.below)
            && (c.above <==> usage > AdjustedHigh(high, cfg.tolerance) as real)
            && (c.below <==> usage < AdjustedLow(low, cfg.tolerance) as real)
  {
    ToleranceWidensBand(low, high, cfg.tolerance);
  }

  // ---------- Converging inside the band ----------

  /** The count a converge step aims for. */
  function NextStop(cfg: Config, cur: int): int {
    match cfg.converge
    case TowardsHigh => Max(cur - cfg.modulo, 1)
    case TowardsLow => cur + cfg.modulo
    case Off => cur
  }

  /** Stopping at n keeps the load within the watermark that is being approached, and the count within its bounds. */
  ghost predicate SafeStop(cfg: Config, load: real, low: int, high: int, n: int) {
    match cfg.converge
    case TowardsHigh => high > 0 && cfg.min <= n && load <= n as real * high as real
    case TowardsLow => low > 0 && n <= cfg.max && n as real * low as real <= load
    case Off => true
  }

  /** What convergence must do inside the band: take the step exactly when it is safe. */
  ghost predicate ConvergesSafely(cfg: Config, cur: int, load: real, low: int, high: int, n: int) {
    n == if SafeStop(cfg, load, low, high, NextStop(cfg, cur)) then NextStop(cfg, cur) else cur
  }

  /** A converge step is taken if and only if the predicted usage stays within the watermark that is being
      approached and the count between min and max. */
  lemma ConvergeStepIffSafe(cfg: Config, cur: int, load: real, low: int, high: int)
    requires ValidConfig(cfg) && cfg.min <= cur <= cfg.max && low >= 0 && high >= 0
    ensures ConvergesSafely(cfg, cur, load, low, high,
                            ConvergeWithin(cfg, cur, low, high,
                                           if high == 0 then 0 else Ceil(load / high as real),
                                           if low == 0 then 0 else Floor(load / low as real)))
  {
    var stop := NextStop(cfg, cur);
    if cfg.converge.TowardsHigh? && high > 0 {
      CeilQuotient(load, high, stop);
    } else if cfg.converge.TowardsLow? && low > 0 {
      FloorQuotient(load, low, stop);
    }
  }

  // ---------- Recommendations ----------

  /** A converge step that stays within the recommended bounds. */
  predicate StopIsRecommended(cfg: Config, lower: int, upper: int, n: int) {
    match cfg.converge
    case TowardsHigh => n >= lower
    case TowardsLow => n <= upper
    case Off => true
  }

  /** What a recommendation must lead to: it is followed up to the modulo and the current count, a negative one as it
      is; one that equals the count leads to a converge step exactly when its bounds allow it; and the flags compare
      the count with the bounds. */
  ghost predicate Follows(cfg: Config, cur: int, recommended: int, lower: int, upper: int, c: Count)
    requires cfg.modulo > 0
  {
    && (recommended > cur && recommended >= 0 ==> IsLeastMultiple(c.replicas, cfg.modulo, recommended as real))
    && (recommended < cur && recommended >= 0 ==>
          exists target :: IsLeastMultiple(target, cfg.modulo, recommended as real) && c.replicas == Min(cur, target))
    && (recommended != cur && recommended < 0 ==> c.replicas == recommended)
    && (recommended == cur ==>
          c.replicas == if StopIsRecommended(cfg, lower, upper, NextStop(cfg, cur)) then NextStop(cfg, cur) else cur)
    && (c.above <==> recommended != cur && cur < lower)
    && (c.below <==> recommended != cur && cur > upper)
  }

  lemma RecommendationIsFollowed(cfg: Config, cur: int, recommended: int, lower: int, upper: int)
    requires cfg.modulo > 0
    ensures Follows(cfg, cur, recommended, lower, upper, AdjustReplicaCount(cfg, cur, recommended, lower, upper))
  {
    assert Ceil(recommended as real) == recommended;
    RoundingIsLeast(recommended as real, cfg.modulo);
    if recommended >= 0 {
      RoundingIsMultiple(recommended, cfg.modulo);
      var target := RoundToModulo(recommended, cfg.modulo);
      assert IsLeastMultiple(target, cfg.modulo, recommended as real);
      assert AdjustForDownscale(cfg, cur, recommended) == Min(cur, target);
    }
  }

  // ---------- Proposals in terms of the metric sum ----------

  /** What the marks are measured against: the sum itself, or the sum for every ready pod. */
  function Load(cfg: Config, ready: int, sum: int): real {
    if cfg.average then sum as real else ready as real * sum as real
  }

  lemma RatioIsLoad(cfg: Config, ready: int, sum: int, mark: int)
    requires Divisor(cfg, ready) > 0 && mark != 0
    ensures Ratio(ready, sum as real / Divisor(cfg, ready) as real, mark) == Load(cfg, ready, sum) / mark as real
  {
    if cfg.average {
      AverageCancelsReady(ready, sum, mark);
    }
  }

  /** The regime of a metric sum: above exactly beyond the enlarged high mark, below exactly under the reduced low one,
      for each pod that shares the sum. */
  ghost predicate IsRegime(cfg: Config, ready: int, sum: int, low: int, high: int, above: bool, below: bool) {
    && (exists a :: IsUpperMark(a, high, cfg.tolerance) && (above <==> sum > a * Divisor(cfg, ready)))
    && (exists a :: IsLowerMark(a, low, cfg.tolerance) && (below <==> sum < a * Divisor(cfg, ready)))
  }

  /** For one divisor the regime is a plain comparison with the exact tolerance. */
  lemma RegimeOfAbsoluteSum(cfg: Config, ready: int, sum: int, low: int, high: int, above: bool, below: bool)
    requires IsRegime(cfg, ready, sum, low, high, above, below) && Divisor(cfg, ready) == 1
    ensures above <==> 1000 * sum > high * (1000 + cfg.tolerance)
    ensures below <==> 1000 * sum < low * (1000 - cfg.tolerance)
  {
    var a :| IsUpperMark(a, high, cfg.tolerance) && (above <==> sum > a * Divisor(cfg, ready));
    var b :| IsLowerMark(b, low, cfg.tolerance) && (below <==> sum < b * Divisor(cfg, ready));
    assert a * 1 == a && b * 1 == b;
  }

  lemma RegimeAgainstMarks(cfg: Config, cur: int, ready: nat, sum: int, low: int, high: int, nonFinite: int)
    requires ValidConfig(cfg) && 0 <= low <= high
    ensures var c := Propose(cfg, cur, ready, sum, low, high, nonFinite);
            && (c.above <==> sum > AdjustedHigh(high, cfg.tolerance) * Divisor(cfg, ready))
            && (c.below <==> sum < AdjustedLow(low, cfg.tolerance) * Divisor(cfg, ready))
            && !(c.above && c.below)
  {
    if Divisor(cfg, ready) > 0 {
      AverageAgainstMark(sum, Divisor(cfg, ready), AdjustedHigh(high, cfg.tolerance));
      AverageAgainstMark(sum, Divisor(cfg, ready), AdjustedLow(low, cfg.tolerance));
      RegimesAreExclusive(cfg, cur, ready, sum as real / Divisor(cfg, ready) as real, low, high, nonFinite);
    }
  }

  /** The regime of a proposal is that of its metric sum, also when no pod is ready; above and below exclude each
      other. */
  lemma RegimeMeaning(cfg: Config, cur: int, ready: nat, sum: int, low: int, high: int, nonFinite: int)
    requires ValidConfig(cfg) && 0 <= low <= high
    ensures var c := Propose(cfg, cur, ready, sum, low, high, nonFinite);
            IsRegime(cfg, ready, sum, low, high, c.above, c.below) && !(c.above && c.below)
  {
    RegimeAgainstMarks(cfg, cur, ready, sum, low, high, nonFinite);
    MarksAreProportional(low, high, cfg.tolerance);
  }

  ghost predicate IsUpscaleFor(cfg: Config, cur: int, load: real, high: int, n: int)
    requires cfg.modulo > 0 && high > 0
  {
    exists target :: IsLeastMultiple(target, cfg.modulo, load / high as real) && n == Max(cur, target)
  }

  ghost predicate IsDownscaleFor(cfg: Config, cur: int, load: real, low: int, n: int)
    requires cfg.modulo > 0 && low > 0
  {
    exists target :: IsLeastMultiple(target, cfg.modulo, Max(1, Floor(load / low as real)) as real)
                     && n == Min(cur, target)
  }

  /** What a proposal must be, for both algorithms and independent of how it is computed: the regime compares the
      metric sum with the marks and their tolerance; out of the band the count does not leave the current one in the
      wrong direction, and is the optimum for the load where a quotient exists; inside it, it converges safely. */
  ghost predicate Justified(cfg: Config, cur: int, ready: int, sum: int, low: int, high: int, c: Count)
    requires cfg.modulo > 0
  {
    var load, divisor := Load(cfg, ready, sum), Divisor(cfg, ready);
    && IsRegime(cfg, ready, sum, low, high, c.above, c.below)
    && (c.above ==> c.replicas >= cur)
    && (c.below ==> Min(cur, 1) <= c.replicas <= cur)
    && (c.above && divisor > 0 && high > 0 ==> IsUpscaleFor(cfg, cur, load, high, c.replicas))
    && (c.below && divisor > 0 && low > 0 ==> IsDownscaleFor(cfg, cur, load, low, c.replicas))
    && (!c.above && !c.below && cfg.converge.Off? ==> c.replicas == cur)
    && (!c.above && !c.below && divisor > 0 && cfg.min <= cur <= cfg.max ==>
          ConvergesSafely(cfg, cur, load, low, high, c.replicas))
  }

  lemma UsageNonNegative(sum: int, divisor: int)
    requires sum >= 0 && divisor > 0
    ensures sum as real / divisor as real >= 0.0
  {
  }

  lemma UpscaleForSum(cfg: Config, cur: int, ready: nat, sum: int, high: int, nonFinite: int)
    requires cfg.modulo > 0 && high > 0 && sum >= 0 && Divisor(cfg, ready) > 0
    ensures var usage := sum as real / Divisor(cfg, ready) as real;
            IsUpscaleFor(cfg, cur, Load(cfg, ready, sum), high, CountUpscale(cfg, cur, ready, usage, high, nonFinite))
  {
    RatioIsLoad(cfg, ready, sum, high);
    UsageNonNegative(sum, Divisor(cfg, ready));
    UpscaleIsOptimal(cfg, cur, ready, sum as real / Divisor(cfg, ready) as real, high, nonFinite);
  }

  lemma DownscaleForSum(cfg: Config, cur: int, ready: nat, sum: int, low: int, nonFinite: int)
    requires cfg.modulo > 0 && low > 0 && Divisor(cfg, ready) > 0
    ensures var usage := sum as real / Divisor(cfg, ready) as real;
            IsDownscaleFor(cfg, cur, Load(cfg, ready, sum), low, CountDownscale(cfg, cur, ready, usage, low, nonFinite))
  {
    RatioIsLoad(cfg, ready, sum, low);
    DownscaleIsOptimal(cfg, cur, ready, sum as real / Divisor(cfg, ready) as real, low, nonFinite);
  }

  lemma ConvergenceForSum(cfg: Config, cur: int, ready: nat, sum: int, low: int, high: int)
    requires ValidConfig(cfg) && 0 <= low && 0 <= high && Divisor(cfg, ready) > 0 && cfg.min <= cur <= cfg.max
    ensures var usage := sum as real / Divisor(cfg, ready) as real;
            ConvergesSafely(cfg, cur, Load(cfg, ready, sum), low, high,
                            TryToConvergeForUsage(cfg, cur, ready, usage, low, high))
  {
    if high > 0 {
      RatioIsLoad(cfg, ready, sum, high);
    }
    if low > 0 {
      RatioIsLoad(cfg, ready, sum, low);
    }
    ConvergeStepIffSafe(cfg, cur, Load(cfg, ready, sum), low, high);
  }

  lemma UpscaleIsJustified(cfg: Config, cur: int, ready: nat, sum: int, low: int, high: int, nonFinite: int)
    requires ValidConfig(cfg) && 0 <= low <= high && Propose(cfg, cur, ready, sum, low, high, nonFinite).above
    ensures Justified(cfg, cur, ready, sum, low, high, Propose(cfg, cur, ready, sum, low, high, nonFinite))
  {
    RegimeMeaning(cfg, cur, ready, sum, low, high, nonFinite);
    if Divisor(cfg, ready) > 0 && high > 0 {
      assert sum >= 0 by {
        RegimeAgainstMarks(cfg, cur, ready, sum, low, high, nonFinite);
        ToleranceWidensBand(low, high, cfg.tolerance);
        ProductIsMonotone(0, AdjustedHigh(high, cfg.tolerance), Divisor(cfg, ready));
      }
      UpscaleForSum(cfg, cur, ready, sum, high, nonFinite);
    }
  }

  lemma DownscaleIsJustified(cfg: Config, cur: int, ready: nat, sum: int, low: int, high: int, nonFinite: int)
    requires ValidConfig(cfg) && 0 <= low <= high && Propose(cfg, cur, ready, sum, low, high, nonFinite).below
    ensures Justified(cfg, cur, ready, sum, low, high, Propose(cfg, cur, ready, sum, low, high, nonFinite))
  {
    RegimeMeaning(cfg, cur, ready, sum, low, high, nonFinite);
    if Divisor(cfg, ready) == 0 {
      RoundingIsMultiple(Max(nonFinite, 1), cfg.modulo);
    } else {
      DownscaleIsOptimal(cfg, cur, ready, sum as real / Divisor(cfg, ready) as real, low, nonFinite);
      if low > 0 {
        DownscaleForSum(cfg, cur, ready, sum, low, nonFinite);
      }
    }
  }

  lemma ProposalIsJustified(cfg: Config, cur: int, ready: nat, sum: int, low: int, high: int, nonFinite: int)
    requires ValidConfig(cfg) && 0 <= low <= high
    ensures Justified(cfg, cur, ready, sum, low, high, Propose(cfg, cur, ready, sum, low, high, nonFinite))
  {
    var c := Propose(cfg, cur, ready, sum, low, high, nonFinite);
    if c.above {
      UpscaleIsJustified(cfg, cur, ready, sum, low, high, nonFinite);
    } else if c.below {
      DownscaleIsJustified(cfg, cur, ready, sum, low, high, nonFinite);
    } else {
      RegimeMeaning(cfg, cur, ready, sum, low, high, nonFinite);
      if Divisor(cfg, ready) > 0 && cfg.min <= cur <= cfg.max {
        ConvergenceForSum(cfg, cur, ready, sum, low, high);
      }
    }
  }

  /** No metric proposes a negative count, whatever its watermarks, its sum and the ready pods. */
  lemma ProposalIsNonNegative(cfg: Config, cur: int, ready: nat, sum: int, low: int, high: int, nonFinite: int)
    requires cfg.modulo > 0 && cur >= 0
    ensures Propose(cfg, cur, ready, sum, low, high, nonFinite).replicas >= 0
  {
    RoundingIsMultiple(Max(nonFinite, 1), cfg.modulo);
    if Divisor(cfg, ready) != 0 {
      DownscaleIsOptimal(cfg, cur, ready, sum as real / Divisor(cfg, ready) as real, low, nonFinite);
    }
  }
}
