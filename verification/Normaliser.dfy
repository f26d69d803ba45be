/** convertDesiredReplicasWithRules: velocity limits, min/max and the ready-count safeguard. */
module Normaliser {
  import opened Math32
  import opened Types

  /** The normalised count, the two capping gauges and the reason recorded with the ScalingLimited condition. */
  datatype Normalised = Normalised(replicas: int, downCapped: bool, upCapped: bool, reason: string)

  /** To how many replicas, not by how many, one step may scale up. */
  function ScaleUpLimit(cfg: Config, cur: int): int {
    if cfg.upFactor == 0 then cur else cur + Max(1, cfg.upFactor * cur / 100000)
  }

  function ScaleDownLimit(cfg: Config, cur: int): int {
    if cfg.downFactor == 0 then cur else cur - Max(1, cfg.downFactor * cur / 100000)
  }

  function Normalise(cfg: Config, cur: int, desired: int, ready: int): Normalised {
    var downLimit := ScaleDownLimit(cfg, cur);
    var downCapped := cfg.min != 0 && desired < downLimit;
    var floor := Max(downLimit, cfg.min);
    var (least, lowReason) :=
      if cfg.min == 0 then (1, "")
      else if downCapped then (if 0 < ready < floor then cur else floor, "ScaleDownLimit")
      else (cfg.min, "TooFewReplicas");
    if desired < least then
      Normalised(least, downCapped, false, lowReason)
    else
      var upLimit := ScaleUpLimit(cfg, cur);
      var upCapped := desired > upLimit;
      var most := if upCapped then Min(upLimit, cfg.max) else cfg.max;
      if desired > most then
        Normalised(most, downCapped, upCapped, if upCapped then "ScaleUpLimit" else "TooManyReplicas")
      else
        Normalised(desired, downCapped, upCapped, "DesiredWithinRange")
  }

  // ---------- Specification ----------

  /** The downscale is aborted when it would be velocity-limited to more replicas than are ready. */
  predicate Aborted(cfg: Config, cur: int, desired: int, ready: int) {
    desired < ScaleDownLimit(cfg, cur) && 0 < ready < Max(cfg.min, ScaleDownLimit(cfg, cur))
  }

  /** d is the number of replicas one step may move, for a factor in thousandths of a percent: the whole share of the
      current count, at least one, and none when the factor is 0. */
  ghost predicate IsStep(factor: int, cur: int, d: int) {
    if factor == 0 then d == 0
    else d >= 1 && factor * cur < 100000 * (d + 1) && (d > 1 ==> 100000 * d <= factor * cur)
  }

  lemma StepIsUnique(factor: int, cur: int, d: int, e: int)
    requires IsStep(factor, cur, d) && IsStep(factor, cur, e)
    ensures d == e
  {
  }

  /** Both limits are exactly one such step away. */
  lemma LimitsAreSteps(cfg: Config, cur: int)
    requires 0 <= cfg.upFactor && 0 <= cfg.downFactor
    ensures IsStep(cfg.upFactor, cur, ScaleUpLimit(cfg, cur) - cur)
    ensures IsStep(cfg.downFactor, cur, cur - ScaleDownLimit(cfg, cur))
  {
    var p, q := cfg.upFactor * cur, cfg.downFactor * cur;
    assert 100000 * (p / 100000) <= p < 100000 * (p / 100000 + 1);
    assert 100000 * (q / 100000) <= q < 100000 * (q / 100000 + 1);
  }

  lemma LimitsBracketCurrent(cfg: Config, cur: int)
    requires ValidConfig(cfg) && cur >= 1
    ensures 0 <= ScaleDownLimit(cfg, cur) <= cur <= ScaleUpLimit(cfg, cur)
    ensures cfg.downFactor > 0 ==> ScaleDownLimit(cfg, cur) < cur
    ensures cfg.upFactor > 0 ==> cur < ScaleUpLimit(cfg, cur)
  {
    ShareIsBounded(cfg.downFactor, cur);
    assert cfg.upFactor * cur >= 0;
  }

  lemma ShareIsBounded(factor: int, n: int)
    requires 0 <= factor <= 100000 && n >= 0
    ensures 0 <= factor * n / 100000 <= n
  {
    var p := factor * n;
    assert 0 <= p;
    assert p <= 100000 * n by { assert (100000 - factor) * n >= 0; }
  }

  /** For a count inside [min, max] the nested rules are one clamp, except for the aborted downscale. */
  lemma NormaliserIsClamp(cfg: Config, cur: int, desired: int, ready: int)
    requires ValidConfig(cfg) && cfg.min <= cur <= cfg.max
    ensures Normalise(cfg, cur, desired, ready).replicas ==
            if Aborted(cfg, cur, desired, ready) then cur
            else Cap(desired, Max(cfg.min, ScaleDownLimit(cfg, cur)), Min(cfg.max, ScaleUpLimit(cfg, cur)))
  {
    LimitsBracketCurrent(cfg, cur);
  }

  /** Without a minimum the velocity limit on downscales is skipped altogether. */
  lemma NoMinimumSkipsDownscaleLimit(cfg: Config, cur: int, desired: int, ready: int)
    requires ValidConfig(cfg.(min := 1)) && cfg.min == 0 && 1 <= cur <= cfg.max
    ensures var n := Normalise(cfg, cur, desired, ready);
            n.replicas == Cap(desired, 1, Min(cfg.max, ScaleUpLimit(cfg, cur))) && !n.downCapped
  {
    LimitsBracketCurrent(cfg.(min := 1), cur);
    assert ScaleUpLimit(cfg.(min := 1), cur) == ScaleUpLimit(cfg, cur);
  }

  /** Direction is never reversed, both velocity limits and both bounds hold, a zero factor freezes its
      direction, each gauge tells exactly whether its limit was exceeded, and the reason tells which bound was hit. */
  lemma NormaliserGuarantees(cfg: Config, cur: int, desired: int, ready: int)
    requires ValidConfig(cfg) && cfg.min <= cur <= cfg.max
    ensures var n := Normalise(cfg, cur, desired, ready);
            && cfg.min <= n.replicas <= cfg.max
            && ScaleDownLimit(cfg, cur) <= n.replicas <= ScaleUpLimit(cfg, cur)
            && (n.replicas > cur ==> desired >= n.replicas)
            && (n.replicas < cur ==> desired <= n.replicas)
            && (desired >= cur ==> n.replicas >= cur)
            && (desired <= cur ==> n.replicas <= cur)
            && (cfg.upFactor == 0 ==> n.replicas <= cur)
            && (cfg.downFactor == 0 ==> n.replicas >= cur)
            && !(n.downCapped && n.upCapped)
            && (n.downCapped <==> desired < ScaleDownLimit(cfg, cur))
            && (n.upCapped <==> desired > ScaleUpLimit(cfg, cur))
            && (n.reason == "DesiredWithinRange" <==> n.replicas == desired)
            && (n.reason == "ScaleDownLimit" <==> n.downCapped)
            && (n.reason == "ScaleUpLimit" <==> n.upCapped)
            && (n.reason == "TooFewReplicas" <==> !n.downCapped && desired < cfg.min)
            && (n.reason == "TooManyReplicas" <==> !n.upCapped && desired > cfg.max)
  {
    NormaliserIsClamp(cfg, cur, desired, ready);
    LimitsBracketCurrent(cfg, cur);
  }
}
