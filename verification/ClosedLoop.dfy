/** The closed loop: one averaged metric whose total load is constant, every replica ready. What a single reconcile
    decides there, and when it decides to stay. */
module ClosedLoop {
  import opened Math32
  import opened Types
  import opened Pods
  import opened Calculator
  import opened Compute
  import opened Normaliser
  import opened Machine
  import opened Runs
  import opened FullChain

  /** A spec with a single averaged metric, external or resource, that scales by whole replicas. */
  ghost predicate Tuned(cfg: Config, m: Metric, load: int) {
    && ValidConfig(cfg) && cfg.source == Metrics([m]) && cfg.average && cfg.modulo == 1
    && 0 < m.low <= m.high && load > 0
  }

  /** The observation shows the load, spread over n ready replicas. */
  ghost predicate ShowsLoad(cfg: Config, m: Metric, load: int, n: nat, o: Observation, now: int)
    requires cfg.modulo > 0
  {
    && o.pods.Some? && o.readings != []
    && var reading := o.readings[0];
       match m.kind
       case External =>
         && Tally(cfg, o.pods.value, now, Ready) == n && AvailableReady(cfg, n, o, now).Ok?
         && reading.ExternalValues? && Sum(reading.values) == load
       case Resource =>
         && reading.ResourceUsage? && ResourceReplicas(cfg, Target(n, n), m, reading, o).Ok?
         && var tags := Tags(cfg, o.pods.value, reading.usage, m.name == "cpu");
            |NamesIn(tags, Counted)| == n && Total(reading.usage - NamesIn(tags, Ignored)) == load
  }

  /** The tick observes the constant load, spread over ready replicas that match the spec. */
  ghost predicate Loaded(cfg: Config, m: Metric, load: int, w: World, i: Input, o: Observation)
    requires cfg.modulo > 0
  {
    && i.Tick? && i.found && i.observed == w.spec && Computes(cfg, w, i, o)
    && ShowsLoad(cfg, m, load, i.observed, o, i.clock.compute)
  }

  /** Fewest replicas that carry the load at the high watermark; most that it fills at the low one. */
  function Need(load: int, high: int): int
    requires high > 0
  {
    Ceil(load as real / high as real)
  }

  function Room(load: int, low: int): int
    requires low > 0
  {
    Floor(load as real / low as real)
  }

  predicate TooHigh(cfg: Config, m: Metric, load: int, n: int) { load > AdjustedHigh(m.high, cfg.tolerance) * n }

  predicate TooLow(cfg: Config, m: Metric, load: int, n: int) { load < AdjustedLow(m.low, cfg.tolerance) * n }

  /** With n replicas the usage lies within the tolerance band. */
  predicate InBand(cfg: Config, m: Metric, load: int, n: int) {
    !TooHigh(cfg, m, load, n) && !TooLow(cfg, m, load, n)
  }

  predicate OutOnSide(cfg: Config, m: Metric, load: int, n: int, side: Side) {
    if side.Above? then TooHigh(cfg, m, load, n) else TooLow(cfg, m, load, n)
  }

  // ---------- The plan computed in the loop, in integers ----------

  lemma NeedIff(load: int, high: int, n: int)
    requires high > 0
    ensures n >= Need(load, high) <==> n * high >= load
  {
    CeilQuotient(load as real, high, n);
    assert n as real * high as real == (n * high) as real;
  }

  lemma RoomIff(load: int, low: int, n: int)
    requires low > 0
    ensures n <= Room(load, low) <==> n * low <= load
  {
    FloorQuotient(load as real, low, n);
    assert n as real * low as real == (n * low) as real;
  }

  lemma LoopCount(cfg: Config, m: Metric, load: int, w: World, i: Input, o: Observation)
    requires Tuned(cfg, m, load) && w.spec >= 1 && Loaded(cfg, m, load, w, i, o)
    ensures Decides(i) && i.outcome.value.ready == w.spec
    ensures var c := GetReplicaCount(cfg, w.spec, w.spec, load as real / w.spec as real, m.low, m.high, o.nonFinite);
            var plan := i.outcome.value;
            plan.replicas == c.replicas && plan.above == c.above && plan.below == c.below
  {
    SingleMetric(cfg, m, Target(w.spec, i.observed), o, i.clock.compute);
  }

  /** What the calculator proposes in the loop, without fractions. */
  lemma LoopPlan(cfg: Config, m: Metric, load: int, w: World, i: Input, o: Observation)
    requires Tuned(cfg, m, load) && w.spec >= 1 && Loaded(cfg, m, load, w, i, o)
    ensures Decides(i) && i.outcome.value.ready == w.spec
    ensures var plan, n := i.outcome.value, w.spec;
            && (plan.above <==> TooHigh(cfg, m, load, n))
            && (plan.below <==> TooLow(cfg, m, load, n))
            && !(plan.above && plan.below)
            && plan.replicas == (if plan.above then Max(n, Need(load, m.high))
                                 else if plan.below then Min(n, Max(Room(load, m.low), 1))
                                 else TryToConverge(cfg, n, Cap(Need(load, m.high), cfg.min, cfg.max),
                                                    Cap(Room(load, m.low), cfg.min, cfg.max)))
  {
    var n := w.spec;
    LoopCount(cfg, m, load, w, i, o);
    AverageCancelsReady(n, load, m.high);
    AverageCancelsReady(n, load, m.low);
    AverageAgainstMark(load, n, AdjustedHigh(m.high, cfg.tolerance));
    AverageAgainstMark(load, n, AdjustedLow(m.low, cfg.tolerance));
    RegimesAreExclusive(cfg, n, n, load as real / n as real, m.low, m.high, o.nonFinite);
    assert RoundToModulo(Need(load, m.high), 1) == Need(load, m.high);
    assert RoundToModulo(Max(Room(load, m.low), 1), 1) == Max(Room(load, m.low), 1);
  }

  // ---------- A balanced count ----------

  /** k replicas carry the load between the watermarks proper, tolerance aside. */
  ghost predicate Balanced(cfg: Config, m: Metric, load: int, k: int) {
    InBounds(cfg, k) && m.low * k <= load <= m.high * k
  }

  /** Where n stands relative to a balanced k, and how far the proposal may go. */
  lemma BalanceSeparates(cfg: Config, m: Metric, load: int, k: int, n: int)
    requires Tuned(cfg, m, load) && Balanced(cfg, m, load, k) && n >= 1
    ensures InBand(cfg, m, load, k)
    ensures TooHigh(cfg, m, load, n) ==> n < Need(load, m.high) <= k
    ensures TooLow(cfg, m, load, n) ==> k <= Room(load, m.low) < n
  {
    ToleranceWidensBand(m.low, m.high, cfg.tolerance);
    var hi, lo := AdjustedHigh(m.high, cfg.tolerance), AdjustedLow(m.low, cfg.tolerance);
    ProductIsMonotone(m.high, hi, n);
    ProductIsMonotone(m.high, hi, k);
    ProductIsMonotone(lo, m.low, n);
    ProductIsMonotone(lo, m.low, k);
    NeedIff(load, m.high, k);
    NeedIff(load, m.high, n);
    RoomIff(load, m.low, k);
    RoomIff(load, m.low, n);
  }

  /** More replicas only lower the usage. */
  lemma BandIsMonotone(cfg: Config, m: Metric, load: int, a: int, b: int)
    requires Tuned(cfg, m, load) && a <= b
    ensures TooHigh(cfg, m, load, b) ==> TooHigh(cfg, m, load, a)
    ensures TooLow(cfg, m, load, a) ==> TooLow(cfg, m, load, b)
  {
    ToleranceWidensBand(m.low, m.high, cfg.tolerance);
    ProductIsMonotone(a, b, AdjustedHigh(m.high, cfg.tolerance));
    ProductIsMonotone(a, b, AdjustedLow(m.low, cfg.tolerance));
  }

  /** When every replica is ready the velocity-limited downscale is never aborted. */
  lemma NormalInLoop(cfg: Config, n: int, plan: Calc)
    requires ValidConfig(cfg) && InBounds(cfg, n) && plan.ready == n
    ensures Normal(cfg, n, plan).replicas ==
            Cap(Max(plan.replicas, 0), Max(cfg.min, ScaleDownLimit(cfg, n)), Min(cfg.max, ScaleUpLimit(cfg, n)))
  {
    NormaliserIsClamp(cfg, n, Max(plan.replicas, 0), plan.ready);
    LimitsBracketCurrent(cfg, n);
  }

  // ---------- Convergence inside the band ----------

  /** Where convergence leads: the fewest replicas that carry the load at the high watermark, or the most that it
      fills at the low one, within the bounds. */
  function Optimum(cfg: Config, m: Metric, load: int): int
    requires m.low > 0 && m.high > 0
  {
    if cfg.converge.TowardsHigh? then Max(cfg.min, Need(load, m.high)) else Min(cfg.max, Room(load, m.low))
  }

  /** Converging to the high watermark removes replicas, converging to the low one adds them. */
  function Heading(cfg: Config): Side { if cfg.converge.TowardsHigh? then Below else Above }

  function FactorOf(cfg: Config, side: Side): int { if side.Above? then cfg.upFactor else cfg.downFactor }

  /** In the band, with convergence, and short of the optimum. */
  predicate Converges(cfg: Config, m: Metric, load: int, n: int)
    requires m.low > 0 && m.high > 0
  {
    && InBand(cfg, m, load, n) && !cfg.converge.Off? && FactorOf(cfg, Heading(cfg)) > 0
    && Moves(Heading(cfg), n, Optimum(cfg, m, load))
  }

  /** Inside the band: one replica nearer to the optimum, and none beyond it. */
  function NextCount(cfg: Config, m: Metric, load: int, n: int): int
    requires m.low > 0 && m.high > 0
  {
    if !Converges(cfg, m, load, n) then n else if Heading(cfg).Above? then n + 1 else n - 1
  }

  /** The watermark that is being approached is respected. */
  predicate WithinMark(cfg: Config, m: Metric, load: int, n: int) {
    if cfg.converge.TowardsHigh? then load <= n * m.high else n * m.low <= load
  }

  /** Between the start and the optimum the usage stays in the band, and within the watermark. */
  lemma OptimumIsInBand(cfg: Config, m: Metric, load: int, start: int, n: int)
    requires Tuned(cfg, m, load) && InBand(cfg, m, load, start) && n >= 1
    requires var opt := Optimum(cfg, m, load);
             if cfg.converge.TowardsHigh? then opt <= n <= start else start <= n <= opt
    ensures InBand(cfg, m, load, n) && WithinMark(cfg, m, load, n)
  {
    NeedIff(load, m.high, n);
    RoomIff(load, m.low, n);
    ToleranceWidensBand(m.low, m.high, cfg.tolerance);
    ProductIsMonotone(m.high, AdjustedHigh(m.high, cfg.tolerance), n);
    ProductIsMonotone(AdjustedLow(m.low, cfg.tolerance), m.low, n);
    if n <= start {
      BandIsMonotone(cfg, m, load, n, start);
    } else {
      BandIsMonotone(cfg, m, load, start, n);
    }
  }

  lemma CapIsNextCount(cfg: Config, m: Metric, load: int, n: int)
    requires Tuned(cfg, m, load) && InBounds(cfg, n) && InBand(cfg, m, load, n)
    ensures var stop := TryToConverge(cfg, n, Cap(Need(load, m.high), cfg.min, cfg.max),
                                      Cap(Room(load, m.low), cfg.min, cfg.max));
            Cap(Max(stop, 0), Max(cfg.min, ScaleDownLimit(cfg, n)), Min(cfg.max, ScaleUpLimit(cfg, n)))
            == NextCount(cfg, m, load, n)
  {
    LimitsBracketCurrent(cfg, n);
  }

  // ---------- When the loop stays put ----------

  /** A count the loop does not leave: inside the band with nothing to gain, or out of it with no way to go. */
  predicate Rests(cfg: Config, m: Metric, load: int, n: int)
    requires m.low > 0 && m.high > 0
  {
    || (InBand(cfg, m, load, n) && !Converges(cfg, m, load, n))
    || (TooHigh(cfg, m, load, n) && (n == cfg.max || cfg.upFactor == 0))
    || (TooLow(cfg, m, load, n) && (n == cfg.min || cfg.downFactor == 0))
  }

  lemma NeedAndRoom(cfg: Config, m: Metric, load: int, n: int)
    requires Tuned(cfg, m, load) && n >= 1
    ensures TooHigh(cfg, m, load, n) ==> n < Need(load, m.high) && n <= Room(load, m.low)
    ensures TooLow(cfg, m, load, n) ==> Room(load, m.low) < n && Need(load, m.high) <= n
    ensures !(TooHigh(cfg, m, load, n) && TooLow(cfg, m, load, n))
  {
    ToleranceWidensBand(m.low, m.high, cfg.tolerance);
    ProductIsMonotone(m.high, AdjustedHigh(m.high, cfg.tolerance), n);
    ProductIsMonotone(AdjustedLow(m.low, cfg.tolerance), m.low, n);
    ProductIsMonotone(m.low, m.high, n);
    NeedIff(load, m.high, n);
    RoomIff(load, m.low, n);
  }

  /** What the loop may decide at n: it stays exactly at the counts that rest; out of the band it moves towards the
      band, at most to the count that carries the load at the watermark it missed; inside it converges by one. */
  predicate Pursues(cfg: Config, m: Metric, load: int, n: int, d: int)
    requires m.low > 0 && m.high > 0
  {
    && InBounds(cfg, d)
    && (d == n <==> Rests(cfg, m, load, n))
    && (TooHigh(cfg, m, load, n) ==> n <= d <= Need(load, m.high))
    && (TooLow(cfg, m, load, n) ==> Max(Room(load, m.low), 1) <= d <= n)
    && (InBand(cfg, m, load, n) ==> d == NextCount(cfg, m, load, n))
  }

  lemma LoopDecision(cfg: Config, m: Metric, load: int, w: World, i: Input, o: Observation)
    requires Tuned(cfg, m, load) && InBounds(cfg, w.spec) && Loaded(cfg, m, load, w, i, o)
    ensures Decides(i) && !VerdictOf(cfg, w, i).forced
    ensures Pursues(cfg, m, load, w.spec, VerdictOf(cfg, w, i).desired)
    ensures forall side :: OutOnSide(cfg, m, load, w.spec, side) <==> OutOfBounds(side, i.outcome.value)
  {
    LoopPlan(cfg, m, load, w, i, o);
    NormalInLoop(cfg, w.spec, i.outcome.value);
    CapPursues(cfg, m, load, w.spec, i.outcome.value.replicas);
  }

  lemma CapPursues(cfg: Config, m: Metric, load: int, n: int, proposed: int)
    requires Tuned(cfg, m, load) && InBounds(cfg, n)
    requires proposed == if TooHigh(cfg, m, load, n) then Max(n, Need(load, m.high))
                         else if TooLow(cfg, m, load, n) then Min(n, Max(Room(load, m.low), 1))
                         else TryToConverge(cfg, n, Cap(Need(load, m.high), cfg.min, cfg.max),
                                            Cap(Room(load, m.low), cfg.min, cfg.max))
    ensures Pursues(cfg, m, load, n, Cap(Max(proposed, 0), Max(cfg.min, ScaleDownLimit(cfg, n)),
                                         Min(cfg.max, ScaleUpLimit(cfg, n))))
  {
    NeedAndRoom(cfg, m, load, n);
    LimitsBracketCurrent(cfg, n);
    if InBand(cfg, m, load, n) {
      CapIsNextCount(cfg, m, load, n);
    }
  }

  /** With a balanced count k, the decision out of the band moves towards k and not past it. */
  lemma LoopVerdict(cfg: Config, m: Metric, load: int, k: int, w: World, i: Input, o: Observation)
    requires Tuned(cfg, m, load) && cfg.converge.Off? && Balanced(cfg, m, load, k)
    requires InBounds(cfg, w.spec) && Loaded(cfg, m, load, w, i, o)
    ensures Decides(i)
    ensures var n, d := w.spec, VerdictOf(cfg, w, i).desired;
            && (TooHigh(cfg, m, load, n) ==> n <= d <= k && (cfg.upFactor > 0 ==> n < d))
            && (TooLow(cfg, m, load, n) ==> k <= d <= n && (cfg.downFactor > 0 ==> d < n))
            && (InBand(cfg, m, load, n) ==> d == n)
  {
    LoopDecision(cfg, m, load, w, i, o);
    BalanceSeparates(cfg, m, load, k, w.spec);
  }

  /** The band falls between two neighbouring counts. */
  predicate Straddles(cfg: Config, m: Metric, load: int, n: int) {
    && InBounds(cfg, n) && InBounds(cfg, n + 1) && cfg.upFactor > 0 && cfg.downFactor > 0
    && TooHigh(cfg, m, load, n) && TooLow(cfg, m, load, n + 1)
  }

  /** Then the loop flaps: n asks for n + 1, and n + 1 asks for n. */
  lemma StraddlingGoesUp(cfg: Config, m: Metric, load: int, n: int, w: World, i: Input, o: Observation)
    requires Tuned(cfg, m, load) && Straddles(cfg, m, load, n)
    requires w.spec == n && Loaded(cfg, m, load, w, i, o)
    ensures Decides(i) && VerdictOf(cfg, w, i).desired == n + 1
  {
    LoopDecision(cfg, m, load, w, i, o);
    StraddledPursuit(cfg, m, load, n, VerdictOf(cfg, w, i).desired);
  }

  lemma StraddlingGoesDown(cfg: Config, m: Metric, load: int, n: int, w: World, i: Input, o: Observation)
    requires Tuned(cfg, m, load) && Straddles(cfg, m, load, n)
    requires w.spec == n + 1 && Loaded(cfg, m, load, w, i, o)
    ensures Decides(i) && VerdictOf(cfg, w, i).desired == n
  {
    LoopDecision(cfg, m, load, w, i, o);
    StraddledPursuit(cfg, m, load, n, VerdictOf(cfg, w, i).desired);
  }

  lemma StraddledPursuit(cfg: Config, m: Metric, load: int, n: int, d: int)
    requires Tuned(cfg, m, load) && Straddles(cfg, m, load, n)
    ensures Pursues(cfg, m, load, n, d) ==> d == n + 1
    ensures Pursues(cfg, m, load, n + 1, d) ==> d == n
  {
    NeedAndRoom(cfg, m, load, n);
    NeedAndRoom(cfg, m, load, n + 1);
  }

  ghost predicate HasRest(cfg: Config, m: Metric, load: int)
    requires m.low > 0 && m.high > 0
  {
    exists k :: InBounds(cfg, k) && Rests(cfg, m, load, k)
  }

  /** Some count inside the bounds rests if and only if the band does not fall between two neighbours. */
  lemma HasRestIff(cfg: Config, m: Metric, load: int)
    requires Tuned(cfg, m, load)
    ensures HasRest(cfg, m, load) <==> !exists n :: Straddles(cfg, m, load, n)
  {
    if n :| Straddles(cfg, m, load, n) {
      forall k | InBounds(cfg, k) ensures !Rests(cfg, m, load, k) {
        NeedAndRoom(cfg, m, load, k);
        if k <= n {
          BandIsMonotone(cfg, m, load, k, n);
        } else {
          BandIsMonotone(cfg, m, load, n + 1, k);
        }
      }
    } else if !HasRest(cfg, m, load) {
      OutOfBandUnlessRest(cfg, m, load, cfg.max);
      var n := FindStraddle(cfg, m, load, cfg.max);
    }
  }

  /** A band that holds some count holds one that rests: that count, or the optimum. */
  lemma BandHasRest(cfg: Config, m: Metric, load: int, k: int)
    requires Tuned(cfg, m, load) && InBounds(cfg, k) && InBand(cfg, m, load, k)
    ensures HasRest(cfg, m, load)
  {
    if Converges(cfg, m, load, k) {
      var opt := Optimum(cfg, m, load);
      OptimumIsInBand(cfg, m, load, k, opt);
      assert InBounds(cfg, opt) && Rests(cfg, m, load, opt);
    } else {
      assert Rests(cfg, m, load, k);
    }
  }

  lemma OutOfBandUnlessRest(cfg: Config, m: Metric, load: int, n: int)
    requires Tuned(cfg, m, load) && InBounds(cfg, n) && !HasRest(cfg, m, load)
    ensures !Rests(cfg, m, load, n) && !InBand(cfg, m, load, n)
  {
    if InBand(cfg, m, load, n) {
      BandHasRest(cfg, m, load, n);
    }
  }

  /** Watermarks 900m and 1000m, the default tolerance and a load of 1500m: nothing rests between 1 and the maximum. */
  lemma DefaultToleranceFlaps(cfg: Config, m: Metric)
    requires Tuned(cfg, m, 1500) && m.low == 900 && m.high == 1000 && cfg.tolerance == 100
    requires cfg.min == 1 && cfg.max >= 2 && cfg.upFactor > 0 && cfg.downFactor > 0
    ensures Straddles(cfg, m, 1500, 1) && !HasRest(cfg, m, 1500)
  {
    HasRestIff(cfg, m, 1500);
  }

  /** Walks down from a count that is too low to the place where the load becomes too high. */
  lemma {:induction false} FindStraddle(cfg: Config, m: Metric, load: int, from: int) returns (n: int)
    requires Tuned(cfg, m, load) && !HasRest(cfg, m, load)
    requires InBounds(cfg, from) && TooLow(cfg, m, load, from)
    ensures Straddles(cfg, m, load, n)
    decreases from
  {
    OutOfBandUnlessRest(cfg, m, load, from);
    n := from - 1;
    OutOfBandUnlessRest(cfg, m, load, n);
    if TooLow(cfg, m, load, n) {
      n := FindStraddle(cfg, m, load, n);
    }
  }

  // ---------- How much work is left ----------

  function Distance(a: int, b: int): nat { if a < b then b - a else a - b }

  /** How far beyond k the loop may go from n before it turns. */
  function Excess(cfg: Config, m: Metric, load: int, k: int, n: int): int
    requires m.low > 0 && m.high > 0
  {
    if TooHigh(cfg, m, load, n) then Max(0, Need(load, m.high) - k)
    else if TooLow(cfg, m, load, n) then Max(0, k - Max(Room(load, m.low), 1))
    else 0
  }

  /** How many steps convergence may take once the band is reached. */
  function Reserve(cfg: Config): nat
    requires cfg.min <= cfg.max
  {
    if cfg.converge.Off? then 0 else cfg.max - cfg.min
  }

  /** At most this many changes bring the loop from n to rest, for a count k that rests: it may have to go to the
      far side of k and come back, and then to converge. */
  function Effort(cfg: Config, m: Metric, load: int, k: int, n: int): nat
    requires m.low > 0 && m.high > 0 && cfg.min <= cfg.max
  {
    if Rests(cfg, m, load, n) then 0
    else if InBand(cfg, m, load, n) then Distance(n, Optimum(cfg, m, load))
    else Distance(n, k) + 2 * Excess(cfg, m, load, k, n) + Reserve(cfg)
  }

  lemma EffortFalls(cfg: Config, m: Metric, load: int, k: int, n: int, d: int)
    requires Tuned(cfg, m, load) && InBounds(cfg, k) && Rests(cfg, m, load, k)
    requires InBounds(cfg, n) && !Rests(cfg, m, load, n) && Pursues(cfg, m, load, n, d)
    ensures Effort(cfg, m, load, k, d) < Effort(cfg, m, load, k, n)
  {
    if InBand(cfg, m, load, n) {
      EffortFallsInside(cfg, m, load, k, n);
    } else if TooHigh(cfg, m, load, n) {
      EffortFallsUpwards(cfg, m, load, k, n, d);
    } else {
      EffortFallsDownwards(cfg, m, load, k, n, d);
    }
  }

  lemma EffortFallsInside(cfg: Config, m: Metric, load: int, k: int, n: int)
    requires Tuned(cfg, m, load) && InBounds(cfg, n) && Converges(cfg, m, load, n)
    ensures Effort(cfg, m, load, k, NextCount(cfg, m, load, n)) < Effort(cfg, m, load, k, n)
  {
    OptimumIsInBand(cfg, m, load, n, NextCount(cfg, m, load, n));
  }

  lemma EffortFallsUpwards(cfg: Config, m: Metric, load: int, k: int, n: int, d: int)
    requires Tuned(cfg, m, load) && InBounds(cfg, k) && Rests(cfg, m, load, k)
    requires InBounds(cfg, n) && InBounds(cfg, d) && !Rests(cfg, m, load, n) && TooHigh(cfg, m, load, n)
    requires n < d <= Need(load, m.high)
    ensures Effort(cfg, m, load, k, d) < Effort(cfg, m, load, k, n)
  {
    Sides(cfg, m, load, k, n);
    Sides(cfg, m, load, k, d);
    NeedIff(load, m.high, k);
    RoomIff(load, m.low, k);
    ProductIsMonotone(m.low, m.high, k);
  }

  lemma EffortFallsDownwards(cfg: Config, m: Metric, load: int, k: int, n: int, d: int)
    requires Tuned(cfg, m, load) && InBounds(cfg, k) && Rests(cfg, m, load, k)
    requires InBounds(cfg, n) && InBounds(cfg, d) && !Rests(cfg, m, load, n) && TooLow(cfg, m, load, n)
    requires Max(Room(load, m.low), 1) <= d < n
    ensures Effort(cfg, m, load, k, d) < Effort(cfg, m, load, k, n)
  {
    Sides(cfg, m, load, k, n);
    Sides(cfg, m, load, k, d);
    NeedIff(load, m.high, k);
    RoomIff(load, m.low, k);
    ProductIsMonotone(m.low, m.high, k);
  }

  /** Where a count that does not rest stands relative to one that does. */
  lemma Sides(cfg: Config, m: Metric, load: int, k: int, n: int)
    requires Tuned(cfg, m, load) && InBounds(cfg, k) && Rests(cfg, m, load, k) && InBounds(cfg, n)
    ensures !(TooHigh(cfg, m, load, n) && TooLow(cfg, m, load, n))
    ensures !Rests(cfg, m, load, n) && TooHigh(cfg, m, load, n) ==> n < k
    ensures !Rests(cfg, m, load, n) && TooLow(cfg, m, load, n) ==> k < n
  {
    NeedAndRoom(cfg, m, load, n);
    NeedAndRoom(cfg, m, load, k);
    if n <= k {
      BandIsMonotone(cfg, m, load, n, k);
    } else {
      BandIsMonotone(cfg, m, load, k, n);
    }
  }
}
