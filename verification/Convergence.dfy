/** Under constant load: the closed loop comes to rest exactly when some count rests, into the band and without
    overshooting when a balanced count exists, and at the optimum inside the band when convergence is enabled; how
    long that takes follows from the windows, the delays and the requeue period. */
module Convergence {
  import opened Math32
  import opened Types
  import opened Calculator
  import opened Compute
  import opened Normaliser
  import opened Machine
  import opened Runs
  import opened Delay
  import opened FullChain
  import opened ClosedLoop
  import opened Timing

  /** A run in which every reconcile sees the constant load. */
  ghost predicate LoadedRun(cfg: Config, m: Metric, load: int, r: Run, obs: seq<Observation>) {
    && Tuned(cfg, m, load) && IsRun(cfg, r) && |obs| == |r.inputs| && InBounds(cfg, r.worlds[0].spec)
    && forall n {:trigger LoadedAt(cfg, m, load, r, obs, n)} :: 0 <= n < |obs| ==> LoadedAt(cfg, m, load, r, obs, n)
  }

  ghost predicate LoadedAt(cfg: Config, m: Metric, load: int, r: Run, obs: seq<Observation>, n: nat)
    requires n < |obs| == |r.inputs| < |r.worlds| && cfg.modulo > 0
  {
    Loaded(cfg, m, load, r.worlds[n], r.inputs[n], obs[n])
  }

  lemma LoadedTickReports(cfg: Config, m: Metric, load: int, r: Run, obs: seq<Observation>, n: nat)
    requires LoadedRun(cfg, m, load, r, obs) && n < |obs|
    ensures r.inputs[n].Tick? && r.inputs[n].observed == r.worlds[n].spec
  {
    assert LoadedAt(cfg, m, load, r, obs, n);
  }

  lemma {:induction false} StaysInBounds(cfg: Config, m: Metric, load: int, r: Run, obs: seq<Observation>, n: nat)
    requires LoadedRun(cfg, m, load, r, obs) && n <= |obs|
    ensures InBounds(cfg, r.worlds[n].spec)
  {
    if n > 0 {
      StaysInBounds(cfg, m, load, r, obs, n - 1);
      LoadedTickReports(cfg, m, load, r, obs, n - 1);
      assert Linked(cfg, r, n - 1);
      StepStaysInBounds(cfg, r.worlds[n - 1], r.inputs[n - 1]);
    }
  }

  /** x lies between a and b, whichever is larger. */
  predicate Between(a: int, x: int, b: int) { a <= x <= b || b <= x <= a }

  /** Step n keeps the count or takes it to the decided one. */
  lemma LoopStep(cfg: Config, m: Metric, load: int, r: Run, obs: seq<Observation>, n: nat)
    requires LoadedRun(cfg, m, load, r, obs) && n < |obs|
    ensures Decides(r.inputs[n]) && !VerdictOf(cfg, r.worlds[n], r.inputs[n]).forced
    ensures var d := VerdictOf(cfg, r.worlds[n], r.inputs[n]).desired;
            && Pursues(cfg, m, load, r.worlds[n].spec, d)
            && (r.worlds[n + 1].spec == r.worlds[n].spec || r.worlds[n + 1].spec == d)
    ensures forall side ::
              OutOnSide(cfg, m, load, r.worlds[n].spec, side) <==> OutOfBounds(side, r.inputs[n].outcome.value)
  {
    StaysInBounds(cfg, m, load, r, obs, n);
    assert Linked(cfg, r, n) && LoadedAt(cfg, m, load, r, obs, n);
    LoopDecision(cfg, m, load, r.worlds[n], r.inputs[n], obs[n]);
    StepSpec(cfg, r.worlds[n], r.inputs[n]);
  }

  // ---------- Rest, or flapping for ever ----------

  /** A count that rests is never left. */
  lemma {:induction false} RestIsFinal(
    cfg: Config, m: Metric, load: int, r: Run, obs: seq<Observation>, i: nat, n: nat)
    requires LoadedRun(cfg, m, load, r, obs) && i <= n <= |obs| && Rests(cfg, m, load, r.worlds[i].spec)
    ensures r.worlds[n].spec == r.worlds[i].spec
  {
    if i < n {
      RestIsFinal(cfg, m, load, r, obs, i, n - 1);
      LoopStep(cfg, m, load, r, obs, n - 1);
    }
  }

  /** Every change costs effort. */
  lemma {:induction false} EffortPays(cfg: Config, m: Metric, load: int, k: int, r: Run, obs: seq<Observation>, n: nat)
    requires LoadedRun(cfg, m, load, r, obs) && n <= |obs| && InBounds(cfg, k) && Rests(cfg, m, load, k)
    ensures Effort(cfg, m, load, k, r.worlds[n].spec) + Changes(r, n) <= Effort(cfg, m, load, k, r.worlds[0].spec)
  {
    if n > 0 {
      EffortPays(cfg, m, load, k, r, obs, n - 1);
      LoopStep(cfg, m, load, r, obs, n - 1);
      StaysInBounds(cfg, m, load, r, obs, n - 1);
      if r.worlds[n].spec != r.worlds[n - 1].spec {
        EffortFalls(cfg, m, load, k, r.worlds[n - 1].spec, r.worlds[n].spec);
      }
    }
  }

  function MaxDelay(cfg: Config): int { Max(cfg.upDelay, cfg.downDelay) }

  /** The first observation may have to wait for the delay. */
  function Base(cfg: Config, r: Run): int
    requires r.inputs != [] && r.inputs[0].Tick?
  {
    r.inputs[0].clock.record + MaxDelay(cfg)
  }

  /** The longest time the gate stays shut after a change: a window, or the delay of the other side, which starts
      with the next reconcile. */
  function Gap(cfg: Config, period: nat): int {
    Max(Max(cfg.upWindow, cfg.downWindow), MaxDelay(cfg) + period)
  }

  /** A side on which all steps from s to n were out of the band has been counted since s. */
  lemma OutSince(cfg: Config, m: Metric, load: int, r: Run, obs: seq<Observation>, s: nat, n: nat, side: Side)
    requires LoadedRun(cfg, m, load, r, obs) && s <= n < |obs| && Live(cfg, r) && StartsInPast(r)
    requires forall j :: s <= j <= n ==> OutOnSide(cfg, m, load, r.worlds[j].spec, side)
    ensures var began := StretchStart(r.worlds[0].status, r.inputs, n + 1, side);
            began.Some? && began.value <= r.inputs[s].clock.compute
  {
    forall j | s <= j < n + 1 ensures Decides(r.inputs[j]) && OutOfBounds(side, r.inputs[j].outcome.value) {
      LoopStep(cfg, m, load, r, obs, j);
    }
    StretchSince(r.worlds[0].status, r.inputs, s, n + 1, side);
  }

  /** The side to which the loop moves at n. */
  function SideOf(cfg: Config, m: Metric, load: int, n: int): Side {
    if TooHigh(cfg, m, load, n) then Above else if TooLow(cfg, m, load, n) then Below else Heading(cfg)
  }

  /** The decision at a count that does not rest is a move: on the side it is out, or towards the optimum. */
  lemma UnrestedMoves(cfg: Config, m: Metric, load: int, r: Run, obs: seq<Observation>, n: nat)
    requires LoadedRun(cfg, m, load, r, obs) && n < |obs| && !Rests(cfg, m, load, r.worlds[n].spec)
    ensures var side := SideOf(cfg, m, load, r.worlds[n].spec);
            && Decides(r.inputs[n]) && !VerdictOf(cfg, r.worlds[n], r.inputs[n]).forced
            && (if InBand(cfg, m, load, r.worlds[n].spec) then Stable(r.inputs[n].outcome.value)
                else OutOnSide(cfg, m, load, r.worlds[n].spec, side))
            && Moves(side, r.worlds[n].spec, VerdictOf(cfg, r.worlds[n], r.inputs[n]).desired)
  {
    LoopStep(cfg, m, load, r, obs, n);
    assert OutOfBounds(Above, r.inputs[n].outcome.value) <==> TooHigh(cfg, m, load, r.worlds[n].spec);
    assert OutOfBounds(Below, r.inputs[n].outcome.value) <==> TooLow(cfg, m, load, r.worlds[n].spec);
  }

  /** When the side that step n is out on was first seen after the last change. */
  lemma SegmentBegan(cfg: Config, m: Metric, load: int, r: Run, obs: seq<Observation>, period: nat, n: nat)
    requires LoadedRun(cfg, m, load, r, obs) && OnTime(cfg, r, period)
    requires n < |obs| && !Rests(cfg, m, load, r.worlds[n].spec) && !InBand(cfg, m, load, r.worlds[n].spec)
    ensures var began := StretchStart(r.worlds[0].status, r.inputs, n + 1, SideOf(cfg, m, load, r.worlds[n].spec));
            && began.Some?
            && (|| began.value <= r.inputs[0].clock.record
                || (r.worlds[n].status.lastScale.Some? && began.value <= r.worlds[n].status.lastScale.value + period))
  {
    var s, side := SegmentStart(r, n), SideOf(cfg, m, load, r.worlds[n].spec);
    UnrestedMoves(cfg, m, load, r, obs, n);
    forall j | s <= j <= n ensures OutOnSide(cfg, m, load, r.worlds[j].spec, side) {
      SegmentIsConstant(r, n, j);
    }
    OutSince(cfg, m, load, r, obs, s, n, side);
    assert Ordered(r.inputs[s].clock);
    if s > 0 {
      SegmentIsConstant(r, n, s);
      ChangeIsRemembered(cfg, r, s - 1, n);
      assert Ordered(r.inputs[s - 1].clock);
    }
  }

  lemma UnrestedWaits(cfg: Config, m: Metric, load: int, r: Run, obs: seq<Observation>, period: nat, n: nat)
    requires LoadedRun(cfg, m, load, r, obs) && OnTime(cfg, r, period)
    requires n < |obs| && !Rests(cfg, m, load, r.worlds[n].spec)
    ensures Waits(r, Base(cfg, r), Gap(cfg, period), n)
  {
    var side := SideOf(cfg, m, load, r.worlds[n].spec);
    UnrestedMoves(cfg, m, load, r, obs, n);
    assert Ordered(r.inputs[n].clock);
    if InBand(cfg, m, load, r.worlds[n].spec) {
      StepMovesOrWaits(cfg, r, n, side, 0);
    } else {
      SegmentBegan(cfg, m, load, r, obs, period, n);
      var began := StretchStart(r.worlds[0].status, r.inputs, n + 1, side).value;
      StepMovesOrWaits(cfg, r, n, side, began);
    }
  }

  /** As long as the loop has not come to rest, the count changes at least once per gap and period. */
  lemma ChangesUnlessRested(
    cfg: Config, m: Metric, load: int, r: Run, obs: seq<Observation>, period: nat, n: nat)
    requires LoadedRun(cfg, m, load, r, obs) && OnTime(cfg, r, period)
    requires n < |obs| && !Rests(cfg, m, load, r.worlds[n].spec)
    ensures r.inputs[n].clock.begin < Base(cfg, r) + (Changes(r, n) + 1) * (Gap(cfg, period) + period)
  {
    forall j | 0 <= j < n ensures Waits(r, Base(cfg, r), Gap(cfg, period), j) {
      if Rests(cfg, m, load, r.worlds[j].spec) {
        RestIsFinal(cfg, m, load, r, obs, j, n);
      }
      UnrestedWaits(cfg, m, load, r, obs, period, j);
    }
    assert Ordered(r.inputs[0].clock) && Ordered(r.inputs[n].clock);
    KeepsPace(r, Base(cfg, r), Gap(cfg, period), period, n);
  }

  /** If some count k inside the bounds rests, every live run requeued at least once per period has come to rest by a
      deadline given by the effort to reach k, and stays at rest: for any start, any tolerance, any factors, and with or
      without convergence inside the band. */
  lemma ComesToRest(
    cfg: Config, m: Metric, load: int, k: int, r: Run, obs: seq<Observation>, period: nat, n: nat)
    requires LoadedRun(cfg, m, load, r, obs) && OnTime(cfg, r, period) && InBounds(cfg, k) && Rests(cfg, m, load, k)
    requires n < |obs|
    requires r.inputs[n].clock.begin >=
             Base(cfg, r) + Effort(cfg, m, load, k, r.worlds[0].spec) * (Gap(cfg, period) + period)
    ensures Rests(cfg, m, load, r.worlds[n].spec) && r.worlds[|obs|].spec == r.worlds[n].spec
  {
    if !Rests(cfg, m, load, r.worlds[n].spec) {
      ChangesUnlessRested(cfg, m, load, r, obs, period, n);
      EffortPays(cfg, m, load, k, r, obs, n);
      ProductIsMonotone(Changes(r, n) + 1, Effort(cfg, m, load, k, r.worlds[0].spec), Gap(cfg, period) + period);
    }
    RestIsFinal(cfg, m, load, r, obs, n, |obs|);
  }

  /** Where that is, when some count lies in the band and both directions are free: in the band, and with convergence
      at the optimum or already beyond it. */
  lemma RestIsInBand(cfg: Config, m: Metric, load: int, k: int, n: int)
    requires Tuned(cfg, m, load) && cfg.upFactor > 0 && cfg.downFactor > 0
    requires InBounds(cfg, k) && InBand(cfg, m, load, k) && InBounds(cfg, n)
    ensures Rests(cfg, m, load, n) <==>
            && InBand(cfg, m, load, n)
            && (cfg.converge.Off? || !Moves(Heading(cfg), n, Optimum(cfg, m, load)))
  {
    if n <= k {
      BandIsMonotone(cfg, m, load, n, k);
    } else {
      BandIsMonotone(cfg, m, load, k, n);
    }
  }

  /** Otherwise it flaps for ever: the count has changed c times by the c-th deadline, for every c. */
  lemma FlapsForEver(
    cfg: Config, m: Metric, load: int, r: Run, obs: seq<Observation>, period: nat, n: nat, c: nat)
    requires LoadedRun(cfg, m, load, r, obs) && OnTime(cfg, r, period) && !HasRest(cfg, m, load) && n < |obs|
    requires r.inputs[n].clock.begin >= Base(cfg, r) + c * (Gap(cfg, period) + period)
    ensures Changes(r, n) >= c
  {
    StaysInBounds(cfg, m, load, r, obs, n);
    OutOfBandUnlessRest(cfg, m, load, r.worlds[n].spec);
    ChangesUnlessRested(cfg, m, load, r, obs, period, n);
    if Changes(r, n) < c {
      ProductIsMonotone(Changes(r, n) + 1, c, Gap(cfg, period) + period);
    }
  }

  // ---------- Into the band, without overshooting ----------

  /** A run without convergence inside the band, with a balanced count k. */
  ghost predicate Attracted(cfg: Config, m: Metric, load: int, k: int, r: Run, obs: seq<Observation>) {
    LoadedRun(cfg, m, load, r, obs) && cfg.converge.Off? && Balanced(cfg, m, load, k)
  }

  /** One step stays put or moves towards k without passing it; in the band it stays put. */
  lemma StepTowards(cfg: Config, m: Metric, load: int, k: int, r: Run, obs: seq<Observation>, n: nat)
    requires Attracted(cfg, m, load, k, r, obs) && n < |obs|
    ensures Between(r.worlds[n].spec, r.worlds[n + 1].spec, k)
    ensures InBand(cfg, m, load, r.worlds[n].spec) ==> r.worlds[n + 1].spec == r.worlds[n].spec
  {
    LoopStep(cfg, m, load, r, obs, n);
    StaysInBounds(cfg, m, load, r, obs, n);
    BalanceSeparates(cfg, m, load, k, r.worlds[n].spec);
  }

  /** The count moves monotonically towards every balanced k and never past it, changes at most |n0 - k|
      times, and once in the band never changes again. */
  lemma {:induction false} MovesTowardsBalance(
    cfg: Config, m: Metric, load: int, k: int, r: Run, obs: seq<Observation>, i: nat, n: nat)
    requires Attracted(cfg, m, load, k, r, obs) && i <= n <= |obs|
    ensures Between(r.worlds[i].spec, r.worlds[n].spec, k)
    ensures Distance(r.worlds[n].spec, k) + Changes(r, n) <= Distance(r.worlds[i].spec, k) + Changes(r, i)
    ensures InBand(cfg, m, load, r.worlds[i].spec) ==> r.worlds[n].spec == r.worlds[i].spec
  {
    if i < n {
      MovesTowardsBalance(cfg, m, load, k, r, obs, i, n - 1);
      StepTowards(cfg, m, load, k, r, obs, n - 1);
    }
  }

  /** The loop never overshoots: a run that is not too high (low) never becomes too high (low). */
  lemma NeverOvershoots(
    cfg: Config, m: Metric, load: int, k: int, r: Run, obs: seq<Observation>, i: nat, n: nat, side: Side)
    requires Attracted(cfg, m, load, k, r, obs) && i <= n <= |obs|
    ensures OutOnSide(cfg, m, load, r.worlds[n].spec, side) ==> OutOnSide(cfg, m, load, r.worlds[i].spec, side)
  {
    MovesTowardsBalance(cfg, m, load, k, r, obs, i, n);
    StaysInBounds(cfg, m, load, r, obs, n);
    BalanceSeparates(cfg, m, load, k, r.worlds[n].spec);
    var a, b := r.worlds[i].spec, r.worlds[n].spec;
    if a <= b {
      BandIsMonotone(cfg, m, load, a, b);
    } else {
      BandIsMonotone(cfg, m, load, b, a);
    }
  }

  /** The side from which k is approached. */
  function Approach(from: int, k: int): Side { if from < k then Above else Below }

  /** A live run that can move in both directions. */
  ghost predicate Approaching(cfg: Config, m: Metric, load: int, k: int, r: Run, obs: seq<Observation>) {
    && Attracted(cfg, m, load, k, r, obs) && cfg.upFactor > 0 && cfg.downFactor > 0
    && Live(cfg, r) && StartsInPast(r)
  }

  /** Out of the band, a step changes the count, or its window is not over, or the delay since the first observation
      is not. */
  lemma StepApproaches(cfg: Config, m: Metric, load: int, k: int, r: Run, obs: seq<Observation>, n: nat)
    requires Approaching(cfg, m, load, k, r, obs) && n < |obs| && !InBand(cfg, m, load, r.worlds[n].spec)
    ensures var w, w', clock, side := r.worlds[n], r.worlds[n + 1], r.inputs[n].clock, Approach(r.worlds[0].spec, k);
            if w'.spec != w.spec then w'.status.lastScale == Some(clock.record)
            else
              && w'.status.lastScale == w.status.lastScale && w.status.lastScale.Some?
              && (|| clock.begin < w.status.lastScale.value + WindowOf(cfg, side)
                  || clock.gate < r.inputs[0].clock.compute + DelayOf(cfg, side))
  {
    var side := SideOf(cfg, m, load, r.worlds[n].spec);
    StaysInBounds(cfg, m, load, r, obs, n);
    StaysInBounds(cfg, m, load, r, obs, 0);
    BalanceSeparates(cfg, m, load, k, r.worlds[n].spec);
    BalanceSeparates(cfg, m, load, k, r.worlds[0].spec);
    UnrestedMoves(cfg, m, load, r, obs, n);
    forall j | 0 <= j <= n ensures OutOnSide(cfg, m, load, r.worlds[j].spec, side) {
      NeverOvershoots(cfg, m, load, k, r, obs, j, n, side);
    }
    OutSince(cfg, m, load, r, obs, 0, n, side);
    StepMovesOrWaits(cfg, r, n, side, r.inputs[0].clock.compute);
  }

  /** Reconcile n finds the window of the side over, and the delay since the first observation. */
  predicate OpenAt(cfg: Config, r: Run, n: nat, side: Side)
    requires n < |r.inputs| < |r.worlds| && r.inputs[0].Tick? && r.inputs[n].Tick?
  {
    var last, clock := r.worlds[n].status.lastScale, r.inputs[n].clock;
    && (last.None? || last.value + WindowOf(cfg, side) <= clock.begin)
    && r.inputs[0].clock.compute + DelayOf(cfg, side) <= clock.gate
  }

  function OpenTicks(cfg: Config, r: Run, n: nat, side: Side): nat
    requires n <= |r.inputs| < |r.worlds| && NoOutsideWrite(r.inputs)
  {
    if n == 0 then 0 else OpenTicks(cfg, r, n - 1, side) + if OpenAt(cfg, r, n - 1, side) then 1 else 0
  }

  /** Counted in reconciles, however they are spread: as many as the distance to k, that find their window and delay
      over, bring the count into the band for good. */
  lemma {:induction false} OpenTicksSettle(
    cfg: Config, m: Metric, load: int, k: int, r: Run, obs: seq<Observation>, n: nat)
    requires Approaching(cfg, m, load, k, r, obs) && n <= |obs|
    ensures var side := Approach(r.worlds[0].spec, k);
            || InBand(cfg, m, load, r.worlds[n].spec)
            || Distance(r.worlds[n].spec, k) + OpenTicks(cfg, r, n, side) <= Distance(r.worlds[0].spec, k)
    ensures OpenTicks(cfg, r, n, Approach(r.worlds[0].spec, k)) >= Distance(r.worlds[0].spec, k) ==>
              InBand(cfg, m, load, r.worlds[n].spec)
  {
    BalanceSeparates(cfg, m, load, k, k);
    if n > 0 {
      OpenTicksSettle(cfg, m, load, k, r, obs, n - 1);
      StepTowards(cfg, m, load, k, r, obs, n - 1);
      if !InBand(cfg, m, load, r.worlds[n - 1].spec) {
        StepApproaches(cfg, m, load, k, r, obs, n - 1);
      }
    }
  }

  /** Counted in seconds: requeued at least once per period, the count is in the band for good one delay plus distance
      times window and period after the first reconcile, although most reconciles fall into the forbidden window. */
  lemma SettlesInBand(
    cfg: Config, m: Metric, load: int, k: int, r: Run, obs: seq<Observation>, period: nat, n: nat)
    requires Approaching(cfg, m, load, k, r, obs) && Regular(r, period) && n < |obs|
    requires var side := Approach(r.worlds[0].spec, k);
             r.inputs[n].clock.begin >= r.inputs[0].clock.record + DelayOf(cfg, side)
                                        + Distance(r.worlds[0].spec, k) * (WindowOf(cfg, side) + period)
    ensures InBand(cfg, m, load, r.worlds[n].spec) && r.worlds[|obs|].spec == r.worlds[n].spec
  {
    var side := Approach(r.worlds[0].spec, k);
    var base, gap := r.inputs[0].clock.record + DelayOf(cfg, side), WindowOf(cfg, side);
    if !InBand(cfg, m, load, r.worlds[n].spec) {
      forall j | 0 <= j < n ensures Waits(r, base, gap, j) {
        MovesTowardsBalance(cfg, m, load, k, r, obs, j, n);
        StepApproaches(cfg, m, load, k, r, obs, j);
        assert Ordered(r.inputs[0].clock) && Ordered(r.inputs[j].clock);
      }
      assert Ordered(r.inputs[0].clock) && Ordered(r.inputs[n].clock);
      KeepsPace(r, base, gap, period, n);
      MovesTowardsBalance(cfg, m, load, k, r, obs, 0, n);
      BalanceSeparates(cfg, m, load, k, k);
      ProductIsMonotone(Changes(r, n) + 1, Distance(r.worlds[0].spec, k), gap + period);
    }
    MovesTowardsBalance(cfg, m, load, k, r, obs, n, |obs|);
  }

  // ---------- To the optimum inside the band ----------

  /** A run with convergence, starting in the band and not beyond the optimum. */
  ghost predicate Converging(cfg: Config, m: Metric, load: int, r: Run, obs: seq<Observation>) {
    && LoadedRun(cfg, m, load, r, obs) && !cfg.converge.Off? && FactorOf(cfg, Heading(cfg)) > 0
    && InBand(cfg, m, load, r.worlds[0].spec)
    && (r.worlds[0].spec == Optimum(cfg, m, load) || Moves(Heading(cfg), r.worlds[0].spec, Optimum(cfg, m, load)))
  }

  lemma StepConverges(cfg: Config, m: Metric, load: int, r: Run, obs: seq<Observation>, n: nat)
    requires Converging(cfg, m, load, r, obs) && n < |obs| && InBand(cfg, m, load, r.worlds[n].spec)
    ensures var w, i := r.worlds[n], r.inputs[n];
            && Decides(i) && Stable(i.outcome.value) && !VerdictOf(cfg, w, i).forced
            && VerdictOf(cfg, w, i).desired == NextCount(cfg, m, load, w.spec)
            && (r.worlds[n + 1].spec == w.spec || r.worlds[n + 1].spec == NextCount(cfg, m, load, w.spec))
  {
    LoopStep(cfg, m, load, r, obs, n);
    assert OutOfBounds(Above, r.inputs[n].outcome.value) <==> TooHigh(cfg, m, load, r.worlds[n].spec);
    assert OutOfBounds(Below, r.inputs[n].outcome.value) <==> TooLow(cfg, m, load, r.worlds[n].spec);
  }

  /** The count goes one replica per change towards the optimum and never past it, and stays in the band and within
      the watermark. */
  lemma {:induction false} ConvergesToOptimum(
    cfg: Config, m: Metric, load: int, r: Run, obs: seq<Observation>, n: nat)
    requires Converging(cfg, m, load, r, obs) && n <= |obs|
    ensures Between(r.worlds[0].spec, r.worlds[n].spec, Optimum(cfg, m, load))
    ensures var opt := Optimum(cfg, m, load);
            Distance(r.worlds[n].spec, opt) + Changes(r, n) == Distance(r.worlds[0].spec, opt)
    ensures InBand(cfg, m, load, r.worlds[n].spec) && WithinMark(cfg, m, load, r.worlds[n].spec)
  {
    if n > 0 {
      ConvergesToOptimum(cfg, m, load, r, obs, n - 1);
      StepConverges(cfg, m, load, r, obs, n - 1);
    }
    StaysInBounds(cfg, m, load, r, obs, n);
    OptimumIsInBand(cfg, m, load, r.worlds[0].spec, r.worlds[n].spec);
  }

  /** ... and no step ever asks for a move in the other direction. */
  lemma NeverTurnsBack(cfg: Config, m: Metric, load: int, r: Run, obs: seq<Observation>, n: nat, side: Side)
    requires Converging(cfg, m, load, r, obs) && n < |obs| && side != Heading(cfg)
    ensures Decides(r.inputs[n]) && !Rescales(cfg, r.worlds[n], r.inputs[n], side)
  {
    ConvergesToOptimum(cfg, m, load, r, obs, n);
    StepConverges(cfg, m, load, r, obs, n);
  }

  lemma ConvergingWaits(cfg: Config, m: Metric, load: int, r: Run, obs: seq<Observation>, period: nat, n: nat)
    requires Converging(cfg, m, load, r, obs) && OnTime(cfg, r, period)
    requires n < |obs| && r.worlds[n].spec != Optimum(cfg, m, load)
    ensures Waits(r, r.inputs[0].clock.record, WindowOf(cfg, Heading(cfg)), n)
  {
    ConvergesToOptimum(cfg, m, load, r, obs, n);
    StepConverges(cfg, m, load, r, obs, n);
    StepMovesOrWaits(cfg, r, n, Heading(cfg), 0);
  }

  /** Requeued at least once per period, the count is exactly at the optimum, for good, after distance times window and
      period. */
  lemma SettlesAtOptimum(cfg: Config, m: Metric, load: int, r: Run, obs: seq<Observation>, period: nat, n: nat)
    requires Converging(cfg, m, load, r, obs) && OnTime(cfg, r, period) && n < |obs|
    requires r.inputs[n].clock.begin >= r.inputs[0].clock.record + Distance(r.worlds[0].spec, Optimum(cfg, m, load))
                                        * (WindowOf(cfg, Heading(cfg)) + period)
    ensures r.worlds[n].spec == Optimum(cfg, m, load) == r.worlds[|obs|].spec
  {
    var base, gap := r.inputs[0].clock.record, WindowOf(cfg, Heading(cfg));
    if r.worlds[n].spec != Optimum(cfg, m, load) {
      forall j | 0 <= j < n ensures Waits(r, base, gap, j) {
        StaysAtOptimum(cfg, m, load, r, obs, j, n);
        ConvergingWaits(cfg, m, load, r, obs, period, j);
      }
      assert Ordered(r.inputs[0].clock) && Ordered(r.inputs[n].clock);
      KeepsPace(r, base, gap, period, n);
      ConvergesToOptimum(cfg, m, load, r, obs, n);
      ProductIsMonotone(Changes(r, n) + 1, Distance(r.worlds[0].spec, Optimum(cfg, m, load)), gap + period);
    } else {
      StaysAtOptimum(cfg, m, load, r, obs, n, |obs|);
    }
  }

  lemma {:induction false} StaysAtOptimum(
    cfg: Config, m: Metric, load: int, r: Run, obs: seq<Observation>, i: nat, n: nat)
    requires Converging(cfg, m, load, r, obs) && i <= n <= |obs|
    ensures r.worlds[i].spec == Optimum(cfg, m, load) ==> r.worlds[n].spec == Optimum(cfg, m, load)
  {
    if i < n {
      StaysAtOptimum(cfg, m, load, r, obs, i, n - 1);
      ConvergesToOptimum(cfg, m, load, r, obs, n - 1);
      StepConverges(cfg, m, load, r, obs, n - 1);
    }
  }

  // ---------- Without metrics ----------

  /** A run of a spec without metrics, on targets that are found and report some replica. */
  ghost predicate Unmeasured(cfg: Config, r: Run, obs: seq<Observation>) {
    && ValidConfig(cfg) && cfg.source == Metrics([]) && IsRun(cfg, r) && |obs| == |r.inputs|
    && InBounds(cfg, r.worlds[0].spec)
    && forall n {:trigger UnmeasuredAt(cfg, r, obs, n)} :: 0 <= n < |obs| ==> UnmeasuredAt(cfg, r, obs, n)
  }

  ghost predicate UnmeasuredAt(cfg: Config, r: Run, obs: seq<Observation>, n: nat)
    requires n < |obs| == |r.inputs| < |r.worlds| && cfg.modulo > 0
  {
    var i := r.inputs[n];
    i.Tick? && i.found && i.observed > 0 && Computes(cfg, r.worlds[n], i, obs[n])
  }

  /** Each step keeps the count or takes it to the downscale limit; the decision is the latter. */
  lemma UnmeasuredStep(cfg: Config, r: Run, obs: seq<Observation>, n: nat)
    requires Unmeasured(cfg, r, obs) && n < |obs| && InBounds(cfg, r.worlds[n].spec)
    ensures Decides(r.inputs[n]) && Stable(r.inputs[n].outcome.value)
    ensures var v := VerdictOf(cfg, r.worlds[n], r.inputs[n]);
            var limit := Max(cfg.min, ScaleDownLimit(cfg, r.worlds[n].spec));
            && !v.forced && v.desired == limit
            && (r.worlds[n + 1].spec == r.worlds[n].spec || r.worlds[n + 1].spec == limit)
  {
    assert Linked(cfg, r, n) && UnmeasuredAt(cfg, r, obs, n);
    NoMetricDrains(cfg, r.worlds[n], r.inputs[n], obs[n]);
    NormaliserIsClamp(cfg, r.worlds[n].spec, 0, 0);
    LimitsBracketCurrent(cfg, r.worlds[n].spec);
  }

  /** The count only falls, by at least one per change, and not below the minimum. */
  lemma {:induction false} UnmeasuredFalls(cfg: Config, r: Run, obs: seq<Observation>, i: nat, n: nat)
    requires Unmeasured(cfg, r, obs) && i <= n <= |obs|
    ensures cfg.min <= r.worlds[n].spec <= r.worlds[i].spec <= cfg.max
    ensures r.worlds[n].spec + Changes(r, n) <= r.worlds[i].spec + Changes(r, i)
    decreases n
  {
    if n > 0 {
      UnmeasuredFalls(cfg, r, obs, if i < n then i else n - 1, n - 1);
      UnmeasuredStep(cfg, r, obs, n - 1);
      LimitsBracketCurrent(cfg, r.worlds[n - 1].spec);
    }
  }

  lemma UnmeasuredWaits(cfg: Config, r: Run, obs: seq<Observation>, period: nat, n: nat)
    requires Unmeasured(cfg, r, obs) && OnTime(cfg, r, period) && cfg.downFactor > 0
    requires n < |obs| && r.worlds[n].spec > cfg.min
    ensures Waits(r, r.inputs[0].clock.record, cfg.downWindow, n)
  {
    UnmeasuredFalls(cfg, r, obs, 0, n);
    UnmeasuredStep(cfg, r, obs, n);
    LimitsBracketCurrent(cfg, r.worlds[n].spec);
    StepMovesOrWaits(cfg, r, n, Below, 0);
  }

  /** Without metrics a live run, requeued at least once per period, drains its target to the minimum by a deadline,
      unless the downscale factor is 0. */
  lemma DrainsToMinimum(cfg: Config, r: Run, obs: seq<Observation>, period: nat, n: nat)
    requires Unmeasured(cfg, r, obs) && OnTime(cfg, r, period) && cfg.downFactor > 0 && n < |obs|
    requires r.inputs[n].clock.begin >=
             r.inputs[0].clock.record + (r.worlds[0].spec - cfg.min) * (cfg.downWindow + period)
    ensures r.worlds[n].spec == cfg.min == r.worlds[|obs|].spec
  {
    UnmeasuredFalls(cfg, r, obs, 0, n);
    UnmeasuredFalls(cfg, r, obs, n, |obs|);
    if r.worlds[n].spec > cfg.min {
      forall j | 0 <= j < n ensures Waits(r, r.inputs[0].clock.record, cfg.downWindow, j) {
        UnmeasuredFalls(cfg, r, obs, j, n);
        UnmeasuredWaits(cfg, r, obs, period, j);
      }
      assert Ordered(r.inputs[0].clock) && Ordered(r.inputs[n].clock);
      KeepsPace(r, r.inputs[0].clock.record, cfg.downWindow, period, n);
      ProductIsMonotone(Changes(r, n) + 1, r.worlds[0].spec - cfg.min, cfg.downWindow + period);
    }
  }

  /** With a downscale factor of 0 it stays where it is. */
  lemma {:induction false} FrozenDoesNotDrain(cfg: Config, r: Run, obs: seq<Observation>, n: nat)
    requires Unmeasured(cfg, r, obs) && cfg.downFactor == 0 && n <= |obs|
    ensures r.worlds[n].spec == r.worlds[0].spec
  {
    if n > 0 {
      FrozenDoesNotDrain(cfg, r, obs, n - 1);
      UnmeasuredStep(cfg, r, obs, n - 1);
    }
  }
}
