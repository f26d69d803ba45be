/** How far the replica count can travel in a given time. */
module Velocity {
  import opened Math32
  import opened Types
  import opened Normaliser
  import opened Machine
  import opened Runs

  function LimitOf(cfg: Config, side: Side, n: int): int {
    if side.Above? then ScaleUpLimit(cfg, n) else ScaleDownLimit(cfg, n)
  }

  /** The velocity limit applied k times. */
  function Reach(cfg: Config, side: Side, n: int, k: nat): int {
    if k == 0 then n else LimitOf(cfg, side, Reach(cfg, side, n, k - 1))
  }

  /** One step of the side's velocity takes a to b. */
  ghost predicate IsStepOf(cfg: Config, side: Side, a: int, b: int) {
    if side.Above? then IsStep(cfg.upFactor, a, b - a) else IsStep(cfg.downFactor, a, a - b)
  }

  /** k steps of the side's velocity take n to b. */
  ghost predicate IsReach(cfg: Config, side: Side, n: int, k: nat, b: int)
    decreases k
  {
    if k == 0 then b == n else exists a :: IsReach(cfg, side, n, k - 1, a) && IsStepOf(cfg, side, a, b)
  }

  /** There is exactly one such count. */
  lemma {:induction false} ReachExists(cfg: Config, side: Side, n: int, k: nat)
    requires ValidConfig(cfg)
    ensures IsReach(cfg, side, n, k, Reach(cfg, side, n, k))
  {
    if k > 0 {
      ReachExists(cfg, side, n, k - 1);
      var a := Reach(cfg, side, n, k - 1);
      LimitsAreSteps(cfg, a);
      assert IsStepOf(cfg, side, a, LimitOf(cfg, side, a));
    }
  }

  lemma {:induction false} ReachIsUnique(cfg: Config, side: Side, n: int, k: nat, b: int, c: int)
    requires IsReach(cfg, side, n, k, b) && IsReach(cfg, side, n, k, c)
    ensures b == c
  {
    if k > 0 {
      var x :| IsReach(cfg, side, n, k - 1, x) && IsStepOf(cfg, side, x, b);
      var y :| IsReach(cfg, side, n, k - 1, y) && IsStepOf(cfg, side, y, c);
      ReachIsUnique(cfg, side, n, k - 1, x, y);
      if side.Above? {
        StepIsUnique(cfg.upFactor, x, b - x, c - x);
      } else {
        StepIsUnique(cfg.downFactor, x, x - b, x - c);
      }
    }
  }

  /** x does not go past b in the side's direction. */
  predicate Within(side: Side, x: int, b: int) { if side.Above? then x <= b else x >= b }

  lemma ShareGrowsSlowly(factor: int, a: int, b: int)
    requires 0 <= factor && a <= b
    ensures factor * a / 100000 <= factor * b / 100000
    ensures factor <= 100000 ==> factor * b / 100000 <= factor * a / 100000 + (b - a)
  {
    var p, q := factor * a, factor * b;
    assert q - p == factor * (b - a);
    assert factor * (b - a) >= 0;
    assert factor <= 100000 ==> factor * (b - a) <= 100000 * (b - a);
  }

  lemma LimitIsMonotone(cfg: Config, side: Side, a: int, b: int)
    requires ValidConfig(cfg) && Within(side, a, b)
    ensures Within(side, LimitOf(cfg, side, a), LimitOf(cfg, side, b))
    ensures Within(side, a, LimitOf(cfg, side, a))
    ensures Within(side, a, LimitOf(cfg, side, b))
  {
    if side.Above? {
      ShareGrowsSlowly(cfg.upFactor, a, b);
    } else {
      ShareGrowsSlowly(cfg.downFactor, b, a);
    }
  }

  lemma {:induction false} ReachExtends(cfg: Config, side: Side, n: int, k: nat, m: nat)
    requires ValidConfig(cfg) && k <= m
    ensures Within(side, Reach(cfg, side, n, k), Reach(cfg, side, n, m))
  {
    if k < m {
      ReachExtends(cfg, side, n, k, m - 1);
      LimitIsMonotone(cfg, side, Reach(cfg, side, n, k), Reach(cfg, side, n, m - 1));
    }
  }

  /** How many of the first n steps moved the count in the side's direction. */
  function MovesTaken(r: Run, n: nat, side: Side): nat
    requires n < |r.worlds|
  {
    if n == 0 then 0
    else MovesTaken(r, n - 1, side) + if Moves(side, r.worlds[n - 1].spec, r.worlds[n].spec) then 1 else 0
  }

  /** Bounded, every record reaches the stored status, and all ticks start within [start, start + span]. */
  ghost predicate Undisturbed(cfg: Config, r: Run, start: int, span: nat) {
    && Bounded(cfg, r) && ClockMovesForward(r.inputs)
    && (forall i :: 0 <= i < |r.inputs| ==> r.inputs[i].statusOk || r.inputs[i].retryOk)
    && (forall i :: 0 <= i < |r.inputs| ==> start <= r.inputs[i].clock.begin <= start + span)
  }

  lemma StepIsVelocityLimited(cfg: Config, w: World, i: Input, side: Side)
    requires ValidConfig(cfg) && InBounds(cfg, w.spec) && i.Tick? && (Decides(i) ==> i.observed > 0)
    ensures Within(side, Next(cfg, w, i).spec, LimitOf(cfg, side, w.spec))
    ensures Moves(side, w.spec, Next(cfg, w, i).spec) ==> Rescales(cfg, w, i, side) && Records(cfg, w, i)
  {
    StepSpec(cfg, w, i);
    LimitsBracketCurrent(cfg, w.spec);
    if Decides(i) {
      NormaliserGuarantees(cfg, w.spec, Max(i.outcome.value.replicas, 0), i.outcome.value.ready);
    }
  }

  /** The k-th move starts at least this long after the run does. */
  function Elapsed(cfg: Config, side: Side, k: nat): int {
    if k <= 1 then 0 else Elapsed(cfg, side, k - 1) + WindowOf(cfg, side)
  }

  lemma {:induction false} ElapsedIsProduct(cfg: Config, side: Side, k: nat)
    requires k >= 1
    ensures Elapsed(cfg, side, k) == (k - 1) * WindowOf(cfg, side)
  {
    if k > 1 {
      ElapsedIsProduct(cfg, side, k - 1);
    }
  }

  /** What k moves imply: a rescale is remembered, and it and every later tick are k - 1 windows into the run. */
  ghost predicate Spaced(cfg: Config, r: Run, n: nat, start: int, span: nat, side: Side, k: nat)
    requires n < |r.worlds| && NoOutsideWrite(r.inputs)
  {
    var last := r.worlds[n].status.lastScale;
    k >= 1 ==>
      && last.Some? && last.value >= start + Elapsed(cfg, side, k)
      && Elapsed(cfg, side, k) <= span
      && forall i :: n <= i < |r.inputs| ==> r.inputs[i].clock.begin >= start + Elapsed(cfg, side, k)
  }

  /** One more step keeps the spacing; a move costs one more window. */
  lemma StepKeepsSpacing(cfg: Config, r: Run, n: nat, start: int, span: nat, side: Side, k: nat)
    requires Undisturbed(cfg, r, start, span) && n < |r.inputs| && Spaced(cfg, r, n, start, span, side, k)
    ensures Spaced(cfg, r, n + 1, start, span, side,
                   if Moves(side, r.worlds[n].spec, r.worlds[n + 1].spec) then k + 1 else k)
  {
    BoundsOverRuns(cfg, r, n);
    assert Linked(cfg, r, n);
    StepIsVelocityLimited(cfg, r.worlds[n], r.inputs[n], side);
    StepStamp(cfg, r.worlds[n], r.inputs[n]);
    var clock, moved := r.inputs[n].clock, Moves(side, r.worlds[n].spec, r.worlds[n + 1].spec);
    assert Ordered(clock);
    if moved && k >= 1 {
      assert clock.begin >= r.worlds[n].status.lastScale.value + WindowOf(cfg, side);
    }
    assert moved ==> clock.begin >= start + Elapsed(cfg, side, k + 1);
  }

  lemma {:induction false} MovesStaySpaced(cfg: Config, r: Run, n: nat, start: int, span: nat, side: Side)
    requires Undisturbed(cfg, r, start, span) && n <= |r.inputs|
    ensures Spaced(cfg, r, n, start, span, side, MovesTaken(r, n, side))
  {
    if n > 0 {
      MovesStaySpaced(cfg, r, n - 1, start, span, side);
      StepKeepsSpacing(cfg, r, n - 1, start, span, side, MovesTaken(r, n - 1, side));
    }
  }

  lemma StepReaches(cfg: Config, r: Run, n: nat, side: Side, b: int)
    requires Bounded(cfg, r) && n < |r.inputs| && Within(side, r.worlds[n].spec, b)
    ensures Within(side, r.worlds[n + 1].spec,
                   if Moves(side, r.worlds[n].spec, r.worlds[n + 1].spec) then LimitOf(cfg, side, b) else b)
  {
    BoundsOverRuns(cfg, r, n);
    assert Linked(cfg, r, n);
    StepIsVelocityLimited(cfg, r.worlds[n], r.inputs[n], side);
    LimitIsMonotone(cfg, side, r.worlds[n].spec, b);
  }

  lemma {:induction false} MovesReach(cfg: Config, r: Run, n: nat, side: Side)
    requires Bounded(cfg, r) && n <= |r.inputs|
    ensures Within(side, r.worlds[n].spec, Reach(cfg, side, r.worlds[0].spec, MovesTaken(r, n, side)))
  {
    if n > 0 {
      MovesReach(cfg, r, n - 1, side);
      StepReaches(cfg, r, n - 1, side, Reach(cfg, side, r.worlds[0].spec, MovesTaken(r, n - 1, side)));
    }
  }

  lemma MovesAreFew(cfg: Config, r: Run, n: nat, start: int, span: nat, side: Side)
    requires Undisturbed(cfg, r, start, span) && n <= |r.inputs|
    ensures MovesTaken(r, n, side) <= span / WindowOf(cfg, side) + 1
  {
    MovesStaySpaced(cfg, r, n, start, span, side);
    var k, window := MovesTaken(r, n, side), WindowOf(cfg, side);
    if k >= 1 {
      ElapsedIsProduct(cfg, side, k);
      QuotientReaches(k - 1, window, span);
    }
  }

  lemma MovesStayWithin(cfg: Config, r: Run, n: nat, side: Side, k: nat)
    requires Bounded(cfg, r) && n <= |r.inputs| && MovesTaken(r, n, side) <= k
    ensures exists b :: IsReach(cfg, side, r.worlds[0].spec, k, b) && Within(side, r.worlds[n].spec, b)
  {
    MovesReach(cfg, r, n, side);
    ReachExtends(cfg, side, r.worlds[0].spec, MovesTaken(r, n, side), k);
    ReachExists(cfg, side, r.worlds[0].spec, k);
  }

  /** However upscales and downscales interleave, in span seconds the count cannot grow (shrink) past the
      count that span / window + 1 steps of the velocity reach from where it started. */
  lemma VelocityOverTime(cfg: Config, r: Run, n: nat, start: int, span: nat, side: Side)
    requires Undisturbed(cfg, r, start, span) && n <= |r.inputs|
    ensures MovesTaken(r, n, side) <= span / WindowOf(cfg, side) + 1
    ensures exists b :: IsReach(cfg, side, r.worlds[0].spec, span / WindowOf(cfg, side) + 1, b)
                        && Within(side, r.worlds[n].spec, b)
  {
    MovesAreFew(cfg, r, n, start, span, side);
    MovesStayWithin(cfg, r, n, side, span / WindowOf(cfg, side) + 1);
  }
}
