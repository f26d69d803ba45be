/** The out-of-bounds delay, read from a condition's transition time, as a statement about the whole history. */
module Delay {
  import opened Math32
  import opened Types
  import opened Normaliser
  import opened Conditions
  import opened Machine
  import opened Runs

  /** When the side's condition became true, if it is true. */
  function TrueSince(s: Status, side: Side): Option<int> {
    var flag := FlagOf(s, KindOf(side));
    if flag.Some? && flag.value.status then Some(flag.value.since) else None
  }

  /** Independent of the condition list: when the current unbroken stretch of out-of-bounds computations began,
      judging by the successful computations alone. A stretch may predate the run. */
  function StretchStart(first: Status, ins: seq<Input>, n: nat, side: Side): Option<int>
    requires n <= |ins|
  {
    if n == 0 then TrueSince(first, side)
    else
      var before := StretchStart(first, ins, n - 1, side);
      var i := ins[n - 1];
      if !Decides(i) then before
      else if !OutOfBounds(side, i.outcome.value) then None
      else if before.Some? then before
      else Some(i.clock.compute)
  }

  /** The stored LastTransitionTime is exactly the start of the current maximal stretch. */
  lemma {:induction false} TransitionStartsStretch(cfg: Config, r: Run, n: nat, side: Side)
    requires IsRun(cfg, r) && StatusPersisted(cfg, r) && n <= |r.inputs|
    ensures TrueSince(r.worlds[n].status, side) == StretchStart(r.worlds[0].status, r.inputs, n, side)
  {
    if n > 0 {
      TransitionStartsStretch(cfg, r, n - 1, side);
      assert Linked(cfg, r, n - 1) && PersistedAt(cfg, r, n - 1);
      StepFlag(cfg, r.worlds[n - 1], r.inputs[n - 1], side);
    }
  }

  /** No successful computation between j and n shares j's second. */
  ghost predicate LastOfItsSecond(ins: seq<Input>, j: nat, n: nat)
    requires j < n <= |ins| && ins[j].Tick?
  {
    forall l :: j < l < n && Decides(ins[l]) ==> ins[l].clock.compute != ins[j].clock.compute
  }

  /** Every successful computation after the start of the stretch was out of bounds, and so was the last one in the
      very second of the start. */
  lemma {:induction false} StretchIsUnbroken(first: Status, ins: seq<Input>, n: nat, side: Side, j: nat)
    requires ClockMovesForward(ins) && j < n <= |ins| && Decides(ins[j])
    requires StretchStart(first, ins, n, side).Some?
    requires var t := StretchStart(first, ins, n, side).value;
             ins[j].clock.compute > t || (ins[j].clock.compute == t && LastOfItsSecond(ins, j, n))
    ensures OutOfBounds(side, ins[j].outcome.value)
  {
    if j < n - 1 && StretchStart(first, ins, n - 1, side).Some? {
      StretchIsUnbroken(first, ins, n - 1, side, j);
    }
  }

  lemma GateReadsThisStep(cfg: Config, s: Status, plan: Calc, clock: Clock, side: Side)
    ensures FlagOf(Observed(Fetched(cfg, s, clock), plan, clock), KindOf(side)) ==
            FlagOf(Mark(s, KindOf(side), OutOfBounds(side, plan), clock.compute), KindOf(side))
    ensures Observed(Fetched(cfg, s, clock), plan, clock).lastScale == s.lastScale
  {
    assert FlagOf(Fetched(cfg, s, clock), KindOf(side)) == FlagOf(s, KindOf(side));
  }

  /** Exactly when the gate lets a move through, in terms of the history alone: its forbidden window is over,
      and either no delay applies or the stretch of out-of-bounds computations is at least as long as the delay. */
  lemma GateOpensIff(cfg: Config, r: Run, n: nat, side: Side)
    requires IsRun(cfg, r) && StatusPersisted(cfg, r) && n < |r.inputs| && Decides(r.inputs[n])
    requires r.worlds[n].status.lastScale.Some?
    requires var v := VerdictOf(cfg, r.worlds[n], r.inputs[n]);
             !v.forced && Moves(side, r.worlds[n].spec, v.desired)
    ensures var i := r.inputs[n];
            var began := StretchStart(r.worlds[0].status, r.inputs, n + 1, side);
            VerdictOf(cfg, r.worlds[n], i).rescale <==>
            && r.worlds[n].status.lastScale.value + WindowOf(cfg, side) <= i.clock.begin
            && (|| DelayOf(cfg, side) == 0
                || Stable(i.outcome.value)
                || (began.Some? && began.value + DelayOf(cfg, side) <= i.clock.gate))
  {
    var v, i := r.worlds[n], r.inputs[n];
    TransitionStartsStretch(cfg, r, n, side);
    GateReadsThisStep(cfg, v.status, i.outcome.value, i.clock, side);
  }

  /** A delayed upscale (downscale) at step n means that every successful computation of the last delay seconds
      had some metric above (below) its watermark, even if different metrics took turns. The closed end of the
      interval is covered too, except for a computation followed by another one in the same second. */
  lemma DelayOverHistory(cfg: Config, r: Run, n: nat, side: Side, j: nat)
    requires IsRun(cfg, r) && ClockMovesForward(r.inputs) && StatusPersisted(cfg, r)
    requires j <= n < |r.inputs| && Decides(r.inputs[j])
    requires Rescales(cfg, r.worlds[n], r.inputs[n], side) && r.worlds[n].status.lastScale.Some?
    requires DelayOf(cfg, side) > 0 && !Stable(r.inputs[n].outcome.value)
    requires var since := r.inputs[n].clock.gate - DelayOf(cfg, side);
             || r.inputs[j].clock.compute > since
             || (r.inputs[j].clock.compute == since && LastOfItsSecond(r.inputs, j, n + 1))
    ensures OutOfBounds(side, r.inputs[j].outcome.value)
  {
    GateOpensIff(cfg, r, n, side);
    StretchIsUnbroken(r.worlds[0].status, r.inputs, n + 1, side, j);
  }

  // ---------- Why the boundary second needs care ----------

  /** A reconcile that happens within one second, sees the given plan, and whose writes succeed. */
  function QuickTick(now: int, observed: nat, plan: Calc): Input {
    Tick(Clock(now, now, now, now), observed, true, Ok(plan), true, true, true)
  }

  /** A plan that stays at n, and one that asks for more because some metric is above its watermark. */
  predicate IsQuiet(n: int, plan: Calc) { plan.replicas == n && !plan.above && !plan.below }

  predicate IsBusy(n: int, plan: Calc) { plan.replicas > n && plan.above && !plan.below }

  lemma NormalGrows(cfg: Config, n: int, plan: Calc)
    requires ValidConfig(cfg) && cfg.min <= n < cfg.max && cfg.upFactor > 0
    ensures IsQuiet(n, plan) ==> Normal(cfg, n, plan).replicas == n
    ensures IsBusy(n, plan) ==> Normal(cfg, n, plan).replicas > n
  {
    LimitsBracketCurrent(cfg, n);
    NormaliserIsClamp(cfg, n, Max(plan.replicas, 0), plan.ready);
  }

  /** The scene: a count that may grow, whose last rescale is long enough ago. */
  ghost predicate MayGrow(cfg: Config, w: World) {
    && ValidConfig(cfg) && cfg.min <= w.spec < cfg.max && cfg.upFactor > 0 && cfg.upDelay > 0
    && w.status.lastScale == Some(-cfg.upWindow)
  }

  /** In second 0 nothing happens to the count, and the condition follows the plan. */
  lemma NothingHappensYet(cfg: Config, r: Run, k: nat, plan: Calc)
    requires IsRun(cfg, r) && k < |r.inputs| && MayGrow(cfg, r.worlds[k]) && TrueSince(r.worlds[k].status, Above).None?
    requires r.inputs[k] == QuickTick(0, r.worlds[k].spec, plan)
    requires IsQuiet(r.worlds[k].spec, plan) || IsBusy(r.worlds[k].spec, plan)
    ensures MayGrow(cfg, r.worlds[k + 1]) && r.worlds[k + 1].spec == r.worlds[k].spec
    ensures TrueSince(r.worlds[k + 1].status, Above) == if plan.above then Some(0) else None
  {
    var w, i := r.worlds[k], r.inputs[k];
    NormalGrows(cfg, w.spec, plan);
    GateReadsThisStep(cfg, w.status, plan, i.clock, Above);
    assert !VerdictOf(cfg, w, i).rescale;
    assert Linked(cfg, r, k);
    StepSpec(cfg, w, i);
    StepStamp(cfg, w, i);
    StepFlag(cfg, w, i, Above);
  }

  lemma GrowsAfterDelay(cfg: Config, w: World, plan: Calc)
    requires MayGrow(cfg, w) && TrueSince(w.status, Above) == Some(0) && IsBusy(w.spec, plan)
    ensures Rescales(cfg, w, QuickTick(cfg.upDelay, w.spec, plan), Above)
  {
    var i := QuickTick(cfg.upDelay, w.spec, plan);
    NormalGrows(cfg, w.spec, plan);
    GateReadsThisStep(cfg, w.status, plan, i.clock, Above);
  }

  function Scene(cfg: Config, n: nat, quiet: Calc, busy: Calc, still: Calc): seq<Input> {
    [QuickTick(0, n, quiet), QuickTick(0, n, busy), QuickTick(cfg.upDelay, n, still)]
  }

  lemma SceneIsOrderly(cfg: Config, r: Run, n: nat, quiet: Calc, busy: Calc, still: Calc)
    requires cfg.upDelay > 0 && IsRun(cfg, r) && r.inputs == Scene(cfg, n, quiet, busy, still)
    ensures ClockMovesForward(r.inputs) && StatusPersisted(cfg, r)
  {
  }

  /** Two reconciles in second 0, the first inside the band and the second above it, and an upscale exactly the
      delay later: transition times are whole seconds, so the first one goes unnoticed. */
  lemma SharedSecondGoesUnnoticed(cfg: Config, w: World, quiet: Calc, busy: Calc, still: Calc) returns (r: Run)
    requires MayGrow(cfg, w) && TrueSince(w.status, Above).None?
    requires IsQuiet(w.spec, quiet) && IsBusy(w.spec, busy) && IsBusy(w.spec, still)
    ensures IsRun(cfg, r) && r.worlds[0] == w && r.inputs == Scene(cfg, w.spec, quiet, busy, still)
    ensures ClockMovesForward(r.inputs) && StatusPersisted(cfg, r)
    ensures r.worlds[1].spec == r.worlds[2].spec == w.spec && r.worlds[2].status.lastScale.Some?
    ensures Rescales(cfg, r.worlds[2], r.inputs[2], Above) && !Stable(r.inputs[2].outcome.value)
    ensures Decides(r.inputs[0]) && r.inputs[0].clock.compute == r.inputs[2].clock.gate - cfg.upDelay
    ensures !OutOfBounds(Above, r.inputs[0].outcome.value)
  {
    r := RunExists(cfg, w, Scene(cfg, w.spec, quiet, busy, still));
    SceneIsOrderly(cfg, r, w.spec, quiet, busy, still);
    NothingHappensYet(cfg, r, 0, quiet);
    NothingHappensYet(cfg, r, 1, busy);
    GrowsAfterDelay(cfg, r.worlds[2], still);
  }
}
