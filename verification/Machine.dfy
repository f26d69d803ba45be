/** The reconcile step as a state machine over the persisted status and the target's replica count. */
module Machine {
  import opened Math32
  import opened Types
  import opened Normaliser
  import opened Conditions

  /** The part of the WPA status that reconciles read and write. */
  datatype Status = Status(flags: Flags, lastScale: Option<int>, events: int, current: int, desired: int)

  /** The clock readings of one reconcile: when it starts (the cooldown's "now"), when the out-of-bounds
      conditions are set, when the gate runs, and when the outcome is recorded. */
  datatype Clock = Clock(begin: int, compute: int, gate: int, record: int)

  ghost predicate Ordered(c: Clock) { c.begin <= c.compute <= c.gate <= c.record }

  /** What a reconcile decides; forced verdicts are the repairs that bypass metrics and gate. */
  datatype Verdict = Verdict(desired: int, rescale: bool, forced: bool)

  // ---------- Status updates, in program order ----------

  function Mark(s: Status, kind: Kind, status: bool, now: int): Status {
    s.(flags := SetFlag(s.flags, kind, status, now))
  }

  /** Reconcile starts by marking scaling inactive. */
  function Opened(s: Status, clock: Clock): Status { Mark(s, ScalingActive, false, clock.begin) }

  /** The scale of the target was read. */
  function Fetched(cfg: Config, s: Status, clock: Clock): Status {
    Mark(Mark(Opened(s, clock), DryRun, cfg.dryRun, clock.begin), AbleToScale, true, clock.begin)
  }

  /** computeReplicas succeeded. */
  function Observed(s: Status, plan: Calc, clock: Clock): Status {
    Mark(Mark(Mark(s, AboveHigh, plan.above, clock.compute), BelowLow, plan.below, clock.compute),
         ScalingActive, true, clock.compute)
  }

  function Limited(s: Status, limited: bool, clock: Clock): Status { Mark(s, ScalingLimited, limited, clock.gate) }

  predicate BacksOff(s: Status, window: int, now: int) { s.lastScale.Some? && s.lastScale.value + window > now }

  /** The gate notes that a forbidden window is still open. */
  function Gated(cfg: Config, s: Status, clock: Clock): Status {
    if BacksOff(s, cfg.downWindow, clock.begin) || BacksOff(s, cfg.upWindow, clock.begin)
    then Mark(s, AbleToScale, false, clock.gate)
    else s
  }

  function Switched(s: Status, spec: int, clock: Clock): Status {
    if spec == 0 then Mark(s, ScalingActive, false, clock.record) else s
  }

  /** setStatus with rescale set. */
  function Stamped(s: Status, current: int, desired: int, now: int): Status {
    s.(current := current, desired := desired, lastScale := Some(now), events := s.events + 1)
  }

  // ---------- The gate ----------

  predicate CanScaleAfterDelay(backoff: bool, outOfBounds: Option<Flag>, delay: int, now: int, stable: bool) {
    if delay == 0 || stable then !backoff
    else outOfBounds.Some? && outOfBounds.value.status && delay - (now - outOfBounds.value.since) <= 0 && !backoff
  }

  function FlagOf(s: Status, kind: Kind): Option<Flag> { if kind in s.flags then Some(s.flags[kind]) else None }

  predicate ShouldScale(cfg: Config, s: Status, cur: int, desired: int, clock: Clock, stable: bool) {
    if s.lastScale.None? then true
    else if desired > cur then
      CanScaleAfterDelay(BacksOff(s, cfg.upWindow, clock.begin), FlagOf(s, AboveHigh), cfg.upDelay, clock.gate, stable)
    else if desired < cur then
      CanScaleAfterDelay(BacksOff(s, cfg.downWindow, clock.begin), FlagOf(s, BelowLow), cfg.downDelay, clock.gate,
                         stable)
    else false
  }

  function Stable(plan: Calc): bool { !plan.above && !plan.below }

  function Normal(cfg: Config, spec: int, plan: Calc): Normalised {
    Normalise(cfg, spec, Max(plan.replicas, 0), plan.ready)
  }

  /** The decision of reconcileWPA, given the status after computeReplicas. */
  function Judge(cfg: Config, s: Status, spec: int, observed: nat, plan: Calc, clock: Clock): Verdict {
    if spec == 0 then Verdict(0, false, false)
    else if spec > cfg.max then Verdict(cfg.max, true, true)
    else if spec < cfg.min then Verdict(cfg.min, true, true)
    else if observed == 0 then Verdict(1, true, true)
    else
      var n := Normal(cfg, spec, plan).replicas;
      Verdict(n, ShouldScale(cfg, s, spec, n, clock, Stable(plan)), false)
  }

  // ---------- One reconcile ----------

  /** The status a reconcile wants to store, the scale write it attempts, what it adds to the upscale and
      downscale counters, and whether a failing status write is reported as an error, which makes Reconcile
      try once more. */
  datatype Result = Result(status: Status, write: Option<int>, up: int, down: int, retries: bool)

  function Finish(cfg: Config, s: Status, spec: int, observed: nat, v: Verdict, clock: Clock, scaleOk: bool): Result {
    if v.rescale then
      var ready := Mark(s, AbleToScale, true, clock.record);
      if cfg.dryRun then Result(Stamped(ready, observed, v.desired, clock.record), None, 0, 0, true)
      else if !scaleOk then
        Result(Mark(ready, AbleToScale, false, clock.record).(current := observed), Some(v.desired), 0, 0, false)
      else
        var (up, down) := if spec < v.desired then (v.desired - spec, 0) else (0, spec - v.desired);
        Result(Stamped(ready, observed, v.desired, clock.record), Some(v.desired), up, down, true)
    else
      var idle := if cfg.skipNotScalingEvents then Mark(s, ScalingActive, true, clock.record) else s;
      Result(idle.(current := observed, desired := spec), None, 0, 0, true)
  }

  /** The status in memory when the decision is taken. */
  function Decided(cfg: Config, s: Status, spec: int, plan: Calc, clock: Clock): Status {
    var seen := Observed(Fetched(cfg, s, clock), plan, clock);
    var limited := Limited(seen, Normal(cfg, spec, plan).replicas != Max(plan.replicas, 0), clock);
    Switched(Gated(cfg, limited, clock), spec, clock)
  }

  /** reconcileWPA once the target was found; None when a panic was recovered and nothing is stored. */
  function Reconcile(
    cfg: Config, s: Status, spec: int, observed: nat, outcome: Outcome<Calc>, clock: Clock, scaleOk: bool)
    : Option<Result>
  {
    match outcome
    case Panic => None
    case Err => Some(Result(Fetched(cfg, s, clock).(current := observed), None, 0, 0, false))
    case Ok(plan) =>
      var v := Judge(cfg, Observed(Fetched(cfg, s, clock), plan, clock), spec, observed, plan, clock);
      Some(Finish(cfg, Decided(cfg, s, spec, plan, clock), spec, observed, v, clock, scaleOk))
  }

  // ---------- The world between reconciles ----------

  /** Scale.Spec.Replicas, the persisted status, and the controller's upscale and downscale counters. */
  datatype World = World(spec: int, status: Status, ups: int, downs: int)

  /** A reconcile at some moment, with everything the environment chooses, or a write by somebody else. */
  datatype Input =
    | Tick(clock: Clock, observed: nat, found: bool, outcome: Outcome<Calc>,
           scaleOk: bool, statusOk: bool, retryOk: bool)
    | OutsideWrite(replicas: nat)

  function Next(cfg: Config, w: World, i: Input): World {
    match i
    case OutsideWrite(n) => w.(spec := n)
    case Tick(clock, observed, found, outcome, scaleOk, statusOk, retryOk) =>
      if !found then
        if retryOk then w.(status := Mark(Opened(w.status, clock), AbleToScale, false, clock.record)) else w
      else
        match Reconcile(cfg, w.status, w.spec, observed, outcome, clock, scaleOk)
        case None => w
        case Some(r) =>
          var spec := if r.write.Some? && scaleOk then r.write.value else w.spec;
          var status :=
            if statusOk then r.status
            else if r.retries && retryOk then Mark(r.status, AbleToScale, false, clock.record)
            else w.status;
          World(spec, status, w.ups + r.up, w.downs + r.down)
  }

  /** The tick reaches a decision. */
  predicate Decides(i: Input) { i.Tick? && i.found && i.outcome.Ok? }

  function VerdictOf(cfg: Config, w: World, i: Input): Verdict
    requires Decides(i)
  {
    var plan := i.outcome.value;
    Judge(cfg, Observed(Fetched(cfg, w.status, i.clock), plan, i.clock), w.spec, i.observed, plan, i.clock)
  }

  /** The tick records a rescale: one that was written, or one suppressed by dry run. */
  predicate Records(cfg: Config, w: World, i: Input) {
    Decides(i) && VerdictOf(cfg, w, i).rescale && (cfg.dryRun || i.scaleOk)
  }

  /** ... and the record reaches the persisted status, at the first attempt or at the retry. */
  predicate Stores(cfg: Config, w: World, i: Input) { Records(cfg, w, i) && (i.statusOk || i.retryOk) }

  /** The scale write was refused; then a failing status write is not retried. */
  predicate Refused(cfg: Config, w: World, i: Input) {
    Decides(i) && VerdictOf(cfg, w, i).rescale && !cfg.dryRun && !i.scaleOk
  }

  /** What was observed reaches the persisted status, at the first attempt or at the retry. */
  predicate Persists(cfg: Config, w: World, i: Input) {
    Decides(i) ==> i.statusOk || (i.retryOk && !Refused(cfg, w, i))
  }

  // ---------- One step, summarised ----------

  lemma StepSpec(cfg: Config, w: World, i: Input)
    requires i.Tick?
    ensures Next(cfg, w, i).spec ==
            if Records(cfg, w, i) && !cfg.dryRun then VerdictOf(cfg, w, i).desired else w.spec
  {
  }

  lemma StepCounters(cfg: Config, w: World, i: Input)
    requires i.Tick?
    ensures var w' := Next(cfg, w, i);
            && w'.ups - w.ups == Max(w'.spec - w.spec, 0)
            && w'.downs - w.downs == Max(w.spec - w'.spec, 0)
  {
  }

  lemma FinishStamp(cfg: Config, s: Status, spec: int, observed: nat, v: Verdict, clock: Clock, scaleOk: bool)
    ensures var t := Finish(cfg, s, spec, observed, v, clock, scaleOk).status;
            var records := v.rescale && (cfg.dryRun || scaleOk);
            && t.lastScale == (if records then Some(clock.record) else s.lastScale)
            && t.events == s.events + (if records then 1 else 0)
    ensures v.rescale && (cfg.dryRun || scaleOk) ==> Finish(cfg, s, spec, observed, v, clock, scaleOk).retries
  {
  }

  lemma DecidedKeepsStamp(cfg: Config, s: Status, spec: int, plan: Calc, clock: Clock)
    ensures var t := Decided(cfg, s, spec, plan, clock); t.lastScale == s.lastScale && t.events == s.events
  {
  }

  lemma StepStamp(cfg: Config, w: World, i: Input)
    ensures var w' := Next(cfg, w, i);
            && w'.status.lastScale == (if Stores(cfg, w, i) then Some(i.clock.record) else w.status.lastScale)
            && w'.status.events == w.status.events + (if Stores(cfg, w, i) then 1 else 0)
  {
    if Decides(i) {
      var s := Decided(cfg, w.status, w.spec, i.outcome.value, i.clock);
      DecidedKeepsStamp(cfg, w.status, w.spec, i.outcome.value, i.clock);
      FinishStamp(cfg, s, w.spec, i.observed, VerdictOf(cfg, w, i), i.clock, i.scaleOk);
    }
  }

  /** The two conditions the delay gate reads. */
  datatype Side = Above | Below

  function KindOf(side: Side): Kind { if side.Above? then AboveHigh else BelowLow }

  function OutOfBounds(side: Side, plan: Calc): bool { if side.Above? then plan.above else plan.below }

  lemma FinishKeepsFlag(
    cfg: Config, s: Status, spec: int, observed: nat, v: Verdict, clock: Clock, scaleOk: bool, kind: Kind)
    requires kind != AbleToScale && kind != ScalingActive
    ensures FlagOf(Finish(cfg, s, spec, observed, v, clock, scaleOk).status, kind) == FlagOf(s, kind)
  {
  }

  lemma DecidedFlag(cfg: Config, s: Status, spec: int, plan: Calc, clock: Clock, side: Side)
    ensures FlagOf(Decided(cfg, s, spec, plan, clock), KindOf(side)) ==
            FlagOf(Mark(s, KindOf(side), OutOfBounds(side, plan), clock.compute), KindOf(side))
  {
    var fetched := Fetched(cfg, s, clock);
    var seen := Observed(fetched, plan, clock);
    assert FlagOf(fetched, KindOf(side)) == FlagOf(s, KindOf(side));
    assert FlagOf(Decided(cfg, s, spec, plan, clock), KindOf(side)) == FlagOf(seen, KindOf(side));
  }

  lemma StepFlag(cfg: Config, w: World, i: Input, side: Side)
    requires Persists(cfg, w, i)
    ensures FlagOf(Next(cfg, w, i).status, KindOf(side)) ==
            if Decides(i)
            then FlagOf(Mark(w.status, KindOf(side), OutOfBounds(side, i.outcome.value), i.clock.compute), KindOf(side))
            else FlagOf(w.status, KindOf(side))
  {
    if Decides(i) {
      var plan := i.outcome.value;
      DecidedFlag(cfg, w.status, w.spec, plan, i.clock, side);
      FinishKeepsFlag(cfg, Decided(cfg, w.status, w.spec, plan, i.clock), w.spec, i.observed,
                      VerdictOf(cfg, w, i), i.clock, i.scaleOk, KindOf(side));
    }
  }

  // ---------- The stored status, as a user reads it ----------

  predicate Holds(s: Status, kind: Kind) { kind in s.flags && s.flags[kind].status }

  /** Which conditions hold when the decision is taken. */
  predicate HoldsWhenDecided(cfg: Config, s: Status, spec: int, plan: Calc, clock: Clock, kind: Kind) {
    match kind
    case AbleToScale => !BacksOff(s, cfg.upWindow, clock.begin) && !BacksOff(s, cfg.downWindow, clock.begin)
    case ScalingActive => spec != 0
    case ScalingLimited => Normal(cfg, spec, plan).replicas != Max(plan.replicas, 0)
    case DryRun => cfg.dryRun
    case AboveHigh => plan.above
    case BelowLow => plan.below
  }

  lemma MarkHolds(s: Status, kind: Kind, status: bool, now: int, k: Kind)
    ensures Holds(Mark(s, kind, status, now), k) <==> if k == kind then status else Holds(s, k)
  {
  }

  lemma SeenConditions(cfg: Config, s: Status, plan: Calc, clock: Clock, k: Kind)
    requires k != ScalingLimited
    ensures Holds(Observed(Fetched(cfg, s, clock), plan, clock), k) <==>
            match k
            case DryRun => cfg.dryRun
            case AboveHigh => plan.above
            case BelowLow => plan.below
            case _ => true
  {
    var start := Opened(s, clock);
    var dry := Mark(start, DryRun, cfg.dryRun, clock.begin);
    var fetched := Fetched(cfg, s, clock);
    var above := Mark(fetched, AboveHigh, plan.above, clock.compute);
    var below := Mark(above, BelowLow, plan.below, clock.compute);
    MarkHolds(start, DryRun, cfg.dryRun, clock.begin, k);
    MarkHolds(dry, AbleToScale, true, clock.begin, k);
    MarkHolds(fetched, AboveHigh, plan.above, clock.compute, k);
    MarkHolds(above, BelowLow, plan.below, clock.compute, k);
    MarkHolds(below, ScalingActive, true, clock.compute, k);
  }

  lemma GatedConditions(cfg: Config, s: Status, spec: int, limited: bool, clock: Clock, k: Kind)
    ensures Holds(Switched(Gated(cfg, Limited(s, limited, clock), clock), spec, clock), k) <==>
            match k
            case ScalingLimited => limited
            case ScalingActive => spec != 0 && Holds(s, ScalingActive)
            case AbleToScale =>
              && Holds(s, AbleToScale)
              && !BacksOff(s, cfg.upWindow, clock.begin) && !BacksOff(s, cfg.downWindow, clock.begin)
            case _ => Holds(s, k)
  {
    var limitedState := Limited(s, limited, clock);
    var gated := Gated(cfg, limitedState, clock);
    MarkHolds(s, ScalingLimited, limited, clock.gate, k);
    MarkHolds(limitedState, AbleToScale, false, clock.gate, k);
    MarkHolds(gated, ScalingActive, false, clock.record, k);
  }

  lemma DecidedConditions(cfg: Config, s: Status, spec: int, plan: Calc, clock: Clock, k: Kind)
    ensures Holds(Decided(cfg, s, spec, plan, clock), k) <==> HoldsWhenDecided(cfg, s, spec, plan, clock, k)
    ensures Decided(cfg, s, spec, plan, clock).desired == s.desired
  {
    var seen := Observed(Fetched(cfg, s, clock), plan, clock);
    if k != ScalingLimited {
      SeenConditions(cfg, s, plan, clock, k);
    }
    GatedConditions(cfg, seen, spec, Normal(cfg, spec, plan).replicas != Max(plan.replicas, 0), clock, k);
  }

  /** ... and when it has been carried out. */
  predicate HoldsAfterwards(cfg: Config, w: World, i: Input, k: Kind)
    requires Decides(i)
  {
    var rescale := VerdictOf(cfg, w, i).rescale;
    if k.AbleToScale? && rescale then cfg.dryRun || i.scaleOk
    else if k.ScalingActive? && !rescale && cfg.skipNotScalingEvents then true
    else HoldsWhenDecided(cfg, w.status, w.spec, i.outcome.value, i.clock, k)
  }

  /** What the user sees of a decision: the two counts and every condition. */
  ghost predicate Displays(cfg: Config, w: World, i: Input, s: Status)
    requires Decides(i)
  {
    var v := VerdictOf(cfg, w, i);
    && s.current == i.observed
    && s.desired == (if !v.rescale then w.spec else if cfg.dryRun || i.scaleOk then v.desired else w.status.desired)
    && forall k: Kind :: Holds(s, k) <==> HoldsAfterwards(cfg, w, i, k)
  }

  lemma FinishConditions(
    cfg: Config, s: Status, spec: int, observed: nat, v: Verdict, clock: Clock, scaleOk: bool, kind: Kind)
    ensures var t := Finish(cfg, s, spec, observed, v, clock, scaleOk).status;
            && (Holds(t, kind) <==>
                  if kind.AbleToScale? && v.rescale then cfg.dryRun || scaleOk
                  else if kind.ScalingActive? && !v.rescale && cfg.skipNotScalingEvents then true
                  else Holds(s, kind))
            && t.current == observed
            && t.desired ==
               if !v.rescale then spec else if cfg.dryRun || scaleOk then v.desired else s.desired
  {
  }

  /** The status a decision wants to store. */
  function Submitted(cfg: Config, w: World, i: Input): Status
    requires Decides(i)
  {
    Finish(cfg, Decided(cfg, w.status, w.spec, i.outcome.value, i.clock), w.spec, i.observed, VerdictOf(cfg, w, i),
           i.clock, i.scaleOk).status
  }

  lemma SubmissionHolds(cfg: Config, w: World, i: Input, k: Kind)
    requires Decides(i)
    ensures Holds(Submitted(cfg, w, i), k) <==> HoldsAfterwards(cfg, w, i, k)
    ensures var s, v := Submitted(cfg, w, i), VerdictOf(cfg, w, i);
            && s.current == i.observed
            && s.desired ==
               if !v.rescale then w.spec else if cfg.dryRun || i.scaleOk then v.desired else w.status.desired
  {
    var t := Decided(cfg, w.status, w.spec, i.outcome.value, i.clock);
    DecidedConditions(cfg, w.status, w.spec, i.outcome.value, i.clock, k);
    FinishConditions(cfg, t, w.spec, i.observed, VerdictOf(cfg, w, i), i.clock, i.scaleOk, k);
  }

  lemma SubmissionDisplays(cfg: Config, w: World, i: Input)
    requires Decides(i)
    ensures Displays(cfg, w, i, Submitted(cfg, w, i))
  {
    SubmissionHolds(cfg, w, i, DryRun);
    forall k: Kind ensures Holds(Submitted(cfg, w, i), k) <==> HoldsAfterwards(cfg, w, i, k) {
      SubmissionHolds(cfg, w, i, k);
    }
  }

  /** A decision is displayed as it was taken; a status stored at the retry says in addition that the reconcile was not
      able to scale; and after a refused scale write there is no retry. */
  lemma DecisionIsDisplayed(cfg: Config, w: World, i: Input)
    requires Decides(i)
    ensures Displays(cfg, w, i, Submitted(cfg, w, i))
    ensures Next(cfg, w, i).status ==
            if i.statusOk then Submitted(cfg, w, i)
            else if i.retryOk && !Refused(cfg, w, i)
            then Mark(Submitted(cfg, w, i), AbleToScale, false, i.clock.record)
            else w.status
  {
    SubmissionDisplays(cfg, w, i);
  }

  /** Some forbidden window was open when the reconcile began. */
  predicate AnyBackoff(cfg: Config, s: Status, clock: Clock) {
    BacksOff(s, cfg.downWindow, clock.begin) || BacksOff(s, cfg.upWindow, clock.begin)
  }

  /** Since when the conditions hold or not: the dry-run and limited conditions keep their transition time while they
      do not change, but the active condition is renewed by every reconcile, because it starts by being revoked, and
      the able condition by every one that finds a window open or is refused. */
  lemma TransitionTimes(cfg: Config, w: World, i: Input)
    requires Decides(i)
    ensures var s, v, clock := Submitted(cfg, w, i), VerdictOf(cfg, w, i), i.clock;
            var limited := Normal(cfg, w.spec, i.outcome.value).replicas != Max(i.outcome.value.replicas, 0);
            && FlagOf(s, DryRun) == FlagOf(Mark(w.status, DryRun, cfg.dryRun, clock.begin), DryRun)
            && FlagOf(s, ScalingLimited) == FlagOf(Mark(w.status, ScalingLimited, limited, clock.gate), ScalingLimited)
            && (w.spec != 0 ==> FlagOf(s, ScalingActive) == Some(Flag(true, clock.compute)))
            && (w.spec == 0 ==> FlagOf(s, ScalingActive) == Some(Flag(cfg.skipNotScalingEvents, clock.record)))
    ensures FlagOf(Submitted(cfg, w, i), AbleToScale) ==
            if Refused(cfg, w, i) then Some(Flag(false, i.clock.record))
            else if !AnyBackoff(cfg, w.status, i.clock)
            then FlagOf(Mark(w.status, AbleToScale, true, i.clock.begin), AbleToScale)
            else if VerdictOf(cfg, w, i).rescale then Some(Flag(true, i.clock.record))
            else Some(Flag(false, i.clock.gate))
  {
    var plan, clock := i.outcome.value, i.clock;
    DecidedTimes(cfg, w.status, w.spec, plan, clock);
    FinishTimes(cfg, Decided(cfg, w.status, w.spec, plan, clock), w.spec, i.observed, VerdictOf(cfg, w, i), clock,
                i.scaleOk);
  }

  lemma DecidedTimes(cfg: Config, s: Status, spec: int, plan: Calc, clock: Clock)
    ensures var t := Decided(cfg, s, spec, plan, clock);
            var limited := Normal(cfg, spec, plan).replicas != Max(plan.replicas, 0);
            && FlagOf(t, DryRun) == FlagOf(Mark(s, DryRun, cfg.dryRun, clock.begin), DryRun)
            && FlagOf(t, ScalingLimited) == FlagOf(Mark(s, ScalingLimited, limited, clock.gate), ScalingLimited)
            && FlagOf(t, ScalingActive) ==
               Some(if spec != 0 then Flag(true, clock.compute) else Flag(false, clock.record))
            && FlagOf(t, AbleToScale) ==
               if AnyBackoff(cfg, s, clock) then Some(Flag(false, clock.gate))
               else FlagOf(Mark(s, AbleToScale, true, clock.begin), AbleToScale)
  {
    var seen := Observed(Fetched(cfg, s, clock), plan, clock);
    SeenTimes(cfg, s, plan, clock);
    GatedTimes(cfg, seen, spec, Normal(cfg, spec, plan).replicas != Max(plan.replicas, 0), clock);
  }

  lemma FinishTimes(cfg: Config, s: Status, spec: int, observed: nat, v: Verdict, clock: Clock, scaleOk: bool)
    ensures var t := Finish(cfg, s, spec, observed, v, clock, scaleOk).status;
            && FlagOf(t, DryRun) == FlagOf(s, DryRun) && FlagOf(t, ScalingLimited) == FlagOf(s, ScalingLimited)
            && FlagOf(t, ScalingActive) ==
               (if !v.rescale && cfg.skipNotScalingEvents
                then FlagOf(Mark(s, ScalingActive, true, clock.record), ScalingActive) else FlagOf(s, ScalingActive))
            && FlagOf(t, AbleToScale) ==
               if !v.rescale then FlagOf(s, AbleToScale)
               else if cfg.dryRun || scaleOk then FlagOf(Mark(s, AbleToScale, true, clock.record), AbleToScale)
               else Some(Flag(false, clock.record))
  {
  }

  lemma SeenTimes(cfg: Config, s: Status, plan: Calc, clock: Clock)
    ensures var t := Observed(Fetched(cfg, s, clock), plan, clock);
            && t.lastScale == s.lastScale
            && FlagOf(t, DryRun) == FlagOf(Mark(s, DryRun, cfg.dryRun, clock.begin), DryRun)
            && FlagOf(t, AbleToScale) == FlagOf(Mark(s, AbleToScale, true, clock.begin), AbleToScale)
            && FlagOf(t, ScalingActive) == Some(Flag(true, clock.compute))
            && FlagOf(t, ScalingLimited) == FlagOf(s, ScalingLimited)
  {
  }

  lemma GatedTimes(cfg: Config, s: Status, spec: int, limited: bool, clock: Clock)
    requires Holds(s, AbleToScale) && Holds(s, ScalingActive)
    ensures var t := Switched(Gated(cfg, Limited(s, limited, clock), clock), spec, clock);
            && FlagOf(t, DryRun) == FlagOf(s, DryRun)
            && FlagOf(t, ScalingLimited) == FlagOf(Mark(s, ScalingLimited, limited, clock.gate), ScalingLimited)
            && FlagOf(t, ScalingActive) ==
               (if spec != 0 then FlagOf(s, ScalingActive) else Some(Flag(false, clock.record)))
            && FlagOf(t, AbleToScale) ==
               if AnyBackoff(cfg, s, clock) then Some(Flag(false, clock.gate)) else FlagOf(s, AbleToScale)
  {
  }

  /** A failed computation only shows the replicas and that scaling is inactive. */
  lemma FailedComputationIsDisplayed(cfg: Config, w: World, i: Input)
    requires i.Tick? && i.found && i.outcome.Err?
    ensures var s, v := w.status, Next(cfg, w, i).status;
            if !i.statusOk then v == s
            else
              && v.current == i.observed && v.desired == s.desired
              && v.lastScale == s.lastScale && v.events == s.events
              && !Holds(v, ScalingActive) && Holds(v, AbleToScale) && (Holds(v, DryRun) <==> cfg.dryRun)
              && forall kind :: kind in {AboveHigh, BelowLow, ScalingLimited} ==> FlagOf(v, kind) == FlagOf(s, kind)
  {
  }

  /** A target that was not found shows that it cannot be scaled; a panic leaves no trace. */
  lemma MissingTargetIsDisplayed(cfg: Config, w: World, i: Input)
    requires i.Tick? && (!i.found || i.outcome.Panic?)
    ensures var s, v := w.status, Next(cfg, w, i).status;
            if i.found || !i.retryOk then v == s
            else
              && v == s.(flags := v.flags) && !Holds(v, ScalingActive) && !Holds(v, AbleToScale)
              && forall kind :: kind in {AboveHigh, BelowLow, ScalingLimited, DryRun} ==>
                                  FlagOf(v, kind) == FlagOf(s, kind)
  {
  }
}
