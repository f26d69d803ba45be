/** Runs of the reconcile machine, and what holds over whole runs for every calculator and environment. */
module Runs {
  import opened Math32
  import opened Types
  import opened Normaliser
  import opened Conditions
  import opened Machine

  /** worlds[n] is the world before inputs[n]. */
  datatype Run = Run(worlds: seq<World>, inputs: seq<Input>)

  ghost predicate Linked(cfg: Config, r: Run, n: nat)
    requires n < |r.inputs| < |r.worlds|
  {
    r.worlds[n + 1] == Next(cfg, r.worlds[n], r.inputs[n])
  }

  ghost predicate IsRun(cfg: Config, r: Run) {
    && |r.worlds| == |r.inputs| + 1
    && forall n {:trigger Linked(cfg, r, n)} :: 0 <= n < |r.inputs| ==> Linked(cfg, r, n)
  }

  /** Every environment can be run from every world. */
  lemma {:induction false} RunExists(cfg: Config, w: World, ins: seq<Input>) returns (r: Run)
    ensures IsRun(cfg, r) && r.inputs == ins && r.worlds[0] == w
  {
    if ins == [] {
      r := Run([w], []);
    } else {
      var last := |ins| - 1;
      var p := RunExists(cfg, w, ins[..last]);
      r := Run(p.worlds + [Next(cfg, p.worlds[last], ins[last])], ins);
      forall n | 0 <= n < |ins| ensures Linked(cfg, r, n) {
        if n < last {
          assert Linked(cfg, p, n) && p.inputs[n] == ins[n];
        }
      }
    }
  }

  // ---------- Assumptions about environments ----------

  ghost predicate ClockMovesForward(ins: seq<Input>) {
    && (forall i :: 0 <= i < |ins| && ins[i].Tick? ==> Ordered(ins[i].clock))
    && (forall i, j :: 0 <= i < j < |ins| && ins[i].Tick? && ins[j].Tick? ==>
                         ins[i].clock.record <= ins[j].clock.begin)
  }

  ghost predicate NoOutsideWrite(ins: seq<Input>) {
    forall i :: 0 <= i < |ins| ==> ins[i].Tick?
  }

  /** What every reconcile observes reaches the persisted status. */
  ghost predicate StatusPersisted(cfg: Config, r: Run) {
    && |r.inputs| < |r.worlds|
    && forall n {:trigger PersistedAt(cfg, r, n)} :: 0 <= n < |r.inputs| ==> PersistedAt(cfg, r, n)
  }

  ghost predicate PersistedAt(cfg: Config, r: Run, n: nat)
    requires n < |r.inputs| < |r.worlds|
  {
    Persists(cfg, r.worlds[n], r.inputs[n])
  }

  /** Whenever a decision is taken the target reports at least one replica. */
  ghost predicate ReplicasReported(ins: seq<Input>) {
    forall i :: 0 <= i < |ins| && Decides(ins[i]) ==> ins[i].observed > 0
  }

  predicate InBounds(cfg: Config, n: int) { cfg.min <= n <= cfg.max }

  // ---------- Bounds ----------

  lemma StepStaysInBounds(cfg: Config, w: World, i: Input)
    requires ValidConfig(cfg) && InBounds(cfg, w.spec) && i.Tick? && (Decides(i) ==> i.observed > 0)
    ensures InBounds(cfg, Next(cfg, w, i).spec)
    ensures Decides(i) ==> !VerdictOf(cfg, w, i).forced
  {
    StepSpec(cfg, w, i);
    if Decides(i) {
      NormaliserGuarantees(cfg, w.spec, Max(i.outcome.value.replicas, 0), i.outcome.value.ready);
    }
  }

  /** A run that starts inside [min, max], undisturbed by outside writes. */
  ghost predicate Bounded(cfg: Config, r: Run) {
    && IsRun(cfg, r) && ValidConfig(cfg) && InBounds(cfg, r.worlds[0].spec)
    && NoOutsideWrite(r.inputs) && ReplicasReported(r.inputs)
  }

  /** Once inside [min, max] the count stays there and no repair fires again. */
  lemma {:induction false} BoundsOverRuns(cfg: Config, r: Run, n: nat)
    requires Bounded(cfg, r) && n <= |r.inputs|
    ensures InBounds(cfg, r.worlds[n].spec)
    ensures n < |r.inputs| && Decides(r.inputs[n]) ==> !VerdictOf(cfg, r.worlds[n], r.inputs[n]).forced
  {
    if n > 0 {
      BoundsOverRuns(cfg, r, n - 1);
      assert Linked(cfg, r, n - 1);
      StepStaysInBounds(cfg, r.worlds[n - 1], r.inputs[n - 1]);
    }
    if n < |r.inputs| {
      StepStaysInBounds(cfg, r.worlds[n], r.inputs[n]);
    }
  }

  /** From any other nonzero count one decided, applied step repairs it, whatever was proposed. */
  lemma OneStepRepairs(cfg: Config, w: World, i: Input)
    requires ValidConfig(cfg) && w.spec != 0 && !InBounds(cfg, w.spec)
    requires Decides(i) && i.scaleOk && !cfg.dryRun
    ensures Next(cfg, w, i).spec == Cap(w.spec, cfg.min, cfg.max)
  {
    StepSpec(cfg, w, i);
  }

  lemma StepKeepsZero(cfg: Config, w: World, i: Input)
    requires ValidConfig(cfg) && i.Tick?
    ensures Next(cfg, w, i).spec == 0 <==> w.spec == 0
  {
    StepSpec(cfg, w, i);
    if Decides(i) && InBounds(cfg, w.spec) {
      NormaliserGuarantees(cfg, w.spec, Max(i.outcome.value.replicas, 0), i.outcome.value.ready);
    }
  }

  /** The controller never writes 0, and a 0 set by somebody else is never changed. */
  lemma {:induction false} ZeroIsLeftAlone(cfg: Config, r: Run, n: nat)
    requires IsRun(cfg, r) && ValidConfig(cfg) && NoOutsideWrite(r.inputs) && n <= |r.inputs|
    ensures r.worlds[n].spec == 0 <==> r.worlds[0].spec == 0
  {
    if n > 0 {
      ZeroIsLeftAlone(cfg, r, n - 1);
      assert Linked(cfg, r, n - 1);
      StepKeepsZero(cfg, r.worlds[n - 1], r.inputs[n - 1]);
    }
  }

  /** A decision targets a count inside [min, max] except, exactly, when the count was already inside, the
      target reports no replica and the minimum is above 1: then 1 is written. */
  lemma TargetInBoundsIff(cfg: Config, w: World, i: Input)
    requires ValidConfig(cfg) && w.spec != 0 && Decides(i)
    ensures InBounds(cfg, VerdictOf(cfg, w, i).desired)
            <==> !(InBounds(cfg, w.spec) && i.observed == 0 && cfg.min > 1)
  {
    if InBounds(cfg, w.spec) && i.observed > 0 {
      NormaliserGuarantees(cfg, w.spec, Max(i.outcome.value.replicas, 0), i.outcome.value.ready);
    }
  }

  lemma UnreportedStep(cfg: Config, w: World, i: Input)
    requires ValidConfig(cfg) && !cfg.dryRun && w.spec != 0 && Decides(i) && i.observed == 0 && i.scaleOk
    ensures Next(cfg, w, i).spec == if InBounds(cfg, w.spec) then 1 else Cap(w.spec, cfg.min, cfg.max)
  {
    StepSpec(cfg, w, i);
  }

  /** While the target keeps reporting no replica, that write and its repair alternate for ever. */
  lemma {:induction false} UnreportedReplicasOscillate(cfg: Config, r: Run, n: nat)
    requires ValidConfig(cfg) && cfg.min > 1 && !cfg.dryRun && IsRun(cfg, r) && InBounds(cfg, r.worlds[0].spec)
    requires n <= |r.inputs|
    requires forall j :: 0 <= j < n ==> Decides(r.inputs[j]) && r.inputs[j].observed == 0 && r.inputs[j].scaleOk
    ensures n > 0 ==> r.worlds[n].spec == if n % 2 == 1 then 1 else cfg.min
  {
    if n > 0 {
      UnreportedReplicasOscillate(cfg, r, n - 1);
      assert Linked(cfg, r, n - 1);
      UnreportedStep(cfg, r.worlds[n - 1], r.inputs[n - 1]);
    }
  }

  // ---------- Ledger ----------

  function StoredRescales(cfg: Config, r: Run, n: nat): nat
    requires n <= |r.inputs| < |r.worlds|
  {
    if n == 0 then 0
    else StoredRescales(cfg, r, n - 1) + if Stores(cfg, r.worlds[n - 1], r.inputs[n - 1]) then 1 else 0
  }

  /** Replicas are conserved: the count is the initial one plus the upscale counter minus the downscale
      counter, across failed writes, dry runs, no-op and forced rescales; and the event counter equals the
      number of rescales that reached the stored status. */
  lemma {:induction false} ScalingLedger(cfg: Config, r: Run, n: nat)
    requires IsRun(cfg, r) && NoOutsideWrite(r.inputs) && n <= |r.inputs|
    ensures var w, v := r.worlds[0], r.worlds[n];
            && v.spec == w.spec + (v.ups - w.ups) - (v.downs - w.downs)
            && v.ups >= w.ups && v.downs >= w.downs
            && v.status.events == w.status.events + StoredRescales(cfg, r, n)
  {
    if n > 0 {
      ScalingLedger(cfg, r, n - 1);
      assert Linked(cfg, r, n - 1);
      StepCounters(cfg, r.worlds[n - 1], r.inputs[n - 1]);
      StepStamp(cfg, r.worlds[n - 1], r.inputs[n - 1]);
    }
  }

  // ---------- Cooldown ----------

  function WindowOf(cfg: Config, side: Side): int { if side.Above? then cfg.upWindow else cfg.downWindow }

  function DelayOf(cfg: Config, side: Side): int { if side.Above? then cfg.upDelay else cfg.downDelay }

  /** Above triggers upscales, Below triggers downscales. */
  predicate Moves(side: Side, from: int, to: int) { if side.Above? then to > from else to < from }

  /** The decision, taken by the gate and not by a repair, is to move in the side's direction. */
  ghost predicate Rescales(cfg: Config, w: World, i: Input, side: Side) {
    && Decides(i)
    && var v := VerdictOf(cfg, w, i);
       v.rescale && !v.forced && Moves(side, w.spec, v.desired)
  }

  lemma {:induction false} StoredRescaleIsRemembered(cfg: Config, r: Run, j: nat, n: nat)
    requires IsRun(cfg, r) && ClockMovesForward(r.inputs) && j < n <= |r.inputs|
    requires Stores(cfg, r.worlds[j], r.inputs[j])
    ensures r.worlds[n].status.lastScale.Some?
    ensures r.worlds[n].status.lastScale.value >= r.inputs[j].clock.record
  {
    assert Linked(cfg, r, n - 1);
    StepStamp(cfg, r.worlds[n - 1], r.inputs[n - 1]);
    if j < n - 1 {
      StoredRescaleIsRemembered(cfg, r, j, n - 1);
    }
  }

  /** Every upscale (downscale) the gate lets through starts at least the upscale (downscale) forbidden window
      after every earlier stored rescale of either direction, forced and dry-run ones included. */
  lemma CooldownOverRuns(cfg: Config, r: Run, j: nat, n: nat, side: Side)
    requires IsRun(cfg, r) && ClockMovesForward(r.inputs) && j < n < |r.inputs|
    requires Stores(cfg, r.worlds[j], r.inputs[j])
    requires Rescales(cfg, r.worlds[n], r.inputs[n], side)
    ensures r.inputs[n].clock.begin >= r.inputs[j].clock.record + WindowOf(cfg, side)
  {
    StoredRescaleIsRemembered(cfg, r, j, n);
  }

  // ---------- The first decision ----------

  /** Without a remembered rescale the gate is open for everything: every decision about a nonzero count records a
      rescale, even one that changes nothing. */
  lemma FirstDecisionRecords(cfg: Config, w: World, i: Input)
    requires Decides(i) && w.spec != 0 && w.status.lastScale.None? && (cfg.dryRun || i.scaleOk)
    ensures Records(cfg, w, i)
    ensures var s := Next(cfg, w, i).status;
            if i.statusOk || i.retryOk
            then s.lastScale == Some(i.clock.record) && s.events == w.status.events + 1
            else s.lastScale.None? && s.events == w.status.events
  {
    StepStamp(cfg, w, i);
  }

  /** So a new WPA, in whatever state its target is, cannot move it again before the window of that direction has passed
      since its first stored decision. */
  lemma FirstDecisionStartsWindows(cfg: Config, r: Run, j: nat, n: nat, side: Side)
    requires IsRun(cfg, r) && ClockMovesForward(r.inputs) && j < n < |r.inputs|
    requires r.worlds[j].status.lastScale.None? && r.worlds[j].spec != 0
    requires Decides(r.inputs[j]) && (cfg.dryRun || r.inputs[j].scaleOk)
    requires r.inputs[j].statusOk || r.inputs[j].retryOk
    ensures r.worlds[j + 1].status.lastScale == Some(r.inputs[j].clock.record)
    ensures r.worlds[j + 1].status.events == r.worlds[j].status.events + 1
    ensures Rescales(cfg, r.worlds[n], r.inputs[n], side) ==>
              r.inputs[n].clock.begin >= r.inputs[j].clock.record + WindowOf(cfg, side)
  {
    assert Linked(cfg, r, j);
    FirstDecisionRecords(cfg, r.worlds[j], r.inputs[j]);
    if Rescales(cfg, r.worlds[n], r.inputs[n], side) {
      CooldownOverRuns(cfg, r, j, n, side);
    }
  }
}
