/** How long a run can go without changing the count, when reconciles come as regularly as the controller requeues
    them and usually find the forbidden window still open. */
module Timing {
  import opened Math32
  import opened Types
  import opened Machine
  import opened Runs
  import opened Delay

  // ---------- Schedules ----------

  /** Every write succeeds, and nobody else writes. */
  ghost predicate Live(cfg: Config, r: Run) {
    && !cfg.dryRun && ClockMovesForward(r.inputs) && StatusPersisted(cfg, r) && NoOutsideWrite(r.inputs)
    && forall i :: 0 <= i < |r.inputs| ==> r.inputs[i].scaleOk
  }

  /** Each reconcile is over within a period of the previous one's start. */
  ghost predicate Regular(r: Run, period: nat)
    requires NoOutsideWrite(r.inputs)
  {
    forall i :: 1 <= i < |r.inputs| ==> r.inputs[i].clock.record <= r.inputs[i - 1].clock.begin + period
  }

  /** Nothing in the initial status lies in the future. */
  ghost predicate StartsInPast(r: Run) {
    r.worlds != [] && r.inputs != [] && r.inputs[0].Tick? ==>
      && (var last := r.worlds[0].status.lastScale; last.Some? ==> last.value <= r.inputs[0].clock.begin)
      && forall side :: var t := TrueSince(r.worlds[0].status, side); t.Some? ==> t.value <= r.inputs[0].clock.begin
  }

  ghost predicate OnTime(cfg: Config, r: Run, period: nat) {
    Live(cfg, r) && Regular(r, period) && StartsInPast(r)
  }

  /** How many of the first n steps changed the count. */
  function Changes(r: Run, n: nat): nat
    requires n < |r.worlds|
  {
    if n == 0 then 0 else Changes(r, n - 1) + if r.worlds[n - 1].spec != r.worlds[n].spec then 1 else 0
  }

  /** Since when the count is what it is before step n. */
  function SegmentStart(r: Run, n: nat): (s: nat)
    requires n < |r.worlds|
    ensures s <= n
  {
    if n == 0 then 0 else if r.worlds[n - 1].spec != r.worlds[n].spec then n else SegmentStart(r, n - 1)
  }

  lemma {:induction false} SegmentIsConstant(r: Run, n: nat, j: nat)
    requires n < |r.worlds| && SegmentStart(r, n) <= j <= n
    ensures r.worlds[j].spec == r.worlds[n].spec
    ensures var s := SegmentStart(r, n); s > 0 ==> r.worlds[s - 1].spec != r.worlds[s].spec
  {
    if n > 0 && SegmentStart(r, n) < n {
      SegmentIsConstant(r, n - 1, if j < n then j else n - 1);
    }
  }

  // ---------- Stretches ----------

  lemma {:induction false} StretchIsPast(first: Status, ins: seq<Input>, n: nat, side: Side, t: int)
    requires n <= |ins| && forall j :: 0 <= j < n && ins[j].Tick? ==> ins[j].clock.compute <= t
    requires TrueSince(first, side).Some? ==> TrueSince(first, side).value <= t
    ensures StretchStart(first, ins, n, side).Some? ==> StretchStart(first, ins, n, side).value <= t
  {
    if n > 0 {
      StretchIsPast(first, ins, n - 1, side, t);
    }
  }

  /** A stretch that covers the steps from s on began no later than s. */
  lemma {:induction false} StretchSince(first: Status, ins: seq<Input>, s: nat, n: nat, side: Side)
    requires s < n <= |ins| && ClockMovesForward(ins) && NoOutsideWrite(ins)
    requires TrueSince(first, side).Some? ==> TrueSince(first, side).value <= ins[0].clock.begin
    requires forall j :: s <= j < n ==> Decides(ins[j]) && OutOfBounds(side, ins[j].outcome.value)
    ensures StretchStart(first, ins, n, side).Some?
    ensures StretchStart(first, ins, n, side).value <= ins[s].clock.compute
  {
    if s < n - 1 {
      StretchSince(first, ins, s, n - 1, side);
    } else {
      var t := ins[s].clock.compute;
      assert Ordered(ins[s].clock) && Ordered(ins[0].clock);
      forall j | 0 <= j < s ensures ins[j].clock.compute <= t {
        assert Ordered(ins[j].clock);
      }
      StretchIsPast(first, ins, s, side, t);
    }
  }

  // ---------- One step ----------

  function Latest(w: World, base: int): int {
    if w.status.lastScale.Some? then Max(w.status.lastScale.value, base) else base
  }

  /** Step n changes the count and remembers when, or it comes less than gap after the last rescale or the base. */
  ghost predicate Waits(r: Run, base: int, gap: nat, n: nat)
    requires n < |r.inputs| < |r.worlds| && NoOutsideWrite(r.inputs)
  {
    var w, w', clock := r.worlds[n], r.worlds[n + 1], r.inputs[n].clock;
    if w.spec != w'.spec then w'.status.lastScale == Some(clock.record)
    else w'.status.lastScale == w.status.lastScale && clock.begin < Latest(w, base) + gap
  }

  /** In a live run a proposed move is made, or its window or its delay is not over. */
  lemma StepMovesOrWaits(cfg: Config, r: Run, n: nat, side: Side, since: int)
    requires IsRun(cfg, r) && Live(cfg, r) && n < |r.inputs| && Decides(r.inputs[n])
    requires var v := VerdictOf(cfg, r.worlds[n], r.inputs[n]);
             !v.forced && Moves(side, r.worlds[n].spec, v.desired)
    requires || Stable(r.inputs[n].outcome.value)
             || var began := StretchStart(r.worlds[0].status, r.inputs, n + 1, side);
                began.Some? && began.value <= since
    ensures var w, w', i := r.worlds[n], r.worlds[n + 1], r.inputs[n];
            if w'.spec != w.spec then w'.status.lastScale == Some(i.clock.record)
            else
              && w'.status.lastScale == w.status.lastScale && w.status.lastScale.Some?
              && (|| i.clock.begin < w.status.lastScale.value + WindowOf(cfg, side)
                  || (!Stable(i.outcome.value) && i.clock.gate < since + DelayOf(cfg, side)))
  {
    var w, i := r.worlds[n], r.inputs[n];
    assert Linked(cfg, r, n) && PersistedAt(cfg, r, n);
    StepSpec(cfg, w, i);
    StepStamp(cfg, w, i);
    if w.status.lastScale.Some? {
      GateOpensIff(cfg, r, n, side);
    } else {
      GateReadsThisStep(cfg, w.status, i.outcome.value, i.clock, side);
    }
  }

  /** In a live run every change leaves its time behind. */
  lemma ChangeIsRemembered(cfg: Config, r: Run, j: nat, n: nat)
    requires IsRun(cfg, r) && Live(cfg, r) && j < n <= |r.inputs| && r.worlds[j].spec != r.worlds[j + 1].spec
    ensures var last := r.worlds[n].status.lastScale; last.Some? && last.value >= r.inputs[j].clock.record
  {
    assert Linked(cfg, r, j) && PersistedAt(cfg, r, j);
    StepSpec(cfg, r.worlds[j], r.inputs[j]);
    StoredRescaleIsRemembered(cfg, r, j, n);
  }

  // ---------- Many steps ----------

  /** When every step so far changed the count or waited, the count changes at least once per gap and period. */
  lemma {:induction false} KeepsPace(r: Run, base: int, gap: nat, period: nat, n: nat)
    requires |r.worlds| == |r.inputs| + 1 && n < |r.inputs| && NoOutsideWrite(r.inputs) && gap > 0
    requires ClockMovesForward(r.inputs) && Regular(r, period) && r.inputs[0].clock.record <= base
    requires r.worlds[0].status.lastScale.Some? ==> r.worlds[0].status.lastScale.value <= base
    requires forall j {:trigger Waits(r, base, gap, j)} :: 0 <= j < n ==> Waits(r, base, gap, j)
    ensures var last := r.worlds[n].status.lastScale;
            last.Some? ==> last.value <= base + Changes(r, n) * (gap + period)
    ensures r.inputs[n].clock.record < base + (Changes(r, n) + 1) * (gap + period)
  {
    if n > 0 {
      KeepsPace(r, base, gap, period, n - 1);
      assert Waits(r, base, gap, n - 1) && Ordered(r.inputs[n - 1].clock);
      OneMoreSlot(Changes(r, n - 1), gap + period);
      OneMoreSlot(Changes(r, n), gap + period);
    }
  }

  lemma OneMoreSlot(c: nat, slot: nat)
    ensures (c + 1) * slot == c * slot + slot && c * slot >= 0
  {
  }
}
