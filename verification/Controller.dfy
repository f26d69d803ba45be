/** The reconcile step as the controller runs it: a WPA object whose status is updated in place, with the
    conditions in a sorted list. Each method is proved against the state machine over the map view. */
module Controller {
  import opened Math32
  import opened Types
  import opened Normaliser
  import opened Conditions
  import opened Machine

  class Wpa {
    const cfg: Config
    var conditions: seq<Condition>
    var lastScaleTime: Option<int>
    var scalingEventsCount: int
    var currentReplicas: int
    var desiredReplicas: int

    ghost predicate Valid()
      reads this
    {
      Distinct(conditions)
    }

    ghost function Abstract(): Status
      reads this
    {
      Status(View(conditions), lastScaleTime, scalingEventsCount, currentReplicas, desiredReplicas)
    }

    /** A freshly read object. */
    constructor (
      cfg: Config, conditions: seq<Condition>, lastScaleTime: Option<int>, events: int, current: int, desired: int)
      requires Distinct(conditions)
      ensures Valid() && this.cfg == cfg
      ensures Abstract() == Status(View(conditions), lastScaleTime, events, current, desired)
    {
      this.cfg := cfg;
      this.conditions := conditions;
      this.lastScaleTime := lastScaleTime;
      scalingEventsCount := events;
      currentReplicas := current;
      desiredReplicas := desired;
    }

    method SetCondition(kind: Kind, status: bool, reason: string, now: int)
      requires Valid()
      modifies this`conditions
      ensures Valid() && NewestFirst(conditions)
      ensures Abstract() == Mark(old(Abstract()), kind, status, now)
      ensures Find(conditions, kind) == Some(Entry(old(conditions), kind, status, reason, now))
      ensures forall k :: k != kind ==> Find(conditions, k) == old(Find(conditions, k))
    {
      var l := SetConditionInList(conditions, kind, status, reason, now);
      SetRefinesMap(conditions, l, kind, status, reason, now);
      conditions := l;
    }

    method SetStatus(current: int, desired: int, rescale: bool, now: int)
      requires Valid()
      modifies this`currentReplicas, this`desiredReplicas, this`lastScaleTime, this`scalingEventsCount
      ensures Valid()
      ensures Abstract() == if rescale then Stamped(old(Abstract()), current, desired, now)
                            else old(Abstract()).(current := current, desired := desired)
    {
      currentReplicas, desiredReplicas := current, desired;
      if rescale {
        lastScaleTime := Some(now);
        scalingEventsCount := scalingEventsCount + 1;
      }
    }

    /** The tail of computeReplicas: the verdict of all metrics is kept in two conditions. */
    method RecordPosition(plan: Calc, clock: Clock)
      requires Valid()
      modifies this`conditions
      ensures Valid() && Abstract() == Observed(old(Abstract()), plan, clock)
    {
      SetCondition(AboveHigh, plan.above, "Value above High Watermark", clock.compute);
      SetCondition(BelowLow, plan.below, "Value above Low Watermark", clock.compute);
      SetCondition(ScalingActive, true, "ValidMetricFound", clock.compute);
    }

    method NormalizeDesiredReplicas(spec: int, desired: int, ready: int, clock: Clock) returns (replicas: int)
      requires Valid()
      modifies this`conditions
      ensures Valid() && replicas == Normalise(cfg, spec, desired, ready).replicas
      ensures Abstract() == Limited(old(Abstract()), replicas != desired, clock)
    {
      var n := Normalise(cfg, spec, desired, ready);
      SetCondition(ScalingLimited, n.replicas != desired, n.reason, clock.gate);
      replicas := n.replicas;
    }

    /** Notes which forbidden windows are open; the conditions that the delay reads stay as they are. */
    method NoteBackoff(last: int, clock: Clock) returns (up: bool, down: bool)
      requires Valid() && lastScaleTime == Some(last)
      modifies this`conditions
      ensures Valid() && Abstract() == Gated(cfg, old(Abstract()), clock)
      ensures up == BacksOff(old(Abstract()), cfg.upWindow, clock.begin)
      ensures down == BacksOff(old(Abstract()), cfg.downWindow, clock.begin)
      ensures forall side :: FlagOf(Abstract(), KindOf(side)) == old(FlagOf(Abstract(), KindOf(side)))
    {
      down := last + cfg.downWindow > clock.begin;
      if down {
        SetCondition(AbleToScale, false, "BackoffDownscale", clock.gate);
      }
      up := last + cfg.upWindow > clock.begin;
      if up {
        SetCondition(AbleToScale, false, if down then "BackoffBoth" else "BackoffUpscale", clock.gate);
        MarkingAgain(old(Abstract()), AbleToScale, false, clock.gate);
      }
      assert up || down ==> Abstract() == Mark(old(Abstract()), AbleToScale, false, clock.gate);
    }

    method ShouldScale(cur: int, desired: int, clock: Clock, stable: bool) returns (ok: bool)
      requires Valid()
      modifies this`conditions
      ensures Valid()
      ensures ok == Machine.ShouldScale(cfg, old(Abstract()), cur, desired, clock, stable)
      ensures Abstract() == Gated(cfg, old(Abstract()), clock)
    {
      if lastScaleTime.None? {
        return true;
      }
      var backoffUp, backoffDown := NoteBackoff(lastScaleTime.value, clock);
      if desired > cur {
        var above := GetCondition(conditions, AboveHigh);
        assert ToFlag(above) == old(FlagOf(Abstract(), KindOf(Above)));
        ok := CanScaleAfterDelay(backoffUp, ToFlag(above), cfg.upDelay, clock.gate, stable);
      } else if desired < cur {
        var below := GetCondition(conditions, BelowLow);
        assert ToFlag(below) == old(FlagOf(Abstract(), KindOf(Below)));
        ok := CanScaleAfterDelay(backoffDown, ToFlag(below), cfg.downDelay, clock.gate, stable);
      } else {
        ok := false;
      }
    }

    static function ToFlag(c: Option<Condition>): Option<Flag> {
      if c.Some? then Some(Flag(c.value.status, c.value.since)) else None
    }

    /** From the proposal to the verdict: normalise, ask the gate, then let the repairs override. */
    method Decide(spec: int, observed: nat, plan: Calc, clock: Clock) returns (v: Verdict)
      requires Valid()
      modifies this`conditions
      ensures Valid()
      ensures v == Judge(cfg, old(Abstract()), spec, observed, plan, clock)
      ensures Abstract() == Switched(
                Gated(cfg,
                      Limited(old(Abstract()), Normal(cfg, spec, plan).replicas != Max(plan.replicas, 0), clock),
                      clock),
                spec, clock)
    {
      var desired := 0;
      if plan.replicas > desired {
        desired := plan.replicas;
      }
      ghost var seen := Abstract();
      desired := NormalizeDesiredReplicas(spec, desired, plan.ready, clock);
      LimitLeavesGate(cfg, seen, desired != Max(plan.replicas, 0), spec, desired, clock, Stable(plan));
      var rescale := ShouldScale(spec, desired, clock, !plan.above && !plan.below);
      v := Verdict(desired, rescale, false);
      if spec == 0 {
        v := Verdict(0, false, false);
        SetCondition(ScalingActive, false, "ScalingDisabled", clock.record);
      } else if spec > cfg.max {
        v := Verdict(cfg.max, true, true);
      } else if spec < cfg.min {
        v := Verdict(cfg.min, true, true);
      } else if observed == 0 {
        v := Verdict(1, true, true);
      }
    }

    /** Applies a verdict: the scale write, the counters and the status. */
    method Apply(spec: int, observed: nat, v: Verdict, clock: Clock, scaleOk: bool)
      returns (write: Option<int>, up: int, down: int, retries: bool)
      requires Valid()
      modifies this
      ensures Valid()
      ensures Result(Abstract(), write, up, down, retries)
           == Finish(cfg, old(Abstract()), spec, observed, v, clock, scaleOk)
    {
      if v.rescale {
        write, up, down, retries := Rescale(spec, observed, v, clock, scaleOk);
        return;
      }
      write, up, down, retries := None, 0, 0, true;
      if cfg.skipNotScalingEvents {
        SetCondition(ScalingActive, true, "NotScaling", clock.record);
      }
      SetStatus(observed, spec, false, clock.record);
    }

    /** The part of it that rescales: suppressed by dry run, refused by the API, or done. */
    method Rescale(spec: int, observed: nat, v: Verdict, clock: Clock, scaleOk: bool)
      returns (write: Option<int>, up: int, down: int, retries: bool)
      requires Valid() && v.rescale
      modifies this
      ensures Valid()
      ensures Result(Abstract(), write, up, down, retries)
           == Finish(cfg, old(Abstract()), spec, observed, v, clock, scaleOk)
    {
      write, up, down, retries := None, 0, 0, true;
      SetCondition(AbleToScale, true, "ReadyForScale", clock.record);
      ghost var ready := Abstract();
      if cfg.dryRun {
        SetStatus(observed, v.desired, true, clock.record);
        return;
      }
      write := Some(v.desired);
      if !scaleOk {
        SetCondition(AbleToScale, false, "FailedScale", clock.record);
        SetStatus(observed, desiredReplicas, false, clock.record);
        retries := false;
        return;
      }
      SetCondition(AbleToScale, true, "SuccessfulScale", clock.record);
      MarkingAgain(old(Abstract()), AbleToScale, true, clock.record);
      assert Abstract() == ready;
      if spec < v.desired {
        up := v.desired - spec;
      } else {
        down := spec - v.desired;
      }
      SetStatus(observed, v.desired, true, clock.record);
    }

    /** One reconcile of a target that was found; stored tells whether a status is submitted at all. */
    method Reconcile(spec: int, observed: nat, outcome: Outcome<Calc>, clock: Clock, scaleOk: bool)
      returns (write: Option<int>, up: int, down: int, retries: bool, stored: bool)
      requires Valid()
      modifies this
      ensures Valid()
      ensures match Machine.Reconcile(cfg, old(Abstract()), spec, observed, outcome, clock, scaleOk)
              case None => !stored && write == None && up == down == 0
              case Some(r) => stored && Result(Abstract(), write, up, down, retries) == r
    {
      write, up, down, retries, stored := None, 0, 0, false, true;
      SetCondition(ScalingActive, false, "FailedProcessWPA", clock.begin);
      SetCondition(DryRun, cfg.dryRun, if cfg.dryRun then "DryRun mode enabled" else "DryRun mode disabled",
                   clock.begin);
      SetCondition(AbleToScale, true, "SucceededGetScale", clock.begin);
      match outcome {
        case Panic =>
          stored := false;
        case Err =>
          SetStatus(observed, desiredReplicas, false, clock.record);
        case Ok(plan) =>
          RecordPosition(plan, clock);
          var v := Decide(spec, observed, plan, clock);
          write, up, down, retries := Apply(spec, observed, v, clock, scaleOk);
      }
    }
  }

  /** Marking a condition again with the same status changes nothing. */
  lemma MarkingAgain(s: Status, kind: Kind, status: bool, now: int)
    ensures Mark(Mark(s, kind, status, now), kind, status, now) == Mark(s, kind, status, now)
  {
  }

  /** Marking a limited count changes nothing the gate reads. */
  lemma LimitLeavesGate(cfg: Config, s: Status, limited: bool, cur: int, desired: int, clock: Clock, stable: bool)
    ensures Machine.ShouldScale(cfg, Limited(s, limited, clock), cur, desired, clock, stable)
         == Machine.ShouldScale(cfg, s, cur, desired, clock, stable)
  {
    var t := Limited(s, limited, clock);
    assert FlagOf(t, AboveHigh) == FlagOf(s, AboveHigh) && FlagOf(t, BelowLow) == FlagOf(s, BelowLow);
  }
}
