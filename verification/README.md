# A verified model of the Watermark Pod Autoscaler's scaling decision

The Watermark Pod Autoscaler (WPA) keeps the usage of a Kubernetes workload between a low and a high watermark.
This project models its scaling decision in Dafny and proves what holds of single decisions and of whole runs.
`dafny verify dfyconfig.toml` checks everything.

One step of the model is one reconcile: observe the target, compute a proposal, normalise it, pass it through the
cooldown and delay gate, write the scale, record the status. A run is a sequence of such steps, with writes by other
actors in between where a theorem allows them.

| module | what it models |
|---|---|
| `Math32`, `Types` | integer and real helpers; the configuration and shared values |
| `Calculator` | usage and watermarks to a replica count: rounding, tolerance, convergence, recommendations |
| `Pods` | which pods are ready, ignored or missing; metric sums |
| `Compute` | one metric, several metrics, or a recommender, to one plan; errors and panics |
| `Normaliser` | velocity limits, min/max and the ready-count safeguard |
| `Conditions` | the condition list, kept newest-first, as a refinement of a map |
| `Machine` | the reconcile step as a function of persisted status, target and environment |
| `Controller` | the same step as an object updated in place, proved against `Machine` |
| `Runs`, `Velocity`, `Delay` | bounds, ledger, cooldown, growth per time and delay over whole runs |
| `FullChain` | unanimity, delay per metric, surge non-interference, untolerated zeros |
| `ClosedLoop`, `Timing`, `Convergence` | constant load: exactly when the loop comes to rest, by when, and where |
| `Feasibility` | runs and observations that exist: the controller's own schedule, and the surprising cases below |
| `SpecPipeline` | defaulting, validation, completion of missing watermarks |
| `Finalizers` | the in-place list removal and the finalizer step |

## Modelling decisions

- `float64` arithmetic is exact `real` arithmetic; `int32` is `int`. Where Go would convert an infinite or undefined
  quotient to `int32`, which the language leaves open, the result of that conversion is an arbitrary value supplied by
  the environment (`Observation.nonFinite`), so the theorems hold for every value.
- Time is in whole seconds. A reconcile reads the clock at four points (`Clock`), in order; the code reads it at each
  use. Because two reconciles may then share a second, the delay theorem covers the closed interval except, in its
  first second, a computation that another one follows within that second; `SharedSecondHappens` shows why.
- Metrics, pods, recommender answers, the replicas the target reports, and the success of each write are inputs of the
  step. The run theorems in `Runs`, `Velocity` and `Delay` hold for every computed plan; those in `FullChain` and
  `Convergence` tie the plan to `Compute.ComputeReplicas`.
- A panic inside `reconcileWPA` is recovered there and nothing is stored (controllers/datadoghq/watermarkpodautoscaler_controller.go:335-339);
  `Outcome.Panic` models this.
- A status write that fails at the end of `reconcileWPA` is retried once by `Reconcile`
  (controllers/datadoghq/watermarkpodautoscaler_controller.go:304-316); both attempts are inputs.
- The order of conditions with equal times is left open, because `sort.Slice` is not stable.
- The WPA spec does not change during a run.

## Where the code and its documentation differ

- A zero that is not tolerated is documented to cause no action (apis/datadoghq/v1alpha1/watermarkpodautoscaler_types.go:109).
  For external metrics and recommenders the code proposes the ready count, so it can change the count:
  `UntoleratedZeroHoldsIff` says exactly when it is kept, `UntoleratedZeroRemovesAReplica` builds pods and a reading for
  which a starting replica is taken away, and `ZeroIsAFloor` says what such a zero does beside other metrics. A resource
  metric never looks at the setting: a zero asks for one modulo of replicas. `ResourceZeroHoldsIff` says exactly when the
  count is kept, `ResourceZeroDrains` builds the case in which a fully ready target is cut to its downscale limit.
- A target that reports no replica is set to 1, even when the minimum is larger; the next reconcile repairs that.
  `TargetInBoundsIff` and `UnreportedReplicasOscillate` state this, `UnreportedResetHappens` builds it.
- `RemoveString` does not remove every occurrence of every list: `RemovesAllIff` gives the exact lists it handles.
- A recommender spec without both watermarks passes validation and is inert for ever (`MissingMarksMakeInert`); a
  resource metric whose pods are all ignored divides by zero (`ResourcePanicsExactly`).
- A spec without any metric passes validation and drains its target to the minimum (`NoMetricDrains`,
  `DrainsToMinimum`), unless the downscale factor is 0 (`FrozenDoesNotDrain`).
- The loop need not settle: when the tolerance band falls between two neighbouring counts it flaps for ever
  (`HasRestIff`, `FlapsForEver`, `DefaultToleranceFlaps`), for example with watermarks 900m and 1000m, tolerance 10% and a load of 1500m.
- Without a minimum, which validation permits and the resource definition does not, downscales are not limited
  (`NoMinimumSkipsDownscaleLimit`).

## Model

| member | source | states |
|---|---|---|
| Convergence.MovesTowardsBalance | controllers/datadoghq/replica_calculator.go:433-472 | under constant load the count moves monotonically towards every balanced k, never past it, changes at most the initial distance times, and never again once in the band |
| Convergence.NeverOvershoots | controllers/datadoghq/replica_calculator.go:324-369 | a closed-loop run that is not too high (too low) never becomes too high (too low) |
| Convergence.SettlesInBand | controllers/datadoghq/watermarkpodautoscaler_controller.go:433-514 | requeued at least once per period, the count is in the band for good by first reconcile + delay + distance * (window + period), although most reconciles fall into the forbidden window |
| Convergence.OpenTicksSettle | controllers/datadoghq/watermarkpodautoscaler_controller.go:552-631 | counted in reconciles on any schedule: as many as the distance, that find window and delay over, bring the count into the band for good |
| Convergence.ComesToRest | controllers/datadoghq/replica_calculator.go:433-472 | if any count in [min, max] rests, balanced or only within the tolerance, every run requeued once per period has come to rest by a deadline, from any start, for any factors, with or without convergence |
| Convergence.RestIsInBand | controllers/datadoghq/replica_calculator.go:374-431 | with a count in the band and both directions free, rest means in the band and, with convergence, at the optimum or beyond it |
| Convergence.FlapsForEver | controllers/datadoghq/replica_calculator.go:433-472 | otherwise the count never stops changing: c changes by the c-th deadline, for every c |
| Convergence.EffortPays | controllers/datadoghq/replica_calculator.go:324-431 | with a count that rests, the number of changes is bounded by the distance plus twice the possible overshoot, plus the way to the optimum |
| ClosedLoop.HasRestIff | controllers/datadoghq/replica_calculator.go:433-467 | some count in bounds rests if and only if no two neighbours straddle the tolerance band |
| ClosedLoop.DefaultToleranceFlaps | apis/datadoghq/v1alpha1/watermarkpodautoscaler_default.go:15 | with watermarks 900m and 1000m, the default tolerance and a load of 1500m no count in bounds rests |
| ClosedLoop.LoopDecision | controllers/datadoghq/watermarkpodautoscaler_controller.go:428-445 | at every in-bounds count and for every convergence mode the decision is to stay if and only if the count rests; out of the band it moves towards it, at most to the count that carries the load at the missed watermark; inside it goes one replica towards the optimum |
| ClosedLoop.StraddlingGoesUp | controllers/datadoghq/replica_calculator.go:433-472 | when n is too high and n + 1 too low, for any watermarks and tolerance, the decision at n is n + 1 |
| ClosedLoop.StraddlingGoesDown | controllers/datadoghq/replica_calculator.go:433-472 | and the decision at n + 1 is n |
| ClosedLoop.EffortFalls | controllers/datadoghq/replica_calculator.go:324-369 | every move the loop may decide lowers the remaining effort, through the overshoot and back |
| Convergence.ConvergesToOptimum | controllers/datadoghq/replica_calculator.go:374-431 | converging to either watermark takes one replica per change, never passes max(min, ceil(load/high)) or min(max, floor(load/low)), and keeps the usage in the band and within that watermark |
| Convergence.NeverTurnsBack | controllers/datadoghq/replica_calculator.go:374-431 | no step of such a run asks for a move in the other direction |
| Convergence.SettlesAtOptimum | controllers/datadoghq/replica_calculator.go:374-431 | requeued once per period, the count is exactly at that optimum, for good, by first reconcile + distance * (window + period) |
| Feasibility.RegularRunsExist | controllers/datadoghq/watermarkpodautoscaler_controller.go:140-318 | from every count inside the bounds there are closed-loop runs of every length on every period, for external and resource metrics, such as the 15 seconds the controller requeues itself after |
| ClosedLoop.LoopPlan | controllers/datadoghq/replica_calculator.go:122-238 | in the closed loop, for an averaged external or resource metric, regime and proposal are given by integer comparisons of load, marks and count |
| ClosedLoop.LoopVerdict | controllers/datadoghq/watermarkpodautoscaler_controller.go:428-445 | with a balanced k, the decision out of the band is closer to k and not past it; in the band it is the current count |
| Timing.StepMovesOrWaits | controllers/datadoghq/watermarkpodautoscaler_controller.go:552-631 | when all writes succeed, a proposed move is made and stamped, or its window or the delay of its stretch is not over |
| Timing.KeepsPace | controllers/datadoghq/watermarkpodautoscaler_controller.go:552-631 | while steps only move or wait, the count changes at least once per gap and requeue period |
| Delay.TransitionStartsStretch | controllers/datadoghq/watermarkpodautoscaler_controller.go:685-699 | the stored transition time equals the start of the current maximal stretch of out-of-bounds computations |
| Delay.StretchIsUnbroken | controllers/datadoghq/watermarkpodautoscaler_controller.go:896-927 | every successful computation since the start of that stretch was out of bounds, the last one in the very second of the start included |
| Delay.SharedSecondGoesUnnoticed | controllers/datadoghq/watermarkpodautoscaler_controller.go:616-631 | an earlier computation in that second can have been in bounds: a run with a delayed upscale exactly the delay after it, for any such plans |
| Feasibility.SharedSecondHappens | controllers/datadoghq/watermarkpodautoscaler_controller.go:616-631 | such plans are computed from observations, for every averaged metric |
| Delay.GateOpensIff | controllers/datadoghq/watermarkpodautoscaler_controller.go:552-631 | a move passes the gate if and only if its window is over and no delay applies or the stretch is at least as long as the delay |
| Delay.DelayOverHistory | controllers/datadoghq/watermarkpodautoscaler_controller.go:616-631 | a delayed move implies that every successful computation of the last delay seconds was out of bounds on its side, both ends included unless another computation follows in the first second |
| FullChain.DelayOverMetricHistory | README.md:193-195 | the same, metric by metric: at each of those computations some metric was beyond its watermark, not always the same one |
| FullChain.OutOfBoundsIffSomeMetric | controllers/datadoghq/watermarkpodautoscaler_controller.go:741-744 | a computation counts as above (below) if and only if some metric is |
| Velocity.VelocityOverTime | controllers/datadoghq/watermarkpodautoscaler_controller.go:1026-1043 | in T seconds the count cannot grow (shrink) past what T/window + 1 steps of the velocity reach, however moves interleave, and moves at most that often; a step is the whole percentage of the count, at least one, given by inequalities |
| Velocity.ReachIsUnique | controllers/datadoghq/watermarkpodautoscaler_controller.go:1026-1043 | that many steps reach exactly one count |
| Velocity.StepKeepsSpacing | controllers/datadoghq/watermarkpodautoscaler_controller.go:558-591 | each further move starts one more window into the run |
| Velocity.LimitIsMonotone | controllers/datadoghq/watermarkpodautoscaler_controller.go:1026-1043 | both velocity limits are monotone in the count and never point backwards |
| Runs.CooldownOverRuns | controllers/datadoghq/watermarkpodautoscaler_controller.go:558-614 | every gated upscale (downscale) starts at least its forbidden window after every earlier stored rescale, forced and dry-run ones included |
| Runs.StoredRescaleIsRemembered | controllers/datadoghq/watermarkpodautoscaler_controller.go:651-663 | the last scale time never falls behind a stored rescale |
| Runs.FirstDecisionRecords | controllers/datadoghq/watermarkpodautoscaler_controller.go:552-556 | without a remembered rescale every decision about a nonzero count records one, even if it changes nothing |
| Runs.FirstDecisionStartsWindows | controllers/datadoghq/watermarkpodautoscaler_controller.go:552-591 | so no gated move starts before the first stored decision plus the window of its direction |
| Runs.BoundsOverRuns | controllers/datadoghq/watermarkpodautoscaler_controller.go:439-479 | a count inside [min, max] stays inside and no repair fires again |
| Runs.OneStepRepairs | controllers/datadoghq/watermarkpodautoscaler_controller.go:447-468 | any other nonzero count is clamped into [min, max] by one applied step, whatever was proposed |
| Runs.ZeroIsLeftAlone | controllers/datadoghq/watermarkpodautoscaler_controller.go:447-452 | over runs the count is 0 if and only if it was 0 at the start |
| Runs.TargetInBoundsIff | controllers/datadoghq/watermarkpodautoscaler_controller.go:447-468 | a decision targets a count in [min, max] if and only if it is not the reset to 1 of an unreporting target with a larger minimum |
| Runs.UnreportedReplicasOscillate | controllers/datadoghq/watermarkpodautoscaler_controller.go:458-467 | over runs that reset and its repair alternate, at every step |
| Feasibility.UnreportedStillComputes | controllers/datadoghq/replica_calculator.go:111-120 | with no reported replica and every pod ready the computation succeeds if and only if no availability is demanded |
| Feasibility.UnreportedResetHappens | controllers/datadoghq/watermarkpodautoscaler_controller.go:458-467 | so runs of every length alternate with plans computed from pods and metric |
| Runs.ScalingLedger | controllers/datadoghq/watermarkpodautoscaler_controller.go:470-514 | count = initial + upscale counter - downscale counter over every run; the event counter equals the stored rescales |
| Machine.DecisionIsDisplayed | controllers/datadoghq/watermarkpodautoscaler_controller.go:433-514 | which counts and conditions the stored status shows after a decision, when it is stored at the retry, and that nothing is after a refused write |
| Machine.TransitionTimes | controllers/datadoghq/watermarkpodautoscaler_controller.go:896-927 | since when each condition holds: the active one is renewed by every reconcile, the able one by every one that finds a window open or is refused, the others only when they change |
| Machine.FailedComputationIsDisplayed | controllers/datadoghq/watermarkpodautoscaler_controller.go:404-417 | a failed computation changes only the shown replicas and the active, able and dry-run conditions |
| Machine.MissingTargetIsDisplayed | controllers/datadoghq/watermarkpodautoscaler_controller.go:304-370 | a target that was not found shows as inactive and unable to scale; a panic leaves no trace |
| FullChain.SurgeDoesNotInterfere | controllers/datadoghq/watermarkpodautoscaler_controller.go:370-371 | two runs that differ only in reported replicas, at least the ready pods, take the same decisions and writes at every step |
| FullChain.ComputeIgnoresSurge | controllers/datadoghq/replica_calculator.go:111-115 | the computed plan does not depend on the reported replicas once they cover the ready pods, for metrics and recommender |
| FullChain.PlanFollowsMetrics | controllers/datadoghq/watermarkpodautoscaler_controller.go:810-816 | the plan is below the spec if and only if every metric proposes fewer, and above it if and only if some metric proposes more |
| FullChain.DownscaleIsUnanimous | controllers/datadoghq/watermarkpodautoscaler_controller.go:428-439 | a gated downscale implies that every metric proposed fewer replicas than the spec |
| FullChain.NoMetricDrains | controllers/datadoghq/watermarkpodautoscaler_controller.go:709-820 | a spec without metrics takes its target to the downscale limit at every applied reconcile outside the downscale window |
| Convergence.DrainsToMinimum | controllers/datadoghq/watermarkpodautoscaler_controller.go:709-820 | requeued once per period, such a target is at the minimum for good by first reconcile + (n0 - min) * (window + period) |
| Convergence.FrozenDoesNotDrain | controllers/datadoghq/watermarkpodautoscaler_controller.go:1036-1043 | with a downscale factor of 0 it keeps its count over every run |
| FullChain.UpscaleHasAWitness | controllers/datadoghq/watermarkpodautoscaler_controller.go:810-816 | a gated upscale implies that some metric proposed more, and the reported name, timestamp and ready count are its own |
| FullChain.KeptIff | controllers/datadoghq/watermarkpodautoscaler_controller.go:433-514 | for any plan, a count in bounds is kept if and only if nothing is applied, or no change is asked for, or there is no room for it, or its window or delay is not over |
| FullChain.UntoleratedZeroHoldsIff | controllers/datadoghq/replica_calculator.go:153-161 | when all metrics are external and read an untolerated zero, or the recommender does, the replica count is kept if and only if ready equals spec, or the downscale is aborted, or there is no room to move, or that window is open, or nothing is applied |
| FullChain.ZeroIsAFloor | controllers/datadoghq/replica_calculator.go:153-161 | an external untolerated zero beside any other metrics puts a floor at the ready count under the plan: no downscale below it, and an upscale only for another metric or a larger ready count |
| FullChain.ResourceZeroHoldsIff | controllers/datadoghq/replica_calculator.go:224-237 | a zero of a resource metric, tolerated or not, keeps the count if and only if it is not below the adjusted low mark, or there is no room below, or the downscale is aborted, or the gate is shut, or nothing is applied |
| Feasibility.ResourceZeroDrains | controllers/datadoghq/replica_calculator.go:224-237 | pods and a reading exist with which a fully ready target is cut to its downscale limit by such a zero |
| Feasibility.UntoleratedZeroRemovesAReplica | controllers/datadoghq/replica_calculator.go:153-161 | for every n, pods and a reading exist with which n + 1 replicas, n ready and one starting, become n |
| Normaliser.NormaliserIsClamp | controllers/datadoghq/watermarkpodautoscaler_controller.go:952-1024 | inside [min, max] the nested rules are one clamp, except for the aborted downscale |
| Normaliser.NormaliserGuarantees | controllers/datadoghq/watermarkpodautoscaler_controller.go:952-1024 | bounds, both velocity limits, no reversal, frozen directions; each gauge tells exactly whether its limit was exceeded, and the reason which bound was hit |
| Normaliser.NoMinimumSkipsDownscaleLimit | controllers/datadoghq/watermarkpodautoscaler_controller.go:966-968 | with min 0 the rules are a clamp to [1, min(max, up limit)] and the downscale gauge stays off |
| Normaliser.LimitsAreSteps | controllers/datadoghq/watermarkpodautoscaler_controller.go:1026-1043 | both limits are exactly one step away: d >= 1, factor * n < 100 (d + 1) percent, and 100 d percent <= factor * n for d > 1; none for factor 0 |
| Normaliser.LimitsBracketCurrent | controllers/datadoghq/watermarkpodautoscaler_controller.go:1026-1043 | the velocity limits bracket the current count, strictly when their factor is positive |
| Calculator.UpscaleIsOptimal | controllers/datadoghq/replica_calculator.go:324-348 | above, the proposal is the larger of the count and the least multiple of the modulo that carries the load at the high mark |
| Calculator.DownscaleIsOptimal | controllers/datadoghq/replica_calculator.go:350-369 | below, it is the smaller of the count and the least multiple that reaches max(1, floor(load/low)) |
| Calculator.ZeroMarkIsCapped | controllers/datadoghq/replica_calculator.go:324-369 | for a zero mark the same caps apply to whatever count the infinite quotient is converted to |
| Calculator.NoneReadyIsCapped | controllers/datadoghq/replica_calculator.go:122-167 | without a ready pod to share it, a positive (negative) sum asks for more (fewer) replicas, capped in the same way |
| Calculator.MarksAreProportional | controllers/datadoghq/replica_calculator.go:435-436 | the adjusted marks are the watermarks enlarged and reduced by the whole tolerance, truncated: 1000 a <= high (1000 + tolerance) < 1000 (a + 1), and likewise below |
| Calculator.RegimeMeaning | controllers/datadoghq/replica_calculator.go:433-467 | for both algorithms, and also without a ready pod, above and below compare the metric sum with the marks so defined, for each pod that shares it, and exclude each other |
| Calculator.RegimeOfAbsoluteSum | controllers/datadoghq/replica_calculator.go:433-467 | with the absolute algorithm, above iff 1000 sum > high (1000 + tolerance), below iff 1000 sum < low (1000 - tolerance) |
| Calculator.ProposalIsJustified | controllers/datadoghq/replica_calculator.go:433-472 | for both algorithms, every sum and marks from 0 up, regime and count satisfy a specification in terms of the metric sum: the capped optimum for the load out of the band, a safe converge step inside it |
| Compute.ExternalProposal | controllers/datadoghq/replica_calculator.go:92-168 | an external reading, unless it is an untolerated zero, yields a plan with the metric's name, timestamp and ready count, justified by the sum of its values |
| Compute.ResourceProposal | controllers/datadoghq/replica_calculator.go:172-238 | a resource plan is justified by the total usage of the pods that are not ignored |
| Calculator.AverageCancelsReady | controllers/datadoghq/replica_calculator.go:163-165 | with the average algorithm the target depends on the metric sum alone |
| Calculator.ConvergeStepIffSafe | controllers/datadoghq/replica_calculator.go:374-431 | a converge step is taken if and only if it stays within [min, max] and keeps the predicted usage within the approached watermark |
| Calculator.RecommendationIsFollowed | controllers/datadoghq/replica_calculator.go:474-504 | a recommendation is followed up to the modulo and the current count, a negative one as it is; an equal one leads to a converge step if and only if its bounds allow it; the flags compare the count with the bounds |
| Compute.RecommenderProposal | controllers/datadoghq/replica_calculator.go:240-322 | the plan carries the recommender's name, the answer's timestamp and the ready count, and follows the answer to a request with the ready count, the spec and the bounds |
| FullChain.MoveWasRecommended | controllers/datadoghq/watermarkpodautoscaler_controller.go:822-860 | a gated move implies a recommendation on that side, or an equal one with a converge step within its bounds |
| Calculator.ToleranceWidensBand | controllers/datadoghq/replica_calculator.go:435-436 | adjusted low <= low <= high <= adjusted high, with truncating division |
| Calculator.ProposalIsNonNegative | controllers/datadoghq/replica_calculator.go:433-472 | no metric proposes a negative count, whatever its marks, its sum and the ready pods |
| Calculator.RoundingIsLeast | controllers/datadoghq/replica_calculator.go:329-335 | rounding yields the least multiple of the modulo at or above the exact count, and keeps negative counts |
| Compute.ComputeReplicasForMetrics | controllers/datadoghq/watermarkpodautoscaler_controller.go:709-820 | the accumulator loop returns the first failure, or the merge of all proposals |
| Compute.MergeIsWitnessed | controllers/datadoghq/watermarkpodautoscaler_controller.go:810-816 | count, name, timestamp and ready count come from one metric, the first with that count, and no positive proposal is lost |
| Compute.MergeOrsFlags | controllers/datadoghq/watermarkpodautoscaler_controller.go:741-744 | each flag is the OR of the metrics' flags |
| Compute.PlanIsLargest | controllers/datadoghq/watermarkpodautoscaler_controller.go:709-820 | computeReplicas returns the maximum of the metrics' proposals, with name, timestamp and ready count of the first metric attaining it; 0 without metrics |
| Compute.NonNegativeMergeIsMaximum | controllers/datadoghq/watermarkpodautoscaler_controller.go:810-816 | for non-negative proposals it returns the maximum |
| Compute.CollectKeepsAll | controllers/datadoghq/watermarkpodautoscaler_controller.go:712-736 | without failures the proposals of all metrics are merged, in order |
| FullChain.MissingMarksMakeInert | controllers/datadoghq/watermarkpodautoscaler_controller.go:834-846 | without both watermarks the count, the counters and the rescale record never change over any run, and while the recommender answers nothing at all is stored |
| Compute.ResourcePanicsExactly | controllers/datadoghq/replica_calculator.go:209-217 | the resource path panics if and only if every pod is ignored |
| Pods.GetReadyPodsCount | controllers/datadoghq/replica_calculator.go:506-557 | the counts partition the list; success means some pod is ready, and then the divisor is positive |
| Pods.OnePodMore | controllers/datadoghq/replica_calculator.go:506-557 | what one more pod adds to the counts: foreign and ended pods only to the incorrect ones; a terminating or unscheduled pod, or one without Ready condition, nothing; a running pod iff its condition is true; a pending one iff it changed less than the delay ago |
| Compute.AvailableIff | controllers/datadoghq/replica_calculator.go:100-120 | the computation proceeds if and only if some pod is ready and the ready ones, capped by the reported ones, make up the demanded percentage; it proceeds with exactly that count |
| Compute.AvailabilityIgnoresForeign | controllers/datadoghq/replica_calculator.go:511-538 | pods of other targets and ended pods make no difference to it |
| Compute.TerminatingPodIsNotAvailable | controllers/datadoghq/replica_calculator.go:540-546 | a terminating pod never adds to the ready count |
| Compute.ExternalFailsIff | controllers/datadoghq/replica_calculator.go:92-168 | the external path fails exactly without availability or without a reading, and never panics |
| Compute.ResourceSucceedsIff | controllers/datadoghq/replica_calculator.go:172-238 | the resource path succeeds exactly with a reading, not all pods ignored, the demanded percentage ready, and a metric left |
| Compute.ComputesIffAllDo | controllers/datadoghq/watermarkpodautoscaler_controller.go:709-820 | the computation succeeds if and only if every metric's does |
| Pods.ReadyRatioIsPercentage | controllers/datadoghq/replica_calculator.go:111-120 | the ready ratio is within 0..100, also after capping by the reported replicas |
| Pods.GroupPods | controllers/datadoghq/replica_calculator.go:595-646 | the loop collects exactly the names of counted and of ignored pods |
| Pods.OnePodMoreGrouped | controllers/datadoghq/replica_calculator.go:595-646 | where one more pod goes: failed and pending ones to the ignored, those that warm up too for cpu only, others with a metric to the ready, foreign ones nowhere |
| Pods.PodAccounting | controllers/datadoghq/replica_calculator.go:595-652 | ready, ignored and missing pods are disjoint and fit in the list, ready pods keep their metric, and the divisor is 0 exactly when all are ignored |
| Pods.RemoveMetricsForPods | controllers/datadoghq/replica_calculator.go:648-652 | deleting key by key removes exactly the given pods' metrics, in any order |
| Pods.SumUsage | controllers/datadoghq/replica_calculator.go:229-232 | the sum over a map does not depend on the iteration order |
| Pods.TotalWithout | controllers/datadoghq/replica_calculator.go:229-232 | a total is any one entry plus the total of the rest |
| Pods.TotalOfOne | controllers/datadoghq/replica_calculator.go:229-232 | the total of one entry is its value, and of none 0 |
| Pods.SumValues | controllers/datadoghq/replica_calculator.go:149-152 | the loop sums the external values |
| Pods.SumOfParts | controllers/datadoghq/replica_calculator.go:149-152 | sums add up over any split of the values |
| Pods.SumOfOne | controllers/datadoghq/replica_calculator.go:149-152 | the sum of one value is that value, and of none 0 |
| Pods.CheckOwnerRef | controllers/datadoghq/replica_calculator.go:572-593 | true if and only if some owner is the target itself, or a replica set named after it with one generated suffix |
| Pods.StripSuffix | controllers/datadoghq/replica_calculator.go:576-583 | cuts at the last dash, or not at all |
| Conditions.SetRefinesMap | controllers/datadoghq/watermarkpodautoscaler_controller.go:893-927 | one set keeps kinds distinct and the list newest-first, changes the transition time exactly with the status, leaves other entries alone, and refines the map |
| Conditions.StoreRefinesMap | controllers/datadoghq/watermarkpodautoscaler_controller.go:893-927 | any sequence of sets, with any order of ties, yields the list of the map those sets give |
| Conditions.SetConditionInList | controllers/datadoghq/watermarkpodautoscaler_controller.go:896-927 | the result is a sorted permutation of the list with the first entry of the kind replaced or the new one appended |
| Conditions.GetCondition | controllers/datadoghq/watermarkpodautoscaler_controller.go:882-891 | finds the first entry of a kind |
| Controller.Wpa.SetCondition | controllers/datadoghq/watermarkpodautoscaler_controller.go:862-868 | updates the list in place as the map is updated |
| Controller.Wpa.SetStatus | controllers/datadoghq/watermarkpodautoscaler_controller.go:651-663 | replaces the counts; a rescale stamps the time and adds one event |
| Controller.Wpa.RecordPosition | controllers/datadoghq/watermarkpodautoscaler_controller.go:685-704 | keeps above and below in their conditions |
| Controller.Wpa.NormalizeDesiredReplicas | controllers/datadoghq/watermarkpodautoscaler_controller.go:931-950 | returns the normalised count and marks whether it was limited |
| Controller.Wpa.ShouldScale | controllers/datadoghq/watermarkpodautoscaler_controller.go:552-631 | the in-place gate decides as the gate over the map does |
| Controller.Wpa.Decide | controllers/datadoghq/watermarkpodautoscaler_controller.go:428-468 | normalise, gate and repairs give the verdict of the state machine |
| Controller.Wpa.Apply | controllers/datadoghq/watermarkpodautoscaler_controller.go:470-514 | write, counters and status are those of the state machine, for dry runs and failed writes too |
| Controller.Wpa.Reconcile | controllers/datadoghq/watermarkpodautoscaler_controller.go:334-515 | the whole in-place step refines the state machine's step |
| SpecPipeline.DefaultingIsAFixedPoint | apis/datadoghq/v1alpha1/watermarkpodautoscaler_default.go:26-84 | the default of any spec is recognised as default, recognised specs are exactly the fixed points, and defaulting twice is defaulting once |
| SpecPipeline.DefaultFillsGaps | apis/datadoghq/v1alpha1/watermarkpodautoscaler_default.go:14-56 | what the user set survives defaulting whatever else is missing, and each gap gets its documented default |
| SpecPipeline.CheckMetricIff | apis/datadoghq/v1alpha1/watermarkpodautoscaler_default.go:113-154 | when a single metric is sound, and which fault is named first |
| SpecPipeline.CheckMetrics | apis/datadoghq/v1alpha1/watermarkpodautoscaler_default.go:113-154 | reports the first faulty metric, and nothing if and only if all are sound |
| SpecPipeline.CheckValidity | apis/datadoghq/v1alpha1/watermarkpodautoscaler_default.go:86-111 | no error if and only if the spec is sound; otherwise the first error in the order of the checks is reported |
| SpecPipeline.FillMissingWatermark | controllers/datadoghq/watermarkpodautoscaler_controller.go:1165-1191 | completes each metric from its other watermark, one by one |
| SpecPipeline.PipelineYieldsValidConfig | controllers/datadoghq/watermarkpodautoscaler_controller.go:194-217 | admitted, defaulted and valid specs give the configuration every theorem relies on; its metrics are the metrics of the spec with the watermarks they have, the missing one equal to the other, in order |
| SpecPipeline.SpecReachesController | controllers/datadoghq/watermarkpodautoscaler_controller.go:194-217 | every field that was set, or its default, reaches the controller in its own place |
| SpecPipeline.BandIsOrdered | controllers/datadoghq/replica_calculator.go:435-436 | for the configuration's metrics, adjusted low <= low <= high <= adjusted high |
| Finalizers.ContainsString | pkg/util/list.go:3-11 | true if and only if the string is in the list |
| Finalizers.RemoveString | pkg/util/list.go:13-21 | the in-place loop panics exactly when the last element is one of several occurrences, and otherwise leaves the skimmed list |
| Finalizers.RemovesAllIff | pkg/util/list.go:13-21 | it removes every occurrence and keeps the order if and only if no two are adjacent and the last element is not one of several |
| Finalizers.StoredWpa.HandleFinalizer | controllers/datadoghq/finalizer.go:20-50 | the stored list after a visit, and when it stops, fails or panics |
| Finalizers.FinalizerHistory | controllers/datadoghq/finalizer.go:20-68 | over every history there is at most one occurrence, no panic, other finalizers keep their order, and a deletion leaves exactly them |
| Finalizers.AddThenRemove | controllers/datadoghq/finalizer.go:31-47 | removing after adding gives back the list |

## Left out

- Kubernetes clients, informers, REST mappings, events, tracing, logging and manager setup: their results are inputs of a step.
- The recommender's HTTP client, encoding and TLS: the recommender is an arbitrary function of its request.
- Prometheus metrics other than the upscale and downscale counters and the two capping gauges.
- Floating-point rounding and `int32` overflow.
- Condition messages, and the ConvergeToWatermark and ScalingBlocked conditions: they are displayed and never read by a decision. Reasons are kept in the list but not in the map.
- The metric values shown in the status (CurrentMetrics) and the last-condition columns.
- The lifecycle monitor, which only postpones reconciles, and annotation parsing.
- Changes of the WPA spec during a run.
- The kubectl plugin, the end-to-end adapter, the skeleton recommender, generated code, charts and manifests.
- Calculator.ProposalIsJustified: stated for watermarks that are not negative.
- FullChain.ResourceZeroHoldsIff: stated for a single resource metric, and in the band without convergence.
- Convergence.SettlesInBand: stated for one averaged metric with modulo 1, for which a constant load has a meaning independent of the replica count.
