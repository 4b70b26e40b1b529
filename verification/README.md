# Verification of the agentic autoscaler

A Dafny 4.11 model of the autoscaler's decision loop, its signalling protocols and its numerics, with proofs of what
they keep over whole runs. `dafny verify dfyconfig.toml` checks everything.

## What is modelled

**The scaling loop.** `Reconcile.dfy` holds one reconcile twice: as a function on values (`Reconciled`) and as a
`Reconciler` object that makes that transition in place, on the store of per-resource state
(`ControllerState.dfy`), the cluster's resources and the Deployments. Everything the controller learns from outside
in one reconcile — the clock, both Prometheus queries, the HPA lookup, the forecast, whether the `/scale` patch and
the status write are accepted — is a parameter of the step. `Runs.dfy` puts steps, controller crashes and outside
edits (spec, annotations, classified parameters, somebody rescaling the Deployment) in any order. The run theorems
are in `Runs`, `RestartGaps`, `RampRate`, `Convergence`, `AdmittedRuns`, `Progress`, `StatusReport`, `SelfCalibration`,
`Calibration` and `RestartAtRest`; `ReconcileLaws` says what one reconcile reads and does in the fields of the resource
and of what was observed, without the functions that compute it; the arithmetic of one decision is in `Decision`, what the schema's defaults and admission
guarantee is in `Api` (`Stored` specs), the window of capacity observations in `Observations`. The concrete runs of
`RestartGaps.FractionIsLost` and `RestartAtRest.RestartMovesARestingLoop` meet the hypotheses of cooldown safety and of
the fixed point across a restart.

**The channel protocols.** `Channels.dfy` has the capacity-one channel and the two drop-and-replace senders.
`DropAndPush.dfy` interleaves any number of signalling senders with the receiver, one non-blocking select at a time;
`LatestWins.dfy` does the same for the explanation requests and their single sender (docs/design_v2.md:873-876).
`WorkerManager.dfy` and `ClassifierWorker.dfy` cover the per-resource worker, its lifecycle and its signals, and
`PendingSignals.dfy` tells what is registered and pending from the calls and receives alone.

**The numerics.** `OrderStatistics`, `Sums`, `LeastSquares`, `Correlation`, `HourlyProfile` and `Pipeline` model the
classifier's feature extraction and its two pipelines, `Bursts` the loads on which these go astray, and `LinearExtrap`
and `GbdtRows` the two forecasters whose arithmetic is in this repository. Each loop is a method proved equal to a sum,
an inner product, a bucket or a row table, and the theorems are about those. `PerfectCorrelation` says what a
correlation coefficient measures, `FeatureLaws` and `ClassificationLaws` what every reported and written value says
about the samples.

Modelling conventions:

- Instants and durations are integer nanoseconds. A persisted instant keeps whole seconds (`Reconcile.Persisted`),
  as the JSON form of a Kubernetes time does. A clock that was never set is `None` and holds nothing back.
- `int32` arithmetic wraps (`Prelude.Wrap32`). A float-to-`int32` conversion out of range is whatever an extra
  parameter, `unspecified`, says: the language leaves it to the platform.
- Floating point is exact real arithmetic. A square root is a given function with `sqrt(x)^2 == x`; a library sort
  returns the sorted permutation; a library line fit returns the minimiser of the squared error, which
  `LeastSquares.LeastSquaresIsUnique` shows to be a single line.
- The logarithm in the step size is the least power of two that reaches its argument.

## Where the code departs from its documentation or intent

The model follows the code. In each case the exact condition is proved.

- A cooldown does not fully survive a restart. The stamp is written only by a reconcile that patched
  (internal/controller/agenticautoscaler_controller.go:340), not on every reconcile as docs/design_v2.md:494 says, so
  one failed status write loses it (`RestartGaps.LostStampLosesCooldown`); and a stamp keeps whole seconds, so even a
  successful write may shorten the cooldown by up to a second (`RestartGaps.FractionIsLost`).
  `Runs.RestartKeepsCooldown` and `Runs.FreshStampCovers` say exactly when nothing is lost, and
  `Runs.CooldownSafety` what still holds.
- A restart without a usable estimate starts from the midpoint of the capacity bounds, unless their sum leaves 32 bits:
  then it starts below zero (`ReconcileLaws.StartingEstimate`).
- The restart seed dominates the median for four observations, not the "5+" of
  internal/decision/decision.go:326-331 (`Observations.SeedDominanceBound`).
- A spec value of `"auto"` shadows the classifier's choice, against api/v1alpha1/agenticautoscaler_types.go:76
  (`Reconcile.AutoShadowsClassifier`).
- The classifier does choose the quantile model, for every bursty series without an hourly rhythm, although
  api/v1alpha1/agenticautoscaler_types.go:77-78 says it runs only when pinned (`Pipeline.ForecasterByFeatures`).
- The kill switch leaves a recorded conflict in the status (`StatusReport.KillSwitchKeepsConflict`); only the ready and
  conflict phases can be trusted to agree with it (`StatusReport.ConflictNamedOverRuns`).
- A step near the ends of the `int32` range wraps around (`Decision.MoveIsSaturated`), and admission lets such a step
  through (`Api.WidestSpecWraps`; the exact condition is `Api.AdmittedStepFits`). The wrapped target is negative, so an
  endpoint that refuses negative counts never makes the move (`Runs.NaturalPatchFits`).
- A calibrated loop at rest is scaled up at its first decision after a restart exactly when its estimate has a fraction
  to lose, the count is below its maximum and no cooldown holds (`RestartAtRest.FixedPointAcrossRestart`; for instance
  two replicas at 100.5 requests each, `RestartAtRest.RestartMovesARestingLoop`). And since a restart re-seeds the
  window, a controller that folds in at most four observations between restarts never updates its estimate
  (`SelfCalibration.NoDriftAcrossRestarts`).
- At a cadence above sixty minutes the correlation lag rounds to zero, and every series that is neither flat nor a
  straight line counts as periodic (`Pipeline.CoarseCadenceIsPeriodic`), a single burst among idle samples included
  (`Bursts.BurstTakenForPeriodic`).
- The scale-down cooldown's floor of 60 and the scale-up ceiling of 180 are out of reach in practice, for every load of
  up to 6.3e13 samples (`Pipeline.PipelineRanges`). In principle a spread beyond the `int32` range reaches the floor
  (`Pipeline.HugeSpreadEscapes`), from 1.43e14 samples on with a single burst (`Bursts.BurstDropsCooldown`).
- A one-sample window skips both blend and clip (`LinearExtrap.ForecastRange`).
- Training rows carry the clock of their newest sample, the prediction row that of its target
  (`GbdtRows.PredictionClockIsTargets`); and the accepted settings 1 and 2 of the minimum point count let a history
  without training rows through the length gate (`GbdtRows.GateLeavesARow`).

## Model

| member | source | states |
|---|---|---|
| `OrderStatistics.PercentileRank` | internal/classifier/features.go:171-186 | nearest-rank correctness: the percentile is an element, at least ceil(p n) values are at or below it, at least n - ceil(p n) + 1 at or above it, and it is the least element covering ceil(p n) |
| `OrderStatistics.MedianRank` | internal/classifier/features.go:192-204 | at least half the values are on each side of the median |
| `OrderStatistics.OrderStatisticsPermutation` | internal/classifier/features.go:171-204 | median and percentile are the same for every reordering of the series |
| `OrderStatistics.MajorityConfinesMedian` | internal/decision/state.go:77-89 | if more than half the values lie in [lo, hi], so does the median |
| `OrderStatistics.MedianBelowUpperPercentile` | internal/classifier/features.go:171-204 | the median never exceeds a percentile above one half |
| `Observations.WindowIsNewestHistory` | internal/decision/state.go:38-70 | after any pushes and reseeds the window is exactly the newest cap entries of the history since the last reseed |
| `Observations.SeedDominates` | internal/decision/decision.go:325-346 | after a restart up to four observations of any values leave the median at the seed |
| `Observations.SeedDominanceBound` | internal/decision/decision.go:325-332 | the median stays at the seed whatever k observations follow if and only if k is at most 4 |
| `Observations.PushKeepsMajority` | internal/decision/state.go:38-43 | pushing the majority value keeps it a strict majority, whichever entry is evicted |
| `ControllerState.RingBuffer.Push` | internal/decision/state.go:38-43 | the window becomes the newest cap entries of the old one and the new value |
| `ControllerState.RingBuffer.SeedN` | internal/decision/state.go:58-70 | everything before is dropped; the copies are capped by the capacity, and a non-positive count leaves an empty window |
| `ControllerState.RingBuffer.Median` | internal/decision/state.go:77-89 | equals the median of the window, and leaves it unchanged |
| `ControllerState.StateStore.GetOrCreate` | internal/decision/state.go:132-141 | returns the key's own record, fresh and uninitialised when there was none; every other key's state is untouched |
| `ControllerState.StateStore.Delete` | internal/decision/state.go:145-149 | forgets exactly that key |
| `Decision.RecommendationIsLeastCapacity` | internal/decision/decision.go:138-143 | the recommendation is the least replica count whose capacity covers the forecast |
| `Decision.ClampLandsInBounds` | internal/decision/decision.go:156-164 | clamping lands inside the bounds for every input if and only if the bounds are in order |
| `Decision.ComputeCapAndCooldown` | internal/decision/decision.go:212-253 | the step-by-step overrides end at the outcome the lemmas below characterise |
| `Decision.MoveIsSaturated` | internal/decision/decision.go:212-253 | the target is the present count moved toward the recommendation by at most the step, if and only if the step limit does not wrap or a cooldown holds |
| `Decision.WrappedMove` | internal/decision/decision.go:216-224 | two replicas, a recommendation of the largest int32 and a step just below it decide a scale-up to the least int32 |
| `Decision.TokenTellsPatch` | internal/decision/decision.go:212-253 | a patch happens if and only if the reason is a scale or step-capped token (step non-zero); a holding token if and only if a cooldown held; a binding or no-change token if and only if there is nothing to do |
| `Decision.PatchClosesGap` | internal/decision/decision.go:216-239 | a patch lands between present count and recommendation, shrinks the gap by min(step, gap) and moves in the recommendation's direction |
| `Decision.InitializeFromStatus` | internal/decision/decision.go:342-354 | the object's new state is the seeded one: estimate, window of copies and both clocks from the status |
| `Api.ValidateSpec` | internal/webhook/v1alpha1/validator.go:28-103 | reports exactly the problems present, each once; succeeds if and only if there are none |
| `Api.StoredBoundsInOrder` | api/v1alpha1/agenticautoscaler_types.go:33-57 | the schema fills absent bounds in before validation, so every admitted spec has both pairs of effective bounds positive and in strict order |
| `Api.SchemaDefaults` | api/v1alpha1/agenticautoscaler_types.go:33-57 | a spec that states no bounds is stored as 2 to 10 replicas at 50 to 500 requests each |
| `Api.StoredMeans` | internal/webhook/v1alpha1/validator.go:28-103 | a spec can be stored if and only if all four bounds are written and in strict order, cooldowns are not negative, the step lies between one and the range, and the forecaster is one of four |
| `Api.AdmittedBoundsInOrder` | internal/webhook/v1alpha1/validator.go:31-47 | the validator alone orders the effective replica bounds of what it accepts exactly in four cases, of which the schema leaves the one with both written down |
| `Api.LoneMinimumRefused` | internal/webhook/v1alpha1/validator.go:42-47 | a lone minimum above the default maximum passes the validator bare and is refused as defaulted |
| `Api.AdmittedStep` | internal/webhook/v1alpha1/validator.go:31-75 | with both bounds and the step written down, admission gives bounds in strict order and a positive step no wider than the range |
| `Api.AdmittedStepFits` | internal/webhook/v1alpha1/validator.go:62-75 | under such a spec every move inside the bounds stays inside 32 bits if and only if the maximum less one plus the step does |
| `Api.WidestSpecWraps` | internal/webhook/v1alpha1/validator.go:62-75 | a stored spec under which two replicas and a demand at the maximum decide a target of the least int32 |
| `Reconcile.AutoShadowsClassifier` | internal/controller/agenticautoscaler_controller.go:168-178 | with a classified forecaster the request names it if and only if the spec field is absent, empty or the same; "auto" names none |
| `ReconcileLaws.DecidesExactlyWhen` | internal/controller/agenticautoscaler_controller.go:111-187 | the forecast is asked for if and only if the resource is neither paused nor deleting, the lookup found no other autoscaler and both queries answered with points enough; a decision is taken if and only if it is answered and the Deployment exists; only a decision patches |
| `ReconcileLaws.NoDecisionNoChange` | internal/controller/agenticautoscaler_controller.go:111-187 | without a decision neither the Deployment nor the memory changes, save that a resource that is gone is forgotten |
| `ReconcileLaws.ConflictStops` | internal/controller/agenticautoscaler_controller.go:390-403 | a conflicting autoscaler: no patch, and the whole next state is this one with the phase in conflict and the other autoscaler named, if the write is accepted |
| `ReconcileLaws.KillSwitchStops` | internal/controller/agenticautoscaler_controller.go:356-367 | the kill switch: no patch, and the next state differs in the phase alone |
| `ReconcileLaws.StoppedReplicasStay` | internal/controller/agenticautoscaler_controller.go:111-130 | over any run replicas do not move while the kill switch is set or an autoscaler conflicts, with no outside scaling |
| `ReconcileLaws.PatchesExactlyWhen` | internal/controller/agenticautoscaler_controller.go:111-274 | a patch goes through if and only if nothing hinders, everything needed is known, the call is accepted, there is a gap and a step, and the cooldown of the direction is over |
| `ReconcileLaws.ParamsInForce` | internal/controller/agenticautoscaler_controller.go:407-430 | each of the four parameters of a decision, and of its patch, is the spec's pin, else the classified value, else the default, in the fields of the resource and the configuration |
| `ReconcileLaws.RequestCarriesSamples` | internal/controller/agenticautoscaler_controller.go:157-178 | the forecast request carries the sampled values in order and names the forecaster in force, unless that is "auto" |
| `ReconcileLaws.DemandCoversForecast` | internal/controller/agenticautoscaler_controller.go:189-241 | the demand is the least count whose capacity, at the estimate in use, covers the forecast; the present count is the Deployment's, one if it states none |
| `ReconcileLaws.EstimateWithinBounds` | internal/decision/decision.go:301-309 | the estimate in use is the one left in memory, or, if that lies beyond a bound, the bound |
| `ReconcileLaws.WindowLaw` | internal/controller/agenticautoscaler_controller.go:218-229 | the window gains exactly the load per pod, and the estimate becomes its median, if and only if a decision is taken with a replica running, a positive load at or above the noise floor, and both clocks two intervals old; otherwise neither changes |
| `ReconcileLaws.StartingEstimate` | internal/controller/agenticautoscaler_controller.go:475-489 | a status estimate inside the bounds is resumed with five copies; any other gives the midpoint of the bounds and an empty window, or a negative estimate if the sum of the bounds wraps |
| `Calibration.SixFoldsCalibrate` | internal/decision/state.go:38-89 | in every run from a controller's start, six observations of the same load per pod without a crash make that the estimate, whatever it was before and whatever else happened between them |
| `Calibration.FiveFoldsDoNot` | internal/decision/state.go:77-89 | five do not: the estimate then lies half way |
| `Calibration.PinnedCooldownSafety` | internal/controller/agenticautoscaler_controller.go:407-430 | a spec that pins a cooldown of c seconds keeps a patch in that direction c seconds after every earlier one; across crashes counted from the earlier one's whole second |
| `Reconcile.Reconciler.Reconcile` | internal/controller/agenticautoscaler_controller.go:91-350 | one reconcile on the live objects makes exactly the transition `Reconciled` for its key, reports its request, decision and patch, and changes no other resource, memory or Deployment; what that transition reads and does is `ReconcileLaws` |
| `Reconcile.Reconciler.Act` | internal/controller/agenticautoscaler_controller.go:189-347 | with metrics, forecast and Deployment at hand, the same for the deciding part |
| `Reconcile.Reconciler.Recall` | internal/controller/agenticautoscaler_controller.go:213-216 | the key's state exists and is seeded from the status exactly once |
| `Reconcile.Reconciler.ObserveLoad` | internal/controller/agenticautoscaler_controller.go:221-228 | the window and estimate in memory become those of `Fold`, which `ReconcileLaws.WindowLaw` states as the load per pod entering exactly when the steady-state gate is open |
| `Reconcile.Reconciler.Decide` | internal/controller/agenticautoscaler_controller.go:218-254 | the decision is `PlanOf` the folded window, the clamped estimate and the parameters, which `ReconcileLaws` states field by field; only this key's memory changes |
| `Reconcile.Reconciler.Commit` | internal/controller/agenticautoscaler_controller.go:257-347 | a rejected patch changes neither Deployment, clocks nor status; an accepted one moves one clock; a lost status write loses the stamp |
| `Runs.StepClock` | internal/controller/agenticautoscaler_controller.go:257-274 | a reconcile moves a clock only by a patch in its direction, and then to the patch's instant |
| `Runs.StepStamp` | internal/controller/agenticautoscaler_controller.go:333-347 | the persisted stamp changes only by a patch whose status write succeeded |
| `Runs.PatchRespectsClock` | internal/decision/decision.go:225-239 | a patch goes through only when its direction's clock is at least the cooldown old |
| `Runs.NaturalPatchFits` | internal/decision/decision.go:216-239 | a patch whose present count, step and target are not negative never had its step wrap |
| `Runs.NaturalCountsFit` | internal/controller/agenticautoscaler_controller.go:257-274 | a run in which no patch that went through has a negative count or step meets what the run theorems ask of the steps |
| `Runs.ClockCovers` | internal/decision/decision.go:342-354 | from a patch on, in every run with durable stamps, its direction's clock is never behind the patch, up to the second a crash rounds away |
| `Runs.CooldownSafety` | internal/controller/agenticautoscaler_controller.go:213-274 | in every run with a non-decreasing clock and durable stamps, two patches in one direction are at least the cooldown in force at the later apart; across crashes counted from the earlier one's whole second |
| `Runs.RestartKeepsCooldown` | internal/controller/agenticautoscaler_controller.go:475-489 | a restart lets no patch through early, for any instant and cooldown, if and only if the persisted stamp is no older than the clock |
| `Runs.FreshStampCovers` | internal/controller/agenticautoscaler_controller.go:333-347 | the stamp a patch has just persisted covers its clock if and only if the patch fell on a whole second |
| `RestartGaps.LostStampLosesCooldown` | internal/controller/agenticautoscaler_controller.go:340-347 | a run in which one failed status write and a crash let two scale-ups follow one second apart under a sixty-second cooldown |
| `RestartGaps.FractionIsLost` | internal/controller/agenticautoscaler_controller.go:340-347 | a run with every write durable in which two scale-ups are 59.1 seconds apart under a sixty-second cooldown |
| `RampRate.StepReplicas` | internal/controller/agenticautoscaler_controller.go:257-274 | the Deployment moves exactly by the patch that went through, and otherwise not at all |
| `RampRate.CooldownSpacing` | internal/decision/decision.go:225-239 | cooldowns of at least c seconds space same-direction patches c seconds apart (a second less across crashes) |
| `RampRate.RampRateBound` | internal/decision/decision.go:216-239 | over any T of any run replicas move in a direction by at most m (1 + floor(T / c)), with no outside scaling |
| `Convergence.Confinement` | internal/decision/decision.go:156-164 | in a run whose steps fit 32 bits, once inside the bounds no forecast, load, failure or crash takes replicas outside |
| `AdmittedRuns.SafeConfinement` | internal/decision/decision.go:156-253 | with steps that fit from one below the maximum, and nothing assumed about the patches made, replicas stay inside the bounds and every patch's step stays inside 32 bits |
| `AdmittedRuns.StoredStepIsSafe` | internal/webhook/v1alpha1/validator.go:62-75 | under a stored spec the step in force is at least one whether it is pinned, classified or the default |
| `AdmittedRuns.ClassifiedStepIsSourced` | internal/classifier/worker.go:205-274 | what a worker started under a stored spec writes is at least one, and fits any maximum that leaves room for that worker's range |
| `AdmittedRuns.AdmittedRunQualifies` | internal/webhook/v1alpha1/validator.go:28-103 | a run of stored specs whose step in force, from whatever source, fits from one below the maximum, started inside its bounds, stays inside and meets what the other run theorems ask of its steps |
| `AdmittedRuns.AdmittedCooldownSafety` | internal/controller/agenticautoscaler_controller.go:213-274 | cooldown safety of such a run, both with and without a crash in between |
| `AdmittedRuns.AcceptedCooldownSafety` | internal/controller/agenticautoscaler_controller.go:213-274 | cooldown safety with outside scaling and no bounds at all, when the later patch has no negative count |
| `AdmittedRuns.AdmittedRampRate` | internal/decision/decision.go:216-239 | the ramp-rate bound of such a run |
| `Convergence.ConvergesInExactly` | internal/decision/decision.go:212-253 | under a steady recommendation the goal is reached if and only if ceil(gap / step) patches went through, and none ever follows |
| `Convergence.WhenAStepPatches` | internal/controller/agenticautoscaler_controller.go:231-274 | a reconcile patches if and only if it is fully informed, accepted, has a gap and a step, and no cooldown holds |
| `Progress.PatchesOrHeld` | internal/controller/agenticautoscaler_controller.go:231-274 | with a gap to close, a reconcile that does not fail patches unless the cooldown of its direction still holds |
| `Progress.ReachesInTime` | internal/controller/agenticautoscaler_controller.go:231-274 | when reconciles come at most a period apart, a steady recommendation is reached within ceil(gap / step) rounds of one cooldown and one period each, plus one period for every reconcile that failed, and kept |
| `StatusReport.ReasonNamesTheBound` | internal/decision/decision.go:145-253 | a binding token appears if and only if the count sits at the bound and the demand lies beyond it; "no change" if and only if the demand itself is met |
| `StatusReport.StatusReportsDeployment` | internal/controller/agenticautoscaler_controller.go:332-347 | a status just written gives the Deployment's count after the step and a recommendation within bounds: the demand if that is inside, else the bound it lies beyond |
| `StatusReport.StatusCarriesDecision` | internal/controller/agenticautoscaler_controller.go:332-347 | it also gives the demand, the forecast and the estimate in use less their fractions, and the time of the patch if there was one; the classification stays |
| `StatusReport.RejectedWritesChangeNothing` | internal/controller/agenticautoscaler_controller.go:257-347 | a rejected patch changes neither resource nor Deployment, a rejected status write not the resource |
| `StatusReport.ConflictNamedOverRuns` | internal/controller/agenticautoscaler_controller.go:332-403 | over every run a resource in conflict names the other autoscaler and a ready one does not |
| `StatusReport.KillSwitchKeepsConflict` | internal/controller/agenticautoscaler_controller.go:356-367 | pausing changes the phase alone, so a recorded conflict survives it |
| `SelfCalibration.FixedPoint` | internal/controller/agenticautoscaler_controller.go:222-254 | a calibrated, balanced loop decides "no change" at every later reconcile under that load, whatever fails in between |
| `SelfCalibration.EstimateIsMedian` | internal/controller/agenticautoscaler_controller.go:213-228 | in every run from a controller's start the estimate in memory is its window's median, or nothing was ever observed or restored |
| `SelfCalibration.FixedPointFromMajority` | internal/controller/agenticautoscaler_controller.go:222-254 | the same fixed point from a majority of the window alone, in every run from a controller's start |
| `SelfCalibration.PersistedEstimate` | internal/controller/agenticautoscaler_controller.go:229-339 | the estimate written to status is within the bounds and less than one below the clamped one, equal if and only if that is whole |
| `SelfCalibration.RestartRoundTrip` | internal/controller/agenticautoscaler_controller.go:475-489 | after a durable decision a restart restores the estimate to within one request per second, never the midpoint |
| `SelfCalibration.NoDriftAcrossRestarts` | internal/decision/decision.go:342-348 | over any number of restarts between which at most four observations are folded in, over any number of reconciles and whatever the loads, the persisted estimate does not move |
| `AdmittedRuns.StoredRoundTrip` | internal/controller/agenticautoscaler_controller.go:475-489 | the restart round trip under a stored spec, whose capacity bounds admission orders |
| `AdmittedRuns.StoredNoDrift` | internal/decision/decision.go:342-348 | no drift from a controller's start under a stored spec, for every persisted estimate inside its bounds |
| `SelfCalibration.FirstRecommendation` | internal/controller/agenticautoscaler_controller.go:229-241 | from a truncated estimate the first recommendation is the balanced count if and only if nothing was truncated or the count is the maximum |
| `RestartAtRest.FixedPointAcrossRestart` | internal/controller/agenticautoscaler_controller.go:213-347 | after rest and a durable status write, through any number of crashes, failed reconciles and reconciles at rest, the first decision of a controller without memory patches if and only if the estimate has a fraction, there is headroom and a step, the patch is accepted and the persisted stamp holds no cooldown |
| `RestartAtRest.RestartScalesUp` | internal/controller/agenticautoscaler_controller.go:229-274 | such a patch goes up |
| `RestartAtRest.RestartMovesARestingLoop` | internal/controller/agenticautoscaler_controller.go:333-347 | a concrete run: two replicas serving 201 requests a second at 100.5 each are scaled up by a restart |
| `Channels.DropAndPush` | internal/classifier/manager.go:220-234 | run alone, leaves one signal pending whatever it found |
| `Channels.Notify` | internal/controller/interfaces.go:87-96 | run alone, leaves its own request pending whatever it found |
| `DropAndPushInterleaved.NoLostWakeup` | internal/classifier/manager.go:220-234 | in every interleaving of any number of senders with the receiver: if a call returned and the worker received nothing since it began, a signal is pending or another call is between its drain and its last send |
| `DropAndPushInterleaved.QuiescentIsPending` | internal/classifier/manager.go:220-234 | with no call in progress, an unserved call means a pending signal |
| `DropAndPushInterleaved.SendersNeverBlock` | internal/classifier/manager.go:220-234 | until it returns a call can always take its next select, takes at most three in all, and has returned once it took three |
| `DropAndPushInterleaved.NoSpuriousWakeup` | internal/classifier/worker.go:172-190 | signals received or pending never outnumber the calls that returned |
| `DropAndPushInterleaved.UndisturbedCall` | internal/classifier/manager.go:220-234 | undisturbed, a call takes one select on an empty channel, and three on a full one, which it empties on the way |
| `LatestWins.LatestWinsDelivery` | internal/controller/interfaces.go:87-96 | with one sender, in every interleaving: the send after the drain succeeds, the consumer receives notified requests in order without repeats, and the newest is pending or the last received |
| `WorkerManager.Manager.Ensure` | internal/classifier/manager.go:82-124 | starts a worker for an unknown key, with the spec's Deployment and effective replica bounds, and changes nothing for a known one |
| `WorkerManager.Manager.Stop` | internal/classifier/manager.go:128-137 | cancels and forgets the key's worker; every other worker is untouched |
| `WorkerManager.Manager.SignalReclassify` | internal/classifier/manager.go:142-150 | makes the transition for the key's reclassify signal and no other; over traces `PendingSignals.ReclassifyPendingWhen` says what is then pending |
| `WorkerManager.Manager.ObserveDeploymentRevision` | internal/classifier/manager.go:165-189 | records the revision and reports, and leaves pending, a rollout signal exactly when a different revision was on record |
| `WorkerManager.OneLiveWorkerPerKey` | internal/classifier/manager.go:82-137 | over every trace the uncancelled workers are exactly the registered ones, so no key has two and none is forgotten |
| `WorkerManager.SettingsOfTheStart` | internal/classifier/manager.go:76-124 | over every trace a registered worker has the Deployment and the effective replica bounds of the spec in the call that started it, however many later calls brought other ones |
| `WorkerManager.SignalsAreChanges` | internal/classifier/manager.go:165-189 | from a worker's start until its stop, rollout signals equal the adjacent unequal pairs in the observed revisions |
| `PendingSignals.RegisteredWhen` | internal/classifier/manager.go:82-137 | a key has a worker if and only if it was asked for and not stopped since |
| `PendingSignals.ReclassifyPendingWhen` | internal/classifier/manager.go:142-150 | a worker has a reclassification pending if and only if one was signalled to it and neither received nor stopped since |
| `PendingSignals.RecordedWhen` | internal/classifier/manager.go:165-189 | the revision on record is the last one reported to that worker |
| `PendingSignals.RolloutPendingWhen` | internal/classifier/manager.go:165-189 | a worker has a rollout pending if and only if a revision other than the one last told was reported to it and neither received nor stopped since |
| `ClassifierWorker.Worker.RunClassification` | internal/classifier/worker.go:205-274 | writes the selected pipeline's parameters when the query succeeds, the points suffice and the write is accepted, and otherwise changes nothing |
| `ClassifierWorker.Worker.Take` | internal/classifier/worker.go:150-191 | a turn classifies unless it is a deduplicated rollout signal; stamp and status move only by a successful classification, and only a successful reclassification strips the annotation |
| `ClassifierWorker.WrittenParamsInRange` | internal/classifier/worker.go:205-274 | whatever a worker writes about a load of up to 6.3e13 samples has cooldowns in [30, 120] and [120, 600] and a step between 1 and its replica range |
| `ClassifierWorker.WrittenStepInRange` | internal/classifier/worker.go:205-274 | the step it writes lies in that range for any series whatever |
| `ClassificationLaws.WrittenFollowsSamples` | internal/classifier/worker.go:205-274 | a turn writes if and only if the query succeeded with points enough and the write was accepted; what it writes follows from features that describe the samples at the worker's cadence and guard, down to the forecaster's name |
| `ClassificationLaws.NameLaw` | internal/classifier/params.go:36-43 | the written name is one a spec may pin, never "auto", and "prophet" or "gbdt_quantile" if and only if the features call for it |
| `ClassifierWorker.DroppedIffRecent` | internal/classifier/worker.go:124-190 | over every sequence of turns a rollout trigger is dropped if and only if some earlier classification succeeded within the dedup window |
| `Sums.CauchySchwarz` | internal/classifier/features.go:278-299 | num^2 <= sx sy for the three accumulated inner products |
| `LeastSquares.ComputeMean` | internal/classifier/features.go:154-160 | the loop computes the mean |
| `LeastSquares.ComputeTrendSlope` | internal/classifier/features.go:322-339 | the loop computes the least-squares slope, whose optimality is proved below |
| `LeastSquares.ComputeDetrended` | internal/classifier/features.go:134-147 | the loop subtracts the line of that slope through the centroid |
| `LeastSquares.DenClosedForm` | internal/classifier/features.go:322-339 | the denominator is n (n^2 - 1) / 12, so the zero-denominator branch is dead for two samples or more |
| `LeastSquares.NormalEquations` | internal/classifier/features.go:322-339 | residuals sum to zero and are orthogonal to the index |
| `LeastSquares.LeastSquaresIsOptimal` | internal/classifier/features.go:322-339 | no line has a smaller sum of squared errors |
| `LeastSquares.LeastSquaresIsUnique` | forecast-service/src/forecast/linear_extrap.py:131-132 | with two samples or more a line does as well if and only if it is that same line |
| `LeastSquares.DetrendingIsComplete` | internal/classifier/features.go:134-147 | residuals have zero mean and zero slope, and detrending again changes nothing |
| `LeastSquares.LineIsFitted` | internal/classifier/features.go:134-147 | an exactly linear series gives back its own slope and intercept and detrends to zero |
| `Correlation.ComputeStdDev` | internal/classifier/features.go:162-169 | the loop computes the root of the mean squared deviation |
| `Correlation.ComputeAutocorrelation` | internal/classifier/features.go:278-299 | the loop computes the coefficient that `PerfectCorrelation` characterises, of the series with its lagged self, and never divides by zero |
| `Correlation.AutocorrelationBound` | internal/classifier/features.go:278-299 | for every series and lag the coefficient lies in [-1, 1] |
| `Correlation.LinesDoNotCorrelate` | internal/classifier/features.go:278-299 | a detrended straight line has coefficient zero at every lag |
| `Correlation.LagZeroIsOne` | internal/classifier/features.go:278-299 | at lag zero the coefficient is 1 unless the series is constant |
| `PerfectCorrelation.PerfectIffEcho` | internal/classifier/features.go:278-299 | at every lag the coefficient is 1 if and only if the overlap is long enough and not constant and every sample is one fixed rising line of the sample a lag before; -1 if and only if that line falls |
| `PerfectCorrelation.UnexplainedShare` | internal/classifier/features.go:278-299 | no line predicts the later samples from those a lag before with a squared error below 1 - r^2 of their spread; one attains it, and rises or falls with the sign of r |
| `Correlation.VarianceBound` | internal/classifier/features.go:162-169 | the variance of a non-negative load is at most n - 1 times its squared mean |
| `HourlyProfile.ComputeHourlyProfile` | internal/classifier/features.go:239-271 | each bin is the rounded median of its own hour's samples, narrowed to 32 bits, and the profile is valid exactly when the hours reached meet the minimum |
| `HourlyProfile.BucketsPartition` | internal/classifier/features.go:252-262 | pooled, the 24 buckets give back the series: every sample lands in exactly one |
| `HourlyProfile.PopulatedCount` | internal/classifier/features.go:252-271 | the populated hours number min(24, ceil(n / points per hour)) |
| `HourlyProfile.ProfileRotates` | internal/classifier/features.go:252-271 | starting k hours later rotates the profile by k |
| `HourlyProfile.ExactHourOffset` | internal/classifier/features.go:239-262 | when the resolution divides 60, sample i lies floor(i resolution / 60) hours after the start |
| `ClassificationLaws.HourOfTheDay` | internal/classifier/features.go:252-262 | with such a resolution a sample belongs to the hour of day floor((60 start + i resolution) / 60) mod 24 |
| `ClassificationLaws.ContextLaw` | internal/classifier/pipeline.go:148-160 | baseline, peak and bins are the median, 95th percentile and hourly medians to the nearest integer while in range, empty hours are zero, the trend is per minute, and the profile is valid if and only if enough hours are populated |
| `Pipeline.V2RefinesV1` | internal/classifier/pipeline.go:106-173 | at one-minute cadence, with its defaults, units and lag, the second pipeline gives the first's result, except that a gradual ramp may become the default pattern |
| `Pipeline.MeanOnlyDropsRamps` | internal/classifier/classify.go:48-71 | scaling the ramp threshold by the mean changes only ramps to default, and never the forecaster |
| `Pipeline.CeilLog2From` | internal/classifier/params.go:90-96 | the least exponent whose power of two reaches the ratio |
| `Pipeline.ParamRanges` | internal/classifier/params.go:76-108 | scale-up cooldown in [30, 120], step within the replica range, scale-down cooldown in [120, 600] while its raw value fits 32 bits |
| `Pipeline.HugeSpreadEscapes` | internal/classifier/params.go:84-88 | beyond that, on a platform that converts to the least int32, the scale-down cooldown is 60 |
| `Pipeline.CooldownsFollowSpread` | internal/classifier/params.go:76-88 | a wider spread never lengthens the scale-up cooldown, and a wider spread or weaker hourly rhythm never shortens the scale-down cooldown |
| `Pipeline.StepReachesPeak` | internal/classifier/params.go:90-100 | the step is the least one whose power of two reaches the peak ratio, unless the replica range stops it first |
| `Pipeline.ForecasterByFeatures` | internal/classifier/params.go:115-126 | prophet is chosen if and only if the rhythm is strong, the quantile model if and only if the series is bursty without one |
| `FeatureLaws.SpreadLaw` | internal/classifier/features.go:92-126 | the coefficient of variation times the mean is the root mean square deviation; under the guard it is zero |
| `FeatureLaws.PeakLaw` | internal/classifier/features.go:110-118 | the peak ratio reaches k if and only if fewer than 99% of the samples lie below k times the mean, or the guard if greater |
| `FeatureLaws.RhythmLaw` | internal/classifier/features.go:58-63 | the rhythm is the correlation of the detrended series at the lag that is an hour in whole samples, rounded down |
| `FeatureLaws.TrendLaw` | internal/classifier/features.go:311-317 | the trend per minute, over the minutes between samples, is the least-squares slope per sample |
| `FeatureLaws.PatternWhen` | internal/classifier/classify.go:48-71 | each of the five patterns is reported if and only if its own condition on the features holds |
| `FeatureLaws.ConfidenceWhen` | internal/classifier/confidence.go:20-29 | high if and only if the points meet the high threshold, medium if and only if only the other, else insufficient |
| `FeatureLaws.UpLaw` | internal/classifier/params.go:81-83 | the scale-up cooldown is 120 / (1 + 2 cv) to the nearest second, or 30 where that is no more than 29.5 |
| `FeatureLaws.DownLaw` | internal/classifier/params.go:85-88 | the scale-down cooldown is 180 (1 + 1.5 cv) / (1 + 0.5 rhythm) to the nearest second, or 600 from 600.5 on, while the raw value fits 32 bits |
| `FeatureLaws.ForecasterWhen` | internal/classifier/params.go:102-126 | the forecaster among the parameters is each of the three if and only if the features call for it |
| `ClassificationLaws.PipelineReports` | internal/classifier/pipeline.go:33-53 | the first pipeline refuses exactly the series with too few points; otherwise its features describe the series and pattern, confidence and parameters follow from them |
| `ClassificationLaws.PipelineV2Reports` | internal/classifier/pipeline.go:106-173 | the same for the second at the configured cadence and guard, with a context that summarises the series |
| `Pipeline.PipelineRanges` | internal/classifier/pipeline.go:33-53 | every run of the first pipeline on a load of up to 6.3e13 samples, none included, gives cooldowns in [30, 120] and [120, 600] and a step within the replica range, so the ceiling 180 and floor 60 are out of reach |
| `Pipeline.PipelineV2Ranges` | internal/classifier/pipeline.go:106-173 | the same for the second pipeline at every cadence and guard |
| `Bursts.BurstSpread` | internal/classifier/features.go:162-169 | a single burst among n samples has a squared coefficient of variation of exactly n - 1 |
| `Bursts.BurstDropsCooldown` | internal/classifier/params.go:84-88 | a burst among 1.43e14 samples or more overflows, and a conversion to the least int32 gives a scale-down cooldown of 60 |
| `Bursts.BurstTakenForPeriodic` | internal/classifier/features.go:58-63 | ten samples or more with a single burst are periodic at any cadence above sixty minutes |
| `Pipeline.LinesAreNeverPeriodic` | internal/classifier/classify.go:48-71 | an exactly linear series is periodic for neither pipeline, at any cadence |
| `Pipeline.CoarseCadenceIsPeriodic` | internal/classifier/features.go:58-63 | above sixty minutes a series of ten samples or more is periodic if and only if it is neither flat nor a straight line |
| `Pipeline.BaselineBelowPeak` | internal/classifier/features.go:214-224 | the rounded baseline never exceeds the rounded 95th percentile; narrowed to 32 bits, on every platform, if and only if the percentile fits or neither does |
| `LinearExtrap.BlendIsCentroidRotation` | forecast-service/src/forecast/linear_extrap.py:131-145 | before the clip the prediction is the weighted mean of the context-free one and of the trend line through the centroid |
| `LinearExtrap.FullWeightIgnoresTrend` | forecast-service/src/forecast/linear_extrap.py:134-145 | full weight, or a trend equal to the fitted slope, makes the blend a no-op |
| `LinearExtrap.LinearHistoryIsExtrapolated` | forecast-service/src/forecast/linear_extrap.py:122-157 | without context an exactly linear history is extrapolated exactly for every window and horizon, floored at zero |
| `LinearExtrap.ForecastIsClampedRotation` | forecast-service/src/forecast/linear_extrap.py:131-157 | with two samples or more the forecast is that weighted mean clamped to [0, 1.5 p95] |
| `LinearExtrap.ForecastRange` | forecast-service/src/forecast/linear_extrap.py:128-157 | the forecast is never negative, and within 1.5 p95 if and only if the window has two samples or its only sample is |
| `LinearExtrap.OneSampleEscapesClip` | forecast-service/src/forecast/linear_extrap.py:128-129 | one sample of 100 under a p95 of 10 is forecast as 100 |
| `GbdtRows.BuildRows` | forecast-service/src/forecast/gbdt_model.py:118-151 | the loop builds exactly max(0, n - 2 - horizon) rows, so its break is never taken, and their labels are the history from position horizon + 2 on |
| `GbdtRows.Prepare` | forecast-service/src/forecast/gbdt_model.py:90-187 | fails if and only if the history is empty, the horizon negative, the history short of the gate or of horizon + 3, with the error of the first of these |
| `GbdtRows.RowsAreAligned` | forecast-service/src/forecast/gbdt_model.py:126-151 | every row carries three consecutive samples, its label comes exactly horizon samples after the newest, and the last label is the last sample |
| `GbdtRows.RowClock` | forecast-service/src/forecast/gbdt_model.py:134-148 | a row's hour and minute spell out the minute of day of its newest sample, within 0..1439 |
| `GbdtRows.ClockAdvances` | forecast-service/src/forecast/gbdt_model.py:134-138 | the clock advances one minute a sample modulo 1440 and ends at the context's own |
| `GbdtRows.PredictionClockIsTargets` | forecast-service/src/forecast/gbdt_model.py:176-187 | the prediction row carries the target's clock, and agrees with the training rows' convention if and only if the horizon is a whole number of days |
| `GbdtRows.PredictionUsesLatest` | forecast-service/src/forecast/gbdt_model.py:176-191 | the prediction row carries the last three samples and the hour and minute of the context's clock moved on by the horizon |
| `GbdtRows.OrDefault` | forecast-service/src/forecast/gbdt_model.py:110-118 | a given context is used as it is; without one it is midnight, an empty profile and no peak |
| `GbdtRows.GateLeavesARow` | forecast-service/src/forecast/gbdt_model.py:95-96 | the length gate leaves a training row for every history if and only if the minimum is at least three |
| `GbdtRows.Capped` | forecast-service/src/forecast/gbdt_model.py:196-200 | the forecast is the value nearest the model's output within [0, 3 p95], or within the non-negatives without a p95 |

## Left out

- Runs.CooldownSafety: assumes every crash finds the latest patch's stamp written; without that it is false (`RestartGaps.LostStampLosesCooldown`). Across a crash it loses the fraction of a second that persisting drops (`RestartGaps.FractionIsLost`).
- Progress.ReachesInTime: covers a stretch of reconciles with failures but without crashes or edits in it; with those only `Convergence.ConvergesInExactly` applies.
- RampRate.RampRateBound: assumes the steps of the stretch stay inside 32 bits, as do confinement and convergence; `AdmittedRuns.AdmittedRunQualifies` discharges that for stored specs whose step fits from one below the maximum, and `Runs.NaturalCountsFit` for runs without a negative count. Across crashes a cooldown counts for up to a second less.
- Convergence.Confinement: the same assumption; `AdmittedRuns.SafeConfinement` is the form without it.
- SelfCalibration.NoDriftAcrossRestarts: stops at four folded observations per incarnation; a fifth can move the median (`Observations.SeedDominanceBound`).
- Pipeline.PipelineRanges: bounds the series at 6.3e13 samples, so that the raw cooldown fits 32 bits; `Pipeline.ParamRanges` states the condition itself. Between there and the 1.43e14 of `Bursts.BurstDropsCooldown` the outcome depends on the hourly correlation, and nothing is stated.
- Pipeline.V2RefinesV1: takes a non-empty series; on an empty one admitted by a threshold of zero or less, the second pipeline divides by zero and the first returns zero features.
- Calibration.SixFoldsCalibrate: no crash among the six observations, and the same load per pod in all; with a crash the window is re-seeded (`Observations.SeedDominanceBound`).
- PerfectCorrelation.UnexplainedShare: takes an overlap that is constant on neither side; where it is, the code reports zero.
- FeatureLaws.DownLaw: stated while the raw value fits 32 bits; beyond that `Pipeline.HugeSpreadEscapes`.
- ClassificationLaws.WrittenFollowsSamples: the step is stated for peak ratios that some power of two with a 32-bit exponent reaches, as every finite float does.
- LatestWins.LatestWinsDelivery: one sender, as docs/design_v2.md:873-876 requires; several senders are not modelled.
- ClassifierWorker.Worker.Take: panics with their backoff and cancellation are left out; a turn is over before the next begins.
- ClassifierWorker.Worker.RunClassification: of what is written the pattern, confidence, number of points, time and context are left out; `Pipeline` has them as results.
- Api.AdmittedBoundsInOrder: speaks of the validator by itself; objects written past the API server's schema are not modelled otherwise.
- Reconcile.Reconciler.Reconcile: the calls into the classifier manager are not part of the transition; the manager is modelled on its own in `WorkerManager`. Events, metrics, logs, requeue delays and the contents of the explanation request are left out: each patch stands for its notification.
- The forecast context sent with a request, the dispatch between forecasters, Prophet, the LightGBM fit and the language model.
- Two resources in one run, and a resource deleted and created again: the run theorems follow one resource's lifetime (`Reconcile.Reconciler.Reconcile` states that others are untouched).
- Rounding of floating-point arithmetic, infinities and NaN.
- Environment settings, cancellation of the root context, and locks: each guarded operation is one step.
- The production wiring leaves the cadence unset (cmd/controller/main.go:188-194), so the claims about other cadences are about the pipeline and not the deployment.
