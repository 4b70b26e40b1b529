/** The scaling decision: parameter resolution, the recommendation, and cap, cooldown and hysteresis.
    Instants and durations are integer nanoseconds; cooldowns arrive in seconds. */
module Decision {
  import opened Prelude
  import opened ControllerState
  import opened Observations

  const SECOND: int := 1_000_000_000

  // ---------------------------------------------------------------- effective parameters

  datatype SpecParams = SpecParams(
    scaleUpCooldown: Option<int32>,
    scaleDownCooldown: Option<int32>,
    maxStepSize: Option<int32>,
    preferredForecaster: Option<string>)

  datatype ClassifiedParams = ClassifiedParams(
    scaleUpCooldown: int32,
    scaleDownCooldown: int32,
    maxStepSize: int32,
    preferredForecaster: string)

  datatype DefaultParams = DefaultParams(scaleUpCooldown: int32, scaleDownCooldown: int32, maxStepSize: int32)

  datatype EffectiveParams = EffectiveParams(
    cooldownUp: int32,
    cooldownDown: int32,
    maxStep: int32,
    forecaster: string)

  function Coalesce<T>(spec: Option<T>, classified: Option<T>, default: T): T {
    if spec.Some? then spec.value else if classified.Some? then classified.value else default
  }

  function NonEmpty(s: Option<string>): Option<string> {
    if s.Some? && s.value != "" then s else None
  }

  function ResolveEffectiveParams(spec: SpecParams, classified: Option<ClassifiedParams>,
                                  defaults: DefaultParams): EffectiveParams
  {
    EffectiveParams(
      Coalesce(spec.scaleUpCooldown,
               if classified.Some? then Some(classified.value.scaleUpCooldown) else None,
               defaults.scaleUpCooldown),
      Coalesce(spec.scaleDownCooldown,
               if classified.Some? then Some(classified.value.scaleDownCooldown) else None,
               defaults.scaleDownCooldown),
      Coalesce(spec.maxStepSize,
               if classified.Some? then Some(classified.value.maxStepSize) else None,
               defaults.maxStepSize),
      Coalesce(NonEmpty(spec.preferredForecaster),
               NonEmpty(if classified.Some? then Some(classified.value.preferredForecaster) else None),
               "auto"))
  }

  const UNPINNED := SpecParams(None, None, None, None)

  /** Each parameter is resolved on its own: a pinned one is the pin, whatever else is pinned; with nothing pinned
      the classified values apply, and the defaults without a classification. */
  lemma {:induction false} ParamsResolveFieldwise(spec: SpecParams, classified: Option<ClassifiedParams>,
                                                  defaults: DefaultParams)
    ensures var r := ResolveEffectiveParams(spec, classified, defaults);
            var base := ResolveEffectiveParams(UNPINNED, classified, defaults);
            && r.cooldownUp == (if spec.scaleUpCooldown.Some? then spec.scaleUpCooldown.value else base.cooldownUp)
            && r.cooldownDown == (if spec.scaleDownCooldown.Some? then spec.scaleDownCooldown.value
                                  else base.cooldownDown)
            && r.maxStep == (if spec.maxStepSize.Some? then spec.maxStepSize.value else base.maxStep)
            && (spec.preferredForecaster in {None, Some("")} ==> r.forecaster == base.forecaster)
            && (spec.preferredForecaster !in {None, Some("")} ==> Some(r.forecaster) == spec.preferredForecaster)
            && (match classified
                case None =>
                  base == EffectiveParams(defaults.scaleUpCooldown, defaults.scaleDownCooldown, defaults.maxStepSize,
                                          "auto")
                case Some(c) =>
                  base == EffectiveParams(c.scaleUpCooldown, c.scaleDownCooldown, c.maxStepSize,
                                          if c.preferredForecaster == "" then "auto" else c.preferredForecaster))
  {}

  // ---------------------------------------------------------------- recommendation

  /** Replicas the forecast asks for, with no bounds applied; the largest `int32` when there is
      no usable capacity estimate. */
  function ComputeUnboundedRecommended(predicted: real, rpsPerPod: real, unspecified: int32): int32 {
    if rpsPerPod <= 0.0 then MAX_INT32 else ToInt32(Ceil(predicted / rpsPerPod) as real, unspecified)
  }

  datatype Binding = Unbound | AtMaximum | AtMinimum

  function ClampRecommended(unbounded: int32, minReplicas: int32, maxReplicas: int32): (int32, Binding) {
    if unbounded > maxReplicas then (maxReplicas, AtMaximum)
    else if unbounded < minReplicas then (minReplicas, AtMinimum)
    else (unbounded, Unbound)
  }

  function ClampRpsPerPod(v: real, minRpsPerPod: int32, maxRpsPerPod: int32): real {
    if v < minRpsPerPod as real then minRpsPerPod as real
    else if v > maxRpsPerPod as real then maxRpsPerPod as real
    else v
  }

  /** The unbounded recommendation is the least replica count whose capacity covers the forecast. */
  lemma {:induction false} RecommendationIsLeastCapacity(predicted: real, rpsPerPod: real, unspecified: int32, k: int)
    requires 0.0 < rpsPerPod
    requires MIN_INT32 <= Ceil(predicted / rpsPerPod) <= MAX_INT32
    ensures ComputeUnboundedRecommended(predicted, rpsPerPod, unspecified) <= k
            <==> predicted <= k as real * rpsPerPod
  {
    CeilOfQuotient(predicted, rpsPerPod, k);
    var c := Ceil(predicted / rpsPerPod);
    assert Truncate(c as real) == c;
  }

  /** Clamping lands inside the replica bounds, whatever the forecast, exactly when they are in order. */
  lemma {:induction false} ClampLandsInBounds(minReplicas: int32, maxReplicas: int32)
    ensures (forall u: int32 :: minReplicas <= ClampRecommended(u, minReplicas, maxReplicas).0 <= maxReplicas)
            <==> minReplicas <= maxReplicas
  {
    if minReplicas > maxReplicas {
      var u: int32 := maxReplicas;
      assert ClampRecommended(u, minReplicas, maxReplicas).0 > maxReplicas;
    }
  }

  /** With no usable estimate the controller fails safe to the maximum. */
  lemma {:induction false} NoEstimateAsksForMaximum(predicted: real, rpsPerPod: real, unspecified: int32,
                                                   minReplicas: int32, maxReplicas: int32)
    requires rpsPerPod <= 0.0
    ensures ClampRecommended(ComputeUnboundedRecommended(predicted, rpsPerPod, unspecified),
                             minReplicas, maxReplicas).0 == maxReplicas
  {}

  // ---------------------------------------------------------------- cap, cooldown, hysteresis

  datatype Reason =
    | ScaleUp | ScaleDown | NoChange
    | StepCappedUp | StepCappedDown
    | CooldownHoldingUp | CooldownHoldingDown
    | MaxReplicasBinding | MinReplicasBinding

  datatype CapInput = CapInput(
    recommended: int32,
    current: int32,
    maxStep: int32,
    cooldownUp: int32,
    cooldownDown: int32,
    lastScaleUp: Option<int>,
    lastScaleDown: Option<int>,
    now: int,
    binding: Binding)

  datatype CapOutput = CapOutput(target: int32, reason: Reason, shouldPatch: bool)

  /** A clock that was never set lies further back than any cooldown reaches. */
  predicate Holding(now: int, last: Option<int>, cooldown: int32) {
    last.Some? && now - last.value < cooldown * SECOND
  }

  function ApplyCapAndCooldown(x: CapInput): CapOutput {
    var (target, reason) :=
      if x.recommended > x.current then
        var ceiling := Wrap32(x.current + x.maxStep);
        if Holding(x.now, x.lastScaleUp, x.cooldownUp) then (x.current, CooldownHoldingUp)
        else if x.recommended > ceiling then (ceiling, StepCappedUp)
        else (x.recommended, ScaleUp)
      else if x.recommended < x.current then
        var floor := Wrap32(x.current - x.maxStep);
        if Holding(x.now, x.lastScaleDown, x.cooldownDown) then (x.current, CooldownHoldingDown)
        else if x.recommended < floor then (floor, StepCappedDown)
        else (x.recommended, ScaleDown)
      else
        (x.current, match x.binding
                    case AtMaximum => MaxReplicasBinding
                    case AtMinimum => MinReplicasBinding
                    case Unbound => NoChange);
    CapOutput(target, reason, target != x.current)
  }

  /** The move is first capped, then the cooldown overrides both target and reason. */
  method ComputeCapAndCooldown(x: CapInput) returns (out: CapOutput)
    ensures out == ApplyCapAndCooldown(x)
  {
    var target, reason := x.recommended, NoChange;
    if target > x.current {
      if target > Wrap32(x.current + x.maxStep) {
        target := Wrap32(x.current + x.maxStep);
        reason := StepCappedUp;
      } else {
        reason := ScaleUp;
      }
      if Holding(x.now, x.lastScaleUp, x.cooldownUp) {
        target := x.current;
        reason := CooldownHoldingUp;
      }
    } else if target < x.current {
      if target < Wrap32(x.current - x.maxStep) {
        target := Wrap32(x.current - x.maxStep);
        reason := StepCappedDown;
      } else {
        reason := ScaleDown;
      }
      if Holding(x.now, x.lastScaleDown, x.cooldownDown) {
        target := x.current;
        reason := CooldownHoldingDown;
      }
    } else {
      match x.binding {
        case Unbound =>
        case AtMaximum => reason := MaxReplicasBinding;
        case AtMinimum => reason := MinReplicasBinding;
      }
    }
    out := CapOutput(target, reason, target != x.current);
  }

  predicate Held(x: CapInput) {
    || (x.recommended > x.current && Holding(x.now, x.lastScaleUp, x.cooldownUp))
    || (x.recommended < x.current && Holding(x.now, x.lastScaleDown, x.cooldownDown))
  }

  /** The step limit, in the direction of the move, stays inside 32 bits. */
  predicate MoveFits(current: int32, recommended: int32, maxStep: int32) {
    && (recommended > current ==> current + maxStep <= MAX_INT32)
    && (recommended < current ==> MIN_INT32 <= current - maxStep)
  }

  predicate StepOverflows(x: CapInput) { !MoveFits(x.current, x.recommended, x.maxStep) }

  /** The move the design asks for: toward the recommendation, by at most the step. */
  function SaturatedMove(x: CapInput): int {
    var step: int := x.maxStep;
    if Held(x) then x.current
    else x.current + Max(-step, Min(step, x.recommended - x.current))
  }

  /** The code makes the saturated move exactly when the step limit does not wrap around
      (or a cooldown holds the move anyway). */
  lemma {:induction false} MoveIsSaturated(x: CapInput)
    requires 0 <= x.maxStep
    ensures ApplyCapAndCooldown(x).target == SaturatedMove(x) <==> (Held(x) || !StepOverflows(x))
  {}

  /** A wrapped step shows in a negative target: between natural counts, a move that is made fits. */
  lemma {:induction false} NaturalMoveFits(x: CapInput)
    requires 0 <= x.current && 0 <= x.maxStep
    requires ApplyCapAndCooldown(x).shouldPatch && 0 <= ApplyCapAndCooldown(x).target
    ensures MoveFits(x.current, x.recommended, x.maxStep)
  {}

  /** A move that wraps: two replicas, a recommendation of the largest `int32` and a step just short of it decide a
      scale-up to the least `int32`. */
  lemma {:induction false} WrappedMove(now: int)
    ensures var x := CapInput(MAX_INT32, 2, MAX_INT32 - 1, 0, 0, None, None, now, AtMaximum);
            ApplyCapAndCooldown(x) == CapOutput(MIN_INT32, StepCappedUp, true)
  {}

  predicate MovingToken(r: Reason) {
    r.ScaleUp? || r.ScaleDown? || r.StepCappedUp? || r.StepCappedDown?
  }

  /** Reading the token tells whether replicas changed, for every input with a non-zero step. */
  lemma {:induction false} TokenTellsPatch(x: CapInput)
    ensures ApplyCapAndCooldown(x).shouldPatch <==> MovingToken(ApplyCapAndCooldown(x).reason) && x.maxStep != 0
    ensures ApplyCapAndCooldown(x).reason in {CooldownHoldingUp, CooldownHoldingDown} <==> Held(x)
    ensures ApplyCapAndCooldown(x).reason in {NoChange, MaxReplicasBinding, MinReplicasBinding}
            <==> x.recommended == x.current
  {}

  /** What a patch does: it stops between the present count and the recommendation, closes the gap
      by the step or entirely, and its direction is the recommendation's. */
  lemma {:induction false} PatchClosesGap(x: CapInput)
    requires 1 <= x.maxStep && !StepOverflows(x)
    requires ApplyCapAndCooldown(x).shouldPatch
    ensures var t := ApplyCapAndCooldown(x).target;
            && Abs(x.recommended - t) == Abs(x.recommended - x.current) - Min(x.maxStep, Abs(x.recommended - x.current))
            && Min(x.current, x.recommended) <= t <= Max(x.current, x.recommended)
            && (t > x.current <==> x.recommended > x.current)
            && Abs(t - x.current) <= x.maxStep
  {}

  // ---------------------------------------------------------------- capacity estimate

  /** Whether a load observation may enter the window: above the noise floor, at least one replica,
      and two intervals past the last scale event. */
  function ShouldUpdateRpsPerPodWithFloor(currentRps: real, replicas: int32, lastScale: Option<int>, now: int,
                                          interval: int, noiseFloor: real): bool
  {
    && currentRps > 0.0
    && replicas >= 1
    && currentRps >= noiseFloor
    && (lastScale.None? || now - lastScale.value >= 2 * interval)
  }

  /** What the persisted status offers a restarted controller. */
  datatype StatusSeed = StatusSeed(
    rpsPerPodCurrent: real,
    inBounds: bool,
    midpoint: real,
    lastScaleTime: Option<int>)

  predicate Usable(seed: StatusSeed) { seed.inBounds && seed.rpsPerPodCurrent > 0.0 }

  function InitializedFrom(st: CRState, seed: StatusSeed): CRState {
    CRState(
      if Usable(seed) then Seeded(RING_BUFFER_CAPACITY, seed.rpsPerPodCurrent, RESTART_SEED_COPIES)
      else st.observations,
      if Usable(seed) then seed.rpsPerPodCurrent else seed.midpoint,
      if seed.lastScaleTime.Some? then seed.lastScaleTime else st.lastScaleUp,
      if seed.lastScaleTime.Some? then seed.lastScaleTime else st.lastScaleDown,
      true)
  }

  method InitializeFromStatus(state: PerCRState, seed: StatusSeed)
    requires state.observations.Valid() && state.observations.cap == RING_BUFFER_CAPACITY
    modifies state, state.observations
    ensures state.observations.Valid()
    ensures state.View() == InitializedFrom(old(state.View()), seed)
  {
    if seed.inBounds && seed.rpsPerPodCurrent > 0.0 {
      state.rpsPerPod := seed.rpsPerPodCurrent;
      state.observations.SeedN(seed.rpsPerPodCurrent, RESTART_SEED_COPIES);
    } else {
      state.rpsPerPod := seed.midpoint;
    }
    if seed.lastScaleTime.Some? {
      state.lastScaleUpTime := seed.lastScaleTime;
      state.lastScaleDownTime := seed.lastScaleTime;
    }
    state.initialized := true;
  }
}
