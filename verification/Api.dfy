/** The custom resource: spec, status, and what admission lets through. */
module Api {
  import opened Prelude
  import opened Decision

  datatype Spec = Spec(
    targetName: string,
    minReplicas: Option<int32>,
    maxReplicas: Option<int32>,
    rpsPerPodMin: Option<int32>,
    rpsPerPodMax: Option<int32>,
    params: SpecParams)

  datatype Phase = Unset | Ready | Disabled | Conflict

  datatype Status = Status(
    phase: Phase,
    conflictingHpa: Option<string>,
    currentReplicas: int32,
    recommendedReplicas: int32,
    unboundedRecommended: int32,
    predictedRps: int32,
    rpsPerPodCurrent: int32,
    lastScaleTime: Option<int>,
    classified: Option<ClassifiedParams>)

  datatype CR = CR(spec: Spec, status: Status, killSwitch: bool, deleting: bool)

  function DerefOr(p: Option<int32>, default: int32): int32 {
    if p.Some? then p.value else default
  }

  function MinReplicasOf(spec: Spec): int32 { DerefOr(spec.minReplicas, 2) }

  function MaxReplicasOf(spec: Spec): int32 { DerefOr(spec.maxReplicas, 10) }

  function RpsPerPodMinOf(spec: Spec): int32 { DerefOr(spec.rpsPerPodMin, 50) }

  function RpsPerPodMaxOf(spec: Spec): int32 { DerefOr(spec.rpsPerPodMax, 500) }

  // ---------------------------------------------------------------- admission

  datatype Problem =
    | MinReplicasBelowOne | MaxReplicasNotAboveMin
    | RpsPerPodMinBelowOne | RpsPerPodMinNotBelowMax
    | MaxStepBelowOne | MaxStepAboveRange
    | NegativeUpCooldown | NegativeDownCooldown
    | UnknownForecaster

  const FORECASTERS := ["prophet", "linear_extrap", "gbdt_quantile", "auto"]

  predicate BothSet(a: Option<int32>, b: Option<int32>) { a.Some? && b.Some? }

  /** When each problem is present. */
  predicate Violates(spec: Spec, p: Problem) {
    match p
    case MinReplicasBelowOne => spec.minReplicas.Some? && spec.minReplicas.value < 1
    case MaxReplicasNotAboveMin =>
      BothSet(spec.minReplicas, spec.maxReplicas) && spec.maxReplicas.value <= spec.minReplicas.value
    case RpsPerPodMinBelowOne => spec.rpsPerPodMin.Some? && spec.rpsPerPodMin.value < 1
    case RpsPerPodMinNotBelowMax =>
      BothSet(spec.rpsPerPodMin, spec.rpsPerPodMax) && spec.rpsPerPodMin.value >= spec.rpsPerPodMax.value
    case MaxStepBelowOne => spec.params.maxStepSize.Some? && spec.params.maxStepSize.value < 1
    case MaxStepAboveRange =>
      && spec.params.maxStepSize.Some?
      && BothSet(spec.minReplicas, spec.maxReplicas)
      && spec.params.maxStepSize.value > Wrap32(spec.maxReplicas.value - spec.minReplicas.value)
    case NegativeUpCooldown => spec.params.scaleUpCooldown.Some? && spec.params.scaleUpCooldown.value < 0
    case NegativeDownCooldown => spec.params.scaleDownCooldown.Some? && spec.params.scaleDownCooldown.value < 0
    case UnknownForecaster =>
      spec.params.preferredForecaster.Some? && spec.params.preferredForecaster.value !in FORECASTERS
  }

  ghost predicate Admitted(spec: Spec) {
    forall p: Problem :: !Violates(spec, p)
  }

  ghost predicate Distinct<T>(s: seq<T>) {
    forall i, j :: 0 <= i < j < |s| ==> s[i] != s[j]
  }

  method AppendIf(problems: seq<Problem>, present: bool, p: Problem) returns (r: seq<Problem>)
    requires Distinct(problems) && p !in problems
    ensures Distinct(r)
    ensures forall q :: q in r <==> q in problems || (present && q == p)
  {
    r := problems;
    if present {
      r := r + [p];
    }
  }

  const BOUND_PROBLEMS := {MinReplicasBelowOne, MaxReplicasNotAboveMin, RpsPerPodMinBelowOne, RpsPerPodMinNotBelowMax}
  const STEP_PROBLEMS := {MaxStepBelowOne, MaxStepAboveRange}

  method BoundProblems(spec: Spec) returns (problems: seq<Problem>)
    ensures forall p :: p in problems <==> p in BOUND_PROBLEMS && Violates(spec, p)
    ensures Distinct(problems)
  {
    problems := [];
    problems := AppendIf(problems, spec.minReplicas.Some? && spec.minReplicas.value < 1, MinReplicasBelowOne);
    problems := AppendIf(problems,
      spec.minReplicas.Some? && spec.maxReplicas.Some? && spec.maxReplicas.value <= spec.minReplicas.value,
      MaxReplicasNotAboveMin);
    problems := AppendIf(problems, spec.rpsPerPodMin.Some? && spec.rpsPerPodMin.value < 1, RpsPerPodMinBelowOne);
    problems := AppendIf(problems,
      spec.rpsPerPodMin.Some? && spec.rpsPerPodMax.Some? && spec.rpsPerPodMin.value >= spec.rpsPerPodMax.value,
      RpsPerPodMinNotBelowMax);
  }

  method StepProblems(spec: Spec, found: seq<Problem>) returns (problems: seq<Problem>)
    requires Distinct(found) && forall p :: p in found ==> p in BOUND_PROBLEMS
    ensures forall p :: p in problems <==> p in found || (p in STEP_PROBLEMS && Violates(spec, p))
    ensures Distinct(problems)
  {
    problems := found;
    if spec.params.maxStepSize.Some? {
      problems := AppendIf(problems, spec.params.maxStepSize.value < 1, MaxStepBelowOne);
      if spec.minReplicas.Some? && spec.maxReplicas.Some? {
        var rangeSize := Wrap32(spec.maxReplicas.value - spec.minReplicas.value);
        problems := AppendIf(problems, spec.params.maxStepSize.value > rangeSize, MaxStepAboveRange);
      }
    }
  }

  /** Reports exactly the problems present, each once: admission succeeds when there are none. */
  method ValidateSpec(spec: Spec) returns (problems: seq<Problem>)
    ensures forall p :: p in problems <==> Violates(spec, p)
    ensures Distinct(problems)
    ensures problems == [] <==> Admitted(spec)
  {
    problems := BoundProblems(spec);
    problems := StepProblems(spec, problems);
    problems := AppendIf(problems,
      spec.params.scaleUpCooldown.Some? && spec.params.scaleUpCooldown.value < 0, NegativeUpCooldown);
    problems := AppendIf(problems,
      spec.params.scaleDownCooldown.Some? && spec.params.scaleDownCooldown.value < 0, NegativeDownCooldown);
    if spec.params.preferredForecaster.Some? {
      problems := AppendIf(problems, spec.params.preferredForecaster.value !in FORECASTERS, UnknownForecaster);
    }
    if problems != [] {
      assert problems[0] in problems;
    }
  }

  // ---------------------------------------------------------------- what the API server stores

  /** The schema's defaults, filled in before the webhook sees a spec and whenever one is read. */
  function Defaulted(spec: Spec): (d: Spec)
    ensures MinReplicasOf(d) == MinReplicasOf(spec) && MaxReplicasOf(d) == MaxReplicasOf(spec)
    ensures RpsPerPodMinOf(d) == RpsPerPodMinOf(spec) && RpsPerPodMaxOf(d) == RpsPerPodMaxOf(spec)
    ensures BothSet(d.minReplicas, d.maxReplicas) && BothSet(d.rpsPerPodMin, d.rpsPerPodMax)
  {
    spec.(minReplicas := Some(MinReplicasOf(spec)), maxReplicas := Some(MaxReplicasOf(spec)),
          rpsPerPodMin := Some(RpsPerPodMinOf(spec)), rpsPerPodMax := Some(RpsPerPodMaxOf(spec)))
  }

  /** A spec the API server can hold: defaulted, then admitted. */
  ghost predicate Stored(spec: Spec) { spec == Defaulted(spec) && Admitted(spec) }

  /** Defaulting comes first, so whatever is admitted has both pairs of effective bounds positive and in strict
      order. */
  lemma {:induction false} StoredBoundsInOrder(spec: Spec)
    requires Admitted(Defaulted(spec))
    ensures Stored(Defaulted(spec))
    ensures 1 <= MinReplicasOf(spec) < MaxReplicasOf(spec)
    ensures 1 <= RpsPerPodMinOf(spec) < RpsPerPodMaxOf(spec)
  {
    var d := Defaulted(spec);
    assert !Violates(d, MinReplicasBelowOne) && !Violates(d, MaxReplicasNotAboveMin);
    assert !Violates(d, RpsPerPodMinBelowOne) && !Violates(d, RpsPerPodMinNotBelowMax);
  }

  /** The schema's own bounds: a spec that states nothing is held as 2 to 10 replicas at 50 to 500 requests each. */
  lemma {:induction false} SchemaDefaults(target: string)
    ensures var d := Defaulted(Spec(target, None, None, None, None, UNPINNED));
            && Stored(d)
            && d.minReplicas == Some(2) && d.maxReplicas == Some(10)
            && d.rpsPerPodMin == Some(50) && d.rpsPerPodMax == Some(500)
  {
    var d := Defaulted(Spec(target, None, None, None, None, UNPINNED));
    forall p: Problem ensures !Violates(d, p) {
      match p {
        case MinReplicasBelowOne =>
        case _ =>
      }
    }
  }

  predicate NotBelow(x: Option<int32>, lo: int32) { x.Some? ==> x.value >= lo }

  /** Which specs the server can hold, field by field. */
  lemma {:induction false} StoredMeans(spec: Spec)
    ensures Stored(spec)
            <==> (&& BothSet(spec.minReplicas, spec.maxReplicas) && BothSet(spec.rpsPerPodMin, spec.rpsPerPodMax)
                  && 1 <= spec.minReplicas.value < spec.maxReplicas.value
                  && 1 <= spec.rpsPerPodMin.value < spec.rpsPerPodMax.value
                  && NotBelow(spec.params.scaleUpCooldown, 0) && NotBelow(spec.params.scaleDownCooldown, 0)
                  && NotBelow(spec.params.maxStepSize, 1)
                  && (spec.params.maxStepSize.Some? ==>
                        spec.params.maxStepSize.value <= spec.maxReplicas.value - spec.minReplicas.value)
                  && (spec.params.preferredForecaster.Some? ==>
                        spec.params.preferredForecaster.value in {"prophet", "linear_extrap", "gbdt_quantile", "auto"}))
  {
    if Stored(spec) {
      StoredBoundsInOrder(spec);
      assert !Violates(spec, NegativeUpCooldown) && !Violates(spec, NegativeDownCooldown);
      assert !Violates(spec, MaxStepBelowOne) && !Violates(spec, MaxStepAboveRange);
      assert !Violates(spec, UnknownForecaster);
    }
  }

  /** The validator alone would not ensure that: it compares bounds only when both are written down, and orders the
      effective ones exactly in these cases. */
  lemma {:induction false} AdmittedBoundsInOrder(spec: Spec)
    requires Admitted(spec)
    ensures MinReplicasOf(spec) <= MaxReplicasOf(spec)
            <==> (|| (spec.minReplicas.None? && spec.maxReplicas.None?)
                  || BothSet(spec.minReplicas, spec.maxReplicas)
                  || (spec.maxReplicas.None? && spec.minReplicas.Some? && spec.minReplicas.value <= 10)
                  || (spec.minReplicas.None? && spec.maxReplicas.Some? && 2 <= spec.maxReplicas.value))
  {
    assert !Violates(spec, MaxReplicasNotAboveMin);
  }

  const LONE_MINIMUM := Spec("web", Some(20), None, None, None, SpecParams(None, None, None, None))

  /** A lone minimum above the default maximum, which the validator alone would let through, is refused once the
      schema has filled in the maximum. */
  lemma {:induction false} LoneMinimumRefused()
    ensures Admitted(LONE_MINIMUM) && !Admitted(Defaulted(LONE_MINIMUM))
  {
    forall p: Problem ensures !Violates(LONE_MINIMUM, p) {
      match p {
        case MinReplicasBelowOne =>
        case _ =>
      }
    }
    assert Violates(Defaulted(LONE_MINIMUM), MaxReplicasNotAboveMin);
  }

  /** With both bounds and the step written down, admission makes the step positive and no wider than the range. */
  lemma {:induction false} AdmittedStep(spec: Spec)
    requires Admitted(spec) && BothSet(spec.minReplicas, spec.maxReplicas) && spec.params.maxStepSize.Some?
    ensures 1 <= spec.minReplicas.value < spec.maxReplicas.value
    ensures 1 <= spec.params.maxStepSize.value <= spec.maxReplicas.value - spec.minReplicas.value
  {
    assert !Violates(spec, MinReplicasBelowOne) && !Violates(spec, MaxReplicasNotAboveMin);
    assert !Violates(spec, MaxStepBelowOne) && !Violates(spec, MaxStepAboveRange);
  }

  /** Every move between counts inside the bounds fits. */
  ghost predicate StepFitsInside(minReplicas: int32, maxReplicas: int32, step: int32) {
    forall current: int32, recommended: int32 ::
      minReplicas <= current <= maxReplicas && minReplicas <= recommended <= maxReplicas ==>
        MoveFits(current, recommended, step)
  }

  /** Admission alone does not keep a step inside 32 bits: it does so for every move inside the bounds exactly when
      the step taken from one below the maximum still fits. */
  lemma {:induction false} AdmittedStepFits(spec: Spec)
    requires Admitted(spec) && BothSet(spec.minReplicas, spec.maxReplicas) && spec.params.maxStepSize.Some?
    ensures StepFitsInside(spec.minReplicas.value, spec.maxReplicas.value, spec.params.maxStepSize.value)
            <==> spec.maxReplicas.value - 1 + spec.params.maxStepSize.value <= MAX_INT32
  {
    AdmittedStep(spec);
    var hi := spec.maxReplicas.value;
    var below: int32 := hi - 1;
    assert MoveFits(below, hi, spec.params.maxStepSize.value) <==> hi - 1 + spec.params.maxStepSize.value <= MAX_INT32;
  }

  const WIDEST :=
    Spec("web", Some(1), Some(MAX_INT32), Some(50), Some(500), SpecParams(None, None, Some(MAX_INT32 - 1), None))

  /** A stored spec under which two replicas and a recommendation of the maximum decide a wrapped target. */
  lemma {:induction false} WidestSpecWraps(now: int)
    ensures Stored(WIDEST)
    ensures var step := WIDEST.params.maxStepSize.value;
            var x := CapInput(MaxReplicasOf(WIDEST), 2, step, 0, 0, None, None, now, AtMaximum);
            ApplyCapAndCooldown(x).target == MIN_INT32
  {
    WrappedMove(now);
    forall p: Problem ensures !Violates(WIDEST, p) {
      match p {
        case MinReplicasBelowOne =>
        case _ =>
      }
    }
  }
}
