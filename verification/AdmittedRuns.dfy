/** Runs under admitted specs: steps never leave 32 bits and replicas never leave their bounds, each because of the
    other. */
module AdmittedRuns {
  import opened Prelude
  import opened Decision
  import opened Api
  import opened Reconcile
  import opened Runs
  import opened RampRate
  import opened Convergence
  import opened SelfCalibration
  import ClassifierWorker

  /** The step in force is not negative, and taken from one below the maximum in force it stays inside 32 bits. */
  predicate StepSafe(cfg: Config, w: World) {
    w.cr.Some? ==>
      var step := EffectiveOf(cfg, w.cr.value).maxStep;
      0 <= step && MaxReplicasOf(w.cr.value.spec) - 1 + step <= MAX_INT32
  }

  /** From inside the bounds such a step fits. */
  lemma {:induction false} SafePatchFits(cfg: Config, w: World, o: Observed, lo: nat, hi: int)
    requires PatchOf(cfg, w, o).Some? && BoundsInside(w, lo, hi) && StepSafe(cfg, w)
    requires lo <= ReplicasOf(w) <= hi
    ensures StepFits(PatchOf(cfg, w, o).value)
  {
    var spec := w.cr.value.spec;
    StepReplicas(cfg, w, o);
    RecommendedInside(cfg, w, o, MinReplicasOf(spec), MaxReplicasOf(spec));
  }

  ghost predicate SafeThroughout(cfg: Config, ws: seq<World>, a: nat, b: nat, lo: int, hi: int)
    requires b <= |ws|
  {
    forall k :: a <= k < b ==> BoundsInside(ws[k], lo, hi) && StepSafe(cfg, ws[k])
  }

  /** One event from inside the bounds: its patch, if any, fits, and the count stays inside. */
  lemma {:induction false} SafeEvent(cfg: Config, ws: seq<World>, es: seq<Event>, a: nat, b: nat, k: nat,
                                     lo: nat, hi: int)
    requires IsRun(cfg, ws, es) && a <= k < b <= |es| && NoOutsideScaling(ws, es, a, b)
    requires BoundsInside(ws[k], lo, hi) && StepSafe(cfg, ws[k]) && lo <= ReplicasOf(ws[k]) <= hi
    ensures PatchedAt(cfg, ws, es, k) ==> StepFits(PatchAt(cfg, ws[k], es[k]).value)
    ensures lo <= ReplicasOf(ws[k + 1]) <= hi
  {
    if PatchedAt(cfg, ws, es, k) {
      SafePatchFits(cfg, ws[k], es[k].o, lo, hi);
      PatchStaysBetween(cfg, ws, es, k, lo, hi);
    } else {
      QuietReplicas(cfg, ws, es, a, b, k);
    }
  }

  /** Joint induction: with safe steps, from inside the bounds, no forecast, load, failure or crash takes the count
      outside, and no patch's step leaves 32 bits. */
  lemma {:induction false} SafeConfinement(cfg: Config, ws: seq<World>, es: seq<Event>, a: nat, b: nat,
                                           lo: nat, hi: int)
    requires IsRun(cfg, ws, es) && a <= b <= |es| && NoOutsideScaling(ws, es, a, b)
    requires SafeThroughout(cfg, ws, a, b, lo, hi) && lo <= ReplicasOf(ws[a]) <= hi
    ensures forall k :: a <= k <= b ==> lo <= ReplicasOf(ws[k]) <= hi
    ensures forall k :: a <= k < b && PatchedAt(cfg, ws, es, k) ==> StepFits(PatchAt(cfg, ws[k], es[k]).value)
  {
    if a < b {
      var j: nat := b - 1;
      SafeConfinement(cfg, ws, es, a, j, lo, hi);
      SafeEvent(cfg, ws, es, a, b, j, lo, hi);
    }
  }

  // ---------------------------------------------------------------- where a step comes from

  /** Neither a classification nor the default carries a step below one, and the step in force fits from one below the
      maximum, the one thing nobody checks. */
  predicate StepsSourced(cfg: Config, cr: CR) {
    && 1 <= cfg.defaults.maxStepSize
    && (cr.status.classified.Some? ==> 1 <= cr.status.classified.value.maxStepSize)
    && MaxReplicasOf(cr.spec) - 1 + EffectiveOf(cfg, cr).maxStep <= MAX_INT32
  }

  /** A pinned step is positive by admission, so whichever source the step in force has, it is safe. */
  lemma {:induction false} StoredStepIsSafe(cfg: Config, cr: CR)
    requires Stored(cr.spec) && StepsSourced(cfg, cr)
    ensures 1 <= EffectiveOf(cfg, cr).maxStep
    ensures 1 <= MinReplicasOf(cr.spec) < MaxReplicasOf(cr.spec)
  {
    StoredBoundsInOrder(cr.spec);
    assert !Violates(cr.spec, MaxStepBelowOne);
  }

  /** What a worker started under a stored spec writes is such a step, whatever it saw; left in force, it fits under any
      maximum that leaves room for the range the worker was started with. */
  lemma {:induction false} ClassifiedStepIsSourced(cfg: Config, cr: CR, u: ClassifierWorker.Setup,
                                                   t: ClassifierWorker.Turn, spec: Spec)
    requires ClassifierWorker.ValidSetup(u) && Stored(spec) && Stored(cr.spec) && 1 <= cfg.defaults.maxStepSize
    requires u.minReplicas == MinReplicasOf(spec) && u.maxReplicas == MaxReplicasOf(spec)
    requires cr.status.classified.Some? && ClassifierWorker.WrittenBy(u, t) == cr.status.classified
    requires cr.spec.params.maxStepSize.None?
    requires MaxReplicasOf(cr.spec) - 1 + MaxReplicasOf(spec) - MinReplicasOf(spec) <= MAX_INT32
    ensures StepsSourced(cfg, cr)
  {
    StoredBoundsInOrder(spec);
    ClassifierWorker.WrittenStepInRange(u, t);
  }

  // ---------------------------------------------------------------- runs of stored specs

  /** Every spec of the run is one the API server can hold, with bounds in [lo, hi] and a sourced step. */
  ghost predicate StoredThroughout(cfg: Config, ws: seq<World>, a: nat, b: nat, lo: int, hi: int)
    requires b <= |ws|
  {
    forall k :: a <= k < b && ws[k].cr.Some? ==>
      var cr := ws[k].cr.value;
      && Stored(cr.spec) && StepsSourced(cfg, cr)
      && lo <= MinReplicasOf(cr.spec) && MaxReplicasOf(cr.spec) <= hi
  }

  lemma {:induction false} StoredIsSafe(cfg: Config, ws: seq<World>, a: nat, b: nat, lo: int, hi: int)
    requires b <= |ws| && StoredThroughout(cfg, ws, a, b, lo, hi)
    ensures SafeThroughout(cfg, ws, a, b, lo, hi)
  {
    forall k | a <= k < b ensures BoundsInside(ws[k], lo, hi) && StepSafe(cfg, ws[k]) {
      if ws[k].cr.Some? {
        StoredStepIsSafe(cfg, ws[k].cr.value);
      }
    }
  }

  /** Admission discharges what the run theorems ask of the steps: a run of stored specs that starts inside its bounds,
      with nobody else scaling, stays inside them and every stretch of it qualifies. */
  lemma {:induction false} AdmittedRunQualifies(cfg: Config, ws: seq<World>, es: seq<Event>, lo: nat, hi: int)
    requires IsRun(cfg, ws, es) && NoOutsideScaling(ws, es, 0, |es|)
    requires StoredThroughout(cfg, ws, 0, |es|, lo, hi) && lo <= ReplicasOf(ws[0]) <= hi
    ensures forall k :: 0 <= k <= |es| ==> lo <= ReplicasOf(ws[k]) <= hi
    ensures StepsFit(cfg, ws, es)
    ensures forall a, b :: 0 <= a <= b <= |es| ==> Stretch(cfg, ws, es, a, b)
  {
    StoredIsSafe(cfg, ws, 0, |es|, lo, hi);
    SafeConfinement(cfg, ws, es, 0, |es|, lo, hi);
    assert forall k :: 0 <= k < |es| && PatchAt(cfg, ws[k], es[k]).Some? ==> PatchedAt(cfg, ws, es, k);
  }

  /** Cooldown safety of such a run, with nothing assumed about its patches. */
  lemma {:induction false} AdmittedCooldownSafety(cfg: Config, ws: seq<World>, es: seq<Event>, lo: nat, hi: int,
                                                  i: nat, j: nat, up: bool)
    requires IsRun(cfg, ws, es) && NoOutsideScaling(ws, es, 0, |es|) && MonotoneClock(es) && DurableCrashes(cfg, ws, es)
    requires StoredThroughout(cfg, ws, 0, |es|, lo, hi) && lo <= ReplicasOf(ws[0]) <= hi
    requires i < j < |es| && ScaledAt(cfg, ws, es, i, up) && ScaledAt(cfg, ws, es, j, up)
    ensures TimeAt(cfg, ws, es, j) - Persisted(TimeAt(cfg, ws, es, i)) >= CooldownAt(cfg, ws, es, j, up)
    ensures !CrashBetween(es, i, j) || TimeAt(cfg, ws, es, i) % SECOND == 0
            ==> TimeAt(cfg, ws, es, j) - TimeAt(cfg, ws, es, i) >= CooldownAt(cfg, ws, es, j, up)
  {
    AdmittedRunQualifies(cfg, ws, es, lo, hi);
    CooldownSafety(cfg, ws, es, i, j, up);
  }

  /** Cooldown safety with other hands on the Deployment too: no bounds are needed, only that the later patch was
      accepted with no negative count in it. */
  lemma {:induction false} AcceptedCooldownSafety(cfg: Config, ws: seq<World>, es: seq<Event>, i: nat, j: nat, up: bool)
    requires IsRun(cfg, ws, es) && MonotoneClock(es) && DurableCrashes(cfg, ws, es)
    requires i < j < |es| && ScaledAt(cfg, ws, es, i, up) && ScaledAt(cfg, ws, es, j, up)
    requires Natural(PatchAt(cfg, ws[j], es[j]).value)
    ensures TimeAt(cfg, ws, es, j) - Persisted(TimeAt(cfg, ws, es, i)) >= CooldownAt(cfg, ws, es, j, up)
    ensures !CrashBetween(es, i, j) || TimeAt(cfg, ws, es, i) % SECOND == 0
            ==> TimeAt(cfg, ws, es, j) - TimeAt(cfg, ws, es, i) >= CooldownAt(cfg, ws, es, j, up)
  {
    NaturalPatchFits(cfg, ws[j], es[j].o);
    CooldownSafety(cfg, ws, es, i, j, up);
  }

  /** The ramp-rate bound of a run of stored specs. */
  lemma {:induction false} AdmittedRampRate(cfg: Config, ws: seq<World>, es: seq<Event>, lo: nat, hi: int,
                                            a: nat, b: nat, up: bool, m: nat, c: nat, start: int, length: nat)
    requires IsRun(cfg, ws, es) && NoOutsideScaling(ws, es, 0, |es|) && MonotoneClock(es) && DurableCrashes(cfg, ws, es)
    requires StoredThroughout(cfg, ws, 0, |es|, lo, hi) && lo <= ReplicasOf(ws[0]) <= hi
    requires a <= b <= |es| && 1 <= c && StepsWithin(es, a, b, start, length)
    requires StepsAtMost(cfg, ws, es, a, b, m) && CooldownsAtLeast(cfg, ws, es, a, b, up, c)
    ensures Travelled(ws[a], ws[b], up) <= Allowance(m, length, c * SECOND - SECOND + 1)
    ensures KeepsFractions(es, a, b) ==> Travelled(ws[a], ws[b], up) <= Allowance(m, length, c * SECOND)
  {
    AdmittedRunQualifies(cfg, ws, es, lo, hi);
    RampRateBound(cfg, ws, es, a, b, up, m, c, start, length);
  }

  // ---------------------------------------------------------------- capacity bounds

  /** Admission orders the capacity bounds as well. */
  lemma {:induction false} StoredRpsBoundsInOrder(spec: Spec)
    requires Stored(spec)
    ensures RpsBoundsInOrder(spec)
  {
    StoredBoundsInOrder(spec);
  }

  /** The restart round trip under a stored spec. */
  lemma {:induction false} StoredRoundTrip(cfg: Config, w: World, o: Observed)
    requires Informed(cfg, w, o) && Stored(w.cr.value.spec) && o.statusAccepted
    requires DecisionOf(cfg, w, o).out.shouldPatch ==> o.scaleAccepted
    ensures var estimate := DecisionOf(cfg, w, o).rpsPerPod;
            var cr' := Reconciled(cfg, w, o).cr;
            cr'.Some? && estimate - 1.0 < Restored(cr'.value).rpsPerPod <= estimate
  {
    StoredRpsBoundsInOrder(w.cr.value.spec);
    RestartRoundTrip(cfg, w, o);
  }

  /** No drift from a controller's start under a stored spec, for every persisted estimate inside its bounds. */
  lemma {:induction false} StoredNoDrift(cfg: Config, ws: seq<World>, es: seq<Event>, k: nat, q: int32)
    requires IsRun(cfg, ws, es) && k <= |es|
    requires ws[0].mem.None? && Stored(ws[0].cr.value.spec) && ws[0].cr.value.status.rpsPerPodCurrent == q
    requires RpsPerPodMinOf(ws[0].cr.value.spec) <= q <= RpsPerPodMaxOf(ws[0].cr.value.spec)
    requires forall j :: 0 <= j <= k ==> FoldsSince(cfg, ws, es, j) <= 4
    requires forall j :: 0 <= j < k ==> KeepsRpsBounds(ws[j], es[j])
    ensures ws[k].cr.Some? && ws[k].cr.value.status.rpsPerPodCurrent == q
  {
    StoredRpsBoundsInOrder(ws[0].cr.value.spec);
    NoDriftAcrossRestarts(cfg, ws, es, k, q);
  }
}
