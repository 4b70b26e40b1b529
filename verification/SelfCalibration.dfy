/** The capacity estimate over runs: a calibrated loop stays put, and what a restart does to it. */
module SelfCalibration {
  import opened Prelude
  import opened OrderStatistics
  import opened Observations
  import opened ControllerState
  import opened Decision
  import opened Api
  import opened Reconcile
  import opened Runs

  // ---------------------------------------------------------------- the fixed point

  /** The estimate is `v`, and a strict majority of the window agrees. */
  predicate Calibrated(st: CRState, v: real) {
    && st.initialized
    && st.rpsPerPod == v
    && |st.observations| <= RING_BUFFER_CAPACITY
    && 2 * Count(st.observations, Within(v, v)) > |st.observations|
  }

  /** Bounds that leave both the replica count and the estimate alone. */
  predicate Admits(spec: Spec, replicas: int32, v: real) {
    && MinReplicasOf(spec) <= replicas <= MaxReplicasOf(spec)
    && RpsPerPodMinOf(spec) as real <= v <= RpsPerPodMaxOf(spec) as real
  }

  /** `replicas` pods serving `load` at `v` each. */
  predicate Balanced(load: real, replicas: int32, v: real) {
    0.0 < v && replicas >= 1 && load == replicas as real * v
  }

  lemma {:induction false} FoldKeepsCalibration(cfg: Config, st: CRState, load: real, replicas: int32, now: int,
                                                v: real)
    requires Calibrated(st, v) && Balanced(load, replicas, v)
    ensures Calibrated(Fold(cfg, st, load, replicas, now), v)
    ensures Fold(cfg, st, load, replicas, now).lastScaleUp == st.lastScaleUp
    ensures Fold(cfg, st, load, replicas, now).lastScaleDown == st.lastScaleDown
  {
    assert load / replicas as real == v;
    PushKeepsMajority(st.observations, RING_BUFFER_CAPACITY, v);
    MajorityOfOneValue(Pushed(st.observations, RING_BUFFER_CAPACITY, v), v);
  }

  lemma {:induction false} BalancedRecommendation(load: real, replicas: int32, v: real, unspecified: int32)
    requires Balanced(load, replicas, v)
    ensures ComputeUnboundedRecommended(load, v, unspecified) == replicas
  {
    CeilOfQuotient(load, v, replicas as int);
    CeilOfQuotient(load, v, replicas as int - 1);
    assert (replicas as int - 1) as real * v == replicas as real * v - v;
    assert Truncate(replicas as real) == replicas;
  }

  /** The world of a calibrated loop at rest. */
  predicate AtRest(w: World, replicas: int32, v: real) {
    && w.cr.Some? && Admits(w.cr.value.spec, replicas, v)
    && w.deployment == Some(Some(replicas))
    && w.mem.Some? && Calibrated(w.mem.value, v)
  }

  /** A step sees the balanced load, and is told it will last. */
  predicate SteadyLoad(o: Observed, load: real) {
    && (o.currentRps.Some? ==> o.currentRps.value == load)
    && (o.forecast.Some? ==> o.forecast.value == load)
  }

  lemma {:induction false} RestingStep(cfg: Config, w: World, o: Observed, load: real, replicas: int32, v: real)
    requires AtRest(w, replicas, v) && Balanced(load, replicas, v) && SteadyLoad(o, load)
    ensures AtRest(Reconciled(cfg, w, o), replicas, v)
    ensures PatchOf(cfg, w, o).None?
    ensures Informed(cfg, w, o) ==> DecisionOf(cfg, w, o).out == CapOutput(replicas, NoChange, false)
  {
    if Informed(cfg, w, o) {
      FoldKeepsCalibration(cfg, w.mem.value, load, replicas, o.now, v);
      BalancedRecommendation(load, replicas, v, o.unspecified);
      var plan := DecisionOf(cfg, w, o);
      assert plan.mem == Fold(cfg, w.mem.value, load, replicas, o.now);
      assert plan.rpsPerPod == v && plan.unbounded == replicas && plan.recommended == replicas;
      assert Reconciled(cfg, w, o) == Decided(cfg, w, o);
    }
  }

  /** An event that leaves a balanced loop at rest: a reconcile under the same load, or an edit that keeps the bounds
      admitting and the Deployment alone; no crash. */
  predicate KeepsRest(w: World, e: Event, load: real, replicas: int32, v: real) {
    match e
    case Step(o) => SteadyLoad(o, load)
    case Crash => false
    case Edit(spec, _, _, _, deployment) => Admits(spec, replicas, v) && deployment == w.deployment
  }

  lemma {:induction false} NextAtRest(cfg: Config, w: World, e: Event, load: real, replicas: int32, v: real)
    requires AtRest(w, replicas, v) && Balanced(load, replicas, v) && KeepsRest(w, e, load, replicas, v)
    ensures AtRest(Next(cfg, w, e), replicas, v)
  {
    if e.Step? {
      RestingStep(cfg, w, e.o, load, replicas, v);
    }
  }

  /** Only such events from `a` to `b`. */
  ghost predicate SteadyStretch(ws: seq<World>, es: seq<Event>, a: nat, b: nat, load: real, replicas: int32, v: real)
    requires b <= |es| < |ws|
  {
    forall k :: a <= k < b ==> KeepsRest(ws[k], es[k], load, replicas, v)
  }

  lemma {:induction false} StillAtRest(cfg: Config, ws: seq<World>, es: seq<Event>, j: nat,
                                       load: real, replicas: int32, v: real)
    requires IsRun(cfg, ws, es) && j < |es|
    requires AtRest(ws[j], replicas, v) && Balanced(load, replicas, v) && KeepsRest(ws[j], es[j], load, replicas, v)
    ensures AtRest(ws[j + 1], replicas, v)
  {
    NextAtRest(cfg, ws[j], es[j], load, replicas, v);
  }

  lemma {:induction false} RestPersists(cfg: Config, ws: seq<World>, es: seq<Event>, a: nat, b: nat,
                                        load: real, replicas: int32, v: real)
    requires IsRun(cfg, ws, es) && a <= b <= |es|
    requires AtRest(ws[a], replicas, v) && Balanced(load, replicas, v)
    requires SteadyStretch(ws, es, a, b, load, replicas, v)
    ensures AtRest(ws[b], replicas, v)
  {
    if a < b {
      var j: nat := b - 1;
      RestPersists(cfg, ws, es, a, j, load, replicas, v);
      StillAtRest(cfg, ws, es, j, load, replicas, v);
    }
  }

  /** The step patches nothing, and decides "no change" if it decides at all. */
  predicate LeavesAlone(cfg: Config, w: World, o: Observed, replicas: int32) {
    && PatchOf(cfg, w, o).None?
    && (Informed(cfg, w, o) ==> DecisionOf(cfg, w, o).out == CapOutput(replicas, NoChange, false))
  }

  /** Self-calibration fixed point: once calibrated and balanced, the loop decides "no change" at every later
      reconcile under the same load, and never patches. */
  lemma {:induction false} FixedPoint(cfg: Config, ws: seq<World>, es: seq<Event>, a: nat, b: nat,
                                      load: real, replicas: int32, v: real)
    requires IsRun(cfg, ws, es) && a <= b <= |es|
    requires AtRest(ws[a], replicas, v) && Balanced(load, replicas, v)
    requires SteadyStretch(ws, es, a, b, load, replicas, v)
    ensures AtRest(ws[b], replicas, v)
    ensures forall k :: a <= k < b && es[k].Step? ==> LeavesAlone(cfg, ws[k], es[k].o, replicas)
  {
    RestPersists(cfg, ws, es, a, b, load, replicas, v);
    forall k | a <= k < b && es[k].Step? ensures LeavesAlone(cfg, ws[k], es[k].o, replicas) {
      RestPersists(cfg, ws, es, a, k, load, replicas, v);
      assert KeepsRest(ws[k], es[k], load, replicas, v);
      RestingStep(cfg, ws[k], es[k].o, load, replicas, v);
    }
  }

  // ---------------------------------------------------------------- from the majority alone

  /** The estimate is the window's median, unless nothing was ever observed or restored. */
  predicate Remembers(st: CRState) {
    && st.initialized
    && |st.observations| <= RING_BUFFER_CAPACITY
    && (st.observations == [] || st.rpsPerPod == Median(st.observations))
  }

  predicate MemoryConsistent(w: World) { w.mem.Some? ==> Remembers(w.mem.value) }

  lemma {:induction false} RestoredRemembers(cr: CR)
    ensures Remembers(StateFor(None, cr))
  {
    var seed := StatusSeedOf(cr);
    if Usable(seed) {
      SeedDominates(seed.rpsPerPodCurrent, []);
      assert StateFor(None, cr).observations == AfterRestart(seed.rpsPerPodCurrent, []);
    }
  }

  lemma {:induction false} FoldRemembers(cfg: Config, st: CRState, load: real, replicas: int32, now: int)
    requires Remembers(st)
    ensures Remembers(Fold(cfg, st, load, replicas, now))
  {}

  lemma {:induction false} StampedRemembers(st: CRState, up: bool, now: int)
    requires Remembers(st)
    ensures Remembers(Stamped(st, up, now))
  {}

  /** The memory a decided reconcile leaves is the folded one, perhaps with a new stamp. */
  lemma {:induction false} DecidedMemory(cfg: Config, w: World, o: Observed)
    requires Informed(cfg, w, o)
    ensures var plan := DecisionOf(cfg, w, o);
            && plan.mem == Fold(cfg, StateFor(w.mem, w.cr.value), o.currentRps.value,
                                CurrentOf(w.deployment.value), o.now)
            && var stamped := Stamped(plan.mem, plan.out.target > plan.current, o.now);
               Reconciled(cfg, w, o).mem in {Some(plan.mem), Some(stamped)}
  {
    assert Reconciled(cfg, w, o) == Decided(cfg, w, o);
  }

  lemma {:induction false} StepRemembers(cfg: Config, w: World, o: Observed)
    requires MemoryConsistent(w)
    ensures MemoryConsistent(Reconciled(cfg, w, o))
  {
    if Informed(cfg, w, o) {
      var st := StateFor(w.mem, w.cr.value);
      if w.mem.None? {
        RestoredRemembers(w.cr.value);
      }
      FoldRemembers(cfg, st, o.currentRps.value, CurrentOf(w.deployment.value), o.now);
      var plan := DecisionOf(cfg, w, o);
      DecidedMemory(cfg, w, o);
      StampedRemembers(plan.mem, plan.out.target > plan.current, o.now);
    }
  }

  /** Invariant of every run from a start of the controller: the estimate in memory is its window's median. */
  lemma {:induction false} EstimateIsMedian(cfg: Config, ws: seq<World>, es: seq<Event>, k: nat)
    requires IsRun(cfg, ws, es) && k < |ws| && MemoryConsistent(ws[0])
    ensures MemoryConsistent(ws[k])
  {
    if k > 0 {
      EstimateIsMedian(cfg, ws, es, k - 1);
      assert ws[k] == Next(cfg, ws[k - 1], es[k - 1]);
      if es[k - 1].Step? {
        StepRemembers(cfg, ws[k - 1], es[k - 1].o);
      }
    }
  }

  /** A strict majority of the window holds `v`. */
  predicate MajorityHolds(st: CRState, v: real) {
    2 * Count(st.observations, Within(v, v)) > |st.observations|
  }

  lemma {:induction false} MajorityCalibrates(st: CRState, v: real)
    requires Remembers(st) && MajorityHolds(st, v)
    ensures Calibrated(st, v)
  {
    MajorityOfOneValue(st.observations, v);
  }

  /** The fixed point from the majority alone, in any run from a start of the controller: the estimate need not be
      assumed. */
  lemma {:induction false} FixedPointFromMajority(cfg: Config, ws: seq<World>, es: seq<Event>, a: nat, b: nat,
                                                  load: real, replicas: int32, v: real)
    requires IsRun(cfg, ws, es) && a <= b <= |es| && ws[0].mem.None?
    requires ws[a].cr.Some? && Admits(ws[a].cr.value.spec, replicas, v) && ws[a].deployment == Some(Some(replicas))
    requires ws[a].mem.Some? && MajorityHolds(ws[a].mem.value, v)
    requires Balanced(load, replicas, v) && SteadyStretch(ws, es, a, b, load, replicas, v)
    ensures AtRest(ws[b], replicas, v)
    ensures forall k :: a <= k < b && es[k].Step? ==> LeavesAlone(cfg, ws[k], es[k].o, replicas)
  {
    EstimateIsMedian(cfg, ws, es, a);
    MajorityCalibrates(ws[a].mem.value, v);
    FixedPoint(cfg, ws, es, a, b, load, replicas, v);
  }

  // ---------------------------------------------------------------- what a restart restores

  predicate RpsBoundsInOrder(spec: Spec) { 1 <= RpsPerPodMinOf(spec) <= RpsPerPodMaxOf(spec) }

  /** The value written to status is the clamped estimate less its fraction, and always a usable seed. */
  lemma {:induction false} PersistedEstimate(spec: Spec, estimate: real, unspecified: int32)
    requires RpsBoundsInOrder(spec)
    ensures var clamped := ClampRpsPerPod(estimate, RpsPerPodMinOf(spec), RpsPerPodMaxOf(spec));
            var kept := ToInt32(clamped, unspecified);
            && RpsPerPodMinOf(spec) <= kept <= RpsPerPodMaxOf(spec)
            && kept as real <= clamped < kept as real + 1.0
            && (kept as real == clamped <==> clamped.Floor as real == clamped)
  {}

  predicate InBounds(cr: CR) {
    && RpsBoundsInOrder(cr.spec)
    && RpsPerPodMinOf(cr.spec) <= cr.status.rpsPerPodCurrent <= RpsPerPodMaxOf(cr.spec)
  }

  /** What the next incarnation starts from. */
  function Restored(cr: CR): CRState { StateFor(None, cr) }

  lemma {:induction false} RestoredIsSeeded(cr: CR)
    requires InBounds(cr)
    ensures Restored(cr).initialized
    ensures Restored(cr).rpsPerPod == cr.status.rpsPerPodCurrent as real
    ensures Restored(cr).observations == AfterRestart(cr.status.rpsPerPodCurrent as real, [])
  {}

  /** Restart round trip: after a decided reconcile whose status write succeeds, a restart restores the clamped
      estimate to within one request per second, without falling back to the midpoint. */
  lemma {:induction false} RestartRoundTrip(cfg: Config, w: World, o: Observed)
    requires Informed(cfg, w, o) && RpsBoundsInOrder(w.cr.value.spec) && o.statusAccepted
    requires DecisionOf(cfg, w, o).out.shouldPatch ==> o.scaleAccepted
    ensures var estimate := DecisionOf(cfg, w, o).rpsPerPod;
            var cr' := Reconciled(cfg, w, o).cr;
            && cr'.Some? && InBounds(cr'.value)
            && Usable(StatusSeedOf(cr'.value))
            && estimate - 1.0 < Restored(cr'.value).rpsPerPod <= estimate
  {
    assert Reconciled(cfg, w, o) == Decided(cfg, w, o);
    PersistedEstimate(w.cr.value.spec, DecisionOf(cfg, w, o).mem.rpsPerPod, o.unspecified);
  }

  // ---------------------------------------------------------------- drift across restarts

  /** Memory is what a restart from `q` and at most `n` later observations leave. */
  ghost predicate SeededBy(mem: Option<CRState>, q: int32, n: nat) {
    mem.Some? ==>
      && mem.value.initialized
      && mem.value.rpsPerPod == q as real
      && exists vs: seq<real> :: |vs| <= n && mem.value.observations == AfterRestart(q as real, vs)
  }

  ghost predicate Frozen(w: World, q: int32, n: nat) {
    && w.cr.Some? && RpsBoundsInOrder(w.cr.value.spec)
    && RpsPerPodMinOf(w.cr.value.spec) <= q <= RpsPerPodMaxOf(w.cr.value.spec)
    && w.cr.value.status.rpsPerPodCurrent == q
    && SeededBy(w.mem, q, n)
  }

  lemma {:induction false} PushAfterRestart(seed: real, vs: seq<real>, v: real)
    ensures |AfterRestart(seed, vs)| <= RING_BUFFER_CAPACITY
    ensures Pushed(AfterRestart(seed, vs), RING_BUFFER_CAPACITY, v) == AfterRestart(seed, vs + [v])
  {
    AfterRestartIs(seed, vs);
    AfterRestartIs(seed, vs + [v]);
    PushedIsNewest(Repeat(seed, RESTART_SEED_COPIES) + vs, RING_BUFFER_CAPACITY, v);
    assert Repeat(seed, RESTART_SEED_COPIES) + vs + [v] == Repeat(seed, RESTART_SEED_COPIES) + (vs + [v]);
  }

  lemma {:induction false} SeedSurvives(st: CRState, q: int32, vs: seq<real>, n: nat)
    requires st.initialized && st.rpsPerPod == q as real
    requires |vs| <= n && st.observations == AfterRestart(q as real, vs)
    ensures SeededBy(Some(st), q, n)
  {}

  lemma {:induction false} FoldKeepsSeed(cfg: Config, st: CRState, load: real, replicas: int32, now: int, q: int32,
                                         n: nat)
    requires SeededBy(Some(st), q, n) && n < 4
    ensures SeededBy(Some(Fold(cfg, st, load, replicas, now)), q, n + 1)
  {
    var vs: seq<real> :| |vs| <= n && st.observations == AfterRestart(q as real, vs);
    var folded := Fold(cfg, st, load, replicas, now);
    if folded == st {
      SeedSurvives(folded, q, vs, n + 1);
    } else {
      var v := load / replicas as real;
      PushAfterRestart(q as real, vs, v);
      SeedDominates(q as real, vs + [v]);
      SeedSurvives(folded, q, vs + [v], n + 1);
    }
  }

  lemma {:induction false} StateKeepsSeed(w: World, q: int32, n: nat)
    requires Frozen(w, q, n)
    ensures SeededBy(Some(StateFor(w.mem, w.cr.value)), q, n)
  {
    if w.mem.None? {
      RestoredIsSeeded(w.cr.value);
      var vs: seq<real> := [];
      assert |vs| <= n && Restored(w.cr.value).observations == AfterRestart(q as real, vs);
    }
  }

  /** The reconcile folds a new observation into the window. */
  predicate FoldsAt(cfg: Config, w: World, o: Observed) {
    && Informed(cfg, w, o)
    && var st := StateFor(w.mem, w.cr.value);
       Fold(cfg, st, o.currentRps.value, CurrentOf(w.deployment.value), o.now) != st
  }

  lemma {:induction false} FrozenDecision(cfg: Config, w: World, o: Observed, q: int32, n: nat)
    requires Informed(cfg, w, o) && Frozen(w.(mem := None), q, n)
    requires SeededBy(Some(DecisionOf(cfg, w, o).mem), q, n)
    ensures Frozen(Reconciled(cfg, w, o), q, n)
  {
    var plan := DecisionOf(cfg, w, o);
    assert plan.rpsPerPod == q as real;
    assert ToInt32(plan.rpsPerPod, o.unspecified) == q;
    assert Reconciled(cfg, w, o) == Decided(cfg, w, o);
  }

  lemma {:induction false} FrozenStep(cfg: Config, w: World, o: Observed, q: int32, n: nat)
    requires Frozen(w, q, n) && (FoldsAt(cfg, w, o) ==> n < 4)
    ensures Frozen(Reconciled(cfg, w, o), q, if FoldsAt(cfg, w, o) then n + 1 else n)
  {
    if Informed(cfg, w, o) {
      var st := StateFor(w.mem, w.cr.value);
      StateKeepsSeed(w, q, n);
      if FoldsAt(cfg, w, o) {
        FoldKeepsSeed(cfg, st, o.currentRps.value, CurrentOf(w.deployment.value), o.now, q, n);
      }
      FrozenDecision(cfg, w, o, q, if FoldsAt(cfg, w, o) then n + 1 else n);
    }
  }

  /** Observations folded in since the controller last started, within the run. */
  function FoldsSince(cfg: Config, ws: seq<World>, es: seq<Event>, k: nat): nat
    requires k <= |es| < |ws|
  {
    if k == 0 || es[k - 1].Crash? then 0
    else FoldsSince(cfg, ws, es, k - 1) + (if es[k - 1].Step? && FoldsAt(cfg, ws[k - 1], es[k - 1].o) then 1 else 0)
  }

  predicate KeepsRpsBounds(w: World, e: Event) {
    e.Edit? && w.cr.Some? ==>
      && RpsPerPodMinOf(e.spec) == RpsPerPodMinOf(w.cr.value.spec)
      && RpsPerPodMaxOf(e.spec) == RpsPerPodMaxOf(w.cr.value.spec)
  }

  /** No drift: in a run in which every incarnation folds in at most four observations, of any loads and over any
      number of reconciles, the persisted estimate never moves, so every incarnation starts from the same value. */
  lemma {:induction false} NoDriftAcrossRestarts(cfg: Config, ws: seq<World>, es: seq<Event>, k: nat, q: int32)
    requires IsRun(cfg, ws, es) && k <= |es|
    requires Frozen(ws[0], q, 0)
    requires forall j :: 0 <= j <= k ==> FoldsSince(cfg, ws, es, j) <= 4
    requires forall j :: 0 <= j < k ==> KeepsRpsBounds(ws[j], es[j])
    ensures Frozen(ws[k], q, FoldsSince(cfg, ws, es, k))
  {
    if k > 0 {
      var n := FoldsSince(cfg, ws, es, k - 1);
      NoDriftAcrossRestarts(cfg, ws, es, k - 1, q);
      assert ws[k] == Next(cfg, ws[k - 1], es[k - 1]);
      assert FoldsSince(cfg, ws, es, k) <= 4;
      if es[k - 1].Step? {
        FrozenStep(cfg, ws[k - 1], es[k - 1].o, q, n);
      }
    }
  }

  // ---------------------------------------------------------------- the fixed point across a restart

  /** The first decision after a restart: the truncated estimate, whether or not the load is folded in. */
  lemma {:induction false} FirstEstimate(cfg: Config, w: World, o: Observed)
    requires Informed(cfg, w, o) && w.mem.None? && InBounds(w.cr.value)
    ensures DecisionOf(cfg, w, o).rpsPerPod == w.cr.value.status.rpsPerPodCurrent as real
  {
    var q := w.cr.value.status.rpsPerPodCurrent;
    RestoredIsSeeded(w.cr.value);
    var st := Restored(w.cr.value);
    var replicas := CurrentOf(w.deployment.value);
    var v := o.currentRps.value / (if replicas == 0 then 1.0 else replicas as real);
    PushAfterRestart(q as real, [], v);
    SeedDominates(q as real, [] + [v]);
  }

  lemma {:induction false} TruncatedCapacity(load: real, replicas: int32, v: real, q: int)
    requires Balanced(load, replicas, v) && 1 <= q && q as real <= v < q as real + 1.0
    ensures replicas <= Ceil(load / q as real) <= 2 * replicas
    ensures Ceil(load / q as real) == replicas <==> v == q as real
  {
    var r: int := replicas;
    var x := q as real;
    CeilOfQuotient(load, x, r - 1);
    CeilOfQuotient(load, x, r);
    CeilOfQuotient(load, x, 2 * r);
    assert r as real * v >= r as real * x;
    assert (r - 1) as real * x == r as real * x - x;
    assert v <= 2.0 * x;
    assert r as real * v <= r as real * (2.0 * x) == (2 * r) as real * x;
    assert v > x ==> r as real * v > r as real * x;
  }

  /** The first decision after a restart keeps the balanced replica count exactly when nothing is lost by truncation,
      or the count is already the maximum; otherwise it asks for more. */
  lemma {:induction false} FirstRecommendation(cfg: Config, w: World, o: Observed, load: real, replicas: int32, v: real)
    requires Informed(cfg, w, o) && w.mem.None? && w.deployment == Some(Some(replicas))
    requires Balanced(load, replicas, v) && Admits(w.cr.value.spec, replicas, v) && RpsBoundsInOrder(w.cr.value.spec)
    requires o.forecast == Some(load)
    requires w.cr.value.status.rpsPerPodCurrent == v.Floor && Ceil(load / v.Floor as real) <= MAX_INT32
    ensures DecisionOf(cfg, w, o).current == replicas <= DecisionOf(cfg, w, o).recommended
    ensures DecisionOf(cfg, w, o).recommended == replicas
            <==> v.Floor as real == v || replicas == MaxReplicasOf(w.cr.value.spec)
  {
    var q := w.cr.value.status.rpsPerPodCurrent;
    assert InBounds(w.cr.value);
    FirstEstimate(cfg, w, o);
    TruncatedCapacity(load, replicas, v, q);
    var c := Ceil(load / q as real);
    assert Truncate(c as real) == c;
    var plan := DecisionOf(cfg, w, o);
    assert plan.unbounded == c;
  }
}
