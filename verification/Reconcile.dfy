/** One reconcile of one resource: the transition as a function on values, and the reconciler
    object whose method makes that transition in place. */
module Reconcile {
  import opened Prelude
  import OrderStatistics
  import opened Observations
  import opened ControllerState
  import opened Decision
  import opened Api

  datatype Config = Config(
    reconcileInterval: int,
    hotPathMinPoints: int32,
    rpsPerPodNoiseFloor: int32,
    defaults: DefaultParams)

  datatype Sample = Sample(at: int, value: real)

  datatype HpaLookup = LookupFailed | NoConflict | Conflicting(name: string)

  /** Everything one reconcile learns from outside: the clock, query and call outcomes, and whatever
      an out-of-range conversion of the forecast yields. */
  datatype Observed = Observed(
    now: int,
    hpa: HpaLookup,
    currentRps: Option<real>,
    samples: Option<seq<Sample>>,
    forecast: Option<real>,
    scaleAccepted: bool,
    statusAccepted: bool,
    unspecified: int32)

  /** The resource, its target Deployment (absent, or with an optional replica count), and the
      controller's memory of it. */
  datatype World = World(cr: Option<CR>, deployment: Option<Option<int32>>, mem: Option<CRState>)

  datatype Request = Request(history: seq<real>, preferredModel: string)

  datatype Patch = Patch(at: int, current: int32, target: int32, recommended: int32, params: EffectiveParams)

  /** What one reconcile did outside: the forecast request sent, the decision taken, the replica patch
      that went through (each such patch is also handed to the explainer). */
  datatype Outcome = Outcome(request: Option<Request>, decision: Option<CapOutput>, patch: Option<Patch>)

  const IDLE := Outcome(None, None, None)

  // ---------------------------------------------------------------- pieces of the transition

  /** Persisted instants keep whole seconds. */
  function Persisted(t: int): (p: int)
    ensures p <= t < p + SECOND
    ensures t % SECOND == 0 <==> p == t
  {
    t - t % SECOND
  }

  function StatusSeedOf(cr: CR): StatusSeed {
    var lo, hi := RpsPerPodMinOf(cr.spec), RpsPerPodMaxOf(cr.spec);
    var current := cr.status.rpsPerPodCurrent as real;
    StatusSeed(current, lo as real <= current <= hi as real, Wrap32(lo + hi) as real / 2.0,
               cr.status.lastScaleTime)
  }

  /** The state a reconcile works on: created when absent, seeded from status once. */
  function StateFor(mem: Option<CRState>, cr: CR): CRState {
    var st := if mem.Some? then mem.value else FRESH_STATE;
    if st.initialized then st else InitializedFrom(st, StatusSeedOf(cr))
  }

  function LaterOf(a: Option<int>, b: Option<int>): Option<int> {
    if a.Some? && (b.None? || a.value > b.value) then a else b
  }

  function Fold(cfg: Config, st: CRState, rps: real, replicas: int32, now: int): CRState {
    if |st.observations| <= RING_BUFFER_CAPACITY &&
       ShouldUpdateRpsPerPodWithFloor(rps, replicas, LaterOf(st.lastScaleUp, st.lastScaleDown), now,
                                      cfg.reconcileInterval, cfg.rpsPerPodNoiseFloor as real) then
      var pushed := Pushed(st.observations, RING_BUFFER_CAPACITY, rps / replicas as real);
      st.(observations := pushed, rpsPerPod := OrderStatistics.Median(pushed))
    else st
  }

  function EffectiveOf(cfg: Config, cr: CR): EffectiveParams {
    ResolveEffectiveParams(cr.spec.params, cr.status.classified, cfg.defaults)
  }

  function RequestOf(cfg: Config, cr: CR, samples: seq<Sample>): Request {
    var forecaster := EffectiveOf(cfg, cr).forecaster;
    Request(seq(|samples|, i requires 0 <= i < |samples| => samples[i].value),
            if forecaster == "auto" then "" else forecaster)
  }

  /** The numbers of one decision. */
  datatype Plan = Plan(
    mem: CRState,
    rpsPerPod: real,
    current: int32,
    unbounded: int32,
    recommended: int32,
    params: EffectiveParams,
    out: CapOutput)

  function CapInputOf(st: CRState, params: EffectiveParams, current: int32, now: int,
                      recommended: int32, binding: Binding): CapInput
  {
    CapInput(recommended, current, params.maxStep, params.cooldownUp, params.cooldownDown,
             st.lastScaleUp, st.lastScaleDown, now, binding)
  }

  function PlanOf(cfg: Config, cr: CR, st: CRState, current: int32, rps: real, forecast: real, o: Observed): Plan {
    var mem := Fold(cfg, st, rps, current, o.now);
    var rpsPerPod := ClampRpsPerPod(mem.rpsPerPod, RpsPerPodMinOf(cr.spec), RpsPerPodMaxOf(cr.spec));
    var unbounded := ComputeUnboundedRecommended(forecast, rpsPerPod, o.unspecified);
    var (recommended, binding) := ClampRecommended(unbounded, MinReplicasOf(cr.spec), MaxReplicasOf(cr.spec));
    var params := EffectiveOf(cfg, cr);
    Plan(mem, rpsPerPod, current, unbounded, recommended, params,
         ApplyCapAndCooldown(CapInputOf(mem, params, current, o.now, recommended, binding)))
  }

  function Stamped(st: CRState, up: bool, now: int): CRState {
    if up then st.(lastScaleUp := Some(now)) else st.(lastScaleDown := Some(now))
  }

  function StatusAfter(s: Status, plan: Plan, forecast: real, o: Observed): Status {
    s.(phase := Phase.Ready,
       conflictingHpa := None,
       currentReplicas := plan.out.target,
       recommendedReplicas := plan.recommended,
       unboundedRecommended := plan.unbounded,
       predictedRps := ToInt32(forecast, o.unspecified),
       rpsPerPodCurrent := ToInt32(plan.rpsPerPod, o.unspecified),
       lastScaleTime := if plan.out.shouldPatch then Some(Persisted(o.now)) else s.lastScaleTime)
  }

  function CurrentOf(deployment: Option<int32>): int32 { DerefOr(deployment, 1) }

  /** Whether the reconcile gets as far as a decision. */
  predicate Informed(cfg: Config, w: World, o: Observed) {
    && w.cr.Some? && !w.cr.value.killSwitch && !w.cr.value.deleting
    && o.hpa.NoConflict?
    && o.currentRps.Some? && o.samples.Some?
    && |o.samples.value| >= cfg.hotPathMinPoints
    && o.forecast.Some?
    && w.deployment.Some?
  }

  function DecisionOf(cfg: Config, w: World, o: Observed): Plan
    requires Informed(cfg, w, o)
  {
    PlanOf(cfg, w.cr.value, StateFor(w.mem, w.cr.value), CurrentOf(w.deployment.value),
           o.currentRps.value, o.forecast.value, o)
  }

  /** Patch, stamp and persist a decision. A rejected patch keeps the folded observation and nothing else. */
  function Committed(cr: CR, deployment: Option<int32>, plan: Plan, forecast: real, o: Observed): World {
    if plan.out.shouldPatch && !o.scaleAccepted then
      World(Some(cr), Some(deployment), Some(plan.mem))
    else
      World(
        Some(if o.statusAccepted then cr.(status := StatusAfter(cr.status, plan, forecast, o)) else cr),
        Some(if plan.out.shouldPatch then Some(plan.out.target) else deployment),
        Some(if plan.out.shouldPatch then Stamped(plan.mem, plan.out.target > plan.current, o.now) else plan.mem))
  }

  function PatchOfPlan(plan: Plan, o: Observed): Option<Patch> {
    if plan.out.shouldPatch && o.scaleAccepted
    then Some(Patch(o.now, plan.current, plan.out.target, plan.recommended, plan.params))
    else None
  }

  function Decided(cfg: Config, w: World, o: Observed): World
    requires Informed(cfg, w, o)
  {
    Committed(w.cr.value, w.deployment.value, DecisionOf(cfg, w, o), o.forecast.value, o)
  }

  /** Status as the kill switch or a conflicting autoscaler leaves it. */
  function Paused(cr: CR, o: Observed): CR {
    if !o.statusAccepted then cr
    else if cr.killSwitch then cr.(status := cr.status.(phase := Disabled))
    else if o.hpa.Conflicting? then cr.(status := cr.status.(phase := Conflict, conflictingHpa := Some(o.hpa.name)))
    else cr
  }

  function Reconciled(cfg: Config, w: World, o: Observed): World {
    if w.cr.None? then w.(mem := None)
    else if w.cr.value.killSwitch then w.(cr := Some(Paused(w.cr.value, o)))
    else if w.cr.value.deleting then w
    else if o.hpa.Conflicting? then w.(cr := Some(Paused(w.cr.value, o)))
    else if !Informed(cfg, w, o) then w
    else Decided(cfg, w, o)
  }

  /** The patch a reconcile gets through, if any. */
  function PatchOf(cfg: Config, w: World, o: Observed): Option<Patch> {
    if Informed(cfg, w, o) then PatchOfPlan(DecisionOf(cfg, w, o), o) else None
  }

  predicate Asked(cfg: Config, w: World, o: Observed) {
    && w.cr.Some? && !w.cr.value.killSwitch && !w.cr.value.deleting
    && o.hpa.NoConflict?
    && o.currentRps.Some? && o.samples.Some?
    && |o.samples.value| >= cfg.hotPathMinPoints
  }

  function OutcomeOf(cfg: Config, w: World, o: Observed): Outcome {
    Outcome(
      if Asked(cfg, w, o) then Some(RequestOf(cfg, w.cr.value, o.samples.value)) else None,
      if Informed(cfg, w, o) then Some(DecisionOf(cfg, w, o).out) else None,
      PatchOf(cfg, w, o))
  }

  /** The value the API documents for a spec of "auto" is "defer to the classifier". The request sent
      instead names no model: deferring happens exactly when the field is absent or empty, or when the
      classifier's choice is the pinned one. */
  lemma {:induction false} AutoShadowsClassifier(cfg: Config, cr: CR, samples: seq<Sample>)
    requires cr.status.classified.Some?
    requires cr.status.classified.value.preferredForecaster !in {"", "auto"}
    ensures RequestOf(cfg, cr, samples).preferredModel == cr.status.classified.value.preferredForecaster
            <==> (|| NonEmpty(cr.spec.params.preferredForecaster).None?
                  || cr.spec.params.preferredForecaster.value == cr.status.classified.value.preferredForecaster)
    ensures cr.spec.params.preferredForecaster == Some("auto")
            ==> RequestOf(cfg, cr, samples).preferredModel == ""
  {}

  // ---------------------------------------------------------------- the reconciler object

  /** The API server's side: resources and Deployments by name. */
  class Cluster {
    var crs: map<Key, CR>
    var deployments: map<Key, Option<int32>>

    constructor ()
      ensures crs == map[] && deployments == map[]
    {
      crs, deployments := map[], map[];
    }
  }

  function TargetOf(key: Key, cr: CR): Key { NamespacedName(key.ns, cr.spec.targetName) }

  class Reconciler {
    const config: Config
    const store: StateStore
    const api: Cluster

    constructor (config: Config, store: StateStore, api: Cluster)
      requires store.Valid()
      ensures this.config == config && this.store == store && this.api == api
    {
      this.config, this.store, this.api := config, store, api;
    }

    ghost function WorldOf(key: Key): World
      reads api, store, store.Objects()
    {
      if key in api.crs then
        var target := TargetOf(key, api.crs[key]);
        World(Some(api.crs[key]),
              if target in api.deployments then Some(api.deployments[target]) else None,
              store.View(key))
      else
        World(None, None, store.View(key))
    }

    method SampleValues(samples: seq<Sample>) returns (rpsHistory: seq<real>)
      ensures rpsHistory == seq(|samples|, i requires 0 <= i < |samples| => samples[i].value)
    {
      rpsHistory := [];
      for i := 0 to |samples|
        invariant rpsHistory == seq(i, k requires 0 <= k < i => samples[k].value)
      {
        rpsHistory := rpsHistory + [samples[i].value];
      }
    }

    /** Makes exactly the transition `Reconciled` for `key`, and leaves every other resource's
        memory and record, and every other Deployment, as they were. */
    method Reconcile(key: Key, o: Observed) returns (outcome: Outcome)
      requires store.Valid()
      modifies api, store, store.Objects()
      ensures store.Valid()
      ensures WorldOf(key) == Reconciled(config, old(WorldOf(key)), o)
      ensures outcome == OutcomeOf(config, old(WorldOf(key)), o)
      ensures forall k :: k != key ==> store.View(k) == old(store.View(k))
      ensures api.crs.Keys == old(api.crs.Keys)
      ensures forall k :: k != key && k in api.crs ==> api.crs[k] == old(api.crs)[k]
      ensures api.deployments.Keys == old(api.deployments.Keys)
      ensures forall d :: d in api.deployments && (key !in api.crs || d != TargetOf(key, api.crs[key]))
                ==> api.deployments[d] == old(api.deployments)[d]
    {
      outcome := IDLE;
      if key !in api.crs {
        store.Delete(key);
        return;
      }
      var cr := api.crs[key];
      if cr.killSwitch {
        if cr.status.phase != Disabled && o.statusAccepted {
          api.crs := api.crs[key := cr.(status := cr.status.(phase := Disabled))];
        }
        return;
      }
      if cr.deleting {
        return;
      }
      match o.hpa {
        case LookupFailed =>
          return;
        case Conflicting(name) =>
          if (cr.status.phase != Conflict || cr.status.conflictingHpa != Some(name)) && o.statusAccepted {
            api.crs := api.crs[key := cr.(status := cr.status.(phase := Conflict, conflictingHpa := Some(name)))];
          }
          return;
        case NoConflict =>
      }
      if o.currentRps.None? || o.samples.None? || |o.samples.value| < config.hotPathMinPoints {
        return;
      }
      var rpsHistory := SampleValues(o.samples.value);
      var effective := EffectiveOf(config, cr);
      var preferredModel := effective.forecaster;
      if preferredModel == "auto" {
        preferredModel := "";
      }
      outcome := outcome.(request := Some(Request(rpsHistory, preferredModel)));
      if o.forecast.None? {
        return;
      }
      var target := TargetOf(key, cr);
      if target !in api.deployments {
        return;
      }
      outcome := Act(key, cr, target, o, outcome);
    }

    /** Steps 5 to 11, once metrics, forecast and Deployment are at hand. */
    method Act(key: Key, cr: CR, deployment: Key, o: Observed, soFar: Outcome) returns (outcome: Outcome)
      requires store.Valid()
      requires key in api.crs && api.crs[key] == cr && deployment == TargetOf(key, cr) && deployment in api.deployments
      requires Informed(config, WorldOf(key), o)
      modifies api, store, store.Objects()
      ensures store.Valid()
      ensures WorldOf(key) == Decided(config, old(WorldOf(key)), o)
      ensures outcome == soFar.(decision := Some(DecisionOf(config, old(WorldOf(key)), o).out),
                                patch := PatchOf(config, old(WorldOf(key)), o))
      ensures forall k :: k != key ==> store.View(k) == old(store.View(k))
      ensures api.crs.Keys == old(api.crs.Keys)
      ensures forall k :: k != key && k in api.crs ==> api.crs[k] == old(api.crs)[k]
      ensures api.crs[key].spec == cr.spec
      ensures api.deployments.Keys == old(api.deployments.Keys)
      ensures forall d :: d in api.deployments && d != deployment ==> api.deployments[d] == old(api.deployments)[d]
    {
      var currentReplicas: int32 := 1;
      if api.deployments[deployment].Some? {
        currentReplicas := api.deployments[deployment].value;
      }
      Recall(key, cr);
      var plan := Decide(key, cr, currentReplicas, o);
      var patch := Commit(key, cr, deployment, plan, o);
      outcome := soFar.(decision := Some(plan.out), patch := patch);
    }

    method Commit(key: Key, cr: CR, deployment: Key, plan: Plan, o: Observed) returns (patch: Option<Patch>)
      requires store.Valid() && store.View(key) == Some(plan.mem)
      requires key in api.crs && api.crs[key] == cr && deployment == TargetOf(key, cr) && deployment in api.deployments
      requires o.forecast.Some?
      modifies api, store.Objects()
      ensures store.Valid()
      ensures WorldOf(key) == Committed(cr, old(api.deployments)[deployment], plan, o.forecast.value, o)
      ensures patch == PatchOfPlan(plan, o)
      ensures forall k :: k != key ==> store.View(k) == old(store.View(k))
      ensures api.crs.Keys == old(api.crs.Keys)
      ensures forall k :: k != key && k in api.crs ==> api.crs[k] == old(api.crs)[k]
      ensures api.crs[key].spec == cr.spec
      ensures api.deployments.Keys == old(api.deployments.Keys)
      ensures forall d :: d in api.deployments && d != deployment ==> api.deployments[d] == old(api.deployments)[d]
    {
      patch := None;
      if plan.out.shouldPatch {
        if !o.scaleAccepted {
          return;
        }
        api.deployments := api.deployments[deployment := Some(plan.out.target)];
        assert store.Valid() && store.View(key) == Some(plan.mem);
        Stamp(key, plan.out.target > plan.current, o.now);
        patch := Some(Patch(o.now, plan.current, plan.out.target, plan.recommended, plan.params));
      }
      if o.statusAccepted {
        api.crs := api.crs[key := cr.(status := StatusAfter(cr.status, plan, o.forecast.value, o))];
      }
    }

    /** Finds or creates this key's state and seeds it from status on first sight. */
    method Recall(key: Key, cr: CR)
      requires store.Valid()
      modifies store, store.Objects()
      ensures store.Valid()
      ensures fresh(store.Objects() - old(store.Objects()))
      ensures store.View(key) == Some(StateFor(old(store.View(key)), cr))
      ensures forall k :: k != key ==> store.View(k) == old(store.View(k))
    {
      var state := store.GetOrCreate(key);
      if !state.initialized {
        InitializeFromStatus(state, StatusSeedOf(cr));
      }
    }

    method Stamp(key: Key, up: bool, now: int)
      requires store.Valid() && key in store.store
      modifies store.Objects()
      ensures store.Valid()
      ensures store.View(key) == Some(Stamped(old(store.View(key)).value, up, now))
      ensures forall k :: k != key ==> store.View(k) == old(store.View(k))
    {
      var state := store.store[key];
      if up {
        state.lastScaleUpTime := Some(now);
      } else {
        state.lastScaleDownTime := Some(now);
      }
    }

    /** Folds a load observation into this key's window when the steady-state gate is open. */
    method ObserveLoad(key: Key, currentRps: real, currentReplicas: int32, now: int)
      requires store.Valid() && key in store.store
      modifies store.Objects()
      ensures store.Valid()
      ensures store.View(key) == Some(Fold(config, old(store.View(key)).value, currentRps, currentReplicas, now))
      ensures forall k :: k != key ==> store.View(k) == old(store.View(k))
    {
      var state := store.store[key];
      var lastScale := LaterOf(state.lastScaleUpTime, state.lastScaleDownTime);
      if ShouldUpdateRpsPerPodWithFloor(currentRps, currentReplicas, lastScale, now,
                                        config.reconcileInterval, config.rpsPerPodNoiseFloor as real) {
        state.observations.Push(currentRps / currentReplicas as real);
        state.rpsPerPod := state.observations.Median();
      }
    }

    /** Folds the observation into memory and decides; touches this key's memory only. */
    method Decide(key: Key, cr: CR, currentReplicas: int32, o: Observed) returns (plan: Plan)
      requires store.Valid() && key in store.store
      requires o.currentRps.Some? && o.forecast.Some?
      modifies store.Objects()
      ensures store.Valid()
      ensures plan == PlanOf(config, cr, old(store.View(key)).value, currentReplicas,
                             o.currentRps.value, o.forecast.value, o)
      ensures store.View(key) == Some(plan.mem)
      ensures forall k :: k != key ==> store.View(k) == old(store.View(k))
    {
      ObserveLoad(key, o.currentRps.value, currentReplicas, o.now);
      var state := store.store[key];
      var rpsPerPod := ClampRpsPerPod(state.rpsPerPod, RpsPerPodMinOf(cr.spec), RpsPerPodMaxOf(cr.spec));
      var unbounded := ComputeUnboundedRecommended(o.forecast.value, rpsPerPod, o.unspecified);
      var (recommended, binding) := ClampRecommended(unbounded, MinReplicasOf(cr.spec), MaxReplicasOf(cr.spec));
      var effective := EffectiveOf(config, cr);
      var capOut := ComputeCapAndCooldown(CapInput(
        recommended, currentReplicas, effective.maxStep, effective.cooldownUp, effective.cooldownDown,
        state.lastScaleUpTime, state.lastScaleDownTime, o.now, binding));
      var mem := CRState(state.observations.data, state.rpsPerPod, state.lastScaleUpTime,
                         state.lastScaleDownTime, state.initialized);
      plan := Plan(mem, rpsPerPod, currentReplicas, unbounded, recommended, effective, capOut);
    }
  }
}
