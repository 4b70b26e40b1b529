/** What one reconcile reads and does, law by law, in the fields of the resource and of what was observed. */
module ReconcileLaws {
  import opened Prelude
  import OrderStatistics
  import opened Observations
  import opened ControllerState
  import opened Decision
  import opened Api
  import opened Reconcile
  import opened Runs
  import opened RampRate
  import opened Convergence

  // ---------------------------------------------------------------- when a reconcile decides

  /** Nothing forbids scaling: the resource is there, neither switched off nor going away, and a lookup found no other
      autoscaler. */
  predicate Unhindered(w: World, o: Observed) {
    && w.cr.Some? && !w.cr.value.killSwitch && !w.cr.value.deleting
    && o.hpa.NoConflict?
  }

  /** Both queries answered, the second with enough points. */
  predicate Measured(cfg: Config, o: Observed) {
    o.currentRps.Some? && o.samples.Some? && cfg.hotPathMinPoints <= |o.samples.value|
  }

  /** The forecast is asked for exactly when nothing hinders and the load is measured; a decision is taken exactly when
      it is answered and the Deployment exists; and only a decision patches. */
  lemma {:induction false} DecidesExactlyWhen(cfg: Config, w: World, o: Observed)
    ensures OutcomeOf(cfg, w, o).request.Some? <==> Unhindered(w, o) && Measured(cfg, o)
    ensures OutcomeOf(cfg, w, o).decision.Some?
            <==> Unhindered(w, o) && Measured(cfg, o) && o.forecast.Some? && w.deployment.Some?
    ensures Informed(cfg, w, o) <==> OutcomeOf(cfg, w, o).decision.Some?
    ensures PatchOf(cfg, w, o).Some? ==> OutcomeOf(cfg, w, o).decision.Some?
  {}

  /** Without a decision neither the Deployment nor the controller's memory changes, save that a resource that is gone
      is forgotten. */
  lemma {:induction false} NoDecisionNoChange(cfg: Config, w: World, o: Observed)
    requires !(Unhindered(w, o) && Measured(cfg, o) && o.forecast.Some? && w.deployment.Some?)
    ensures Reconciled(cfg, w, o).deployment == w.deployment
    ensures Reconciled(cfg, w, o).mem == if w.cr.Some? then w.mem else None
    ensures w.cr.Some? && !w.cr.value.killSwitch && (w.cr.value.deleting || !o.hpa.Conflicting?)
            ==> Reconciled(cfg, w, o).cr == w.cr
  {}

  /** A conflicting autoscaler stops the controller: the step records the conflict, if the write goes through, and does
      nothing else. */
  lemma {:induction false} ConflictStops(cfg: Config, w: World, o: Observed)
    requires w.cr.Some? && !w.cr.value.killSwitch && !w.cr.value.deleting && o.hpa.Conflicting?
    ensures PatchOf(cfg, w, o).None?
    ensures var status := w.cr.value.status.(phase := Phase.Conflict, conflictingHpa := Some(o.hpa.name));
            Reconciled(cfg, w, o) == if o.statusAccepted then w.(cr := Some(w.cr.value.(status := status))) else w
  {}

  /** The kill switch does the same with the phase alone. */
  lemma {:induction false} KillSwitchStops(cfg: Config, w: World, o: Observed)
    requires w.cr.Some? && w.cr.value.killSwitch
    ensures PatchOf(cfg, w, o).None?
    ensures var status := w.cr.value.status.(phase := Phase.Disabled);
            Reconciled(cfg, w, o) == if o.statusAccepted then w.(cr := Some(w.cr.value.(status := status))) else w
  {}

  /** No reconcile, or one that finds the kill switch set or another autoscaler on the Deployment. */
  predicate Stopped(w: World, e: Event) {
    e.Step? && w.cr.Some? ==> w.cr.value.killSwitch || e.o.hpa.Conflicting?
  }

  lemma {:induction false} StoppedPatchesNothing(cfg: Config, w: World, e: Event)
    requires w.cr.Some? && Stopped(w, e)
    ensures PatchAt(cfg, w, e).None?
  {}

  /** Over any run, replicas do not move while the kill switch is set or an autoscaler conflicts, unless others move
      them. */
  lemma {:induction false} StoppedReplicasStay(cfg: Config, ws: seq<World>, es: seq<Event>, a: nat, b: nat)
    requires IsRun(cfg, ws, es) && a <= b <= |es| && NoOutsideScaling(ws, es, a, b)
    requires forall k :: a <= k < b ==> Stopped(ws[k], es[k])
    ensures ws[b].deployment == ws[a].deployment
  {
    if a < b {
      var j: nat := b - 1;
      StoppedReplicasStay(cfg, ws, es, a, j);
      ResourceStays(cfg, ws, es, j);
      assert Stopped(ws[j], es[j]);
      StoppedPatchesNothing(cfg, ws[j], es[j]);
      QuietReplicas(cfg, ws, es, a, b, j);
    }
  }

  // ---------------------------------------------------------------- what a decision is computed from

  /** The parameters in force, field by field: what the spec pins, else what the status carries from a classification,
      else the configured default. */
  lemma {:induction false} ParamsInForce(cfg: Config, w: World, o: Observed)
    requires Informed(cfg, w, o)
    ensures var p, spec, c := DecisionOf(cfg, w, o).params, w.cr.value.spec.params, w.cr.value.status.classified;
            && p.cooldownUp == (if spec.scaleUpCooldown.Some? then spec.scaleUpCooldown.value
                                else if c.Some? then c.value.scaleUpCooldown else cfg.defaults.scaleUpCooldown)
            && p.cooldownDown == (if spec.scaleDownCooldown.Some? then spec.scaleDownCooldown.value
                                  else if c.Some? then c.value.scaleDownCooldown else cfg.defaults.scaleDownCooldown)
            && p.maxStep == (if spec.maxStepSize.Some? then spec.maxStepSize.value
                             else if c.Some? then c.value.maxStepSize else cfg.defaults.maxStepSize)
            && p.forecaster == (if spec.preferredForecaster.Some? && spec.preferredForecaster != Some("")
                                then spec.preferredForecaster.value
                                else if c.Some? && c.value.preferredForecaster != "" then c.value.preferredForecaster
                                else "auto")
    ensures PatchOf(cfg, w, o).Some? ==> PatchOf(cfg, w, o).value.params == DecisionOf(cfg, w, o).params
  {}

  /** The request carries the sampled values in order, and names the forecaster in force unless that is "auto". */
  lemma {:induction false} RequestCarriesSamples(cfg: Config, w: World, o: Observed)
    requires Informed(cfg, w, o)
    ensures var r := OutcomeOf(cfg, w, o).request;
            && r.Some? && |r.value.history| == |o.samples.value|
            && (forall i :: 0 <= i < |o.samples.value| ==> r.value.history[i] == o.samples.value[i].value)
            && var named := DecisionOf(cfg, w, o).params.forecaster;
               r.value.preferredModel == if named == "auto" then "" else named
  {}

  /** `k` pods at `rpsPerPod` each carry the load. */
  predicate Covers(k: int, rpsPerPod: real, load: real) { load <= k as real * rpsPerPod }

  predicate DemandIsInt32(rpsPerPod: real, load: real) {
    rpsPerPod > 0.0 && MIN_INT32 <= Ceil(load / rpsPerPod) <= MAX_INT32
  }

  lemma {:induction false} LeastCover(rpsPerPod: real, load: real, unspecified: int32, k: int)
    requires DemandIsInt32(rpsPerPod, load)
    ensures ComputeUnboundedRecommended(load, rpsPerPod, unspecified) <= k <==> Covers(k, rpsPerPod, load)
  {
    RecommendationIsLeastCapacity(load, rpsPerPod, unspecified, k);
  }

  lemma {:induction false} DemandOf(cfg: Config, w: World, o: Observed)
    requires Informed(cfg, w, o)
    ensures DecisionOf(cfg, w, o).unbounded
         == ComputeUnboundedRecommended(o.forecast.value, DecisionOf(cfg, w, o).rpsPerPod, o.unspecified)
    ensures DecisionOf(cfg, w, o).current == if w.deployment.value.Some? then w.deployment.value.value else 1
  {}

  /** The demand is the least number of pods whose capacity covers the forecast at the estimate in use; the count it is
      weighed against is the Deployment's, one if it states none. */
  lemma {:induction false} DemandCoversForecast(cfg: Config, w: World, o: Observed, k: int)
    requires Informed(cfg, w, o) && DemandIsInt32(DecisionOf(cfg, w, o).rpsPerPod, o.forecast.value)
    ensures DecisionOf(cfg, w, o).unbounded <= k
            <==> Covers(k, DecisionOf(cfg, w, o).rpsPerPod, o.forecast.value)
    ensures DecisionOf(cfg, w, o).current == if w.deployment.value.Some? then w.deployment.value.value else 1
  {
    DemandOf(cfg, w, o);
    LeastCover(DecisionOf(cfg, w, o).rpsPerPod, o.forecast.value, o.unspecified, k);
  }

  /** The estimate a decision uses is the one the reconcile leaves in memory, or the bound it lies beyond. */
  lemma {:induction false} EstimateWithinBounds(cfg: Config, w: World, o: Observed)
    requires Informed(cfg, w, o) && Stored(w.cr.value.spec)
    ensures var used, lo, hi := DecisionOf(cfg, w, o).rpsPerPod, RpsPerPodMinOf(w.cr.value.spec) as real,
                                RpsPerPodMaxOf(w.cr.value.spec) as real;
            var kept := Reconciled(cfg, w, o).mem;
            && kept.Some? && lo <= used <= hi
            && (lo <= kept.value.rpsPerPod <= hi ==> used == kept.value.rpsPerPod)
            && (kept.value.rpsPerPod < lo ==> used == lo)
            && (kept.value.rpsPerPod > hi ==> used == hi)
  {
    StoredBoundsInOrder(w.cr.value.spec);
    assert Reconciled(cfg, w, o) == Decided(cfg, w, o);
  }

  /** The cooldown of a direction is over. */
  predicate CooldownOver(clock: Option<int>, now: int, cooldown: int32) {
    clock.Some? ==> now - clock.value >= cooldown * SECOND
  }

  /** When the Deployment is scaled, in full: nothing hinders, everything needed is known, the call is accepted, and
      there is a gap to close, a step to close it by, and no cooldown in its direction. */
  lemma {:induction false} PatchesExactlyWhen(cfg: Config, w: World, o: Observed)
    ensures PatchOf(cfg, w, o).Some?
            <==> (&& Unhindered(w, o) && Measured(cfg, o) && o.forecast.Some? && w.deployment.Some? && o.scaleAccepted
                  && var plan := DecisionOf(cfg, w, o);
                     && plan.recommended != plan.current && plan.params.maxStep != 0
                     && (if plan.recommended > plan.current then
                           CooldownOver(Clock(w, true), o.now, plan.params.cooldownUp)
                         else CooldownOver(Clock(w, false), o.now, plan.params.cooldownDown)))
  {
    WhenAStepPatches(cfg, w, o);
  }

  // ---------------------------------------------------------------- what a restarted controller starts from

  /** An estimate in the status that lies inside the bounds is resumed; any other, zero included, gives an empty window
      and the midpoint of the bounds, unless their sum wraps: then the estimate starts below zero. */
  lemma {:induction false} StartingEstimate(cr: CR)
    requires Stored(cr.spec)
    ensures var q, lo, hi := cr.status.rpsPerPodCurrent, RpsPerPodMinOf(cr.spec), RpsPerPodMaxOf(cr.spec);
            var st := StateFor(None, cr);
            if lo <= q <= hi then st.rpsPerPod == q as real && st.observations == AfterRestart(q as real, [])
            else
              && st.observations == []
              && (if lo + hi <= MAX_INT32 then st.rpsPerPod - lo as real == hi as real - st.rpsPerPod
                  else st.rpsPerPod < 0.0)
  {
    StoredBoundsInOrder(cr.spec);
  }

  // ---------------------------------------------------------------- how the estimate follows the load

  /** The window and the estimate the next decision starts from. */
  function Window(w: World): seq<real>
    requires w.cr.Some?
  {
    StateFor(w.mem, w.cr.value).observations
  }

  function Estimate(w: World): real
    requires w.cr.Some?
  {
    StateFor(w.mem, w.cr.value).rpsPerPod
  }

  predicate Rested(clock: Option<int>, now: int, interval: int) { clock.Some? ==> now - clock.value >= 2 * interval }

  /** The steady-state gate, in full: a decision with replicas running, a load that is positive and above the noise
      floor, and both clocks at least two intervals old. */
  predicate GateOpen(cfg: Config, w: World, o: Observed) {
    && Unhindered(w, o) && Measured(cfg, o) && o.forecast.Some? && w.deployment.Some?
    && ReplicasOf(w) >= 1
    && o.currentRps.value > 0.0 && o.currentRps.value >= cfg.rpsPerPodNoiseFloor as real
    && Rested(Clock(w, true), o.now, cfg.reconcileInterval) && Rested(Clock(w, false), o.now, cfg.reconcileInterval)
  }

  /** Load per pod. */
  function LoadPerPod(w: World, o: Observed): real
    requires o.currentRps.Some? && ReplicasOf(w) >= 1
  {
    o.currentRps.value / ReplicasOf(w) as real
  }

  lemma {:induction false} PushedOntoTen(data: seq<real>, v: real)
    requires |data| <= RING_BUFFER_CAPACITY
    ensures Pushed(data, RING_BUFFER_CAPACITY, v) == Newest(data + [v], 10)
  {
    PushedIsNewest(data, RING_BUFFER_CAPACITY, v);
    assert Newest(data, RING_BUFFER_CAPACITY) == data;
  }

  lemma {:induction false} GateLaw(cfg: Config, w: World, o: Observed)
    requires Informed(cfg, w, o) && |Window(w)| <= RING_BUFFER_CAPACITY
    ensures var st := StateFor(w.mem, w.cr.value);
            var folded := Fold(cfg, st, o.currentRps.value, CurrentOf(w.deployment.value), o.now);
            if GateOpen(cfg, w, o) then
              var pushed := Pushed(st.observations, RING_BUFFER_CAPACITY, LoadPerPod(w, o));
              folded == st.(observations := pushed, rpsPerPod := OrderStatistics.Median(pushed))
            else folded == st
  {}

  lemma {:induction false} DecidedState(cfg: Config, w: World, o: Observed)
    requires Informed(cfg, w, o)
    ensures var st, w' := StateFor(w.mem, w.cr.value), Reconciled(cfg, w, o);
            var folded := Fold(cfg, st, o.currentRps.value, CurrentOf(w.deployment.value), o.now);
            && w'.cr.Some? && w'.mem.Some?
            && Window(w') == folded.observations && Estimate(w') == folded.rpsPerPod
  {
    assert Reconciled(cfg, w, o) == Decided(cfg, w, o);
    assert DecisionOf(cfg, w, o).mem.initialized;
  }

  /** The window law: a reconcile through the open gate adds the load per pod to the window, evicting the oldest of ten,
      and takes the median for its estimate; any other leaves both as they were. */
  lemma {:induction false} WindowLaw(cfg: Config, w: World, o: Observed)
    requires w.cr.Some? && |Window(w)| <= RING_BUFFER_CAPACITY
    ensures var w' := Reconciled(cfg, w, o);
            && w'.cr.Some?
            && Window(w') == (if GateOpen(cfg, w, o) then Newest(Window(w) + [LoadPerPod(w, o)], 10) else Window(w))
            && Estimate(w') == (if GateOpen(cfg, w, o) then OrderStatistics.Median(Window(w')) else Estimate(w))
  {
    if Informed(cfg, w, o) {
      var st := StateFor(w.mem, w.cr.value);
      GateLaw(cfg, w, o);
      if GateOpen(cfg, w, o) {
        PushedOntoTen(st.observations, LoadPerPod(w, o));
      }
      DecidedState(cfg, w, o);
    }
  }
}
