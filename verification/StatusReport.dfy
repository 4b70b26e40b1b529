/** What the status and the reason token tell an operator, over single steps and over runs. */
module StatusReport {
  import opened Prelude
  import opened Decision
  import opened Api
  import opened Reconcile
  import opened Runs
  import opened RampRate

  predicate BoundsInOrder(spec: Spec) { MinReplicasOf(spec) <= MaxReplicasOf(spec) }

  /** With nothing left to do, the reason names the bound that cut the forecast's demand, and "no change" means the
      demand itself is met. */
  lemma {:induction false} ReasonNamesTheBound(cfg: Config, w: World, o: Observed)
    requires Informed(cfg, w, o) && BoundsInOrder(w.cr.value.spec)
    ensures var plan, lo, hi := DecisionOf(cfg, w, o), MinReplicasOf(w.cr.value.spec), MaxReplicasOf(w.cr.value.spec);
            && (plan.out.reason.MaxReplicasBinding? <==> plan.current == hi < plan.unbounded)
            && (plan.out.reason.MinReplicasBinding? <==> plan.unbounded < lo == plan.current)
            && (plan.out.reason.NoChange? <==> plan.current == plan.unbounded && lo <= plan.unbounded <= hi)
  {
    var plan, spec := DecisionOf(cfg, w, o), w.cr.value.spec;
    var binding := ClampRecommended(plan.unbounded, MinReplicasOf(spec), MaxReplicasOf(spec)).1;
    var x := CapInputOf(plan.mem, plan.params, plan.current, o.now, plan.recommended, binding);
    assert plan.out == ApplyCapAndCooldown(x);
  }

  /** A status just written reports the Deployment as the step leaves it, a recommendation inside the bounds that
      differs from the unbounded one exactly when a bound binds, and no conflict. */
  lemma {:induction false} StatusReportsDeployment(cfg: Config, w: World, o: Observed)
    requires Informed(cfg, w, o) && BoundsInOrder(w.cr.value.spec) && o.statusAccepted
    requires DecisionOf(cfg, w, o).out.shouldPatch ==> o.scaleAccepted
    ensures var w' := Reconciled(cfg, w, o);
            && w'.cr.Some? && w'.cr.value.spec == w.cr.value.spec
            && var s, lo, hi := w'.cr.value.status, MinReplicasOf(w.cr.value.spec), MaxReplicasOf(w.cr.value.spec);
               && s.currentReplicas == ReplicasOf(w')
               && lo <= s.recommendedReplicas <= hi
               && (s.recommendedReplicas == s.unboundedRecommended <==> lo <= s.unboundedRecommended <= hi)
               && (s.recommendedReplicas < s.unboundedRecommended ==> s.recommendedReplicas == hi)
               && (s.recommendedReplicas > s.unboundedRecommended ==> s.recommendedReplicas == lo)
               && s.phase == Phase.Ready && s.conflictingHpa.None?
  {
    assert Reconciled(cfg, w, o) == Decided(cfg, w, o);
    ClampLandsInBounds(MinReplicasOf(w.cr.value.spec), MaxReplicasOf(w.cr.value.spec));
    var plan, spec := DecisionOf(cfg, w, o), w.cr.value.spec;
    var binding := ClampRecommended(plan.unbounded, MinReplicasOf(spec), MaxReplicasOf(spec)).1;
    var x := CapInputOf(plan.mem, plan.params, plan.current, o.now, plan.recommended, binding);
    assert plan.out == ApplyCapAndCooldown(x);
    assert plan.current == ReplicasOf(w);
  }

  /** `n` is `x` less its fraction, if that fits 32 bits. */
  predicate WholePart(n: int32, x: real) {
    0.0 <= x < MAX_INT32 as real ==> n as real <= x < n as real + 1.0
  }

  /** What else it reports: the demand and the estimate the decision used, the forecast, and, if it scaled, when; the
      classification is not the reconciler's to change. */
  lemma {:induction false} StatusCarriesDecision(cfg: Config, w: World, o: Observed)
    requires Informed(cfg, w, o) && o.statusAccepted
    requires DecisionOf(cfg, w, o).out.shouldPatch ==> o.scaleAccepted
    ensures var plan, before, cr' := DecisionOf(cfg, w, o), w.cr.value.status, Reconciled(cfg, w, o).cr;
            && cr'.Some?
            && var s := cr'.value.status;
               && s.unboundedRecommended == plan.unbounded && s.recommendedReplicas == plan.recommended
               && WholePart(s.predictedRps, o.forecast.value) && WholePart(s.rpsPerPodCurrent, plan.rpsPerPod)
               && s.classified == before.classified
               && s.lastScaleTime == (if PatchOf(cfg, w, o).Some? then Some(Persisted(o.now)) else before.lastScaleTime)
  {
    assert Reconciled(cfg, w, o) == Decided(cfg, w, o);
  }

  /** A rejected patch leaves the resource and the Deployment as they were, and so does a rejected status write the
      resource. */
  lemma {:induction false} RejectedWritesChangeNothing(cfg: Config, w: World, o: Observed)
    requires Informed(cfg, w, o)
    ensures var w' := Reconciled(cfg, w, o);
            && (DecisionOf(cfg, w, o).out.shouldPatch && !o.scaleAccepted ==>
                  w'.cr == w.cr && w'.deployment == w.deployment && PatchOf(cfg, w, o).None?)
            && (!o.statusAccepted ==> w'.cr == w.cr)
  {
    assert Reconciled(cfg, w, o) == Decided(cfg, w, o);
  }

  /** The conflicting autoscaler is on record while in conflict, and not while ready. */
  predicate NamesConflict(s: Status) {
    && (s.phase.Conflict? ==> s.conflictingHpa.Some?)
    && (s.phase.Ready? ==> s.conflictingHpa.None?)
  }

  lemma {:induction false} StepNamesConflict(cfg: Config, w: World, e: Event)
    requires w.cr.Some? && NamesConflict(w.cr.value.status)
    ensures Next(cfg, w, e).cr.Some? && NamesConflict(Next(cfg, w, e).cr.value.status)
  {
    if e.Step? && Informed(cfg, w, e.o) {
      assert Reconciled(cfg, w, e.o) == Decided(cfg, w, e.o);
    }
  }

  /** Over any run the phase and the recorded conflict agree. */
  lemma {:induction false} ConflictNamedOverRuns(cfg: Config, ws: seq<World>, es: seq<Event>, k: nat)
    requires IsRun(cfg, ws, es) && k < |ws|
    requires NamesConflict(ws[0].cr.value.status)
    ensures ws[k].cr.Some? && NamesConflict(ws[k].cr.value.status)
  {
    if k > 0 {
      ConflictNamedOverRuns(cfg, ws, es, k - 1);
      assert ws[k] == Next(cfg, ws[k - 1], es[k - 1]);
      StepNamesConflict(cfg, ws[k - 1], es[k - 1]);
    }
  }

  /** Outside those two phases it may be stale: pausing a resource in conflict keeps the record exactly as it was. */
  lemma {:induction false} KillSwitchKeepsConflict(cfg: Config, w: World, o: Observed)
    requires w.cr.Some? && w.cr.value.killSwitch && o.statusAccepted
    ensures var w' := Reconciled(cfg, w, o);
            && w' == w.(cr := Some(w.cr.value.(status := w.cr.value.status.(phase := Phase.Disabled))))
            && (w'.cr.value.status.conflictingHpa.None? <==> w.cr.value.status.conflictingHpa.None?)
  {}
}
