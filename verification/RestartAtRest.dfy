/** A loop at rest, a durable status write, crashes, and the first decision of the next controller. */
module RestartAtRest {
  import opened Prelude
  import opened OrderStatistics
  import opened ControllerState
  import opened Decision
  import opened Api
  import opened Reconcile
  import opened Runs
  import opened RampRate
  import opened Convergence
  import opened SelfCalibration
  import opened RestartGaps

  /** A decided reconcile at rest persists the estimate less its fraction and changes nothing else that the next
      controller will read. */
  lemma {:induction false} RestPersisted(cfg: Config, w: World, o: Observed, load: real, replicas: int32, v: real)
    requires AtRest(w, replicas, v) && Balanced(load, replicas, v) && SteadyLoad(o, load)
    requires Informed(cfg, w, o) && o.statusAccepted && RpsBoundsInOrder(w.cr.value.spec)
    ensures AtRest(Reconciled(cfg, w, o), replicas, v)
    ensures var cr, cr' := w.cr.value, Reconciled(cfg, w, o).cr.value;
            && cr'.spec == cr.spec && cr'.status.classified == cr.status.classified
            && cr'.status.rpsPerPodCurrent == v.Floor
            && cr'.status.lastScaleTime == cr.status.lastScaleTime
  {
    RestingStep(cfg, w, o, load, replicas, v);
    FoldKeepsCalibration(cfg, w.mem.value, load, replicas, o.now, v);
    var plan := DecisionOf(cfg, w, o);
    assert plan.mem == Fold(cfg, w.mem.value, load, replicas, o.now);
    assert plan.rpsPerPod == v;
    assert Reconciled(cfg, w, o) == Decided(cfg, w, o);
  }

  // ---------------------------------------------------------------- from rest to the next controller

  /** All that the next controller reads is as it was at rest, the estimate less its fraction; memory, if there is any,
      is still calibrated. */
  predicate Kept(rest: World, w: World, replicas: int32, v: real) {
    && rest.cr.Some? && w.cr.Some?
    && w.cr.value.spec == rest.cr.value.spec
    && w.cr.value.status.classified == rest.cr.value.status.classified
    && w.cr.value.status.lastScaleTime == rest.cr.value.status.lastScaleTime
    && w.cr.value.status.rpsPerPodCurrent == v.Floor
    && w.deployment == Some(Some(replicas))
    && (w.mem.Some? ==> Calibrated(w.mem.value, v))
  }

  /** An event that decides nothing new: a reconcile under the same load, undecided when there is no memory, a crash, or
      an edit of annotations only. */
  predicate Idle(cfg: Config, w: World, e: Event, load: real) {
    match e
    case Step(o) => SteadyLoad(o, load) && (w.mem.None? ==> !Informed(cfg, w, o))
    case Crash => true
    case Edit(spec, _, _, classified, deployment) =>
      w.cr.Some? && spec == w.cr.value.spec && classified == w.cr.value.status.classified && deployment == w.deployment
  }

  lemma {:induction false} IdleStepKeeps(cfg: Config, rest: World, w: World, o: Observed, load: real, replicas: int32,
                                         v: real)
    requires Kept(rest, w, replicas, v) && Idle(cfg, w, Step(o), load) && Balanced(load, replicas, v)
    requires Admits(rest.cr.value.spec, replicas, v) && RpsBoundsInOrder(rest.cr.value.spec)
    ensures Kept(rest, Reconciled(cfg, w, o), replicas, v)
  {
    if Informed(cfg, w, o) {
      RestingStep(cfg, w, o, load, replicas, v);
      if o.statusAccepted {
        RestPersisted(cfg, w, o, load, replicas, v);
      } else {
        assert Reconciled(cfg, w, o) == Decided(cfg, w, o);
      }
    }
  }

  lemma {:induction false} IdleKeeps(cfg: Config, rest: World, w: World, e: Event, load: real, replicas: int32, v: real)
    requires Kept(rest, w, replicas, v) && Idle(cfg, w, e, load) && Balanced(load, replicas, v)
    requires Admits(rest.cr.value.spec, replicas, v) && RpsBoundsInOrder(rest.cr.value.spec)
    ensures Kept(rest, Next(cfg, w, e), replicas, v)
  {
    if e.Step? {
      IdleStepKeeps(cfg, rest, w, e.o, load, replicas, v);
    }
  }

  /** From `a` to `c`: a decided reconcile at rest with a durable status write, then any number of idle events, crashes
      among them, after the last of which a controller without memory makes an informed reconcile under the same
      load. */
  ghost predicate RestartsAtRest(cfg: Config, ws: seq<World>, es: seq<Event>, a: nat, c: nat, load: real,
                                 replicas: int32, v: real)
    requires IsRun(cfg, ws, es) && a < c < |es|
  {
    && AtRest(ws[a], replicas, v) && Balanced(load, replicas, v) && RpsBoundsInOrder(ws[a].cr.value.spec)
    && es[a].Step? && Informed(cfg, ws[a], es[a].o) && SteadyLoad(es[a].o, load) && es[a].o.statusAccepted
    && (forall k :: a < k < c ==> Idle(cfg, ws[k], es[k], load))
    && ws[c].mem.None?
    && es[c].Step? && Informed(cfg, ws[c], es[c].o) && SteadyLoad(es[c].o, load)
  }

  lemma {:induction false} KeptUntil(cfg: Config, ws: seq<World>, es: seq<Event>, a: nat, k: nat, load: real,
                                     replicas: int32, v: real)
    requires IsRun(cfg, ws, es) && a < k <= |es|
    requires AtRest(ws[a], replicas, v) && Balanced(load, replicas, v) && RpsBoundsInOrder(ws[a].cr.value.spec)
    requires es[a].Step? && Informed(cfg, ws[a], es[a].o) && SteadyLoad(es[a].o, load) && es[a].o.statusAccepted
    requires forall j :: a < j < k ==> Idle(cfg, ws[j], es[j], load)
    ensures Kept(ws[a], ws[k], replicas, v)
  {
    var j: nat := k - 1;
    assert ws[j + 1] == Next(cfg, ws[j], es[j]);
    if j == a {
      RestPersisted(cfg, ws[a], es[a].o, load, replicas, v);
    } else {
      KeptUntil(cfg, ws, es, a, j, load, replicas, v);
      IdleKeeps(cfg, ws[a], ws[j], es[j], load, replicas, v);
    }
  }

  /** What the new controller finds. */
  lemma {:induction false} AfterTheCrash(cfg: Config, ws: seq<World>, es: seq<Event>, a: nat, c: nat, load: real,
                                         replicas: int32, v: real)
    requires IsRun(cfg, ws, es) && a < c < |es| && RestartsAtRest(cfg, ws, es, a, c, load, replicas, v)
    ensures Kept(ws[a], ws[c], replicas, v) && ws[c].mem.None?
    ensures EffectiveOf(cfg, ws[c].cr.value) == EffectiveOf(cfg, ws[a].cr.value)
    ensures Clock(ws[c], true) == StampOf(ws[a])
  {
    KeptUntil(cfg, ws, es, a, c, load, replicas, v);
  }

  /** The fixed point across restarts: the new controller scales a balanced loop up at its first decision exactly when
      the estimate has a fraction to lose, the count is below its maximum, the step is not zero, the patch is accepted,
      and the persisted stamp holds no cooldown against it. Without fraction or headroom the recommendation is the
      balanced count itself. */
  lemma {:induction false} FixedPointAcrossRestart(cfg: Config, ws: seq<World>, es: seq<Event>, a: nat, c: nat,
                                                   load: real, replicas: int32, v: real)
    requires IsRun(cfg, ws, es) && a < c < |es| && RestartsAtRest(cfg, ws, es, a, c, load, replicas, v)
    requires 1.0 <= v && Ceil(load / v.Floor as real) <= MAX_INT32
    ensures var cr, o := ws[a].cr.value, es[c].o;
            var params := EffectiveOf(cfg, cr);
            && (DecisionOf(cfg, ws[c], o).recommended == replicas
                <==> v.Floor as real == v || replicas == MaxReplicasOf(cr.spec))
            && (PatchedAt(cfg, ws, es, c)
                <==> && v.Floor as real != v && replicas < MaxReplicasOf(cr.spec)
                     && params.maxStep != 0 && o.scaleAccepted
                     && !Holding(o.now, StampOf(ws[a]), params.cooldownUp))
  {
    var w', o := ws[c], es[c].o;
    AfterTheCrash(cfg, ws, es, a, c, load, replicas, v);
    FirstRecommendation(cfg, w', o, load, replicas, v);
    WhenAStepPatches(cfg, w', o);
  }

  lemma {:induction false} UpwardPatch(cfg: Config, w: World, o: Observed)
    requires PatchOf(cfg, w, o).Some? && StepFits(PatchOf(cfg, w, o).value)
    requires DecisionOf(cfg, w, o).current <= DecisionOf(cfg, w, o).recommended
    ensures IsUp(PatchOf(cfg, w, o).value)
  {
    StepReplicas(cfg, w, o);
  }

  /** When it moves, it moves up. */
  lemma {:induction false} RestartScalesUp(cfg: Config, ws: seq<World>, es: seq<Event>, a: nat, c: nat, load: real,
                                           replicas: int32, v: real)
    requires IsRun(cfg, ws, es) && a < c < |es| && RestartsAtRest(cfg, ws, es, a, c, load, replicas, v)
    requires 1.0 <= v && Ceil(load / v.Floor as real) <= MAX_INT32
    requires PatchedAt(cfg, ws, es, c) && StepFits(PatchAt(cfg, ws[c], es[c]).value)
    ensures ScaledAt(cfg, ws, es, c, true)
  {
    AfterTheCrash(cfg, ws, es, a, c, load, replicas, v);
    FirstRecommendation(cfg, ws[c], es[c].o, load, replicas, v);
    UpwardPatch(cfg, ws[c], es[c].o);
  }

  // ---------------------------------------------------------------- a loop that moves

  /** Two replicas at rest, serving 201 requests a second at 100.5 each. */
  const HALF_A_REQUEST := World(Some(RESOURCE), Some(Some(2)), Some(CRState([100.5], 100.5, None, None, true)))

  function Steady201(now: int): Observed {
    Observed(now, NoConflict, Some(201.0), Some([Sample(now, 201.0)]), Some(201.0), true, true, 0)
  }

  lemma {:induction false} HalfIsAtRest()
    ensures AtRest(HALF_A_REQUEST, 2, 100.5) && Balanced(201.0, 2, 100.5) && RpsBoundsInOrder(RESOURCE.spec)
  {
    CountAll([100.5], Within(100.5, 100.5));
  }

  /** The run: a reconcile, a crash, a reconcile. */
  function RestEvents(): seq<Event> { [Step(Steady201(100 * SECOND)), Crash, Step(Steady201(200 * SECOND))] }

  function RestWorlds(): seq<World> {
    var rested := Reconciled(CONFIG, HALF_A_REQUEST, Steady201(100 * SECOND));
    var crashed := rested.(mem := None);
    [HALF_A_REQUEST, rested, crashed, Reconciled(CONFIG, crashed, Steady201(200 * SECOND))]
  }

  /** After the first reconcile the loop is still at rest, and the resource informs the next controller. */
  lemma {:induction false} HalfStaysInformed(now: int, later: int)
    ensures Informed(CONFIG, HALF_A_REQUEST, Steady201(now))
    ensures var rested := Reconciled(CONFIG, HALF_A_REQUEST, Steady201(now));
            Informed(CONFIG, rested.(mem := None), Steady201(later))
  {
    var o := Steady201(now);
    HalfIsAtRest();
    RestPersisted(CONFIG, HALF_A_REQUEST, o, 201.0, 2, 100.5);
    assert Reconciled(CONFIG, HALF_A_REQUEST, o) == Decided(CONFIG, HALF_A_REQUEST, o);
  }

  lemma {:induction false} RestIsRun()
    ensures IsRun(CONFIG, RestWorlds(), RestEvents())
    ensures RestartsAtRest(CONFIG, RestWorlds(), RestEvents(), 0, 2, 201.0, 2, 100.5)
  {
    var ws, es := RestWorlds(), RestEvents();
    HalfIsAtRest();
    HalfStaysInformed(100 * SECOND, 200 * SECOND);
    assert ws[1] == Next(CONFIG, ws[0], es[0]);
    assert ws[2] == Next(CONFIG, ws[1], es[1]);
    assert ws[3] == Next(CONFIG, ws[2], es[2]);
  }

  lemma {:induction false} Moves(ws: seq<World>, es: seq<Event>)
    requires IsRun(CONFIG, ws, es) && 2 < |es| && RestartsAtRest(CONFIG, ws, es, 0, 2, 201.0, 2, 100.5)
    requires ws[0].cr == Some(RESOURCE) && es[2].o.scaleAccepted
    ensures ScaledAt(CONFIG, ws, es, 2, true)
  {
    assert 100.5.Floor == 100 && Ceil(201.0 / 100.0) == 3;
    assert EffectiveOf(CONFIG, RESOURCE) == EFFECTIVE;
    FixedPointAcrossRestart(CONFIG, ws, es, 0, 2, 201.0, 2, 100.5);
    AfterTheCrash(CONFIG, ws, es, 0, 2, 201.0, 2, 100.5);
    StepReplicas(CONFIG, ws[2], es[2].o);
    RestartScalesUp(CONFIG, ws, es, 0, 2, 201.0, 2, 100.5);
  }

  /** Nothing about the load changes, and yet the restart adds a replica. */
  lemma {:induction false} RestartMovesARestingLoop()
    ensures IsRun(CONFIG, RestWorlds(), RestEvents())
    ensures RestartsAtRest(CONFIG, RestWorlds(), RestEvents(), 0, 2, 201.0, 2, 100.5)
    ensures ScaledAt(CONFIG, RestWorlds(), RestEvents(), 2, true)
  {
    RestIsRun();
    Moves(RestWorlds(), RestEvents());
  }
}
