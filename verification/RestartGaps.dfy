/** Two concrete runs on which a crash shortens a cooldown: a lost status write loses the clock
    altogether, and a patch off the whole second loses its fraction. */
module RestartGaps {
  import opened Prelude
  import opened Decision
  import opened Api
  import opened Reconcile
  import opened Runs

  const CONFIG := Config(60 * SECOND, 1, 10, DefaultParams(60, 300, 4))

  const RESOURCE := CR(
    Spec("web", Some(2), Some(10), Some(50), Some(500), SpecParams(None, None, None, None)),
    Status(Unset, None, 0, 0, 0, 0, 100, None, None),
    false, false)

  const START := World(Some(RESOURCE), Some(Some(2)), None)

  /** Idle load, a forecast of 1000 requests per second, and every call accepted but perhaps the status write. */
  function Surge(now: int, statusAccepted: bool): Observed {
    Observed(now, NoConflict, Some(0.0), Some([Sample(now, 0.0)]), Some(1000.0), true, statusAccepted, 0)
  }

  const EFFECTIVE := EffectiveParams(60, 300, 4, "auto")

  predicate SurgeReady(w: World, replicas: int32) {
    && w.cr.Some? && w.cr.value.spec == RESOURCE.spec
    && !w.cr.value.killSwitch && !w.cr.value.deleting
    && w.cr.value.status.classified.None?
    && w.cr.value.status.rpsPerPodCurrent == 100
    && w.deployment == Some(Some(replicas))
    && w.mem.None?
  }

  /** A freshly restarted controller under a surge adds four replicas unless the persisted clock holds it. */
  lemma {:induction false} SurgeScalesUp(w: World, now: int, statusAccepted: bool, replicas: int32)
    requires SurgeReady(w, replicas) && replicas in {2, 6}
    requires !Holding(now, StampOf(w), 60)
    ensures PatchOf(CONFIG, w, Surge(now, statusAccepted))
         == Some(Patch(now, replicas, replicas + 4, 10, EFFECTIVE))
    ensures var w' := Reconciled(CONFIG, w, Surge(now, statusAccepted));
            && SurgeReady(w'.(mem := None), replicas + 4)
            && StampOf(w') == if statusAccepted then Some(Persisted(now)) else StampOf(w)
  {
    var o := Surge(now, statusAccepted);
    var cr := w.cr.value;
    var st := StateFor(w.mem, cr);
    assert Informed(CONFIG, w, o);
    assert st.rpsPerPod == 100.0 && st.lastScaleUp == StampOf(w);
    assert Fold(CONFIG, st, 0.0, replicas, now) == st;
    assert 1000.0 / 100.0 == 10.0;
    assert EffectiveOf(CONFIG, cr) == EFFECTIVE;
    var plan := DecisionOf(CONFIG, w, o);
    assert plan.rpsPerPod == 100.0 && plan.unbounded == 10 && plan.recommended == 10;
    assert plan.out == CapOutput(replicas + 4, if replicas == 2 then StepCappedUp else ScaleUp, true);
    assert Reconciled(CONFIG, w, o) == Decided(CONFIG, w, o);
  }

  function TwoSurges(first: int, durable: bool, second: int): seq<Event> {
    [Step(Surge(first, durable)), Crash, Step(Surge(second, true))]
  }

  function WorldsOf(es: seq<Event>): seq<World>
    requires |es| == 3
  {
    var w1 := Next(CONFIG, START, es[0]);
    var w2 := Next(CONFIG, w1, es[1]);
    [START, w1, w2, Next(CONFIG, w2, es[2])]
  }

  /** Both surges patch upward whenever what the first one persisted does not hold the second. */
  lemma {:induction false} BothPatch(first: int, durable: bool, second: int)
    requires !Holding(second, if durable then Some(Persisted(first)) else None, 60)
    ensures var es := TwoSurges(first, durable, second);
            var ws := WorldsOf(es);
            && IsRun(CONFIG, ws, es)
            && PatchAt(CONFIG, ws[0], es[0]) == Some(Patch(first, 2, 6, 10, EFFECTIVE))
            && PatchAt(CONFIG, ws[1], es[1]) == None
            && PatchAt(CONFIG, ws[2], es[2]) == Some(Patch(second, 6, 10, 10, EFFECTIVE))
  {
    var es := TwoSurges(first, durable, second);
    var ws := WorldsOf(es);
    SurgeScalesUp(START, first, durable, 2);
    SurgeScalesUp(ws[2], second, true, 6);
  }

  /** When the status write of a patch is lost and the controller restarts, the next scale-up may follow at
      once: here after one second of a sixty-second cooldown, in a run that meets every other hypothesis
      of cooldown safety. */
  lemma {:induction false} LostStampLosesCooldown()
    ensures var es := TwoSurges(100 * SECOND, false, 101 * SECOND);
            var ws := WorldsOf(es);
            && IsRun(CONFIG, ws, es) && MonotoneClock(es) && StepsFit(CONFIG, ws, es)
            && ScaledAt(CONFIG, ws, es, 0, true) && ScaledAt(CONFIG, ws, es, 2, true)
            && !DurableCrashes(CONFIG, ws, es)
            && TimeAt(CONFIG, ws, es, 2) - TimeAt(CONFIG, ws, es, 0) < CooldownAt(CONFIG, ws, es, 2, true)
  {
    BothPatch(100 * SECOND, false, 101 * SECOND);
    var es := TwoSurges(100 * SECOND, false, 101 * SECOND);
    var ws := WorldsOf(es);
    assert es[1].Crash? && PatchedAt(CONFIG, ws, es, 0) && !es[0].o.statusAccepted;
  }

  /** Even with every write durable, a patch at nine tenths of a second lets the next follow a restart
      after 59.1 seconds of a sixty-second cooldown. */
  lemma {:induction false} FractionIsLost()
    ensures var es := TwoSurges(100_900_000_000, true, 160 * SECOND);
            var ws := WorldsOf(es);
            && IsRun(CONFIG, ws, es) && MonotoneClock(es) && StepsFit(CONFIG, ws, es)
            && DurableCrashes(CONFIG, ws, es)
            && ScaledAt(CONFIG, ws, es, 0, true) && ScaledAt(CONFIG, ws, es, 2, true)
            && TimeAt(CONFIG, ws, es, 2) - TimeAt(CONFIG, ws, es, 0) == 59_100_000_000
            && CooldownAt(CONFIG, ws, es, 2, true) == 60 * SECOND
  {
    assert Persisted(100_900_000_000) == 100 * SECOND;
    BothPatch(100_900_000_000, true, 160 * SECOND);
    var es := TwoSurges(100_900_000_000, true, 160 * SECOND);
    assert es[0].o.statusAccepted;
  }
}
