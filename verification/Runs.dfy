/** Runs of the scaling loop: reconciles with any outcomes, controller crashes, and outside edits,
    in any order. Cooldowns hold over whole runs. */
module Runs {
  import opened Prelude
  import opened ControllerState
  import opened Decision
  import opened Api
  import opened Reconcile

  /** An edit is anything others do to the resource or the Deployment: operators, the classifier, or
      someone rescaling by hand. Only the status fields the controller owns are out of their reach. */
  datatype Event =
    | Step(o: Observed)
    | Crash
    | Edit(spec: Spec, killSwitch: bool, deleting: bool, classified: Option<ClassifiedParams>,
           deployment: Option<Option<int32>>)

  function Next(cfg: Config, w: World, e: Event): World {
    match e
    case Step(o) => Reconciled(cfg, w, o)
    case Crash => w.(mem := None)
    case Edit(spec, killSwitch, deleting, classified, deployment) =>
      if w.cr.None? then w
      else World(Some(CR(spec, w.cr.value.status.(classified := classified), killSwitch, deleting)),
                 deployment, w.mem)
  }

  /** The worlds a sequence of events passes through, one resource's lifetime. */
  ghost predicate IsRun(cfg: Config, ws: seq<World>, es: seq<Event>) {
    && |ws| == |es| + 1
    && ws[0].cr.Some?
    && forall k :: 0 <= k < |es| ==> ws[k + 1] == Next(cfg, ws[k], es[k])
  }

  lemma {:induction false} ResourceStays(cfg: Config, ws: seq<World>, es: seq<Event>, k: nat)
    requires IsRun(cfg, ws, es) && k < |ws|
    ensures ws[k].cr.Some?
  {
    if k > 0 {
      ResourceStays(cfg, ws, es, k - 1);
      assert ws[k] == Next(cfg, ws[k - 1], es[k - 1]);
    }
  }

  ghost predicate MonotoneClock(es: seq<Event>) {
    forall i, j :: 0 <= i < j < |es| && es[i].Step? && es[j].Step? ==> es[i].o.now <= es[j].o.now
  }

  function PatchAt(cfg: Config, w: World, e: Event): Option<Patch> {
    if e.Step? then PatchOf(cfg, w, e.o) else None
  }

  predicate IsUp(p: Patch) { p.target > p.current }

  /** The step is non-negative and its limit stays inside 32 bits. */
  predicate StepFits(p: Patch) { 0 <= p.params.maxStep && MoveFits(p.current, p.recommended, p.params.maxStep) }

  /** No count or step is negative. The /scale endpoint accepts no negative target. */
  predicate Natural(p: Patch) { 0 <= p.current && 0 <= p.target && 0 <= p.params.maxStep }

  /** A wrapped step would show in a negative target, so an accepted patch between natural counts fits. */
  lemma {:induction false} NaturalPatchFits(cfg: Config, w: World, o: Observed)
    requires PatchOf(cfg, w, o).Some? && Natural(PatchOf(cfg, w, o).value)
    ensures StepFits(PatchOf(cfg, w, o).value)
  {
    var plan := DecisionOf(cfg, w, o);
    var spec := w.cr.value.spec;
    var binding := ClampRecommended(plan.unbounded, MinReplicasOf(spec), MaxReplicasOf(spec)).1;
    var x := CapInputOf(plan.mem, plan.params, plan.current, o.now, plan.recommended, binding);
    assert plan.out == ApplyCapAndCooldown(x);
    NaturalMoveFits(x);
  }

  ghost predicate StepsFit(cfg: Config, ws: seq<World>, es: seq<Event>)
    requires IsRun(cfg, ws, es)
  {
    forall k :: 0 <= k < |es| && PatchAt(cfg, ws[k], es[k]).Some? ==> StepFits(PatchAt(cfg, ws[k], es[k]).value)
  }

  ghost predicate NaturalCounts(cfg: Config, ws: seq<World>, es: seq<Event>)
    requires |es| < |ws|
  {
    forall k :: 0 <= k < |es| && PatchAt(cfg, ws[k], es[k]).Some? ==> Natural(PatchAt(cfg, ws[k], es[k]).value)
  }

  /** What the run theorems ask of the steps holds as soon as no accepted count is negative. */
  lemma {:induction false} NaturalCountsFit(cfg: Config, ws: seq<World>, es: seq<Event>)
    requires IsRun(cfg, ws, es) && NaturalCounts(cfg, ws, es)
    ensures StepsFit(cfg, ws, es)
  {
    forall k | 0 <= k < |es| && PatchAt(cfg, ws[k], es[k]).Some?
      ensures StepFits(PatchAt(cfg, ws[k], es[k]).value)
    {
      NaturalPatchFits(cfg, ws[k], es[k].o);
    }
  }

  predicate PatchedAt(cfg: Config, ws: seq<World>, es: seq<Event>, k: nat)
    requires k < |es| < |ws|
  {
    PatchAt(cfg, ws[k], es[k]).Some?
  }

  predicate ScaledAt(cfg: Config, ws: seq<World>, es: seq<Event>, k: nat, up: bool)
    requires k < |es| < |ws|
  {
    PatchedAt(cfg, ws, es, k) && IsUp(PatchAt(cfg, ws[k], es[k]).value) == up
  }

  function TimeAt(cfg: Config, ws: seq<World>, es: seq<Event>, k: nat): int
    requires k < |es| < |ws| && PatchedAt(cfg, ws, es, k)
  {
    PatchAt(cfg, ws[k], es[k]).value.at
  }

  /** The cooldown in force at a patch, in its direction. */
  function CooldownAt(cfg: Config, ws: seq<World>, es: seq<Event>, k: nat, up: bool): int
    requires k < |es| < |ws| && PatchedAt(cfg, ws, es, k)
  {
    var params := PatchAt(cfg, ws[k], es[k]).value.params;
    (if up then params.cooldownUp else params.cooldownDown) * SECOND
  }

  // ---------------------------------------------------------------- one step

  function ClockIn(st: CRState, up: bool): Option<int> { if up then st.lastScaleUp else st.lastScaleDown }

  /** The clock the next decision will consult. */
  function Clock(w: World, up: bool): Option<int>
    requires w.cr.Some?
  {
    ClockIn(StateFor(w.mem, w.cr.value), up)
  }

  function StampOf(w: World): Option<int>
    requires w.cr.Some?
  {
    w.cr.value.status.lastScaleTime
  }

  /** A step moves a clock only by patching in that direction, and then to the patch's instant. */
  lemma {:induction false} StepClock(cfg: Config, w: World, o: Observed, up: bool)
    requires w.cr.Some?
    ensures Reconciled(cfg, w, o).cr.Some?
    ensures Clock(Reconciled(cfg, w, o), up)
         == if PatchOf(cfg, w, o).Some? && IsUp(PatchOf(cfg, w, o).value) == up then Some(o.now) else Clock(w, up)
  {
    if Informed(cfg, w, o) {
      var plan := DecisionOf(cfg, w, o);
      assert plan.mem.initialized;
      assert ClockIn(plan.mem, up) == Clock(w, up);
      assert Reconciled(cfg, w, o) == Decided(cfg, w, o);
    }
  }

  /** The persisted stamp changes only by a patch whose status write succeeds. */
  lemma {:induction false} StepStamp(cfg: Config, w: World, o: Observed)
    requires w.cr.Some?
    ensures Reconciled(cfg, w, o).cr.Some?
    ensures StampOf(Reconciled(cfg, w, o))
         == if PatchOf(cfg, w, o).Some? && o.statusAccepted then Some(Persisted(o.now)) else StampOf(w)
  {
    if Informed(cfg, w, o) {
      assert Reconciled(cfg, w, o) == Decided(cfg, w, o);
    }
  }

  /** A patch goes through only when the clock of its direction is at least the cooldown old. */
  lemma {:induction false} PatchRespectsClock(cfg: Config, w: World, o: Observed)
    requires PatchOf(cfg, w, o).Some? && StepFits(PatchOf(cfg, w, o).value)
    ensures var p := PatchOf(cfg, w, o).value;
            p.at == o.now
            && !Holding(o.now, Clock(w, IsUp(p)), if IsUp(p) then p.params.cooldownUp else p.params.cooldownDown)
  {
    var plan := DecisionOf(cfg, w, o);
    assert ClockIn(plan.mem, true) == Clock(w, true) && ClockIn(plan.mem, false) == Clock(w, false);
  }

  // ---------------------------------------------------------------- clocks over runs

  predicate CoveredBy(clock: Option<int>, t: int) { clock.Some? && t <= clock.value }

  /** Every crash finds the latest patch's stamp written. */
  ghost predicate DurableCrashes(cfg: Config, ws: seq<World>, es: seq<Event>)
    requires IsRun(cfg, ws, es)
  {
    forall c, p :: 0 <= p < c < |es| && es[c].Crash? && PatchedAt(cfg, ws, es, p)
                   && (forall q :: p < q < c ==> !PatchedAt(cfg, ws, es, q))
      ==> es[p].o.statusAccepted
  }

  lemma {:induction false} StampAfterPatch(cfg: Config, ws: seq<World>, es: seq<Event>, p: nat, k: nat)
    requires IsRun(cfg, ws, es) && p < k <= |es|
    requires PatchedAt(cfg, ws, es, p) && es[p].o.statusAccepted
    requires forall q :: p < q < k ==> !PatchedAt(cfg, ws, es, q)
    ensures ws[k].cr.Some? && StampOf(ws[k]) == Some(Persisted(TimeAt(cfg, ws, es, p)))
  {
    ResourceStays(cfg, ws, es, k - 1);
    assert ws[k] == Next(cfg, ws[k - 1], es[k - 1]);
    if es[k - 1].Step? {
      StepStamp(cfg, ws[k - 1], es[k - 1].o);
    }
    if p + 1 < k {
      StampAfterPatch(cfg, ws, es, p, k - 1);
      assert !PatchedAt(cfg, ws, es, k - 1);
    }
  }

  lemma {:induction false} LatestTrue(holds: nat -> bool, i: nat, c: nat) returns (p: nat)
    requires i < c && holds(i)
    ensures i <= p < c && holds(p)
    ensures forall q: nat :: p < q < c ==> !holds(q)
  {
    if holds(c - 1) {
      p := c - 1;
    } else {
      p := LatestTrue(holds, i, c - 1);
    }
  }

  lemma {:induction false} LatestPatch(cfg: Config, ws: seq<World>, es: seq<Event>, i: nat, c: nat) returns (p: nat)
    requires IsRun(cfg, ws, es) && i < c <= |es|
    requires PatchedAt(cfg, ws, es, i)
    ensures i <= p < c && PatchedAt(cfg, ws, es, p)
    ensures forall q :: p < q < c ==> !PatchedAt(cfg, ws, es, q)
  {
    var patched := (k: nat) => k < |es| < |ws| && PatchedAt(cfg, ws, es, k);
    p := LatestTrue(patched, i, c);
    forall q | p < q < c ensures !PatchedAt(cfg, ws, es, q) {
      assert !patched(q);
    }
  }

  lemma {:induction false} PersistedMonotone(s: int, t: int)
    requires s <= t
    ensures Persisted(s) <= Persisted(t)
  {
    if s < t && t < Persisted(s) + SECOND {
      assert t % SECOND == s % SECOND + (t - s);
    }
  }

  lemma {:induction false} PatchTimesAscend(cfg: Config, ws: seq<World>, es: seq<Event>, i: nat, p: nat)
    requires MonotoneClock(es) && i <= p < |es| < |ws|
    requires PatchedAt(cfg, ws, es, i) && PatchedAt(cfg, ws, es, p)
    ensures Persisted(TimeAt(cfg, ws, es, i)) <= Persisted(TimeAt(cfg, ws, es, p))
  {
    assert TimeAt(cfg, ws, es, i) == es[i].o.now && TimeAt(cfg, ws, es, p) == es[p].o.now;
    PersistedMonotone(es[i].o.now, es[p].o.now);
  }

  lemma {:induction false} StampAtCrash(cfg: Config, ws: seq<World>, es: seq<Event>, i: nat, c: nat)
    requires IsRun(cfg, ws, es) && MonotoneClock(es) && DurableCrashes(cfg, ws, es)
    requires i < c < |es| && es[c].Crash? && PatchedAt(cfg, ws, es, i)
    ensures ws[c].cr.Some? && CoveredBy(StampOf(ws[c]), Persisted(TimeAt(cfg, ws, es, i)))
  {
    var p := LatestPatch(cfg, ws, es, i, c);
    StampAfterPatch(cfg, ws, es, p, c);
    PatchTimesAscend(cfg, ws, es, i, p);
  }

  ghost predicate CrashBetween(es: seq<Event>, i: nat, k: nat)
    requires k <= |es|
  {
    exists c :: i < c < k && es[c].Crash?
  }

  lemma {:induction false} ClockAfterPatch(cfg: Config, ws: seq<World>, es: seq<Event>, i: nat, up: bool)
    requires IsRun(cfg, ws, es) && i < |es| && ScaledAt(cfg, ws, es, i, up)
    ensures ws[i + 1].cr.Some? && Clock(ws[i + 1], up) == Some(TimeAt(cfg, ws, es, i))
  {
    ResourceStays(cfg, ws, es, i);
    assert ws[i + 1] == Next(cfg, ws[i], es[i]);
    StepClock(cfg, ws[i], es[i].o, up);
  }

  /** One event carries the cover of an earlier instant forward; a crash does so if the stamp covers it. */
  lemma {:induction false} NextKeepsCover(cfg: Config, w: World, e: Event, up: bool, t: int)
    requires w.cr.Some? && CoveredBy(Clock(w, up), t)
    requires e.Step? ==> t <= e.o.now
    requires e.Crash? ==> CoveredBy(StampOf(w), t)
    ensures Next(cfg, w, e).cr.Some? && CoveredBy(Clock(Next(cfg, w, e), up), t)
  {
    if e.Step? {
      StepClock(cfg, w, e.o, up);
    }
  }

  predicate CoveredAt(w: World, up: bool, t: int) { w.cr.Some? && CoveredBy(Clock(w, up), t) }

  ghost predicate CrashesCover(ws: seq<World>, es: seq<Event>, from: nat, to: nat, t: int)
    requires to <= |es| < |ws|
  {
    forall c :: from <= c < to && es[c].Crash? ==> ws[c].cr.Some? && CoveredBy(StampOf(ws[c]), t)
  }

  lemma {:induction false} CoverPersists(cfg: Config, ws: seq<World>, es: seq<Event>, from: nat, k: nat,
                                         up: bool, t: int)
    requires IsRun(cfg, ws, es) && from <= k <= |es|
    requires CoveredAt(ws[from], up, t)
    requires forall j :: from <= j < k && es[j].Step? ==> t <= es[j].o.now
    requires CrashesCover(ws, es, from, k, t)
    ensures CoveredAt(ws[k], up, t)
  {
    if from < k {
      CoverPersists(cfg, ws, es, from, k - 1, up, t);
      assert ws[k] == Next(cfg, ws[k - 1], es[k - 1]);
      NextKeepsCover(cfg, ws[k - 1], es[k - 1], up, t);
    }
  }

  /** From a patch on, the clock of its direction never falls behind the patch, except that a crash may
      round it down to the second. */
  lemma {:induction false} ClockCovers(cfg: Config, ws: seq<World>, es: seq<Event>, i: nat, k: nat, up: bool)
    requires IsRun(cfg, ws, es) && MonotoneClock(es) && DurableCrashes(cfg, ws, es)
    requires i < k < |es| && ScaledAt(cfg, ws, es, i, up)
    ensures CoveredAt(ws[k], up, Persisted(TimeAt(cfg, ws, es, i)))
    ensures !CrashBetween(es, i, k) ==> CoveredAt(ws[k], up, TimeAt(cfg, ws, es, i))
  {
    var t := TimeAt(cfg, ws, es, i);
    assert t == es[i].o.now;
    ClockAfterPatch(cfg, ws, es, i, up);
    forall c | i + 1 <= c < k && es[c].Crash?
      ensures ws[c].cr.Some? && CoveredBy(StampOf(ws[c]), Persisted(t))
    {
      StampAtCrash(cfg, ws, es, i, c);
    }
    CoverPersists(cfg, ws, es, i + 1, k, up, Persisted(t));
    if !CrashBetween(es, i, k) {
      CoverPersists(cfg, ws, es, i + 1, k, up, t);
    }
  }

  /** Cooldown safety: in any run, two patches in one direction are at least the cooldown in force at the
      later one apart; a crash between them can shave off only what rounding the earlier instant down to
      whole seconds loses. */
  lemma {:induction false} CooldownSafety(cfg: Config, ws: seq<World>, es: seq<Event>, i: nat, j: nat, up: bool)
    requires IsRun(cfg, ws, es) && MonotoneClock(es) && DurableCrashes(cfg, ws, es)
    requires i < j < |es| && ScaledAt(cfg, ws, es, i, up) && ScaledAt(cfg, ws, es, j, up)
    requires StepFits(PatchAt(cfg, ws[j], es[j]).value)
    ensures TimeAt(cfg, ws, es, j) - Persisted(TimeAt(cfg, ws, es, i)) >= CooldownAt(cfg, ws, es, j, up)
    ensures !CrashBetween(es, i, j) || TimeAt(cfg, ws, es, i) % SECOND == 0
            ==> TimeAt(cfg, ws, es, j) - TimeAt(cfg, ws, es, i) >= CooldownAt(cfg, ws, es, j, up)
  {
    ClockCovers(cfg, ws, es, i, j, up);
    assert PatchedAt(cfg, ws, es, j);
    PatchRespectsClock(cfg, ws[j], es[j].o);
  }

  // ---------------------------------------------------------------- when a restart loosens a cooldown

  /** A restart never lets a patch through earlier than staying up would, at any instant and for any
      cooldown, exactly when the persisted stamp is no older than the clock in memory. */
  lemma {:induction false} RestartKeepsCooldown(cfg: Config, w: World, up: bool)
    requires w.cr.Some? && w.mem.Some? && w.mem.value.initialized
    ensures (forall now: int, cooldown: int32 ::
               Holding(now, Clock(w, up), cooldown) ==> Holding(now, Clock(Next(cfg, w, Crash), up), cooldown))
            <==> (Clock(w, up).None? || CoveredBy(StampOf(w), Clock(w, up).value))
  {
    var before, after := Clock(w, up), Clock(Next(cfg, w, Crash), up);
    assert after == StampOf(w);
    if before.Some? && !CoveredBy(after, before.value) {
      var now := before.value;
      var cooldown: int32 := 1;
      if after.Some? && now - after.value < SECOND {
        now := after.value + SECOND;
      }
      assert Holding(now, before, cooldown) && !Holding(now, after, cooldown);
    }
  }

  /** The stamp a patch has just written covers its clock exactly when the patch fell on a whole second. */
  lemma {:induction false} FreshStampCovers(cfg: Config, w: World, o: Observed)
    requires w.cr.Some? && PatchOf(cfg, w, o).Some? && o.statusAccepted
    ensures var w' := Reconciled(cfg, w, o);
            var up := IsUp(PatchOf(cfg, w, o).value);
            w'.cr.Some? && Clock(w', up) == Some(o.now)
            && (CoveredBy(StampOf(w'), o.now) <==> o.now % SECOND == 0)
  {
    StepClock(cfg, w, o, IsUp(PatchOf(cfg, w, o).value));
    StepStamp(cfg, w, o);
  }
}
