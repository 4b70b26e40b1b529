/** How soon a steady recommendation is reached when reconciles keep coming, whatever fails in between. */
module Progress {
  import opened Prelude
  import opened Decision
  import opened Reconcile
  import opened Runs
  import opened RampRate
  import opened Convergence

  /** The reconcile misses something it needs, or its patch would be refused. */
  predicate Fails(cfg: Config, w: World, o: Observed) { !Informed(cfg, w, o) || !o.scaleAccepted }

  /** A reconcile that fails, or pursues `goal` by steps of `m` under cooldowns of at most `c` seconds. */
  predicate DrivenStep(cfg: Config, w: World, e: Event, goal: int, m: nat, c: nat) {
    && e.Step?
    && (!Fails(cfg, w, e.o) ==>
          var plan := DecisionOf(cfg, w, e.o);
          && plan.recommended == goal && plan.params.maxStep == m
          && plan.params.cooldownUp <= c && plan.params.cooldownDown <= c)
  }

  /** From `a` to `b` there are only such reconciles, at most `period` apart. */
  ghost predicate Driven(cfg: Config, ws: seq<World>, es: seq<Event>, a: nat, b: nat, goal: int, m: nat, c: nat,
                         period: nat)
    requires b <= |es| < |ws|
  {
    && (forall k :: a <= k < b ==> DrivenStep(cfg, ws[k], es[k], goal, m, c))
    && (forall j, k :: a <= j < k < b && k == j + 1 && es[j].Step? && es[k].Step? ==>
          es[k].o.now - es[j].o.now <= period)
  }

  lemma {:induction false} DrivenIsSteady(cfg: Config, ws: seq<World>, es: seq<Event>, a: nat, b: nat,
                                          goal: int, m: nat, c: nat, period: nat)
    requires b <= |es| < |ws| && Driven(cfg, ws, es, a, b, goal, m, c, period)
    ensures Steady(cfg, ws, es, a, b, goal, m)
  {
    forall k | a <= k < b && PatchedAt(cfg, ws, es, k)
      ensures PatchAt(cfg, ws[k], es[k]).value.recommended == goal
      ensures PatchAt(cfg, ws[k], es[k]).value.params.maxStep == m
    {
      assert DrivenStep(cfg, ws[k], es[k], goal, m, c);
    }
  }

  predicate Toward(w: World, goal: int) { goal > ReplicasOf(w) }

  /** With a gap to close, a driven reconcile that does not fail patches unless a cooldown of its direction holds it. */
  lemma {:induction false} PatchesOrHeld(cfg: Config, w: World, e: Event, goal: int, m: nat, c: nat)
    requires DrivenStep(cfg, w, e, goal, m, c) && !Fails(cfg, w, e.o) && m >= 1 && Gap(w, goal) > 0
    ensures PatchOf(cfg, w, e.o).None? ==>
              Clock(w, Toward(w, goal)).Some? && e.o.now - Clock(w, Toward(w, goal)).value < c * SECOND
  {
    WhenAStepPatches(cfg, w, e.o);
    var plan := DecisionOf(cfg, w, e.o);
    assert plan.current == ReplicasOf(w);
    var cooldown: int := if Toward(w, goal) then plan.params.cooldownUp else plan.params.cooldownDown;
    assert cooldown * SECOND <= c * SECOND;
  }

  /** A patch never crosses the goal: while a gap remains it stays on the same side. */
  lemma {:induction false} SameSide(cfg: Config, ws: seq<World>, es: seq<Event>, a: nat, b: nat, k: nat,
                                    goal: int, m: nat)
    requires Stretch(cfg, ws, es, a, b) && Steady(cfg, ws, es, a, b, goal, m) && a <= k < b
    requires Gap(ws[k + 1], goal) > 0
    ensures Gap(ws[k], goal) > 0 && Toward(ws[k + 1], goal) == Toward(ws[k], goal)
    ensures PatchedAt(cfg, ws, es, k) ==> ScaledAt(cfg, ws, es, k, Toward(ws[k], goal))
  {
    if PatchedAt(cfg, ws, es, k) {
      PatchedReplicas(cfg, ws, es, k);
    } else {
      QuietReplicas(cfg, ws, es, a, b, k);
    }
  }

  predicate ClockWithin(w: World, up: bool, bound: int) {
    w.cr.Some? && (Clock(w, up).Some? ==> Clock(w, up).value <= bound)
  }

  /** What one driven reconcile does to the time bound: a patch allows one round more; a failure costs no more than the
      wait for the next reconcile. */
  lemma {:induction false} OneMoreRound(cfg: Config, ws: seq<World>, es: seq<Event>, a: nat, b: nat, k: nat,
                                        goal: int, m: nat, c: nat, bound: int, round: nat)
    requires Stretch(cfg, ws, es, a, b) && Steady(cfg, ws, es, a, b, goal, m) && a <= k < b && m >= 1
    requires DrivenStep(cfg, ws[k], es[k], goal, m, c) && Gap(ws[k + 1], goal) > 0
    requires ClockWithin(ws[k], Toward(ws[k], goal), bound) && es[k].o.now <= bound + round && c * SECOND <= round
    ensures Toward(ws[k + 1], goal) == Toward(ws[k], goal)
    ensures ClockWithin(ws[k + 1], Toward(ws[k], goal), if PatchedAt(cfg, ws, es, k) then bound + round else bound)
    ensures !PatchedAt(cfg, ws, es, k) && !Fails(cfg, ws[k], es[k].o) ==> es[k].o.now <= bound + c * SECOND
  {
    var up := Toward(ws[k], goal);
    SameSide(cfg, ws, es, a, b, k, goal, m);
    if !Fails(cfg, ws[k], es[k].o) {
      PatchesOrHeld(cfg, ws[k], es[k], goal, m, c);
    }
    assert ws[k + 1] == Next(cfg, ws[k], es[k]);
    StepClock(cfg, ws[k], es[k].o, up);
  }

  /** The next reconcile happens, and its clock stands, within `bound` and one round. */
  predicate OnTime(w: World, e: Event, goal: int, bound: int, round: nat) {
    ClockWithin(w, Toward(w, goal), bound) && e.Step? && e.o.now <= bound + round
  }

  predicate FailedAt(cfg: Config, ws: seq<World>, es: seq<Event>, k: nat)
    requires k < |es| < |ws|
  {
    es[k].Step? && Fails(cfg, ws[k], es[k].o)
  }

  /** The bound after one more reconcile. */
  function NextBound(cfg: Config, ws: seq<World>, es: seq<Event>, k: nat, bound: int, round: nat, period: nat): int
    requires k < |es| < |ws|
  {
    if PatchedAt(cfg, ws, es, k) then bound + round else if FailedAt(cfg, ws, es, k) then bound + period else bound
  }

  lemma {:induction false} StaysOnTime(cfg: Config, ws: seq<World>, es: seq<Event>, a: nat, b: nat, j: nat, goal: int,
                                       m: nat, c: nat, period: nat, bound: int, round: nat)
    requires Stretch(cfg, ws, es, a, b) && Driven(cfg, ws, es, a, b, goal, m, c, period) && m >= 1
    requires a <= j < j + 1 < b && Gap(ws[j + 1], goal) > 0 && round == c * SECOND + period
    ensures OnTime(ws[j], es[j], goal, bound, round) ==>
              OnTime(ws[j + 1], es[j + 1], goal, NextBound(cfg, ws, es, j, bound, round, period), round)
  {
    DrivenIsSteady(cfg, ws, es, a, b, goal, m, c, period);
    assert DrivenStep(cfg, ws[j], es[j], goal, m, c) && DrivenStep(cfg, ws[j + 1], es[j + 1], goal, m, c);
    if OnTime(ws[j], es[j], goal, bound, round) {
      OneMoreRound(cfg, ws, es, a, b, j, goal, m, c, bound, round);
    }
  }

  function FailureMarks(cfg: Config, ws: seq<World>, es: seq<Event>): nat -> bool {
    (k: nat) => k < |es| < |ws| && FailedAt(cfg, ws, es, k)
  }

  /** Reconciles that failed from `a` to `b`. */
  function Failures(cfg: Config, ws: seq<World>, es: seq<Event>, a: nat, b: nat): nat
    requires a <= b
  {
    Hits(FailureMarks(cfg, ws, es), a, b)
  }

  function Deadline(start: int, patches: nat, round: nat, failures: nat, period: nat): int {
    start + patches * round + failures * period
  }

  lemma {:induction false} NextDeadline(start: int, n: nat, round: nat, f: nat, period: nat)
    ensures Deadline(start, n + 1, round, f, period) == Deadline(start, n, round, f, period) + round
    ensures Deadline(start, n, round, f + 1, period) == Deadline(start, n, round, f, period) + period
  {
    OneMoreHit(round, n);
    OneMoreHit(period, f);
  }

  /** On time for the deadline the patches and failures since `a` allow. */
  predicate OnTimeAt(cfg: Config, ws: seq<World>, es: seq<Event>, a: nat, k: nat, goal: int, round: nat, period: nat)
    requires a <= k < |es| < |ws| && es[a].Step?
  {
    var n, f := Patches(cfg, ws, es, a, k), Failures(cfg, ws, es, a, k);
    OnTime(ws[k], es[k], goal, Deadline(es[a].o.now, n, round, f, period), round)
  }

  lemma {:induction false} FailedIsNoPatch(cfg: Config, ws: seq<World>, es: seq<Event>, k: nat)
    requires k < |es| < |ws|
    ensures !(PatchedAt(cfg, ws, es, k) && FailedAt(cfg, ws, es, k))
  {}

  /** The deadline moves exactly as the bound does. */
  lemma {:induction false} DeadlineMoves(cfg: Config, ws: seq<World>, es: seq<Event>, a: nat, j: nat, start: int,
                                         round: nat, period: nat)
    requires a <= j < |es| < |ws|
    ensures Deadline(start, Patches(cfg, ws, es, a, j + 1), round, Failures(cfg, ws, es, a, j + 1), period)
         == NextBound(cfg, ws, es, j,
                      Deadline(start, Patches(cfg, ws, es, a, j), round, Failures(cfg, ws, es, a, j), period),
                      round, period)
  {
    var n, f := Patches(cfg, ws, es, a, j), Failures(cfg, ws, es, a, j);
    NextDeadline(start, n, round, f, period);
    FailedIsNoPatch(cfg, ws, es, j);
    assert Patches(cfg, ws, es, a, j + 1) == if PatchedAt(cfg, ws, es, j) then n + 1 else n;
    assert Failures(cfg, ws, es, a, j + 1) == if FailedAt(cfg, ws, es, j) then f + 1 else f;
  }

  lemma {:induction false} NextOnTime(cfg: Config, ws: seq<World>, es: seq<Event>, a: nat, b: nat, j: nat,
                                      goal: int, m: nat, c: nat, period: nat, round: nat)
    requires Stretch(cfg, ws, es, a, b) && Driven(cfg, ws, es, a, b, goal, m, c, period) && m >= 1
    requires a <= j < j + 1 < b && Gap(ws[j + 1], goal) > 0 && round == c * SECOND + period
    requires es[a].Step?
    ensures OnTimeAt(cfg, ws, es, a, j, goal, round, period) ==> OnTimeAt(cfg, ws, es, a, j + 1, goal, round, period)
  {
    var n, f := Patches(cfg, ws, es, a, j), Failures(cfg, ws, es, a, j);
    StaysOnTime(cfg, ws, es, a, b, j, goal, m, c, period, Deadline(es[a].o.now, n, round, f, period), round);
    DeadlineMoves(cfg, ws, es, a, j, es[a].o.now, round, period);
  }

  lemma {:induction false} StartsOnTime(cfg: Config, ws: seq<World>, es: seq<Event>, a: nat, goal: int, round: nat,
                                        period: nat)
    requires a < |es| < |ws| && es[a].Step?
    requires ClockWithin(ws[a], true, es[a].o.now) && ClockWithin(ws[a], false, es[a].o.now)
    ensures OnTimeAt(cfg, ws, es, a, a, goal, round, period)
  {
    assert Patches(cfg, ws, es, a, a) == 0 && Failures(cfg, ws, es, a, a) == 0;
    assert Deadline(es[a].o.now, 0, round, 0, period) == es[a].o.now;
  }

  lemma {:induction false} GapBefore(cfg: Config, ws: seq<World>, es: seq<Event>, a: nat, b: nat, j: nat,
                                     goal: int, m: nat, c: nat, period: nat)
    requires Stretch(cfg, ws, es, a, b) && Driven(cfg, ws, es, a, b, goal, m, c, period)
    requires a <= j < b && Gap(ws[j + 1], goal) > 0
    ensures Gap(ws[j], goal) > 0
  {
    DrivenIsSteady(cfg, ws, es, a, b, goal, m, c, period);
    SameSide(cfg, ws, es, a, b, j, goal, m);
  }

  /** While a gap remains, time is bounded by the patches made, one cooldown and one period each and one more, and by
      the failures, one period each. */
  lemma {:induction false} TimeBound(cfg: Config, ws: seq<World>, es: seq<Event>, a: nat, b: nat, k: nat,
                                     goal: int, m: nat, c: nat, period: nat, round: nat)
    requires Stretch(cfg, ws, es, a, b) && Driven(cfg, ws, es, a, b, goal, m, c, period) && m >= 1
    requires a <= k < b && Gap(ws[k], goal) > 0 && round == c * SECOND + period
    requires es[a].Step? && ClockWithin(ws[a], true, es[a].o.now) && ClockWithin(ws[a], false, es[a].o.now)
    ensures OnTimeAt(cfg, ws, es, a, k, goal, round, period)
    decreases k
  {
    if k == a {
      StartsOnTime(cfg, ws, es, a, goal, round, period);
    } else {
      var j: nat := k - 1;
      GapBefore(cfg, ws, es, a, b, j, goal, m, c, period);
      TimeBound(cfg, ws, es, a, b, j, goal, m, c, period, round);
      NextOnTime(cfg, ws, es, a, b, j, goal, m, c, period, round);
    }
  }

  lemma {:induction false} FewerThanNeeded(cfg: Config, ws: seq<World>, es: seq<Event>, a: nat, b: nat, k: nat,
                                           goal: int, m: nat, c: nat, period: nat)
    requires Stretch(cfg, ws, es, a, b) && Driven(cfg, ws, es, a, b, goal, m, c, period) && m >= 1
    requires a <= k < b && Gap(ws[k], goal) > 0
    ensures Patches(cfg, ws, es, a, k) < PatchesNeeded(Gap(ws[a], goal), m)
  {
    DrivenIsSteady(cfg, ws, es, a, b, goal, m, c, period);
    GapAfterPatches(cfg, ws, es, a, k, goal, m);
    PatchesNeededIsLeast(Gap(ws[a], goal), m, Patches(cfg, ws, es, a, k));
  }

  lemma {:induction false} OutOfTime(now: int, start: int, n: nat, needed: nat, round: nat, f: nat, period: nat)
    requires now <= Deadline(start, n, round, f, period) + round && n < needed
    ensures now <= Deadline(start, needed, round, f, period)
  {
    OneMoreHit(round, n);
    TimesMonotone(round, n + 1, needed);
  }

  lemma {:induction false} StillOnTime(cfg: Config, ws: seq<World>, es: seq<Event>, a: nat, b: nat, k: nat,
                                       goal: int, m: nat, c: nat, period: nat, round: nat)
    requires Stretch(cfg, ws, es, a, b) && Driven(cfg, ws, es, a, b, goal, m, c, period) && m >= 1
    requires a <= k < b && Gap(ws[k], goal) > 0 && round == c * SECOND + period
    requires es[a].Step? && ClockWithin(ws[a], true, es[a].o.now) && ClockWithin(ws[a], false, es[a].o.now)
    ensures es[k].Step?
    ensures es[k].o.now <= Deadline(es[a].o.now, PatchesNeeded(Gap(ws[a], goal), m), round,
                                    Failures(cfg, ws, es, a, k), period)
  {
    TimeBound(cfg, ws, es, a, b, k, goal, m, c, period, round);
    FewerThanNeeded(cfg, ws, es, a, b, k, goal, m, c, period);
    OutOfTime(es[k].o.now, es[a].o.now, Patches(cfg, ws, es, a, k), PatchesNeeded(Gap(ws[a], goal), m), round,
              Failures(cfg, ws, es, a, k), period);
  }

  /** Timely convergence: when reconciles come at most `period` apart, a steady recommendation is reached within
      ceil(gap / step) rounds of one cooldown and one period each, plus one period for every reconcile that failed, and
      kept from then on. */
  lemma {:induction false} ReachesInTime(cfg: Config, ws: seq<World>, es: seq<Event>, a: nat, b: nat, k: nat,
                                         goal: int, m: nat, c: nat, period: nat)
    requires Stretch(cfg, ws, es, a, b) && Driven(cfg, ws, es, a, b, goal, m, c, period) && m >= 1
    requires a <= k < b && es[a].Step? && es[k].Step?
    requires ClockWithin(ws[a], true, es[a].o.now) && ClockWithin(ws[a], false, es[a].o.now)
    ensures es[k].o.now > Deadline(es[a].o.now, PatchesNeeded(Gap(ws[a], goal), m), c * SECOND + period,
                                   Failures(cfg, ws, es, a, k), period) ==>
              ReplicasOf(ws[k]) == goal
  {
    if Gap(ws[k], goal) > 0 {
      StillOnTime(cfg, ws, es, a, b, k, goal, m, c, period, c * SECOND + period);
    }
  }
}
