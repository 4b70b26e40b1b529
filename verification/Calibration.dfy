/** Consequences over runs of what single reconciles read: the estimate follows the load, and a pinned cooldown is the
    one that is kept. */
module Calibration {
  import opened Prelude
  import opened OrderStatistics
  import opened Observations
  import opened Decision
  import opened Reconcile
  import opened Runs
  import opened RampRate
  import opened SelfCalibration
  import opened ReconcileLaws

  // ---------------------------------------------------------------- a pinned cooldown

  function PinnedCooldown(spec: SpecParams, up: bool): Option<int32> {
    if up then spec.scaleUpCooldown else spec.scaleDownCooldown
  }

  /** The two patches are at least `c` seconds apart. */
  predicate Apart(es: seq<Event>, i: nat, j: nat, c: int)
    requires i < |es| && j < |es| && es[i].Step? && es[j].Step?
  {
    es[j].o.now - es[i].o.now >= c * SECOND
  }

  /** Cooldown safety in the operator's terms: under a spec that pins `c` seconds for a direction, a patch in that
      direction comes `c` seconds after every earlier one, whatever was classified or defaulted; a crash in between can
      shave off a fraction of a second. */
  lemma {:induction false} PinnedCooldownSafety(cfg: Config, ws: seq<World>, es: seq<Event>, i: nat, j: nat, up: bool,
                                                c: int32)
    requires IsRun(cfg, ws, es) && MonotoneClock(es) && DurableCrashes(cfg, ws, es)
    requires i < j < |es| && ScaledAt(cfg, ws, es, i, up) && ScaledAt(cfg, ws, es, j, up)
    requires StepFits(PatchAt(cfg, ws[j], es[j]).value)
    requires ws[j].cr.Some? && PinnedCooldown(ws[j].cr.value.spec.params, up) == Some(c)
    ensures es[j].o.now - Persisted(es[i].o.now) >= c * SECOND
    ensures !CrashBetween(es, i, j) || es[i].o.now % SECOND == 0 ==> Apart(es, i, j, c)
  {
    CooldownSafety(cfg, ws, es, i, j, up);
    ParamsInForce(cfg, ws[j], es[j].o);
    assert TimeAt(cfg, ws, es, i) == es[i].o.now && TimeAt(cfg, ws, es, j) == es[j].o.now;
    assert CooldownAt(cfg, ws, es, j, up) == c * SECOND;
  }

  // ---------------------------------------------------------------- calibration

  /** The event passes the gate. */
  predicate Passes(cfg: Config, w: World, e: Event) { e.Step? && GateOpen(cfg, w, e.o) }

  /** The reconciles between `a` and `b` that pass the steady-state gate, as marks on the run. */
  function Open(cfg: Config, ws: seq<World>, es: seq<Event>): nat -> bool {
    (k: nat) => k < |es| < |ws| && Passes(cfg, ws[k], es[k])
  }

  predicate EndsIn(s: seq<real>, v: real, n: nat) {
    n <= |s| && forall i :: |s| - n <= i < |s| ==> s[i] == v
  }

  lemma {:induction false} NewestEndsIn(s: seq<real>, v: real, n: nat)
    requires |s| <= 10 && EndsIn(s, v, n)
    ensures EndsIn(Newest(s + [v], 10), v, Min(n + 1, 10))
  {}

  /** What `n` observations of `v` leave: their copies at the end of a window whose median is the estimate. */
  predicate Tracking(w: World, v: real, n: nat) {
    && w.cr.Some? && MemoryConsistent(w)
    && (n > 0 ==> w.mem.Some? && EndsIn(w.mem.value.observations, v, Min(n, 10)))
  }

  lemma {:induction false} WindowFits(w: World)
    requires w.cr.Some? && MemoryConsistent(w)
    ensures |Window(w)| <= 10
    ensures w.mem.Some? ==> Window(w) == w.mem.value.observations && Estimate(w) == w.mem.value.rpsPerPod
  {
    if w.mem.None? {
      RestoredRemembers(w.cr.value);
    }
  }

  /** A reconcile through the gate leaves a memory, and none loses one. */
  lemma {:induction false} MemoryStays(cfg: Config, w: World, o: Observed)
    requires w.cr.Some? && (GateOpen(cfg, w, o) || w.mem.Some?)
    ensures Reconciled(cfg, w, o).mem.Some?
  {
    if Informed(cfg, w, o) {
      assert Reconciled(cfg, w, o) == Decided(cfg, w, o);
    }
  }

  lemma {:induction false} TrackingStep(cfg: Config, w: World, o: Observed, v: real, n: nat)
    requires Tracking(w, v, n) && (GateOpen(cfg, w, o) ==> LoadPerPod(w, o) == v)
    ensures Tracking(Reconciled(cfg, w, o), v, if GateOpen(cfg, w, o) then n + 1 else n)
  {
    WindowFits(w);
    WindowLaw(cfg, w, o);
    StepRemembers(cfg, w, o);
    WindowFits(Reconciled(cfg, w, o));
    if GateOpen(cfg, w, o) || w.mem.Some? {
      MemoryStays(cfg, w, o);
    }
    if GateOpen(cfg, w, o) {
      NewestEndsIn(Window(w), v, Min(n, 10));
    }
  }

  /** The controller does not crash, and sees `v` per pod if it passes the gate. */
  predicate Sees(cfg: Config, w: World, e: Event, v: real) {
    !e.Crash? && (Passes(cfg, w, e) ==> LoadPerPod(w, e.o) == v)
  }

  lemma {:induction false} TrackingEvent(cfg: Config, w: World, e: Event, v: real, n: nat)
    requires Tracking(w, v, n) && Sees(cfg, w, e, v)
    ensures Tracking(Next(cfg, w, e), v, if Passes(cfg, w, e) then n + 1 else n)
  {
    if e.Step? {
      TrackingStep(cfg, w, e.o, v, n);
    }
  }

  /** From `a` to `b` the controller does not crash, and whatever passes the gate sees `v` per pod. */
  ghost predicate SeesOnly(cfg: Config, ws: seq<World>, es: seq<Event>, a: nat, b: nat, v: real)
    requires b <= |es| < |ws|
  {
    forall k :: a <= k < b ==> Sees(cfg, ws[k], es[k], v)
  }

  lemma {:induction false} TrackingNext(cfg: Config, ws: seq<World>, es: seq<Event>, a: nat, j: nat, v: real)
    requires IsRun(cfg, ws, es) && a <= j < |es|
    requires Tracking(ws[j], v, Hits(Open(cfg, ws, es), a, j)) && Sees(cfg, ws[j], es[j], v)
    ensures Tracking(ws[j + 1], v, Hits(Open(cfg, ws, es), a, j + 1))
  {
    var n := Hits(Open(cfg, ws, es), a, j);
    assert Hits(Open(cfg, ws, es), a, j + 1) == if Passes(cfg, ws[j], es[j]) then n + 1 else n;
    assert ws[j + 1] == Next(cfg, ws[j], es[j]);
    TrackingEvent(cfg, ws[j], es[j], v, n);
  }

  lemma {:induction false} TrackingRun(cfg: Config, ws: seq<World>, es: seq<Event>, a: nat, b: nat, v: real)
    requires IsRun(cfg, ws, es) && a <= b <= |es| && MemoryConsistent(ws[a])
    requires SeesOnly(cfg, ws, es, a, b, v)
    ensures Tracking(ws[b], v, Hits(Open(cfg, ws, es), a, b))
    decreases b
  {
    ResourceStays(cfg, ws, es, a);
    if a < b {
      var j: nat := b - 1;
      TrackingRun(cfg, ws, es, a, j, v);
      assert Sees(cfg, ws[j], es[j], v);
      TrackingNext(cfg, ws, es, a, j, v);
    }
  }

  lemma {:induction false} SixOfTen(s: seq<real>, v: real, n: nat)
    requires |s| <= 10 && 6 <= n && EndsIn(s, v, n)
    ensures Median(s) == v
  {
    CountBlock(s, |s| - n, |s|, Within(v, v));
    MajorityOfOneValue(s, v);
  }

  /** Calibration: in a run from a start of the controller, once six reconciles have passed the gate at the same load
      per pod, with any others between them and no crash, that is the estimate, whatever it was before. */
  lemma {:induction false} SixFoldsCalibrate(cfg: Config, ws: seq<World>, es: seq<Event>, a: nat, b: nat, v: real)
    requires IsRun(cfg, ws, es) && a <= b <= |es| && ws[0].mem.None?
    requires SeesOnly(cfg, ws, es, a, b, v) && Hits(Open(cfg, ws, es), a, b) >= 6
    ensures ws[b].cr.Some? && Estimate(ws[b]) == v
  {
    EstimateIsMedian(cfg, ws, es, a);
    TrackingRun(cfg, ws, es, a, b, v);
    WindowFits(ws[b]);
    SixOfTen(Window(ws[b]), v, Min(Hits(Open(cfg, ws, es), a, b), 10));
  }

  /** Five do not: after a restart at `q` and five observations of `q + 1` the estimate lies half way. */
  lemma {:induction false} FiveFoldsDoNot(q: real)
    ensures EndsIn(AfterRestart(q, Repeat(q + 1.0, 5)), q + 1.0, 5)
    ensures Median(AfterRestart(q, Repeat(q + 1.0, 5))) == q + 0.5
  {
    AfterRestartIs(q, Repeat(q + 1.0, 5));
    FiveMoveTheMedian(q);
  }
}
