/** Where a run takes the replica count: inside its bounds, and to a steady recommendation in exactly
    the number of patches the step size needs. */
module Convergence {
  import opened Prelude
  import opened Decision
  import opened Api
  import opened Reconcile
  import opened Runs
  import opened RampRate

  // ---------------------------------------------------------------- confinement

  /** The bounds in force stay in order and inside [lo, hi]. */
  predicate BoundsInside(w: World, lo: int, hi: int) {
    w.cr.Some? ==> lo <= MinReplicasOf(w.cr.value.spec) <= MaxReplicasOf(w.cr.value.spec) <= hi
  }

  lemma {:induction false} RecommendedInside(cfg: Config, w: World, o: Observed, lo: int, hi: int)
    requires PatchOf(cfg, w, o).Some? && BoundsInside(w, lo, hi)
    ensures lo <= PatchOf(cfg, w, o).value.recommended <= hi
  {
    var plan := DecisionOf(cfg, w, o);
    var spec := w.cr.value.spec;
    ClampLandsInBounds(MinReplicasOf(spec), MaxReplicasOf(spec));
    assert plan.recommended == ClampRecommended(plan.unbounded, MinReplicasOf(spec), MaxReplicasOf(spec)).0;
  }

  /** A patch never leaves the span of the present count and the recommendation. */
  lemma {:induction false} PatchStaysBetween(cfg: Config, ws: seq<World>, es: seq<Event>, k: nat, lo: int, hi: int)
    requires IsRun(cfg, ws, es) && k < |es| && PatchedAt(cfg, ws, es, k) && BoundsInside(ws[k], lo, hi)
    requires StepFits(PatchAt(cfg, ws[k], es[k]).value)
    ensures Min(ReplicasOf(ws[k]), lo) <= ReplicasOf(ws[k + 1]) <= Max(ReplicasOf(ws[k]), hi)
  {
    PatchedReplicas(cfg, ws, es, k);
    assert es[k].Step?;
    RecommendedInside(cfg, ws[k], es[k].o, lo, hi);
  }

  lemma {:induction false} ConfinedStep(cfg: Config, ws: seq<World>, es: seq<Event>, a: nat, b: nat, k: nat, lo: int,
                                        hi: int)
    requires Stretch(cfg, ws, es, a, b) && a <= k < b
    requires BoundsInside(ws[k], lo, hi) && lo <= ReplicasOf(ws[k]) <= hi
    ensures lo <= ReplicasOf(ws[k + 1]) <= hi
  {
    if PatchedAt(cfg, ws, es, k) {
      PatchStaysBetween(cfg, ws, es, k, lo, hi);
    } else {
      QuietReplicas(cfg, ws, es, a, b, k);
    }
  }

  /** Confinement: once inside the bounds, no forecast, load, failure or crash takes replicas outside. */
  lemma {:induction false} Confinement(cfg: Config, ws: seq<World>, es: seq<Event>, a: nat, b: nat, lo: int, hi: int)
    requires Stretch(cfg, ws, es, a, b)
    requires forall k :: a <= k < b ==> BoundsInside(ws[k], lo, hi)
    requires lo <= ReplicasOf(ws[a]) <= hi
    ensures forall k :: a <= k <= b ==> lo <= ReplicasOf(ws[k]) <= hi
  {
    if a < b {
      var j: nat := b - 1;
      Confinement(cfg, ws, es, a, j, lo, hi);
      ConfinedStep(cfg, ws, es, a, b, j, lo, hi);
    }
  }

  // ---------------------------------------------------------------- convergence

  function Gap(w: World, goal: int): nat { Abs(goal - ReplicasOf(w)) }

  /** Every patch of the stretch pursues the same recommendation with the same step. */
  ghost predicate Steady(cfg: Config, ws: seq<World>, es: seq<Event>, a: nat, b: nat, goal: int, m: int)
    requires b <= |es| < |ws|
  {
    forall k :: a <= k < b && PatchedAt(cfg, ws, es, k) ==>
      PatchAt(cfg, ws[k], es[k]).value.recommended == goal && PatchAt(cfg, ws[k], es[k]).value.params.maxStep == m
  }

  /** One patch closes the gap by the whole step or entirely, and there was a gap to close. */
  lemma {:induction false} PatchCloses(cfg: Config, ws: seq<World>, es: seq<Event>, k: nat, goal: int, m: nat)
    requires IsRun(cfg, ws, es) && k < |es| && PatchedAt(cfg, ws, es, k)
    requires StepFits(PatchAt(cfg, ws[k], es[k]).value)
    requires PatchAt(cfg, ws[k], es[k]).value.recommended == goal
    requires PatchAt(cfg, ws[k], es[k]).value.params.maxStep == m
    ensures m >= 1 && Gap(ws[k], goal) > 0
    ensures Gap(ws[k + 1], goal) == Max(0, Gap(ws[k], goal) - m)
  {
    PatchedReplicas(cfg, ws, es, k);
  }

  lemma {:induction false} GapStep(start: int, before: int, after: int, m: nat, n: nat, hit: bool, n': nat)
    requires before == Max(0, start - m * n) && (n > 0 ==> m * (n - 1) < start)
    requires n' == n + (if hit then 1 else 0) && after == if hit then Max(0, before - m) else before
    requires hit ==> before > 0
    ensures after == Max(0, start - m * n')
    ensures n' > 0 ==> m * (n' - 1) < start
  {
    var taken := m * n;
    assert hit ==> m * n' == taken + m && m * (n' - 1) == taken;
  }

  lemma {:induction false} GapAfterHits(gap: nat -> int, hit: nat -> bool, a: nat, b: nat, m: nat)
    requires a <= b && 0 <= gap(a)
    requires forall k: nat :: a <= k < b ==> gap(k + 1) == if hit(k) then Max(0, gap(k) - m) else gap(k)
    requires forall k: nat :: a <= k < b && hit(k) ==> gap(k) > 0
    ensures gap(b) == Max(0, gap(a) - m * Hits(hit, a, b))
    ensures Hits(hit, a, b) > 0 ==> m * (Hits(hit, a, b) - 1) < gap(a)
    decreases b
  {
    if a < b {
      GapAfterHits(gap, hit, a, b - 1, m);
      assert gap(b - 1 + 1) == if hit(b - 1) then Max(0, gap(b - 1) - m) else gap(b - 1);
      GapStep(gap(a), gap(b - 1), gap(b), m, Hits(hit, a, b - 1), hit(b - 1), Hits(hit, a, b));
    }
  }

  function PatchMarks(cfg: Config, ws: seq<World>, es: seq<Event>): nat -> bool {
    (k: nat) => k < |es| < |ws| && PatchedAt(cfg, ws, es, k)
  }

  /** Patches that went through from `a` to `b`. */
  function Patches(cfg: Config, ws: seq<World>, es: seq<Event>, a: nat, b: nat): nat
    requires a <= b
  {
    Hits(PatchMarks(cfg, ws, es), a, b)
  }

  lemma {:induction false} OneStepGap(cfg: Config, ws: seq<World>, es: seq<Event>, a: nat, b: nat, k: nat,
                                      goal: int, m: nat)
    requires Stretch(cfg, ws, es, a, b) && Steady(cfg, ws, es, a, b, goal, m) && a <= k < b
    ensures Gap(ws[k + 1], goal) == if PatchedAt(cfg, ws, es, k) then Max(0, Gap(ws[k], goal) - m) else Gap(ws[k], goal)
    ensures PatchedAt(cfg, ws, es, k) ==> Gap(ws[k], goal) > 0
  {
    if PatchedAt(cfg, ws, es, k) {
      PatchCloses(cfg, ws, es, k, goal, m);
    } else {
      QuietReplicas(cfg, ws, es, a, b, k);
    }
  }

  lemma {:induction false} GapAfterPatches(cfg: Config, ws: seq<World>, es: seq<Event>, a: nat, b: nat,
                                           goal: int, m: nat)
    requires Stretch(cfg, ws, es, a, b) && Steady(cfg, ws, es, a, b, goal, m)
    ensures Gap(ws[b], goal) == Max(0, Gap(ws[a], goal) - m * Patches(cfg, ws, es, a, b))
    ensures Patches(cfg, ws, es, a, b) > 0 ==> m * (Patches(cfg, ws, es, a, b) - 1) < Gap(ws[a], goal)
  {
    var gap := (k: nat) => if k < |ws| then Gap(ws[k], goal) else 0;
    var hit := PatchMarks(cfg, ws, es);
    forall k: nat | a <= k < b
      ensures gap(k + 1) == if hit(k) then Max(0, gap(k) - m) else gap(k)
      ensures hit(k) ==> gap(k) > 0
    {
      OneStepGap(cfg, ws, es, a, b, k, goal, m);
    }
    GapAfterHits(gap, hit, a, b, m);
  }

  /** Patches needed to close a gap: the gap over the step, rounded up. */
  function PatchesNeeded(gap: nat, m: nat): nat
    requires m >= 1
  {
    (gap + m - 1) / m
  }

  lemma {:induction false} PatchesNeededIsLeast(gap: nat, m: nat, n: nat)
    requires m >= 1
    ensures m * n >= gap <==> n >= PatchesNeeded(gap, m)
  {
    var q: int := PatchesNeeded(gap, m);
    assert gap + m - 1 == m * q + (gap + m - 1) % m;
    assert m * (q - 1) == m * q - m;
    if n < q {
      TimesMonotone(m, n, q - 1);
    } else {
      TimesMonotone(m, q, n);
    }
  }

  /** Convergence: under a steady recommendation the goal is reached exactly when ceil(gap / step) patches
      have gone through, and no further patch ever follows. */
  lemma {:induction false} ConvergesInExactly(cfg: Config, ws: seq<World>, es: seq<Event>, a: nat, b: nat,
                                              goal: int, m: nat)
    requires Stretch(cfg, ws, es, a, b) && Steady(cfg, ws, es, a, b, goal, m) && m >= 1
    ensures ReplicasOf(ws[b]) == goal <==> Patches(cfg, ws, es, a, b) == PatchesNeeded(Gap(ws[a], goal), m)
    ensures Patches(cfg, ws, es, a, b) <= PatchesNeeded(Gap(ws[a], goal), m)
  {
    var n := Patches(cfg, ws, es, a, b);
    GapAfterPatches(cfg, ws, es, a, b, goal, m);
    PatchesNeededIsLeast(Gap(ws[a], goal), m, n);
    if n > 0 {
      PatchesNeededIsLeast(Gap(ws[a], goal), m, n - 1);
    }
    assert ReplicasOf(ws[b]) == goal <==> Gap(ws[b], goal) == 0;
  }

  /** Progress: a reconcile patches exactly when it is fully informed, its patch is accepted, there is
      a gap, no cooldown holds the move, and the step is not zero. */
  lemma {:induction false} WhenAStepPatches(cfg: Config, w: World, o: Observed)
    ensures PatchOf(cfg, w, o).Some?
            <==> (&& Informed(cfg, w, o) && o.scaleAccepted
                  && var plan := DecisionOf(cfg, w, o);
                     && plan.recommended != plan.current
                     && plan.params.maxStep != 0
                     && !Holding(o.now, Clock(w, plan.recommended > plan.current),
                                 if plan.recommended > plan.current then plan.params.cooldownUp
                                 else plan.params.cooldownDown))
  {
    if Informed(cfg, w, o) {
      var plan := DecisionOf(cfg, w, o);
      assert ClockIn(plan.mem, true) == Clock(w, true) && ClockIn(plan.mem, false) == Clock(w, false);
      var binding := ClampRecommended(plan.unbounded, MinReplicasOf(w.cr.value.spec), MaxReplicasOf(w.cr.value.spec)).1;
      var x := CapInputOf(plan.mem, plan.params, plan.current, o.now, plan.recommended, binding);
      assert plan.out == ApplyCapAndCooldown(x);
    }
  }
}
