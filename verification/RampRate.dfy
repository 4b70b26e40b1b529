/** How fast replicas can move over a stretch of a run, where they can go, and how a steady
    recommendation is reached. */
module RampRate {
  import opened Prelude
  import opened Decision
  import opened Api
  import opened Reconcile
  import opened Runs

  function ReplicasOf(w: World): int {
    if w.deployment.Some? then CurrentOf(w.deployment.value) else 0
  }

  /** In the stretch from `a` to `b` nobody but the controller touches the Deployment. */
  ghost predicate NoOutsideScaling(ws: seq<World>, es: seq<Event>, a: nat, b: nat)
    requires b <= |es| < |ws|
  {
    forall k :: a <= k < b && es[k].Edit? ==> es[k].deployment == ws[k].deployment
  }

  /** Every patch between `a` and `b` has a step that fits. */
  ghost predicate StepsFitBetween(cfg: Config, ws: seq<World>, es: seq<Event>, a: nat, b: nat)
    requires b <= |es| < |ws|
  {
    forall k :: a <= k < b && PatchedAt(cfg, ws, es, k) ==> StepFits(PatchAt(cfg, ws[k], es[k]).value)
  }

  ghost predicate Stretch(cfg: Config, ws: seq<World>, es: seq<Event>, a: nat, b: nat) {
    && IsRun(cfg, ws, es)
    && a <= b <= |es|
    && StepsFitBetween(cfg, ws, es, a, b)
    && NoOutsideScaling(ws, es, a, b)
  }

  /** A step moves the Deployment exactly by its patch, toward the recommendation it was computed from. */
  lemma {:induction false} StepReplicas(cfg: Config, w: World, o: Observed)
    ensures PatchOf(cfg, w, o).None? ==> Reconciled(cfg, w, o).deployment == w.deployment
    ensures PatchOf(cfg, w, o).Some? ==>
              var p := PatchOf(cfg, w, o).value;
              && Reconciled(cfg, w, o).deployment == Some(Some(p.target))
              && p.current == ReplicasOf(w) && p.target != p.current
              && p.params == EffectiveOf(cfg, w.cr.value)
    ensures PatchOf(cfg, w, o).Some? && StepFits(PatchOf(cfg, w, o).value) ==>
              var p := PatchOf(cfg, w, o).value;
              p.target == p.current + Max(-(p.params.maxStep as int), Min(p.params.maxStep, p.recommended - p.current))
  {
    if Informed(cfg, w, o) {
      assert Reconciled(cfg, w, o) == Decided(cfg, w, o);
      var plan := DecisionOf(cfg, w, o);
      var st := plan.mem;
      if plan.out.shouldPatch && o.scaleAccepted {
        var spec := w.cr.value.spec;
        var binding := ClampRecommended(plan.unbounded, MinReplicasOf(spec), MaxReplicasOf(spec)).1;
        var x := CapInputOf(st, plan.params, plan.current, o.now, plan.recommended, binding);
        assert plan.out == ApplyCapAndCooldown(x);
        assert !Held(x);
      }
    }
  }

  /** Between patches nothing in the stretch moves the Deployment. */
  lemma {:induction false} QuietReplicas(cfg: Config, ws: seq<World>, es: seq<Event>, a: nat, b: nat, k: nat)
    requires IsRun(cfg, ws, es) && a <= k < b <= |es| && NoOutsideScaling(ws, es, a, b)
    requires !PatchedAt(cfg, ws, es, k)
    ensures ws[k + 1].deployment == ws[k].deployment
  {
    ResourceStays(cfg, ws, es, k);
    assert ws[k + 1] == Next(cfg, ws[k], es[k]);
    if es[k].Step? {
      StepReplicas(cfg, ws[k], es[k].o);
    }
  }

  lemma {:induction false} PatchedReplicas(cfg: Config, ws: seq<World>, es: seq<Event>, k: nat)
    requires IsRun(cfg, ws, es) && k < |es|
    requires PatchedAt(cfg, ws, es, k) && StepFits(PatchAt(cfg, ws[k], es[k]).value)
    ensures var p := PatchAt(cfg, ws[k], es[k]).value;
            && ReplicasOf(ws[k]) == p.current && ReplicasOf(ws[k + 1]) == p.target != p.current
            && p.target == p.current + Max(-(p.params.maxStep as int), Min(p.params.maxStep, p.recommended - p.current))
  {
    assert ws[k + 1] == Next(cfg, ws[k], es[k]);
    StepReplicas(cfg, ws[k], es[k].o);
  }

  // ---------------------------------------------------------------- counting moves

  function Hits(hit: nat -> bool, a: nat, b: nat): nat
    requires a <= b
    decreases b
  {
    if a == b then 0 else Hits(hit, a, b - 1) + (if hit(b - 1) then 1 else 0)
  }

  lemma {:induction false} OneMoreHit(m: nat, n: nat)
    ensures m * (n + 1) == m * n + m
  {}

  lemma {:induction false} TravelPerHit(pos: nat -> int, hit: nat -> bool, a: nat, b: nat, m: nat)
    requires a <= b
    requires forall k: nat :: a <= k < b ==> pos(k + 1) - pos(k) <= if hit(k) then m else 0
    ensures pos(b) - pos(a) <= m * Hits(hit, a, b)
    decreases b
  {
    if a < b {
      TravelPerHit(pos, hit, a, b - 1, m);
      assert pos(b - 1 + 1) - pos(b - 1) <= if hit(b - 1) then m else 0;
      OneMoreHit(m, Hits(hit, a, b - 1));
    }
  }

  /** The latest of `n` spaced hits lies `n - 1` gaps past the start. */
  lemma {:induction false} LatestHit(hit: nat -> bool, time: nat -> int, a: nat, b: nat, gap: nat, start: int)
    returns (last: nat)
    requires a <= b
    requires forall k: nat :: a <= k < b && hit(k) ==> start <= time(k)
    requires forall i: nat, j: nat :: a <= i < j < b && hit(i) && hit(j) ==> time(j) - time(i) >= gap
    ensures Hits(hit, a, b) > 0 ==>
              a <= last < b && hit(last) && time(last) >= start + (Hits(hit, a, b) - 1) * gap
    decreases b
  {
    last := a;
    if a < b {
      var n := Hits(hit, a, b - 1);
      last := LatestHit(hit, time, a, b - 1, gap, start);
      if hit(b - 1) {
        assert n * gap == (n - 1) * gap + gap;
        last := b - 1;
      }
    }
  }

  lemma {:induction false} GapsFit(n: nat, gap: nat, length: nat)
    requires gap > 0 && (n - 1) * gap <= length
    ensures n <= 1 + length / gap
  {
    var q := length / gap;
    assert length == q * gap + length % gap;
    assert (q + 1) * gap == q * gap + gap;
    assert n - 1 >= q + 1 ==> (n - 1) * gap >= (q + 1) * gap;
  }

  lemma {:induction false} SpacedHits(hit: nat -> bool, time: nat -> int, a: nat, b: nat,
                                      gap: nat, start: int, length: nat) returns (quota: nat)
    requires a <= b && gap > 0
    requires forall k: nat :: a <= k < b && hit(k) ==> start <= time(k) <= start + length
    requires forall i: nat, j: nat :: a <= i < j < b && hit(i) && hit(j) ==> time(j) - time(i) >= gap
    ensures quota == 1 + length / gap && Hits(hit, a, b) <= quota
  {
    quota := 1 + length / gap;
    var last := LatestHit(hit, time, a, b, gap, start);
    if Hits(hit, a, b) > 0 {
      GapsFit(Hits(hit, a, b), gap, length);
    }
  }

  lemma {:induction false} TimesMonotone(m: nat, x: int, y: int)
    requires x <= y
    ensures m * x <= m * y
  {}

  /** Hits at least `gap` apart, each advancing by at most `m`, advance at most `m` per started gap. */
  lemma {:induction false} SpacedTravel(pos: nat -> int, hit: nat -> bool, time: nat -> int, a: nat, b: nat,
                                        m: nat, gap: nat, start: int, length: nat)
    requires a <= b && gap > 0
    requires forall k: nat :: a <= k < b ==> pos(k + 1) - pos(k) <= if hit(k) then m else 0
    requires forall k: nat :: a <= k < b && hit(k) ==> start <= time(k) <= start + length
    requires forall i: nat, j: nat :: a <= i < j < b && hit(i) && hit(j) ==> time(j) - time(i) >= gap
    ensures pos(b) - pos(a) <= m * (1 + length / gap)
  {
    TravelPerHit(pos, hit, a, b, m);
    var quota := SpacedHits(hit, time, a, b, gap, start, length);
    TimesMonotone(m, Hits(hit, a, b), quota);
  }

  // ---------------------------------------------------------------- ramp rate

  /** Signed distance travelled in a direction. */
  function Travelled(from: World, to: World, up: bool): int {
    if up then ReplicasOf(to) - ReplicasOf(from) else ReplicasOf(from) - ReplicasOf(to)
  }

  ghost predicate StepsAtMost(cfg: Config, ws: seq<World>, es: seq<Event>, a: nat, b: nat, m: nat)
    requires b <= |es| < |ws|
  {
    forall k :: a <= k < b && PatchedAt(cfg, ws, es, k) ==> PatchAt(cfg, ws[k], es[k]).value.params.maxStep <= m
  }

  lemma {:induction false} OneStepTravel(cfg: Config, ws: seq<World>, es: seq<Event>, a: nat, b: nat, k: nat,
                                         up: bool, m: nat)
    requires Stretch(cfg, ws, es, a, b) && StepsAtMost(cfg, ws, es, a, b, m) && a <= k < b
    ensures Travelled(ws[k], ws[k + 1], up) <= if ScaledAt(cfg, ws, es, k, up) then m else 0
  {
    if PatchedAt(cfg, ws, es, k) {
      PatchedReplicas(cfg, ws, es, k);
      var p := PatchAt(cfg, ws[k], es[k]).value;
      assert p.params.maxStep <= m;
      assert IsUp(p) <==> p.target > p.current;
    } else {
      QuietReplicas(cfg, ws, es, a, b, k);
    }
  }

  ghost predicate Spaced(cfg: Config, ws: seq<World>, es: seq<Event>, a: nat, b: nat, up: bool, gap: int)
    requires b <= |es| < |ws|
  {
    forall i, j :: a <= i < j < b && ScaledAt(cfg, ws, es, i, up) && ScaledAt(cfg, ws, es, j, up)
      ==> es[j].o.now - es[i].o.now >= gap
  }

  ghost predicate StepsWithin(es: seq<Event>, a: nat, b: nat, start: int, length: int)
    requires b <= |es|
  {
    forall k :: a <= k < b && es[k].Step? ==> start <= es[k].o.now <= start + length
  }

  /** What `length` allows: a step of `m` at once and one more for each whole gap. */
  function Allowance(m: nat, length: nat, gap: nat): nat
    requires gap > 0
  {
    m * (1 + length / gap)
  }

  /** Patches at least `gap` apart move replicas, in their direction, at most `m` per started gap. */
  lemma {:induction false} SpacedRamp(cfg: Config, ws: seq<World>, es: seq<Event>, a: nat, b: nat, up: bool,
                                      m: nat, gap: nat, start: int, length: nat)
    requires Stretch(cfg, ws, es, a, b) && StepsAtMost(cfg, ws, es, a, b, m)
    requires gap > 0 && Spaced(cfg, ws, es, a, b, up, gap) && StepsWithin(es, a, b, start, length)
    ensures Travelled(ws[a], ws[b], up) <= Allowance(m, length, gap)
  {
    var pos := (k: nat) => if k < |ws| then Travelled(ws[a], ws[k], up) else 0;
    var hit := (k: nat) => k < |es| < |ws| && ScaledAt(cfg, ws, es, k, up);
    var time := (k: nat) => if k < |es| && es[k].Step? then es[k].o.now else 0;
    forall k: nat | a <= k < b ensures pos(k + 1) - pos(k) <= if hit(k) then m else 0 {
      OneStepTravel(cfg, ws, es, a, b, k, up, m);
    }
    SpacedTravel(pos, hit, time, a, b, m, gap, start, length);
  }

  ghost predicate CooldownsAtLeast(cfg: Config, ws: seq<World>, es: seq<Event>, a: nat, b: nat, up: bool, c: int)
    requires b <= |es| < |ws|
  {
    forall k :: a <= k < b && PatchedAt(cfg, ws, es, k) ==> CooldownAt(cfg, ws, es, k, up) >= c * SECOND
  }

  /** No crash rounds a clock down: there is none, or every reconcile falls on a whole second. */
  ghost predicate KeepsFractions(es: seq<Event>, a: nat, b: nat)
    requires b <= |es|
  {
    || (forall k :: a <= k < b ==> !es[k].Crash?)
    || (forall k :: a <= k < b && es[k].Step? ==> es[k].o.now % SECOND == 0)
  }

  /** The spacing cooldowns of at least `c` seconds guarantee: all of it within one incarnation or on a
      whole-second clock, and just under a second less across crashes. */
  lemma {:induction false} CooldownSpacing(cfg: Config, ws: seq<World>, es: seq<Event>, a: nat, b: nat,
                                           up: bool, c: int)
    requires IsRun(cfg, ws, es) && MonotoneClock(es) && DurableCrashes(cfg, ws, es)
    requires a <= b <= |es| && StepsFitBetween(cfg, ws, es, a, b) && CooldownsAtLeast(cfg, ws, es, a, b, up, c)
    ensures Spaced(cfg, ws, es, a, b, up, c * SECOND - SECOND + 1)
    ensures KeepsFractions(es, a, b) ==> Spaced(cfg, ws, es, a, b, up, c * SECOND)
  {
    var calm := KeepsFractions(es, a, b);
    forall i, j | a <= i < j < b && ScaledAt(cfg, ws, es, i, up) && ScaledAt(cfg, ws, es, j, up)
      ensures es[j].o.now - es[i].o.now >= c * SECOND - SECOND + 1
      ensures calm ==> es[j].o.now - es[i].o.now >= c * SECOND
    {
      CooldownSafety(cfg, ws, es, i, j, up);
      assert TimeAt(cfg, ws, es, i) == es[i].o.now && TimeAt(cfg, ws, es, j) == es[j].o.now;
      assert CooldownAt(cfg, ws, es, j, up) >= c * SECOND;
    }
  }

  lemma {:induction false} RampAcrossCrashes(cfg: Config, ws: seq<World>, es: seq<Event>, a: nat, b: nat, up: bool,
                                             m: nat, c: nat, start: int, length: nat)
    requires MonotoneClock(es) && Stretch(cfg, ws, es, a, b) && DurableCrashes(cfg, ws, es)
    requires StepsAtMost(cfg, ws, es, a, b, m) && CooldownsAtLeast(cfg, ws, es, a, b, up, c) && 1 <= c
    requires StepsWithin(es, a, b, start, length)
    ensures Travelled(ws[a], ws[b], up) <= Allowance(m, length, c * SECOND - SECOND + 1)
  {
    CooldownSpacing(cfg, ws, es, a, b, up, c);
    SpacedRamp(cfg, ws, es, a, b, up, m, c * SECOND - SECOND + 1, start, length);
  }

  lemma {:induction false} RampKeepingFractions(cfg: Config, ws: seq<World>, es: seq<Event>, a: nat, b: nat, up: bool,
                                                m: nat, c: nat, start: int, length: nat)
    requires MonotoneClock(es) && Stretch(cfg, ws, es, a, b) && DurableCrashes(cfg, ws, es)
    requires StepsAtMost(cfg, ws, es, a, b, m) && CooldownsAtLeast(cfg, ws, es, a, b, up, c) && 1 <= c
    requires StepsWithin(es, a, b, start, length) && KeepsFractions(es, a, b)
    ensures Travelled(ws[a], ws[b], up) <= Allowance(m, length, c * SECOND)
  {
    CooldownSpacing(cfg, ws, es, a, b, up, c);
    SpacedRamp(cfg, ws, es, a, b, up, m, c * SECOND, start, length);
  }

  /** Ramp-rate bound: with steps of at most `m` and cooldowns of at least `c` seconds in a direction,
      a stretch lasting `length` moves replicas that way by at most m * (1 + length / c) (`Allowance`). Crashes that
      round a clock down cost at most one second of each gap. */
  lemma {:induction false} RampRateBound(cfg: Config, ws: seq<World>, es: seq<Event>, a: nat, b: nat, up: bool,
                                         m: nat, c: nat, start: int, length: nat)
    requires MonotoneClock(es) && Stretch(cfg, ws, es, a, b) && DurableCrashes(cfg, ws, es)
    requires StepsAtMost(cfg, ws, es, a, b, m) && CooldownsAtLeast(cfg, ws, es, a, b, up, c) && 1 <= c
    requires StepsWithin(es, a, b, start, length)
    ensures Travelled(ws[a], ws[b], up) <= Allowance(m, length, c * SECOND - SECOND + 1)
    ensures KeepsFractions(es, a, b) ==> Travelled(ws[a], ws[b], up) <= Allowance(m, length, c * SECOND)
  {
    RampAcrossCrashes(cfg, ws, es, a, b, up, m, c, start, length);
    if KeepsFractions(es, a, b) {
      RampKeepingFractions(cfg, ws, es, a, b, up, m, c, start, length);
    }
  }
}
