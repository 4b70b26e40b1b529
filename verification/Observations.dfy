/** The sliding window of capacity observations: contents as values, and what its median remembers. */
module Observations {
  import opened Prelude
  import opened OrderStatistics

  function Repeat(v: real, n: nat): (r: seq<real>)
    ensures |r| == n && forall i :: 0 <= i < n ==> r[i] == v
  {
    seq(n, _ => v)
  }

  /** Appends `v`, evicting the oldest entry of a full window. */
  function Pushed(data: seq<real>, cap: nat, v: real): (r: seq<real>)
    requires 1 <= cap && |data| <= cap
    ensures |r| == Min(|data| + 1, cap)
  {
    (if |data| == cap then data[1..] else data) + [v]
  }

  /** What a reseed with `n` copies leaves behind, whatever was there before. */
  function Seeded(cap: nat, v: real, n: int): seq<real> {
    Repeat(v, Min(Max(n, 0), cap))
  }

  /** The newest `cap` entries of a history. */
  function Newest(history: seq<real>, cap: nat): seq<real> {
    if |history| <= cap then history else history[|history| - cap..]
  }

  datatype Op = Push(v: real) | SeedN(v: real, n: int)

  function Contents(ops: seq<Op>, cap: nat): (data: seq<real>)
    requires 1 <= cap
    ensures |data| <= cap
  {
    if ops == [] then [] else
      var last := ops[|ops| - 1];
      match last
      case Push(v) => Pushed(Contents(ops[..|ops| - 1], cap), cap, v)
      case SeedN(v, n) => Seeded(cap, v, n)
  }

  /** Everything pushed since the last reseed, with the seed in front; nothing is ever evicted. */
  function History(ops: seq<Op>, cap: nat): seq<real> {
    if ops == [] then [] else
      var last := ops[|ops| - 1];
      match last
      case Push(v) => History(ops[..|ops| - 1], cap) + [v]
      case SeedN(v, n) => Seeded(cap, v, n)
  }

  lemma {:induction false} PushedIsNewest(history: seq<real>, cap: nat, v: real)
    requires 1 <= cap
    ensures Pushed(Newest(history, cap), cap, v) == Newest(history + [v], cap)
  {
    if |history| >= cap {
      assert Newest(history, cap)[1..] + [v] == (history + [v])[|history| + 1 - cap..];
    }
  }

  /** After any sequence of operations the window is exactly the newest entries of its history. */
  lemma {:induction false} WindowIsNewestHistory(ops: seq<Op>, cap: nat)
    requires 1 <= cap
    ensures Contents(ops, cap) == Newest(History(ops, cap), cap)
  {
    if ops != [] && ops[|ops| - 1].Push? {
      WindowIsNewestHistory(ops[..|ops| - 1], cap);
      PushedIsNewest(History(ops[..|ops| - 1], cap), cap, ops[|ops| - 1].v);
    }
  }

  function PushedAll(data: seq<real>, cap: nat, vs: seq<real>): (r: seq<real>)
    requires 1 <= cap && |data| <= cap
    ensures |r| <= cap
    decreases |vs|
  {
    if vs == [] then data else PushedAll(Pushed(data, cap, vs[0]), cap, vs[1..])
  }

  lemma {:induction false} PushedAllIsNewest(history: seq<real>, cap: nat, vs: seq<real>)
    requires 1 <= cap
    ensures PushedAll(Newest(history, cap), cap, vs) == Newest(history + vs, cap)
    decreases |vs|
  {
    if vs == [] {
      assert history + vs == history;
    } else {
      PushedIsNewest(history, cap, vs[0]);
      PushedAllIsNewest(history + [vs[0]], cap, vs[1..]);
      assert history + [vs[0]] + vs[1..] == history + vs;
    }
  }

  const RING_BUFFER_CAPACITY := 10
  const RESTART_SEED_COPIES := 5

  /** The window after a restart seeded it with `seed` and the observations `vs` followed. */
  function AfterRestart(seed: real, vs: seq<real>): seq<real> {
    PushedAll(Seeded(RING_BUFFER_CAPACITY, seed, RESTART_SEED_COPIES), RING_BUFFER_CAPACITY, vs)
  }

  lemma {:induction false} AfterRestartIs(seed: real, vs: seq<real>)
    ensures AfterRestart(seed, vs)
         == Newest(Repeat(seed, RESTART_SEED_COPIES) + vs, RING_BUFFER_CAPACITY)
  {
    PushedAllIsNewest(Repeat(seed, RESTART_SEED_COPIES), RING_BUFFER_CAPACITY, vs);
  }

  lemma {:induction false} MajorityOfOneValue(s: seq<real>, v: real)
    requires 2 * Count(s, Within(v, v)) > |s|
    ensures Median(s) == v
  {
    MajorityConfinesMedian(s, v, v);
  }

  /** Up to four observations of any values leave the median exactly at the seed. */
  lemma {:induction false} SeedDominates(seed: real, vs: seq<real>)
    requires |vs| <= 4
    ensures Median(AfterRestart(seed, vs)) == seed
  {
    AfterRestartIs(seed, vs);
    CountBlock(AfterRestart(seed, vs), 0, 5, Within(seed, seed));
    MajorityOfOneValue(AfterRestart(seed, vs), seed);
  }

  /** Five equal observations already halve the seed's hold: the median moves. */
  lemma {:induction false} FiveMoveTheMedian(seed: real)
    ensures Median(AfterRestart(seed, Repeat(seed + 1.0, 5))) == seed + 0.5
  {
    var s := AfterRestart(seed, Repeat(seed + 1.0, 5));
    AfterRestartIs(seed, Repeat(seed + 1.0, 5));
    assert IsSorted(s);
    SortedUnique(s, Sorted(s));
    assert s[4] == seed && s[5] == seed + 1.0;
  }

  lemma {:induction false} ManyMoveTheMedian(seed: real, k: nat)
    requires 6 <= k
    ensures Median(AfterRestart(seed, Repeat(seed + 1.0, k))) == seed + 1.0
  {
    var s := AfterRestart(seed, Repeat(seed + 1.0, k));
    AfterRestartIs(seed, Repeat(seed + 1.0, k));
    assert |s| == 10;
    CountBlock(s, 4, 10, Within(seed + 1.0, seed + 1.0));
    MajorityOfOneValue(s, seed + 1.0);
  }

  /** How long the restart seed dominates: the median stays at the seed whatever `k`
      observations follow exactly when `k` is at most four. */
  lemma {:induction false} SeedDominanceBound(seed: real, k: nat)
    ensures (forall vs :: |vs| == k ==> Median(AfterRestart(seed, vs)) == seed) <==> k <= 4
  {
    if k <= 4 {
      forall vs | |vs| == k ensures Median(AfterRestart(seed, vs)) == seed {
        SeedDominates(seed, vs);
      }
    } else {
      var vs := Repeat(seed + 1.0, k);
      if k == 5 {
        FiveMoveTheMedian(seed);
      } else {
        ManyMoveTheMedian(seed, k);
      }
      assert |vs| == k && Median(AfterRestart(seed, vs)) != seed;
    }
  }

  /** Pushing the majority value keeps it a majority, whichever entry is evicted. */
  lemma {:induction false} PushKeepsMajority(data: seq<real>, cap: nat, v: real)
    requires 1 <= cap && |data| <= cap
    requires 2 * Count(data, Within(v, v)) > |data|
    ensures 2 * Count(Pushed(data, cap, v), Within(v, v)) > |Pushed(data, cap, v)|
  {
    var kept := if |data| == cap then data[1..] else data;
    CountConcat(kept, [v], Within(v, v));
    assert [v][1..] == [];
    assert Count([v], Within(v, v)) == 1;
  }
}
