/** Sorting, nearest-rank percentiles and medians over exact reals.
    The ring buffer and the classifier compute the same median. */
module OrderStatistics {
  import opened Prelude

  ghost predicate IsSorted(s: seq<real>) {
    forall i, j :: 0 <= i < j < |s| ==> s[i] <= s[j]
  }

  /** A lower bound on all the values does not depend on their order. */
  lemma {:induction false} BoundBelow(lo: real, x: real, s: seq<real>, r: seq<real>)
    requires multiset(r) == multiset(s) + multiset{x}
    requires lo <= x && forall k :: 0 <= k < |s| ==> lo <= s[k]
    ensures forall k :: 0 <= k < |r| ==> lo <= r[k]
  {
    forall k | 0 <= k < |r| ensures lo <= r[k] {
      assert r[k] in multiset(r);
    }
  }

  lemma {:induction false} Regroup(x: real, s: seq<real>, r: seq<real>)
    requires s != [] && multiset(r) == multiset(s[1..]) + multiset{x}
    ensures multiset([s[0]] + r) == multiset(s) + multiset{x}
  {
    assert s == [s[0]] + s[1..];
  }

  function Insert(x: real, s: seq<real>): (r: seq<real>)
    requires IsSorted(s)
    ensures IsSorted(r) && |r| == |s| + 1
    ensures multiset(r) == multiset(s) + multiset{x}
  {
    if s == [] || x <= s[0] then
      [x] + s
    else
      var r := Insert(x, s[1..]);
      BoundBelow(s[0], x, s[1..], r);
      Regroup(x, s, r);
      [s[0]] + r
  }

  /** What a library sort returns: the same values in ascending order. */
  function Sorted(s: seq<real>): (r: seq<real>)
    ensures IsSorted(r) && |r| == |s|
    ensures multiset(r) == multiset(s)
  {
    if s == [] then [] else
      assert s == [s[0]] + s[1..];
      Insert(s[0], Sorted(s[1..]))
  }

  /** Middle of an ascending series, 0 for none; the mean of the two middle values for an even count. */
  function Middle(t: seq<real>): real {
    var n := |t|;
    if n == 0 then 0.0
    else if n % 2 == 1 then t[n / 2]
    else (t[n / 2 - 1] + t[n / 2]) / 2.0
  }

  function Median(s: seq<real>): real { Middle(Sorted(s)) }

  /** Position of the nearest rank among `n` values; `rank` is the fraction times `n`. */
  function RankIndex(rank: real, n: nat): (i: nat)
    requires n > 0
    ensures i < n
    ensures 0.0 < rank <= n as real ==> i == Ceil(rank) - 1
  {
    var idx := Ceil(rank) - 1;
    if idx < 0 then 0 else if idx >= n then n - 1 else idx
  }

  function AtRank(t: seq<real>, rank: real): real {
    if |t| == 0 then 0.0 else t[RankIndex(rank, |t|)]
  }

  function RankOf(p: real, n: nat): real { p * n as real }

  /** Nearest-rank percentile, 0 for an empty series. */
  function Percentile(s: seq<real>, p: real): real {
    AtRank(Sorted(s), RankOf(p, |s|))
  }

  // ---------------------------------------------------------------- counting

  function Count(s: seq<real>, p: real -> bool): (c: nat)
    ensures c <= |s|
  {
    if s == [] then 0 else (if p(s[0]) then 1 else 0) + Count(s[1..], p)
  }

  function AtMost(v: real): real -> bool { x => x <= v }

  function AtLeast(v: real): real -> bool { x => x >= v }

  function Within(lo: real, hi: real): real -> bool { x => lo <= x <= hi }

  lemma {:induction false} CountConcat(a: seq<real>, b: seq<real>, p: real -> bool)
    ensures Count(a + b, p) == Count(a, p) + Count(b, p)
  {
    if a == [] {
      assert a + b == b;
    } else {
      assert (a + b)[1..] == a[1..] + b;
      CountConcat(a[1..], b, p);
    }
  }

  lemma {:induction false} CountAll(s: seq<real>, p: real -> bool)
    requires forall i :: 0 <= i < |s| ==> p(s[i])
    ensures Count(s, p) == |s|
  {
    if s != [] {
      CountAll(s[1..], p);
    }
  }

  lemma {:induction false} CountNone(s: seq<real>, p: real -> bool)
    requires forall i :: 0 <= i < |s| ==> !p(s[i])
    ensures Count(s, p) == 0
  {
    if s != [] {
      CountNone(s[1..], p);
    }
  }

  lemma {:induction false} RemoveOne(t: seq<real>, k: nat)
    requires k < |t|
    ensures t == t[..k] + ([t[k]] + t[k + 1..])
    ensures multiset(t) == multiset(t[..k] + t[k + 1..]) + multiset{t[k]}
  {
    assert t == t[..k] + ([t[k]] + t[k + 1..]);
  }

  lemma {:induction false} CountRemoved(t: seq<real>, k: nat, p: real -> bool)
    requires k < |t|
    ensures Count(t, p) == Count(t[..k] + t[k + 1..], p) + (if p(t[k]) then 1 else 0)
  {
    var rest := [t[k]] + t[k + 1..];
    assert t == t[..k] + rest;
    CountConcat(t[..k], rest, p);
    CountConcat(t[..k], t[k + 1..], p);
    assert rest[1..] == t[k + 1..];
  }

  /** The first value of one reordering sits somewhere in the other; without it, the rests are still reorderings. */
  lemma {:induction false} MatchHead(s: seq<real>, t: seq<real>) returns (k: nat)
    requires multiset(s) == multiset(t) && s != []
    ensures k < |t| && t[k] == s[0]
    ensures multiset(s[1..]) == multiset(t[..k] + t[k + 1..])
  {
    assert s == [s[0]] + s[1..];
    assert s[0] in multiset(t);
    k :| 0 <= k < |t| && t[k] == s[0];
    RemoveOne(t, k);
    assert multiset(s[1..]) == multiset(s) - multiset{s[0]};
    assert multiset(t[..k] + t[k + 1..]) == multiset(t) - multiset{s[0]};
  }

  /** Counting looks at the values only, not at their order. */
  lemma {:induction false} CountPermutation(s: seq<real>, t: seq<real>, p: real -> bool)
    requires multiset(s) == multiset(t)
    ensures Count(s, p) == Count(t, p)
    decreases |s|
  {
    if s == [] {
      assert |multiset(t)| == 0;
    } else {
      var k := MatchHead(s, t);
      CountPermutation(s[1..], t[..k] + t[k + 1..], p);
      CountRemoved(t, k, p);
    }
  }

  /** A block of a series on which `p` holds throughout is a lower bound on the count. */
  lemma {:induction false} CountBlock(s: seq<real>, from: nat, to: nat, p: real -> bool)
    requires from <= to <= |s|
    requires forall i :: from <= i < to ==> p(s[i])
    ensures Count(s, p) >= to - from
  {
    assert s == s[..from] + (s[from..to] + s[to..]);
    CountConcat(s[..from], s[from..to] + s[to..], p);
    CountConcat(s[from..to], s[to..], p);
    CountAll(s[from..to], p);
  }

  /** Disjoint conditions share the values out between them. */
  lemma {:induction false} CountDisjoint(s: seq<real>, p: real -> bool, q: real -> bool)
    requires forall x :: !(p(x) && q(x))
    ensures Count(s, p) + Count(s, q) <= |s|
  {
    if s != [] {
      CountDisjoint(s[1..], p, q);
    }
  }

  // ---------------------------------------------------------------- sorting is canonical

  lemma {:induction false} LeastFirst(s: seq<real>, t: seq<real>)
    requires IsSorted(s) && multiset(s) == multiset(t) && t != [] && s != []
    ensures s[0] <= t[0]
  {
    assert t[0] in multiset(s);
  }

  lemma {:induction false} RestOf(s: seq<real>)
    requires s != []
    ensures s == [s[0]] + s[1..] && multiset(s[1..]) == multiset(s) - multiset{s[0]}
  {
    assert s == [s[0]] + s[1..];
  }

  lemma {:induction false} SortedUnique(s: seq<real>, t: seq<real>)
    requires IsSorted(s) && IsSorted(t)
    requires multiset(s) == multiset(t)
    ensures s == t
    decreases |s|
  {
    assert |s| == |multiset(s)| == |multiset(t)| == |t|;
    if s != [] {
      LeastFirst(s, t);
      LeastFirst(t, s);
      RestOf(s);
      RestOf(t);
      SortedUnique(s[1..], t[1..]);
    }
  }

  lemma {:induction false} SortedPermutation(s: seq<real>, t: seq<real>)
    requires multiset(s) == multiset(t)
    ensures Sorted(s) == Sorted(t) && |s| == |t|
  {
    SortedUnique(Sorted(s), Sorted(t));
    assert |s| == |Sorted(s)| == |Sorted(t)| == |t|;
  }

  lemma {:induction false} PercentileOfSorted(s: seq<real>, t: seq<real>, p: real)
    requires Sorted(s) == Sorted(t) && |s| == |t|
    ensures Percentile(s, p) == Percentile(t, p)
  {
    assert RankOf(p, |s|) == RankOf(p, |t|);
  }

  /** Median and percentile depend on the values alone: any reordering gives the same result. */
  lemma {:induction false} OrderStatisticsPermutation(s: seq<real>, t: seq<real>, p: real)
    requires multiset(s) == multiset(t)
    ensures Median(s) == Median(t)
    ensures Percentile(s, p) == Percentile(t, p)
  {
    SortedPermutation(s, t);
    PercentileOfSorted(s, t, p);
  }

  // ---------------------------------------------------------------- ranks

  /** Position `k` of an ascending series has `k + 1` values at or below it and
      `n - k` at or above it. */
  lemma {:induction false} PositionRank(t: seq<real>, k: nat)
    requires IsSorted(t) && k < |t|
    ensures Count(t, AtMost(t[k])) >= k + 1
    ensures Count(t, AtLeast(t[k])) >= |t| - k
  {
    CountBlock(t, 0, k + 1, AtMost(t[k]));
    CountBlock(t, k, |t|, AtLeast(t[k]));
  }

  lemma {:induction false} CountSorted(s: seq<real>, p: real -> bool)
    ensures Count(s, p) == Count(Sorted(s), p)
  {
    CountPermutation(s, Sorted(s), p);
  }

  lemma {:induction false} ScaledOrder(p: real, q: real, x: real)
    requires x > 0.0
    ensures p < q ==> p * x < q * x
    ensures p == q ==> p * x == q * x
  {
    assert (q - p) * x == q * x - p * x;
    assert p < q ==> (q - p) * x > 0.0;
  }

  lemma {:induction false} FractionOf(p: real, n: nat, rank: real)
    requires n > 0 && 0.0 < p <= 1.0 && rank == RankOf(p, n)
    ensures 0.0 < rank <= n as real
    ensures p > 0.5 ==> rank > n as real / 2.0
  {
    var x := n as real;
    ScaledOrder(0.0, p, x);
    ScaledOrder(p, 1.0, x);
    ScaledOrder(0.5, p, x);
  }

  lemma {:induction false} IndexAboveHalf(rank: real, n: nat)
    requires n > 0 && n as real / 2.0 < rank <= n as real
    ensures n / 2 <= RankIndex(rank, n)
  {
    assert 2 * (n / 2) <= n;
    assert (n / 2) as real <= n as real / 2.0;
  }

  lemma {:induction false} AtRankCounts(s: seq<real>, rank: real)
    requires 0.0 < rank <= |s| as real
    ensures AtRank(Sorted(s), rank) in s
    ensures Count(s, AtMost(AtRank(Sorted(s), rank))) >= Ceil(rank)
    ensures Count(s, AtLeast(AtRank(Sorted(s), rank))) >= |s| - Ceil(rank) + 1
  {
    var t := Sorted(s);
    var k := RankIndex(rank, |s|);
    assert t[k] in multiset(t);
    PositionRank(t, k);
    CountSorted(s, AtMost(t[k]));
    CountSorted(s, AtLeast(t[k]));
  }

  lemma {:induction false} BelowIsTooFew(s: seq<real>, v: real, k: int)
    requires Count(s, AtLeast(v)) >= |s| - k + 1
    ensures forall x :: x in s && Count(s, AtMost(x)) >= k ==> v <= x
  {
    forall x | x in s && Count(s, AtMost(x)) >= k ensures v <= x {
      if x < v {
        CountDisjoint(s, AtMost(x), AtLeast(v));
      }
    }
  }

  /** Nearest-rank correctness: the percentile is an element of the series, at least
      ceil(p*n) values are at or below it, at least n - ceil(p*n) + 1 are at or above it,
      and no smaller element of the series already covers ceil(p*n) values. */
  lemma {:induction false} PercentileRank(s: seq<real>, p: real)
    requires s != [] && 0.0 < p <= 1.0
    ensures Percentile(s, p) in s
    ensures Count(s, AtMost(Percentile(s, p))) >= Ceil(p * |s| as real)
    ensures Count(s, AtLeast(Percentile(s, p))) >= |s| - Ceil(p * |s| as real) + 1
    ensures forall x :: x in s && Count(s, AtMost(x)) >= Ceil(p * |s| as real) ==> Percentile(s, p) <= x
  {
    var rank := RankOf(p, |s|);
    FractionOf(p, |s|, rank);
    AtRankCounts(s, rank);
    BelowIsTooFew(s, AtRank(Sorted(s), rank), Ceil(rank));
  }

  lemma {:induction false} MiddleRank(t: seq<real>)
    requires t != [] && IsSorted(t)
    ensures 2 * Count(t, AtMost(Middle(t))) >= |t|
    ensures 2 * Count(t, AtLeast(Middle(t))) >= |t|
  {
    var n, m := |t|, Middle(t);
    if n % 2 == 1 {
      PositionRank(t, n / 2);
    } else {
      assert t[n / 2 - 1] <= m <= t[n / 2];
      CountBlock(t, 0, n / 2, AtMost(m));
      CountBlock(t, n / 2, n, AtLeast(m));
    }
  }

  /** The median splits the values: at least half are on each side of it. */
  lemma {:induction false} MedianRank(s: seq<real>)
    requires s != []
    ensures 2 * Count(s, AtMost(Median(s))) >= |s|
    ensures 2 * Count(s, AtLeast(Median(s))) >= |s|
  {
    MiddleRank(Sorted(s));
    CountSorted(s, AtMost(Median(s)));
    CountSorted(s, AtLeast(Median(s)));
  }

  lemma {:induction false} BlockOutside(t: seq<real>, from: nat, to: nat, lo: real, hi: real)
    requires from <= to <= |t|
    requires forall i :: from <= i < to ==> !(lo <= t[i] <= hi)
    ensures Count(t, Within(lo, hi)) <= |t| - (to - from)
  {
    assert t == t[..from] + (t[from..to] + t[to..]);
    CountConcat(t[..from], t[from..to] + t[to..], Within(lo, hi));
    CountConcat(t[from..to], t[to..], Within(lo, hi));
    CountNone(t[from..to], Within(lo, hi));
  }

  /** An entry with at least half the series on each side of it cannot leave a strict majority's range. */
  lemma {:induction false} CentralEntry(t: seq<real>, k: nat, lo: real, hi: real)
    requires IsSorted(t) && k < |t| && |t| <= 2 * (k + 1) && 2 * k <= |t|
    requires 2 * Count(t, Within(lo, hi)) > |t|
    ensures lo <= t[k] <= hi
  {
    if t[k] < lo {
      BlockOutside(t, 0, k + 1, lo, hi);
    } else if t[k] > hi {
      BlockOutside(t, k, |t|, lo, hi);
    }
  }

  lemma {:induction false} MedianAtLeast(s: seq<real>, lo: real)
    requires s != [] && forall i :: 0 <= i < |s| ==> lo <= s[i]
    ensures lo <= Median(s)
  {
    var t := Sorted(s);
    assert t[|t| / 2] in multiset(s);
    assert |t| % 2 == 0 ==> t[|t| / 2 - 1] in multiset(s);
  }

  /** Robustness: a strict majority of the values confines the median. */
  lemma {:induction false} MajorityConfinesMedian(s: seq<real>, lo: real, hi: real)
    requires 2 * Count(s, Within(lo, hi)) > |s|
    ensures lo <= Median(s) <= hi
  {
    var t, n := Sorted(s), |s|;
    CountSorted(s, Within(lo, hi));
    CentralEntry(t, n / 2, lo, hi);
    if n % 2 == 0 {
      CentralEntry(t, n / 2 - 1, lo, hi);
    }
  }

  lemma {:induction false} MiddleBelowRank(t: seq<real>, rank: real)
    requires IsSorted(t) && |t| as real / 2.0 < rank <= |t| as real
    ensures Middle(t) <= AtRank(t, rank)
  {
    var n := |t|;
    IndexAboveHalf(rank, n);
    assert n % 2 == 0 ==> t[n / 2 - 1] <= t[n / 2];
    assert t[n / 2] <= t[RankIndex(rank, n)];
  }

  lemma {:induction false} MedianBelowRank(s: seq<real>, rank: real)
    requires |s| as real / 2.0 < rank <= |s| as real
    ensures Median(s) <= AtRank(Sorted(s), rank)
  {
    MiddleBelowRank(Sorted(s), rank);
  }

  /** A median never exceeds a percentile above one half. */
  lemma {:induction false} MedianBelowUpperPercentile(s: seq<real>, p: real)
    requires s != [] && 0.5 < p <= 1.0
    ensures Median(s) <= Percentile(s, p)
  {
    var rank := RankOf(p, |s|);
    FractionOf(p, |s|, rank);
    MedianBelowRank(s, rank);
  }
}
