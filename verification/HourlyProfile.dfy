/** The 24-bin profile of median load per UTC hour. */
module HourlyProfile {
  import opened Prelude
  import opened OrderStatistics

  /** Samples per hour; the guards keep every resolution, however wrong, at one or more. */
  function PointsPerHour(resolutionMin: int): nat
    ensures 1 <= PointsPerHour(resolutionMin)
  {
    if resolutionMin < 1 then 1 else Max(60 / resolutionMin, 1)
  }

  /** The hour of day `k` hours after `start`. */
  function HourAt(start: nat, k: nat): (h: nat)
    ensures h < 24
  {
    (start + k) % 24
  }

  function HourOf(i: nat, pph: nat, start: nat): (h: nat)
    requires 1 <= pph
    ensures h < 24
  {
    HourAt(start, i / pph)
  }

  /** The samples among the first `n` that fall in hour `h`, in order. */
  function Bucket(s: seq<real>, n: nat, pph: nat, start: nat, h: nat): seq<real>
    requires n <= |s| && 1 <= pph
  {
    if n == 0 then []
    else Bucket(s, n - 1, pph, start, h) + (if HourOf(n - 1, pph, start) == h then [s[n - 1]] else [])
  }

  /** The rounded median as 32 bits; `unspecified` is what one out of range turns into. */
  function RoundedMedian(samples: seq<real>, unspecified: int32): int32 {
    ToInt32(Round(Median(samples)) as real, unspecified)
  }

  /** What a bin holds for its samples. */
  function BinOf(bucket: seq<real>, unspecified: int32): int32 {
    if bucket == [] then 0 else RoundedMedian(bucket, unspecified)
  }

  function Bin(s: seq<real>, pph: nat, start: nat, h: nat, unspecified: int32): int32
    requires 1 <= pph
  {
    BinOf(Bucket(s, |s|, pph, start, h), unspecified)
  }

  function Populated(s: seq<real>, pph: nat, start: nat): set<nat>
    requires 1 <= pph
  {
    set h: nat | h < 24 && Bucket(s, |s|, pph, start, h) != []
  }

  /** Hours a series of `n` samples reaches. */
  function HoursReached(n: nat, pph: nat): nat
    requires 1 <= pph
  {
    Min(24, (n + pph - 1) / pph)
  }

  method FillBuckets(s: seq<real>, pph: nat, start: nat) returns (buckets: seq<seq<real>>)
    requires 1 <= pph
    ensures |buckets| == 24
    ensures forall h :: 0 <= h < 24 ==> buckets[h] == Bucket(s, |s|, pph, start, h)
  {
    buckets := seq(24, _ => []);
    for i := 0 to |s|
      invariant |buckets| == 24
      invariant forall h :: 0 <= h < 24 ==> buckets[h] == Bucket(s, i, pph, start, h)
    {
      var hourOffset := i / pph;
      var hour := HourAt(start, hourOffset);
      buckets := buckets[hour := buckets[hour] + [s[i]]];
    }
  }

  ghost function PopulatedBelow(s: seq<real>, pph: nat, start: nat, n: nat): set<nat>
    requires 1 <= pph
  {
    set h: nat | h < n && Bucket(s, |s|, pph, start, h) != []
  }

  lemma {:induction false} OneMore(a: set<nat>, b: set<nat>, h: nat, added: bool)
    requires h !in a
    requires b == if added then a + {h} else a
    ensures |b| == |a| + (if added then 1 else 0)
  {}

  lemma {:induction false} PopulatedStep(s: seq<real>, pph: nat, start: nat, h: nat)
    requires 1 <= pph
    ensures |PopulatedBelow(s, pph, start, h + 1)|
         == |PopulatedBelow(s, pph, start, h)| + (if Bucket(s, |s|, pph, start, h) != [] then 1 else 0)
  {
    var below, upTo := PopulatedBelow(s, pph, start, h), PopulatedBelow(s, pph, start, h + 1);
    var added := Bucket(s, |s|, pph, start, h) != [];
    assert upTo == if added then below + {h} else below;
    OneMore(below, upTo, h, added);
  }

  /** How many of the first `n` buckets hold anything. */
  function NonEmpty(buckets: seq<seq<real>>, n: nat): nat
    requires n <= |buckets|
  {
    if n == 0 then 0 else NonEmpty(buckets, n - 1) + (if buckets[n - 1] != [] then 1 else 0)
  }

  lemma {:induction false} NonEmptyArePopulated(s: seq<real>, pph: nat, start: nat, buckets: seq<seq<real>>, n: nat)
    requires 1 <= pph && n <= |buckets|
    requires forall h :: 0 <= h < |buckets| ==> buckets[h] == Bucket(s, |s|, pph, start, h)
    ensures NonEmpty(buckets, n) == |PopulatedBelow(s, pph, start, n)|
  {
    if n > 0 {
      NonEmptyArePopulated(s, pph, start, buckets, n - 1);
      PopulatedStep(s, pph, start, n - 1);
    } else {
      assert PopulatedBelow(s, pph, start, n) == {};
    }
  }

  /** The first `n` of the wanted bins are filled in, the others still zero. */
  ghost predicate FilledTo(profile: seq<int32>, wanted: seq<int32>, n: nat) {
    && |profile| == |wanted| && n <= |wanted|
    && (forall k :: 0 <= k < n ==> profile[k] == wanted[k])
    && (forall k :: n <= k < |profile| ==> profile[k] == 0)
  }

  lemma {:induction false} FillNext(profile: seq<int32>, wanted: seq<int32>, n: nat)
    requires FilledTo(profile, wanted, n) && n < |wanted|
    ensures FilledTo(profile[n := wanted[n]], wanted, n + 1)
    ensures wanted[n] == 0 ==> FilledTo(profile, wanted, n + 1)
  {}

  function BinsOf(buckets: seq<seq<real>>, unspecified: int32): (bins: seq<int32>)
    ensures |bins| == |buckets|
  {
    seq(|buckets|, h requires 0 <= h < |buckets| => BinOf(buckets[h], unspecified))
  }

  /** The bin of one bucket; 0, uncounted, when it is empty. */
  method SummariseBucket(buckets: seq<seq<real>>, h: nat, unspecified: int32) returns (bin: int32, counted: bool)
    requires h < |buckets|
    ensures bin == BinsOf(buckets, unspecified)[h]
    ensures counted == (buckets[h] != []) && (!counted ==> bin == 0)
    ensures NonEmpty(buckets, h + 1) == NonEmpty(buckets, h) + (if counted then 1 else 0)
  {
    counted := |buckets[h]| > 0;
    bin := if counted then RoundedMedian(buckets[h], unspecified) else 0;
  }

  method Summarise(buckets: seq<seq<real>>, unspecified: int32) returns (profile: seq<int32>, distinctHours: nat)
    ensures profile == BinsOf(buckets, unspecified)
    ensures distinctHours == NonEmpty(buckets, |buckets|)
  {
    ghost var wanted := BinsOf(buckets, unspecified);
    profile := seq(|buckets|, _ => 0);
    distinctHours := 0;
    for h := 0 to |buckets|
      invariant FilledTo(profile, wanted, h)
      invariant distinctHours == NonEmpty(buckets, h)
    {
      var bin, counted := SummariseBucket(buckets, h, unspecified);
      FillNext(profile, wanted, h);
      if counted {
        profile := profile[h := bin];
        distinctHours := distinctHours + 1;
      }
    }
  }

  // ---------------------------------------------------------------- the buckets partition the series

  /** A bucket holds exactly the values of the samples of its hour. */
  lemma {:induction false} BucketMembers(s: seq<real>, n: nat, pph: nat, start: nat, h: nat)
    requires n <= |s| && 1 <= pph
    ensures Bucket(s, n, pph, start, h) != [] <==> exists i :: 0 <= i < n && HourOf(i, pph, start) == h
    ensures forall i :: 0 <= i < n && HourOf(i, pph, start) == h ==> s[i] in Bucket(s, n, pph, start, h)
  {
    if n > 0 {
      BucketMembers(s, n - 1, pph, start, h);
      if HourOf(n - 1, pph, start) == h {
        assert s[n - 1] in Bucket(s, n, pph, start, h);
      }
    }
  }

  /** The values of all buckets below hour `h`, together. */
  ghost function Pooled(s: seq<real>, n: nat, pph: nat, start: nat, h: nat): multiset<real>
    requires n <= |s| && 1 <= pph
    decreases h
  {
    if h == 0 then multiset{} else Pooled(s, n, pph, start, h - 1) + multiset(Bucket(s, n, pph, start, h - 1))
  }

  lemma {:induction false} BucketNext(s: seq<real>, n: nat, pph: nat, start: nat, h: nat)
    requires n < |s| && 1 <= pph
    ensures multiset(Bucket(s, n + 1, pph, start, h))
         == multiset(Bucket(s, n, pph, start, h)) + (if HourOf(n, pph, start) == h then multiset{s[n]} else multiset{})
  {}

  /** A sample of hour `hour` joins either the pool of the hours below `h` or the bucket of `h` itself. */
  lemma {:induction false} PoolBoth(p: multiset<real>, p': multiset<real>, q: multiset<real>, q': multiset<real>,
                                    x: multiset<real>, hour: nat, h: nat)
    requires p' == p + (if hour < h then x else multiset{})
    requires q' == q + (if hour == h then x else multiset{})
    ensures p' + q' == (p + q) + (if hour < h + 1 then x else multiset{})
  {}

  lemma {:induction false} PooledStep(s: seq<real>, n: nat, pph: nat, start: nat, h: nat)
    requires n < |s| && 1 <= pph
    ensures Pooled(s, n + 1, pph, start, h)
         == Pooled(s, n, pph, start, h) + (if HourOf(n, pph, start) < h then multiset{s[n]} else multiset{})
    decreases h
  {
    if h > 0 {
      PooledStep(s, n, pph, start, h - 1);
      BucketNext(s, n, pph, start, h - 1);
      PoolBoth(Pooled(s, n, pph, start, h - 1), Pooled(s, n + 1, pph, start, h - 1),
               multiset(Bucket(s, n, pph, start, h - 1)), multiset(Bucket(s, n + 1, pph, start, h - 1)),
               multiset{s[n]}, HourOf(n, pph, start), h - 1);
    }
  }

  lemma {:induction false} PooledEmpty(s: seq<real>, pph: nat, start: nat, h: nat)
    requires 1 <= pph
    ensures Pooled(s, 0, pph, start, h) == multiset{}
    decreases h
  {
    if h > 0 {
      PooledEmpty(s, pph, start, h - 1);
    }
  }

  lemma {:induction false} PooledNext(s: seq<real>, n: nat, pph: nat, start: nat, hours: nat)
    requires n < |s| && 1 <= pph && 24 <= hours
    ensures Pooled(s, n + 1, pph, start, hours) == Pooled(s, n, pph, start, hours) + multiset{s[n]}
  {
    PooledStep(s, n, pph, start, hours);
    assert HourOf(n, pph, start) < hours;
  }

  lemma {:induction false} TakeNext(s: seq<real>, n: nat)
    requires n < |s|
    ensures multiset(s[..n + 1]) == multiset(s[..n]) + multiset{s[n]}
  {
    assert s[..n + 1] == s[..n] + [s[n]];
  }

  lemma {:induction false} PartitionNone(s: seq<real>, pph: nat, start: nat, hours: nat)
    requires 1 <= pph
    ensures Pooled(s, 0, pph, start, hours) == multiset(s[..0])
  {
    PooledEmpty(s, pph, start, hours);
    assert s[..0] == [];
  }

  lemma {:induction false} PartitionNext(s: seq<real>, n: nat, pph: nat, start: nat, hours: nat)
    requires n < |s| && 1 <= pph && 24 <= hours
    requires Pooled(s, n, pph, start, hours) == multiset(s[..n])
    ensures Pooled(s, n + 1, pph, start, hours) == multiset(s[..n + 1])
  {
    PooledNext(s, n, pph, start, hours);
    TakeNext(s, n);
  }

  /** Partition: every sample lands in exactly one of the hours below 24; pooled, their buckets give the series back. */
  lemma {:induction false} BucketsPartition(s: seq<real>, n: nat, pph: nat, start: nat, hours: nat)
    requires n <= |s| && 1 <= pph && 24 <= hours
    ensures Pooled(s, n, pph, start, hours) == multiset(s[..n])
  {
    if n == 0 {
      PartitionNone(s, pph, start, hours);
    } else {
      var m: nat := n - 1;
      BucketsPartition(s, m, pph, start, hours);
      PartitionNext(s, m, pph, start, hours);
    }
  }

  // ---------------------------------------------------------------- how many hours are populated

  lemma {:induction false} Quotient(i: nat, p: nat) returns (q: nat, r: nat)
    requires 1 <= p
    ensures q == i / p && i == q * p + r && r < p
  {
    q, r := i / p, i % p;
  }

  lemma {:induction false} MulLess(a: nat, b: nat, p: nat)
    ensures a < b ==> a * p + p <= b * p
  {
    if a < b {
      var d: nat := b - a - 1;
      assert (a + 1 + d) * p == a * p + p + d * p;
    }
  }

  lemma {:induction false} QuotientIs(i: nat, p: nat, k: nat)
    requires 1 <= p && k * p <= i < k * p + p
    ensures i / p == k
  {
    var q, r := Quotient(i, p);
    MulLess(q, k, p);
    MulLess(k, q, p);
  }

  lemma {:induction false} SameHour(start: nat, a: nat, k: nat)
    requires k < 24 && HourAt(start, a) == HourAt(start, k)
    ensures a >= k
  {}

  lemma {:induction false} TooFar(i: nat, pph: nat, start: nat, k: nat)
    requires 1 <= pph && k < 24 && HourOf(i, pph, start) == HourAt(start, k)
    ensures i >= k * pph
  {
    var q, r := Quotient(i, pph);
    SameHour(start, q, k);
    MulLess(k, q, pph);
  }

  /** The hour `k` hours after the start is populated exactly when the series reaches that far. */
  lemma {:induction false} HourPopulated(s: seq<real>, pph: nat, start: nat, k: nat)
    requires 1 <= pph && k < 24
    ensures Bucket(s, |s|, pph, start, HourAt(start, k)) != [] <==> k * pph < |s|
  {
    var h := HourAt(start, k);
    BucketMembers(s, |s|, pph, start, h);
    if k * pph < |s| {
      QuotientIs(k * pph, pph, k);
      assert HourOf(k * pph, pph, start) == h;
    } else if Bucket(s, |s|, pph, start, h) != [] {
      var i :| 0 <= i < |s| && HourOf(i, pph, start) == h;
      TooFar(i, pph, start, k);
    }
  }

  lemma {:induction false} ReachedMeans(n: nat, pph: nat, k: nat)
    requires 1 <= pph && k < 24
    ensures k * pph < n <==> k < HoursReached(n, pph)
  {
    var q, r := Quotient(n + pph - 1, pph);
    MulLess(k, q, pph);
    MulLess(q, k, pph);
  }

  ghost function Offsets(start: nat, n: nat): set<nat> { set k: nat | k < n :: HourAt(start, k) }

  lemma {:induction false} OffsetsCount(start: nat, n: nat)
    requires n <= 24
    ensures |Offsets(start, n)| == n
  {
    if n == 0 {
      assert Offsets(start, 0) == {};
    } else {
      OffsetsCount(start, n - 1);
      var h := HourAt(start, n - 1);
      assert Offsets(start, n) == Offsets(start, n - 1) + {h};
      if h in Offsets(start, n - 1) {
        var k: nat :| k < n - 1 && HourAt(start, k) == h;
        SameHour(start, k, n - 1);
      }
    }
  }

  lemma {:induction false} OffsetOf(start: nat, h: nat) returns (k: nat)
    requires h < 24
    ensures k < 24 && HourAt(start, k) == h
  {
    k := (h + 24 - start % 24) % 24;
  }

  lemma {:induction false} PopulatedIsOffset(s: seq<real>, pph: nat, start: nat, h: nat)
    requires 1 <= pph && h < 24
    ensures h in Populated(s, pph, start) <==> h in Offsets(start, HoursReached(|s|, pph))
  {
    var n := HoursReached(|s|, pph);
    var k := OffsetOf(start, h);
    HourPopulated(s, pph, start, k);
    ReachedMeans(|s|, pph, k);
    if h in Offsets(start, n) {
      var j: nat :| j < n && HourAt(start, j) == h;
      SameHour(start, j, k);
    }
  }

  /** The number of populated hours is min(24, ceil(n / pointsPerHour)), wherever the day starts. */
  lemma {:induction false} PopulatedCount(s: seq<real>, pph: nat, start: nat)
    requires 1 <= pph
    ensures |Populated(s, pph, start)| == HoursReached(|s|, pph)
  {
    var n := HoursReached(|s|, pph);
    forall h: nat ensures h in Populated(s, pph, start) <==> h in Offsets(start, n) {
      if h < 24 {
        PopulatedIsOffset(s, pph, start, h);
      }
    }
    assert Populated(s, pph, start) == Offsets(start, n);
    OffsetsCount(start, n);
  }

  // ---------------------------------------------------------------- rotation and resolution

  lemma {:induction false} HourShift(start: nat, a: nat, k: nat, h: nat)
    requires h < 24
    ensures HourAt(start + k, a) == HourAt(h, k) <==> HourAt(start, a) == h
  {}

  lemma {:induction false} HourOfShift(i: nat, pph: nat, start: nat, k: nat, h: nat)
    requires 1 <= pph && h < 24
    ensures HourOf(i, pph, start + k) == HourAt(h, k) <==> HourOf(i, pph, start) == h
  {
    HourShift(start, i / pph, k, h);
  }

  lemma {:induction false} BucketRotates(s: seq<real>, n: nat, pph: nat, start: nat, k: nat, h: nat)
    requires n <= |s| && 1 <= pph && h < 24
    ensures Bucket(s, n, pph, start + k, HourAt(h, k)) == Bucket(s, n, pph, start, h)
  {
    if n > 0 {
      BucketRotates(s, n - 1, pph, start, k, h);
      HourOfShift(n - 1, pph, start, k, h);
    }
  }

  /** Starting `k` hours later rotates the profile by `k`. */
  lemma {:induction false} ProfileRotates(s: seq<real>, pph: nat, start: nat, k: nat, h: nat, unspecified: int32)
    requires 1 <= pph && h < 24
    ensures Bin(s, pph, start + k, HourAt(h, k), unspecified) == Bin(s, pph, start, h, unspecified)
  {
    BucketRotates(s, |s|, pph, start, k, h);
  }

  /** When the resolution divides the hour, sample `i` lies floor(i * resolution / 60) whole hours after the start. */
  lemma {:induction false} ExactHourOffset(i: nat, resolution: nat)
    requires 1 <= resolution <= 60 && 60 % resolution == 0
    ensures i / PointsPerHour(resolution) == i * resolution / 60
  {
    var pph := PointsPerHour(resolution);
    var q, r := Quotient(i, pph);
    assert pph * resolution == 60;
    assert i * resolution == q * (pph * resolution) + r * resolution;
    MulLess(r, pph, resolution);
    QuotientIs(i * resolution, 60, q);
  }

  // ---------------------------------------------------------------- the profile

  lemma {:induction false} BucketsCount(s: seq<real>, pph: nat, start: nat, buckets: seq<seq<real>>)
    requires 1 <= pph && |buckets| == 24
    requires forall h :: 0 <= h < |buckets| ==> buckets[h] == Bucket(s, |s|, pph, start, h)
    ensures NonEmpty(buckets, |buckets|) == HoursReached(|s|, pph)
  {
    NonEmptyArePopulated(s, pph, start, buckets, |buckets|);
    assert PopulatedBelow(s, pph, start, |buckets|) == Populated(s, pph, start);
    PopulatedCount(s, pph, start);
  }

  method FillAndSummarise(s: seq<real>, pph: nat, start: nat, unspecified: int32)
    returns (profile: seq<int32>, distinctHours: nat)
    requires 1 <= pph
    ensures |profile| == 24
    ensures forall h :: 0 <= h < |profile| ==> profile[h] == Bin(s, pph, start, h, unspecified)
    ensures distinctHours == HoursReached(|s|, pph)
  {
    var buckets := FillBuckets(s, pph, start);
    profile, distinctHours := Summarise(buckets, unspecified);
    BucketsCount(s, pph, start, buckets);
  }

  /** Buckets the samples, takes each bucket's rounded median, and reports whether enough distinct hours were seen. */
  method ComputeHourlyProfile(s: seq<real>, resolutionMin: int, startHourUTC: int, minHours: int, unspecified: int32)
    returns (profile: seq<int32>, valid: bool)
    ensures |profile| == 24
    ensures s != [] ==> forall h :: 0 <= h < 24 ==>
              profile[h] == Bin(s, PointsPerHour(resolutionMin), Max(startHourUTC, 0), h, unspecified)
    ensures s != [] ==> valid == (HoursReached(|s|, PointsPerHour(resolutionMin)) >= minHours)
    ensures s == [] ==> !valid && forall h :: 0 <= h < 24 ==> profile[h] == 0
  {
    if s == [] {
      return seq(24, _ => 0), false;
    }
    var resolution := resolutionMin;
    if resolution < 1 {
      resolution := 60;
    }
    var pph := 60 / resolution;
    if pph < 1 {
      pph := 1;
    }
    var start: nat := if startHourUTC < 0 then 0 else startHourUTC;
    var distinctHours;
    profile, distinctHours := FillAndSummarise(s, pph, start, unspecified);
    valid := distinctHours >= minHours;
  }
}
