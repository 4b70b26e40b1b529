/** One burst in an otherwise idle series: concrete loads on which two classification rules go astray. */
module Bursts {
  import opened Prelude
  import opened Sums
  import opened LeastSquares
  import opened Correlation
  import opened Pipeline

  /** `n` samples of mean 1: everything in the first, nothing in the rest. */
  function Burst(n: nat): seq<real>
    requires n >= 1
  {
    seq(n, i requires 0 <= i < n => if i == 0 then n as real else 0.0)
  }

  lemma {:induction false} BurstSum(n: nat, k: nat)
    requires 1 <= k <= n
    ensures Sum(Entries(Burst(n)), k) == n as real
  {
    if k == 1 {
      assert Sum(Entries(Burst(n)), 0) == 0.0;
    } else {
      BurstSum(n, k - 1);
    }
  }

  lemma {:induction false} SelfQuotient(x: real)
    requires x != 0.0
    ensures x / x == 1.0
  {
    CancelFactor(x / x, 1.0, x);
  }

  lemma {:induction false} BurstMean(n: nat)
    requires n >= 1
    ensures Mean(Burst(n)) == 1.0
  {
    BurstSum(n, n);
    SelfQuotient(n as real);
  }

  lemma {:induction false} BurstSquares(n: nat, k: nat)
    requires 1 <= k <= n
    ensures var x, d := n as real, Offset(Burst(n), 1.0);
            Dot(d, d, k) == (x - 1.0) * (x - 1.0) + (k as real - 1.0)
  {
    var d := Offset(Burst(n), 1.0);
    if k == 1 {
      assert Dot(d, d, 0) == 0.0 && d(0) == n as real - 1.0;
    } else {
      BurstSquares(n, k - 1);
      assert d(k - 1) == -1.0;
      assert Dot(d, d, k) == Dot(d, d, k - 1) + 1.0;
    }
  }

  lemma {:induction false} PerSample(x: real, squares: real)
    requires x > 0.0 && squares == (x - 1.0) * (x - 1.0) + (x - 1.0)
    ensures squares / x == x - 1.0
  {
    assert squares == (x - 1.0) * x;
    assert squares / x * x == squares;
    CancelFactor(squares / x, x - 1.0, x);
  }

  /** The squared coefficient of variation of a burst is its length less one. */
  lemma {:induction false} BurstSpread(sqrt: real -> real, n: nat)
    requires n >= 1 && IsSquareRoot(sqrt)
    ensures var cv := CoefficientOfVariation(sqrt, Burst(n), 1.0);
            cv >= 0.0 && cv * cv == n as real - 1.0
  {
    var s := Burst(n);
    BurstMean(n);
    BurstSquares(n, n);
    var squares := Dot(Offset(s, 1.0), Offset(s, 1.0), n);
    PerSample(n as real, squares);
    var sd := StdDev(sqrt, s, 1.0);
    assert sd == sqrt(n as real - 1.0);
    assert sd / 1.0 == sd;
  }

  lemma {:induction false} RootAbove(x: real, limit: real)
    requires x >= 0.0 && limit >= 0.0 && x * x >= limit * limit
    ensures x >= limit
  {
    if x < limit {
      PositiveProduct(limit - x, limit + x, (limit - x) * (limit + x));
    }
    assert (limit - x) * (limit + x) == limit * limit - x * x;
  }

  lemma {:induction false} BurstIsNoLine(n: nat, slope: real, intercept: real)
    requires n >= 3
    ensures !IsLine(Burst(n), slope, intercept)
  {
    var s := Burst(n);
    assert s[0] > 0.0 && s[1] == 0.0 && s[2] == 0.0;
    if s[0] == intercept + slope * 0.0 && s[1] == intercept + slope * 1.0 {
      assert s[2] != intercept + slope * 2.0;
    }
    assert 0 as real == 0.0 && 1 as real == 1.0 && 2 as real == 2.0;
  }

  lemma {:induction false} BurstIsNotFlat(sqrt: real -> real, n: nat)
    requires n >= 10 && IsSquareRoot(sqrt)
    ensures CoefficientOfVariation(sqrt, Burst(n), 1.0) >= 0.10
  {
    BurstSpread(sqrt, n);
    RootAbove(CoefficientOfVariation(sqrt, Burst(n), 1.0), 0.10);
  }

  /** Ten samples or more with a single burst count as periodic when the cadence is above an hour. */
  lemma {:induction false} BurstTakenForPeriodic(sqrt: real -> real, n: nat, resolution: int, mean: real)
    requires n >= 10 && resolution > 60 && IsSquareRoot(sqrt)
    ensures ClassifyWithMean(ExtractFeaturesV2(sqrt, Burst(n), 1.0, resolution), mean).Periodic?
  {
    var s := Burst(n);
    var slope := TrendSlope(s);
    BurstIsNotFlat(sqrt, n);
    BurstIsNoLine(n, slope, Intercept(s, slope));
    CoarseCadenceIsPeriodic(sqrt, s, 1.0, resolution, mean);
  }

  /** The same samples taken a minute apart do not, as long as they span less than an hour and ten minutes. */
  lemma {:induction false} BurstByTheMinute(sqrt: real -> real, n: nat, mean: real)
    requires 1 <= n < 70
    ensures !ClassifyWithMean(ExtractFeaturesV2(sqrt, Burst(n), 1.0, 1), mean).Periodic?
  {
    assert HourlyAutocorrLag(1) == 60;
    assert HourlyAutocorr(sqrt, Burst(n), 60) == 0.0;
  }

  lemma {:induction false} BurstOverflows(sqrt: real -> real, n: nat, h: real)
    requires IsSquareRoot(sqrt) && n >= 143_000_000_000_001 && h <= 1.0
    ensures var cv := CoefficientOfVariation(sqrt, Burst(n), 1.0);
            cv >= 0.0 && Round(RawDown(cv, h)) > MAX_INT32
  {
    var cv := CoefficientOfVariation(sqrt, Burst(n), 1.0);
    BurstSpread(sqrt, n);
    RootAbove(cv, 11_958_000.0);
    DownAtLeast(cv, h);
  }

  /** Every burst of a hundred and forty-three trillion samples or more overflows the scale-down formula: converted to
      the least `int32` it comes out as a cooldown of 60 seconds, below the 120 of every ordinary load. */
  lemma {:induction false} BurstDropsCooldown(sqrt: real -> real, n: nat, highThreshold: int, minReplicas: int32,
                                              maxReplicas: int32)
    requires IsSquareRoot(sqrt) && n >= 143_000_000_000_001
    ensures var v1 := RunPipeline(sqrt, Burst(n), highThreshold, n, minReplicas, maxReplicas, 1.0, MIN_INT32);
            v1.Some? && v1.value.params.scaleDownCooldown == 60
  {
    var f := ExtractFeatures(sqrt, Burst(n), 1.0);
    AutocorrelationBound(sqrt, Detrended(Burst(n), TrendSlope(Burst(n))), TOD_LAG, MIN_TOD_OVERLAP);
    BurstOverflows(sqrt, n, f.hourlyAutocorr);
    HugeSpreadEscapes(f, Classify(f), minReplicas, maxReplicas);
  }
}
