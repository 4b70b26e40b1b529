/** What features, patterns, parameters and context say about a series, law by law, without the formulae that compute
    them. */
module FeatureLaws {
  import opened Prelude
  import opened OrderStatistics
  import opened Sums
  import opened LeastSquares
  import opened Correlation
  import opened HourlyProfile
  import opened Pipeline

  // ---------------------------------------------------------------- features

  /** `cv` times the mean is the root mean square deviation; under the guard it is zero. */
  predicate SpreadOf(cv: real, s: seq<real>, guard: real)
    requires s != []
  {
    && cv >= 0.0
    && (if Mean(s) < guard then cv == 0.0
        else (cv * Mean(s)) * (cv * Mean(s)) * |s| as real == Dot(Deviation(s), Deviation(s), |s|))
  }

  lemma {:induction false} SpreadLaw(sqrt: real -> real, s: seq<real>, guard: real)
    requires s != [] && guard > 0.0 && IsSquareRoot(sqrt)
    ensures SpreadOf(CoefficientOfVariation(sqrt, s, guard), s, guard)
  {
    CvNonNegative(sqrt, s, guard);
    var m, n := Mean(s), |s| as real;
    if m >= guard {
      var d := Dot(Deviation(s), Deviation(s), |s|);
      SquareNonNegative(Deviation(s), |s|);
      assert d / n >= 0.0 && d / n * n == d;
      var sd := StdDev(sqrt, s, m);
      assert sd * sd == d / n;
      assert sd / m * m == sd;
    }
  }

  function Below(v: real): real -> bool { x => x < v }

  lemma {:induction false} CountSubset(s: seq<real>, p: real -> bool, q: real -> bool)
    requires forall x :: p(x) ==> q(x)
    ensures Count(s, p) <= Count(s, q)
  {
    if s != [] {
      CountSubset(s[1..], p, q);
    }
  }

  /** Fewer than a share `p` of the values lie below `v`. */
  predicate FewBelow(s: seq<real>, p: real, v: real) { Count(s, Below(v)) < Ceil(p * |s| as real) }

  /** A percentile reaches a value exactly when fewer values than its rank lie below it. */
  lemma {:induction false} PercentileReaches(s: seq<real>, p: real, v: real)
    requires s != [] && 0.0 < p <= 1.0
    ensures Percentile(s, p) >= v <==> FewBelow(s, p, v)
  {
    var q := Percentile(s, p);
    PercentileRank(s, p);
    if q >= v {
      CountDisjoint(s, Below(v), AtLeast(q));
    } else {
      CountSubset(s, AtMost(q), Below(v));
    }
  }

  /** What a ratio of `k` asks of the peak. */
  function PeakFor(mean: real, guard: real, k: real): real { k * RealMax(mean, guard) }

  /** The ratio reaches `k` exactly when fewer than 99% of the samples lie below `k` times the mean, or times the guard
      if that is greater. */
  predicate PeakAt(ratio: real, s: seq<real>, guard: real, k: real)
    requires s != []
  {
    ratio >= k <==> FewBelow(s, 0.99, PeakFor(Mean(s), guard, k))
  }

  ghost predicate PeakOf(ratio: real, s: seq<real>, guard: real)
    requires s != []
  {
    forall k: real :: PeakAt(ratio, s, guard, k)
  }

  lemma {:induction false} QuotientReaches(x: real, d: real, k: real)
    requires d > 0.0
    ensures x / d >= k <==> x >= k * d
  {
    var q := x / d;
    assert q * d == x;
    assert q < k ==> q * d < k * d;
    assert q >= k ==> q * d >= k * d;
  }

  lemma {:induction false} RatioOfMax(peak: real, mean: real, guard: real, k: real)
    requires guard > 0.0
    ensures OverMean(peak, mean, guard) >= k <==> peak >= PeakFor(mean, guard, k)
  {
    QuotientReaches(peak, RealMax(mean, guard), k);
  }

  lemma {:induction false} RatioReaches(s: seq<real>, guard: real, k: real)
    requires s != [] && guard > 0.0
    ensures PeakToTrough(s, guard) >= k <==> Percentile(s, 0.99) >= PeakFor(Mean(s), guard, k)
  {
    RatioOfMax(Percentile(s, 0.99), Mean(s), guard, k);
  }

  lemma {:induction false} PeakReaches(s: seq<real>, guard: real, k: real)
    requires s != [] && guard > 0.0
    ensures PeakAt(PeakToTrough(s, guard), s, guard, k)
  {
    RatioReaches(s, guard, k);
    PercentileReaches(s, 0.99, PeakFor(Mean(s), guard, k));
  }

  lemma {:induction false} PeakLaw(s: seq<real>, guard: real)
    requires s != [] && guard > 0.0
    ensures PeakOf(PeakToTrough(s, guard), s, guard)
  {
    forall k: real ensures PeakAt(PeakToTrough(s, guard), s, guard, k) {
      PeakReaches(s, guard, k);
    }
  }

  /** The correlation of what detrending leaves with itself `lag` samples later, an hour rounded down to whole
      samples. */
  ghost predicate RhythmOf(sqrt: real -> real, rhythm: real, s: seq<real>, resolution: int, lag: nat) {
    && lag * resolution <= 60 < (lag + 1) * resolution
    && rhythm == Autocorrelation(sqrt, Detrended(s, TrendSlope(s)), lag, 10)
  }

  lemma {:induction false} FloorOfQuotient(x: nat, d: nat)
    requires d >= 1
    ensures x / d * d <= x < (x / d + 1) * d
  {
    var q, r := Quotient(x, d);
    assert (q + 1) * d == q * d + d;
  }

  lemma {:induction false} RhythmLaw(sqrt: real -> real, s: seq<real>, resolution: nat)
    requires resolution >= 1
    ensures var lag := HourlyAutocorrLag(resolution);
            RhythmOf(sqrt, HourlyAutocorr(sqrt, s, lag), s, resolution, lag)
  {
    FloorOfQuotient(60, resolution);
  }

  /** The trend is per minute: over the minutes between two samples it is the trend per sample. */
  predicate TrendOf(trend: real, s: seq<real>, resolution: int) { trend * resolution as real == TrendSlope(s) }

  lemma {:induction false} TrendLaw(s: seq<real>, resolution: int)
    requires resolution >= 1
    ensures TrendOf(TrendSlopeRpsPerMin(s, resolution), s, resolution)
  {
    var r, slope := resolution as real, TrendSlope(s);
    assert slope / r * r == slope;
  }

  /** The features describe the series, sampled every `resolution` minutes: spread, peak, hourly rhythm, and a trend
      per minute. */
  ghost predicate Describes(sqrt: real -> real, f: Features, s: seq<real>, guard: real, resolution: int)
    requires s != []
  {
    && SpreadOf(f.cv, s, guard)
    && PeakOf(f.peakToTrough, s, guard)
    && (exists lag: nat :: RhythmOf(sqrt, f.hourlyAutocorr, s, resolution, lag))
    && TrendOf(f.trendSlope, s, resolution)
  }

  lemma {:induction false} FeaturesDescribe(sqrt: real -> real, s: seq<real>, guard: real, resolution: nat)
    requires s != [] && guard > 0.0 && resolution >= 1 && IsSquareRoot(sqrt)
    ensures Describes(sqrt, ExtractFeaturesV2(sqrt, s, guard, resolution), s, guard, resolution)
  {
    SpreadLaw(sqrt, s, guard);
    PeakLaw(s, guard);
    RhythmLaw(sqrt, s, resolution);
    TrendLaw(s, resolution);
  }

  // ---------------------------------------------------------------- pattern and confidence

  predicate Spikes(f: Features) { f.cv > 0.50 && f.peakToTrough > 5.0 }

  /** Over a day the trend adds or takes more than a fifth of the mean, or of one if the mean is less. */
  predicate Drifts(f: Features, mean: real) {
    RealMax(f.trendSlope, -f.trendSlope) * 1440.0 > 0.20 * RealMax(mean, 1.0)
  }

  /** When each pattern is the answer. */
  predicate PatternFits(p: Pattern, f: Features, mean: real) {
    match p
    case Flat => f.cv < 0.10
    case Periodic => f.cv >= 0.10 && f.hourlyAutocorr > 0.70
    case Spiky => f.hourlyAutocorr <= 0.70 && Spikes(f)
    case GradualRamp => f.cv >= 0.10 && f.hourlyAutocorr <= 0.70 && !Spikes(f) && Drifts(f, mean)
    case DefaultPattern => f.cv >= 0.10 && f.hourlyAutocorr <= 0.70 && !Spikes(f) && !Drifts(f, mean)
  }

  lemma {:induction false} QuotientExceeds(x: real, d: real, k: real)
    requires d > 0.0
    ensures x / d > k <==> x > k * d
  {
    var q := x / d;
    assert q * d == x;
    assert q <= k ==> q * d <= k * d;
    assert q > k ==> q * d > k * d;
  }

  /** Every series has exactly one fitting pattern, and that is the one reported. */
  lemma {:induction false} PatternWhen(f: Features, mean: real, p: Pattern)
    ensures ClassifyWithMean(f, mean) == p <==> PatternFits(p, f, mean)
  {
    QuotientExceeds(RealAbs(f.trendSlope) * 1440.0, RealMax(mean, 1.0), 0.20);
  }

  predicate ConfidenceFits(c: Confidence, points: nat, highThreshold: int, minThreshold: int) {
    match c
    case High => points >= highThreshold
    case Medium => minThreshold <= points < highThreshold
    case Insufficient => points < highThreshold && points < minThreshold
  }

  lemma {:induction false} ConfidenceWhen(points: nat, highThreshold: int, minThreshold: int, c: Confidence)
    ensures ConfidenceOf(points, highThreshold, minThreshold) == c
            <==> ConfidenceFits(c, points, highThreshold, minThreshold)
  {}

  // ---------------------------------------------------------------- parameters

  /** `n` is the quotient to the nearest integer. */
  predicate Nearest(n: int, top: real, bottom: real) { -bottom <= 2.0 * (n as real * bottom - top) <= bottom }

  lemma {:induction false} RoundedQuotient(top: real, bottom: real)
    requires bottom > 0.0
    ensures Nearest(Round(top / bottom), top, bottom)
  {
    var q := top / bottom;
    var n := Round(q);
    assert q * bottom == top;
    assert (n as real - q) * bottom == n as real * bottom - top;
    assert -0.5 * bottom <= (n as real - q) * bottom <= 0.5 * bottom;
  }

  function UpBottom(cv: real): real { 1.0 + 2.0 * cv }

  function DownTop(cv: real): real { 180.0 * (1.0 + 1.5 * cv) }

  function DownBottom(rhythm: real): real { 1.0 + 0.5 * RealMax(0.0, rhythm) }

  /** Two minutes shortened by the spread, though not below half a minute. */
  predicate UpFits(cooldown: int, cv: real) {
    || (30 <= cooldown && Nearest(cooldown, 120.0, UpBottom(cv)))
    || (cooldown == 30 && 120.0 <= 29.5 * UpBottom(cv))
  }

  /** Three minutes stretched by the spread and shortened by a rhythm, though not beyond ten minutes. */
  predicate DownFits(cooldown: int, cv: real, rhythm: real) {
    || (cooldown <= 600 && Nearest(cooldown, DownTop(cv), DownBottom(rhythm)))
    || (cooldown == 600 && 600.5 * DownBottom(rhythm) <= DownTop(cv))
  }

  predicate ForecasterFits(forecaster: Forecaster, f: Features) {
    match forecaster
    case Prophet => f.cv >= 0.10 && f.hourlyAutocorr > 0.70
    case GbdtQuantile => Spikes(f) && f.hourlyAutocorr <= 0.70
    case LinearExtrap => f.cv < 0.10 || (f.hourlyAutocorr <= 0.70 && !Spikes(f))
  }

  /** The step's power of two reaches the peak, unless the replica range stops it; a smaller one would not. */
  predicate StepFits(step: int32, ratio: real, range: int) {
    && 1 <= step <= Max(1, range)
    && (ratio <= Power2(step) as real || step == Max(1, range))
    && (step > 1 ==> Power2(step - 1) as real < ratio)
  }

  lemma {:induction false} UpLaw(f: Features, p: Pattern, minReplicas: int32, maxReplicas: int32, unspecified: int32)
    requires f.cv >= 0.0
    ensures UpFits(ComputeParams(f, p, minReplicas, maxReplicas, unspecified).scaleUpCooldown, f.cv)
  {
    var n := Round(RawUp(f.cv));
    UpRange(f.cv);
    Exact(n, unspecified);
    RoundedQuotient(120.0, UpBottom(f.cv));
    if n < 30 {
      QuotientExceeds(120.0, UpBottom(f.cv), 29.5);
    }
  }

  lemma {:induction false} DownLaw(f: Features, p: Pattern, minReplicas: int32, maxReplicas: int32, unspecified: int32)
    requires f.cv >= 0.0 && f.hourlyAutocorr <= 1.0 && Round(RawDown(f.cv, f.hourlyAutocorr)) <= MAX_INT32
    ensures DownFits(ComputeParams(f, p, minReplicas, maxReplicas, unspecified).scaleDownCooldown, f.cv,
                     f.hourlyAutocorr)
  {
    var top, bottom := DownTop(f.cv), DownBottom(f.hourlyAutocorr);
    var n := Round(RawDown(f.cv, f.hourlyAutocorr));
    DownAtLeast(f.cv, f.hourlyAutocorr);
    Exact(n, unspecified);
    RoundedQuotient(top, bottom);
    if n > 600 {
      QuotientReaches(top, bottom, 600.5);
    }
  }

  /** The forecaster among the parameters follows from the features alone. */
  lemma {:induction false} ForecasterWhen(f: Features, mean: real, minReplicas: int32, maxReplicas: int32,
                                          unspecified: int32, forecaster: Forecaster)
    requires f.cv >= 0.0
    ensures ComputeParams(f, ClassifyWithMean(f, mean), minReplicas, maxReplicas, unspecified).forecaster == forecaster
            <==> ForecasterFits(forecaster, f)
  {}
}
