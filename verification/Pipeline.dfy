/** The classification pipeline: features, pattern, and scaling parameters, in its two versions. */
module Pipeline {
  import opened Prelude
  import opened OrderStatistics
  import opened Sums
  import opened LeastSquares
  import opened Correlation
  import opened HourlyProfile

  const TOD_LAG := 60
  const MIN_TOD_OVERLAP := 10

  datatype Features = Features(cv: real, peakToTrough: real, hourlyAutocorr: real, trendSlope: real)

  datatype Pattern = Flat | Periodic | Spiky | GradualRamp | DefaultPattern

  datatype Confidence = High | Medium | Insufficient

  datatype Forecaster = LinearExtrap | Prophet | GbdtQuantile

  datatype Params = Params(scaleUpCooldown: int32, scaleDownCooldown: int32, maxStep: int32, forecaster: Forecaster)

  datatype Result = Result(
    pattern: Pattern, confidence: Confidence, params: Params, historyPoints: nat, features: Features)

  // ---------------------------------------------------------------- features

  function CoefficientOfVariation(sqrt: real -> real, s: seq<real>, guard: real): real
    requires s != [] && guard > 0.0
  {
    if Mean(s) >= guard then StdDev(sqrt, s, Mean(s)) / Mean(s) else 0.0
  }

  function OverMean(peak: real, mean: real, guard: real): real
    requires guard > 0.0
  {
    peak / RealMax(mean, guard)
  }

  function PeakToTrough(s: seq<real>, guard: real): real
    requires s != [] && guard > 0.0
  {
    OverMean(Percentile(s, 0.99), Mean(s), guard)
  }

  function HourlyAutocorr(sqrt: real -> real, s: seq<real>, lag: nat): real {
    Autocorrelation(sqrt, Detrended(s, TrendSlope(s)), lag, MIN_TOD_OVERLAP)
  }

  function HourlyAutocorrLag(resolutionMin: int): nat {
    if resolutionMin <= 0 then 0 else 60 / resolutionMin
  }

  function TrendSlopeRpsPerMin(s: seq<real>, resolutionMin: int): real {
    if resolutionMin <= 0 then TrendSlope(s) else TrendSlope(s) / resolutionMin as real
  }

  /** First version: one-minute cadence, and zero features for an empty series. */
  function ExtractFeatures(sqrt: real -> real, s: seq<real>, guard: real): Features
    requires guard > 0.0
  {
    if s == [] then Features(0.0, 0.0, 0.0, 0.0)
    else
      Features(CoefficientOfVariation(sqrt, s, guard), PeakToTrough(s, guard),
               HourlyAutocorr(sqrt, s, TOD_LAG), TrendSlope(s))
  }

  /** Second version: the features at a given cadence. */
  function ExtractFeaturesV2(sqrt: real -> real, s: seq<real>, guard: real, resolution: int): Features
    requires s != [] && guard > 0.0 && resolution >= 1
  {
    Features(CoefficientOfVariation(sqrt, s, guard), PeakToTrough(s, guard),
             HourlyAutocorr(sqrt, s, HourlyAutocorrLag(resolution)), TrendSlopeRpsPerMin(s, resolution))
  }

  // ---------------------------------------------------------------- pattern

  function RealAbs(x: real): real { if x < 0.0 then -x else x }

  function ClassifyWithMean(f: Features, mean: real): Pattern {
    if f.cv < 0.10 then Flat
    else if f.hourlyAutocorr > 0.70 then Periodic
    else if f.cv > 0.50 && f.peakToTrough > 5.0 then Spiky
    else if RealAbs(f.trendSlope) * 1440.0 / RealMax(mean, 1.0) > 0.20 then GradualRamp
    else DefaultPattern
  }

  function Classify(f: Features): Pattern { ClassifyWithMean(f, 1.0) }

  function ConfidenceOf(points: nat, highThreshold: int, minThreshold: int): Confidence {
    if points >= highThreshold then High else if points >= minThreshold then Medium else Insufficient
  }

  // ---------------------------------------------------------------- parameters

  function Power2(k: nat): nat { if k == 0 then 1 else 2 * Power2(k - 1) }

  lemma {:induction false} Power2Grows(k: nat)
    ensures Power2(k) >= k + 1
  {
    if k > 0 {
      Power2Grows(k - 1);
    }
  }

  /** Least exponent from `k` on whose power of two reaches `x`. */
  function CeilLog2From(x: real, k: nat): (e: nat)
    ensures e >= k && x <= Power2(e) as real
    ensures forall j :: k <= j < e ==> Power2(j) as real < x
    decreases Max(0, Ceil(x) - k)
  {
    Power2Grows(k);
    if x <= Power2(k) as real then k else CeilLog2From(x, k + 1)
  }

  /** The binary logarithm rounded up, for values above one. */
  function CeilLog2(x: real): nat { CeilLog2From(x, 0) }

  function ClampInt32(v: int32, lo: int32, hi: int32): int32 {
    if v < lo then lo else if v > hi then hi else v
  }

  function RawUp(cv: real): real
    requires cv >= 0.0
  {
    120.0 / (1.0 + 2.0 * cv)
  }

  function RawDown(cv: real, hourlyAutocorr: real): real
    requires cv >= 0.0
  {
    180.0 * (1.0 + 1.5 * cv) / (1.0 + 0.5 * RealMax(0.0, hourlyAutocorr))
  }

  function ForecasterForPattern(p: Pattern): Forecaster {
    match p
    case Periodic => Prophet
    case Spiky => GbdtQuantile
    case Flat => LinearExtrap
    case GradualRamp => LinearExtrap
    case DefaultPattern => LinearExtrap
  }

  function ComputeParams(f: Features, p: Pattern, minReplicas: int32, maxReplicas: int32, unspecified: int32): Params
    requires f.cv >= 0.0
  {
    var step := if f.peakToTrough <= 1.0 then 1 else ToInt32(CeilLog2(f.peakToTrough) as real, unspecified);
    var range := Wrap32(maxReplicas - minReplicas);
    Params(ClampInt32(ToInt32(Round(RawUp(f.cv)) as real, unspecified), 30, 180),
           ClampInt32(ToInt32(Round(RawDown(f.cv, f.hourlyAutocorr)) as real, unspecified), 60, 600),
           ClampInt32(step, 1, if range < 1 then 1 else range),
           ForecasterForPattern(p))
  }

  // ---------------------------------------------------------------- the two pipelines

  function ResultOf(f: Features, p: Pattern, points: nat, highThreshold: int, minThreshold: int,
                    minReplicas: int32, maxReplicas: int32, unspecified: int32): Result
    requires f.cv >= 0.0
  {
    Result(p, ConfidenceOf(points, highThreshold, minThreshold),
           ComputeParams(f, p, minReplicas, maxReplicas, unspecified), points, f)
  }

  lemma {:induction false} CvNonNegative(sqrt: real -> real, s: seq<real>, guard: real)
    requires s != [] && guard > 0.0 && IsSquareRoot(sqrt)
    ensures CoefficientOfVariation(sqrt, s, guard) >= 0.0
  {
    var m := Mean(s);
    SquareNonNegative(Offset(s, m), |s|);
    assert Dot(Offset(s, m), Offset(s, m), |s|) / |s| as real >= 0.0;
    assert StdDev(sqrt, s, m) >= 0.0;
    if m >= guard {
      assert StdDev(sqrt, s, m) / m >= 0.0;
    }
  }

  function RunPipeline(sqrt: real -> real, s: seq<real>, highThreshold: int, minThreshold: int,
                       minReplicas: int32, maxReplicas: int32, guard: real, unspecified: int32): Option<Result>
    requires guard > 0.0 && IsSquareRoot(sqrt)
  {
    if |s| < minThreshold then None
    else
      var f := ExtractFeatures(sqrt, s, guard);
      assert f.cv >= 0.0 by { if s != [] { CvNonNegative(sqrt, s, guard); } }
      Some(ResultOf(f, Classify(f), |s|, highThreshold, minThreshold, minReplicas, maxReplicas, unspecified))
  }

  datatype PipelineConfig = PipelineConfig(
    resolutionMin: int, hourlyProfileMinHours: int, cvGuardMeanRps: real, startHourUTC: int)

  datatype ContextOutput = ContextOutput(
    baselineRps: int32, peakP95Rps: int32, trend24hSlope: real, hourlyProfile: seq<int32>, hourlyProfileValid: bool)

  function ComputeBaselineRps(s: seq<real>, unspecified: int32): int32 {
    ToInt32(Round(Median(s)) as real, unspecified)
  }

  function ComputePeakP95Rps(s: seq<real>, unspecified: int32): int32 {
    ToInt32(Round(Percentile(s, 0.95)) as real, unspecified)
  }

  function ContextOf(s: seq<real>, resolution: int, cfg: PipelineConfig, unspecified: int32): ContextOutput
    requires s != []
  {
    var pph, start := PointsPerHour(resolution), Max(cfg.startHourUTC, 0);
    ContextOutput(ComputeBaselineRps(s, unspecified), ComputePeakP95Rps(s, unspecified),
                  TrendSlopeRpsPerMin(s, resolution),
                  seq(24, h requires 0 <= h < 24 => Bin(s, pph, start, h, unspecified)),
                  HoursReached(|s|, pph) >= cfg.hourlyProfileMinHours)
  }

  /** The second version's features, with the configuration's two defaults applied. */
  function ConfiguredFeatures(sqrt: real -> real, s: seq<real>, cfg: PipelineConfig, defaultGuard: real): (f: Features)
    requires s != [] && defaultGuard > 0.0 && IsSquareRoot(sqrt)
    ensures f.cv >= 0.0
  {
    var resolution := if cfg.resolutionMin < 1 then 1 else cfg.resolutionMin;
    var guard := if cfg.cvGuardMeanRps <= 0.0 then defaultGuard else cfg.cvGuardMeanRps;
    CvNonNegative(sqrt, s, guard);
    ExtractFeaturesV2(sqrt, s, guard, resolution)
  }

  function RunPipelineV2(sqrt: real -> real, s: seq<real>, highThreshold: int, minThreshold: int,
                         minReplicas: int32, maxReplicas: int32, cfg: PipelineConfig, defaultGuard: real,
                         unspecified: int32): Option<(Result, ContextOutput)>
    requires s != [] && defaultGuard > 0.0 && IsSquareRoot(sqrt)
  {
    if |s| < minThreshold then None
    else
      var resolution := if cfg.resolutionMin < 1 then 1 else cfg.resolutionMin;
      var f := ConfiguredFeatures(sqrt, s, cfg, defaultGuard);
      Some((ResultOf(f, ClassifyWithMean(f, Mean(s)), |s|, highThreshold, minThreshold,
                     minReplicas, maxReplicas, unspecified),
            ContextOf(s, resolution, cfg, unspecified)))
  }

  // ---------------------------------------------------------------- refinement

  lemma {:induction false} QuotientAtMost(x: real, d: real)
    requires x >= 0.0 && d >= 1.0
    ensures 0.0 <= x / d <= x
  {
    var q := x / d;
    assert q * d == x;
    assert q < 0.0 ==> q * d < 0.0;
    assert q > x ==> q * d >= q * 1.0;
  }

  lemma {:induction false} QuotientAtLeast(x: real, d: real, c: real)
    requires d > 0.0 && x >= c * d
    ensures x / d >= c
  {
    var q := x / d;
    assert q * d == x;
    assert q < c ==> q * d < c * d;
  }

  lemma {:induction false} ScaledThreshold(x: real, mean: real)
    requires x >= 0.0
    ensures x / RealMax(mean, 1.0) <= x / RealMax(1.0, 1.0)
  {
    QuotientAtMost(x, RealMax(mean, 1.0));
  }

  /** Scaling the ramp threshold by the mean can only turn a gradual ramp into the default pattern, which gets the
      same forecaster. */
  lemma {:induction false} MeanOnlyDropsRamps(f: Features, mean: real)
    ensures ClassifyWithMean(f, mean) == Classify(f)
            || (Classify(f).GradualRamp? && ClassifyWithMean(f, mean).DefaultPattern?)
    ensures ForecasterForPattern(ClassifyWithMean(f, mean)) == ForecasterForPattern(Classify(f))
  {
    ScaledThreshold(RealAbs(f.trendSlope) * 1440.0, mean);
  }

  lemma {:induction false} SameFeatures(sqrt: real -> real, s: seq<real>, guard: real)
    requires s != [] && guard > 0.0
    ensures ExtractFeaturesV2(sqrt, s, guard, 1) == ExtractFeatures(sqrt, s, guard)
  {
    assert TrendSlope(s) / 1 as real == TrendSlope(s);
    assert HourlyAutocorrLag(1) == TOD_LAG;
  }

  lemma {:induction false} ConfiguredAlike(sqrt: real -> real, s: seq<real>, cfg: PipelineConfig, guard: real)
    requires s != [] && guard > 0.0 && IsSquareRoot(sqrt)
    requires cfg.resolutionMin <= 1 && (cfg.cvGuardMeanRps <= 0.0 || cfg.cvGuardMeanRps == guard)
    ensures ConfiguredFeatures(sqrt, s, cfg, guard) == ExtractFeatures(sqrt, s, guard)
  {
    SameFeatures(sqrt, s, guard);
  }

  lemma {:induction false} SameResult(f: Features, mean: real, points: nat, highThreshold: int, minThreshold: int,
                                      minReplicas: int32, maxReplicas: int32, unspecified: int32)
    requires f.cv >= 0.0
    ensures var r1 := ResultOf(f, Classify(f), points, highThreshold, minThreshold,
                               minReplicas, maxReplicas, unspecified);
            var r2 := ResultOf(f, ClassifyWithMean(f, mean), points, highThreshold, minThreshold,
                               minReplicas, maxReplicas, unspecified);
            r2 == r1 || (r1.pattern.GradualRamp? && r2 == r1.(pattern := DefaultPattern))
  {
    MeanOnlyDropsRamps(f, mean);
  }

  /** The second version refines the first at one-minute cadence: same features, confidence, parameters and history
      length. The pattern differs only where the first sees a gradual ramp and the second, which scales the threshold
      by the mean, sees none. The feature formulae are shared definitions here, so what this adds is the two defaults,
      the lag and slope units at one minute, and the effect of the mean (`MeanOnlyDropsRamps`). */
  lemma {:induction false} V2RefinesV1(sqrt: real -> real, s: seq<real>, highThreshold: int, minThreshold: int,
                                       minReplicas: int32, maxReplicas: int32, cfg: PipelineConfig, guard: real,
                                       unspecified: int32)
    requires s != [] && guard > 0.0 && IsSquareRoot(sqrt)
    requires cfg.resolutionMin <= 1 && (cfg.cvGuardMeanRps <= 0.0 || cfg.cvGuardMeanRps == guard)
    ensures var v1 := RunPipeline(sqrt, s, highThreshold, minThreshold, minReplicas, maxReplicas, guard, unspecified);
            var v2 := RunPipelineV2(sqrt, s, highThreshold, minThreshold, minReplicas, maxReplicas, cfg, guard,
                                    unspecified);
            && (v1.Some? <==> v2.Some?)
            && (v1.Some? ==>
                  var r1, r2 := v1.value, v2.value.0;
                  r2 == r1 || (r1.pattern.GradualRamp? && r2 == r1.(pattern := DefaultPattern)))
  {
    ConfiguredAlike(sqrt, s, cfg, guard);
    SameResult(ExtractFeatures(sqrt, s, guard), Mean(s), |s|, highThreshold, minThreshold,
               minReplicas, maxReplicas, unspecified);
  }

  // ---------------------------------------------------------------- parameter ranges

  lemma {:induction false} UpRange(cv: real)
    requires cv >= 0.0
    ensures 0 <= Round(RawUp(cv)) <= 120
  {
    QuotientAtMost(120.0, 1.0 + 2.0 * cv);
  }

  lemma {:induction false} DownAtLeast(cv: real, h: real)
    requires cv >= 0.0 && h <= 1.0
    ensures RawDown(cv, h) >= 120.0 * (1.0 + 1.5 * cv) >= 120.0
  {
    var spread, d := 1.0 + 1.5 * cv, 1.0 + 0.5 * RealMax(0.0, h);
    assert 120.0 * spread * d <= 120.0 * spread * 1.5;
    QuotientAtLeast(180.0 * spread, d, 120.0 * spread);
  }

  lemma {:induction false} DownAtMost(cv: real, h: real, limit: real)
    requires 0.0 <= cv <= limit
    ensures RawDown(cv, h) <= 180.0 * (1.0 + 1.5 * limit)
  {
    QuotientAtMost(180.0 * (1.0 + 1.5 * cv), 1.0 + 0.5 * RealMax(0.0, h));
  }

  /** With a correlation of at most 1, the scale-up cooldown lies in [30, 120], the step between 1 and the replica
      range, and the scale-down cooldown in [120, 600] so long as its raw value fits 32 bits: the ceiling of 180 and
      the floor of 60 are out of reach. */
  lemma {:induction false} ParamRanges(f: Features, p: Pattern, minReplicas: int32, maxReplicas: int32,
                                       unspecified: int32)
    requires f.cv >= 0.0 && f.hourlyAutocorr <= 1.0
    ensures var params := ComputeParams(f, p, minReplicas, maxReplicas, unspecified);
            && 30 <= params.scaleUpCooldown <= 120
            && 1 <= params.maxStep <= Max(1, Wrap32(maxReplicas - minReplicas))
            && (Round(RawDown(f.cv, f.hourlyAutocorr)) <= MAX_INT32 ==> 120 <= params.scaleDownCooldown <= 600)
  {
    UpRange(f.cv);
    DownAtLeast(f.cv, f.hourlyAutocorr);
    var up, down := Round(RawUp(f.cv)), Round(RawDown(f.cv, f.hourlyAutocorr));
    assert Truncate(up as real) == up && Truncate(down as real) == down;
  }

  predicate StepInBounds(params: Params, minReplicas: int32, maxReplicas: int32) {
    1 <= params.maxStep <= Max(1, Wrap32(maxReplicas - minReplicas))
  }

  /** The step lies between 1 and the replica range for any features. */
  lemma {:induction false} StepInRange(f: Features, p: Pattern, minReplicas: int32, maxReplicas: int32,
                                       unspecified: int32)
    requires f.cv >= 0.0
    ensures StepInBounds(ComputeParams(f, p, minReplicas, maxReplicas, unspecified), minReplicas, maxReplicas)
  {}

  lemma {:induction false} PipelineStep(sqrt: real -> real, s: seq<real>, highThreshold: int, minThreshold: int,
                                        minReplicas: int32, maxReplicas: int32, guard: real, unspecified: int32)
    requires guard > 0.0 && IsSquareRoot(sqrt)
    ensures var v1 := RunPipeline(sqrt, s, highThreshold, minThreshold, minReplicas, maxReplicas, guard, unspecified);
            v1.Some? ==> StepInBounds(v1.value.params, minReplicas, maxReplicas)
  {
    var f := ExtractFeatures(sqrt, s, guard);
    if s != [] {
      CvNonNegative(sqrt, s, guard);
    }
    StepInRange(f, Classify(f), minReplicas, maxReplicas, unspecified);
  }

  lemma {:induction false} PipelineV2Step(sqrt: real -> real, s: seq<real>, highThreshold: int, minThreshold: int,
                                          minReplicas: int32, maxReplicas: int32, cfg: PipelineConfig,
                                          defaultGuard: real, unspecified: int32)
    requires s != [] && defaultGuard > 0.0 && IsSquareRoot(sqrt)
    ensures var v2 := RunPipelineV2(sqrt, s, highThreshold, minThreshold, minReplicas, maxReplicas, cfg, defaultGuard,
                                    unspecified);
            v2.Some? ==> StepInBounds(v2.value.0.params, minReplicas, maxReplicas)
  {
    var f := ConfiguredFeatures(sqrt, s, cfg, defaultGuard);
    StepInRange(f, ClassifyWithMean(f, Mean(s)), minReplicas, maxReplicas, unspecified);
  }

  /** Beyond that the conversion is the platform's to choose, and on one that yields the least `int32` a huge
      spread drops the cooldown to 60. */
  lemma {:induction false} HugeSpreadEscapes(f: Features, p: Pattern, minReplicas: int32, maxReplicas: int32)
    requires f.cv >= 0.0 && Round(RawDown(f.cv, f.hourlyAutocorr)) > MAX_INT32
    ensures ComputeParams(f, p, minReplicas, maxReplicas, MIN_INT32).scaleDownCooldown == 60
  {
    var down := Round(RawDown(f.cv, f.hourlyAutocorr));
    assert Truncate(down as real) == down;
  }

  lemma {:induction false} QuotientMonotone(x: real, y: real, d: real, e: real)
    requires 0.0 <= x <= y && 0.0 < e <= d
    ensures x / d <= y / e
  {
    var q := x / d;
    assert q * d == x;
    assert q < 0.0 ==> q * d < 0.0;
    assert q >= 0.0 ==> q * e <= q * d;
    QuotientAtLeast(y, e, q);
  }

  lemma {:induction false} Exact(n: int, unspecified: int32)
    requires MIN_INT32 <= n <= MAX_INT32
    ensures ToInt32(n as real, unspecified) == n
  {}

  /** Direction of the formulae: a wider spread never lengthens the scale-up cooldown, and a wider spread or a weaker
      hourly rhythm never shortens the scale-down cooldown. */
  lemma {:induction false} CooldownsFollowSpread(f: Features, g: Features, p: Pattern, q: Pattern,
                                                 minReplicas: int32, maxReplicas: int32, unspecified: int32)
    requires 0.0 <= f.cv <= g.cv && g.hourlyAutocorr <= f.hourlyAutocorr <= 1.0
    requires Round(RawDown(g.cv, g.hourlyAutocorr)) <= MAX_INT32
    ensures var narrow := ComputeParams(f, p, minReplicas, maxReplicas, unspecified);
            var wide := ComputeParams(g, q, minReplicas, maxReplicas, unspecified);
            wide.scaleUpCooldown <= narrow.scaleUpCooldown && narrow.scaleDownCooldown <= wide.scaleDownCooldown
  {
    QuotientMonotone(120.0, 120.0, 1.0 + 2.0 * g.cv, 1.0 + 2.0 * f.cv);
    QuotientMonotone(180.0 * (1.0 + 1.5 * f.cv), 180.0 * (1.0 + 1.5 * g.cv),
                     1.0 + 0.5 * RealMax(0.0, f.hourlyAutocorr), 1.0 + 0.5 * RealMax(0.0, g.hourlyAutocorr));
    RoundMonotone(RawUp(g.cv), RawUp(f.cv));
    RoundMonotone(RawDown(f.cv, f.hourlyAutocorr), RawDown(g.cv, g.hourlyAutocorr));
    UpRange(f.cv);
    UpRange(g.cv);
    DownAtLeast(f.cv, f.hourlyAutocorr);
    Exact(Round(RawUp(f.cv)), unspecified);
    Exact(Round(RawUp(g.cv)), unspecified);
    Exact(Round(RawDown(f.cv, f.hourlyAutocorr)), unspecified);
    Exact(Round(RawDown(g.cv, g.hourlyAutocorr)), unspecified);
  }

  /** The step is the least one whose power of two reaches the peak-to-trough ratio, unless the replica range, or one,
      stops it first. */
  lemma {:induction false} StepReachesPeak(f: Features, p: Pattern, minReplicas: int32, maxReplicas: int32,
                                           unspecified: int32)
    requires f.cv >= 0.0 && (f.peakToTrough > 1.0 ==> CeilLog2(f.peakToTrough) <= MAX_INT32)
    ensures var step := ComputeParams(f, p, minReplicas, maxReplicas, unspecified).maxStep;
            && step >= 1
            && (f.peakToTrough <= Power2(step) as real || step == Max(1, Wrap32(maxReplicas - minReplicas)))
            && (step > 1 ==> Power2(step - 1) as real < f.peakToTrough)
  {
    assert Power2(1) == 2;
    if f.peakToTrough > 1.0 {
      var e := CeilLog2(f.peakToTrough);
      Exact(e, unspecified);
      assert Power2(0) == 1;
    }
  }

  /** Prophet is chosen exactly for a strong hourly rhythm, the quantile model exactly for a bursty series without one,
      and linear extrapolation for everything else. */
  lemma {:induction false} ForecasterByFeatures(f: Features, mean: real)
    ensures var chosen := ForecasterForPattern(ClassifyWithMean(f, mean));
            && (chosen.Prophet? <==> f.cv >= 0.10 && f.hourlyAutocorr > 0.70)
            && (chosen.GbdtQuantile? <==> f.cv > 0.50 && f.peakToTrough > 5.0 && f.hourlyAutocorr <= 0.70)
  {}

  lemma {:induction false} RootBelow(x: real, limit: real)
    requires x >= 0.0 && limit > 0.0 && x * x <= limit * limit
    ensures x <= limit
  {
    assert (x - limit) * (x + limit) == x * x - limit * limit;
    assert x > limit ==> (x - limit) * (x + limit) > 0.0;
  }

  lemma {:induction false} FactorBelow(a: real, m: real, bound: real)
    requires m > 0.0 && a * m <= bound * m
    ensures a <= bound
  {
    assert a > bound ==> a * m > bound * m;
  }

  lemma {:induction false} RatioSquared(sd: real, m: real, bound: real)
    requires m > 0.0 && sd * sd <= bound * (m * m)
    ensures (sd / m) * (sd / m) <= bound
  {
    var q := sd / m;
    assert q * m == sd;
    assert sd * sd == (q * q) * (m * m);
    PositiveProduct(m, m, m * m);
    FactorBelow(q * q, m * m, bound);
  }

  /** A number of samples up to which no load overflows the scale-down formula. */
  const LARGEST_LOAD := 63_000_000_000_000

  /** A non-negative load of up to that many samples varies by less than eight million times its mean. */
  lemma {:induction false} LoadSpread(sqrt: real -> real, s: seq<real>, guard: real)
    requires s != [] && NonNegative(s) && |s| <= LARGEST_LOAD && guard > 0.0 && IsSquareRoot(sqrt)
    ensures 0.0 <= CoefficientOfVariation(sqrt, s, guard) <= 7_953_642.0
  {
    CvNonNegative(sqrt, s, guard);
    var m := Mean(s);
    if m >= guard {
      VarianceBound(sqrt, s);
      RatioSquared(StdDev(sqrt, s, m), m, |s| as real - 1.0);
      RootBelow(CoefficientOfVariation(sqrt, s, guard), 7_953_642.0);
    }
  }

  predicate ParamsInRange(params: Params, minReplicas: int32, maxReplicas: int32) {
    && 30 <= params.scaleUpCooldown <= 120
    && 120 <= params.scaleDownCooldown <= 600
    && StepInBounds(params, minReplicas, maxReplicas)
  }

  lemma {:induction false} SpreadKeepsRange(f: Features, p: Pattern, minReplicas: int32, maxReplicas: int32,
                                            unspecified: int32)
    requires 0.0 <= f.cv <= 7_953_642.0 && f.hourlyAutocorr <= 1.0
    ensures ParamsInRange(ComputeParams(f, p, minReplicas, maxReplicas, unspecified), minReplicas, maxReplicas)
  {
    DownAtMost(f.cv, f.hourlyAutocorr, 7_953_642.0);
    ParamRanges(f, p, minReplicas, maxReplicas, unspecified);
  }

  /** Every run of the first pipeline on a load, empty or not, yields a scale-up cooldown in [30, 120], a
      scale-down cooldown in [120, 600] and a step between 1 and the replica range. */
  lemma {:induction false} PipelineRanges(sqrt: real -> real, s: seq<real>, highThreshold: int, minThreshold: int,
                                          minReplicas: int32, maxReplicas: int32, guard: real, unspecified: int32)
    requires NonNegative(s) && |s| <= LARGEST_LOAD && guard > 0.0 && IsSquareRoot(sqrt)
    ensures var v1 := RunPipeline(sqrt, s, highThreshold, minThreshold, minReplicas, maxReplicas, guard, unspecified);
            v1.Some? ==> ParamsInRange(v1.value.params, minReplicas, maxReplicas)
  {
    var f := ExtractFeatures(sqrt, s, guard);
    if s != [] {
      LoadSpread(sqrt, s, guard);
      AutocorrelationBound(sqrt, Detrended(s, TrendSlope(s)), TOD_LAG, MIN_TOD_OVERLAP);
    }
    SpreadKeepsRange(f, Classify(f), minReplicas, maxReplicas, unspecified);
  }

  /** The same for the second pipeline, at every cadence and guard. */
  lemma {:induction false} PipelineV2Ranges(sqrt: real -> real, s: seq<real>, highThreshold: int, minThreshold: int,
                                            minReplicas: int32, maxReplicas: int32, cfg: PipelineConfig,
                                            defaultGuard: real, unspecified: int32)
    requires s != [] && NonNegative(s) && |s| <= LARGEST_LOAD && defaultGuard > 0.0 && IsSquareRoot(sqrt)
    ensures var v2 := RunPipelineV2(sqrt, s, highThreshold, minThreshold, minReplicas, maxReplicas, cfg, defaultGuard,
                                    unspecified);
            v2.Some? ==> ParamsInRange(v2.value.0.params, minReplicas, maxReplicas)
  {
    var resolution := if cfg.resolutionMin < 1 then 1 else cfg.resolutionMin;
    var guard := if cfg.cvGuardMeanRps <= 0.0 then defaultGuard else cfg.cvGuardMeanRps;
    var f := ExtractFeaturesV2(sqrt, s, guard, resolution);
    LoadSpread(sqrt, s, guard);
    AutocorrelationBound(sqrt, Detrended(s, TrendSlope(s)), HourlyAutocorrLag(resolution), MIN_TOD_OVERLAP);
    SpreadKeepsRange(f, ClassifyWithMean(f, Mean(s)), minReplicas, maxReplicas, unspecified);
  }

  // ---------------------------------------------------------------- consequences for patterns

  /** A straight ramp has no hourly correlation left, so at no cadence is it ever taken for periodic. */
  lemma {:induction false} LinesAreNeverPeriodic(sqrt: real -> real, s: seq<real>, slope: real, intercept: real,
                                                 guard: real, resolution: int, mean: real)
    requires |s| >= 2 && IsLine(s, slope, intercept) && guard > 0.0 && resolution >= 1
    ensures ExtractFeaturesV2(sqrt, s, guard, resolution).hourlyAutocorr == 0.0
    ensures !ClassifyWithMean(ExtractFeaturesV2(sqrt, s, guard, resolution), mean).Periodic?
    ensures !Classify(ExtractFeatures(sqrt, s, guard)).Periodic?
  {
    LinesDoNotCorrelate(sqrt, s, slope, intercept, HourlyAutocorrLag(resolution), MIN_TOD_OVERLAP);
    LinesDoNotCorrelate(sqrt, s, slope, intercept, TOD_LAG, MIN_TOD_OVERLAP);
  }

  lemma {:induction false} FlatResidualIsLine(s: seq<real>)
    requires s != []
    ensures var r := Detrended(s, TrendSlope(s));
            Dot(Deviation(r), Deviation(r), |r|) == 0.0 <==> IsLine(s, TrendSlope(s), Intercept(s, TrendSlope(s)))
  {
    var slope := TrendSlope(s);
    var r := Detrended(s, slope);
    DetrendingIsComplete(s);
    assert forall i :: 0 <= i < |s| ==> Deviation(r)(i) == r[i];
    if Dot(Deviation(r), Deviation(r), |r|) == 0.0 {
      ZeroSquare(Deviation(r), |r|);
      forall i | 0 <= i < |s| ensures s[i] == Intercept(s, slope) + slope * i as real {
        assert Deviation(r)(i) == 0.0;
      }
    } else if IsLine(s, slope, Intercept(s, slope)) {
      DotZero(Deviation(r), Deviation(r), |r|);
    }
  }

  lemma {:induction false} PeriodicIff(f: Features, mean: real)
    ensures ClassifyWithMean(f, mean).Periodic? <==> f.cv >= 0.10 && f.hourlyAutocorr > 0.70
  {}

  /** Above one sample an hour the lag rounds to zero and the series is correlated with itself: a series of ten
      samples or more classifies as periodic exactly when it is neither flat nor a straight line. */
  lemma {:induction false} CoarseCadenceIsPeriodic(sqrt: real -> real, s: seq<real>, guard: real, resolution: int,
                                                   mean: real)
    requires |s| >= 10 && guard > 0.0 && resolution > 60 && IsSquareRoot(sqrt)
    ensures ClassifyWithMean(ExtractFeaturesV2(sqrt, s, guard, resolution), mean).Periodic?
            <==> && CoefficientOfVariation(sqrt, s, guard) >= 0.10
                 && !IsLine(s, TrendSlope(s), Intercept(s, TrendSlope(s)))
  {
    var r := Detrended(s, TrendSlope(s));
    assert HourlyAutocorrLag(resolution) == 0;
    LagZeroIsOne(sqrt, r, MIN_TOD_OVERLAP);
    FlatResidualIsLine(s);
    PeriodicIff(ExtractFeaturesV2(sqrt, s, guard, resolution), mean);
  }

  function Narrowed(n: int, unspecified: int32): int32 { ToInt32(n as real, unspecified) }

  /** Narrowing keeps the order of two naturals on every platform exactly when the larger fits or neither does. */
  lemma {:induction false} NarrowedOrder(m: nat, n: nat)
    requires m <= n
    ensures (forall u: int32 :: Narrowed(m, u) <= Narrowed(n, u)) <==> n <= MAX_INT32 || m > MAX_INT32
  {
    forall u: int32
      ensures Narrowed(m, u) == if m <= MAX_INT32 then m else u
      ensures Narrowed(n, u) == if n <= MAX_INT32 then n else u
    {
      assert Truncate(m as real) == m && Truncate(n as real) == n;
    }
    var least: int32 := MIN_INT32;
    assert Narrowed(m, least) <= Narrowed(n, least) <==> n <= MAX_INT32 || m > MAX_INT32;
  }

  lemma {:induction false} BothNarrowed(s: seq<real>)
    ensures forall u: int32 :: ComputeBaselineRps(s, u) == Narrowed(Round(Median(s)), u)
    ensures forall u: int32 :: ComputePeakP95Rps(s, u) == Narrowed(Round(Percentile(s, 0.95)), u)
  {}

  /** The rounded baseline never exceeds the rounded 95th percentile. Narrowed to 32 bits, that survives on every
      platform exactly when the percentile fits or neither does. */
  lemma {:induction false} BaselineBelowPeak(s: seq<real>)
    requires s != []
    ensures Round(Median(s)) <= Round(Percentile(s, 0.95))
    ensures NonNegative(s) ==>
              ((forall u: int32 :: ComputeBaselineRps(s, u) <= ComputePeakP95Rps(s, u))
               <==> Round(Percentile(s, 0.95)) <= MAX_INT32 || Round(Median(s)) > MAX_INT32)
  {
    MedianBelowUpperPercentile(s, 0.95);
    RoundMonotone(Median(s), Percentile(s, 0.95));
    if NonNegative(s) {
      MedianAtLeast(s, 0.0);
      NarrowedOrder(Round(Median(s)), Round(Percentile(s, 0.95)));
      BothNarrowed(s);
    }
  }
}
