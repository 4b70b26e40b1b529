/** What a classification reports and writes, from the samples it saw. */
module ClassificationLaws {
  import opened Prelude
  import opened OrderStatistics
  import opened Sums
  import opened LeastSquares
  import opened Correlation
  import opened HourlyProfile
  import opened Pipeline
  import opened FeatureLaws
  import opened Decision
  import opened ClassifierWorker
  import Api

  // ---------------------------------------------------------------- parameters

  /** Some power of two with an exponent of 32 bits reaches the ratio. */
  ghost predicate FiniteRatio(ratio: real) { exists e: nat :: e <= MAX_INT32 && ratio <= Power2(e) as real }

  /** The raw scale-down cooldown stays inside 32 bits. */
  predicate DownIsInt32(f: Features) { DownTop(f.cv) <= MAX_INT32 as real * DownBottom(f.hourlyAutocorr) }

  /** The parameters follow from the features and the replica range. */
  ghost predicate ParamsFit(p: Params, f: Features, minReplicas: int32, maxReplicas: int32) {
    && UpFits(p.scaleUpCooldown, f.cv)
    && (DownIsInt32(f) ==> DownFits(p.scaleDownCooldown, f.cv, f.hourlyAutocorr))
    && (FiniteRatio(f.peakToTrough) ==>
          FeatureLaws.StepFits(p.maxStep, f.peakToTrough, Wrap32(maxReplicas - minReplicas)))
    && ForecasterFits(p.forecaster, f)
  }

  lemma {:induction false} LeastExponent(ratio: real)
    requires FiniteRatio(ratio)
    ensures CeilLog2(ratio) <= MAX_INT32
  {
    var e: nat :| e <= MAX_INT32 && ratio <= Power2(e) as real;
    assert e < CeilLog2(ratio) ==> Power2(e) as real < ratio;
  }

  lemma {:induction false} DownInt32(f: Features)
    requires f.cv >= 0.0 && DownIsInt32(f)
    ensures Round(RawDown(f.cv, f.hourlyAutocorr)) <= MAX_INT32
  {
    var top, bottom := DownTop(f.cv), DownBottom(f.hourlyAutocorr);
    QuotientExceeds(top, bottom, MAX_INT32 as real);
  }

  lemma {:induction false} StepLaw(f: Features, p: Pattern, minReplicas: int32, maxReplicas: int32, unspecified: int32)
    requires f.cv >= 0.0 && FiniteRatio(f.peakToTrough)
    ensures var params := ComputeParams(f, p, minReplicas, maxReplicas, unspecified);
            FeatureLaws.StepFits(params.maxStep, f.peakToTrough, Wrap32(maxReplicas - minReplicas))
  {
    LeastExponent(f.peakToTrough);
    StepReachesPeak(f, p, minReplicas, maxReplicas, unspecified);
    StepInRange(f, p, minReplicas, maxReplicas, unspecified);
  }

  lemma {:induction false} ParamsLaw(f: Features, mean: real, minReplicas: int32, maxReplicas: int32,
                                     unspecified: int32)
    requires f.cv >= 0.0 && f.hourlyAutocorr <= 1.0
    ensures ParamsFit(ComputeParams(f, ClassifyWithMean(f, mean), minReplicas, maxReplicas, unspecified), f,
                      minReplicas, maxReplicas)
  {
    var p := ClassifyWithMean(f, mean);
    UpLaw(f, p, minReplicas, maxReplicas, unspecified);
    if DownIsInt32(f) {
      DownInt32(f);
      DownLaw(f, p, minReplicas, maxReplicas, unspecified);
    }
    if FiniteRatio(f.peakToTrough) {
      StepLaw(f, p, minReplicas, maxReplicas, unspecified);
    }
    var params := ComputeParams(f, p, minReplicas, maxReplicas, unspecified);
    ForecasterWhen(f, mean, minReplicas, maxReplicas, unspecified, params.forecaster);
  }

  // ---------------------------------------------------------------- results

  ghost predicate ResultFits(r: Result, mean: real, points: nat, highThreshold: int, minThreshold: int,
                             minReplicas: int32, maxReplicas: int32)
  {
    && PatternFits(r.pattern, r.features, mean)
    && ConfidenceFits(r.confidence, points, highThreshold, minThreshold)
    && ParamsFit(r.params, r.features, minReplicas, maxReplicas)
    && r.historyPoints == points
  }

  lemma {:induction false} ResultLaw(f: Features, mean: real, points: nat, highThreshold: int, minThreshold: int,
                                     minReplicas: int32, maxReplicas: int32, unspecified: int32)
    requires f.cv >= 0.0 && f.hourlyAutocorr <= 1.0
    ensures var r := ResultOf(f, ClassifyWithMean(f, mean), points, highThreshold, minThreshold,
                              minReplicas, maxReplicas, unspecified);
            r.features == f && ResultFits(r, mean, points, highThreshold, minThreshold, minReplicas, maxReplicas)
  {
    PatternWhen(f, mean, ClassifyWithMean(f, mean));
    ConfidenceWhen(points, highThreshold, minThreshold, ConfidenceOf(points, highThreshold, minThreshold));
    ParamsLaw(f, mean, minReplicas, maxReplicas, unspecified);
  }

  const NO_FEATURES := Features(0.0, 0.0, 0.0, 0.0)

  lemma {:induction false} FirstFeatures(sqrt: real -> real, s: seq<real>, guard: real)
    requires s != [] && guard > 0.0 && IsSquareRoot(sqrt)
    ensures var f := ExtractFeatures(sqrt, s, guard);
            Describes(sqrt, f, s, guard, 1) && f.cv >= 0.0 && f.hourlyAutocorr <= 1.0
  {
    FeaturesDescribe(sqrt, s, guard, 1);
    SameFeatures(sqrt, s, guard);
    AutocorrelationBound(sqrt, Detrended(s, TrendSlope(s)), TOD_LAG, MIN_TOD_OVERLAP);
  }

  /** The first pipeline refuses exactly the series with too few points; for any other its features describe the
      series at one-minute cadence, and everything else it reports follows from them. */
  lemma {:induction false} PipelineReports(sqrt: real -> real, s: seq<real>, highThreshold: int, minThreshold: int,
                                           minReplicas: int32, maxReplicas: int32, guard: real, unspecified: int32)
    requires guard > 0.0 && IsSquareRoot(sqrt)
    ensures var v1 := RunPipeline(sqrt, s, highThreshold, minThreshold, minReplicas, maxReplicas, guard, unspecified);
            && (v1.None? <==> |s| < minThreshold)
            && (v1.Some? ==>
                  && ResultFits(v1.value, 1.0, |s|, highThreshold, minThreshold, minReplicas, maxReplicas)
                  && (if s == [] then v1.value.features == NO_FEATURES
                      else Describes(sqrt, v1.value.features, s, guard, 1)))
  {
    var f := ExtractFeatures(sqrt, s, guard);
    if s != [] {
      FirstFeatures(sqrt, s, guard);
    }
    ResultLaw(f, 1.0, |s|, highThreshold, minThreshold, minReplicas, maxReplicas, unspecified);
  }

  // ---------------------------------------------------------------- context

  /** `n` is `x` to the nearest integer, if `x` is in range. */
  predicate RoundsTo(n: int32, x: real) {
    MIN_INT32 as real <= x <= MAX_INT32 as real ==> -0.5 <= n as real - x <= 0.5
  }

  lemma {:induction false} RoundedInRange(x: real, unspecified: int32)
    ensures RoundsTo(ToInt32(Round(x) as real, unspecified), x)
  {
    if MIN_INT32 as real <= x <= MAX_INT32 as real {
      RoundMonotone(x, MAX_INT32 as real);
      RoundMonotone(MIN_INT32 as real, x);
      Exact(Round(x), unspecified);
    }
  }

  /** An hour's bin is the median of its samples to the nearest integer, and zero without any. */
  predicate BinFits(bin: int32, bucket: seq<real>) {
    if bucket == [] then bin == 0 else RoundsTo(bin, Median(bucket))
  }

  /** Whole samples an hour, at least one. */
  predicate PerHour(pph: nat, resolution: int) {
    if resolution <= 60 then pph * resolution <= 60 < (pph + 1) * resolution else pph == 1
  }

  lemma {:induction false} PerHourLaw(resolution: nat)
    requires resolution >= 1
    ensures PerHour(PointsPerHour(resolution), resolution)
  {
    FloorOfQuotient(60, resolution);
  }

  /** When the resolution divides the hour, a sample belongs to the hour of the day at which it was taken. */
  lemma {:induction false} HourOfTheDay(i: nat, resolution: nat, start: nat)
    requires 1 <= resolution <= 60 && 60 % resolution == 0
    ensures HourOf(i, PointsPerHour(resolution), start) == (60 * start + i * resolution) / 60 % 24
  {
    ExactHourOffset(i, resolution);
    var minutes := i * resolution;
    assert (60 * start + minutes) / 60 == start + minutes / 60;
  }

  predicate ProfileFits(profile: seq<int32>, s: seq<real>, pph: nat, start: nat)
    requires 1 <= pph
  {
    && |profile| == 24
    && forall h :: 0 <= h < 24 ==> BinFits(profile[h], Bucket(s, |s|, pph, start, h))
  }

  predicate ContextFits(c: ContextOutput, s: seq<real>, resolution: int, pph: nat, start: nat, minHours: int)
    requires s != [] && 1 <= pph
  {
    && RoundsTo(c.baselineRps, Median(s))
    && RoundsTo(c.peakP95Rps, Percentile(s, 0.95))
    && TrendOf(c.trend24hSlope, s, resolution)
    && PerHour(pph, resolution)
    && ProfileFits(c.hourlyProfile, s, pph, start)
    && (c.hourlyProfileValid <==> |Populated(s, pph, start)| >= minHours)
  }

  lemma {:induction false} ProfileLaw(s: seq<real>, resolution: nat, cfg: PipelineConfig, unspecified: int32)
    requires s != [] && resolution >= 1
    ensures ProfileFits(ContextOf(s, resolution, cfg, unspecified).hourlyProfile, s, PointsPerHour(resolution),
                        Max(cfg.startHourUTC, 0))
  {
    var profile := ContextOf(s, resolution, cfg, unspecified).hourlyProfile;
    var pph, start := PointsPerHour(resolution), Max(cfg.startHourUTC, 0);
    forall h | 0 <= h < 24 ensures BinFits(profile[h], Bucket(s, |s|, pph, start, h)) {
      assert profile[h] == Bin(s, pph, start, h, unspecified);
      RoundedInRange(Median(Bucket(s, |s|, pph, start, h)), unspecified);
    }
  }

  /** The context summarises the series: baseline and peak are its median and 95th percentile to the nearest integer,
      the trend is per minute, every bin is its hour's median, and the profile is valid once enough hours are
      populated. */
  lemma {:induction false} ContextLaw(s: seq<real>, resolution: nat, cfg: PipelineConfig, unspecified: int32)
    requires s != [] && resolution >= 1
    ensures ContextFits(ContextOf(s, resolution, cfg, unspecified), s, resolution, PointsPerHour(resolution),
                        Max(cfg.startHourUTC, 0), cfg.hourlyProfileMinHours)
  {
    RoundedInRange(Median(s), unspecified);
    RoundedInRange(Percentile(s, 0.95), unspecified);
    TrendLaw(s, resolution);
    PerHourLaw(resolution);
    ProfileLaw(s, resolution, cfg, unspecified);
    PopulatedCount(s, PointsPerHour(resolution), Max(cfg.startHourUTC, 0));
  }

  // ---------------------------------------------------------------- the second pipeline

  function Cadence(resolutionMin: int): nat { Max(resolutionMin, 1) }

  function GuardOf(guard: real, default: real): real { if guard > 0.0 then guard else default }

  lemma {:induction false} SecondFeatures(sqrt: real -> real, s: seq<real>, cfg: PipelineConfig, guard: real)
    requires s != [] && guard > 0.0 && IsSquareRoot(sqrt)
    ensures var f := ConfiguredFeatures(sqrt, s, cfg, guard);
            && Describes(sqrt, f, s, GuardOf(cfg.cvGuardMeanRps, guard), Cadence(cfg.resolutionMin))
            && f.cv >= 0.0 && f.hourlyAutocorr <= 1.0
  {
    var resolution := Cadence(cfg.resolutionMin);
    FeaturesDescribe(sqrt, s, GuardOf(cfg.cvGuardMeanRps, guard), resolution);
    AutocorrelationBound(sqrt, Detrended(s, TrendSlope(s)), HourlyAutocorrLag(resolution), MIN_TOD_OVERLAP);
  }

  /** The second pipeline likewise, at the configured cadence and guard, and with the context. */
  lemma {:induction false} PipelineV2Reports(sqrt: real -> real, s: seq<real>, highThreshold: int, minThreshold: int,
                                             minReplicas: int32, maxReplicas: int32, cfg: PipelineConfig, guard: real,
                                             unspecified: int32)
    requires s != [] && guard > 0.0 && IsSquareRoot(sqrt)
    ensures var v2 := RunPipelineV2(sqrt, s, highThreshold, minThreshold, minReplicas, maxReplicas, cfg, guard,
                                    unspecified);
            var resolution := Cadence(cfg.resolutionMin);
            && (v2.None? <==> |s| < minThreshold)
            && (v2.Some? ==>
                  && ResultFits(v2.value.0, Mean(s), |s|, highThreshold, minThreshold, minReplicas, maxReplicas)
                  && Describes(sqrt, v2.value.0.features, s, GuardOf(cfg.cvGuardMeanRps, guard), resolution)
                  && ContextFits(v2.value.1, s, resolution, PointsPerHour(resolution), Max(cfg.startHourUTC, 0),
                                 cfg.hourlyProfileMinHours))
  {
    var f := ConfiguredFeatures(sqrt, s, cfg, guard);
    SecondFeatures(sqrt, s, cfg, guard);
    ResultLaw(f, Mean(s), |s|, highThreshold, minThreshold, minReplicas, maxReplicas, unspecified);
    ContextLaw(s, Cadence(cfg.resolutionMin), cfg, unspecified);
  }

  // ---------------------------------------------------------------- the worker

  /** A forecaster's name on the wire: one a spec may pin, though never "auto". */
  predicate NameFits(name: string, f: Features) {
    && name in Api.FORECASTERS && name != "auto"
    && (name == "prophet" <==> ForecasterFits(Prophet, f))
    && (name == "gbdt_quantile" <==> ForecasterFits(GbdtQuantile, f))
  }

  ghost predicate ClassifiedFits(c: ClassifiedParams, f: Features, minReplicas: int32, maxReplicas: int32) {
    && UpFits(c.scaleUpCooldown, f.cv)
    && (DownIsInt32(f) ==> DownFits(c.scaleDownCooldown, f.cv, f.hourlyAutocorr))
    && (FiniteRatio(f.peakToTrough) ==>
          FeatureLaws.StepFits(c.maxStepSize, f.peakToTrough, Wrap32(maxReplicas - minReplicas)))
    && NameFits(c.preferredForecaster, f)
  }

  lemma {:induction false} OneForecaster(f: Features, a: Forecaster, b: Forecaster)
    requires ForecasterFits(a, f) && ForecasterFits(b, f)
    ensures a == b
  {}

  lemma {:induction false} NameLaw(forecaster: Forecaster, f: Features)
    requires ForecasterFits(forecaster, f)
    ensures NameFits(ForecasterName(forecaster), f)
  {
    var names := Api.FORECASTERS;
    assert names[0] == "prophet" && names[1] == "linear_extrap" && names[2] == "gbdt_quantile";
    assert "prophet"[0] != "linear_extrap"[0] && "gbdt_quantile"[0] != "linear_extrap"[0];
    assert "prophet"[0] != "gbdt_quantile"[0] && "auto"[0] !in {'p', 'l', 'g'};
    if ForecasterFits(Prophet, f) {
      OneForecaster(f, forecaster, Prophet);
    }
    if ForecasterFits(GbdtQuantile, f) {
      OneForecaster(f, forecaster, GbdtQuantile);
    }
  }

  lemma {:induction false} ClassifiedLaw(p: Params, f: Features, minReplicas: int32, maxReplicas: int32)
    requires ParamsFit(p, f, minReplicas, maxReplicas)
    ensures ClassifiedFits(AsClassified(p), f, minReplicas, maxReplicas)
  {
    NameLaw(p.forecaster, f);
  }

  /** The guard a worker works with: its own only at a configured cadence, and only a positive one. */
  function WorkerGuard(u: Setup): real { if u.resolutionMin > 0 then GuardOf(u.cvGuardMeanRps, 1.0) else 1.0 }

  ghost predicate Explained(u: Setup, p: Option<Params>, f: Features, s: seq<real>) {
    && s != [] && p.Some?
    && Describes(u.sqrt, f, s, WorkerGuard(u), Cadence(u.resolutionMin))
    && ParamsFit(p.value, f, u.minReplicas, u.maxReplicas)
  }

  lemma {:induction false} SecondExplained(u: Setup, s: seq<real>, start: int, unspecified: int32)
    returns (f: Features)
    requires ValidSetup(u) && |s| >= u.minPoints && u.resolutionMin > 0
    ensures Explained(u, SecondParams(u, s, ConfigOf(u, start), unspecified), f, s)
  {
    var cfg := ConfigOf(u, start);
    PipelineV2Reports(u.sqrt, s, u.highConfPoints, u.minPoints, u.minReplicas, u.maxReplicas, cfg, DEFAULT_CV_GUARD,
                      unspecified);
    f := ConfiguredFeatures(u.sqrt, s, cfg, DEFAULT_CV_GUARD);
  }

  lemma {:induction false} FirstExplained(u: Setup, s: seq<real>, unspecified: int32) returns (f: Features)
    requires ValidSetup(u) && |s| >= u.minPoints && u.resolutionMin <= 0
    ensures Explained(u, FirstParams(u, s, unspecified), f, s)
  {
    PipelineReports(u.sqrt, s, u.highConfPoints, u.minPoints, u.minReplicas, u.maxReplicas, DEFAULT_CV_GUARD,
                    unspecified);
    f := ExtractFeatures(u.sqrt, s, DEFAULT_CV_GUARD);
  }

  lemma {:induction false} ParamsExplained(u: Setup, s: seq<real>, start: int, unspecified: int32)
    returns (f: Features)
    requires ValidSetup(u) && |s| >= u.minPoints
    ensures Explained(u, ParamsFor(u, s, start, unspecified), f, s)
  {
    if u.resolutionMin > 0 {
      f := SecondExplained(u, s, start, unspecified);
    } else {
      f := FirstExplained(u, s, unspecified);
    }
  }

  /** From samples to status: a turn writes exactly when the query succeeded with points enough and the write was
      accepted; what it writes follows from features that describe the samples at the worker's cadence and guard. */
  lemma {:induction false} WrittenFollowsSamples(u: Setup, t: Turn) returns (f: Features)
    requires ValidSetup(u)
    ensures WrittenBy(u, t).Some? <==> t.samples.Some? && |t.samples.value| >= u.minPoints && t.writeAccepted
    ensures WrittenBy(u, t).Some? ==>
              && t.samples.value != []
              && Describes(u.sqrt, f, t.samples.value, WorkerGuard(u), Cadence(u.resolutionMin))
              && ClassifiedFits(WrittenBy(u, t).value, f, u.minReplicas, u.maxReplicas)
  {
    f := NO_FEATURES;
    if t.samples.Some? && |t.samples.value| >= u.minPoints {
      f := ParamsExplained(u, t.samples.value, t.startHourUTC, t.unspecified);
      var params := ParamsFor(u, t.samples.value, t.startHourUTC, t.unspecified);
      ClassifiedLaw(params.value, f, u.minReplicas, u.maxReplicas);
    }
  }
}
