/** The forecast service's linear extrapolation: a least-squares line through the latest samples, its slope blended
    with the long-horizon trend. Environment settings (window, weight) are parameters. */
module LinearExtrap {
  import opened Prelude
  import opened LeastSquares

  /** The fields of the forecast context this model reads. */
  datatype TrendContext = TrendContext(trend24hSlope: real, peakP95Rps: int)

  datatype Forecast = EmptyHistory | Predicted(rps: real)

  function Recent(history: seq<real>, window: nat): (r: seq<real>)
    ensures |r| == Min(|history|, window)
  {
    if |history| <= window then history else history[|history| - window..]
  }

  /** Position of the forecast minute, counted from the first sample of a window of `n`. */
  function TargetX(n: nat, horizon: int): real { (n + horizon - 1) as real }

  function BlendedSlope(slope: real, trend: real, w: real): real { w * slope + (1.0 - w) * trend }

  /** The prediction before the clip and the floor. */
  function PreClip(series: seq<real>, horizon: int, context: Option<TrendContext>, w: real): real
    requires |series| >= 2
  {
    var slope := TrendSlope(series);
    var x := TargetX(|series|, horizon);
    match context
    case None => slope * x + Intercept(series, slope)
    case Some(c) =>
      var blended := BlendedSlope(slope, c.trend24hSlope, w);
      blended * x + Intercept(series, blended)
  }

  function Clipped(predicted: real, context: Option<TrendContext>): real {
    if context.Some? && context.value.peakP95Rps > 0
    then RealMin(predicted, context.value.peakP95Rps as real * 1.5)
    else predicted
  }

  function ForecastLinearExtrap(history: seq<real>, window: nat, horizon: int, context: Option<TrendContext>,
                                w: real): Forecast
    requires window >= 1
  {
    if history == [] then EmptyHistory
    else
      var series := Recent(history, window);
      if |series| == 1 then Predicted(RealMax(0.0, series[0]))
      else Predicted(RealMax(0.0, Clipped(PreClip(series, horizon, context, w), context)))
  }

  // ---------------------------------------------------------------- the blend

  /** The blended line, written as a weighted mean of two lines through the centroid. */
  function CentroidRotation(series: seq<real>, horizon: int, trend: real, w: real): real
    requires |series| >= 2
  {
    w * PreClip(series, horizon, None, w)
    + (1.0 - w) * (Mean(series) + trend * (TargetX(|series|, horizon) - IndexMean(|series|)))
  }

  lemma {:induction false} Rotation(slope: real, trend: real, w: real, x: real, mx: real, my: real, blended: real)
    requires blended == w * slope + (1.0 - w) * trend
    ensures blended * x + (my - blended * mx)
         == w * (slope * x + (my - slope * mx)) + (1.0 - w) * (my + trend * (x - mx))
  {
    var d := x - mx;
    assert blended * x - blended * mx == blended * d;
    assert slope * x - slope * mx == slope * d;
    assert blended * d == w * (slope * d) + (1.0 - w) * (trend * d);
    assert w * (my + slope * d) == w * my + w * (slope * d);
    assert (1.0 - w) * (my + trend * d) == (1.0 - w) * my + (1.0 - w) * (trend * d);
  }

  /** Blending rotates the fitted line about the centroid of the window: the prediction is the weighted mean of the
      context-free prediction and of the line with the long-horizon slope through the same centroid. */
  lemma {:induction false} BlendIsCentroidRotation(series: seq<real>, horizon: int, context: TrendContext, w: real)
    requires |series| >= 2
    ensures PreClip(series, horizon, Some(context), w) == CentroidRotation(series, horizon, context.trend24hSlope, w)
  {
    var slope := TrendSlope(series);
    Rotation(slope, context.trend24hSlope, w, TargetX(|series|, horizon), IndexMean(|series|), Mean(series),
             BlendedSlope(slope, context.trend24hSlope, w));
  }

  /** Full weight on the recent slope makes the context a no-op before the clip; so does a trend equal to it. */
  lemma {:induction false} FullWeightIgnoresTrend(series: seq<real>, horizon: int, context: TrendContext, w: real)
    requires |series| >= 2 && (w == 1.0 || context.trend24hSlope == TrendSlope(series))
    ensures PreClip(series, horizon, Some(context), w) == PreClip(series, horizon, None, w)
  {
    if w != 1.0 {
      var slope := TrendSlope(series);
      assert w * slope + (1.0 - w) * slope == slope;
    }
  }

  // ---------------------------------------------------------------- exactness

  function Skipped(history: seq<real>, window: nat): nat { Max(0, |history| - window) }

  lemma {:induction false} RecentEntry(history: seq<real>, window: nat, i: nat)
    requires i < |Recent(history, window)|
    ensures Skipped(history, window) + i < |history|
    ensures Recent(history, window)[i] == history[Skipped(history, window) + i]
  {}

  lemma {:induction false} ShiftedLine(slope: real, a: real, b: real, c: real)
    requires c == a + b
    ensures slope * c == slope * a + slope * b
  {}

  /** The height of a line at a position. */
  function LineAt(slope: real, intercept: real, position: int): real { intercept + slope * position as real }

  lemma {:induction false} LinePoint(v: real, slope: real, intercept: real, a: nat, b: nat)
    requires v == intercept + slope * (a + b) as real
    ensures v == (intercept + slope * a as real) + slope * b as real
  {
    ShiftedLine(slope, a as real, b as real, (a + b) as real);
  }

  /** The last samples of a line lie on that line, re-indexed from the start of the window. */
  lemma {:induction false} RecentOfLine(history: seq<real>, window: nat, slope: real, intercept: real)
    requires IsLine(history, slope, intercept)
    ensures IsLine(Recent(history, window), slope, LineAt(slope, intercept, Skipped(history, window)))
  {
    var r, skipped := Recent(history, window), Skipped(history, window);
    var start := LineAt(slope, intercept, skipped);
    forall i | 0 <= i < |r| ensures r[i] == start + slope * i as real {
      RecentEntry(history, window, i);
      LinePoint(r[i], slope, intercept, skipped, i);
    }
  }

  lemma {:induction false} FittedLineExtrapolates(r: seq<real>, horizon: int, slope: real, start: real, w: real)
    requires |r| >= 2 && IsLine(r, slope, start)
    ensures PreClip(r, horizon, None, w) == start + slope * TargetX(|r|, horizon)
  {
    LineIsFitted(r, slope, start);
  }

  lemma {:induction false} ShiftedTarget(n: nat, skipped: nat, horizon: int, end: int, slope: real, intercept: real)
    requires end == skipped + n - 1 + horizon
    ensures LineAt(slope, intercept, skipped) + slope * TargetX(n, horizon) == LineAt(slope, intercept, end)
  {
    ShiftedLine(slope, skipped as real, TargetX(n, horizon), end as real);
  }

  lemma {:induction false} WindowExtrapolates(r: seq<real>, skipped: nat, horizon: int, end: int, slope: real,
                                              intercept: real, w: real)
    requires |r| >= 2 && IsLine(r, slope, LineAt(slope, intercept, skipped))
    requires end == skipped + |r| - 1 + horizon
    ensures PreClip(r, horizon, None, w) == LineAt(slope, intercept, end)
  {
    FittedLineExtrapolates(r, horizon, slope, LineAt(slope, intercept, skipped), w);
    ShiftedTarget(|r|, skipped, horizon, end, slope, intercept);
  }

  lemma {:induction false} LineExtrapolates(history: seq<real>, window: nat, horizon: int, slope: real, intercept: real,
                                            w: real)
    requires |Recent(history, window)| >= 2 && IsLine(history, slope, intercept)
    ensures PreClip(Recent(history, window), horizon, None, w) == LineAt(slope, intercept, |history| - 1 + horizon)
  {
    RecentOfLine(history, window, slope, intercept);
    WindowExtrapolates(Recent(history, window), Skipped(history, window), horizon, |history| - 1 + horizon, slope,
                       intercept, w);
  }

  /** An exactly linear history is extrapolated exactly, whatever the window: with no context the forecast is the
      line's own value `horizon` samples after the last one, floored at zero. A window of one sample holds its
      value instead. */
  lemma {:induction false} LinearHistoryIsExtrapolated(history: seq<real>, window: nat, horizon: int, slope: real,
                                                       intercept: real, w: real)
    requires history != [] && window >= 1 && IsLine(history, slope, intercept)
    ensures ForecastLinearExtrap(history, window, horizon, None, w)
         == Predicted(RealMax(0.0, if Min(|history|, window) == 1 then history[|history| - 1]
                                   else LineAt(slope, intercept, |history| - 1 + horizon)))
  {
    if |Recent(history, window)| >= 2 {
      LineExtrapolates(history, window, horizon, slope, intercept, w);
    }
  }

  // ---------------------------------------------------------------- range

  /** What the forecast is, in closed form, for a window of two samples or more. */
  lemma {:induction false} ForecastIsClampedRotation(history: seq<real>, window: nat, horizon: int,
                                                     context: TrendContext, w: real)
    requires |history| >= 2 && window >= 2
    ensures var turned := CentroidRotation(Recent(history, window), horizon, context.trend24hSlope, w);
            var capped := if context.peakP95Rps > 0 then RealMin(turned, context.peakP95Rps as real * 1.5) else turned;
            ForecastLinearExtrap(history, window, horizon, Some(context), w) == Predicted(RealMax(0.0, capped))
  {
    BlendIsCentroidRotation(Recent(history, window), horizon, context, w);
  }

  /** The forecast is never negative, and under a positive p95 it stays within one and a half times that p95 exactly
      when the window holds two samples or its only sample does: the one-sample path skips the clip. */
  lemma {:induction false} ForecastRange(history: seq<real>, window: nat, horizon: int, context: TrendContext, w: real)
    requires history != [] && window >= 1 && context.peakP95Rps > 0
    ensures var f := ForecastLinearExtrap(history, window, horizon, Some(context), w);
            && f.Predicted? && f.rps >= 0.0
            && (f.rps <= context.peakP95Rps as real * 1.5
                <==> Min(|history|, window) >= 2 || history[|history| - 1] <= context.peakP95Rps as real * 1.5)
  {
    var r := Recent(history, window);
    assert |r| == 1 ==> r[0] == history[|history| - 1];
  }

  /** The escape: a single sample of 100 under a p95 of 10 is forecast as 100, not 15. */
  lemma {:induction false} OneSampleEscapesClip(horizon: int, w: real)
    ensures ForecastLinearExtrap([100.0], 10, horizon, Some(TrendContext(0.0, 10)), w) == Predicted(100.0)
  {
    assert Recent([100.0], 10) == [100.0];
  }
}
