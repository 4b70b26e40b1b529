/** Training rows, clocks and the safety cap of the gradient-boosted quantile forecaster. The fitted model itself is
    a parameter: only its single output is used. */
module GbdtRows {
  import opened Prelude

  const LAG_DEPTH := 3
  const DAY := 24 * 60

  type Hour = h: int | 0 <= h < 24
  type Minute = m: int | 0 <= m < 60

  /** The fields of the forecast context this model reads. */
  datatype ClockContext = ClockContext(hour: Hour, minute: Minute, profile: seq<int>, peakP95Rps: int)

  datatype Row = Row(lag3: real, lag2: real, lag1: real, baseline: int, minute: int)

  datatype Error = EmptyHistory | NegativeHorizon | TooShort | NoRows

  datatype Training = Failed(error: Error) | Ready(rows: seq<Row>, labels: seq<real>, prediction: Row)

  ghost predicate ValidContext(c: ClockContext) { |c.profile| == 24 }

  /** Without a context the clock stands at midnight over an empty profile. */
  function OrDefault(context: Option<ClockContext>): (c: ClockContext)
    requires context.Some? ==> ValidContext(context.value)
    ensures ValidContext(c) && (context.Some? ==> c == context.value)
    ensures context.None? ==> c.hour == 0 && c.minute == 0 && c.peakP95Rps == 0
    ensures context.None? ==> forall h :: 0 <= h < 24 ==> c.profile[h] == 0
  {
    match context
    case Some(c) => c
    case None => ClockContext(0, 0, seq(24, h => 0), 0)
  }

  /** Minute of the day at which sample `j` of `n` was taken, the last one at the context's clock. Positions from
      `n` on lie in the future. */
  function SampleMinute(c: ClockContext, n: nat, j: int): (m: int)
    ensures 0 <= m < DAY
  {
    (c.hour * 60 + c.minute - (n - 1 - j)) % DAY
  }

  /** The row whose newest sample is at `j`, stamped with minute `m` of the day. */
  function RowAt(history: seq<real>, c: ClockContext, j: int, m: int): Row
    requires ValidContext(c) && 2 <= j < |history| && 0 <= m < DAY
  {
    Row(history[j - 2], history[j - 1], history[j], c.profile[m / 60], m % 60)
  }

  function RowCount(n: nat, horizon: nat): nat { Max(0, n - 2 - horizon) }

  /** The training rows: one for each sample that is the newest of three and has a label `horizon` samples later. */
  function Rows(history: seq<real>, horizon: nat, c: ClockContext): (rows: seq<Row>)
    requires ValidContext(c)
    ensures |rows| == RowCount(|history|, horizon)
  {
    var n := |history|;
    seq(RowCount(n, horizon), k requires 0 <= k < RowCount(n, horizon) =>
      RowAt(history, c, k + 2, SampleMinute(c, n, k + 2)))
  }

  /** Their labels: what is left of the history after the first `horizon + 2` samples. */
  function Labels(history: seq<real>, horizon: nat): (labels: seq<real>)
    ensures |labels| == RowCount(|history|, horizon)
  {
    if |history| < horizon + 2 then [] else history[horizon + 2..]
  }

  // ---------------------------------------------------------------- the loop

  method BuildRows(history: seq<real>, horizon: nat, c: ClockContext) returns (rows: seq<Row>, labels: seq<real>)
    requires ValidContext(c)
    ensures rows == Rows(history, horizon, c)
    ensures labels == Labels(history, horizon)
  {
    var n := |history|;
    rows, labels := [], [];
    var i := 0;
    while i < n - LAG_DEPTH - horizon + 1
      invariant 0 <= i <= RowCount(n, horizon)
      invariant rows == Rows(history, horizon, c)[..i]
      invariant labels == Labels(history, horizon)[..i]
    {
      var cur := i + LAG_DEPTH - 1;
      var target := cur + horizon;
      if target >= n {
        break;
      }
      var minutesAgo := n - 1 - cur;
      var total := (c.hour * 60 + c.minute - minutesAgo) % DAY;
      rows := rows + [Row(history[i], history[i + 1], history[i + 2], c.profile[total / 60], total % 60)];
      labels := labels + [history[target]];
      i := i + 1;
    }
  }

  /** The row to predict from: the last three samples, stamped with the minute the forecast is for. */
  function PredictionRow(history: seq<real>, horizon: nat, c: ClockContext): Row
    requires ValidContext(c) && |history| >= 3
  {
    RowAt(history, c, |history| - 1, SampleMinute(c, |history|, |history| - 1 + horizon))
  }

  /** Everything up to the fit: the guards, the rows, and the row to predict from. */
  method Prepare(history: seq<real>, horizon: int, minPoints: int, context: Option<ClockContext>) returns (t: Training)
    requires minPoints >= 1 && (context.Some? ==> ValidContext(context.value))
    ensures t.Failed? <==> history == [] || horizon < 0 || |history| < minPoints + horizon || |history| < horizon + 3
    ensures t.Failed? ==> t.error == if history == [] then EmptyHistory
                                     else if horizon < 0 then NegativeHorizon
                                     else if |history| < minPoints + horizon then TooShort
                                     else NoRows
    ensures t.Ready? ==>
              && t.rows == Rows(history, horizon, OrDefault(context))
              && t.labels == Labels(history, horizon)
              && t.prediction == PredictionRow(history, horizon, OrDefault(context))
  {
    if history == [] {
      return Failed(EmptyHistory);
    }
    if horizon < 0 {
      return Failed(NegativeHorizon);
    }
    if |history| < minPoints + horizon {
      return Failed(TooShort);
    }
    var c := OrDefault(context);
    var n := |history|;
    var rows, labels := BuildRows(history, horizon, c);
    if rows == [] {
      return Failed(NoRows);
    }
    var total := (c.hour * 60 + c.minute + horizon) % DAY;
    t := Ready(rows, labels, Row(history[n - 3], history[n - 2], history[n - 1], c.profile[total / 60], total % 60));
  }

  // ---------------------------------------------------------------- alignment

  /** Each row carries three consecutive samples, its label comes exactly `horizon` samples after the newest of them,
      the last label is the last sample, and every sample from position `horizon + 2` on is the label of exactly
      one row. */
  lemma {:induction false} RowsAreAligned(history: seq<real>, horizon: nat, c: ClockContext, k: nat)
    requires ValidContext(c) && k < RowCount(|history|, horizon)
    ensures var n, row, target := |history|, Rows(history, horizon, c)[k], Labels(history, horizon)[k];
            && k + 2 + horizon < n
            && [row.lag3, row.lag2, row.lag1] == history[k..k + 3]
            && target == history[k + 2 + horizon]
            && (k + 2 + horizon == n - 1 <==> k == RowCount(n, horizon) - 1)
    ensures Labels(history, horizon) == history[horizon + 2..]
  {
    assert history[k..k + 3] == [history[k], history[k + 1], history[k + 2]];
  }

  /** A row's hour and minute spell out the minute of the day at which its newest sample was taken. */
  lemma {:induction false} RowClock(history: seq<real>, horizon: nat, c: ClockContext, k: nat)
    requires ValidContext(c) && k < RowCount(|history|, horizon)
    ensures var m, row := SampleMinute(c, |history|, k + 2), Rows(history, horizon, c)[k];
            && 0 <= m / 60 < 24 && row.baseline == c.profile[m / 60]
            && 0 <= row.minute < 60 && m / 60 * 60 + row.minute == m
  {
    var m := SampleMinute(c, |history|, k + 2);
    assert m / 60 * 60 + m % 60 == m;
  }

  lemma {:induction false} NextMinute(x: int)
    ensures (x + 1) % DAY == (x % DAY + 1) % DAY
  {}

  /** The clock advances one minute a sample, round the day; the last sample stands at the context's own clock. */
  lemma {:induction false} ClockAdvances(c: ClockContext, n: nat, j: int)
    ensures SampleMinute(c, n, j + 1) == (SampleMinute(c, n, j) + 1) % DAY
    ensures SampleMinute(c, n, n - 1) == c.hour * 60 + c.minute
  {
    NextMinute(c.hour * 60 + c.minute - (n - 1 - j));
  }

  lemma {:induction false} SameMinute(x: int, h: nat)
    ensures (x + h) % DAY == x % DAY <==> h % DAY == 0
  {
    var q, r := x / DAY, x % DAY;
    var hq, hr := h / DAY, h % DAY;
    assert x + h == (q + hq) * DAY + (r + hr);
    assert r + hr >= DAY ==> x + h == (q + hq + 1) * DAY + (r + hr - DAY);
  }

  /** The row to predict from carries the last three samples, and the minute of the day and the profile's hour of the
      time forecast, `horizon` minutes past the context's clock. */
  lemma {:induction false} PredictionUsesLatest(history: seq<real>, horizon: nat, c: ClockContext)
    requires ValidContext(c) && |history| >= 3
    ensures var row, m := PredictionRow(history, horizon, c), (c.hour * 60 + c.minute + horizon) % DAY;
            && [row.lag3, row.lag2, row.lag1] == history[|history| - 3..]
            && 0 <= m / 60 < 24 && row.baseline == c.profile[m / 60] && m / 60 * 60 + row.minute == m
  {
    var n := |history|;
    assert history[n - 3..] == [history[n - 3], history[n - 2], history[n - 1]];
  }

  /** The prediction row follows a different convention: training rows carry the clock of their newest sample, it
      carries the clock of its target, `horizon` minutes past the last sample. The two agree exactly when the horizon
      is a whole number of days. */
  lemma {:induction false} PredictionClockIsTargets(history: seq<real>, horizon: nat, c: ClockContext)
    requires ValidContext(c) && |history| >= 3
    ensures var n := |history|;
            && PredictionRow(history, horizon, c) == RowAt(history, c, n - 1, (c.hour * 60 + c.minute + horizon) % DAY)
            && (SampleMinute(c, n, n - 1 + horizon) == SampleMinute(c, n, n - 1) <==> horizon % DAY == 0)
  {
    SameMinute(c.hour * 60 + c.minute, horizon);
  }

  // ---------------------------------------------------------------- the length gate

  /** The length gate leaves at least one row for every history exactly when the minimum is three points or more; the
      accepted settings of one and two let through histories with no row at all. */
  lemma {:induction false} GateLeavesARow(minPoints: int)
    requires minPoints >= 1
    ensures (forall n: nat, horizon: nat :: n >= 1 && n >= minPoints + horizon ==> RowCount(n, horizon) >= 1)
            <==> minPoints >= LAG_DEPTH
  {
    if minPoints < LAG_DEPTH {
      assert RowCount(minPoints, 0) == 0;
    }
  }

  // ---------------------------------------------------------------- the safety cap

  predicate WithinCap(x: real, peakP95Rps: int) {
    x >= 0.0 && (peakP95Rps > 0 ==> x <= 3.0 * peakP95Rps as real)
  }

  function Distance(x: real, y: real): real { RealMax(x - y, y - x) }

  /** The forecast made from the fitted model's output: the admissible value nearest to it. */
  function Capped(predicted: real, peakP95Rps: int): (r: real)
    ensures WithinCap(r, peakP95Rps)
    ensures forall other :: WithinCap(other, peakP95Rps) ==> Distance(predicted, r) <= Distance(predicted, other)
  {
    RealMax(0.0, if peakP95Rps > 0 then RealMin(predicted, peakP95Rps as real * 3.0) else predicted)
  }
}
