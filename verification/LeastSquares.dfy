/** The least-squares trend of a series sampled at 0, 1, 2, ... and its residuals. */
module LeastSquares {
  import opened Sums

  function Mean(s: seq<real>): real
    requires s != []
  {
    Sum(Entries(s), |s|) / |s| as real
  }

  /** Mean of the indices 0..n-1. */
  function IndexMean(n: nat): real { (n as real - 1.0) / 2.0 }

  function Centred(n: nat): Vec { i => i as real - IndexMean(n) }

  function Offset(s: seq<real>, m: real): Vec { i => (if 0 <= i < |s| then s[i] else 0.0) - m }

  function Deviation(s: seq<real>): Vec
    requires s != []
  {
    Offset(s, Mean(s))
  }

  function Den(n: nat): real { Dot(Centred(n), Centred(n), n) }

  function Num(s: seq<real>): real
    requires s != []
  {
    Dot(Centred(|s|), Deviation(s), |s|)
  }

  function TrendSlope(s: seq<real>): real {
    if |s| < 2 then 0.0
    else if Den(|s|) == 0.0 then 0.0
    else Num(s) / Den(|s|)
  }

  function Intercept(s: seq<real>, slope: real): real
    requires s != []
  {
    Mean(s) - slope * IndexMean(|s|)
  }

  function Detrended(s: seq<real>, slope: real): seq<real> {
    if s == [] then s
    else
      var intercept := Intercept(s, slope);
      seq(|s|, i requires 0 <= i < |s| => s[i] - (intercept + slope * i as real))
  }

  // ---------------------------------------------------------------- the loops

  method ComputeMean(s: seq<real>) returns (m: real)
    requires s != []
    ensures m == Mean(s)
  {
    var sum := 0.0;
    for i := 0 to |s|
      invariant sum == Sum(Entries(s), i)
    {
      sum := sum + s[i];
    }
    m := sum / |s| as real;
  }

  method ComputeTrendSlope(s: seq<real>) returns (slope: real)
    ensures slope == TrendSlope(s)
  {
    var n := |s|;
    if n < 2 {
      return 0.0;
    }
    var mx := (n as real - 1.0) / 2.0;
    var my := ComputeMean(s);
    var num, den := 0.0, 0.0;
    for i := 0 to n
      invariant num == Dot(Centred(n), Deviation(s), i)
      invariant den == Dot(Centred(n), Centred(n), i)
    {
      var dx := i as real - mx;
      num := num + dx * (s[i] - my);
      den := den + dx * dx;
    }
    if den == 0.0 {
      return 0.0;
    }
    slope := num / den;
  }

  method ComputeDetrended(s: seq<real>, slope: real) returns (out: seq<real>)
    ensures out == Detrended(s, slope)
  {
    if s == [] {
      return s;
    }
    var mx := (|s| as real - 1.0) / 2.0;
    var my := ComputeMean(s);
    var intercept := my - slope * mx;
    assert intercept == Intercept(s, slope);
    out := [];
    for i := 0 to |s|
      invariant out == Detrended(s, slope)[..i]
    {
      var residual := s[i] - (intercept + slope * i as real);
      assert Detrended(s, slope)[i] == residual;
      out := out + [residual];
    }
  }

  // ---------------------------------------------------------------- the denominator

  lemma {:induction false} SquaresAbout(c: real, n: nat, x: Vec)
    requires forall i :: 0 <= i < n ==> x(i) == i as real - c
    ensures Dot(x, x, n) == (n as real - 1.0) * n as real * (2.0 * n as real - 1.0) / 6.0
                            - c * (n as real - 1.0) * n as real + n as real * c * c
    ensures Sum(x, n) == n as real * (n as real - 1.0) / 2.0 - n as real * c
  {
    if n > 0 {
      SquaresAbout(c, n - 1, x);
      var m := (n - 1) as real;
      assert n as real == m + 1.0;
      assert (m - c) * (m - c) == m * m - 2.0 * c * m + c * c;
    }
  }

  /** The slope's denominator in closed form: n (n^2 - 1) / 12, so it vanishes for no series with a slope. */
  lemma {:induction false} DenClosedForm(n: nat)
    ensures Den(n) == n as real * (n as real * n as real - 1.0) / 12.0
    ensures n >= 2 ==> Den(n) > 0.0
    ensures Sum(Centred(n), n) == 0.0
  {
    SquaresAbout(IndexMean(n), n, Centred(n));
    var x := n as real;
    if n >= 2 {
      assert x * x >= 2.0 * 2.0;
      assert x * (x * x - 1.0) > 0.0;
    }
  }

  lemma {:induction false} CentredSum(n: nat)
    ensures Sum(Centred(n), n) == 0.0
  {
    DenClosedForm(n);
  }

  // ---------------------------------------------------------------- normal equations

  lemma {:induction false} DeviationsSumToZero(s: seq<real>)
    requires s != []
    ensures Sum(Deviation(s), |s|) == 0.0
  {
    SumOfShift(Deviation(s), Entries(s), Mean(s), |s|);
    assert Mean(s) * |s| as real == Sum(Entries(s), |s|);
  }

  function Residual(s: seq<real>): Vec
    requires s != []
  {
    var slope, d, x := TrendSlope(s), Deviation(s), Centred(|s|);
    i => d(i) - slope * x(i)
  }

  lemma {:induction false} ResidualIsDetrended(s: seq<real>, i: int)
    requires 0 <= i < |s|
    ensures Detrended(s, TrendSlope(s))[i] == Residual(s)(i)
  {
    Distribute(TrendSlope(s), i as real, IndexMean(|s|));
  }

  lemma {:induction false} SlopeTimesDen(s: seq<real>)
    requires s != []
    ensures TrendSlope(s) * Den(|s|) == Num(s)
  {
    var n, x := |s|, Centred(|s|);
    DenClosedForm(n);
    if n >= 2 {
      var den := Den(n);
      assert Num(s) / den * den == Num(s);
    } else {
      assert n == 1 && x(0) == 0.0;
      assert Dot(x, Deviation(s), 0) == 0.0;
    }
  }

  lemma {:induction false} ResidualSum(s: seq<real>)
    requires s != []
    ensures Sum(Residual(s), |s|) == 0.0
  {
    CentredSum(|s|);
    DeviationsSumToZero(s);
    SumOfDifference(Residual(s), Deviation(s), Centred(|s|), TrendSlope(s), |s|);
  }

  lemma {:induction false} ResidualOrthogonal(s: seq<real>)
    requires s != []
    ensures Dot(Centred(|s|), Residual(s), |s|) == 0.0
  {
    SlopeTimesDen(s);
    Projection(Residual(s), Deviation(s), Centred(|s|), TrendSlope(s), |s|);
  }

  /** Normal equations: the residuals sum to zero and are orthogonal to the index. */
  lemma {:induction false} NormalEquations(s: seq<real>)
    requires s != []
    ensures Sum(Residual(s), |s|) == 0.0
    ensures Dot(Centred(|s|), Residual(s), |s|) == 0.0
  {
    ResidualSum(s);
    ResidualOrthogonal(s);
  }

  // ---------------------------------------------------------------- optimality

  function Distance(s: seq<real>, slope: real, intercept: real): Vec {
    i => Entries(s)(i) - (intercept + slope * i as real)
  }

  /** Sum of squared distances from the line `intercept + slope * i`. */
  function SquaredError(s: seq<real>, slope: real, intercept: real): real {
    Dot(Distance(s, slope, intercept), Distance(s, slope, intercept), |s|)
  }

  /** A line in centred form: height `db` at the middle of the series, slope `da`. */
  function CentredLine(n: nat, da: real, db: real): Vec { i => da * Centred(n)(i) + db }

  /** The residuals are orthogonal to every line. */
  lemma {:induction false} ResidualOrthogonalToLines(s: seq<real>, da: real, db: real)
    requires s != []
    ensures Dot(Residual(s), CentredLine(|s|, da, db), |s|) == 0.0
  {
    NormalEquations(s);
    DotOfLine(Residual(s), CentredLine(|s|, da, db), Centred(|s|), da, db, |s|);
    DotSymmetric(Residual(s), Centred(|s|), |s|);
  }

  lemma {:induction false} SplitLine(v: real, my: real, fit: real, slope: real, intercept: real, x: real, mx: real)
    ensures v - (intercept + slope * x)
         == ((v - my) - fit * (x - mx)) - ((slope - fit) * (x - mx) + (intercept + slope * mx - my))
  {}

  /** A series' distance from any line is its residual less that line's height above the fitted one. */
  lemma {:induction false} DistanceSplits(s: seq<real>, slope: real, intercept: real, i: int)
    requires 0 <= i < |s|
    ensures Distance(s, slope, intercept)(i)
         == Residual(s)(i) - CentredLine(|s|, slope - TrendSlope(s),
                                         intercept + slope * IndexMean(|s|) - Mean(s))(i)
  {
    SplitLine(s[i], Mean(s), TrendSlope(s), slope, intercept, i as real, IndexMean(|s|));
  }

  /** Pythagoras: squared lengths add when the parts are orthogonal. */
  lemma {:induction false} Pythagoras(e: Vec, r: Vec, above: Vec, n: nat)
    requires forall i :: 0 <= i < n ==> e(i) == r(i) - above(i)
    requires Dot(r, above, n) == 0.0
    ensures Dot(e, e, n) == Dot(r, r, n) + Dot(above, above, n)
  {
    SquareOfDifference(e, r, above, 1.0, n);
  }

  /** How far a line stands above the fitted one. */
  function Above(s: seq<real>, slope: real, intercept: real): Vec
    requires s != []
  {
    CentredLine(|s|, slope - TrendSlope(s), intercept + slope * IndexMean(|s|) - Mean(s))
  }

  /** A line's squared error is the residuals' plus that of its gap to the fitted line. */
  lemma {:induction false} ErrorDecomposes(s: seq<real>, slope: real, intercept: real)
    requires s != []
    ensures SquaredError(s, slope, intercept)
         == Dot(Residual(s), Residual(s), |s|) + Dot(Above(s, slope, intercept), Above(s, slope, intercept), |s|)
  {
    var da, db := slope - TrendSlope(s), intercept + slope * IndexMean(|s|) - Mean(s);
    forall i | 0 <= i < |s|
      ensures Distance(s, slope, intercept)(i) == Residual(s)(i) - CentredLine(|s|, da, db)(i)
    {
      DistanceSplits(s, slope, intercept, i);
    }
    ResidualOrthogonalToLines(s, da, db);
    Pythagoras(Distance(s, slope, intercept), Residual(s), CentredLine(|s|, da, db), |s|);
  }

  lemma {:induction false} SquareSame(f: Vec, g: Vec, n: nat)
    requires forall i :: 0 <= i < n ==> f(i) == g(i)
    ensures Dot(f, f, n) == Dot(g, g, n)
  {
    DotSame(f, f, g, n);
    DotSymmetric(f, g, n);
    DotSame(g, f, g, n);
  }

  lemma {:induction false} FittedError(s: seq<real>)
    requires s != []
    ensures SquaredError(s, TrendSlope(s), Intercept(s, TrendSlope(s))) == Dot(Residual(s), Residual(s), |s|)
  {
    var slope := TrendSlope(s);
    var e := Distance(s, slope, Intercept(s, slope));
    forall i | 0 <= i < |s| ensures e(i) == Residual(s)(i) {
      ResidualIsDetrended(s, i);
    }
    SquareSame(e, Residual(s), |s|);
  }

  /** Optimality: no line whatever has a smaller sum of squared errors than the computed slope with the centroid
      intercept. */
  lemma {:induction false} LeastSquaresIsOptimal(s: seq<real>, slope: real, intercept: real)
    requires s != []
    ensures SquaredError(s, TrendSlope(s), Intercept(s, TrendSlope(s))) <= SquaredError(s, slope, intercept)
  {
    ErrorDecomposes(s, slope, intercept);
    SquareNonNegative(Above(s, slope, intercept), |s|);
    FittedError(s);
  }

  lemma {:induction false} VanishingLine(da: real, db: real, mx: real)
    requires da * (0.0 - mx) + db == 0.0 && da * (1.0 - mx) + db == 0.0
    ensures da == 0.0 && db == 0.0
  {
    assert da * (1.0 - mx) == da + da * (0.0 - mx);
  }

  /** Uniqueness: with two samples or more, any line that does as well is that same line. Whatever method a library
      uses to minimise the squared error, this is the line it returns. */
  lemma {:induction false} LeastSquaresIsUnique(s: seq<real>, slope: real, intercept: real)
    requires |s| >= 2
    ensures SquaredError(s, slope, intercept) <= SquaredError(s, TrendSlope(s), Intercept(s, TrendSlope(s)))
            <==> slope == TrendSlope(s) && intercept == Intercept(s, TrendSlope(s))
  {
    var above := Above(s, slope, intercept);
    ErrorDecomposes(s, slope, intercept);
    FittedError(s);
    SquareNonNegative(above, |s|);
    if Dot(above, above, |s|) == 0.0 {
      ZeroSquare(above, |s|);
      assert above(0) == 0.0 && above(1) == 0.0;
      VanishingLine(slope - TrendSlope(s), intercept + slope * IndexMean(|s|) - Mean(s), IndexMean(|s|));
    }
  }

  // ---------------------------------------------------------------- detrending

  lemma {:induction false} ZeroMean(s: seq<real>)
    requires s != [] && Sum(Entries(s), |s|) == 0.0
    ensures Mean(s) == 0.0
  {}

  /** Detrending leaves residuals with zero mean and zero slope: doing it twice changes nothing more. */
  lemma {:induction false} DetrendingIsComplete(s: seq<real>)
    requires s != []
    ensures var r := Detrended(s, TrendSlope(s));
            && |r| == |s| && Mean(r) == 0.0 && TrendSlope(r) == 0.0
            && Detrended(r, TrendSlope(r)) == r
  {
    var n, r := |s|, Detrended(s, TrendSlope(s));
    forall i | 0 <= i < n ensures Entries(r)(i) == Residual(s)(i) {
      ResidualIsDetrended(s, i);
    }
    NormalEquations(s);
    SumSame(Entries(r), Residual(s), n);
    ZeroMean(r);
    DotSame(Centred(n), Deviation(r), Residual(s), n);
    assert Num(r) == 0.0;
    assert Detrended(r, 0.0) == r;
  }

  ghost predicate IsLine(s: seq<real>, slope: real, intercept: real) {
    forall i :: 0 <= i < |s| ==> s[i] == intercept + slope * i as real
  }

  lemma {:induction false} LineEntry(s: seq<real>, slope: real, intercept: real, i: int)
    requires IsLine(s, slope, intercept) && 0 <= i < |s|
    ensures Entries(s)(i) == slope * Centred(|s|)(i) + (intercept + slope * IndexMean(|s|))
  {
    Distribute(slope, i as real, IndexMean(|s|));
  }

  lemma {:induction false} LineSum(s: seq<real>, slope: real, intercept: real)
    requires IsLine(s, slope, intercept)
    ensures Sum(Entries(s), |s|) == (intercept + slope * IndexMean(|s|)) * |s| as real
  {
    var n, centre := |s|, intercept + slope * IndexMean(|s|);
    forall i | 0 <= i < n ensures Entries(s)(i) == slope * Centred(n)(i) + centre {
      LineEntry(s, slope, intercept, i);
    }
    SumOfLine(Entries(s), Centred(n), slope, centre, n);
    CentredSum(n);
    assert slope * Sum(Centred(n), n) == 0.0;
  }

  lemma {:induction false} LineMean(s: seq<real>, slope: real, intercept: real)
    requires s != [] && IsLine(s, slope, intercept)
    ensures Mean(s) == intercept + slope * IndexMean(|s|)
  {
    LineSum(s, slope, intercept);
    CancelFactor(Mean(s), intercept + slope * IndexMean(|s|), |s| as real);
  }

  lemma {:induction false} LineNum(s: seq<real>, slope: real, intercept: real)
    requires s != [] && IsLine(s, slope, intercept)
    ensures Num(s) == slope * Den(|s|)
  {
    var n, x := |s|, Centred(|s|);
    LineMean(s, slope, intercept);
    forall i | 0 <= i < n ensures Deviation(s)(i) == slope * x(i) + 0.0 {
      LineEntry(s, slope, intercept, i);
    }
    DotOfLine(x, Deviation(s), x, slope, 0.0, n);
  }

  lemma {:induction false} LineSlope(s: seq<real>, slope: real, intercept: real)
    requires |s| >= 2 && IsLine(s, slope, intercept)
    ensures TrendSlope(s) == slope
  {
    var den := Den(|s|);
    assert den > 0.0 by { DenClosedForm(|s|); }
    assert TrendSlope(s) * den == slope * den by {
      LineNum(s, slope, intercept);
      SlopeTimesDen(s);
    }
    CancelFactor(TrendSlope(s), slope, den);
  }

  /** An exactly linear series is fitted exactly: its own slope and intercept come back, and nothing is left. */
  lemma {:induction false} LineIsFitted(s: seq<real>, slope: real, intercept: real)
    requires |s| >= 2 && IsLine(s, slope, intercept)
    ensures TrendSlope(s) == slope && Intercept(s, slope) == intercept
    ensures forall i :: 0 <= i < |s| ==> Detrended(s, TrendSlope(s))[i] == 0.0
  {
    LineSlope(s, slope, intercept);
    LineMean(s, slope, intercept);
  }
}
