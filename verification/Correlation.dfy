/** Spread and lagged correlation of a series. Square roots come from a given root function. */
module Correlation {
  import opened Sums
  import opened LeastSquares

  ghost predicate IsSquareRoot(sqrt: real -> real) {
    forall x :: x >= 0.0 ==> sqrt(x) >= 0.0 && sqrt(x) * sqrt(x) == x
  }

  function StdDev(sqrt: real -> real, s: seq<real>, m: real): real
    requires s != []
  {
    sqrt(Dot(Offset(s, m), Offset(s, m), |s|) / |s| as real)
  }

  function RootOfProduct(sqrt: real -> real, sx: real, sy: real): real { sqrt(sx * sy) }

  /** Pearson's coefficient from the three inner products; 0 when either side vanishes. */
  function Coefficient(sqrt: real -> real, num: real, sx: real, sy: real): real {
    if sx == 0.0 || sy == 0.0 then 0.0
    else
      var root := RootOfProduct(sqrt, sx, sy);
      if root == 0.0 then 0.0 else num / root
  }

  function Pearson(sqrt: real -> real, x: Vec, y: Vec, n: nat): real {
    Coefficient(sqrt, Dot(x, y, n), Dot(x, x, n), Dot(y, y, n))
  }

  /** Correlation of a series with itself `lag` samples later; 0 when the overlap is too short. */
  function Autocorrelation(sqrt: real -> real, s: seq<real>, lag: nat, minOverlap: nat): real
    requires 1 <= minOverlap
  {
    var n := |s|;
    if n < lag + minOverlap then 0.0
    else Pearson(sqrt, Deviation(s[..n - lag]), Deviation(s[lag..]), n - lag)
  }

  method ComputeStdDev(sqrt: real -> real, s: seq<real>, m: real) returns (sd: real)
    requires s != []
    ensures sd == StdDev(sqrt, s, m)
  {
    var sum := 0.0;
    for i := 0 to |s|
      invariant sum == Dot(Offset(s, m), Offset(s, m), i)
    {
      var d := s[i] - m;
      assert d == Offset(s, m)(i);
      sum := sum + d * d;
    }
    sd := sqrt(sum / |s| as real);
  }

  lemma {:induction false} RootIsPositive(sqrt: real -> real, sx: real, sy: real)
    requires IsSquareRoot(sqrt) && sx > 0.0 && sy > 0.0
    ensures RootOfProduct(sqrt, sx, sy) > 0.0
    ensures RootOfProduct(sqrt, sx, sy) * RootOfProduct(sqrt, sx, sy) == sx * sy
  {
    var p := sx * sy;
    PositiveProduct(sx, sy, p);
    PositiveSquare(sqrt(p), p);
  }

  method ComputeCoefficient(sqrt: real -> real, num: real, sx: real, sy: real) returns (r: real)
    requires IsSquareRoot(sqrt) && sx >= 0.0 && sy >= 0.0
    ensures r == Coefficient(sqrt, num, sx, sy)
  {
    if sx == 0.0 || sy == 0.0 {
      return 0.0;
    }
    RootIsPositive(sqrt, sx, sy);
    r := num / RootOfProduct(sqrt, sx, sy);
  }

  method ComputePearson(sqrt: real -> real, x: seq<real>, y: seq<real>) returns (r: real)
    requires |x| == |y| > 0 && IsSquareRoot(sqrt)
    ensures r == Pearson(sqrt, Deviation(x), Deviation(y), |x|)
  {
    var mx := ComputeMean(x);
    var my := ComputeMean(y);
    var num, sx, sy := 0.0, 0.0, 0.0;
    for i := 0 to |x|
      invariant num == Dot(Offset(x, mx), Offset(y, my), i)
      invariant sx == Dot(Offset(x, mx), Offset(x, mx), i)
      invariant sy == Dot(Offset(y, my), Offset(y, my), i)
    {
      var dx := x[i] - mx;
      var dy := y[i] - my;
      DotStep(Offset(x, mx), Offset(y, my), i, dx, dy);
      DotStep(Offset(x, mx), Offset(x, mx), i, dx, dx);
      DotStep(Offset(y, my), Offset(y, my), i, dy, dy);
      num := num + dx * dy;
      sx := sx + dx * dx;
      sy := sy + dy * dy;
    }
    SquareNonNegative(Offset(x, mx), |x|);
    SquareNonNegative(Offset(y, my), |x|);
    r := ComputeCoefficient(sqrt, num, sx, sy);
  }

  method ComputeAutocorrelation(sqrt: real -> real, s: seq<real>, lag: nat, minOverlap: nat) returns (r: real)
    requires 1 <= minOverlap && IsSquareRoot(sqrt)
    ensures r == Autocorrelation(sqrt, s, lag, minOverlap)
  {
    var n := |s|;
    if n < lag + minOverlap {
      return 0.0;
    }
    r := ComputePearson(sqrt, s[..n - lag], s[lag..]);
  }

  lemma {:induction false} QuotientWithinOne(num: real, root: real)
    requires root > 0.0 && num * num <= root * root
    ensures -1.0 <= num / root <= 1.0
  {
    var q := num / root;
    assert q * root == num;
    assert (num - root) * (num + root) == num * num - root * root;
    if q > 1.0 {
      PositiveProduct(q - 1.0, root, num - root);
      PositiveProduct(num - root, num + root, (num - root) * (num + root));
    } else if q < -1.0 {
      PositiveProduct(-q - 1.0, root, -num - root);
      PositiveProduct(-num - root, root - num, (num - root) * (num + root));
    }
  }

  lemma {:induction false} CoefficientBound(sqrt: real -> real, num: real, sx: real, sy: real)
    requires IsSquareRoot(sqrt) && sx >= 0.0 && sy >= 0.0
    requires num * num <= sx * sy
    ensures -1.0 <= Coefficient(sqrt, num, sx, sy) <= 1.0
  {
    if sx != 0.0 && sy != 0.0 {
      RootIsPositive(sqrt, sx, sy);
      QuotientWithinOne(num, RootOfProduct(sqrt, sx, sy));
    }
  }

  lemma {:induction false} PearsonBound(sqrt: real -> real, x: Vec, y: Vec, n: nat)
    requires IsSquareRoot(sqrt)
    ensures -1.0 <= Pearson(sqrt, x, y, n) <= 1.0
  {
    CauchySchwarz(x, y, n);
    SquareNonNegative(x, n);
    SquareNonNegative(y, n);
    CoefficientBound(sqrt, Dot(x, y, n), Dot(x, x, n), Dot(y, y, n));
  }

  /** Pearson bound: for every series and lag the coefficient lies in [-1, 1]. */
  lemma {:induction false} AutocorrelationBound(sqrt: real -> real, s: seq<real>, lag: nat, minOverlap: nat)
    requires 1 <= minOverlap && IsSquareRoot(sqrt)
    ensures -1.0 <= Autocorrelation(sqrt, s, lag, minOverlap) <= 1.0
  {
    var n := |s|;
    if n >= lag + minOverlap {
      PearsonBound(sqrt, Deviation(s[..n - lag]), Deviation(s[lag..]), n - lag);
    }
  }

  lemma {:induction false} ZeroMeanOfZeros(s: seq<real>)
    requires s != [] && forall i :: 0 <= i < |s| ==> s[i] == 0.0
    ensures Mean(s) == 0.0
  {
    assert IsLine(s, 0.0, 0.0);
    LineMean(s, 0.0, 0.0);
  }

  lemma {:induction false} ZerosDoNotCorrelate(sqrt: real -> real, s: seq<real>, lag: nat, minOverlap: nat)
    requires 1 <= minOverlap && forall i :: 0 <= i < |s| ==> s[i] == 0.0
    ensures Autocorrelation(sqrt, s, lag, minOverlap) == 0.0
  {
    var n := |s|;
    if n >= lag + minOverlap {
      var x := s[..n - lag];
      ZeroMeanOfZeros(x);
      DotZero(Deviation(x), Deviation(x), n - lag);
    }
  }

  /** A detrended straight line has nothing left to correlate. */
  lemma {:induction false} LinesDoNotCorrelate(sqrt: real -> real, s: seq<real>, slope: real, intercept: real,
                                               lag: nat, minOverlap: nat)
    requires 1 <= minOverlap && |s| >= 2 && IsLine(s, slope, intercept)
    ensures Autocorrelation(sqrt, Detrended(s, TrendSlope(s)), lag, minOverlap) == 0.0
  {
    LineIsFitted(s, slope, intercept);
    ZerosDoNotCorrelate(sqrt, Detrended(s, TrendSlope(s)), lag, minOverlap);
  }

  lemma {:induction false} EqualRoots(a: real, b: real)
    requires a > 0.0 && b > 0.0 && a * a == b * b
    ensures a == b
  {
    var p := (a - b) * (a + b);
    assert p == a * a - b * b;
    if a > b {
      PositiveProduct(a - b, a + b, p);
    } else if a < b {
      PositiveProduct(b - a, a + b, -p);
    }
  }

  lemma {:induction false} SelfRatio(x: real)
    requires x > 0.0
    ensures x / x == 1.0
  {
    var q := x / x;
    assert q * x == x;
    Distribute(x, q, 1.0);
    CancelFactor(q, 1.0, x);
  }

  lemma {:induction false} CoefficientOfSelf(sqrt: real -> real, sx: real)
    requires IsSquareRoot(sqrt) && sx >= 0.0
    ensures Coefficient(sqrt, sx, sx, sx) == if sx == 0.0 then 0.0 else 1.0
  {
    if sx != 0.0 {
      var root := RootOfProduct(sqrt, sx, sx);
      RootIsPositive(sqrt, sx, sx);
      EqualRoots(root, sx);
      SelfRatio(root);
    }
  }

  /** At lag zero a series is compared with itself: the coefficient is 1 unless the series is constant. */
  lemma {:induction false} LagZeroIsOne(sqrt: real -> real, s: seq<real>, minOverlap: nat)
    requires 1 <= minOverlap <= |s| && IsSquareRoot(sqrt)
    ensures Autocorrelation(sqrt, s, 0, minOverlap)
         == if Dot(Deviation(s), Deviation(s), |s|) == 0.0 then 0.0 else 1.0
  {
    assert s[..|s| - 0] == s && s[0..] == s;
    SquareNonNegative(Deviation(s), |s|);
    CoefficientOfSelf(sqrt, Dot(Deviation(s), Deviation(s), |s|));
  }

  // ---------------------------------------------------------------- spread of a load

  ghost predicate NonNegative(s: seq<real>) { forall i :: 0 <= i < |s| ==> s[i] >= 0.0 }

  lemma {:induction false} SquaresBelowSquareOfSum(f: Vec, n: nat)
    requires forall i :: 0 <= i < n ==> f(i) >= 0.0
    ensures Sum(f, n) >= 0.0
    ensures Dot(f, f, n) <= Sum(f, n) * Sum(f, n)
  {
    if n > 0 {
      SquaresBelowSquareOfSum(f, n - 1);
      var a, b := Sum(f, n - 1), f(n - 1);
      assert (a + b) * (a + b) == a * a + 2.0 * (a * b) + b * b;
      assert a * b >= 0.0;
    }
  }

  lemma {:induction false} SpreadAlgebra(squares: real, m: real, n: real)
    requires squares <= (m * n) * (m * n)
    ensures squares - 2.0 * m * (m * n) + m * m * n <= n * (n - 1.0) * (m * m)
  {
    assert (m * n) * (m * n) == n * n * (m * m);
    assert 2.0 * m * (m * n) == 2.0 * n * (m * m);
    assert n * (n - 1.0) * (m * m) == n * n * (m * m) - n * (m * m);
  }

  lemma {:induction false} SquareOfShift(d: Vec, f: Vec, m: real, n: nat)
    requires forall i :: 0 <= i < n ==> d(i) == f(i) - m
    ensures Dot(d, d, n) == Dot(f, f, n) - 2.0 * m * Sum(f, n) + m * m * n as real
  {
    if n > 0 {
      SquareOfShift(d, f, m, n - 1);
      var x, k := f(n - 1), (n - 1) as real;
      assert n as real == k + 1.0;
      assert (x - m) * (x - m) == x * x - 2.0 * m * x + m * m;
      assert m * m * (k + 1.0) == m * m * k + m * m;
    }
  }

  lemma {:induction false} SpreadBound(s: seq<real>)
    requires s != [] && NonNegative(s)
    ensures var n := |s| as real;
            Dot(Deviation(s), Deviation(s), |s|) <= n * (n - 1.0) * (Mean(s) * Mean(s))
  {
    var n, m := |s|, Mean(s);
    var f := Entries(s);
    SquareOfShift(Deviation(s), f, m, n);
    SquaresBelowSquareOfSum(f, n);
    assert Sum(f, n) == m * n as real;
    SpreadAlgebra(Dot(f, f, n), m, n as real);
  }

  /** The variance of a non-negative load is at most n - 1 times its squared mean. */
  lemma {:induction false} VarianceBound(sqrt: real -> real, s: seq<real>)
    requires s != [] && NonNegative(s) && IsSquareRoot(sqrt)
    ensures var sd := StdDev(sqrt, s, Mean(s));
            sd >= 0.0 && sd * sd <= (|s| as real - 1.0) * (Mean(s) * Mean(s))
  {
    var n := |s| as real;
    var d, mm := Dot(Deviation(s), Deviation(s), |s|), Mean(s) * Mean(s);
    SpreadBound(s);
    SquareNonNegative(Deviation(s), |s|);
    var v := d / n;
    assert v * n == d;
    assert v >= 0.0;
    if v > (n - 1.0) * mm {
      assert v * n > (n - 1.0) * mm * n;
      assert (n - 1.0) * mm * n == n * (n - 1.0) * mm;
    }
  }
}
