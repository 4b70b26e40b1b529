/** When the lagged correlation is perfect: the equality case of Cauchy-Schwarz, for a series and its later self. */
module PerfectCorrelation {
  import opened Sums
  import opened LeastSquares
  import opened Correlation

  // ---------------------------------------------------------------- vectors

  ghost predicate Scaled(f: Vec, g: Vec, a: real, n: nat) { forall i :: 0 <= i < n ==> g(i) == a * f(i) }

  lemma {:induction false} ScaledDots(f: Vec, g: Vec, a: real, n: nat)
    requires Scaled(f, g, a, n)
    ensures Dot(f, g, n) == a * Dot(f, f, n)
    ensures Dot(g, g, n) == a * a * Dot(f, f, n)
  {
    DotOfLine(f, g, f, a, 0.0, n);
    DotOfLine(g, g, f, a, 0.0, n);
    DotSymmetric(f, g, n);
  }

  /** Equality in Cauchy-Schwarz. */
  predicate Tight(num: real, sx: real, sy: real) { num * num == sx * sy }

  predicate Times(a: real, sx: real, num: real) { a * sx == num }

  lemma {:induction false} NothingLeft(sx: real, sy: real, num: real, a: real, left: real)
    requires Times(a, sx, num) && Tight(num, sx, sy) && sx > 0.0
    requires left == sy - 2.0 * a * num + a * a * sx
    ensures left == 0.0
  {
    assert a * a * sx == a * num;
    assert (a * num) * sx == num * num == sy * sx;
    CancelFactor(a * num, sy, sx);
  }

  lemma {:induction false} NoResidual(d: Vec, f: Vec, g: Vec, a: real, n: nat)
    requires forall i :: 0 <= i < n ==> d(i) == g(i) - a * f(i)
    requires Dot(d, d, n) == 0.0
    ensures Scaled(f, g, a, n)
  {
    ZeroSquare(d, n);
    forall i | 0 <= i < n ensures g(i) == a * f(i) {
      assert d(i) == 0.0;
    }
  }

  lemma {:induction false} ResidualVanishes(d: Vec, f: Vec, g: Vec, a: real, n: nat)
    requires forall i :: 0 <= i < n ==> d(i) == g(i) - a * f(i)
    requires Times(a, Dot(f, f, n), Dot(f, g, n)) && Dot(f, f, n) > 0.0
    requires Tight(Dot(f, g, n), Dot(f, f, n), Dot(g, g, n))
    ensures Dot(d, d, n) == 0.0
  {
    SquareOfDifference(d, g, f, a, n);
    DotSymmetric(f, g, n);
    NothingLeft(Dot(f, f, n), Dot(g, g, n), Dot(f, g, n), a, Dot(d, d, n));
  }

  lemma {:induction false} SolveFor(num: real, sx: real) returns (a: real)
    requires sx > 0.0
    ensures Times(a, sx, num)
  {
    a := num / sx;
  }

  /** It makes one vector a multiple of the other. */
  lemma {:induction false} EqualityCase(f: Vec, g: Vec, n: nat) returns (a: real)
    requires Dot(f, f, n) > 0.0
    requires Tight(Dot(f, g, n), Dot(f, f, n), Dot(g, g, n))
    ensures Times(a, Dot(f, f, n), Dot(f, g, n)) && Scaled(f, g, a, n)
  {
    a := SolveFor(Dot(f, g, n), Dot(f, f, n));
    var d: Vec := i => g(i) - a * f(i);
    ResidualVanishes(d, f, g, a, n);
    NoResidual(d, f, g, a, n);
  }

  // ---------------------------------------------------------------- the coefficient

  /** On the side of zero that `up` names. */
  predicate OnSide(x: real, up: bool) { if up then x > 0.0 else x < 0.0 }

  function Extreme(up: bool): real { if up then 1.0 else -1.0 }

  lemma {:induction false} UnitQuotient(num: real, root: real, up: bool)
    requires root > 0.0
    ensures num / root == Extreme(up) <==> num == Extreme(up) * root
  {
    var q := num / root;
    assert q * root == num;
    if num == Extreme(up) * root {
      CancelFactor(q, Extreme(up), root);
    }
  }

  lemma {:induction false} SignedRoot(num: real, root: real, up: bool)
    requires root > 0.0
    ensures num == Extreme(up) * root <==> OnSide(num, up) && num * num == root * root
  {
    if OnSide(num, up) && num * num == root * root {
      EqualRoots(if up then num else -num, root);
    }
  }

  lemma {:induction false} ExtremeCoefficient(sqrt: real -> real, num: real, sx: real, sy: real, up: bool)
    requires IsSquareRoot(sqrt) && sx > 0.0 && sy > 0.0
    ensures Coefficient(sqrt, num, sx, sy) == Extreme(up) <==> OnSide(num, up) && Tight(num, sx, sy)
  {
    RootIsPositive(sqrt, sx, sy);
    UnitQuotient(num, RootOfProduct(sqrt, sx, sy), up);
    SignedRoot(num, RootOfProduct(sqrt, sx, sy), up);
  }

  lemma {:induction false} SideOfProduct(a: real, sx: real, num: real, up: bool)
    requires sx > 0.0 && Times(a, sx, num)
    ensures OnSide(num, up) <==> OnSide(a, up)
  {
    if a > 0.0 {
      PositiveProduct(a, sx, num);
    } else if a < 0.0 {
      PositiveProduct(-a, sx, -num);
    }
  }

  lemma {:induction false} ScaledSquares(a: real, sx: real, sy: real, num: real, up: bool)
    requires sx > 0.0 && OnSide(a, up) && num == a * sx && sy == a * a * sx
    ensures sy > 0.0 && Tight(num, sx, sy)
  {
    PositiveSquare(a, a * a);
    PositiveProduct(a * a, sx, sy);
    assert num * num == (a * sx) * (a * sx) == sx * (a * a * sx);
  }

  lemma {:induction false} MultipleIsExtreme(sqrt: real -> real, f: Vec, g: Vec, n: nat, a: real, up: bool)
    requires IsSquareRoot(sqrt) && Dot(f, f, n) > 0.0 && OnSide(a, up) && Scaled(f, g, a, n)
    ensures Pearson(sqrt, f, g, n) == Extreme(up)
  {
    var num, sx, sy := Dot(f, g, n), Dot(f, f, n), Dot(g, g, n);
    ScaledDots(f, g, a, n);
    ScaledSquares(a, sx, sy, num, up);
    SideOfProduct(a, sx, num, up);
    ExtremeCoefficient(sqrt, num, sx, sy, up);
  }

  lemma {:induction false} ExtremeIsMultiple(sqrt: real -> real, f: Vec, g: Vec, n: nat, up: bool) returns (a: real)
    requires IsSquareRoot(sqrt) && Pearson(sqrt, f, g, n) == Extreme(up)
    ensures Dot(f, f, n) > 0.0 && OnSide(a, up) && Scaled(f, g, a, n)
  {
    var num, sx, sy := Dot(f, g, n), Dot(f, f, n), Dot(g, g, n);
    SquareNonNegative(f, n);
    SquareNonNegative(g, n);
    ExtremeCoefficient(sqrt, num, sx, sy, up);
    a := EqualityCase(f, g, n);
    SideOfProduct(a, sx, num, up);
  }

  // ---------------------------------------------------------------- series

  ghost predicate Related(x: seq<real>, y: seq<real>, a: real, b: real) {
    |x| == |y| && forall i :: 0 <= i < |x| ==> y[i] == a * x[i] + b
  }

  lemma {:induction false} AffineMean(sumX: real, sumY: real, a: real, b: real, n: real)
    requires n > 0.0 && sumY == a * sumX + b * n
    ensures sumY / n == a * (sumX / n) + b
  {
    var mx, my := sumX / n, sumY / n;
    assert mx * n == sumX && my * n == sumY;
    assert (a * mx + b) * n == a * (mx * n) + b * n;
    CancelFactor(my, a * mx + b, n);
  }

  lemma {:induction false} MeanOfRelated(x: seq<real>, y: seq<real>, a: real, b: real)
    requires x != [] && Related(x, y, a, b)
    ensures Mean(y) == a * Mean(x) + b
  {
    SumOfLine(Entries(y), Entries(x), a, b, |x|);
    AffineMean(Sum(Entries(x), |x|), Sum(Entries(y), |y|), a, b, |x| as real);
  }

  lemma {:induction false} ScaledPoint(x: real, y: real, mx: real, my: real, a: real, b: real)
    requires my == a * mx + b
    ensures y == a * x + b <==> y - my == a * (x - mx)
  {}

  lemma {:induction false} RelatedIsScaled(x: seq<real>, y: seq<real>, a: real, b: real)
    requires x != [] && Related(x, y, a, b)
    ensures Scaled(Deviation(x), Deviation(y), a, |x|)
  {
    MeanOfRelated(x, y, a, b);
    forall i | 0 <= i < |x| ensures Deviation(y)(i) == a * Deviation(x)(i) {
      ScaledPoint(x[i], y[i], Mean(x), Mean(y), a, b);
    }
  }

  lemma {:induction false} ScaledIsRelated(x: seq<real>, y: seq<real>, a: real) returns (b: real)
    requires x != [] && |x| == |y| && Scaled(Deviation(x), Deviation(y), a, |x|)
    ensures Related(x, y, a, b)
  {
    b := Mean(y) - a * Mean(x);
    forall i | 0 <= i < |x| ensures y[i] == a * x[i] + b {
      assert Deviation(y)(i) == a * Deviation(x)(i);
      ScaledPoint(x[i], y[i], Mean(x), Mean(y), a, b);
    }
  }

  /** Two of the values differ. */
  predicate Varies(x: seq<real>) { exists i, j :: 0 <= i < |x| && 0 <= j < |x| && x[i] != x[j] }

  lemma {:induction false} ConstantMean(x: seq<real>)
    requires x != [] && !Varies(x)
    ensures forall i :: 0 <= i < |x| ==> x[i] == Mean(x)
  {
    assert forall i :: 0 <= i < |x| ==> x[i] == x[0];
    assert IsLine(x, 0.0, x[0]);
    LineMean(x, 0.0, x[0]);
  }

  lemma {:induction false} VariesIffSpread(x: seq<real>)
    requires x != []
    ensures Dot(Deviation(x), Deviation(x), |x|) > 0.0 <==> Varies(x)
  {
    var d := Deviation(x);
    SquareNonNegative(d, |x|);
    if Dot(d, d, |x|) == 0.0 {
      ZeroSquare(d, |x|);
      assert forall i :: 0 <= i < |x| ==> d(i) == x[i] - Mean(x);
      assert forall i :: 0 <= i < |x| ==> x[i] == Mean(x);
    } else if !Varies(x) {
      ConstantMean(x);
      DotZero(d, d, |x|);
    }
  }

  lemma {:induction false} PearsonIsExtreme(sqrt: real -> real, x: seq<real>, y: seq<real>, up: bool)
    requires IsSquareRoot(sqrt) && x != [] && |x| == |y|
    ensures Pearson(sqrt, Deviation(x), Deviation(y), |x|) == Extreme(up)
            <==> Varies(x) && exists a: real, b: real :: OnSide(a, up) && Related(x, y, a, b)
  {
    VariesIffSpread(x);
    if Pearson(sqrt, Deviation(x), Deviation(y), |x|) == Extreme(up) {
      var a := ExtremeIsMultiple(sqrt, Deviation(x), Deviation(y), |x|, up);
      var b := ScaledIsRelated(x, y, a);
    } else if Varies(x) {
      forall a: real, b: real | OnSide(a, up) && Related(x, y, a, b) ensures false {
        RelatedIsScaled(x, y, a, b);
        MultipleIsExtreme(sqrt, Deviation(x), Deviation(y), |x|, a, up);
      }
    }
  }

  // ---------------------------------------------------------------- a series and its later self

  /** Every sample is a fixed line of the one `lag` samples before it. */
  ghost predicate Echoes(s: seq<real>, lag: nat, a: real, b: real) {
    forall i :: 0 <= i < |s| - lag ==> s[i + lag] == a * s[i] + b
  }

  lemma {:induction false} EchoIsRelation(s: seq<real>, lag: nat, a: real, b: real)
    requires lag <= |s|
    ensures Echoes(s, lag, a, b) <==> Related(s[..|s| - lag], s[lag..], a, b)
  {
    var x, y := s[..|s| - lag], s[lag..];
    assert forall i :: 0 <= i < |x| ==> x[i] == s[i] && y[i] == s[i + lag];
  }

  /** When the coefficient is perfect: it is 1 exactly when the overlap is long enough and not constant, and every
      sample is one fixed rising line of the sample a lag before it; -1 exactly when that line falls. */
  lemma {:induction false} PerfectIffEcho(sqrt: real -> real, s: seq<real>, lag: nat, minOverlap: nat, up: bool)
    requires 1 <= minOverlap && IsSquareRoot(sqrt)
    ensures Autocorrelation(sqrt, s, lag, minOverlap) == (if up then 1.0 else -1.0)
            <==> && lag + minOverlap <= |s|
                 && Varies(s[..|s| - lag])
                 && exists a: real, b: real :: (if up then a > 0.0 else a < 0.0) && Echoes(s, lag, a, b)
  {
    if lag + minOverlap <= |s| {
      var x, y := s[..|s| - lag], s[lag..];
      PearsonIsExtreme(sqrt, x, y, up);
      forall a: real, b: real ensures Echoes(s, lag, a, b) <==> Related(x, y, a, b) {
        EchoIsRelation(s, lag, a, b);
      }
    }
  }

  // ---------------------------------------------------------------- what an imperfect coefficient measures

  lemma {:induction false} RatioTimes(num: real, root: real, r: real)
    requires root > 0.0 && r == num / root
    ensures Times(r, root, num)
    ensures OnSide(r, true) <==> OnSide(num, true)
    ensures OnSide(r, false) <==> OnSide(num, false)
  {
    SideOfProduct(r, root, num, true);
    SideOfProduct(r, root, num, false);
  }

  /** The part of the spread of the one side that the other does not explain. */
  function Unexplained(r: real, sy: real): real { (1.0 - r * r) * sy }

  lemma {:induction false} ExplainedPart(num: real, sx: real, sy: real, root: real, r: real, a: real)
    requires sx > 0.0 && root * root == sx * sy && Times(r, root, num) && Times(a, sx, num)
    ensures Unexplained(r, sy) == sy - a * num
  {
    assert (r * r) * (sx * sy) == (r * r) * (root * root) == (r * root) * (r * root) == num * num;
    assert ((r * r) * sy) * sx == (r * r) * (sx * sy);
    assert (a * num) * sx == (a * sx) * num == num * num;
    CancelFactor((r * r) * sy, a * num, sx);
    assert (1.0 - r * r) * sy == sy - (r * r) * sy;
  }

  /** The squared error of a multiple `a`, from the three inner products. */
  function ErrorAt(sx: real, sy: real, num: real, a: real): real { sy - 2.0 * a * num + a * a * sx }

  lemma {:induction false} LeastAt(sx: real, sy: real, num: real, best: real, a: real)
    requires sx > 0.0 && Times(best, sx, num)
    ensures ErrorAt(sx, sy, num, a) >= sy - best * num
    ensures a == best ==> ErrorAt(sx, sy, num, a) == sy - best * num
  {
    var d := a - best;
    PositiveSquare(d, d * d);
    assert d * d * sx >= 0.0;
    assert d * d * sx == a * a * sx - 2.0 * (a * (best * sx)) + best * (best * sx);
  }

  /** What is left of `g` when `a` times `f` is taken away. */
  function Left(f: Vec, g: Vec, a: real): Vec { i => g(i) - a * f(i) }

  lemma {:induction false} LeftSquared(f: Vec, g: Vec, a: real, n: nat)
    ensures var d := Left(f, g, a);
            Dot(d, d, n) == ErrorAt(Dot(f, f, n), Dot(g, g, n), Dot(g, f, n), a)
  {
    SquareOfDifference(Left(f, g, a), g, f, a, n);
  }

  lemma {:induction false} CoefficientSplits(sqrt: real -> real, num: real, sx: real, sy: real, a: real)
    requires IsSquareRoot(sqrt) && sx > 0.0 && sy > 0.0 && Times(a, sx, num)
    ensures var r := Coefficient(sqrt, num, sx, sy);
            && Unexplained(r, sy) == sy - a * num
            && (OnSide(r, true) <==> OnSide(a, true)) && (OnSide(r, false) <==> OnSide(a, false))
  {
    var root := RootOfProduct(sqrt, sx, sy);
    RootIsPositive(sqrt, sx, sy);
    RatioTimes(num, root, num / root);
    ExplainedPart(num, sx, sy, root, num / root, a);
    SideOfProduct(a, sx, num, true);
    SideOfProduct(a, sx, num, false);
  }

  lemma {:induction false} BestSplits(sqrt: real -> real, num: real, sx: real, sy: real, best: real, a: real)
    requires IsSquareRoot(sqrt) && sx > 0.0 && sy > 0.0 && Times(best, sx, num)
    ensures var rest := Unexplained(Coefficient(sqrt, num, sx, sy), sy);
            ErrorAt(sx, sy, num, a) >= rest && (a == best ==> ErrorAt(sx, sy, num, a) == rest)
  {
    LeastAt(sx, sy, num, best, a);
    CoefficientSplits(sqrt, num, sx, sy, best);
  }

  lemma {:induction false} BestMultiple(sqrt: real -> real, f: Vec, g: Vec, n: nat, best: real, a: real)
    requires IsSquareRoot(sqrt) && Dot(f, f, n) > 0.0 && Dot(g, g, n) > 0.0
    requires Times(best, Dot(f, f, n), Dot(f, g, n))
    ensures var d, rest := Left(f, g, a), Unexplained(Pearson(sqrt, f, g, n), Dot(g, g, n));
            Dot(d, d, n) >= rest && (a == best ==> Dot(d, d, n) == rest)
  {
    LeftSquared(f, g, a, n);
    DotSymmetric(f, g, n);
    BestSplits(sqrt, Dot(f, g, n), Dot(f, f, n), Dot(g, g, n), best, a);
  }

  /** The error of reading every `y` off a line through its `x`. */
  function ErrorOf(x: seq<real>, y: seq<real>, a: real, b: real): Vec {
    i => if 0 <= i < |x| && i < |y| then y[i] - (a * x[i] + b) else 0.0
  }

  function SquaredError(x: seq<real>, y: seq<real>, a: real, b: real): real {
    Dot(ErrorOf(x, y, a, b), ErrorOf(x, y, a, b), |x|)
  }

  lemma {:induction false} LeftSum(x: seq<real>, y: seq<real>, a: real)
    requires x != [] && |x| == |y|
    ensures Sum(Left(Deviation(x), Deviation(y), a), |x|) == 0.0
  {
    DeviationsSumToZero(x);
    DeviationsSumToZero(y);
    SumOfDifference(Left(Deviation(x), Deviation(y), a), Deviation(y), Deviation(x), a, |x|);
  }

  lemma {:induction false} ErrorPoint(x: real, y: real, mx: real, my: real, a: real, b: real, shift: real)
    requires shift == b - (my - a * mx)
    ensures y - (a * x + b) == ((y - my) - a * (x - mx)) - shift
  {}

  lemma {:induction false} ShiftCosts(total: real, square: real, sum: real, shift: real, n: real)
    requires n >= 0.0 && sum == 0.0 && total == square - 2.0 * shift * sum + shift * shift * n
    ensures total >= square && (shift == 0.0 ==> total == square)
  {
    PositiveSquare(shift, shift * shift);
    assert shift * shift * n >= 0.0;
  }

  lemma {:induction false} ShiftedVector(e: Vec, d: Vec, shift: real, n: nat)
    requires forall i :: 0 <= i < n ==> e(i) == d(i) - shift
    requires Sum(d, n) == 0.0
    ensures Dot(e, e, n) >= Dot(d, d, n) && (shift == 0.0 ==> Dot(e, e, n) == Dot(d, d, n))
  {
    SquareOfShift(e, d, shift, n);
    ShiftCosts(Dot(e, e, n), Dot(d, d, n), Sum(d, n), shift, n as real);
  }

  /** The intercept that puts the line through both means. */
  function ThroughMeans(x: seq<real>, y: seq<real>, a: real): real
    requires x != [] && y != []
  {
    Mean(y) - a * Mean(x)
  }

  lemma {:induction false} ErrorAtLeast(x: seq<real>, y: seq<real>, a: real, b: real)
    requires x != [] && |x| == |y|
    ensures var d := Left(Deviation(x), Deviation(y), a);
            && SquaredError(x, y, a, b) >= Dot(d, d, |x|)
            && (b == ThroughMeans(x, y, a) ==> SquaredError(x, y, a, b) == Dot(d, d, |x|))
  {
    var d, shift := Left(Deviation(x), Deviation(y), a), b - ThroughMeans(x, y, a);
    forall i | 0 <= i < |x| ensures ErrorOf(x, y, a, b)(i) == d(i) - shift {
      ErrorPoint(x[i], y[i], Mean(x), Mean(y), a, b, shift);
    }
    LeftSum(x, y, a);
    ShiftedVector(ErrorOf(x, y, a, b), d, shift, |x|);
  }

  /** No line reads `y` off `x` with a smaller error than the coefficient leaves. */
  lemma {:induction false} LineError(sqrt: real -> real, x: seq<real>, y: seq<real>, best: real, a: real, b: real)
    requires IsSquareRoot(sqrt) && x != [] && |x| == |y| && Varies(x) && Varies(y)
    requires Times(best, Dot(Deviation(x), Deviation(x), |x|), Dot(Deviation(x), Deviation(y), |x|))
    ensures var f, g := Deviation(x), Deviation(y);
            var rest := Unexplained(Pearson(sqrt, f, g, |x|), Dot(g, g, |x|));
            && SquaredError(x, y, a, b) >= rest
            && (a == best && b == ThroughMeans(x, y, a) ==> SquaredError(x, y, a, b) == rest)
  {
    VariesIffSpread(x);
    VariesIffSpread(y);
    BestMultiple(sqrt, Deviation(x), Deviation(y), |x|, best, a);
    ErrorAtLeast(x, y, a, b);
  }

  /** The line that attains it, and which way it goes. */
  lemma {:induction false} BestLine(sqrt: real -> real, x: seq<real>, y: seq<real>) returns (best: real)
    requires IsSquareRoot(sqrt) && x != [] && |x| == |y| && Varies(x) && Varies(y)
    ensures Times(best, Dot(Deviation(x), Deviation(x), |x|), Dot(Deviation(x), Deviation(y), |x|))
    ensures var r := Pearson(sqrt, Deviation(x), Deviation(y), |x|);
            (OnSide(r, true) <==> OnSide(best, true)) && (OnSide(r, false) <==> OnSide(best, false))
  {
    VariesIffSpread(x);
    VariesIffSpread(y);
    var f, g, n := Deviation(x), Deviation(y), |x|;
    best := SolveFor(Dot(f, g, n), Dot(f, f, n));
    CoefficientSplits(sqrt, Dot(f, g, n), Dot(f, f, n), Dot(g, g, n), best);
  }

  /** What the coefficient measures: no line gives the later samples from those a lag before them with a squared error
      below 1 - r^2 of their spread (`Unexplained`); one line attains that, and it rises or falls as r is positive or
      negative. */
  lemma {:induction false} UnexplainedShare(sqrt: real -> real, s: seq<real>, lag: nat, minOverlap: nat)
    returns (a: real, b: real)
    requires 1 <= minOverlap && IsSquareRoot(sqrt) && lag + minOverlap <= |s|
    requires Varies(s[..|s| - lag]) && Varies(s[lag..])
    ensures var x, y, r := s[..|s| - lag], s[lag..], Autocorrelation(sqrt, s, lag, minOverlap);
            var rest := Unexplained(r, Dot(Deviation(y), Deviation(y), |y|));
            && (forall a', b' :: SquaredError(x, y, a', b') >= rest)
            && SquaredError(x, y, a, b) == rest
            && (OnSide(r, true) <==> OnSide(a, true)) && (OnSide(r, false) <==> OnSide(a, false))
  {
    var x, y := s[..|s| - lag], s[lag..];
    a := BestLine(sqrt, x, y);
    b := ThroughMeans(x, y, a);
    LineError(sqrt, x, y, a, a, b);
    var rest := Unexplained(Pearson(sqrt, Deviation(x), Deviation(y), |x|), Dot(Deviation(y), Deviation(y), |y|));
    forall a', b' ensures SquaredError(x, y, a', b') >= rest {
      LineError(sqrt, x, y, a, a', b');
    }
  }
}
