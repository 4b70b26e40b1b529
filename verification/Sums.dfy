/** Finite sums and inner products over exact reals, and Cauchy-Schwarz. */
module Sums {
  type Vec = int -> real

  function Sum(f: Vec, n: nat): real {
    if n == 0 then 0.0 else Sum(f, n - 1) + f(n - 1)
  }

  function Dot(f: Vec, g: Vec, n: nat): real {
    if n == 0 then 0.0 else Dot(f, g, n - 1) + f(n - 1) * g(n - 1)
  }

  function Entries(s: seq<real>): Vec { i => if 0 <= i < |s| then s[i] else 0.0 }

  /** One more term of a constant. */
  lemma {:induction false} TimesNext(c: real, n: nat)
    ensures c * (n + 1) as real == c * n as real + c
  {
    var m := n as real;
    assert (n + 1) as real == m + 1.0;
    assert c * (m + 1.0) == c * m + c;
  }

  lemma {:induction false} LineStep(total: real, total': real, sum: real, g: real, t: real, constant: real, c: real)
    requires total == t * sum + constant && total' == total + (t * g + c)
    ensures total' == t * (sum + g) + (constant + c)
  {}

  /** Sum of `t * g(i) + c`. */
  lemma {:induction false} SumOfLine(h: Vec, g: Vec, t: real, c: real, n: nat)
    requires forall i :: 0 <= i < n ==> h(i) == t * g(i) + c
    ensures Sum(h, n) == t * Sum(g, n) + c * n as real
  {
    if n > 0 {
      var k: nat := n - 1;
      SumOfLine(h, g, t, c, k);
      LineStep(Sum(h, k), Sum(h, n), Sum(g, k), g(k), t, c * k as real, c);
      TimesNext(c, k);
    }
  }

  lemma {:induction false} SumOfShift(h: Vec, f: Vec, m: real, n: nat)
    requires forall i :: 0 <= i < n ==> h(i) == f(i) - m
    ensures Sum(h, n) == Sum(f, n) - m * n as real
  {
    if n > 0 {
      var k: nat := n - 1;
      SumOfShift(h, f, m, k);
      TimesNext(m, k);
      assert m * n as real == m * k as real + m;
    }
  }

  lemma {:induction false} SumOfDifference(h: Vec, f: Vec, g: Vec, t: real, n: nat)
    requires forall i :: 0 <= i < n ==> h(i) == f(i) - t * g(i)
    ensures Sum(h, n) == Sum(f, n) - t * Sum(g, n)
  {
    if n > 0 {
      SumOfDifference(h, f, g, t, n - 1);
    }
  }

  lemma {:induction false} SumSame(f: Vec, g: Vec, n: nat)
    requires forall i :: 0 <= i < n ==> f(i) == g(i)
    ensures Sum(f, n) == Sum(g, n)
  {
    if n > 0 {
      SumSame(f, g, n - 1);
    }
  }

  lemma {:induction false} DotSymmetric(f: Vec, g: Vec, n: nat)
    ensures Dot(f, g, n) == Dot(g, f, n)
  {
    if n > 0 {
      DotSymmetric(f, g, n - 1);
    }
  }

  /** The inner product is linear in its second argument: against `t * g(i) + c`, and against a difference. */
  lemma {:induction false} DotOfLine(k: Vec, h: Vec, g: Vec, t: real, c: real, n: nat)
    requires forall i :: 0 <= i < n ==> h(i) == t * g(i) + c
    ensures Dot(k, h, n) == t * Dot(k, g, n) + c * Sum(k, n)
  {
    if n > 0 {
      DotOfLine(k, h, g, t, c, n - 1);
      var x, y := k(n - 1), g(n - 1);
      assert x * (t * y + c) == t * (x * y) + c * x;
    }
  }

  lemma {:induction false} DotOfDifference(k: Vec, h: Vec, f: Vec, g: Vec, t: real, n: nat)
    requires forall i :: 0 <= i < n ==> h(i) == f(i) - t * g(i)
    ensures Dot(k, h, n) == Dot(k, f, n) - t * Dot(k, g, n)
  {
    if n > 0 {
      DotOfDifference(k, h, f, g, t, n - 1);
      var x, y, z := k(n - 1), f(n - 1), g(n - 1);
      assert x * (y - t * z) == x * y - t * (x * z);
    }
  }

  /** Subtracting from `f` its multiple of `g` that has the same inner product with `g` leaves a vector orthogonal to
      `g`. */
  lemma {:induction false} Projection(h: Vec, f: Vec, g: Vec, t: real, n: nat)
    requires forall i :: 0 <= i < n ==> h(i) == f(i) - t * g(i)
    requires t * Dot(g, g, n) == Dot(g, f, n)
    ensures Dot(g, h, n) == 0.0
  {
    DotOfDifference(g, h, f, g, t, n);
  }

  lemma {:induction false} DotStep(f: Vec, g: Vec, i: nat, a: real, b: real)
    requires f(i) == a && g(i) == b
    ensures Dot(f, g, i + 1) == Dot(f, g, i) + a * b
  {}

  lemma {:induction false} DotSame(k: Vec, f: Vec, g: Vec, n: nat)
    requires forall i :: 0 <= i < n ==> f(i) == g(i)
    ensures Dot(k, f, n) == Dot(k, g, n)
  {
    if n > 0 {
      DotSame(k, f, g, n - 1);
    }
  }

  lemma {:induction false} DotZero(f: Vec, g: Vec, n: nat)
    requires forall i :: 0 <= i < n ==> f(i) == 0.0
    ensures Dot(f, g, n) == 0.0
  {
    if n > 0 {
      DotZero(f, g, n - 1);
    }
  }

  lemma {:induction false} PositiveProduct(x: real, y: real, product: real)
    requires x > 0.0 && y > 0.0 && product == x * y
    ensures product > 0.0
  {}

  /** A real square is positive unless its root is zero. */
  lemma {:induction false} PositiveSquare(x: real, square: real)
    requires square == x * x
    ensures square >= 0.0
    ensures square == 0.0 <==> x == 0.0
  {
    if x > 0.0 {
      PositiveProduct(x, x, square);
    } else if x < 0.0 {
      PositiveProduct(-x, -x, square);
    }
  }

  lemma {:induction false} Distribute(a: real, b: real, c: real)
    ensures a * (b - c) == a * b - a * c
  {}

  lemma {:induction false} CancelFactor(a: real, b: real, c: real)
    requires c != 0.0 && a * c == b * c
    ensures a == b
  {
    assert a * c / c == a && b * c / c == b;
  }

  lemma {:induction false} SquareNonNegative(f: Vec, n: nat)
    ensures Dot(f, f, n) >= 0.0
  {
    if n > 0 {
      SquareNonNegative(f, n - 1);
      PositiveSquare(f(n - 1), f(n - 1) * f(n - 1));
    }
  }

  lemma {:induction false} ZeroSquare(f: Vec, n: nat)
    requires Dot(f, f, n) == 0.0
    ensures forall i :: 0 <= i < n ==> f(i) == 0.0
  {
    if n > 0 {
      SquareNonNegative(f, n - 1);
      PositiveSquare(f(n - 1), f(n - 1) * f(n - 1));
      ZeroSquare(f, n - 1);
    }
  }

  /** The square of a difference. */
  lemma {:induction false} SquareOfDifference(d: Vec, f: Vec, g: Vec, t: real, n: nat)
    requires forall i :: 0 <= i < n ==> d(i) == f(i) - t * g(i)
    ensures Dot(d, d, n) == Dot(f, f, n) - 2.0 * t * Dot(f, g, n) + t * t * Dot(g, g, n)
  {
    if n > 0 {
      SquareOfDifference(d, f, g, t, n - 1);
      var x, y := f(n - 1), g(n - 1);
      assert (x - t * y) * (x - t * y) == x * x - 2.0 * t * (x * y) + t * t * (y * y);
    }
  }

  lemma {:induction false} Discriminant(p: real, q: real, r: real)
    requires r > 0.0 && p - 2.0 * (q / r) * q + (q / r) * (q / r) * r >= 0.0
    ensures q * q <= p * r
  {
    var t := q / r;
    assert t * r == q;
    assert t * t * r == t * q;
    assert p >= t * q;
    assert p * r >= t * q * r == q * q;
  }

  /** Cauchy-Schwarz. */
  lemma {:induction false} CauchySchwarz(f: Vec, g: Vec, n: nat)
    ensures Dot(f, g, n) * Dot(f, g, n) <= Dot(f, f, n) * Dot(g, g, n)
  {
    var p, q, r := Dot(f, f, n), Dot(f, g, n), Dot(g, g, n);
    SquareNonNegative(g, n);
    if r == 0.0 {
      ZeroSquare(g, n);
      DotZero(g, f, n);
      DotSymmetric(f, g, n);
    } else {
      var t := q / r;
      var d: Vec := i => f(i) - t * g(i);
      SquareOfDifference(d, f, g, t, n);
      SquareNonNegative(d, n);
      Discriminant(p, q, r);
    }
  }
}
