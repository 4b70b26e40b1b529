/** Integer widths, rounding and optional values shared by every module. */
module Prelude {
  datatype Option<+T> = None | Some(value: T)

  const MAX_INT32: int := 0x7fff_ffff
  const MIN_INT32: int := -0x8000_0000

  type int32 = x: int | MIN_INT32 <= x <= MAX_INT32

  /** The value kept by an `int32` operation whose exact result is `x` (two's complement). */
  function Wrap32(x: int): (r: int32)
    ensures MIN_INT32 <= x <= MAX_INT32 <==> r == x
  {
    (x + 0x8000_0000) % 0x1_0000_0000 - 0x8000_0000
  }

  /** Nothing else is left to choose: it differs from the exact result by a multiple of 2^32. */
  lemma {:induction false} Wrap32Congruent(x: int) returns (k: int)
    ensures Wrap32(x) == x + k * 0x1_0000_0000
  {
    k := -((x + 0x8000_0000) / 0x1_0000_0000);
  }

  function Min(a: int, b: int): int { if a <= b then a else b }

  function Max(a: int, b: int): int { if a >= b then a else b }

  function RealMax(a: real, b: real): real { if a >= b then a else b }

  function RealMin(a: real, b: real): real { if a <= b then a else b }

  function Abs(x: int): nat { if x < 0 then -x else x }

  /** Least integer that is at least `x`. */
  function Ceil(x: real): (c: int)
    ensures (c - 1) as real < x <= c as real
  {
    -((-x).Floor)
  }

  /** Rounding toward zero, as a float-to-integer conversion does. */
  function Truncate(x: real): (t: int)
    ensures 0.0 <= x ==> t as real <= x < (t + 1) as real
    ensures x <= 0.0 ==> (t - 1) as real < x <= t as real
  {
    if x >= 0.0 then x.Floor else -((-x).Floor)
  }

  /** Nearest integer, halves away from zero. */
  function Round(x: real): (r: int)
    ensures -0.5 <= r as real - x <= 0.5
  {
    if x >= 0.0 then (x + 0.5).Floor else -((-x + 0.5).Floor)
  }

  /** A float-to-`int32` conversion. Out of range the language leaves the result to the
      implementation: `unspecified` stands for whatever it happens to be. */
  function ToInt32(x: real, unspecified: int32): int32 {
    if MIN_INT32 <= Truncate(x) <= MAX_INT32 then Truncate(x) else unspecified
  }

  /** Induction from `a` up to `b`. */
  lemma {:induction false} Upward(p: nat -> bool, a: nat, b: nat)
    requires a <= b && p(a)
    requires forall j :: a <= j < b && p(j) ==> p(j + 1)
    ensures p(b)
  {
    if a < b {
      Upward(p, a, b - 1);
      assert b - 1 + 1 == b;
    }
  }

  /** Halves go away from zero. */
  lemma {:induction false} RoundHalves(n: int)
    ensures Round(n as real + 0.5) == if n >= 0 then n + 1 else n
  {
    assert n >= 0 ==> (n as real + 0.5 + 0.5).Floor == n + 1;
    assert n < 0 ==> (-(n as real + 0.5) + 0.5).Floor == -n;
  }

  lemma {:induction false} RoundMonotone(x: real, y: real)
    requires x <= y
    ensures Round(x) <= Round(y)
  {}

  /** The integers between which a quotient lies bound it from both sides. */
  lemma {:induction false} CeilOfQuotient(x: real, y: real, k: int)
    requires y > 0.0
    ensures Ceil(x / y) <= k <==> x <= k as real * y
  {
    var q := x / y;
    assert q * y == x;
    assert q <= k as real ==> q * y <= k as real * y;
    assert q > k as real ==> q * y > k as real * y;
  }
}
