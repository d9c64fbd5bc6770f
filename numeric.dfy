/**
 * Numeric helpers shared by the model: Kotlin's `coerceIn`, truncating
 * conversions, `roundToInt`, the floating remainder `%` and byte conversion,
 * all over Dafny's exact `real` and unbounded `int`.
 */
module Numeric {

  /** A byte as its unsigned bit pattern. */
  type Byte = b: int | 0 <= b < 256

  function Abs(x: real): (r: real)
    ensures r >= 0.0
    ensures r == x || r == -x
  {
    if x < 0.0 then -x else x
  }

  function Min(a: real, b: real): (r: real)
    ensures r <= a && r <= b
    ensures r == a || r == b
  {
    if a <= b then a else b
  }

  function Max(a: real, b: real): (r: real)
    ensures r >= a && r >= b
    ensures r == a || r == b
  {
    if a >= b then a else b
  }

  function MaxInt(a: int, b: int): (r: int)
    ensures r >= a && r >= b
    ensures r == a || r == b
  {
    if a >= b then a else b
  }

  /** Kotlin's `x.coerceIn(lo, hi)`, which demands `lo <= hi`. */
  function Clamp(x: real, lo: real, hi: real): (r: real)
    requires lo <= hi
    ensures lo <= r <= hi
    ensures lo <= x <= hi ==> r == x
    ensures x < lo ==> r == lo
    ensures x > hi ==> r == hi
  {
    if x < lo then lo else if x > hi then hi else x
  }

  function ClampInt(x: int, lo: int, hi: int): (r: int)
    requires lo <= hi
    ensures lo <= r <= hi
    ensures lo <= x <= hi ==> r == x
    ensures x < lo ==> r == lo
    ensures x > hi ==> r == hi
  {
    if x < lo then lo else if x > hi then hi else x
  }

  /** Kotlin's `toInt()` on a floating value: truncation toward zero. */
  function Trunc(x: real): (r: int)
    ensures x >= 0.0 ==> r as real <= x < r as real + 1.0
    ensures x < 0.0 ==> r as real - 1.0 < x <= r as real
  {
    if x >= 0.0 then x.Floor else -((-x).Floor)
  }

  /** Kotlin's `roundToInt()`: the nearest integer, halves rounded up. */
  function RoundToInt(x: real): (r: int)
    ensures r as real - 0.5 <= x < r as real + 0.5
  {
    (x + 0.5).Floor
  }

  /** Kotlin's `%` on doubles: the remainder of the truncated quotient. */
  function Rem(x: real, p: real): (r: real)
    requires p != 0.0
    ensures x >= 0.0 && p > 0.0 ==> 0.0 <= r < p
    ensures x < 0.0 && p > 0.0 ==> -p < r <= 0.0
  {
    var q := Trunc(x / p);
    if p > 0.0 && x >= 0.0 then
      DivRemainder(x, p, q as real);
      x - q as real * p
    else if p > 0.0 then
      DivRemainderNeg(x, p, q as real);
      x - q as real * p
    else
      x - q as real * p
  }

  lemma UnitScale(f: real, p: real)
    requires 0.0 <= f < 1.0 && p > 0.0
    ensures 0.0 <= f * p < p
  {
    assert p - f * p == (1.0 - f) * p;
  }

  lemma DivRemainder(x: real, p: real, q: real)
    requires p > 0.0 && q <= x / p < q + 1.0
    ensures 0.0 <= x - q * p < p
  {
    var f := x / p - q;
    assert x - q * p == f * p;
    UnitScale(f, p);
  }

  lemma DivRemainderNeg(x: real, p: real, q: real)
    requires p > 0.0 && q - 1.0 < x / p <= q
    ensures -p < x - q * p <= 0.0
  {
    var f := q - x / p;
    assert q * p - x == f * p;
    UnitScale(f, p);
  }

  /** `x % 1.0` for `x >= 0`: the fractional part. */
  lemma RemOneIsFraction(x: real)
    requires x >= 0.0
    ensures Rem(x, 1.0) == x - x.Floor as real
  {
  }

  /**
   * `sqrt` is a math-library call; the model takes it as a parameter and
   * states only what it needs of it: on non-negative arguments it returns
   * the non-negative square root.
   */
  ghost predicate IsSqrt(sqrt: real -> real)
  {
    forall x: real {:trigger sqrt(x)} :: 0.0 <= x ==> 0.0 <= sqrt(x) && sqrt(x) * sqrt(x) == x
  }

  lemma SqrtOfOne(sqrt: real -> real)
    requires IsSqrt(sqrt)
    ensures sqrt(1.0) == 1.0
  {
    var s := sqrt(1.0);
    assert s >= 0.0 && s * s == 1.0;
    if 0.0 < s < 1.0 {
      MulStrict(s, 1.0, s);
    } else if s > 1.0 {
      MulStrict(1.0, s, s);
    }
  }

  lemma SqrtOfZero(sqrt: real -> real)
    requires IsSqrt(sqrt)
    ensures sqrt(0.0) == 0.0
  {
    var s := sqrt(0.0);
    assert 0.0 <= s && s * s == 0.0;
    if s > 0.0 {
      DivCancel(s, s);
    }
  }

  lemma SqrtAtMostOne(sqrt: real -> real, x: real)
    requires IsSqrt(sqrt) && 0.0 <= x <= 1.0
    ensures 0.0 <= sqrt(x) <= 1.0
  {
    var s := sqrt(x);
    if s > 1.0 {
      MulStrict(1.0, s, s);
    }
  }

  lemma MulNonNeg(a: real, b: real)
    requires 0.0 <= a && 0.0 <= b
    ensures 0.0 <= a * b
  {
  }

  lemma MulPos(a: real, b: real)
    requires 0.0 < a && 0.0 < b
    ensures 0.0 < a * b
  {
  }

  lemma MulMonotone(a: real, b: real, c: real)
    requires a <= b && 0.0 <= c
    ensures a * c <= b * c
  {
    MulNonNeg(b - a, c);
    assert b * c - a * c == (b - a) * c;
  }

  /** Moving further along the way from `a` to `b` never moves back towards `a`. */
  lemma LerpMonotone(a: real, b: real, s1: real, s2: real)
    requires s1 <= s2
    ensures a <= b ==> a + (b - a) * s1 <= a + (b - a) * s2
    ensures a >= b ==> a + (b - a) * s1 >= a + (b - a) * s2
  {
    if a <= b {
      MulMonotone(s1, s2, b - a);
      assert (b - a) * s1 == s1 * (b - a) && (b - a) * s2 == s2 * (b - a);
    } else {
      MulMonotone(s1, s2, a - b);
      assert (b - a) * s1 == -(s1 * (a - b)) && (b - a) * s2 == -(s2 * (a - b));
    }
  }

  /** A fraction of a non-negative quantity lies between zero and that quantity. */
  lemma UnitScaleClosed(f: real, p: real)
    requires 0.0 <= f <= 1.0 && 0.0 <= p
    ensures 0.0 <= f * p <= p && p * f == f * p
  {
    MulNonNeg(f, p);
    MulMonotone(f, 1.0, p);
  }

  /** The floor of a value in [0, k) is an index below `k`. */
  lemma FloorBounds(x: real, k: nat)
    requires 0.0 <= x < k as real
    ensures 0 <= x.Floor < k
    ensures x.Floor as real <= x < x.Floor as real + 1.0
  {
  }

  lemma MinMaxUp(a: real, b: real)
    requires a <= b
    ensures Min(a, b) == a && Max(a, b) == b
  {
  }

  lemma MinMaxDown(a: real, b: real)
    requires b < a
    ensures Min(a, b) == b && Max(a, b) == a
  {
  }

  lemma ZeroProduct(z: real, x: real)
    requires z == 0.0
    ensures z * x == 0.0
  {
  }

  /** `x / d` is a fraction when `0 <= x <= d`. */
  lemma DivUnit(x: real, d: real)
    requires 0.0 <= x <= d && d > 0.0
    ensures 0.0 <= x / d <= 1.0
  {
    var q := x / d;
    assert q * d == x;
    if q < 0.0 { MulStrict(q, 0.0, d); }
    if q > 1.0 { MulStrict(1.0, q, d); }
  }

  /** Dividing by a positive number keeps order. */
  lemma DivMonotone(a: real, b: real, d: real)
    requires a <= b && d > 0.0
    ensures a / d <= b / d
  {
    var p := a / d;
    var q := b / d;
    assert p * d == a && q * d == b;
    if p > q { MulStrict(q, p, d); }
  }

  lemma DivSelf(d: real)
    requires d != 0.0
    ensures d / d == 1.0
  {
  }

  lemma DivCancel(x: real, d: real)
    requires d != 0.0
    ensures (x * d) / d == x
  {
  }

  /** `min + u * (max - min)` for a draw `u` in [0, 1) lies in [min, max), or is `min` if the range is a point. */
  lemma FractionOfRange(min: real, max: real, u: real)
    requires min <= max && 0.0 <= u < 1.0
    ensures min <= min + u * (max - min) <= max
    ensures min < max ==> min + u * (max - min) < max
  {
    if min < max {
      FractionBelow(min, max, u);
      FractionAbove(min, max, u);
    }
  }

  lemma FractionBelow(min: real, max: real, u: real)
    requires min < max && 0.0 <= u < 1.0
    ensures min + u * (max - min) < max
  {
    MulStrict(u, 1.0, max - min);
  }

  lemma FractionAbove(min: real, max: real, u: real)
    requires min < max && 0.0 <= u
    ensures min <= min + u * (max - min)
  {
    MulNonNeg(u, max - min);
  }

  /** `x / d` lies in [0, 1) when `0 <= x < d`. */
  lemma DivBelowOne(x: real, d: real)
    requires 0.0 <= x < d
    ensures 0.0 <= x / d < 1.0
  {
    if x > 0.0 { DivProperUnit(x, d); }
  }

  /** `x / d` is a proper fraction when `0 < x < d`. */
  lemma DivProperUnit(x: real, d: real)
    requires 0.0 < x < d
    ensures 0.0 < x / d < 1.0
  {
    var q := x / d;
    assert q * d == x;
    if q <= 0.0 { MulMonotone(q, 0.0, d); }
    if q >= 1.0 { MulMonotone(1.0, q, d); }
  }

  /** Multiplying by a positive number reflects order back. */
  lemma MulCancel(a: real, b: real, c: real)
    requires a * c <= b * c && c > 0.0
    ensures a <= b
  {
    if a > b { MulStrict(b, a, c); }
  }

  /** `a * c < b * c` whenever `a < b` and `c > 0`. */
  lemma MulStrict(a: real, b: real, c: real)
    requires a < b && c > 0.0
    ensures a * c < b * c && c * a < c * b
  {
    assert b * c - a * c == (b - a) * c;
  }

  /** Kotlin's `toByte()` on an `Int`: the low eight bits. */
  function ToByte(n: int): (b: Byte)
    ensures 0 <= n < 256 ==> b == n
    ensures (b - n) % 256 == 0
  {
    n % 256
  }

  /** Kotlin's `Byte.toInt()`: the signed value of a bit pattern. */
  function SignedValue(b: Byte): (v: int)
    ensures -128 <= v < 128
    ensures ToByte(v) == b
  {
    if b < 128 then b else b - 256
  }
}
