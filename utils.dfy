/**
 * The pure interpolation and shaping helpers of the toolkit: range scaling,
 * the easing curve, linear and cubic Hermite interpolation, and the
 * two-channel amplitude effects.
 */
module Utils {
  import opened Numeric

  /** A keyframe of a cyclical wave: a time in the cycle, a position and a slope. */
  datatype WavePoint = WavePoint(time: real, position: real, slope: real)

  datatype InterpolationType = HERMITE | LINEAR

  datatype WaveShape = WaveShape(name: string, points: seq<WavePoint>, interpolationType: InterpolationType)

  /** `x.scaleBetween(a, b)`: `a + (b - a) * x`, clamped to the range, either way round. */
  function ScaleBetween(x: real, a: real, b: real): (r: real)
    ensures Min(a, b) <= r <= Max(a, b)
  {
    Clamp(a + (b - a) * x, Min(a, b), Max(a, b))
  }

  /** Inside [0, 1] the scaling is exact; outside, it saturates at the nearer end. */
  lemma {:induction false} ScaleBetweenEnds(x: real, a: real, b: real)
    ensures 0.0 <= x <= 1.0 ==> ScaleBetween(x, a, b) == a + (b - a) * x
    ensures x <= 0.0 ==> ScaleBetween(x, a, b) == a
    ensures x >= 1.0 ==> ScaleBetween(x, a, b) == b
  {
    if 0.0 <= x <= 1.0 {
      ScaledInside(x, a, b);
    } else if x < 0.0 {
      ScaledBelow(x, a, b);
    } else {
      ScaledAbove(x, a, b);
    }
  }

  lemma ScaledInside(x: real, a: real, b: real)
    requires 0.0 <= x <= 1.0
    ensures Min(a, b) <= a + (b - a) * x <= Max(a, b)
  {
    if a <= b {
      MinMaxUp(a, b);
      MulNonNeg(b - a, x);
      MulNonNeg(b - a, 1.0 - x);
      assert (b - a) * (1.0 - x) == (b - a) - (b - a) * x;
    } else {
      MinMaxDown(a, b);
      MulNonNeg(a - b, x);
      MulNonNeg(a - b, 1.0 - x);
      assert (a - b) * x == -((b - a) * x);
      assert (a - b) * (1.0 - x) == (b - a) * x - (b - a);
    }
  }

  lemma ScaledBelow(x: real, a: real, b: real)
    requires x <= 0.0
    ensures a <= b ==> a + (b - a) * x <= a
    ensures a >= b ==> a + (b - a) * x >= a
  {
    if a <= b {
      MulNonNeg(-x, b - a);
    } else {
      MulNonNeg(-x, a - b);
    }
  }

  lemma ScaledAbove(x: real, a: real, b: real)
    requires x >= 1.0
    ensures a <= b ==> a + (b - a) * x >= b
    ensures a >= b ==> a + (b - a) * x <= b
  {
    assert a + (b - a) * x - b == (b - a) * (x - 1.0);
    if a <= b {
      MulNonNeg(x - 1.0, b - a);
    } else {
      MulNonNeg(x - 1.0, a - b);
    }
  }

  /** The point a fraction `s` of the way from `a` to `b`. */
  function Blend(a: real, b: real, s: real): (r: real)
    requires 0.0 <= s <= 1.0
    ensures Min(a, b) <= r <= Max(a, b)
    ensures s == 0.0 ==> r == a
    ensures s == 1.0 ==> r == b
  {
    ScaledInside(s, a, b);
    a + (b - a) * s
  }

  lemma BlendMonotone(a: real, b: real, s1: real, s2: real)
    requires 0.0 <= s1 <= s2 <= 1.0
    ensures a <= b ==> Blend(a, b, s1) <= Blend(a, b, s2)
    ensures a >= b ==> Blend(a, b, s1) >= Blend(a, b, s2)
  {
    LerpMonotone(a, b, s1, s2);
  }

  /**
   * `randomInRange(range, bias)` given the uniform draw `u` and the library's
   * `pow`: equal ends give that end without looking at the draw; otherwise
   * `min + u^bias * (max - min)`.
   */
  function RandomInRange(lo: real, hi: real, bias: real, u: real, pow: (real, real) -> real): (r: real)
    requires bias > 0.0
    requires 0.0 <= u < 1.0
    ensures lo == hi ==> r == lo
    ensures 0.0 <= pow(u, bias) < 1.0 ==> Min(lo, hi) <= r <= Max(lo, hi)
    ensures 0.0 <= pow(u, bias) < 1.0 && lo != hi ==> r < Max(lo, hi)
  {
    var min := Min(lo, hi);
    var max := Max(lo, hi);
    if min == max then min
    else Skewed(min, max, pow(u, bias))
  }

  /** The point a skewed draw selects in [min, max). */
  function Skewed(min: real, max: real, skewed: real): (r: real)
    requires min < max
    ensures 0.0 <= skewed < 1.0 ==> min <= r < max
  {
    SkewedInRange(min, max, skewed);
    min + skewed * (max - min)
  }

  lemma SkewedInRange(min: real, max: real, skewed: real)
    requires min < max
    ensures 0.0 <= skewed < 1.0 ==> 0.0 <= skewed * (max - min) < max - min
  {
    if 0.0 <= skewed < 1.0 {
      MulNonNeg(skewed, max - min);
      MulStrict(skewed, 1.0, max - min);
    }
  }

  /** `randomInRange(range)` with the default bias 1: uniform over [min, max). */
  function Uniform(lo: real, hi: real, u: real): (r: real)
    requires 0.0 <= u < 1.0
    ensures Min(lo, hi) <= r <= Max(lo, hi)
    ensures lo != hi ==> r < Max(lo, hi)
  {
    var min := Min(lo, hi);
    var max := Max(lo, hi);
    FractionOfRange(min, max, u);
    min + u * (max - min)
  }

  /** With bias 1 (where `u^1 = u`) the biased draw is the uniform one. */
  lemma RandomInRangeUnbiased(lo: real, hi: real, u: real, pow: (real, real) -> real)
    requires 0.0 <= u < 1.0 && pow(u, 1.0) == u
    ensures RandomInRange(lo, hi, 1.0, u, pow) == Uniform(lo, hi, u)
  {
  }

  /** `next()` on an enum value: the following constant, wrapping to the first. */
  function NextOrdinal(ordinal: nat, size: nat): (r: nat)
    requires ordinal < size
    ensures r < size
    ensures ordinal + 1 < size ==> r == ordinal + 1
    ensures ordinal + 1 == size ==> r == 0
  {
    (ordinal + 1) % size
  }

  /** `scaleVelocity(v, s)`: `|v| / (|v| + s)`, or 0 for a zero velocity. */
  function ScaleVelocity(velocity: real, sensitivity: real): (r: real)
    requires velocity != 0.0 ==> Abs(velocity) + sensitivity != 0.0
    ensures velocity == 0.0 ==> r == 0.0
    ensures sensitivity > 0.0 && velocity != 0.0 ==> 0.0 < r < 1.0
    ensures sensitivity == 0.0 && velocity != 0.0 ==> r == 1.0
  {
    if velocity != 0.0 then
      var a := Abs(velocity);
      if sensitivity > 0.0 then
        DivProperUnit(a, a + sensitivity);
        a / (a + sensitivity)
      else
        (if sensitivity == 0.0 then DivSelf(a); a / (a + sensitivity) else a / (a + sensitivity))
    else 0.0
  }

  /** The scaled velocity ignores the direction of motion. */
  lemma ScaleVelocitySymmetric(velocity: real, sensitivity: real)
    requires velocity != 0.0 ==> Abs(velocity) + sensitivity != 0.0
    ensures ScaleVelocity(-velocity, sensitivity) == ScaleVelocity(velocity, sensitivity)
  {
  }

  /** A faster motion never scales lower. */
  lemma {:induction false} ScaleVelocityMonotone(v: real, w: real, sensitivity: real)
    requires sensitivity > 0.0 && 0.0 < Abs(v) <= Abs(w)
    ensures ScaleVelocity(v, sensitivity) <= ScaleVelocity(w, sensitivity)
  {
    var a, b := Abs(v), Abs(w);
    var s := sensitivity;
    var x, y := a / (a + s), b / (b + s);
    assert x * (a + s) == a && y * (b + s) == b;
    // the remainders `1 - x` and `1 - y` both scale their denominators back to `s`
    var p, q := 1.0 - x, 1.0 - y;
    assert p * (a + s) == s && q * (b + s) == s;
    DivProperUnit(b, b + s);
    MulMonotone(a + s, b + s, q);
    assert (a + s) * q == q * (a + s) && (b + s) * q == q * (b + s);
    assert q * (a + s) <= q * (b + s) == p * (a + s);
    assert q * (a + s) <= p * (a + s);
    assert a + s > 0.0;
    MulCancel(q, p, a + s);
  }

  /** `smoothstep(t)`: the cubic easing `c^2 (3 - 2c)` of `t` clamped to [0, 1]. */
  function Smoothstep(t: real): (r: real)
    ensures 0.0 <= r <= 1.0
    ensures t <= 0.0 ==> r == 0.0
    ensures t >= 1.0 ==> r == 1.0
  {
    var c := Clamp(t, 0.0, 1.0);
    SmoothCubicBounds(c);
    c * c * (3.0 - 2.0 * c)
  }

  lemma SmoothCubicBounds(c: real)
    requires 0.0 <= c <= 1.0
    ensures 0.0 <= c * c * (3.0 - 2.0 * c) <= 1.0
  {
    MulNonNeg(c, c);
    MulNonNeg(c * c, 3.0 - 2.0 * c);
    assert 1.0 - c * c * (3.0 - 2.0 * c) == (1.0 - c) * (1.0 - c) * (1.0 + 2.0 * c);
    MulNonNeg(1.0 - c, 1.0 - c);
    MulNonNeg((1.0 - c) * (1.0 - c), 1.0 + 2.0 * c);
  }

  /** The easing curve is symmetric about its midpoint. */
  lemma {:induction false} SmoothstepSymmetric(t: real)
    requires 0.0 <= t <= 1.0
    ensures Smoothstep(1.0 - t) == 1.0 - Smoothstep(t)
  {
    assert (1.0 - t) * (1.0 - t) * (3.0 - 2.0 * (1.0 - t)) == 1.0 - t * t * (3.0 - 2.0 * t);
  }

  /** The easing curve never decreases. */
  lemma {:induction false} SmoothstepMonotone(s: real, t: real)
    requires s <= t
    ensures Smoothstep(s) <= Smoothstep(t)
  {
    var a, b := Clamp(s, 0.0, 1.0), Clamp(t, 0.0, 1.0);
    CubicMonotone(a, b);
  }

  lemma CubicMonotone(a: real, b: real)
    requires 0.0 <= a <= b <= 1.0
    ensures a * a * (3.0 - 2.0 * a) <= b * b * (3.0 - 2.0 * b)
  {
    var f := a * (1.0 - a) + b * (1.0 - b) + (a + b) * (2.0 - a - b);
    MulNonNeg(a, 1.0 - a);
    MulNonNeg(b, 1.0 - b);
    MulNonNeg(a + b, 2.0 - a - b);
    MulNonNeg(b - a, f);
    assert b * b * (3.0 - 2.0 * b) - a * a * (3.0 - 2.0 * a) == (b - a) * f;
  }

  /** The normalised time `h = (t - t0) / (t1 - t0)` of a segment with `t0 < t1`. */
  lemma NormalisedTime(t: real, t0: real, t1: real)
    requires t0 < t1
    ensures (t - t0) / (t1 - t0) * (t1 - t0) == t - t0
    ensures t == t0 ==> (t - t0) / (t1 - t0) == 0.0
    ensures t == t1 ==> (t - t0) / (t1 - t0) == 1.0
    ensures t0 <= t <= t1 ==> 0.0 <= (t - t0) / (t1 - t0) <= 1.0
  {
    if t == t1 { DivSelf(t1 - t0); }
    if t0 <= t <= t1 { DivUnit(t - t0, t1 - t0); }
  }

  /** `linearInterpolate`: the straight line from `(t0, p0)` to `(t1, p1)`, or `p0` if `t0 >= t1`. */
  function LinearInterpolate(t: real, t0: real, p0: real, t1: real, p1: real): (r: real)
    ensures t0 >= t1 ==> r == p0
    ensures t == t0 ==> r == p0
    ensures t0 < t1 && t == t1 ==> r == p1
    ensures t0 < t1 && t0 <= t <= t1 ==> Min(p0, p1) <= r <= Max(p0, p1)
  {
    if t0 >= t1 then p0
    else
      var h := (t - t0) / (t1 - t0);
      NormalisedTime(t, t0, t1);
      if 0.0 <= h <= 1.0 then
        ScaledInside(h, p0, p1);
        p0 + h * (p1 - p0)
      else
        p0 + h * (p1 - p0)
  }

  /** A position and the velocity at it, in units per second. */
  datatype Motion = Motion(position: real, velocity: real)

  /** `linearInterpolateWithVelocity`: the linear position and the constant slope of the segment. */
  function LinearInterpolateWithVelocity(t: real, t0: real, p0: real, t1: real, p1: real): (r: Motion)
    ensures r.position == LinearInterpolate(t, t0, p0, t1, p1)
    ensures t0 >= t1 ==> r.velocity == 0.0
    ensures t0 < t1 ==> r.velocity * (t1 - t0) == p1 - p0
  {
    if t0 >= t1 then Motion(p0, 0.0)
    else
      var h := (t - t0) / (t1 - t0);
      Motion(p0 + h * (p1 - p0), (p1 - p0) / (t1 - t0))
  }

  /** The basis evaluation of `getHermitePositionAndFactors`. */
  datatype HermiteFactors = HermiteFactors(position: real, h: real, hSq: real, hCu: real)

  function HermitePosition(h: real, p0: real, m0: real, p1: real, m1: real, span: real): real
  {
    var hSq := h * h;
    var hCu := hSq * h;
    p0 * (2.0 * hCu - 3.0 * hSq + 1.0) + m0 * (hCu - 2.0 * hSq + h) * span +
    p1 * (-2.0 * hCu + 3.0 * hSq) + m1 * (hCu - hSq) * span
  }

  /** `getHermitePositionAndFactors`: the cubic Hermite basis at `t`, or `(p0, 0, 0, 0)` if `t0 >= t1`. */
  function HermitePositionAndFactors(t: real, t0: real, p0: real, m0: real, t1: real, p1: real, m1: real): (r: HermiteFactors)
    ensures t0 >= t1 ==> r == HermiteFactors(p0, 0.0, 0.0, 0.0)
    ensures t0 < t1 ==> r.h * (t1 - t0) == t - t0 && r.hSq == r.h * r.h && r.hCu == r.hSq * r.h
    ensures t0 < t1 ==> r.position == HermitePosition(r.h, p0, m0, p1, m1, t1 - t0)
  {
    if t0 >= t1 then HermiteFactors(p0, 0.0, 0.0, 0.0)
    else
      var h := (t - t0) / (t1 - t0);
      HermiteFactors(HermitePosition(h, p0, m0, p1, m1, t1 - t0), h, h * h, h * h * h)
  }

  /** `hermiteInterpolate`: the cubic through `(t0, p0)` and `(t1, p1)` with slopes `m0` and `m1`. */
  function HermiteInterpolate(t: real, t0: real, p0: real, m0: real, t1: real, p1: real, m1: real): (r: real)
    ensures t0 >= t1 ==> r == p0
    ensures t == t0 ==> r == p0
    ensures t0 < t1 && t == t1 ==> r == p1
  {
    var f := HermitePositionAndFactors(t, t0, p0, m0, t1, p1, m1);
    if t0 < t1 then
      NormalisedTime(t, t0, t1);
      f.position
    else
      f.position
  }

  /**
   * With flat end slopes the Hermite curve is the smoothstep easing from `p0`
   * to `p1`, so between its keys it stays between their positions.
   */
  lemma {:induction false} HermiteFlatIsSmoothstep(t: real, t0: real, p0: real, t1: real, p1: real)
    requires t0 < t1 && t0 <= t <= t1
    ensures HermiteInterpolate(t, t0, p0, 0.0, t1, p1, 0.0) == p0 + (p1 - p0) * Smoothstep((t - t0) / (t1 - t0))
    ensures Min(p0, p1) <= HermiteInterpolate(t, t0, p0, 0.0, t1, p1, 0.0) <= Max(p0, p1)
  {
    var h := (t - t0) / (t1 - t0);
    NormalisedTime(t, t0, t1);
    assert Clamp(h, 0.0, 1.0) == h;
    var s := Smoothstep(h);
    assert HermitePosition(h, p0, 0.0, p1, 0.0, t1 - t0) == p0 + (p1 - p0) * s;
    ScaleBetweenEnds(s, p0, p1);
    assert p0 + (p1 - p0) * s == p0 + s * (p1 - p0);
  }

  /**
   * `hermiteInterpolateWithVelocity`: the Hermite position and `dp/dh / (t1 - t0)`.
   * In the degenerate case the factors are zero, so the velocity is `m0` when
   * `t0 > t1` and 0 only when `t0 == t1`.
   */
  function HermiteInterpolateWithVelocity(t: real, t0: real, p0: real, m0: real, t1: real, p1: real, m1: real): (r: Motion)
    ensures r.position == HermiteInterpolate(t, t0, p0, m0, t1, p1, m1)
    ensures t0 == t1 ==> r == Motion(p0, 0.0)
    ensures t0 > t1 ==> r == Motion(p0, m0)
  {
    var f := HermitePositionAndFactors(t, t0, p0, m0, t1, p1, m1);
    var dpdh := (6.0 * f.hSq - 6.0 * f.h) * p0 + (3.0 * f.hSq - 4.0 * f.h + 1.0) * m0 * (t1 - t0) +
                (-6.0 * f.hSq + 6.0 * f.h) * p1 + (3.0 * f.hSq - 2.0 * f.h) * m1 * (t1 - t0);
    if t0 > t1 then
      assert dpdh == m0 * (t1 - t0);
      DivCancel(m0, t1 - t0);
      Motion(f.position, dpdh / (t1 - t0))
    else
      Motion(f.position, if t1 != t0 then dpdh / (t1 - t0) else 0.0)
  }

  /** At its two keys the Hermite velocity is the key's slope. */
  lemma {:induction false} HermiteVelocityAtKeys(t0: real, p0: real, m0: real, t1: real, p1: real, m1: real)
    requires t0 < t1
    ensures HermiteInterpolateWithVelocity(t0, t0, p0, m0, t1, p1, m1).velocity == m0
    ensures HermiteInterpolateWithVelocity(t1, t0, p0, m0, t1, p1, m1).velocity == m1
  {
    NormalisedTime(t0, t0, t1);
    NormalisedTime(t1, t0, t1);
    DivCancel(m0, t1 - t0);
    DivCancel(m1, t1 - t0);
  }

  /** A pair of channel amplitudes. */
  datatype ChannelPair = ChannelPair(a: real, b: real)

  /** The neutral-blended position of `calculatePositionalEffect`. */
  function EffectivePosition(position: real, strength: real): (e: real)
    ensures 0.0 <= position <= 1.0 && 0.0 <= strength <= 1.0 ==> 0.0 <= e <= 1.0
    ensures strength == 0.0 ==> e == 0.5
    ensures strength == 1.0 ==> e == position
  {
    if 0.0 <= position <= 1.0 && 0.0 <= strength <= 1.0 then
      MulNonNeg(position, strength);
      MulNonNeg(1.0 - position, strength);
      0.5 * (1.0 - strength) + position * strength
    else
      0.5 * (1.0 - strength) + position * strength
  }

  /** `calculatePositionalEffect`: channel A fades out and B fades in as the position rises. */
  function PositionalEffect(amplitude: real, position: real, strength: real, sqrt: real -> real): (r: ChannelPair)
    ensures r.a == amplitude * sqrt(1.0 - EffectivePosition(position, strength))
    ensures r.b == amplitude * sqrt(EffectivePosition(position, strength))
  {
    var e := EffectivePosition(position, strength);
    ChannelPair(amplitude * sqrt(1.0 - e), amplitude * sqrt(e))
  }

  /**
   * The positional split keeps the total power: `A^2 + B^2 = amplitude^2`,
   * and for a non-negative amplitude both channels stay within it.
   */
  lemma {:induction false} PositionalEffectKeepsPower(amplitude: real, position: real, strength: real, sqrt: real -> real)
    requires IsSqrt(sqrt)
    requires 0.0 <= position <= 1.0 && 0.0 <= strength <= 1.0
    ensures var r := PositionalEffect(amplitude, position, strength, sqrt);
            r.a * r.a + r.b * r.b == amplitude * amplitude
    ensures amplitude >= 0.0 ==>
            var r := PositionalEffect(amplitude, position, strength, sqrt);
            0.0 <= r.a <= amplitude && 0.0 <= r.b <= amplitude
  {
    var e := EffectivePosition(position, strength);
    var sa, sb := sqrt(1.0 - e), sqrt(e);
    SqrtAtMostOne(sqrt, 1.0 - e);
    SqrtAtMostOne(sqrt, e);
    assert sa * sa == 1.0 - e && sb * sb == e;
    SquaresAddUp(amplitude, sa, sb, e);
    if amplitude >= 0.0 {
      ScaledWithin(amplitude, sa);
      ScaledWithin(amplitude, sb);
    }
  }

  /** Scaling by two factors whose squares add up to one keeps the square. */
  lemma SquaresAddUp(amplitude: real, sa: real, sb: real, e: real)
    requires sa * sa == 1.0 - e && sb * sb == e
    ensures (amplitude * sa) * (amplitude * sa) + (amplitude * sb) * (amplitude * sb) == amplitude * amplitude
  {
    calc {
      (amplitude * sa) * (amplitude * sa) + (amplitude * sb) * (amplitude * sb);
      (amplitude * amplitude) * (sa * sa) + (amplitude * amplitude) * (sb * sb);
      (amplitude * amplitude) * (sa * sa + sb * sb);
    }
  }

  /** A factor in [0, 1] scales a non-negative amount to something between 0 and that amount. */
  lemma ScaledWithin(amount: real, factor: real)
    requires 0.0 <= amount && 0.0 <= factor <= 1.0
    ensures 0.0 <= amount * factor <= amount
  {
    MulNonNeg(amount, factor);
    MulMonotone(factor, 1.0, amount);
  }

  /** With no positional strength the two channels are equal. */
  lemma PositionalEffectNeutral(amplitude: real, position: real, sqrt: real -> real)
    ensures PositionalEffect(amplitude, position, 0.0, sqrt).a == PositionalEffect(amplitude, position, 0.0, sqrt).b
  {
    assert 1.0 - EffectivePosition(position, 0.0) == EffectivePosition(position, 0.0);
  }

  /** One channel of `calculateEngulfEffect`, before scaling by the amplitude. */
  function EngulfChannel(position: real, engulfPoint: real, sqrt: real -> real): (r: real)
    ensures position <= engulfPoint && engulfPoint == 0.0 ==> r == 1.0
    ensures position <= engulfPoint && engulfPoint != 0.0 ==> r == sqrt(position / engulfPoint)
    ensures position > engulfPoint ==> r == sqrt(1.0 - Abs(position - engulfPoint) * 0.8)
  {
    if position <= engulfPoint then
      (if engulfPoint == 0.0 then 1.0 else sqrt(position / engulfPoint))
    else
      sqrt(1.0 - Abs(position - engulfPoint) * 0.8)
  }

  /** `calculateEngulfEffect`: each channel scaled by its engulf curve. */
  function EngulfEffect(amplitude: real, position: real, pointA: real, pointB: real, sqrt: real -> real): (r: ChannelPair)
    ensures r.a == EngulfChannel(position, pointA, sqrt) * amplitude
    ensures r.b == EngulfChannel(position, pointB, sqrt) * amplitude
  {
    ChannelPair(EngulfChannel(position, pointA, sqrt) * amplitude,
                EngulfChannel(position, pointB, sqrt) * amplitude)
  }

  /**
   * Over the unit range each engulf curve stays in [0, 1], rises from 0 at the
   * base to exactly 1 at its engulf point, and falls off beyond it.
   */
  lemma {:induction false} EngulfChannelShape(position: real, engulfPoint: real, sqrt: real -> real)
    requires IsSqrt(sqrt)
    requires 0.0 <= position <= 1.0 && 0.0 <= engulfPoint <= 1.0
    ensures 0.0 <= EngulfChannel(position, engulfPoint, sqrt) <= 1.0
    ensures position == engulfPoint ==> EngulfChannel(position, engulfPoint, sqrt) == 1.0
    ensures position == 0.0 && engulfPoint > 0.0 ==> EngulfChannel(position, engulfPoint, sqrt) == 0.0
  {
    if position <= engulfPoint {
      if engulfPoint != 0.0 {
        var q := position / engulfPoint;
        DivUnit(position, engulfPoint);
        SqrtAtMostOne(sqrt, q);
        if position == engulfPoint { DivSelf(engulfPoint); SqrtOfOne(sqrt); }
        if position == 0.0 { SqrtOfZero(sqrt); }
      }
    } else {
      SqrtAtMostOne(sqrt, 1.0 - Abs(position - engulfPoint) * 0.8);
    }
  }

  /** `calculateFeelAdjustment`: `frequency^exponent` clamped to [0, 1]. */
  function FeelAdjustment(frequency: real, exponent: real, pow: (real, real) -> real): (r: real)
    ensures 0.0 <= r <= 1.0
    ensures 0.0 <= pow(frequency, exponent) <= 1.0 ==> r == pow(frequency, exponent)
  {
    Clamp(pow(frequency, exponent), 0.0, 1.0)
  }
}
