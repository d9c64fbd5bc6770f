/**
 * The app's random draws, taken as an input stream: the n-th call to
 * `Random.nextDouble()` anywhere in the app yields `source(n)`, a value in
 * [0, 1). The derived draws follow Kotlin's standard library:
 * `nextDouble(a, b)` is `a + u * (b - a)`, `nextBoolean()` is `u < 0.5`, and
 * picking from a list (or an `IntRange`) of `k` values picks index
 * `Floor(u * k)`.
 */
module Random {
  import opened Numeric
  import opened Utils

  /** The index that a draw `u` in [0, 1) selects among `k` values. */
  function PickIndex(u: real, k: nat): (i: nat)
    requires 0.0 <= u < 1.0 && k > 0
    ensures i < k
    ensures i as real <= u * k as real < i as real + 1.0
  {
    UnitScale(u, k as real);
    FloorBounds(u * k as real, k);
    (u * k as real).Floor
  }

  /** `nextDouble(from, until)` for the draw `u`: in [from, until) when the range is not empty. */
  function DrawBetween(from: real, until: real, u: real): (r: real)
    requires 0.0 <= u < 1.0
    ensures from <= until ==> from <= r <= until
    ensures from < until ==> r < until
    ensures from == until ==> r == from
  {
    FractionOfRange(Min(from, until), Max(from, until), u);
    from + u * (until - from)
  }

  ghost predicate DrawsInUnit(source: nat -> real)
  {
    forall m: nat :: 0.0 <= source(m) < 1.0
  }

  /** Some draw at or after position `n` selects index `j` among `k`. */
  ghost predicate Recurs(source: nat -> real, n: nat, k: nat, j: nat)
    requires DrawsInUnit(source) && j < k
  {
    exists m: nat :: m >= n && PickIndex(source(m), k) == j
  }

  ghost predicate Fair(source: nat -> real)
    requires DrawsInUnit(source)
  {
    forall n: nat, k: nat, j: nat {:trigger Recurs(source, n, k, j)} ::
      j < k ==> Recurs(source, n, k, j)
  }

  class Rng {
    /** The stream of draws. */
    const source: nat -> real
    /** How many draws have been consumed. */
    var next: nat

    /**
     * Every draw lies in [0, 1), and the stream is fair: whatever has been
     * drawn so far, every index among `k` choices is drawn again later. The
     * redraw loops of the app (a new stage or activity must differ from the
     * current one) terminate only under this assumption.
     */
    ghost predicate Valid()
    {
      DrawsInUnit(source) && Fair(source)
    }

    constructor (source: nat -> real)
      requires DrawsInUnit(source) && Fair(source)
      ensures Valid()
      ensures this.source == source && next == 0
    {
      this.source := source;
      next := 0;
    }

    /** `Random.nextDouble()`. */
    method NextDouble() returns (u: real)
      requires Valid()
      modifies this
      ensures u == source(old(next)) && next == old(next) + 1
      ensures 0.0 <= u < 1.0
    {
      u := source(next);
      next := next + 1;
    }

    /** `Random.nextBoolean()`. */
    method NextBoolean() returns (b: bool)
      requires Valid()
      modifies this
      ensures b == (source(old(next)) < 0.5) && next == old(next) + 1
    {
      var u := NextDouble();
      b := u < 0.5;
    }

    /** `Random.nextDouble(from, until)`. */
    method Between(from: real, until: real) returns (r: real)
      requires Valid()
      modifies this
      ensures r == DrawBetween(from, until, source(old(next)))
      ensures next == old(next) + 1
    {
      var u := NextDouble();
      r := DrawBetween(from, until, u);
    }

    /** `list.random()` for a list of `k` elements: the index picked. */
    method Pick(k: nat) returns (i: nat)
      requires Valid() && k > 0
      modifies this
      ensures i == PickIndex(source(old(next)), k) && next == old(next) + 1
      ensures i < k
    {
      var u := NextDouble();
      i := PickIndex(u, k);
    }

    /** `(lo..hi).random()`. */
    method IntInRange(lo: int, hi: int) returns (r: int)
      requires Valid() && lo <= hi
      modifies this
      ensures r == lo + PickIndex(source(old(next)), hi - lo + 1)
      ensures lo <= r <= hi && next == old(next) + 1
    {
      var i := Pick(hi - lo + 1);
      r := lo + i;
    }

    /**
     * `randomInRange(range)` with its default bias 1: a range that is a
     * single point gives that point without a draw; otherwise a uniform
     * value in [min, max).
     */
    method InRange(lo: real, hi: real) returns (r: real)
      requires Valid()
      modifies this
      ensures lo == hi ==> r == lo && next == old(next)
      ensures lo != hi ==> r == Uniform(lo, hi, source(old(next))) && next == old(next) + 1
      ensures Min(lo, hi) <= r <= Max(lo, hi)
      ensures lo != hi ==> r < Max(lo, hi)
    {
      if Min(lo, hi) == Max(lo, hi) {
        return Min(lo, hi);
      }
      var u := NextDouble();
      r := Uniform(lo, hi, u);
    }
  }
}
