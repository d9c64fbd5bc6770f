/**
 * `FrequencyConverter`: a piecewise curve from a position to a frequency,
 * given by keyframes that are sorted by position once, at construction.
 */
module FrequencyConversion {
  import opened Numeric
  import opened Utils

  datatype FrequencyConverterPoint = FrequencyConverterPoint(position: real, frequency: real)

  datatype FrequencyInterpolationType = LINEAR | SMOOTHSTEP

  ghost predicate SortedByPosition(s: seq<FrequencyConverterPoint>)
  {
    forall i, j | 0 <= i < j < |s| :: s[i].position <= s[j].position
  }

  /** `p` placed into sorted `s` after every point at or before its position. */
  function Insert(p: FrequencyConverterPoint, s: seq<FrequencyConverterPoint>): (r: seq<FrequencyConverterPoint>)
    ensures |r| == |s| + 1
    ensures multiset(r) == multiset(s) + multiset{p}
    ensures SortedByPosition(s) ==> SortedByPosition(r)
    ensures forall q | q in r :: q == p || q in s
  {
    if s == [] then [p]
    else if p.position < s[0].position then
      [p] + s
    else
      var rest := Insert(p, s[1..]);
      assert s == [s[0]] + s[1..];
      InsertBehindFirst(p, s, rest);
      [s[0]] + rest
  }

  /** The recursive step of `Insert`: the first point stays in front of the insertion into the others. */
  lemma InsertBehindFirst(p: FrequencyConverterPoint, s: seq<FrequencyConverterPoint>, rest: seq<FrequencyConverterPoint>)
    requires |s| > 0 && s[0].position <= p.position
    requires forall q | q in rest :: q == p || q in s[1..]
    requires SortedByPosition(s[1..]) ==> SortedByPosition(rest)
    ensures SortedByPosition(s) ==> SortedByPosition([s[0]] + rest)
  {
    if SortedByPosition(s) {
      assert forall i | 1 <= i < |s| :: s[i] == s[1..][i - 1];
      assert forall q | q in s[1..] :: s[0].position <= q.position;
      var r := [s[0]] + rest;
      forall i, j | 0 <= i < j < |r|
        ensures r[i].position <= r[j].position
      {
        assert r[j] == rest[j - 1] && rest[j - 1] in rest;
        if i > 0 {
          assert r[i] == rest[i - 1];
        }
      }
    }
  }

  /** `sortedBy { it.position }`: a stable insertion sort by position. */
  function SortByPosition(points: seq<FrequencyConverterPoint>): (r: seq<FrequencyConverterPoint>)
    ensures |r| == |points|
    ensures multiset(r) == multiset(points)
    ensures SortedByPosition(r)
  {
    if points == [] then []
    else
      var init := points[..|points| - 1];
      assert points == init + [points[|points| - 1]];
      Insert(points[|points| - 1], SortByPosition(init))
  }

  /** The points of `s` that sit exactly at `x`, in their order in `s`. */
  function AtPosition(s: seq<FrequencyConverterPoint>, x: real): seq<FrequencyConverterPoint>
  {
    if s == [] then []
    else AtPosition(s[..|s| - 1], x) + (if s[|s| - 1].position == x then [s[|s| - 1]] else [])
  }

  lemma {:induction false} AtPositionConcat(a: seq<FrequencyConverterPoint>, b: seq<FrequencyConverterPoint>, x: real)
    ensures AtPosition(a + b, x) == AtPosition(a, x) + AtPosition(b, x)
    decreases |b|
  {
    if b == [] {
      assert a + b == a;
    } else {
      var init := b[..|b| - 1];
      assert (a + b)[..|a + b| - 1] == a + init;
      AtPositionConcat(a, init, x);
    }
  }

  /** No point of a list whose positions all lie above `x` sits at `x`. */
  lemma {:induction false} AtPositionAbove(s: seq<FrequencyConverterPoint>, x: real)
    requires forall q | q in s :: x < q.position
    ensures AtPosition(s, x) == []
    decreases |s|
  {
    if s != [] {
      assert forall q | q in s[..|s| - 1] :: q in s;
      AtPositionAbove(s[..|s| - 1], x);
    }
  }

  /** `Insert` puts `p` behind every point of sorted `s` at its own position. */
  lemma {:induction false} InsertAtPosition(p: FrequencyConverterPoint, s: seq<FrequencyConverterPoint>, x: real)
    requires SortedByPosition(s)
    ensures AtPosition(Insert(p, s), x) == AtPosition(s, x) + (if p.position == x then [p] else [])
    decreases |s|
  {
    if s == [] {
      assert Insert(p, s) == [] + [p];
      AtPositionConcat([], [p], x);
    } else if p.position < s[0].position {
      InsertInFront(p, s, x);
    } else {
      assert SortedByPosition(s[1..]) by {
        forall i, j | 0 <= i < j < |s[1..]| ensures s[1..][i].position <= s[1..][j].position {
          assert s[1..][i] == s[i + 1] && s[1..][j] == s[j + 1];
        }
      }
      InsertAtPosition(p, s[1..], x);
      InsertBehind(p, s, x);
    }
  }

  /** The case of `InsertAtPosition` where `p` goes behind the first point, given the insertion into the rest. */
  lemma InsertBehind(p: FrequencyConverterPoint, s: seq<FrequencyConverterPoint>, x: real)
    requires s != [] && s[0].position <= p.position
    requires AtPosition(Insert(p, s[1..]), x) == AtPosition(s[1..], x) + (if p.position == x then [p] else [])
    ensures AtPosition(Insert(p, s), x) == AtPosition(s, x) + (if p.position == x then [p] else [])
  {
    var rest := Insert(p, s[1..]);
    var e := if p.position == x then [p] else [];
    calc {
      AtPosition(Insert(p, s), x);
    == { assert Insert(p, s) == [s[0]] + rest; }
      AtPosition([s[0]] + rest, x);
    == { AtPositionConcat([s[0]], rest, x); }
      AtPosition([s[0]], x) + (AtPosition(s[1..], x) + e);
    ==
      (AtPosition([s[0]], x) + AtPosition(s[1..], x)) + e;
    == { assert s == [s[0]] + s[1..]; AtPositionConcat([s[0]], s[1..], x); }
      AtPosition(s, x) + e;
    }
  }

  /** The case of `InsertAtPosition` where `p` lies before every point. */
  lemma InsertInFront(p: FrequencyConverterPoint, s: seq<FrequencyConverterPoint>, x: real)
    requires SortedByPosition(s) && s != [] && p.position < s[0].position
    ensures AtPosition(Insert(p, s), x) == AtPosition(s, x) + (if p.position == x then [p] else [])
  {
    assert Insert(p, s) == [p] + s;
    AtPositionConcat([p], s, x);
    assert [p][..0] == [];
    if p.position == x {
      assert forall q | q in s :: x < q.position by {
        forall q | q in s ensures x < q.position {
          var k :| 0 <= k < |s| && s[k] == q;
          assert k == 0 || s[0].position <= s[k].position;
        }
      }
      AtPositionAbove(s, x);
    }
  }

  /**
   * `sortedBy` is stable: the points at any one position come out in the
   * order they were given, so among keyframes sharing a position the one
   * given first comes first.
   */
  lemma {:induction false} SortByPositionStable(points: seq<FrequencyConverterPoint>, x: real)
    ensures AtPosition(SortByPosition(points), x) == AtPosition(points, x)
    decreases |points|
  {
    if points != [] {
      var init := points[..|points| - 1];
      SortByPositionStable(init, x);
      InsertAtPosition(points[|points| - 1], SortByPosition(init), x);
    }
  }

  /**
   * `interpolate` between two keyframes with `lower` strictly before
   * `upper`: the frequency of each keyframe at its own position, and in
   * between a value between the two frequencies.
   */
  function Interpolate(kind: FrequencyInterpolationType, lower: FrequencyConverterPoint,
                       upper: FrequencyConverterPoint, position: real): (r: real)
    requires lower.position < upper.position
    ensures position == lower.position ==> r == lower.frequency
    ensures position == upper.position ==> r == upper.frequency
    ensures lower.position <= position <= upper.position ==>
              Min(lower.frequency, upper.frequency) <= r <= Max(lower.frequency, upper.frequency)
  {
    match kind
    case LINEAR =>
      LinearInterpolate(position, lower.position, lower.frequency, upper.position, upper.frequency)
    case SMOOTHSTEP =>
      var h := (position - lower.position) / (upper.position - lower.position);
      NormalisedTime(position, lower.position, upper.position);
      var smoothH := Smoothstep(h);
      ScaledInside(smoothH, lower.frequency, upper.frequency);
      assert smoothH * (upper.frequency - lower.frequency) == (upper.frequency - lower.frequency) * smoothH;
      lower.frequency + smoothH * (upper.frequency - lower.frequency)
  }

  /** In a sorted list at most one interval has `position` in (lower, upper]. */
  lemma BracketUnique(s: seq<FrequencyConverterPoint>, position: real, i: nat, j: nat)
    requires SortedByPosition(s)
    requires i < |s| - 1 && s[i].position < position <= s[i + 1].position
    requires j < |s| - 1 && s[j].position < position <= s[j + 1].position
    ensures i == j
  {
  }

  class FrequencyConverter {
    const sortedPoints: seq<FrequencyConverterPoint>
    const interpolationType: FrequencyInterpolationType

    ghost predicate Valid()
    {
      |sortedPoints| > 0 && SortedByPosition(sortedPoints)
    }

    /** The constructor refuses an empty list and keeps the points sorted. */
    constructor (points: seq<FrequencyConverterPoint>, kind: FrequencyInterpolationType)
      requires |points| > 0
      ensures Valid()
      ensures sortedPoints == SortByPosition(points) && interpolationType == kind
      ensures multiset(sortedPoints) == multiset(points)
    {
      sortedPoints := SortByPosition(points);
      interpolationType := kind;
    }

    /**
     * What `getFrequency` answers at `position`: one keyframe gives its
     * frequency; at or before the first position the first frequency, at
     * or after the last the last; in between the interpolation over the
     * interval (lower, upper] that holds `position`.
     */
    ghost predicate IsFrequency(position: real, r: real)
      requires Valid()
    {
      (|sortedPoints| == 1 ==> r == sortedPoints[0].frequency) &&
      (|sortedPoints| > 1 && position <= sortedPoints[0].position ==> r == sortedPoints[0].frequency) &&
      (|sortedPoints| > 1 && sortedPoints[0].position < position &&
       position >= sortedPoints[|sortedPoints| - 1].position ==>
         r == sortedPoints[|sortedPoints| - 1].frequency) &&
      (|sortedPoints| > 1 && sortedPoints[0].position < position < sortedPoints[|sortedPoints| - 1].position ==>
         exists i | 0 <= i < |sortedPoints| - 1 ::
           sortedPoints[i].position < position <= sortedPoints[i + 1].position &&
           r == Interpolate(interpolationType, sortedPoints[i], sortedPoints[i + 1], position) &&
           Min(sortedPoints[i].frequency, sortedPoints[i + 1].frequency) <= r <=
           Max(sortedPoints[i].frequency, sortedPoints[i + 1].frequency))
    }

    /**
     * `getFrequency`: the first or last frequency outside the keyframes'
     * range, and inside it the interpolation over the one interval that
     * holds `position`; the scan always finds that interval.
     */
    method GetFrequency(position: real) returns (r: real)
      requires Valid()
      ensures IsFrequency(position, r)
    {
      var points := sortedPoints;
      if |points| == 1 {
        return points[0].frequency;
      }
      if position <= points[0].position {
        return points[0].frequency;
      }
      if position >= points[|points| - 1].position {
        return points[|points| - 1].frequency;
      }
      var i := 0;
      while i < |points| - 1
        invariant 0 <= i <= |points| - 1
        invariant points[i].position < position
      {
        var current := points[i];
        var next := points[i + 1];
        if current.position <= position <= next.position {
          return Interpolate(interpolationType, current, next, position);
        }
        i := i + 1;
      }
      assert false;
    }
  }

  /** `IsFrequency` pins the answer down: a converter has one frequency for each position. */
  lemma IsFrequencyUnique(converter: FrequencyConverter, position: real, r1: real, r2: real)
    requires converter.Valid()
    requires converter.IsFrequency(position, r1) && converter.IsFrequency(position, r2)
    ensures r1 == r2
  {
    var s := converter.sortedPoints;
    if |s| > 1 && s[0].position < position < s[|s| - 1].position {
      var i :| 0 <= i < |s| - 1 && s[i].position < position <= s[i + 1].position &&
               r1 == Interpolate(converter.interpolationType, s[i], s[i + 1], position);
      var j :| 0 <= j < |s| - 1 && s[j].position < position <= s[j + 1].position &&
               r2 == Interpolate(converter.interpolationType, s[j], s[j + 1], position);
      BracketUnique(s, position, i, j);
    }
  }
}
