/**
 * The funscript player: a script of timed stroke positions is scaled to
 * [0, 1], given a velocity per point, stored in a tree map by time, and
 * looked up with Hermite interpolation to make pulses. Decoding the JSON
 * text is done by a library and is not part of this model: `Open` takes
 * the decoded script, or `None` when decoding failed.
 */
module Funscript {
  import opened Wrappers
  import opened Numeric
  import opened Utils
  import opened Pulses
  import opened TreeMaps

  /** One script point: a time in milliseconds and a position, normally 0..100. */
  datatype Action = Action(at: int, pos: int)

  /** A decoded script with the optional position range the app reads from its header. */
  datatype FunscriptFile = FunscriptFile(
    actions: seq<Action>,
    howlMaxPos: Option<int>,
    howlMinPos: Option<int>,
    howlTimeOffset: Option<int>)

  datatype PositionVelocity = PositionVelocity(position: real, velocity: real)

  /** A point after scaling: seconds and a position in [0, 1]. */
  datatype ScaledAction = ScaledAction(time: real, pos: real)

  /** Why `open` fails. */
  datatype OpenError = FileTooLarge(megabytes: int) | DecodingFailed | NoActions

  const MAX_FILE_SIZE: int := 20 * 1024 * 1024

  /** The player's funscript controls. */
  datatype FunscriptSettings = FunscriptSettings(
    positionalEffectStrength: real,
    frequencyTimeOffset: real,
    volume: real,
    feel: real)

  function Positions(actions: seq<Action>): (r: seq<int>)
    ensures |r| == |actions| && forall i | 0 <= i < |r| :: r[i] == actions[i].pos
  {
    seq(|actions|, i requires 0 <= i < |actions| => actions[i].pos)
  }

  /** `minOrNull` on a non-empty list. */
  function Minimum(xs: seq<int>): (r: int)
    requires |xs| > 0
    ensures r in xs && forall x | x in xs :: r <= x
  {
    if |xs| == 1 then xs[0]
    else
      var m := Minimum(xs[1..]);
      assert forall x | x in xs[1..] :: x in xs;
      assert forall x | x in xs :: x == xs[0] || x in xs[1..];
      if xs[0] <= m then xs[0] else m
  }

  /** `maxOrNull` on a non-empty list. */
  function Maximum(xs: seq<int>): (r: int)
    requires |xs| > 0
    ensures r in xs && forall x | x in xs :: x <= r
  {
    if |xs| == 1 then xs[0]
    else
      var m := Maximum(xs[1..]);
      assert forall x | x in xs[1..] :: x in xs;
      assert forall x | x in xs :: x == xs[0] || x in xs[1..];
      if xs[0] >= m then xs[0] else m
  }

  /**
   * The position range of a script: the header's bounds where given,
   * otherwise the lowest and highest position used, otherwise 0 and 100.
   */
  function PositionRange(script: FunscriptFile): (r: (int, int))
    ensures script.howlMinPos.Some? ==> r.0 == script.howlMinPos.value
    ensures script.howlMaxPos.Some? ==> r.1 == script.howlMaxPos.value
    ensures script.howlMinPos.None? && |script.actions| == 0 ==> r.0 == 0
    ensures script.howlMaxPos.None? && |script.actions| == 0 ==> r.1 == 100
    ensures script.howlMinPos.None? && |script.actions| > 0 ==>
              (exists i | 0 <= i < |script.actions| :: script.actions[i].pos == r.0) &&
              forall i | 0 <= i < |script.actions| :: r.0 <= script.actions[i].pos
    ensures script.howlMaxPos.None? && |script.actions| > 0 ==>
              (exists i | 0 <= i < |script.actions| :: script.actions[i].pos == r.1) &&
              forall i | 0 <= i < |script.actions| :: script.actions[i].pos <= r.1
  {
    var positions := Positions(script.actions);
    var minPos := if script.howlMinPos.Some? then script.howlMinPos.value
                  else if |positions| > 0 then Minimum(positions) else 0;
    var maxPos := if script.howlMaxPos.Some? then script.howlMaxPos.value
                  else if |positions| > 0 then Maximum(positions) else 100;
    assert forall i | 0 <= i < |positions| :: positions[i] in positions;
    (minPos, maxPos)
  }

  /**
   * A position placed on [0, 1] by the range: `minPos` goes to 0 and
   * `maxPos` to 1, clamped outside; an empty range divides by 100.
   */
  function ScaledPosition(pos: int, minPos: int, maxPos: int): (r: real)
    ensures 0.0 <= r <= 1.0
    ensures minPos != maxPos && pos == minPos ==> r == 0.0
    ensures minPos != maxPos && pos == maxPos ==> r == 1.0
    ensures minPos < maxPos && pos <= minPos ==> r == 0.0
    ensures minPos < maxPos && pos >= maxPos ==> r == 1.0
    ensures minPos < maxPos && minPos <= pos <= maxPos ==> r * (maxPos - minPos) as real == (pos - minPos) as real
    ensures minPos == maxPos ==> r == Clamp(pos as real / 100.0, 0.0, 1.0)
  {
    if minPos != maxPos then
      var range := (maxPos - minPos) as real;
      var scaled := (pos as real + -(minPos as real)) * (1.0 / range);
      assert scaled == (pos - minPos) as real / range;
      if minPos < maxPos && minPos <= pos <= maxPos then
        DivUnit((pos - minPos) as real, range);
        Clamp(scaled, 0.0, 1.0)
      else if minPos < maxPos && pos < minPos then
        assert scaled < 0.0 by { DivMonotone((pos - minPos) as real, 0.0, range); }
        Clamp(scaled, 0.0, 1.0)
      else if minPos < maxPos then
        assert scaled > 1.0 by { DivBelowOne(range, (pos - minPos) as real); }
        Clamp(scaled, 0.0, 1.0)
      else
        (if pos == maxPos then DivSelf(range); Clamp(scaled, 0.0, 1.0) else Clamp(scaled, 0.0, 1.0))
    else
      Clamp((pos as real + 0.0) * (1.0 / 100.0), 0.0, 1.0)
  }

  /** Every action in seconds, its position scaled to [0, 1]. */
  function ScaledActions(actions: seq<Action>, minPos: int, maxPos: int): (r: seq<ScaledAction>)
    ensures |r| == |actions|
    ensures forall i | 0 <= i < |r| :: r[i].time == actions[i].at as real / 1000.0 &&
                                       r[i].pos == ScaledPosition(actions[i].pos, minPos, maxPos)
  {
    seq(|actions|, i requires 0 <= i < |actions| =>
      ScaledAction(actions[i].at as real / 1000.0, ScaledPosition(actions[i].pos, minPos, maxPos)))
  }

  /** The secant slope from `a` to `b`; two points at one time give 0 here (Kotlin divides by zero). */
  function Slope(a: ScaledAction, b: ScaledAction): (r: real)
    ensures b.time != a.time ==> r * (b.time - a.time) == b.pos - a.pos
    ensures b.time == a.time ==> r == 0.0
  {
    if b.time == a.time then 0.0 else (b.pos - a.pos) / (b.time - a.time)
  }

  /**
   * The velocity estimate at point `i`: the secant to the next point at the
   * start, from the previous point at the end, and the mean of the two in
   * between; a lone point has none.
   */
  function Velocity(actions: seq<ScaledAction>, i: nat): (r: real)
    requires i < |actions|
    ensures |actions| == 1 ==> r == 0.0
    ensures |actions| > 1 && i == 0 ==> r == Slope(actions[0], actions[1])
    ensures |actions| > 1 && i == |actions| - 1 ==> r == Slope(actions[i - 1], actions[i])
    ensures 0 < i < |actions| - 1 ==>
              Min(Slope(actions[i - 1], actions[i]), Slope(actions[i], actions[i + 1])) <= r <=
              Max(Slope(actions[i - 1], actions[i]), Slope(actions[i], actions[i + 1]))
  {
    if |actions| == 1 then 0.0
    else if i == 0 then Slope(actions[0], actions[1])
    else if i == |actions| - 1 then Slope(actions[i - 1], actions[i])
    else (Slope(actions[i - 1], actions[i]) + Slope(actions[i], actions[i + 1])) * 0.5
  }

  /** The estimate is exact on a straight stroke: points on `pos = a + b * time` all get velocity `b`. */
  lemma VelocityOnALine(actions: seq<ScaledAction>, a: real, b: real, i: nat)
    requires |actions| > 1 && i < |actions|
    requires forall k | 0 <= k < |actions| :: actions[k].pos == a + b * actions[k].time
    requires forall k | 0 < k < |actions| :: actions[k - 1].time != actions[k].time
    ensures Velocity(actions, i) == b
  {
    forall k | 0 < k < |actions|
      ensures Slope(actions[k - 1], actions[k]) == b
    {
      var d := actions[k].time - actions[k - 1].time;
      var s := Slope(actions[k - 1], actions[k]);
      assert s * d == b * d;
      if s < b { MulStrict(s, b, if d > 0.0 then d else -d); }
      if s > b { MulStrict(b, s, if d > 0.0 then d else -d); }
    }
    if 0 < i < |actions| - 1 {
      assert Slope(actions[i - 1], actions[i]) == b && Slope(actions[i], actions[i + 1]) == b;
    }
  }

  /** `positionVelocities`: each point's position with its velocity estimate. */
  function PositionVelocities(actions: seq<ScaledAction>): (r: seq<PositionVelocity>)
    ensures |r| == |actions|
    ensures forall i | 0 <= i < |r| :: r[i] == PositionVelocity(actions[i].pos, Velocity(actions, i))
  {
    seq(|actions|, i requires 0 <= i < |actions| => PositionVelocity(actions[i].pos, Velocity(actions, i)))
  }

  function Times(actions: seq<ScaledAction>): (r: seq<real>)
    ensures |r| == |actions| && forall i | 0 <= i < |r| :: r[i] == actions[i].time
  {
    seq(|actions|, i requires 0 <= i < |actions| => actions[i].time)
  }

  /** Every stored position is within [0, 1]. */
  predicate PositionsInUnit(data: seq<Entry<PositionVelocity>>)
  {
    forall i | 0 <= i < |data| :: 0.0 <= data[i].value.position <= 1.0
  }

  /**
   * `getPositionAndVelocityAtTime`: nothing stored gives rest at 0; before
   * the first point or from the last one on, that point's position at rest;
   * between two points of equal position, rest there; otherwise the Hermite
   * curve through the two points, its position clamped to [0, 1].
   */
  function PositionAndVelocityAt(data: seq<Entry<PositionVelocity>>, time: real): (r: Motion)
    requires Sorted(data)
    ensures |data| == 0 ==> r == Motion(0.0, 0.0)
    ensures |data| > 0 && time < data[0].key ==> r == Motion(data[0].value.position, 0.0)
    ensures |data| > 0 && time >= data[|data| - 1].key ==> r == Motion(data[|data| - 1].value.position, 0.0)
    ensures PositionsInUnit(data) ==> 0.0 <= r.position <= 1.0
  {
    var before := FloorEntry(data, time);
    var after := HigherEntry(data, time);
    Neighbours(data, time);
    match (before, after)
    case (None, None) => Motion(0.0, 0.0)
    case (None, Some(a)) => Motion(a.value.position, 0.0)
    case (Some(b), None) => Motion(b.value.position, 0.0)
    case (Some(b), Some(a)) =>
      var t0, pv0 := b.key, b.value;
      var t1, pv1 := a.key, a.value;
      if t0 == t1 || pv0.position == pv1.position then
        Motion(pv0.position, 0.0)
      else
        var h := HermiteInterpolateWithVelocity(time, t0, pv0.position, pv0.velocity, t1, pv1.position, pv1.velocity);
        Motion(Clamp(h.position, 0.0, 1.0), h.velocity)
  }

  /**
   * Between two neighbouring points the lookup rests at the first one's
   * position when both are equal, and otherwise follows the Hermite curve
   * through them, its position clamped to [0, 1].
   */
  lemma LookupBetweenPoints(data: seq<Entry<PositionVelocity>>, time: real, k: nat)
    requires Sorted(data) && k < |data| - 1 && data[k].key <= time < data[k + 1].key
    ensures var p0, p1 := data[k].value, data[k + 1].value;
            var r := PositionAndVelocityAt(data, time);
            if p0.position == p1.position then r == Motion(p0.position, 0.0)
            else
              var h := HermiteInterpolateWithVelocity(time, data[k].key, p0.position, p0.velocity,
                                                      data[k + 1].key, p1.position, p1.velocity);
              r == Motion(Clamp(h.position, 0.0, 1.0), h.velocity)
  {
    Neighbours(data, time);
  }

  /** At a stored point's own time the lookup gives that point's position. */
  lemma LookupAtKey(data: seq<Entry<PositionVelocity>>, k: nat)
    requires Sorted(data) && PositionsInUnit(data) && k < |data|
    ensures PositionAndVelocityAt(data, data[k].key).position == data[k].value.position
  {
    if k < |data| - 1 {
      LookupBetweenPoints(data, data[k].key, k);
      var p0, p1 := data[k].value, data[k + 1].value;
      var h := HermiteInterpolateWithVelocity(data[k].key, data[k].key, p0.position, p0.velocity,
                                              data[k + 1].key, p1.position, p1.velocity);
      assert h.position == p0.position;
    }
  }

  /**
   * The pulse made from the motion now and the position at the earlier
   * time: the amplitude grows with the speed of the stroke (`1 - volume`
   * sets how fast) and is split between the channels by position; channel
   * A's frequency follows the earlier position and channel B's the current
   * one, both shaped by the feel exponent.
   */
  function PulseFor(now: Motion, offsetPosition: real, settings: FunscriptSettings,
                    sqrt: real -> real, pow: (real, real) -> real): (r: Pulse)
    requires settings.volume <= 1.0
    ensures now.velocity == 0.0 ==> r.ampA == 0.0 && r.ampB == 0.0
    ensures r.freqA == FeelAdjustment(offsetPosition, settings.feel, pow)
    ensures r.freqB == FeelAdjustment(now.position, settings.feel, pow)
    ensures 0.0 <= r.freqA <= 1.0 && 0.0 <= r.freqB <= 1.0
    ensures IsSqrt(sqrt) && 0.0 <= now.position <= 1.0 && 0.0 <= settings.positionalEffectStrength <= 1.0 ==>
              var amplitude := ScaleVelocity(now.velocity, 1.0 - settings.volume);
              0.0 <= r.ampA <= amplitude <= 1.0 && 0.0 <= r.ampB <= amplitude &&
              r.ampA * r.ampA + r.ampB * r.ampB == amplitude * amplitude
  {
    var amplitude := ScaleVelocity(now.velocity, 1.0 - settings.volume);
    var split := PositionalEffect(amplitude, now.position, settings.positionalEffectStrength, sqrt);
    PowerOfSplit(amplitude, now.position, settings.positionalEffectStrength, sqrt);
    Pulse(split.a, split.b, FeelAdjustment(offsetPosition, settings.feel, pow), FeelAdjustment(now.position, settings.feel, pow))
  }

  lemma PowerOfSplit(amplitude: real, position: real, strength: real, sqrt: real -> real)
    ensures IsSqrt(sqrt) && 0.0 <= position <= 1.0 && 0.0 <= strength <= 1.0 ==>
              var split := PositionalEffect(amplitude, position, strength, sqrt);
              split.a * split.a + split.b * split.b == amplitude * amplitude &&
              (amplitude >= 0.0 ==> 0.0 <= split.a <= amplitude && 0.0 <= split.b <= amplitude)
  {
    if IsSqrt(sqrt) && 0.0 <= position <= 1.0 && 0.0 <= strength <= 1.0 {
      PositionalEffectKeepsPower(amplitude, position, strength, sqrt);
    }
  }

  /**
   * `getPulseAtTime`: the pulse for the motion at `time`, channel A's
   * frequency taken `frequencyTimeOffset` seconds earlier. A script at rest
   * (or outside its points) is silent, and with a volume and positional
   * strength in [0, 1] every field is within [0, 1], the two amplitudes
   * sharing the speed-based amplitude's power.
   */
  function GetPulseAtTime(data: seq<Entry<PositionVelocity>>, time: real, settings: FunscriptSettings,
                          sqrt: real -> real, pow: (real, real) -> real): (r: Pulse)
    requires Sorted(data)
    requires settings.volume <= 1.0
    ensures r == PulseFor(PositionAndVelocityAt(data, time),
                          PositionAndVelocityAt(data, time - settings.frequencyTimeOffset).position, settings, sqrt, pow)
    ensures IsSqrt(sqrt) && PositionsInUnit(data) && 0.0 <= settings.volume && 0.0 <= settings.positionalEffectStrength <= 1.0 ==>
              0.0 <= r.ampA <= 1.0 && 0.0 <= r.ampB <= 1.0 && 0.0 <= r.freqA <= 1.0 && 0.0 <= r.freqB <= 1.0
  {
    var now := PositionAndVelocityAt(data, time);
    var offset := PositionAndVelocityAt(data, time - settings.frequencyTimeOffset);
    PulseFor(now, offset.position, settings, sqrt, pow)
  }

  /** The tree map `open` fills: each point's velocity stored under its time, a later point at the same time replacing an earlier one. */
  function Timeline(actions: seq<ScaledAction>): (r: seq<Entry<PositionVelocity>>)
    ensures Sorted(r)
    ensures KeySet(r) == set t | t in Times(actions)
  {
    FromPairs(Times(actions), PositionVelocities(actions))
  }

  /** `FunscriptPulseSource`: the time-ordered points and whether a script is ready to play. */
  class FunscriptPulseSource {
    var timePositionData: seq<Entry<PositionVelocity>>
    var duration: Option<real>
    var readyToPlay: bool

    predicate Valid()
      reads this
    {
      Sorted(timePositionData) && PositionsInUnit(timePositionData)
    }

    constructor ()
      ensures Valid() && timePositionData == [] && duration == None && !readyToPlay
    {
      timePositionData := [];
      duration := None;
      readyToPlay := false;
    }

    /** The `forEachIndexed` loop of `open`: `values[i]` put under `times[i]`, in order. */
    method Store(times: seq<real>, values: seq<PositionVelocity>)
      requires timePositionData == [] && |times| == |values|
      requires forall i | 0 <= i < |values| :: 0.0 <= values[i].position <= 1.0
      modifies this
      ensures timePositionData == FromPairs(times, values) && Valid()
      ensures readyToPlay == old(readyToPlay) && duration == old(duration)
    {
      var data := timePositionData;
      var i := 0;
      while i < |times|
        invariant i <= |times|
        invariant data == FromPairs(times[..i], values[..i])
        modifies {}
      {
        FromPairsStep(times, values, i);
        data := Insert(data, times[i], values[i]);
        i := i + 1;
      }
      assert times[..i] == times && values[..i] == values;
      StoredInUnit(times, values);
      timePositionData := data;
    }

    /**
     * `open`: forgets the previous script, refuses a file over 20 MB or one
     * that does not decode, then stores every scaled point with its
     * velocity; a script without points fails when its last time is asked
     * for. On success the duration is the latest point's time.
     */
    method Open(fileSize: int, decoded: Option<FunscriptFile>) returns (r: Result<real, OpenError>)
      modifies this
      ensures Valid()
      ensures fileSize > MAX_FILE_SIZE ==> r == Failure(FileTooLarge(fileSize / (1024 * 1024))) && timePositionData == []
      ensures fileSize <= MAX_FILE_SIZE && decoded.None? ==> r == Failure(DecodingFailed) && timePositionData == []
      ensures fileSize <= MAX_FILE_SIZE && decoded.Some? && |decoded.value.actions| == 0 ==>
                r == Failure(NoActions) && timePositionData == []
      ensures r.Failure? ==> !readyToPlay && duration == old(duration)
      ensures fileSize <= MAX_FILE_SIZE && decoded.Some? && |decoded.value.actions| > 0 ==> r.Success?
      ensures r.Success? ==>
                var script := decoded.value;
                var range := PositionRange(script);
                timePositionData == Timeline(ScaledActions(script.actions, range.0, range.1)) &&
                readyToPlay && duration == Some(r.value) &&
                (exists i | 0 <= i < |script.actions| :: r.value == script.actions[i].at as real / 1000.0) &&
                (forall i | 0 <= i < |script.actions| :: script.actions[i].at as real / 1000.0 <= r.value)
    {
      readyToPlay := false;
      timePositionData := [];
      if fileSize > MAX_FILE_SIZE {
        return Failure(FileTooLarge(fileSize / (1024 * 1024)));
      }
      if decoded.None? {
        return Failure(DecodingFailed);
      }
      if |decoded.value.actions| == 0 {
        // nothing is stored, and asking for the last time of an empty map fails
        return Failure(NoActions);
      }
      var last := Load(decoded.value);
      r := Success(last);
    }

    /** The decoding branch of `open` for a script with points: every scaled point stored with its velocity, then the duration is the last time. */
    method Load(script: FunscriptFile) returns (last: real)
      requires timePositionData == [] && |script.actions| > 0
      modifies this
      ensures Valid()
      ensures var range := PositionRange(script);
              timePositionData == Timeline(ScaledActions(script.actions, range.0, range.1))
      ensures readyToPlay && duration == Some(last)
      ensures exists i | 0 <= i < |script.actions| :: last == script.actions[i].at as real / 1000.0
      ensures forall i | 0 <= i < |script.actions| :: script.actions[i].at as real / 1000.0 <= last
    {
      var range := PositionRange(script);
      var scaled := ScaledActions(script.actions, range.0, range.1);
      ScaledInUnit(script.actions, range.0, range.1);
      Store(Times(scaled), PositionVelocities(scaled));
      LatestTime(script.actions, range.0, range.1);
      last := LastKey(timePositionData);
      duration := Some(last);
      readyToPlay := true;
    }
  }

  /** Putting only positions in [0, 1] stores only positions in [0, 1]. */
  lemma StoredInUnit(times: seq<real>, values: seq<PositionVelocity>)
    requires |times| == |values|
    requires forall i | 0 <= i < |values| :: 0.0 <= values[i].position <= 1.0
    ensures PositionsInUnit(FromPairs(times, values))
  {
    var data := FromPairs(times, values);
    FromPairsValues(times, values);
    forall i | 0 <= i < |data|
      ensures 0.0 <= data[i].value.position <= 1.0
    {
      assert data[i] in data;
    }
  }

  lemma ScaledInUnit(actions: seq<Action>, minPos: int, maxPos: int)
    ensures forall i | 0 <= i < |actions| :: 0.0 <= ScaledActions(actions, minPos, maxPos)[i].pos <= 1.0
  {
  }

  /** `lastKey` of a script's timeline is the time of its latest point. */
  lemma LatestTime(actions: seq<Action>, minPos: int, maxPos: int)
    requires |actions| > 0
    ensures var data := Timeline(ScaledActions(actions, minPos, maxPos));
            |data| > 0 &&
            (exists i | 0 <= i < |actions| :: LastKey(data) == actions[i].at as real / 1000.0) &&
            (forall i | 0 <= i < |actions| :: actions[i].at as real / 1000.0 <= LastKey(data))
  {
    var times := Times(ScaledActions(actions, minPos, maxPos));
    var data := Timeline(ScaledActions(actions, minPos, maxPos));
    assert times[0] in KeySet(data);
    var last := LastKey(data);
    assert last in set t | t in times;
    forall j | 0 <= j < |actions|
      ensures actions[j].at as real / 1000.0 <= last
    {
      assert times[j] in KeySet(data);
    }
  }
}
