/**
 * The older file readers: an HWL reader that frames records like the HWL
 * player, and a funscript reader that interpolates linearly and maps the
 * stroke speed to an amplitude with a channel bias by position.
 */
module FileReader {
  import opened Wrappers
  import opened Numeric
  import opened Utils
  import opened Pulses
  import opened TreeMaps
  import Hwl
  import Funscript

  /** `HWLReader`: the records read so far and whether a file is ready to play. */
  class HwlReader {
    var pulseData: seq<Hwl.Record>
    var readyToPlay: bool

    constructor ()
      ensures pulseData == [] && !readyToPlay
    {
      pulseData := [];
      readyToPlay := false;
    }

    /** `getPulseAtTime`: the record playing at `time`, held to the first and last, all zeros when empty. */
    function GetPulseAtTime(time: real, decode: Hwl.FloatBytes -> real): (p: Pulse)
      reads this
      ensures |pulseData| == 0 ==> p == ZeroPulse
      ensures |pulseData| > 0 ==> p == Hwl.Decoded(pulseData[Hwl.PulseIndex(time, |pulseData|)], decode)
    {
      if |pulseData| == 0 then ZeroPulse
      else Hwl.Decoded(pulseData[Hwl.PulseIndex(time, |pulseData|)], decode)
    }

    /**
     * `open`: the same header check and record framing as the HWL player,
     * appending to what is held; on success it returns the length in
     * seconds of everything held.
     */
    method Open(file: seq<Byte>) returns (r: Result<real, string>)
      modifies this
      ensures r.Failure? <==> Hwl.Parse(file).Failure?
      ensures r.Failure? ==> r.error == Hwl.Parse(file).error && !readyToPlay
      ensures !Hwl.HeaderOk(file) ==> pulseData == old(pulseData)
      ensures Hwl.HeaderOk(file) ==> pulseData == old(pulseData) + Hwl.Records(file[Hwl.HEADER_SIZE..])
      ensures r.Success? ==> pulseData == old(pulseData) + Hwl.Parse(file).value && readyToPlay &&
                             r.value == |pulseData| as real * Hwl.PULSE_TIME
    {
      readyToPlay := false;
      if !Hwl.HeaderOk(file) {
        return Failure(Hwl.BAD_HEADER);
      }
      var body := file[Hwl.HEADER_SIZE..];
      var pos := 0;
      while pos < |body|
        invariant pos <= |body| && pos % Hwl.RECORD_SIZE == 0
        invariant pulseData == old(pulseData) + Hwl.Records(body[..pos])
        invariant !readyToPlay
        decreases |body| - pos
      {
        if |body| - pos < Hwl.RECORD_SIZE {
          Hwl.RecordsIgnoreTail(body, pos);
          return Failure(Hwl.INCOMPLETE_RECORD);
        }
        Hwl.RecordsExtend(body, pos);
        pulseData := pulseData + [Hwl.RecordAt(body[pos..pos + 16])];
        pos := pos + Hwl.RECORD_SIZE;
      }
      assert body[..pos] == body;
      readyToPlay := true;
      r := Success(|pulseData| as real * Hwl.PULSE_TIME);
    }
  }

  /** Below this speed the stroke counts as still. */
  const MOVING_THRESHOLD: real := 0.01
  /** Scales speed so that about five full strokes a second reach full amplitude. */
  const VELOCITY_CORRECTION: real := 0.2
  /** The weakest amplitude a moving stroke plays at. */
  const MIN_INTENSITY: real := 0.4

  /**
   * `getPositionAndVelocityAtTime` of the funscript reader: rest at 0 with
   * no points, rest at the first or last point outside them, and the
   * straight line between the two points around `time`.
   */
  function LinearPositionAndVelocityAt(data: seq<Entry<real>>, time: real): (r: Motion)
    requires Sorted(data)
    ensures |data| == 0 ==> r == Motion(0.0, 0.0)
    ensures |data| > 0 && time < data[0].key ==> r == Motion(data[0].value, 0.0)
    ensures |data| > 0 && time >= data[|data| - 1].key ==> r == Motion(data[|data| - 1].value, 0.0)
  {
    var before := FloorEntry(data, time);
    var after := HigherEntry(data, time);
    Neighbours(data, time);
    match (before, after)
    case (None, None) => Motion(0.0, 0.0)
    case (None, Some(a)) => Motion(a.value, 0.0)
    case (Some(b), None) => Motion(b.value, 0.0)
    case (Some(b), Some(a)) =>
      LineThrough(b.key, b.value, a.key, a.value, time)
  }

  /**
   * The straight line from `p1` at `t1` to `p2` at `t2`, at `time`: it
   * agrees with the linear interpolation between the points, and its
   * velocity is the slope.
   */
  function LineThrough(t1: real, p1: real, t2: real, p2: real, time: real): (r: Motion)
    requires t1 < t2
    ensures r.velocity * (t2 - t1) == p2 - p1
    ensures t1 <= time <= t2 ==> r.position == LinearInterpolate(time, t1, p1, t2, p2)
    ensures t1 <= time <= t2 ==> Min(p1, p2) <= r.position <= Max(p1, p2)
    ensures time == t1 ==> r.position == p1
    ensures time == t2 ==> r.position == p2
  {
    SameLine(p2 - p1, time - t1, t2 - t1);
    assert (t2 - t1) / (t2 - t1) == 1.0;
    Motion(p1 + (p2 - p1) * (time - t1) / (t2 - t1), (p2 - p1) / (t2 - t1))
  }

  /** Between neighbouring points the lookup follows the line through them. */
  lemma LinearBetweenPoints(data: seq<Entry<real>>, time: real, k: nat)
    requires Sorted(data) && k < |data| - 1 && data[k].key <= time < data[k + 1].key
    ensures LinearPositionAndVelocityAt(data, time) ==
            LineThrough(data[k].key, data[k].value, data[k + 1].key, data[k + 1].value, time)
  {
    Neighbours(data, time);
  }

  /** `a * x / d` is `x / d` of the way along `a`. */
  lemma SameLine(a: real, x: real, d: real)
    requires d != 0.0
    ensures a * x / d == (x / d) * a
  {
    var q := x / d;
    assert q * d == x;
    assert a * x == (a * q) * d;
    DivCancel(a * q, d);
  }

  /**
   * The base amplitude from the stroke speed: none while still, otherwise
   * `min(1, |0.2 v|)` mapped onto [0.4, 1].
   */
  function SpeedAmplitude(velocity: real): (r: real)
    ensures Abs(velocity) <= MOVING_THRESHOLD ==> r == 0.0
    ensures Abs(velocity) > MOVING_THRESHOLD ==> MIN_INTENSITY <= r <= 1.0
    ensures Abs(velocity) >= 5.0 ==> r == 1.0
  {
    if Abs(velocity) > MOVING_THRESHOLD then
      var amplitude := Min(1.0, Abs(velocity * VELOCITY_CORRECTION));
      amplitude * (1.0 - MIN_INTENSITY) + MIN_INTENSITY
    else 0.0
  }

  /** A faster stroke never plays weaker, once moving. */
  lemma SpeedAmplitudeMonotone(v: real, w: real)
    requires MOVING_THRESHOLD < Abs(v) <= Abs(w)
    ensures SpeedAmplitude(v) <= SpeedAmplitude(w)
  {
    assert Abs(v * VELOCITY_CORRECTION) == Abs(v) * VELOCITY_CORRECTION;
    assert Abs(w * VELOCITY_CORRECTION) == Abs(w) * VELOCITY_CORRECTION;
  }

  /**
   * The channel split of the funscript reader: the channel nearer the
   * position gets more by the bias factor, and both are scaled so that
   * their squares add up to the square of the amplitude.
   */
  function BiasedChannels(amplitude: real, position: real, bias: real, sqrt: real -> real): (r: ChannelPair)
    requires IsSqrt(sqrt)
    ensures r.a * r.a + r.b * r.b == amplitude * amplitude
    ensures bias == 0.0 ==> r.a == r.b
    ensures amplitude == 0.0 ==> r.a == 0.0 && r.b == 0.0
    ensures 0.0 <= position <= 1.0 && 0.0 <= bias <= 1.0 && amplitude >= 0.0 ==> 0.0 <= r.a && 0.0 <= r.b
    ensures 0.0 <= bias && position > 0.5 && amplitude > 0.0 ==> r.a <= r.b
  {
    var sumOfSquares := RawSumOfSquares(position, bias);
    var root := sqrt(sumOfSquares);
    PositiveRoot(sumOfSquares, root);
    BiasFacts(amplitude, position, bias, root);
    Split(amplitude, position, bias, root)
  }

  /** The sum of the squares of the unscaled channel amplitudes. */
  function RawSumOfSquares(position: real, bias: real): (s: real)
    ensures s > 0.0
  {
    var n := 2.0 * position - 1.0;
    NonZeroSumOfSquares(1.0 - n * bias, 1.0 + n * bias);
    (1.0 - n * bias) * (1.0 - n * bias) + (1.0 + n * bias) * (1.0 + n * bias)
  }

  /** The channel amplitudes, scaled by `1 / root`. */
  function Split(amplitude: real, position: real, bias: real, root: real): ChannelPair
    requires root > 0.0
  {
    var n := 2.0 * position - 1.0;
    var factor := 1.0 / root;
    ChannelPair((1.0 - n * bias) * factor * amplitude, (1.0 + n * bias) * factor * amplitude)
  }

  lemma PositiveRoot(s: real, root: real)
    requires s > 0.0 && root >= 0.0 && root * root == s
    ensures root > 0.0
  {
    assert root == 0.0 ==> root * root == 0.0;
  }

  lemma NonZeroSumOfSquares(a: real, b: real)
    requires a + b == 2.0
    ensures a * a + b * b > 0.0
  {
    if a <= 0.0 {
      assert b >= 2.0;
      MulPos(b, b);
    } else {
      MulPos(a, a);
    }
  }

  /** The facts about the split at `position`, for the root of the sum of squares. */
  lemma BiasFacts(amplitude: real, position: real, bias: real, root: real)
    requires root > 0.0 && root * root == RawSumOfSquares(position, bias)
    ensures var c := Split(amplitude, position, bias, root);
            c.a * c.a + c.b * c.b == amplitude * amplitude &&
            (bias == 0.0 ==> c.a == c.b) &&
            (amplitude == 0.0 ==> c.a == 0.0 && c.b == 0.0) &&
            (0.0 <= position <= 1.0 && 0.0 <= bias <= 1.0 && amplitude >= 0.0 ==> 0.0 <= c.a && 0.0 <= c.b) &&
            (0.0 <= bias && position > 0.5 && amplitude > 0.0 ==> c.a <= c.b)
  {
    var n := 2.0 * position - 1.0;
    BiasPower(1.0 - n * bias, 1.0 + n * bias, root, amplitude);
    BiasSigns(amplitude, position, bias, root);
  }

  /** The signs and the order of the two channels of the split. */
  lemma BiasSigns(amplitude: real, position: real, bias: real, root: real)
    requires root > 0.0
    ensures var c := Split(amplitude, position, bias, root);
            (0.0 <= position <= 1.0 && 0.0 <= bias <= 1.0 && amplitude >= 0.0 ==> 0.0 <= c.a && 0.0 <= c.b) &&
            (0.0 <= bias && position > 0.5 && amplitude > 0.0 ==> c.a <= c.b)
  {
    var n := 2.0 * position - 1.0;
    var f := 1.0 / root;
    assert f > 0.0;
    if 0.0 <= position <= 1.0 && 0.0 <= bias <= 1.0 && amplitude >= 0.0 {
      BiasNonNegative(n, bias);
      MulNonNeg(1.0 - n * bias, f);
      MulNonNeg((1.0 - n * bias) * f, amplitude);
      MulNonNeg(1.0 + n * bias, f);
      MulNonNeg((1.0 + n * bias) * f, amplitude);
    }
    if 0.0 <= bias && position > 0.5 && amplitude > 0.0 {
      MulNonNeg(n, bias);
      MulMonotone(1.0 - n * bias, 1.0 + n * bias, f);
      MulMonotone((1.0 - n * bias) * f, (1.0 + n * bias) * f, amplitude);
    }
  }

  lemma BiasNonNegative(n: real, bias: real)
    requires -1.0 <= n <= 1.0 && 0.0 <= bias <= 1.0
    ensures 1.0 - n * bias >= 0.0 && 1.0 + n * bias >= 0.0
  {
    if n >= 0.0 {
      MulMonotone(n, 1.0, bias);
      MulNonNeg(n, bias);
    } else {
      MulMonotone(-n, 1.0, bias);
      MulNonNeg(-n, bias);
    }
  }

  lemma BiasPower(rawA: real, rawB: real, root: real, amplitude: real)
    requires root > 0.0 && root * root == rawA * rawA + rawB * rawB
    ensures (rawA * (1.0 / root) * amplitude) * (rawA * (1.0 / root) * amplitude) +
            (rawB * (1.0 / root) * amplitude) * (rawB * (1.0 / root) * amplitude) == amplitude * amplitude
  {
    var f := 1.0 / root;
    assert f * root == 1.0;
    assert (rawA * f * amplitude) * (rawA * f * amplitude) + (rawB * f * amplitude) * (rawB * f * amplitude)
        == (rawA * rawA + rawB * rawB) * (f * f) * (amplitude * amplitude);
    assert (root * root) * (f * f) == (root * f) * (root * f);
  }

  /**
   * The pulse for a position and velocity: the speed sets the overall
   * amplitude, the position biases it between the channels, and the
   * position is both frequencies.
   */
  function MotionPulse(now: Motion, channelBiasFactor: real, sqrt: real -> real): (r: Pulse)
    requires IsSqrt(sqrt)
    ensures r.freqA == now.position && r.freqB == now.position
    ensures r.ampA * r.ampA + r.ampB * r.ampB == SpeedAmplitude(now.velocity) * SpeedAmplitude(now.velocity)
    ensures Abs(now.velocity) <= MOVING_THRESHOLD ==> r.ampA == 0.0 && r.ampB == 0.0
    ensures 0.0 <= now.position <= 1.0 && 0.0 <= channelBiasFactor <= 1.0 ==> 0.0 <= r.ampA && 0.0 <= r.ampB
  {
    var channels := BiasedChannels(SpeedAmplitude(now.velocity), now.position, channelBiasFactor, sqrt);
    Pulse(channels.a, channels.b, now.position, now.position)
  }

  /** `getPulseAtTime` of the funscript reader: the pulse for the looked-up position and velocity. */
  function ReaderPulseAt(data: seq<Entry<real>>, time: real, channelBiasFactor: real, sqrt: real -> real): (r: Pulse)
    requires Sorted(data) && IsSqrt(sqrt)
    ensures |data| == 0 ==> r == ZeroPulse
    ensures |data| > 0 && time < data[0].key ==> r.ampA == 0.0 && r.ampB == 0.0 && r.freqA == data[0].value
    ensures |data| > 0 && time >= data[|data| - 1].key ==>
              r.ampA == 0.0 && r.ampB == 0.0 && r.freqA == data[|data| - 1].value
  {
    MotionPulse(LinearPositionAndVelocityAt(data, time), channelBiasFactor, sqrt)
  }

  /** `FunscriptReader`: the points by time, positions as fractions of 100. */
  class FunscriptReader {
    var timePositionData: seq<Entry<real>>
    var readyToPlay: bool

    constructor ()
      ensures timePositionData == [] && !readyToPlay
    {
      timePositionData := [];
      readyToPlay := false;
    }

    /** `addTimePosition` for every action in order: `pos / 100` under `at / 1000`. */
    method AddActions(actions: seq<Funscript.Action>)
      modifies this
      requires timePositionData == []
      ensures timePositionData == FromPairs(ActionTimes(actions), ActionPositions(actions))
      ensures readyToPlay == old(readyToPlay)
    {
      var times := ActionTimes(actions);
      var positions := ActionPositions(actions);
      var i := 0;
      while i < |actions|
        invariant i <= |actions|
        invariant timePositionData == FromPairs(times[..i], positions[..i])
        invariant readyToPlay == old(readyToPlay)
      {
        var stored := timePositionData;
        FromPairsStep(times, positions, i);
        timePositionData := Insert(stored, times[i], positions[i]);
        i := i + 1;
      }
      PrefixWhole(times, positions, i);
    }

    /**
     * `open`: forgets the previous points, refuses a file over 20 MB or
     * one that does not decode, then stores every action and returns the
     * last time. A script without actions is marked ready to play before
     * asking for its last time fails.
     */
    method Open(fileSize: int, decoded: Option<seq<Funscript.Action>>) returns (r: Result<real, Funscript.OpenError>)
      modifies this
      ensures Sorted(timePositionData)
      ensures fileSize > Funscript.MAX_FILE_SIZE ==>
                r == Failure(Funscript.FileTooLarge(fileSize / (1024 * 1024))) && timePositionData == [] && !readyToPlay
      ensures fileSize <= Funscript.MAX_FILE_SIZE && decoded.None? ==>
                r == Failure(Funscript.DecodingFailed) && timePositionData == [] && !readyToPlay
      ensures fileSize <= Funscript.MAX_FILE_SIZE && decoded.Some? ==>
                timePositionData == FromPairs(ActionTimes(decoded.value), ActionPositions(decoded.value)) &&
                readyToPlay && (r.Success? <==> |decoded.value| > 0)
      ensures fileSize <= Funscript.MAX_FILE_SIZE && decoded.Some? && |decoded.value| == 0 ==> r == Failure(Funscript.NoActions)
      ensures r.Success? ==>
                decoded.Some? &&
                (exists i | 0 <= i < |decoded.value| :: r.value == decoded.value[i].at as real / 1000.0) &&
                (forall i | 0 <= i < |decoded.value| :: decoded.value[i].at as real / 1000.0 <= r.value)
    {
      readyToPlay := false;
      timePositionData := [];
      if fileSize > Funscript.MAX_FILE_SIZE {
        return Failure(Funscript.FileTooLarge(fileSize / (1024 * 1024)));
      }
      if decoded.None? {
        return Failure(Funscript.DecodingFailed);
      }
      var actions := decoded.value;
      AddActions(actions);
      readyToPlay := true;
      if |actions| == 0 {
        return Failure(Funscript.NoActions);
      }
      LastActionTime(actions);
      r := Success(LastKey(timePositionData));
    }
  }

  lemma PrefixWhole(times: seq<real>, positions: seq<real>, i: nat)
    requires i == |times| == |positions|
    ensures times[..i] == times && positions[..i] == positions
  {
  }

  /** Each action's time in seconds. */
  function ActionTimes(actions: seq<Funscript.Action>): (r: seq<real>)
    ensures |r| == |actions| && forall i | 0 <= i < |r| :: r[i] * 1000.0 == actions[i].at as real
  {
    seq(|actions|, i requires 0 <= i < |actions| => actions[i].at as real / 1000.0)
  }

  /** Each action's position as a fraction of 100. */
  function ActionPositions(actions: seq<Funscript.Action>): (r: seq<real>)
    ensures |r| == |actions| && forall i | 0 <= i < |r| :: r[i] * 100.0 == actions[i].pos as real
  {
    seq(|actions|, i requires 0 <= i < |actions| => actions[i].pos as real / 100.0)
  }

  /** The last key of the stored points is the latest action time. */
  lemma LastActionTime(actions: seq<Funscript.Action>)
    requires |actions| > 0
    ensures var data := FromPairs(ActionTimes(actions), ActionPositions(actions));
            |data| > 0 &&
            (exists i | 0 <= i < |actions| :: LastKey(data) == actions[i].at as real / 1000.0) &&
            (forall i | 0 <= i < |actions| :: actions[i].at as real / 1000.0 <= LastKey(data))
  {
    var times := ActionTimes(actions);
    var data := FromPairs(times, ActionPositions(actions));
    assert times[0] in KeySet(data);
    var last := LastKey(data);
    assert last in set t | t in times;
    forall j | 0 <= j < |actions|
      ensures actions[j].at as real / 1000.0 <= last
    {
      assert times[j] in KeySet(data);
    }
  }

  /** An action whose time no later action repeats keeps its position. */
  lemma ActionStored(actions: seq<Funscript.Action>, j: nat)
    requires j < |actions| && forall k | j < k < |actions| :: actions[k].at != actions[j].at
    ensures var data := FromPairs(ActionTimes(actions), ActionPositions(actions));
            var t := actions[j].at as real / 1000.0;
            t in AsMap(data) && AsMap(data)[t] == actions[j].pos as real / 100.0
  {
    var times := ActionTimes(actions);
    var positions := ActionPositions(actions);
    forall k | j < k < |times|
      ensures times[k] != times[j]
    {
      assert times[k] * 1000.0 == actions[k].at as real;
      assert times[j] * 1000.0 == actions[j].at as real;
    }
    LastPutWins(times, positions, j);
    assert times[j] == actions[j].at as real / 1000.0;
    assert positions[j] == actions[j].pos as real / 100.0;
  }
}
