/**
 * The signal generator: each channel follows a periodic shape for its
 * amplitude and another for its frequency, each between a low and a high
 * value; a randomiser picks the shapes, the period and the ranges.
 */
module Generator {
  import opened Numeric
  import opened Utils
  import opened Random
  import opened Pulses

  /** The shapes, in their declared order. */
  datatype WaveType = Sine | Cosine | Sawtooth | Triangle | Square | Constant | Trapezium | Fangs

  /** `WaveType.entries`. */
  const WaveTypes: seq<WaveType> := [Sine, Cosine, Sawtooth, Triangle, Square, Constant, Trapezium, Fangs]

  datatype GeneratorParameters = GeneratorParameters(
    waveType: WaveType,
    frequencyType: WaveType,
    period: real,
    frequencyHigh: real,
    frequencyLow: real,
    amplitudeHigh: real,
    amplitudeLow: real,
    timeOffset: real)

  const DefaultParameters: GeneratorParameters := GeneratorParameters(Sine, Sine, 1.0, 0.5, 0.0, 0.5, 0.0, 0.0)

  datatype Point = Point(time: real, position: real)

  predicate Increasing(points: seq<Point>)
  {
    forall i, j | 0 <= i < j < |points| :: points[i].time < points[j].time
  }

  /** `linearInterpolate`: the line through two points of different times. */
  function LinearBetween(time: real, p1: Point, p2: Point): (r: real)
    requires p1.time < p2.time
    ensures r == LinearInterpolate(time, p1.time, p1.position, p2.time, p2.position)
  {
    var h := (time - p1.time) / (p2.time - p1.time);
    assert (p2.position - p1.position) * (time - p1.time) / (p2.time - p1.time) == h * (p2.position - p1.position);
    p1.position + (p2.position - p1.position) * (time - p1.time) / (p2.time - p1.time)
  }

  /** `indexOfFirst { it.time > time }`: the first later point, or -1 if there is none. */
  function IndexOfFirstAfter(time: real, points: seq<Point>): (r: int)
    ensures -1 <= r < |points|
    ensures r == -1 <==> forall j | 0 <= j < |points| :: points[j].time <= time
    ensures r >= 0 ==> points[r].time > time && forall j | 0 <= j < r :: points[j].time <= time
  {
    if |points| == 0 then -1
    else if points[0].time > time then 0
    else
      var rest := IndexOfFirstAfter(time, points[1..]);
      if rest == -1 then -1 else rest + 1
  }

  /**
   * `linearInterpolatePoints`: the first point's position before it, the
   * last point's from the last time on, and the line between the two points
   * around `time` in between.
   */
  function LinearInterpolatePoints(time: real, points: seq<Point>): (r: real)
    requires |points| > 0 && Increasing(points)
    ensures time < points[0].time ==> r == points[0].position
    ensures time >= points[|points| - 1].time ==> r == points[|points| - 1].position
    ensures forall k | 0 < k < |points| && points[k - 1].time <= time < points[k].time ::
              r == LinearInterpolate(time, points[k - 1].time, points[k - 1].position, points[k].time, points[k].position)
  {
    var index := IndexOfFirstAfter(time, points);
    if index == 0 then points[0].position
    else if index == -1 then points[|points| - 1].position
    else LinearBetween(time, points[index - 1], points[index])
  }

  /** At a point's own time the result is that point's position. */
  lemma InterpolateAtPoint(points: seq<Point>, k: nat)
    requires |points| > 0 && Increasing(points) && k < |points|
    ensures LinearInterpolatePoints(points[k].time, points) == points[k].position
  {
    if k + 1 < |points| {
      assert points[k].time < points[k + 1].time;
    }
  }

  /** Between two points of equal position the result is that position. */
  lemma InterpolateOnPlateau(points: seq<Point>, k: nat, time: real)
    requires |points| > 0 && Increasing(points) && 0 < k < |points|
    requires points[k - 1].position == points[k].position
    requires points[k - 1].time <= time <= points[k].time
    ensures LinearInterpolatePoints(time, points) == points[k].position
  {
    if time == points[k].time {
      InterpolateAtPoint(points, k);
    }
  }

  function TrianglePoints(min: real, max: real): (r: seq<Point>)
    ensures |r| > 0 && Increasing(r)
  {
    [Point(0.0, min), Point(0.5, max), Point(1.0, min)]
  }

  function TrapeziumPoints(min: real, max: real): (r: seq<Point>)
    ensures |r| > 0 && Increasing(r)
  {
    [Point(0.0, min), Point(0.4, max), Point(0.6, max), Point(1.0, min)]
  }

  function FangsPoints(min: real, max: real): (r: seq<Point>)
    ensures |r| > 0 && Increasing(r)
  {
    [Point(0.0, min), Point(0.35, max), Point(0.5, (min + max) / 2.0), Point(0.65, max), Point(1.0, min)]
  }

  /**
   * `calculateWave`: the value of a shape at `relativeTime` in [0, 1) between
   * `min` and `max`. The sine and cosine of the full turn at
   * `relativeTime` are supplied by the caller.
   */
  function CalculateWave(wave: WaveType, relativeTime: real, min: real, max: real,
                         sinTurn: real -> real, cosTurn: real -> real): (r: real)
    ensures wave == Sine ==> r == (min + max) / 2.0 + sinTurn(relativeTime) * (Abs(max - min) / 2.0)
    ensures wave == Cosine ==> r == (min + max) / 2.0 + cosTurn(relativeTime) * (Abs(max - min) / 2.0)
    ensures wave == Sawtooth ==> r == LinearInterpolate(relativeTime, 0.0, min, 1.0, max)
    ensures wave == Square ==> (r == max <==> relativeTime < 0.5 || min == max)
    ensures wave == Square ==> (relativeTime >= 0.5 ==> r == min)
    ensures wave == Constant ==> r == max
    ensures wave == Triangle ==> r == LinearInterpolatePoints(relativeTime, TrianglePoints(min, max))
    ensures wave == Trapezium ==> r == LinearInterpolatePoints(relativeTime, TrapeziumPoints(min, max))
    ensures wave == Fangs ==> r == LinearInterpolatePoints(relativeTime, FangsPoints(min, max))
  {
    var range := Abs(max - min);
    var mid := (min + max) / 2.0;
    match wave
    case Sine => mid + sinTurn(relativeTime) * (range / 2.0)
    case Cosine => mid + cosTurn(relativeTime) * (range / 2.0)
    case Sawtooth => LinearBetween(relativeTime, Point(0.0, min), Point(1.0, max))
    case Triangle => LinearInterpolatePoints(relativeTime, TrianglePoints(min, max))
    case Square => if relativeTime < 0.5 then max else min
    case Constant => max
    case Trapezium => LinearInterpolatePoints(relativeTime, TrapeziumPoints(min, max))
    case Fangs => LinearInterpolatePoints(relativeTime, FangsPoints(min, max))
  }

  /** Every shape but the two trigonometric ones stays between `min` and `max` over a cycle. */
  lemma {:induction false} CalculateWaveBounded(wave: WaveType, relativeTime: real, min: real, max: real,
                                                sinTurn: real -> real, cosTurn: real -> real)
    ensures 0.0 <= relativeTime <= 1.0 && wave != Sine && wave != Cosine ==>
              Min(min, max) <= CalculateWave(wave, relativeTime, min, max, sinTurn, cosTurn) <= Max(min, max)
  {
    match wave
    case Triangle => InterpolateBounded(relativeTime, TrianglePoints(min, max), min, max);
    case Trapezium => InterpolateBounded(relativeTime, TrapeziumPoints(min, max), min, max);
    case Fangs =>
      assert Min(min, max) <= (min + max) / 2.0 <= Max(min, max);
      InterpolateBounded(relativeTime, FangsPoints(min, max), min, max);
    case _ =>
  }

  /** A piecewise line through points within [lo, hi] stays within them. */
  lemma InterpolateBounded(time: real, points: seq<Point>, a: real, b: real)
    requires |points| > 0 && Increasing(points)
    requires forall i | 0 <= i < |points| :: Min(a, b) <= points[i].position <= Max(a, b)
    ensures Min(a, b) <= LinearInterpolatePoints(time, points) <= Max(a, b)
  {
    var index := IndexOfFirstAfter(time, points);
    if index > 0 {
      assert points[index - 1].time <= time < points[index].time;
    }
  }

  /** Triangle peaks at half the period; Trapezium holds its maximum over [0.4, 0.6]; Fangs dips to the middle at half. */
  lemma ShapeLandmarks(min: real, max: real, t: real, sinTurn: real -> real, cosTurn: real -> real)
    requires 0.4 <= t <= 0.6
    ensures CalculateWave(Triangle, 0.5, min, max, sinTurn, cosTurn) == max
    ensures CalculateWave(Trapezium, t, min, max, sinTurn, cosTurn) == max
    ensures CalculateWave(Fangs, 0.5, min, max, sinTurn, cosTurn) == (min + max) / 2.0
  {
    InterpolateAtPoint(TrianglePoints(min, max), 1);
    InterpolateOnPlateau(TrapeziumPoints(min, max), 2, t);
    InterpolateAtPoint(FangsPoints(min, max), 2);
  }

  /** Where in its cycle `time + offset` falls, as a fraction of the period: `(t % period) / period`. */
  function RelativeTime(time: real, timeOffset: real, period: real): (r: real)
    requires period > 0.0
    ensures time + timeOffset >= 0.0 ==> 0.0 <= r < 1.0
  {
    var calcTime := time + timeOffset;
    if calcTime >= 0.0 then
      DivBelowOne(Rem(calcTime, period), period);
      Rem(calcTime, period) / period
    else
      Rem(calcTime, period) / period
  }

  /** A channel's value at a time: the pair (frequency, amplitude). */
  datatype Sample = Sample(frequency: real, amplitude: real)

  /**
   * `generate`: both shapes evaluated at the same relative time, the
   * frequency between the frequency bounds and the amplitude between the
   * amplitude bounds.
   */
  function Generate(time: real, p: GeneratorParameters, sinTurn: real -> real, cosTurn: real -> real): (r: Sample)
    requires p.period > 0.0
    ensures var t := RelativeTime(time, p.timeOffset, p.period);
            r.frequency == CalculateWave(p.frequencyType, t, p.frequencyLow, p.frequencyHigh, sinTurn, cosTurn) &&
            r.amplitude == CalculateWave(p.waveType, t, p.amplitudeLow, p.amplitudeHigh, sinTurn, cosTurn)
    ensures time + p.timeOffset >= 0.0 && p.waveType != Sine && p.waveType != Cosine ==>
              Min(p.amplitudeLow, p.amplitudeHigh) <= r.amplitude <= Max(p.amplitudeLow, p.amplitudeHigh)
    ensures time + p.timeOffset >= 0.0 && p.frequencyType != Sine && p.frequencyType != Cosine ==>
              Min(p.frequencyLow, p.frequencyHigh) <= r.frequency <= Max(p.frequencyLow, p.frequencyHigh)
  {
    var relativeTime := RelativeTime(time, p.timeOffset, p.period);
    CalculateWaveBounded(p.waveType, relativeTime, p.amplitudeLow, p.amplitudeHigh, sinTurn, cosTurn);
    CalculateWaveBounded(p.frequencyType, relativeTime, p.frequencyLow, p.frequencyHigh, sinTurn, cosTurn);
    Sample(CalculateWave(p.frequencyType, relativeTime, p.frequencyLow, p.frequencyHigh, sinTurn, cosTurn),
           CalculateWave(p.waveType, relativeTime, p.amplitudeLow, p.amplitudeHigh, sinTurn, cosTurn))
  }

  /** The generator is periodic: one period later it gives the same sample. */
  lemma {:induction false} GeneratePeriodic(time: real, p: GeneratorParameters, sinTurn: real -> real, cosTurn: real -> real)
    requires p.period > 0.0 && time + p.timeOffset >= 0.0
    ensures Generate(time + p.period, p, sinTurn, cosTurn) == Generate(time, p, sinTurn, cosTurn)
  {
    var c := time + p.timeOffset;
    RemShift(c, p.period);
    assert (time + p.period) + p.timeOffset == c + p.period;
  }

  lemma RemShift(c: real, period: real)
    requires period > 0.0 && c >= 0.0
    ensures Rem(c + period, period) == Rem(c, period)
  {
    var q := Trunc(c / period);
    DivRemainder(c, period, q as real);
    var x := c / period;
    assert x * period == c;
    var y := (c + period) / period;
    assert y * period == c + period;
    var d := y - x - 1.0;
    assert d * period == 0.0;
    if d > 0.0 {
      MulPos(d, period);
    } else if d < 0.0 {
      MulPos(-d, period);
    }
    assert y == x + 1.0;
    assert Trunc((c + period) / period) == q + 1;
  }

  /** `getPulseAtTime`: channel A's parameters give `ampA`/`freqA`, channel B's give `ampB`/`freqB`. */
  function GetPulseAtTime(time: real, channelA: GeneratorParameters, channelB: GeneratorParameters,
                          sinTurn: real -> real, cosTurn: real -> real): (r: Pulse)
    requires channelA.period > 0.0 && channelB.period > 0.0
    ensures r.ampA == Generate(time, channelA, sinTurn, cosTurn).amplitude
    ensures r.freqA == Generate(time, channelA, sinTurn, cosTurn).frequency
    ensures r.ampB == Generate(time, channelB, sinTurn, cosTurn).amplitude
    ensures r.freqB == Generate(time, channelB, sinTurn, cosTurn).frequency
  {
    var a := Generate(time, channelA, sinTurn, cosTurn);
    var b := Generate(time, channelB, sinTurn, cosTurn);
    Pulse(a.amplitude, b.amplitude, a.frequency, b.frequency)
  }

  /**
   * The parameters `getRandomGeneratorParameters` builds from the draws
   * starting at `source(n)`: the period base, a choice of scale, the two
   * amplitudes, whether to swap them, the two shapes, the two frequency
   * bounds and, for a Constant shape, one more draw for its level.
   */
  ghost function ParametersDrawn(source: nat -> real, n: nat): (p: GeneratorParameters)
    requires DrawsInUnit(source)
    ensures 0.5 <= p.period < 10.0
    ensures p.waveType == WaveTypes[PickIndex(source(n + 5), 8)]
    ensures p.frequencyType == WaveTypes[PickIndex(source(n + 6), 8)]
    ensures p.frequencyLow == source(n + 8)
    ensures p.frequencyType == Constant ==> p.frequencyHigh == p.frequencyLow
    ensures p.frequencyType != Constant ==> p.frequencyHigh == source(n + 7)
    ensures p.waveType == Constant ==> p.amplitudeLow == p.amplitudeHigh && 0.5 <= p.amplitudeLow < 1.0
    ensures p.waveType != Constant ==>
              (0.0 <= p.amplitudeLow < 0.4 && 0.5 <= p.amplitudeHigh < 1.0) ||
              (0.0 <= p.amplitudeHigh < 0.4 && 0.5 <= p.amplitudeLow < 1.0)
    ensures p.timeOffset == 0.0
  {
    var waveType := WaveTypes[PickIndex(source(n + 5), 8)];
    var frequencyType := WaveTypes[PickIndex(source(n + 6), 8)];
    var amplitudes := if waveType == Constant then ConstantLevel(source(n + 9))
                      else DrawnAmplitudes(source(n + 2), source(n + 3), source(n + 4) < 0.5);
    GeneratorParameters(waveType, frequencyType, DrawnPeriod(source(n), source(n + 1) < 0.5),
                        if frequencyType == Constant then source(n + 8) else source(n + 7), source(n + 8),
                        amplitudes.high, amplitudes.low, 0.0)
  }

  /** The period: a draw scaled by 2.5 or 9.5, plus half a second. */
  function DrawnPeriod(u: real, short: bool): (r: real)
    requires 0.0 <= u < 1.0
    ensures 0.5 <= r < 10.0
  {
    UnitScale(u, 2.5);
    UnitScale(u, 9.5);
    u * (if short then 2.5 else 9.5) + 0.5
  }

  datatype AmplitudeRange = AmplitudeRange(low: real, high: real)

  /** One amplitude bound below 0.4, the other from 0.5, in either order. */
  function DrawnAmplitudes(u1: real, u2: real, swap: bool): (r: AmplitudeRange)
    requires 0.0 <= u1 < 1.0 && 0.0 <= u2 < 1.0
    ensures !swap ==> 0.0 <= r.low < 0.4 && 0.5 <= r.high < 1.0
    ensures swap ==> 0.0 <= r.high < 0.4 && 0.5 <= r.low < 1.0
  {
    UnitScale(u1, 0.4);
    UnitScale(u2, 0.5);
    var amp1 := u1 * 0.4;
    var amp2 := 0.5 + u2 * 0.5;
    if swap then AmplitudeRange(amp2, amp1) else AmplitudeRange(amp1, amp2)
  }

  /** A Constant shape's level, in [0.5, 1). */
  function ConstantLevel(u: real): (r: AmplitudeRange)
    requires 0.0 <= u < 1.0
    ensures r.low == r.high && 0.5 <= r.low < 1.0
  {
    UnitScale(u, 0.5);
    AmplitudeRange(u * 0.5 + 0.5, u * 0.5 + 0.5)
  }

  /** How many draws `getRandomGeneratorParameters` takes: one more for a Constant amplitude shape. */
  ghost function ParametersDraws(source: nat -> real, n: nat): (d: nat)
    requires DrawsInUnit(source)
    ensures d == 9 || d == 10
    ensures d == 10 <==> ParametersDrawn(source, n).waveType == Constant
  {
    if WaveTypes[PickIndex(source(n + 5), 8)] == Constant then 10 else 9
  }

  /** `getRandomGeneratorParameters`. */
  method RandomParameters(rng: Rng) returns (params: GeneratorParameters)
    requires rng.Valid()
    modifies rng
    ensures params == ParametersDrawn(rng.source, old(rng.next))
    ensures rng.next == old(rng.next) + ParametersDraws(rng.source, old(rng.next))
  {
    ghost var n := rng.next;
    var u := rng.NextDouble();
    var short := rng.NextBoolean();
    var period := DrawnPeriod(u, short);
    var u1 := rng.NextDouble();
    var u2 := rng.NextDouble();
    var swap := rng.NextBoolean();
    var amplitudes := DrawnAmplitudes(u1, u2, swap);
    var waveIndex := rng.Pick(8);
    var frequencyIndex := rng.Pick(8);
    var frequencyHigh := rng.NextDouble();
    var frequencyLow := rng.NextDouble();
    assert rng.next == n + 9;
    if WaveTypes[waveIndex] == Constant {
      var level := rng.NextDouble();
      amplitudes := ConstantLevel(level);
    }
    if WaveTypes[frequencyIndex] == Constant {
      frequencyHigh := frequencyLow;
    }
    params := GeneratorParameters(WaveTypes[waveIndex], WaveTypes[frequencyIndex], period,
                                  frequencyHigh, frequencyLow, amplitudes.high, amplitudes.low, 0.0);
  }
}
