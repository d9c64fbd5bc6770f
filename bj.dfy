/**
 * "BJ megamix": four stages drawn at random, never the same twice in a
 * row. The two lick stages are short and follow the speed of a fast wave;
 * the suck and deepthroat stages are long, follow the depth of a position
 * wave and change speed every 1 to 20 seconds. When a stage's time is up
 * the wave runs to the end of its cycle and the next stage starts.
 */
module BJ {
  import opened Wrappers
  import opened Numeric
  import opened Utils
  import opened Random
  import opened Timers
  import opened CyclicalWaves
  import opened GeneratorWaves
  import opened FrequencyConversion
  import opened Pulses

  datatype BJStage = FullLick | TipLick | Suck | Deepthroat

  /**
   * The callbacks: a speed change, the stage's time being up (which asks
   * the wave to stop at the end of its cycle) and that stop (which starts
   * the next stage).
   */
  datatype BJAction = SpeedChange | StageTimeUp | NextStage

  predicate IsLick(stage: BJStage)
  {
    stage == FullLick || stage == TipLick
  }

  /** The stage's place among the four, as `BJStage.entries` lists them. */
  function Ordinal(stage: BJStage): (n: nat)
    ensures n < 4
  {
    match stage
    case FullLick => 0
    case TipLick => 1
    case Suck => 2
    case Deepthroat => 3
  }

  /** The stage at index `i` of `BJStage.entries`. */
  function StageAt(i: nat): (stage: BJStage)
    requires i < 4
    ensures Ordinal(stage) == i
  {
    if i == 0 then FullLick else if i == 1 then TipLick else if i == 2 then Suck else Deepthroat
  }

  /** How long a stage lasts: 6 to 20 seconds for a lick, 20 to 60 for the others. */
  function DurationRange(stage: BJStage): (r: (real, real))
    ensures 0.0 < r.0 < r.1
  {
    if IsLick(stage) then (6.0, 20.0) else (20.0, 60.0)
  }

  /** The speed a stage starts at: [0.3, 1] for the full lick, [0.5, 3] for the tip lick, [0.2, 1.2] otherwise. */
  function SpeedRange(stage: BJStage): (r: (real, real))
    ensures 0.0 < r.0 < r.1
  {
    match stage
    case FullLick => (0.3, 1.0)
    case TipLick => (0.5, 3.0)
    case _ => (0.2, 1.2)
  }

  const SPEED_CHANGE_RATE_MIN: real := 0.03
  const SPEED_CHANGE_RATE_MAX: real := 0.2
  const SPEED_CHANGE_SECS_MIN: real := 1.0
  const SPEED_CHANGE_SECS_MAX: real := 20.0

  const POSITION_SHAPE: WaveShape :=
    WaveShape("position", [WavePoint(0.0, 0.0, 0.0), WavePoint(0.35, 1.0, 0.0)], HERMITE)
  const BIDIRECTIONAL_SHAPE: WaveShape :=
    WaveShape("bidirectional", [WavePoint(0.0, 0.0, 0.0), WavePoint(0.5, 1.0, 0.0)], HERMITE)
  const UNIDIRECTIONAL_SHAPE: WaveShape :=
    WaveShape("unidirectional", [WavePoint(0.0, 0.0, 0.0), WavePoint(1.0 - SMALL_AMOUNT, 1.0, 0.0)], HERMITE)

  const DEEPTHROAT_POINTS: seq<FrequencyConverterPoint> :=
    [FrequencyConverterPoint(0.0, 1.0), FrequencyConverterPoint(0.7, 0.0), FrequencyConverterPoint(1.0, 0.3)]
  const SUCK_POINTS_A: seq<FrequencyConverterPoint> :=
    [FrequencyConverterPoint(0.0, 0.7), FrequencyConverterPoint(1.0, 0.3)]
  const SUCK_POINTS_B: seq<FrequencyConverterPoint> :=
    [FrequencyConverterPoint(0.0, 0.9), FrequencyConverterPoint(1.0, 0.3)]

  /** Every keyframe of the converter has a frequency in [lo, hi]. */
  ghost predicate FrequenciesWithin(converter: FrequencyConverter, lo: real, hi: real)
  {
    forall k | 0 <= k < |converter.sortedPoints| :: lo <= converter.sortedPoints[k].frequency <= hi
  }

  /** Sorting keeps the keyframes, so it keeps their frequency bounds. */
  lemma SortedWithin(converter: FrequencyConverter, points: seq<FrequencyConverterPoint>, lo: real, hi: real)
    requires multiset(converter.sortedPoints) == multiset(points)
    requires forall p | p in points :: lo <= p.frequency <= hi
    ensures FrequenciesWithin(converter, lo, hi)
  {
    forall k | 0 <= k < |converter.sortedPoints|
      ensures lo <= converter.sortedPoints[k].frequency <= hi
    {
      assert converter.sortedPoints[k] in multiset(points);
    }
  }

  /** A converter's output never leaves the range of its keyframes' frequencies. */
  method BoundedFrequency(converter: FrequencyConverter, position: real, ghost lo: real, ghost hi: real)
    returns (r: real)
    requires converter.Valid() && FrequenciesWithin(converter, lo, hi)
    ensures converter.IsFrequency(position, r) && lo <= r <= hi
  {
    r := converter.GetFrequency(position);
    ghost var last := |converter.sortedPoints| - 1;
    assert lo <= converter.sortedPoints[0].frequency <= hi;
    assert lo <= converter.sortedPoints[last].frequency <= hi;
  }

  /**
   * The pulse of a lick stage: the wave's speed, scaled, is split between
   * the channels at `lickPosition`; frequency B follows the wave position
   * in [0.8, 1] and frequency A stays 0.1 below it.
   */
  function LickPulse(m: Motion, lickPosition: real, sqrt: real -> real): (r: Pulse)
    requires IsSqrt(sqrt)
    ensures r.freqB == ScaleBetween(m.position, 0.8, 1.0) && r.freqB - r.freqA == 0.1
    ensures 0.8 <= r.freqB <= 1.0 && 0.7 <= r.freqA <= 0.9
    ensures r.ampA == PositionalEffect(ScaleVelocity(m.velocity, 0.1), lickPosition, 1.0, sqrt).a
    ensures r.ampB == PositionalEffect(ScaleVelocity(m.velocity, 0.1), lickPosition, 1.0, sqrt).b
    ensures 0.0 <= lickPosition <= 1.0 ==>
              r.ampA * r.ampA + r.ampB * r.ampB == ScaleVelocity(m.velocity, 0.1) * ScaleVelocity(m.velocity, 0.1) &&
              0.0 <= r.ampA < 1.0 && 0.0 <= r.ampB < 1.0
  {
    var speed := ScaleVelocity(m.velocity, 0.1);
    var amplitudes := PositionalEffect(speed, lickPosition, 1.0, sqrt);
    var freq := ScaleBetween(m.position, 0.8, 1.0);
    if 0.0 <= lickPosition <= 1.0 then
      PositionalEffectKeepsPower(speed, lickPosition, 1.0, sqrt);
      Pulse(amplitudes.a, amplitudes.b, freq - 0.1, freq)
    else
      Pulse(amplitudes.a, amplitudes.b, freq - 0.1, freq)
  }

  /** The tip lick only covers the top of the range: its position runs over [0.6, 1]. */
  function TipPosition(position: real): (r: real)
    ensures 0.6 <= r <= 1.0
    ensures 0.0 <= position <= 1.0 ==> r == 0.6 + 0.4 * position
  {
    ScaleBetweenEnds(position, 0.6, 1.0);
    ScaleBetween(position, 0.6, 1.0)
  }

  /**
   * The pulse of an engulfing stage: each channel's amplitude is the wave
   * amplitude shaped by its own engulf point; the frequencies come from
   * the stage's converters.
   */
  function EngulfPulse(amplitude: real, position: real, pointA: real, pointB: real,
                       freqA: real, freqB: real, sqrt: real -> real): (r: Pulse)
    requires IsSqrt(sqrt) && 0.0 <= pointA <= 1.0 && 0.0 <= pointB <= 1.0
    ensures r.ampA == EngulfEffect(amplitude, position, pointA, pointB, sqrt).a
    ensures r.ampB == EngulfEffect(amplitude, position, pointA, pointB, sqrt).b
    ensures r.freqA == freqA && r.freqB == freqB
    ensures 0.0 <= position <= 1.0 && amplitude >= 0.0 ==>
              0.0 <= r.ampA <= amplitude && 0.0 <= r.ampB <= amplitude &&
              (position == pointA ==> r.ampA == amplitude) && (position == pointB ==> r.ampB == amplitude)
  {
    var amplitudes := EngulfEffect(amplitude, position, pointA, pointB, sqrt);
    if 0.0 <= position <= 1.0 && amplitude >= 0.0 then
      var shapeA := EngulfChannel(position, pointA, sqrt);
      var shapeB := EngulfChannel(position, pointB, sqrt);
      EngulfChannelShape(position, pointA, sqrt);
      EngulfChannelShape(position, pointB, sqrt);
      ChannelWithin(shapeA, amplitude);
      ChannelWithin(shapeB, amplitude);
      assert amplitudes.a == shapeA * amplitude && amplitudes.b == shapeB * amplitude;
      Pulse(amplitudes.a, amplitudes.b, freqA, freqB)
    else
      Pulse(amplitudes.a, amplitudes.b, freqA, freqB)
  }

  lemma ChannelWithin(shape: real, amplitude: real)
    requires 0.0 <= shape <= 1.0 && 0.0 <= amplitude
    ensures 0.0 <= shape * amplitude <= amplitude
    ensures shape == 1.0 ==> shape * amplitude == amplitude
  {
    MulMonotone(shape, 1.0, amplitude);
    MulNonNeg(shape, amplitude);
  }

  /** A smoothstep converter over `points`, whose frequencies lie in [lo, hi]. */
  method NewConverter(points: seq<FrequencyConverterPoint>, ghost lo: real, ghost hi: real)
    returns (converter: FrequencyConverter)
    requires |points| > 0 && forall p | p in points :: lo <= p.frequency <= hi
    ensures converter.Valid() && FrequenciesWithin(converter, lo, hi)
    ensures converter.interpolationType == SMOOTHSTEP
  {
    converter := new FrequencyConverter(points, SMOOTHSTEP);
    SortedWithin(converter, points, lo, hi);
  }

  /**
   * The stage redraw of `nextStage`: stages are drawn until one differs
   * from `previous`. Every draw but the last gave `previous` again; the
   * loop ends because the draws are fair.
   */
  method DrawNextStage(previous: BJStage, rng: Rng) returns (stage: BJStage)
    requires rng.Valid()
    modifies rng
    ensures stage != previous
    ensures rng.next > old(rng.next) && stage == StageAt(PickIndex(rng.source(rng.next - 1), 4))
    ensures forall n | old(rng.next) <= n < rng.next - 1 :: StageAt(PickIndex(rng.source(n), 4)) == previous
  {
    ghost var j := (Ordinal(previous) + 1) % 4;
    assert Recurs(rng.source, rng.next, 4, j);
    ghost var m :| m >= rng.next && PickIndex(rng.source(m), 4) == j;
    stage := previous;
    while stage == previous
      invariant rng.Valid() && old(rng.next) <= rng.next
      invariant stage == previous ==> rng.next <= m
      invariant stage == previous ==> forall n | old(rng.next) <= n < rng.next :: StageAt(PickIndex(rng.source(n), 4)) == previous
      invariant stage != previous ==> rng.next > old(rng.next) && stage == StageAt(PickIndex(rng.source(rng.next - 1), 4))
      invariant stage != previous ==> forall n | old(rng.next) <= n < rng.next - 1 :: StageAt(PickIndex(rng.source(n), 4)) == previous
      decreases m - rng.next
    {
      var i := rng.Pick(4);
      stage := StageAt(i);
    }
  }

  /** The draws of `nextStage`: a stage other than `previous`, then its duration. */
  method DrawStage(previous: BJStage, rng: Rng) returns (stage: BJStage, stageDuration: real)
    requires rng.Valid()
    modifies rng
    ensures stage != previous
    ensures DurationRange(stage).0 <= stageDuration < DurationRange(stage).1
    ensures rng.next > old(rng.next) + 1 && stage == StageAt(PickIndex(rng.source(rng.next - 2), 4))
    ensures forall n | old(rng.next) <= n < rng.next - 2 :: StageAt(PickIndex(rng.source(n), 4)) == previous
    ensures stageDuration == Uniform(DurationRange(stage).0, DurationRange(stage).1, rng.source(rng.next - 1))
  {
    stage := DrawNextStage(previous, rng);
    stageDuration := rng.InRange(DurationRange(stage).0, DurationRange(stage).1);
  }

  /** The BJ wave manager: the position wave and both lick waves. */
  method NewBJWaveManager() returns (manager: WaveManager<BJAction>)
    ensures manager.Valid() && fresh(manager.Repr)
    ensures "position" in manager.waves && "bidirectional" in manager.waves && "unidirectional" in manager.waves
    ensures manager.stopTargetCycle == None && manager.stopCallback == None && !manager.isStopped
    ensures manager.baseSpeed.onReached == None
  {
    manager := new WaveManager();
    var position := new CyclicalWave(POSITION_SHAPE);
    manager.AddWave(position, None);
    var bidirectional := new CyclicalWave(BIDIRECTIONAL_SHAPE);
    var unidirectional := new CyclicalWave(UNIDIRECTIONAL_SHAPE);
    manager.AddWave(bidirectional, None);
    manager.AddWave(unidirectional, None);
  }

  /** The timer that runs `action`: the speed change and the stage timer each have their own. */
  function TimerKey(action: BJAction): string
  {
    if action == SpeedChange then "speedChange" else "nextStage"
  }

  /** The timers the activity sets: the speed change and the stage timer, each with its own callback. */
  predicate Table(timers: map<string, Timer<BJAction>>)
  {
    forall k | k in timers :: timers[k].callback != NextStage && k == TimerKey(timers[k].callback)
  }

  class BJActivity {
    const displayName: string
    const timerManager: TimerManager<BJAction>
    const waveManager: WaveManager<BJAction>
    const deepthroatConverter: FrequencyConverter
    const suckConverterA: FrequencyConverter
    const suckConverterB: FrequencyConverter
    var currentStage: BJStage
    ghost const Repr: set<object>

    /**
     * All but the coupling of the stage timer and the stop: the timers are
     * the speed change and the stage timer, and a lick has no speed
     * changes; the wave only ever stops into the next stage and never
     * reaches a speed with a callback.
     */
    ghost predicate Inner()
      reads this, Repr
    {
      Repr == {this, timerManager, waveManager} + waveManager.Repr &&
      timerManager.Valid() && waveManager.Valid() &&
      deepthroatConverter.Valid() && suckConverterA.Valid() && suckConverterB.Valid() &&
      FrequenciesWithin(deepthroatConverter, 0.0, 1.0) &&
      FrequenciesWithin(suckConverterA, 0.3, 0.7) && FrequenciesWithin(suckConverterB, 0.3, 0.9) &&
      "position" in waveManager.waves && "bidirectional" in waveManager.waves && "unidirectional" in waveManager.waves &&
      Table(timerManager.timers) &&
      (IsLick(currentStage) ==> "speedChange" !in timerManager.timers) &&
      (waveManager.stopCallback == None || waveManager.stopCallback == Some(NextStage)) &&
      waveManager.baseSpeed.onReached == None
    }

    /**
     * A stage is always either timing its duration or, its time up,
     * running to the end of the cycle where the wave stops.
     */
    ghost predicate Valid()
      reads this, Repr
    {
      Inner() &&
      ("nextStage" in timerManager.timers <==> waveManager.stopTargetCycle == None) &&
      (waveManager.stopTargetCycle.Some? ==> waveManager.stopCallback == Some(NextStage)) &&
      !waveManager.isStopped
    }

    /**
     * What `speedChange` does with draws `n` to `n + 2`: the speed eases
     * from where it is to a value in [0.2, 1.2) at a rate in [0.03, 0.2),
     * and the next change is due in [1, 20) seconds.
     */
    twostate predicate SpeedChanged(rng: Rng, n: nat)
      requires rng.Valid()
      reads waveManager.baseSpeed, timerManager, rng
    {
      var speed := Uniform(SpeedRange(Suck).0, SpeedRange(Suck).1, rng.source(n));
      var rate := Uniform(SPEED_CHANGE_RATE_MIN, SPEED_CHANGE_RATE_MAX, rng.source(n + 1));
      var next := Uniform(SPEED_CHANGE_SECS_MIN, SPEED_CHANGE_SECS_MAX, rng.source(n + 2));
      waveManager.baseSpeed.Retargeted(speed, Some(rate), None, None, None) &&
      timerManager.timers == old(timerManager.timers)["speedChange" := Timer(next, next, SpeedChange)] &&
      rng.next == n + 3
    }

    /**
     * A stage has just begun: its time is set from its range, the wave
     * restarted from rest with the stage's jitter and a speed from its
     * range; a lick holds that speed and has no speed changes, the other
     * stages ease on from it and change speed on their timer.
     */
    ghost predicate StageBegun()
      reads this, waveManager, waveManager.baseSpeed, waveManager.speedVarianceHandler,
            waveManager.amplitudeVarianceHandler, timerManager
    {
      "nextStage" in timerManager.timers &&
      DurationRange(currentStage).0 <= timerManager.timers["nextStage"].initialDuration < DurationRange(currentStage).1 &&
      StageStarted()
    }

    /** `StageBegun` but for the stage's time: the restarted wave, its jitter, its speed and the speed changes. */
    ghost predicate StageStarted()
      reads this, waveManager, waveManager.baseSpeed, waveManager.speedVarianceHandler,
            waveManager.amplitudeVarianceHandler, timerManager
    {
      waveManager.currentTime == 0.0 && !waveManager.isStopped && waveManager.stopTargetCycle == None &&
      waveManager.amplitudeVarianceHandler.easeIn == 0.0 &&
      (IsLick(currentStage) ==>
         waveManager.speedVarianceHandler.variance == 0.4 && waveManager.amplitudeVarianceHandler.variance == 0.3 &&
         SpeedRange(currentStage).0 <= waveManager.baseSpeed.Current() < SpeedRange(currentStage).1 &&
         !waveManager.baseSpeed.IsTransitioning()) &&
      (!IsLick(currentStage) ==>
         waveManager.speedVarianceHandler.variance == 0.2 && waveManager.amplitudeVarianceHandler.variance == 0.2 &&
         SpeedRange(currentStage).0 <= waveManager.baseSpeed.start < SpeedRange(currentStage).1 &&
         SpeedRange(currentStage).0 <= waveManager.baseSpeed.target < SpeedRange(currentStage).1 &&
         "speedChange" in timerManager.timers)
    }

    /**
     * The exact draws of a stage that began with its duration drawn at `n`:
     * the stage's time is that draw, its starting speed the next one, and
     * a suck or deepthroat then takes a speed change from the three after.
     */
    ghost predicate StageDrawn(rng: Rng, n: nat)
      requires rng.Valid()
      reads this, waveManager, waveManager.baseSpeed, timerManager, rng
    {
      var d := Uniform(DurationRange(currentStage).0, DurationRange(currentStage).1, rng.source(n));
      "nextStage" in timerManager.timers && timerManager.timers["nextStage"] == Timer(d, d, StageTimeUp) &&
      StartDrawn(rng, n + 1)
    }

    /**
     * The exact draws of a stage's start from `n` on: its starting speed,
     * and for a suck or deepthroat the speed change from the three after.
     */
    ghost predicate StartDrawn(rng: Rng, n: nat)
      requires rng.Valid()
      reads this, waveManager, waveManager.baseSpeed, timerManager, rng
    {
      var speed := Uniform(SpeedRange(currentStage).0, SpeedRange(currentStage).1, rng.source(n));
      (IsLick(currentStage) ==> waveManager.baseSpeed.Current() == speed && rng.next == n + 1) &&
      (!IsLick(currentStage) ==>
         var target := Uniform(SpeedRange(Suck).0, SpeedRange(Suck).1, rng.source(n + 1));
         var next := Uniform(SPEED_CHANGE_SECS_MIN, SPEED_CHANGE_SECS_MAX, rng.source(n + 3));
         waveManager.baseSpeed.start == speed && waveManager.baseSpeed.target == target &&
         "speedChange" in timerManager.timers && timerManager.timers["speedChange"] == Timer(next, next, SpeedChange) &&
         rng.next == n + 4)
    }

    /**
     * The fields and the waves of `init`, up to its closing `nextStage`,
     * which the caller runs once the object exists: the stage is the one
     * drawn for the field, and the wave has not stopped.
     */
    constructor (rng: Rng)
      requires rng.Valid()
      modifies rng
      ensures Inner() && fresh(Repr)
      ensures displayName == "BJ megamix"
      ensures currentStage == StageAt(PickIndex(rng.source(old(rng.next)), 4))
      ensures waveManager.stopTargetCycle == None && !waveManager.isStopped && timerManager.timers == map[]
    {
      // the only draw before `init`: nothing else the fields make draws
      var initial := rng.Pick(4);
      var timers := new TimerManager();
      var manager := NewBJWaveManager();
      var deepthroat := NewConverter(DEEPTHROAT_POINTS, 0.0, 1.0);
      var suckA := NewConverter(SUCK_POINTS_A, 0.3, 0.7);
      var suckB := NewConverter(SUCK_POINTS_B, 0.3, 0.9);
      displayName, timerManager, waveManager := "BJ megamix", timers, manager;
      deepthroatConverter, suckConverterA, suckConverterB := deepthroat, suckA, suckB;
      currentStage := StageAt(initial);
      Repr := {this, timers, manager} + manager.Repr;
      new;
      assert fresh(Repr);
    }

    /**
     * `speedChange`: the speed eases to a value in [0.2, 1.2) at a rate in
     * [0.03, 0.2); the next change comes in [1, 20) seconds.
     */
    method SpeedChangeStep(rng: Rng)
      requires Inner() && rng.Valid() && !IsLick(currentStage)
      modifies timerManager, waveManager.baseSpeed, rng
      ensures Inner() && SpeedChanged(rng, old(rng.next))
      ensures SpeedRange(Suck).0 <= waveManager.baseSpeed.target < SpeedRange(Suck).1
      ensures SPEED_CHANGE_SECS_MIN <= timerManager.timers["speedChange"].initialDuration < SPEED_CHANGE_SECS_MAX
    {
      var newSpeed := rng.InRange(SpeedRange(Suck).0, SpeedRange(Suck).1);
      var changeRate := rng.InRange(SPEED_CHANGE_RATE_MIN, SPEED_CHANGE_RATE_MAX);
      var fired := waveManager.SetTargetSpeed(newSpeed, changeRate, None);
      var nextSpeedChangeSecs := rng.InRange(SPEED_CHANGE_SECS_MIN, SPEED_CHANGE_SECS_MAX);
      var immediate := timerManager.AddTimer("speedChange", nextSpeedChangeSecs, SpeedChange);
    }

    /**
     * `nextStage`: a stage other than the current one; a duration in its
     * range; the wave restarts with the stage's jitter at a speed in its
     * range. A lick drops the speed changes; the other stages start them.
     * The stage's time is then set.
     */
    method NextStageStep(rng: Rng) returns (ghost n: nat)
      requires Inner() && rng.Valid()
      modifies Repr, rng
      ensures Valid() && StageBegun() && currentStage != old(currentStage)
      ensures old(rng.next) < n && currentStage == StageAt(PickIndex(rng.source(n - 1), 4))
      ensures forall m | old(rng.next) <= m < n - 1 :: StageAt(PickIndex(rng.source(m), 4)) == old(currentStage)
      ensures StageDrawn(rng, n)
    {
      var stage, stageDuration := DrawStage(currentStage, rng);
      n := rng.next - 1;
      BeginStage(stage, stageDuration, rng);
    }

    /** `nextStage` once the stage and its duration are drawn: the stage starts, then its time is set. */
    method BeginStage(stage: BJStage, stageDuration: real, rng: Rng)
      requires Inner() && rng.Valid() && rng.next > 0
      requires DurationRange(stage).0 <= stageDuration < DurationRange(stage).1
      requires stageDuration == Uniform(DurationRange(stage).0, DurationRange(stage).1, rng.source(rng.next - 1))
      modifies Repr, rng
      ensures Valid() && StageBegun() && currentStage == stage
      ensures StageDrawn(rng, old(rng.next) - 1)
    {
      EnterStage(stage, rng);
      ghost var before := timerManager.timers;
      var immediate := timerManager.AddTimer("nextStage", stageDuration, StageTimeUp);
      assert timerManager.timers == before["nextStage" := Timer(stageDuration, stageDuration, StageTimeUp)];
    }

    /** The middle of `nextStage`: the wave restarts and the lick or the other stages set it going. */
    method EnterStage(stage: BJStage, rng: Rng)
      requires Inner() && rng.Valid()
      modifies Repr, rng
      ensures Inner() && currentStage == stage && StageStarted() && StartDrawn(rng, old(rng.next))
      ensures forall k | k != "speedChange" :: k in timerManager.timers <==> k in old(timerManager.timers)
    {
      waveManager.Restart();
      if IsLick(stage) {
        EnterLick(stage, rng);
      } else {
        EnterEngulf(stage, rng);
      }
    }

    /** The lick half of `nextStage`: lick jitter, a speed in the lick's range, no speed changes. */
    method EnterLick(stage: BJStage, rng: Rng)
      requires Inner() && rng.Valid() && IsLick(stage)
      requires waveManager.stopTargetCycle == None && !waveManager.isStopped
      modifies Repr, rng
      ensures Inner() && currentStage == stage
      ensures waveManager.stopTargetCycle == None && !waveManager.isStopped
      ensures waveManager.currentTime == old(waveManager.currentTime)
      ensures "speedChange" !in timerManager.timers
      ensures waveManager.speedVarianceHandler.variance == 0.4 && waveManager.amplitudeVarianceHandler.variance == 0.3
      ensures waveManager.amplitudeVarianceHandler.easeIn == 0.0
      ensures SpeedRange(stage).0 <= waveManager.baseSpeed.Current() < SpeedRange(stage).1
      ensures !waveManager.baseSpeed.IsTransitioning()
      ensures waveManager.baseSpeed.Current() == Uniform(SpeedRange(stage).0, SpeedRange(stage).1, rng.source(old(rng.next)))
      ensures rng.next == old(rng.next) + 1
      ensures timerManager.timers == old(timerManager.timers) - {"speedChange"}
      ensures StartDrawn(rng, old(rng.next))
    {
      StartWave(stage, 0.4, 0.3, rng);
      timerManager.CancelTimer("speedChange");
      currentStage := stage;
    }

    /** The suck and deepthroat half of `nextStage`: their jitter, a starting speed, then the speed changes. */
    method EnterEngulf(stage: BJStage, rng: Rng)
      requires Inner() && rng.Valid() && !IsLick(stage)
      requires waveManager.stopTargetCycle == None && !waveManager.isStopped
      modifies Repr, rng
      ensures Inner() && currentStage == stage
      ensures waveManager.stopTargetCycle == None && !waveManager.isStopped
      ensures waveManager.currentTime == old(waveManager.currentTime)
      ensures "speedChange" in timerManager.timers
      ensures waveManager.speedVarianceHandler.variance == 0.2 && waveManager.amplitudeVarianceHandler.variance == 0.2
      ensures waveManager.amplitudeVarianceHandler.easeIn == 0.0
      ensures SpeedRange(stage).0 <= waveManager.baseSpeed.start < SpeedRange(stage).1
      ensures SpeedRange(stage).0 <= waveManager.baseSpeed.target < SpeedRange(stage).1
      ensures waveManager.baseSpeed.start == Uniform(SpeedRange(stage).0, SpeedRange(stage).1, rng.source(old(rng.next)))
      ensures waveManager.baseSpeed.target == Uniform(SpeedRange(Suck).0, SpeedRange(Suck).1, rng.source(old(rng.next) + 1))
      ensures var next := Uniform(SPEED_CHANGE_SECS_MIN, SPEED_CHANGE_SECS_MAX, rng.source(old(rng.next) + 3));
              timerManager.timers == old(timerManager.timers)["speedChange" := Timer(next, next, SpeedChange)]
      ensures rng.next == old(rng.next) + 4
      ensures StartDrawn(rng, old(rng.next))
    {
      StartWave(stage, 0.2, 0.2, rng);
      currentStage := stage;
      SpeedChangeStep(rng);
    }

    /** What every stage of `nextStage` does to the wave: the stage's jitter, no easing in, and a speed drawn from its range. */
    method StartWave(stage: BJStage, speedVariance: real, amplitudeVariance: real, rng: Rng)
      requires Inner() && rng.Valid()
      requires 0.0 <= speedVariance <= 1.0 && 0.0 <= amplitudeVariance <= 1.0
      modifies waveManager.speedVarianceHandler, waveManager.amplitudeVarianceHandler, waveManager.baseSpeed, rng
      ensures Inner()
      ensures waveManager.speedVarianceHandler.variance == speedVariance
      ensures waveManager.amplitudeVarianceHandler.variance == amplitudeVariance
      ensures waveManager.amplitudeVarianceHandler.easeIn == 0.0
      ensures SpeedRange(stage).0 <= waveManager.baseSpeed.Current() < SpeedRange(stage).1
      ensures !waveManager.baseSpeed.IsTransitioning()
      ensures waveManager.baseSpeed.Current() == Uniform(SpeedRange(stage).0, SpeedRange(stage).1, rng.source(old(rng.next)))
      ensures rng.next == old(rng.next) + 1
    {
      waveManager.SetSpeedVariance(speedVariance);
      waveManager.SetAmplitudeVariance(amplitudeVariance);
      waveManager.SetAmplitudeVarianceEaseIn(0.0);
      var speed := rng.InRange(SpeedRange(stage).0, SpeedRange(stage).1);
      waveManager.SetSpeed(speed);
    }

    /**
     * Run a timer's callback. A speed change only comes from its timer,
     * which a lick does not have; the stage timer, once removed, asks for a
     * stop. The stop's own callback, `NextStage`, is run by `FinishWave`.
     */
    method Dispatch(action: BJAction, rng: Rng)
      requires Inner() && rng.Valid() && action != NextStage
      requires action == SpeedChange ==> Valid() && !IsLick(currentStage)
      requires action == StageTimeUp ==>
                 "nextStage" !in timerManager.timers && waveManager.stopTargetCycle == None && !waveManager.isStopped
      modifies timerManager, waveManager, waveManager.baseSpeed, rng
      ensures Valid()
      ensures action == SpeedChange ==> SpeedChanged(rng, old(rng.next)) && unchanged(waveManager)
      ensures action == StageTimeUp ==>
                waveManager.stopTargetCycle == Some((waveManager.currentTime + 1.0).Floor as real) &&
                waveManager.stopCallback == Some(NextStage) && waveManager.currentTime == old(waveManager.currentTime) &&
                unchanged(timerManager, waveManager.baseSpeed) && rng.next == old(rng.next)
    {
      match action
      case SpeedChange => SpeedChangeStep(rng);
      case StageTimeUp => waveManager.StopAtEndOfCycle(NextStage);
    }

    /** `runSimulation`: the timers, each callback run as its timer ends, then the wave. */
    method RunSimulation(delta: real, rng: Rng)
      requires Valid() && rng.Valid() && delta >= 0.0
      modifies Repr, rng
      ensures Valid()
    {
      RunTimers(delta, rng);
      UpdateWave(delta, rng);
    }

    /**
     * `waveManager.update`, with the stop at the end of a stage starting
     * the next one: the speed eases on and the clock moves, unless the
     * stop asked for is reached, which begins a different stage.
     */
    method UpdateWave(delta: real, rng: Rng)
      requires Valid() && rng.Valid() && delta >= 0.0
      modifies Repr, rng
      ensures Valid()
      ensures old(waveManager.stopTargetCycle) == None ==>
                waveManager.Moved(delta) && waveManager.baseSpeed.Advanced(delta, None) && unchanged(this, timerManager)
      ensures (waveManager.Moved(delta) && waveManager.baseSpeed.Advanced(delta, None) && unchanged(this, timerManager)) ||
              (old(waveManager.stopTargetCycle).Some? && StageBegun() && currentStage != old(currentStage))
    {
      var running, reached := waveManager.BeginUpdate(delta);
      assert reached == None;
      label Eased:
      FinishWave(delta, rng);
      if currentStage == old(currentStage) {
        assert waveManager.Moved@Eased(delta);
      }
    }

    /**
     * The rest of `waveManager.update` once the speed has eased: the clock
     * moves on, and reaching the stop target begins the next stage.
     */
    method FinishWave(delta: real, rng: Rng)
      requires Valid() && rng.Valid() && delta >= 0.0
      modifies Repr, rng
      ensures Valid()
      ensures (old(waveManager.stopTargetCycle).Some? &&
               old(waveManager.NextTime(delta)) >= old(waveManager.stopTargetCycle).value) ==>
                StageBegun() && currentStage != old(currentStage)
      ensures !(old(waveManager.stopTargetCycle).Some? &&
                old(waveManager.NextTime(delta)) >= old(waveManager.stopTargetCycle).value) ==>
                waveManager.Moved(delta) && unchanged(this, timerManager, waveManager.baseSpeed)
    {
      var stopped := waveManager.FinishUpdate(delta, rng);
      if stopped.Some? {
        ghost var n := NextStageStep(rng);
      }
    }

    /**
     * The base `runSimulation`: each timer present at the start is stepped,
     * and a callback runs as its timer ends. The timers are `Ticked`; the
     * stage and the clock stay.
     */
    method RunTimers(delta: real, rng: Rng)
      requires Valid() && rng.Valid() && delta >= 0.0
      modifies timerManager, waveManager, waveManager.baseSpeed, rng
      ensures Valid()
      ensures Ticked(old(timerManager.timers), timerManager.timers, delta)
      ensures currentStage == old(currentStage) && waveManager.currentTime == old(waveManager.currentTime)
    {
      var keys := timerManager.Snapshot();
      ghost var start := timerManager.timers;
      ProgressStart(start, keys, delta);
      var i := 0;
      while i < |keys|
        invariant Valid() && rng.Valid()
        invariant Progress(start, keys, i, timerManager.timers, delta)
        invariant waveManager.currentTime == old(waveManager.currentTime)
      {
        Visit(keys, i, delta, rng, start);
        i := i + 1;
      }
      assert keys[..|keys|] == keys;
      ProgressDone(start, keys, timerManager.timers, delta);
    }

    /** One visit of `RunTimers`' loop: `keys[i]` is stepped, and if that ends it, its callback runs. */
    method Visit(keys: seq<string>, i: nat, delta: real, rng: Rng, ghost start: map<string, Timer<BJAction>>)
      requires Valid() && rng.Valid() && delta >= 0.0
      requires Progress(start, keys, i, timerManager.timers, delta) && i < |keys|
      modifies timerManager, waveManager, waveManager.baseSpeed, rng
      ensures Valid()
      ensures Progress(start, keys, i + 1, timerManager.timers, delta)
      ensures waveManager.currentTime == old(waveManager.currentTime)
      ensures !Ends(start[keys[i]], delta) ==> unchanged(waveManager, waveManager.baseSpeed)
      ensures keys[i] == "speedChange" && Ends(start[keys[i]], delta) ==>
                waveManager.baseSpeed.start == old(waveManager.baseSpeed.Current()) &&
                SpeedRange(Suck).0 <= waveManager.baseSpeed.target < SpeedRange(Suck).1 &&
                waveManager.stopTargetCycle == old(waveManager.stopTargetCycle)
      ensures keys[i] == "nextStage" && Ends(start[keys[i]], delta) ==>
                waveManager.stopTargetCycle == Some((waveManager.currentTime + 1.0).Floor as real) &&
                unchanged(waveManager.baseSpeed)
    {
      ghost var before := timerManager.timers;
      var fired := timerManager.Tick(keys[i], delta);
      ghost var mid := timerManager.timers;
      if fired.Some? {
        assert TimerKey(fired.value) == keys[i];
        Dispatch(fired.value, rng);
      }
      ProgressNext(start, keys, i, before, delta, mid, timerManager.timers);
    }

    /**
     * What `getPulse` gives: the lick pulse of the unidirectional wave
     * (full lick) or of the bidirectional wave over the tip (tip lick);
     * otherwise the engulf amplitudes of the position wave, with engulf
     * points 0.7 and 0.4 (suck) or 0.8 and 0.3 (deepthroat), and the
     * frequencies the converters give at the position (which stay within
     * the converters' keyframe bounds).
     */
    ghost predicate IsPulse(r: Pulse, sqrt: real -> real)
      requires Valid() && IsSqrt(sqrt)
      reads this, Repr
    {
      (currentStage == FullLick ==>
         var m := waveManager.GetPositionAndVelocity("unidirectional", true).value;
         r == LickPulse(m, m.position, sqrt)) &&
      (currentStage == TipLick ==>
         var m := waveManager.GetPositionAndVelocity("bidirectional", true).value;
         r == LickPulse(m, TipPosition(m.position), sqrt)) &&
      (currentStage == Suck ==>
         var position := waveManager.GetPosition("position", false).value;
         r.ampA == EngulfEffect(waveManager.CurrentAmplitude(), position, 0.7, 0.4, sqrt).a &&
         r.ampB == EngulfEffect(waveManager.CurrentAmplitude(), position, 0.7, 0.4, sqrt).b &&
         suckConverterA.IsFrequency(position, r.freqA) && suckConverterB.IsFrequency(position, r.freqB) &&
         0.3 <= r.freqA <= 0.7 && 0.3 <= r.freqB <= 0.9) &&
      (currentStage == Deepthroat ==>
         var position := waveManager.GetPosition("position", false).value;
         r.ampA == EngulfEffect(waveManager.CurrentAmplitude(), position, 0.8, 0.3, sqrt).a &&
         r.ampB == EngulfEffect(waveManager.CurrentAmplitude(), position, 0.8, 0.3, sqrt).b &&
         r.freqA == position && deepthroatConverter.IsFrequency(position, r.freqB) &&
         0.0 <= r.freqB <= 1.0)
    }

    /** `getPulse`, with the frequencies read from the converters. */
    method GetPulse(sqrt: real -> real) returns (r: Pulse)
      requires Valid() && IsSqrt(sqrt)
      ensures IsPulse(r, sqrt)
    {
      match currentStage
      case FullLick =>
        var m := waveManager.GetPositionAndVelocity("unidirectional", true).value;
        r := LickPulse(m, m.position, sqrt);
      case TipLick =>
        var m := waveManager.GetPositionAndVelocity("bidirectional", true).value;
        r := LickPulse(m, TipPosition(m.position), sqrt);
      case Suck =>
        var position := waveManager.GetPosition("position", false).value;
        var freqA := BoundedFrequency(suckConverterA, position, 0.3, 0.7);
        var freqB := BoundedFrequency(suckConverterB, position, 0.3, 0.9);
        r := EngulfPulse(waveManager.CurrentAmplitude(), position, 0.7, 0.4, freqA, freqB, sqrt);
      case Deepthroat =>
        var position := waveManager.GetPosition("position", false).value;
        var freqB := BoundedFrequency(deepthroatConverter, position, 0.0, 1.0);
        r := EngulfPulse(waveManager.CurrentAmplitude(), position, 0.8, 0.3, position, freqB, sqrt);
    }
  }
}
