/**
 * "Infinite licks": a lick is a run of wave cycles between two random
 * points; after a random number of cycles the wave manager stops and the
 * next lick is drawn.
 */
module Lick {
  import opened Wrappers
  import opened Numeric
  import opened Utils
  import opened Random
  import opened Timers
  import opened CyclicalWaves
  import opened GeneratorWaves
  import opened Pulses

  datatype LickType = UNIDIRECTIONAL | BIDIRECTIONAL

  /** The only callback a lick schedules: start the next lick. */
  datatype LickAction = StartNewLick

  /** The fastest lick over `distance`: shorter licks may run faster. */
  function MaxLickSpeed(distance: real): (r: real)
    ensures 0.0 <= distance <= 1.0 ==> 1.5 <= r <= 4.5
    ensures distance == 0.0 ==> r == 4.5
    ensures distance == 1.0 ==> r == 1.5
  {
    -3.0 * distance + 4.5
  }

  /** The number of wave cycles a lick lasts: the desired time at that speed, truncated, and at least one. */
  function LickReps(desiredTimeSeconds: real, speed: real): (n: int)
    ensures n >= 1
    ensures desiredTimeSeconds * speed >= 1.0 ==> n == Trunc(desiredTimeSeconds * speed)
    ensures desiredTimeSeconds * speed < 1.0 ==> n == 1
  {
    MaxInt(1, Trunc(desiredTimeSeconds * speed))
  }

  /** Where along the lick a wave position puts it. */
  function LickPosition(startPoint: real, endPoint: real, position: real): (r: real)
    ensures position == 0.0 ==> r == startPoint
    ensures position == 1.0 ==> r == endPoint
    ensures 0.0 <= position <= 1.0 ==> Min(startPoint, endPoint) <= r <= Max(startPoint, endPoint)
  {
    ScaledInsideCommuted(position, startPoint, endPoint);
    (endPoint - startPoint) * position + startPoint
  }

  lemma ScaledInsideCommuted(x: real, a: real, b: real)
    ensures 0.0 <= x <= 1.0 ==> Min(a, b) <= (b - a) * x + a <= Max(a, b)
  {
    if 0.0 <= x <= 1.0 {
      ScaledInside(x, a, b);
    }
  }

  /** The lick's two frequencies: channel B a little wider than channel A, both 1 at the lick's top. */
  function LickFrequencies(lickPosition: real): (r: (real, real))
    ensures r.0 == lickPosition * 0.5 + 0.5 && r.1 == lickPosition * 0.52 + 0.48
    ensures 0.0 <= lickPosition <= 1.0 ==> 0.5 <= r.0 <= 1.0 && 0.48 <= r.1 <= 1.0
    ensures lickPosition == 1.0 ==> r == (1.0, 1.0)
  {
    (lickPosition * 0.5 + 0.5, lickPosition * 0.52 + 0.48)
  }

  const BIDIRECTIONAL_SHAPE: WaveShape :=
    WaveShape("bidirectional", [WavePoint(0.0, 0.0, 0.0), WavePoint(0.5, 1.0, 0.0)], HERMITE)
  const UNIDIRECTIONAL_SHAPE: WaveShape :=
    WaveShape("unidirectional", [WavePoint(0.0, 0.0, 0.0), WavePoint(1.0 - SMALL_AMOUNT, 1.0, 0.0)], HERMITE)

  function WaveName(lickType: LickType): string
  {
    match lickType
    case UNIDIRECTIONAL => "unidirectional"
    case BIDIRECTIONAL => "bidirectional"
  }

  /** The random choices of one lick. */
  datatype LickDraw = LickDraw(lickType: LickType, startPoint: real, endPoint: real, speed: real, reps: int)

  /**
   * The choices `newLick` makes from the draws `source(n)` to
   * `source(n + 4)`, in order: the direction, the two end points, the speed
   * (`nextDouble(0.3, maxSpeed)`) and the desired duration
   * (`nextDouble(1.0, 5.0)`), turned into whole cycles.
   */
  ghost function LickDrawn(source: nat -> real, n: nat): (r: LickDraw)
    requires DrawsInUnit(source)
    ensures 0.0 <= r.startPoint < 1.0 && 0.0 <= r.endPoint < 1.0
    ensures r.startPoint == source(n + 1) && r.endPoint == source(n + 2)
    ensures r.lickType == (if PickIndex(source(n), 2) == 0 then UNIDIRECTIONAL else BIDIRECTIONAL)
    ensures 0.3 <= r.speed < MaxLickSpeed(Abs(r.endPoint - r.startPoint)) <= 4.5
    ensures r.reps >= 1
  {
    var startPoint := source(n + 1);
    var endPoint := source(n + 2);
    var speed := DrawBetween(0.3, MaxLickSpeed(Abs(endPoint - startPoint)), source(n + 3));
    var desiredTimeSeconds := DrawBetween(1.0, 5.0, source(n + 4));
    LickDraw(if PickIndex(source(n), 2) == 0 then UNIDIRECTIONAL else BIDIRECTIONAL,
             startPoint, endPoint, speed, LickReps(desiredTimeSeconds, speed))
  }

  method DrawLick(rng: Rng) returns (r: LickDraw)
    requires rng.Valid()
    modifies rng
    ensures rng.next == old(rng.next) + 5
    ensures r == LickDrawn(rng.source, old(rng.next))
  {
    var index := rng.Pick(2);
    var lickType := if index == 0 then UNIDIRECTIONAL else BIDIRECTIONAL;
    var startPoint := rng.NextDouble();
    var endPoint := rng.NextDouble();
    var speed := rng.Between(0.3, MaxLickSpeed(Abs(endPoint - startPoint)));
    var desiredTimeSeconds := rng.Between(1.0, 5.0);
    r := LickDraw(lickType, startPoint, endPoint, speed, LickReps(desiredTimeSeconds, speed));
  }

  /** The lick's wave manager: both lick waves, with amplitude and speed jitter of 0.5. */
  method NewLickWaveManager() returns (manager: WaveManager<LickAction>)
    ensures manager.Valid() && fresh(manager.Repr)
    ensures manager.waves.Keys == {"bidirectional", "unidirectional"}
    ensures manager.amplitudeVarianceHandler.variance == 0.5 && manager.speedVarianceHandler.variance == 0.5
  {
    manager := new WaveManager();
    var bidirectional := new CyclicalWave(BIDIRECTIONAL_SHAPE);
    var unidirectional := new CyclicalWave(UNIDIRECTIONAL_SHAPE);
    manager.AddWave(bidirectional, None);
    manager.AddWave(unidirectional, None);
    manager.SetAmplitudeVariance(0.5);
    manager.SetSpeedVariance(0.5);
  }

  /**
   * The pulse of a lick from `startPoint` to `endPoint` when the wave is at
   * `m`: the frequencies follow the lick position, and the speed, scaled,
   * is split between the channels by position.
   */
  function LickPulse(startPoint: real, endPoint: real, m: Motion, sqrt: real -> real): (r: Pulse)
    ensures var lickPosition := LickPosition(startPoint, endPoint, m.position);
            r.freqA == LickFrequencies(lickPosition).0 && r.freqB == LickFrequencies(lickPosition).1 &&
            r.ampA == ScaleVelocity(m.velocity, 0.1) * sqrt(1.0 - lickPosition) &&
            r.ampB == ScaleVelocity(m.velocity, 0.1) * sqrt(lickPosition)
  {
    var lickPosition := LickPosition(startPoint, endPoint, m.position);
    var frequencies := LickFrequencies(lickPosition);
    var amplitudes := PositionalEffect(ScaleVelocity(m.velocity, 0.1), lickPosition, 1.0, sqrt);
    Pulse(amplitudes.a, amplitudes.b, frequencies.0, frequencies.1)
  }

  class LickActivity {
    const displayName: string
    const timerManager: TimerManager<LickAction>
    const waveManager: WaveManager<LickAction>
    var lickStartPoint: real
    var lickEndPoint: real
    var lickType: LickType
    ghost const Repr: set<object>

    /** The objects of the activity: the wave manager holds both lick waves, and no timer is ever set. */
    ghost predicate Frame()
      reads this, Repr
    {
      Repr == {this, timerManager, waveManager} + waveManager.Repr &&
      timerManager !in waveManager.Repr &&
      timerManager.Valid() && timerManager.timers == map[] &&
      waveManager.Valid() && "bidirectional" in waveManager.waves && "unidirectional" in waveManager.waves
    }

    /** A lick is under way: the wave runs at a steady speed towards a stop whose callback starts the next lick. */
    ghost predicate Valid()
      reads this, Repr
    {
      Frame() &&
      0.0 <= lickStartPoint <= 1.0 && 0.0 <= lickEndPoint <= 1.0 &&
      !waveManager.isStopped && waveManager.stopTargetCycle.Some? && waveManager.stopCallback == Some(StartNewLick) &&
      !waveManager.baseSpeed.IsTransitioning() && waveManager.baseSpeed.onReached == None
    }

    /** The lick drawn from `source(n)` onwards has just begun. */
    ghost predicate Began(source: nat -> real, n: nat)
      requires DrawsInUnit(source)
      reads this, waveManager, waveManager.baseSpeed
    {
      var drawn := LickDrawn(source, n);
      lickType == drawn.lickType && lickStartPoint == drawn.startPoint && lickEndPoint == drawn.endPoint &&
      waveManager.baseSpeed.Current() == drawn.speed &&
      waveManager.stopTargetCycle == Some(drawn.reps as real) &&
      waveManager.currentTime == 0.0
    }

    constructor (rng: Rng)
      requires rng.Valid()
      modifies rng
      ensures Valid() && fresh(Repr)
      ensures displayName == "Infinite licks"
      ensures rng.next == old(rng.next) + 5 && Began(rng.source, old(rng.next))
    {
      displayName := "Infinite licks";
      timerManager := new TimerManager();
      var manager := NewLickWaveManager();
      waveManager := manager;
      lickStartPoint := 0.0;
      lickEndPoint := 1.0;
      lickType := BIDIRECTIONAL;
      Repr := {this, timerManager, manager} + manager.Repr;
      new;
      NewLick(rng);
    }

    /**
     * `newLick`: a random direction and two random end points; a speed below
     * the limit for that distance; a duration turned into whole cycles; then
     * the wave restarts at that speed and stops after those cycles.
     */
    method NewLick(rng: Rng)
      requires Frame() && rng.Valid()
      modifies this, waveManager, waveManager.baseSpeed, rng
      ensures Valid()
      ensures rng.next == old(rng.next) + 5 && Began(rng.source, old(rng.next))
      ensures waveManager.waves == old(waveManager.waves)
    {
      var drawn := DrawLick(rng);
      lickType, lickStartPoint, lickEndPoint := drawn.lickType, drawn.startPoint, drawn.endPoint;
      waveManager.Restart();
      waveManager.SetSpeed(drawn.speed);
      waveManager.StopAfterIterations(drawn.reps, StartNewLick);
    }

    /** Run a callback the wave manager handed back: the next lick begins. */
    method Dispatch(action: LickAction, rng: Rng)
      requires Frame() && rng.Valid()
      modifies this, waveManager, waveManager.baseSpeed, rng
      ensures Valid()
      ensures rng.next == old(rng.next) + 5 && Began(rng.source, old(rng.next))
    {
      match action
      case StartNewLick => NewLick(rng);
    }

    /** The contract of `RunSimulation` as one predicate of the states before and after, for the host to pass on. */
    twostate predicate Stepped(delta: real, rng: Rng)
      reads this, Repr, rng
    {
      old(Valid()) && Valid() && rng.Valid() &&
      (old(waveManager.NextTime(delta)) >= old(waveManager.stopTargetCycle).value ==>
         old(rng.next) + 5 <= rng.next && Began(rng.source, rng.next - 5)) &&
      (old(waveManager.NextTime(delta)) < old(waveManager.stopTargetCycle).value ==>
         waveManager.Moved(delta) &&
         waveManager.baseSpeed.Current() == old(waveManager.baseSpeed.Current()) &&
         lickType == old(lickType) && lickStartPoint == old(lickStartPoint) &&
         lickEndPoint == old(lickEndPoint))
    }

    /**
     * `runSimulation`: the timers (a lick sets none), then the wave manager.
     * A step that reaches the end of the lick starts the next lick, drawn
     * after whatever jitter the step drew; any other step moves the clock
     * at the lick's steady speed and keeps the lick.
     */
    method RunSimulation(delta: real, rng: Rng)
      requires Valid() && rng.Valid() && delta >= 0.0
      modifies Repr, rng
      ensures Valid()
      ensures old(waveManager.NextTime(delta)) >= old(waveManager.stopTargetCycle).value ==>
                old(rng.next) + 5 <= rng.next && Began(rng.source, rng.next - 5)
      ensures old(waveManager.NextTime(delta)) < old(waveManager.stopTargetCycle).value ==>
                waveManager.Moved(delta) && waveManager.baseSpeed.Current() == old(waveManager.baseSpeed.Current()) &&
                lickType == old(lickType) && lickStartPoint == old(lickStartPoint) && lickEndPoint == old(lickEndPoint)
      ensures Stepped(delta, rng)
    {
      var expired := timerManager.Update(delta);
      assert expired == [];
      UpdateWave(delta, rng);
    }

    /**
     * `waveManager.update`: the lick's speed is steady, so the step reaches
     * the stop exactly when the clock at the speed it started with does.
     */
    method UpdateWave(delta: real, rng: Rng)
      requires Valid() && rng.Valid() && delta >= 0.0
      modifies this, waveManager, waveManager.baseSpeed, waveManager.amplitudeVarianceHandler,
               waveManager.speedVarianceHandler, rng
      ensures Valid()
      ensures old(waveManager.NextTime(delta)) >= old(waveManager.stopTargetCycle).value ==>
                old(rng.next) + 5 <= rng.next && Began(rng.source, rng.next - 5)
      ensures old(waveManager.NextTime(delta)) < old(waveManager.stopTargetCycle).value ==>
                waveManager.Moved(delta) && waveManager.baseSpeed.Current() == old(waveManager.baseSpeed.Current()) &&
                lickType == old(lickType) && lickStartPoint == old(lickStartPoint) && lickEndPoint == old(lickEndPoint)
    {
      var stopped := waveManager.Step(delta, rng);
      assert waveManager.baseSpeed.Current() == old(waveManager.baseSpeed.Current());
      assert waveManager.Reaches(delta) <==>
             old(waveManager.NextTime(delta)) >= old(waveManager.stopTargetCycle).value;
      if stopped.Some? {
        Dispatch(stopped.value, rng);
      }
    }

    /**
     * `getPulse`: both frequencies follow the lick position; the amplitudes
     * split the lick's speed between the channels by position.
     */
    function GetPulse(sqrt: real -> real): (r: Pulse)
      requires Valid()
      reads this, Repr
      ensures r == LickPulse(lickStartPoint, lickEndPoint,
                             waveManager.GetPositionAndVelocity(WaveName(lickType), true).value, sqrt)
    {
      LickPulse(lickStartPoint, lickEndPoint, waveManager.GetPositionAndVelocity(WaveName(lickType), true).value, sqrt)
    }
  }
}
