/**
 * "Penetration": one keyframed stroke whose speed drifts to random targets,
 * and a "feel" exponent, itself easing between random values, that bends
 * both frequencies.
 */
module Penetration {
  import opened Wrappers
  import opened Numeric
  import opened Utils
  import opened Random
  import opened Timers
  import opened Smoothing
  import opened CyclicalWaves
  import opened Pulses

  /** The two self-rescheduling callbacks. */
  datatype PenetrationAction = SpeedChange | FeelChange

  const SPEED_MIN: real := 0.3
  const SPEED_MAX: real := 3.0

  const PENETRATION_SHAPE: WaveShape :=
    WaveShape("penetration",
              [WavePoint(0.0, 0.0, 0.0), WavePoint(0.4, 0.95, 0.2), WavePoint(0.5, 0.97, 0.0), WavePoint(0.6, 0.95, -0.2)],
              HERMITE)

  /** The amplitude factor: 0.8 at the slowest speed of the range, rising linearly to 1 at the fastest. */
  function AmplitudeFactor(currentSpeed: real): (r: real)
    ensures SPEED_MIN <= currentSpeed <= SPEED_MAX ==> 0.8 <= r <= 1.0
    ensures currentSpeed == SPEED_MIN ==> r == 0.8
    ensures currentSpeed == SPEED_MAX ==> r == 1.0
  {
    var fraction := (currentSpeed - SPEED_MIN) / (SPEED_MAX - SPEED_MIN);
    assert SPEED_MIN <= currentSpeed <= SPEED_MAX ==> 0.0 <= fraction <= 1.0;
    0.8 + fraction * 0.2
  }

  /**
   * The pulse for the stroke at `m`: channel A follows the position,
   * channel B mixes in the scaled velocity; both frequencies are bent by
   * the feel exponent and held in [0, 1].
   */
  function PenetrationPulse(m: Motion, currentSpeed: real, feelExponent: real, pow: (real, real) -> real): (r: Pulse)
    ensures 0.0 <= r.freqA <= 1.0 && 0.0 <= r.freqB <= 1.0
    ensures r.freqA == FeelAdjustment(m.position * 0.7, feelExponent, pow)
    ensures r.freqB == FeelAdjustment(ScaleVelocity(m.velocity, 0.1) * 0.5 + m.position * 0.4, feelExponent, pow)
    ensures r.ampA == m.position * AmplitudeFactor(currentSpeed)
    ensures m.velocity == 0.0 ==> r.ampB == m.position * 0.4 * AmplitudeFactor(currentSpeed)
    ensures 0.0 <= m.position <= 1.0 && SPEED_MIN <= currentSpeed <= SPEED_MAX ==>
              0.0 <= r.ampA <= 1.0 && 0.0 <= r.ampB <= 1.0
  {
    var scaledVelocity := ScaleVelocity(m.velocity, 0.1);
    var ampFactor := AmplitudeFactor(currentSpeed);
    var ampB := (scaledVelocity * 0.6 + m.position * 0.4) * ampFactor;
    PulseBounds(m.position, scaledVelocity, currentSpeed);
    Pulse(m.position * ampFactor, ampB,
          FeelAdjustment(m.position * 0.7, feelExponent, pow),
          FeelAdjustment(scaledVelocity * 0.5 + m.position * 0.4, feelExponent, pow))
  }

  lemma PulseBounds(position: real, scaledVelocity: real, currentSpeed: real)
    requires 0.0 <= scaledVelocity <= 1.0
    ensures 0.0 <= position <= 1.0 && SPEED_MIN <= currentSpeed <= SPEED_MAX ==>
              0.0 <= position * AmplitudeFactor(currentSpeed) <= 1.0 &&
              0.0 <= (scaledVelocity * 0.6 + position * 0.4) * AmplitudeFactor(currentSpeed) <= 1.0
  {
    if 0.0 <= position <= 1.0 && SPEED_MIN <= currentSpeed <= SPEED_MAX {
      var f := AmplitudeFactor(currentSpeed);
      assert 0.8 <= f <= 1.0;
      MulMonotone(position, 1.0, f);
      assert 1.0 * f == f;
      MulNonNeg(position, f);
      assert 0.0 <= position * f <= 1.0;
      var mix := scaledVelocity * 0.6 + position * 0.4;
      assert 0.0 <= mix <= 1.0;
      MulMonotone(mix, 1.0, f);
      assert 1.0 * f == f;
      MulNonNeg(mix, f);
      assert 0.0 <= mix * f <= 1.0;
    }
  }

  /** The stroke's wave manager: the one wave, speed jitter 0.2 and amplitude jitter 0.1, running with no stop. */
  method NewPenetrationWaveManager() returns (manager: WaveManager<PenetrationAction>)
    ensures manager.Valid() && fresh(manager.Repr)
    ensures manager.waves.Keys == {"penetration"}
    ensures manager.amplitudeVarianceHandler.variance == 0.1 && manager.speedVarianceHandler.variance == 0.2
    ensures manager.stopTargetCycle == None && manager.stopCallback == None && !manager.isStopped
    ensures manager.baseSpeed.onReached == None
  {
    manager := new WaveManager();
    var wave := new CyclicalWave(PENETRATION_SHAPE);
    manager.AddWave(wave, None);
    manager.SetSpeedVariance(0.2);
    manager.SetAmplitudeVariance(0.1);
  }

  /** The timer that a callback re-arms. */
  function TimerKey(action: PenetrationAction): string
  {
    match action
    case SpeedChange => "speedChange"
    case FeelChange => "feelChange"
  }

  class PenetrationActivity {
    const displayName: string
    const timerManager: TimerManager<PenetrationAction>
    const waveManager: WaveManager<PenetrationAction>
    /** `penetrationFeelExponent`: eases between values drawn from [1, 2]. */
    const feelExponent: SmoothedValue<PenetrationAction>
    ghost const Repr: set<object>

    /** A timer is the speed change, due in [1, 20) seconds, or the feel change, due in [2, 10). */
    ghost predicate TimerTable()
      reads timerManager
    {
      timerManager.Valid() &&
      forall k | k in timerManager.timers ::
        (k == "speedChange" && timerManager.timers[k].callback == SpeedChange &&
         1.0 <= timerManager.timers[k].initialDuration < 20.0) ||
        (k == "feelChange" && timerManager.timers[k].callback == FeelChange &&
         2.0 <= timerManager.timers[k].initialDuration < 10.0)
    }

    /** Neither eased value holds a callback, and the exponent keeps within [1, 2]. */
    ghost predicate Easings()
      reads feelExponent, waveManager.baseSpeed
    {
      feelExponent.Valid() && waveManager.baseSpeed.Valid() &&
      1.0 <= feelExponent.start <= 2.0 && 1.0 <= feelExponent.target <= 2.0 &&
      feelExponent.onReached == None && waveManager.baseSpeed.onReached == None
    }

    /** The stroke is one wave that never stops. */
    ghost predicate Stroke()
      reads waveManager, waveManager.Repr
    {
      waveManager.Valid() && "penetration" in waveManager.waves &&
      waveManager.stopTargetCycle == None && waveManager.stopCallback == None && !waveManager.isStopped
    }

    /** All but the presence of both timers. */
    ghost predicate Inner()
      reads this, Repr
    {
      Repr == {this, timerManager, feelExponent, waveManager} + waveManager.Repr &&
      feelExponent != waveManager.baseSpeed &&
      timerManager !in waveManager.Repr && feelExponent !in waveManager.Repr &&
      TimerTable() && Stroke() && Easings()
    }

    /** Both changes are always scheduled. */
    ghost predicate Valid()
      reads this, Repr
    {
      Inner() && "speedChange" in timerManager.timers && "feelChange" in timerManager.timers
    }

    /**
     * The feel exponent starts at a random value; the stroke has speed
     * jitter 0.2 and amplitude jitter 0.1; both changes are scheduled; then
     * the speed starts at 0.15 and eases towards 0.5 at rate 0.1.
     */
    constructor (rng: Rng)
      requires rng.Valid()
      modifies rng
      ensures Valid() && fresh(Repr)
      ensures displayName == "Penetration"
      ensures waveManager.baseSpeed.start == 0.15 && waveManager.baseSpeed.target == 0.5
      ensures timerManager.timers.Keys == {"speedChange", "feelChange"}
      ensures feelExponent.start == Uniform(1.0, 2.0, rng.source(old(rng.next)))
      ensures feelExponent.target == Uniform(1.0, 2.0, rng.source(old(rng.next) + 4))
      ensures var s := Uniform(1.0, 20.0, rng.source(old(rng.next) + 3));
              var f := Uniform(2.0, 10.0, rng.source(old(rng.next) + 6));
              timerManager.timers == map["speedChange" := Timer(s, s, SpeedChange), "feelChange" := Timer(f, f, FeelChange)]
      ensures rng.next == old(rng.next) + 7
    {
      displayName := "Penetration";
      timerManager := new TimerManager();
      var manager := NewPenetrationWaveManager();
      waveManager := manager;
      var exponent := rng.InRange(1.0, 2.0);
      feelExponent := new SmoothedValue(exponent);
      Repr := {this, timerManager, feelExponent, manager} + manager.Repr;
      new;
      assert fresh(Repr);
      Begin(rng);
    }

    /**
     * The rest of `init`: both changes are scheduled, then the speed starts
     * at 0.15 and eases towards 0.5 at rate 0.1. The exponent eases from
     * where it was to the target the feel change draws.
     */
    method Begin(rng: Rng)
      requires Inner() && rng.Valid()
      requires timerManager.timers == map[]
      modifies Repr, rng
      ensures Valid()
      ensures waveManager.baseSpeed.start == 0.15 && waveManager.baseSpeed.target == 0.5
      ensures timerManager.timers.Keys == {"speedChange", "feelChange"}
      ensures feelExponent.start == old(feelExponent.Current())
      ensures feelExponent.target == Uniform(1.0, 2.0, rng.source(old(rng.next) + 3))
      ensures var s := Uniform(1.0, 20.0, rng.source(old(rng.next) + 2));
              var f := Uniform(2.0, 10.0, rng.source(old(rng.next) + 5));
              timerManager.timers == map["speedChange" := Timer(s, s, SpeedChange), "feelChange" := Timer(f, f, FeelChange)]
      ensures rng.next == old(rng.next) + 6
    {
      SpeedChangeStep(rng);
      FeelChangeStep(rng);
      waveManager.SetSpeed(0.15);
      var fired := waveManager.SetTargetSpeed(0.5, 0.1, None);
    }

    /** What `speedChange` does to the stroke's speed: from where it was, it eases towards a target in [0.3, 3). */
    twostate predicate SpeedRetargeted()
      reads waveManager.baseSpeed
    {
      waveManager.baseSpeed.start == old(waveManager.baseSpeed.Current()) && waveManager.baseSpeed.elapsed == 0.0 &&
      SPEED_MIN <= waveManager.baseSpeed.target < SPEED_MAX
    }

    /** What `feelChange` does to the exponent: from where it was, it eases towards a target in [1, 2). */
    twostate predicate FeelRetargeted()
      reads feelExponent
    {
      feelExponent.start == old(feelExponent.Current()) && feelExponent.elapsed == 0.0 &&
      1.0 <= feelExponent.target < 2.0
    }

    /**
     * `speedChange`: the next three draws are a target speed in [0.3, 3),
     * the rate it is reached at, in [0.05, 0.3), and the seconds to the next
     * change, in [1, 20); nothing else changes.
     */
    method SpeedChangeStep(rng: Rng)
      requires Inner() && rng.Valid()
      modifies timerManager, waveManager.baseSpeed, rng
      ensures Inner() && SpeedRetargeted()
      ensures waveManager.baseSpeed.target == Uniform(SPEED_MIN, SPEED_MAX, rng.source(old(rng.next)))
      ensures waveManager.baseSpeed.duration ==
              Abs(waveManager.baseSpeed.target - waveManager.baseSpeed.start) / Uniform(0.05, 0.3, rng.source(old(rng.next) + 1))
      ensures var d := Uniform(1.0, 20.0, rng.source(old(rng.next) + 2));
              timerManager.timers == old(timerManager.timers)["speedChange" := Timer(d, d, SpeedChange)]
      ensures rng.next == old(rng.next) + 3
    {
      var newSpeed := rng.InRange(SPEED_MIN, SPEED_MAX);
      var changeRate := rng.InRange(0.05, 0.3);
      var nextSpeedChangeSecs := rng.InRange(1.0, 20.0);
      assert changeRate > 0.0;
      var fired := waveManager.SetTargetSpeed(newSpeed, changeRate, None);
      var immediate := timerManager.AddTimer("speedChange", nextSpeedChangeSecs, SpeedChange);
    }

    /**
     * `feelChange`: the next three draws are the exponent's target in
     * [1, 2), the rate it is reached at, in [0.05, 0.1), and the seconds to
     * the next change, in [2, 10); nothing else changes.
     */
    method FeelChangeStep(rng: Rng)
      requires Inner() && rng.Valid()
      modifies timerManager, feelExponent, rng
      ensures Inner() && FeelRetargeted()
      ensures feelExponent.target == Uniform(1.0, 2.0, rng.source(old(rng.next)))
      ensures feelExponent.duration ==
              Abs(feelExponent.target - feelExponent.start) / Uniform(0.05, 0.1, rng.source(old(rng.next) + 1))
      ensures var d := Uniform(2.0, 10.0, rng.source(old(rng.next) + 2));
              timerManager.timers == old(timerManager.timers)["feelChange" := Timer(d, d, FeelChange)]
      ensures rng.next == old(rng.next) + 3
    {
      var target := rng.InRange(1.0, 2.0);
      var rate := rng.InRange(0.05, 0.1);
      assert rate > 0.0;
      var fired := feelExponent.SetTarget(target, Some(rate), None, None);
      var nextFeelChangeSecs := rng.InRange(2.0, 10.0);
      var immediate := timerManager.AddTimer("feelChange", nextFeelChangeSecs, FeelChange);
    }

    /** Run a callback: each re-arms its own timer and retargets its own value, and touches nothing else. */
    method Dispatch(action: PenetrationAction, rng: Rng)
      requires Inner() && rng.Valid()
      modifies timerManager, waveManager.baseSpeed, feelExponent, rng
      ensures Inner()
      ensures Refreshed(old(timerManager.timers), timerManager.timers, TimerKey(action))
      ensures TimerKey(action) in timerManager.timers
      ensures action == SpeedChange ==> SpeedRetargeted() && unchanged(feelExponent)
      ensures action == FeelChange ==> FeelRetargeted() && unchanged(waveManager.baseSpeed)
    {
      match action
      case SpeedChange => SpeedChangeStep(rng);
      case FeelChange => FeelChangeStep(rng);
    }

    /** The contract of `RunSimulation` as one predicate of the states before and after, for the host to pass on. */
    twostate predicate Stepped(delta: real, rng: Rng)
      reads this, Repr, rng
    {
      old(Valid()) && Valid() && rng.Valid() &&
      Ticked(old(timerManager.timers), timerManager.timers, delta) &&
      waveManager.Moved(delta) &&
      (Ends(old(timerManager.timers["speedChange"]), delta) ==>
         waveManager.baseSpeed.start == old(waveManager.baseSpeed.Current()) &&
         SPEED_MIN <= waveManager.baseSpeed.target < SPEED_MAX) &&
      (!Ends(old(timerManager.timers["speedChange"]), delta) ==>
         waveManager.baseSpeed.Advanced(delta, None)) &&
      (Ends(old(timerManager.timers["feelChange"]), delta) ==>
         feelExponent.start == old(feelExponent.Current()) && 1.0 <= feelExponent.target < 2.0) &&
      (!Ends(old(timerManager.timers["feelChange"]), delta) ==> feelExponent.Advanced(delta, None))
    }

    /**
     * `runSimulation`: the timers, each callback run as its timer ends; then
     * the exponent; then the stroke. A value whose change came due starts
     * easing from where it was towards its new target; any other eases on
     * as before; the stroke's clock moves at the resulting speed.
     */
    method RunSimulation(delta: real, rng: Rng)
      requires Valid() && rng.Valid() && delta >= 0.0
      modifies Repr, rng
      ensures Valid()
      ensures Ticked(old(timerManager.timers), timerManager.timers, delta)
      ensures waveManager.Moved(delta)
      ensures Ends(old(timerManager.timers["speedChange"]), delta) ==>
                waveManager.baseSpeed.start == old(waveManager.baseSpeed.Current()) &&
                SPEED_MIN <= waveManager.baseSpeed.target < SPEED_MAX
      ensures !Ends(old(timerManager.timers["speedChange"]), delta) ==> waveManager.baseSpeed.Advanced(delta, None)
      ensures Ends(old(timerManager.timers["feelChange"]), delta) ==>
                feelExponent.start == old(feelExponent.Current()) && 1.0 <= feelExponent.target < 2.0
      ensures !Ends(old(timerManager.timers["feelChange"]), delta) ==> feelExponent.Advanced(delta, None)
      ensures Stepped(delta, rng)
    {
      RunTimers(delta, rng);
      label Timed:
      UpdateFeel(delta);
      UpdateStroke(delta, rng);
      assert feelExponent.Advanced@Timed(delta, None);
    }

    /** The feel exponent moves on by `delta`; it has no callback to run. */
    method UpdateFeel(delta: real)
      requires Valid() && delta >= 0.0
      modifies feelExponent
      ensures Valid()
      ensures feelExponent.Advanced(delta, None)
    {
      var reached := feelExponent.Update(delta);
    }

    /** The stroke's wave manager moves on by `delta`; it never stops and has no callback to run. */
    method UpdateStroke(delta: real, rng: Rng)
      requires Valid() && rng.Valid() && delta >= 0.0
      modifies waveManager, waveManager.baseSpeed, waveManager.amplitudeVarianceHandler, waveManager.speedVarianceHandler, rng
      ensures Valid()
      ensures waveManager.baseSpeed.Advanced(delta, None) && waveManager.Moved(delta)
    {
      waveManager.Update(delta, rng);
    }

    /**
     * The base `runSimulation`: each timer present at the start is stepped,
     * and a callback runs as its timer ends. The timers are `Ticked`; a
     * value is retargeted exactly when its change came due.
     */
    method RunTimers(delta: real, rng: Rng)
      requires Valid() && rng.Valid() && delta >= 0.0
      modifies timerManager, waveManager.baseSpeed, feelExponent, rng
      ensures Valid()
      ensures Ticked(old(timerManager.timers), timerManager.timers, delta)
      ensures Ends(old(timerManager.timers["speedChange"]), delta) ==> SpeedRetargeted()
      ensures !Ends(old(timerManager.timers["speedChange"]), delta) ==> unchanged(waveManager.baseSpeed)
      ensures Ends(old(timerManager.timers["feelChange"]), delta) ==> FeelRetargeted()
      ensures !Ends(old(timerManager.timers["feelChange"]), delta) ==> unchanged(feelExponent)
    {
      var keys := timerManager.Snapshot();
      ghost var start := timerManager.timers;
      ProgressStart(start, keys, delta);
      var i := 0;
      while i < |keys|
        invariant Inner() && rng.Valid()
        invariant Progress(start, keys, i, timerManager.timers, delta)
        invariant Kept(keys, i, timerManager.timers)
        invariant "speedChange" in Seen(keys, i) && Ends(start["speedChange"], delta) ==> SpeedRetargeted()
        invariant !("speedChange" in Seen(keys, i) && Ends(start["speedChange"], delta)) ==> unchanged(waveManager.baseSpeed)
        invariant "feelChange" in Seen(keys, i) && Ends(start["feelChange"], delta) ==> FeelRetargeted()
        invariant !("feelChange" in Seen(keys, i) && Ends(start["feelChange"], delta)) ==> unchanged(feelExponent)
      {
        SeenNext(keys, i);
        Visit(keys, i, delta, rng, start);
        i := i + 1;
      }
      assert keys[..|keys|] == keys;
      ProgressDone(start, keys, timerManager.timers, delta);
    }

    /** One visit of `RunTimers`' loop: `keys[i]` is stepped, and if that ends it, its callback runs. */
    method Visit(keys: seq<string>, i: nat, delta: real, rng: Rng, ghost start: map<string, Timer<PenetrationAction>>)
      requires Inner() && rng.Valid() && delta >= 0.0
      requires Progress(start, keys, i, timerManager.timers, delta) && i < |keys|
      requires Kept(keys, i, timerManager.timers)
      modifies timerManager, waveManager.baseSpeed, feelExponent, rng
      ensures Inner()
      ensures Progress(start, keys, i + 1, timerManager.timers, delta)
      ensures Kept(keys, i + 1, timerManager.timers)
      ensures !Ends(start[keys[i]], delta) ==> unchanged(waveManager.baseSpeed, feelExponent)
      ensures keys[i] == "speedChange" && Ends(start[keys[i]], delta) ==> SpeedRetargeted() && unchanged(feelExponent)
      ensures keys[i] == "feelChange" && Ends(start[keys[i]], delta) ==> FeelRetargeted() && unchanged(waveManager.baseSpeed)
    {
      ghost var before := timerManager.timers;
      var fired := timerManager.Tick(keys[i], delta);
      ghost var mid := timerManager.timers;
      if fired.Some? {
        assert TimerKey(fired.value) == keys[i];
        Dispatch(fired.value, rng);
      }
      ProgressNext(start, keys, i, before, delta, mid, timerManager.timers);
    }

    /** `getPulse`: the stroke's position and velocity, the current speed and the current feel exponent. */
    function GetPulse(pow: (real, real) -> real): (r: Pulse)
      requires Valid()
      reads this, Repr
      ensures 0.0 <= r.freqA <= 1.0 && 0.0 <= r.freqB <= 1.0
      ensures r == PenetrationPulse(waveManager.GetPositionAndVelocity("penetration", true).value,
                                    waveManager.CurrentSpeed(), feelExponent.Current(), pow)
      ensures 1.0 <= feelExponent.Current() <= 2.0
    {
      PenetrationPulse(waveManager.GetPositionAndVelocity("penetration", true).value,
                       waveManager.CurrentSpeed(), feelExponent.Current(), pow)
    }
  }
}
