/**
 * "Milkmaster 3000": two alternating stages. In the womp stage one wave
 * speeds up from 0.3 to 2.5 cycles a second and, once there, runs to the
 * end of its cycle; the buzz stage then runs a fast wave for 6 to 12
 * seconds while both frequencies sweep between random ends, and the womp
 * stage starts again.
 */
module Milker {
  import opened Wrappers
  import opened Numeric
  import opened Utils
  import opened Random
  import opened Timers
  import opened CyclicalWaves
  import opened GeneratorWaves
  import opened Pulses

  datatype MilkerStage = Womp | Buzz

  /**
   * The callbacks: the womp speed-up reaching its end (which asks the
   * wave to stop at the end of its cycle), that stop (which starts the
   * buzz), and the end of the buzz timer (which starts the womp).
   */
  datatype MilkerAction = StopAfterSpeedUp | BuzzStart | WompStart

  const WOMP_START_FREQ: real := 0.0
  const WOMP_END_FREQ: real := 0.7
  const WOMP_START_SPEED: real := 0.3
  const WOMP_END_SPEED: real := 2.5
  const WOMP_POWER: real := 0.9

  const WOMP_SHAPE: WaveShape :=
    WaveShape("womp", [WavePoint(0.0, 1.0, 0.0), WavePoint(1.0 - SMALL_AMOUNT, 0.0, 0.0)], HERMITE)
  const BUZZ_SHAPE: WaveShape :=
    WaveShape("buzz", [WavePoint(0.0, 0.0, 0.0), WavePoint(0.5, 1.0, 0.0)], HERMITE)

  /**
   * The womp pulse: the position, mirrored when the womp is reversed,
   * splits the power 0.9 between the channels and sets both frequencies
   * on the womp frequency range.
   */
  function WompPulse(position: real, reverse: bool, sqrt: real -> real): (r: Pulse)
    requires IsSqrt(sqrt)
    ensures var adjusted := if reverse then 1.0 - position else position;
            r.freqA == r.freqB == adjusted * (WOMP_END_FREQ - WOMP_START_FREQ) + WOMP_START_FREQ &&
            r.ampA == PositionalEffect(WOMP_POWER, adjusted, 1.0, sqrt).a &&
            r.ampB == PositionalEffect(WOMP_POWER, adjusted, 1.0, sqrt).b
    ensures 0.0 <= position <= 1.0 ==>
              r.ampA * r.ampA + r.ampB * r.ampB == WOMP_POWER * WOMP_POWER &&
              0.0 <= r.ampA <= WOMP_POWER && 0.0 <= r.ampB <= WOMP_POWER &&
              WOMP_START_FREQ <= r.freqA <= WOMP_END_FREQ
  {
    var adjusted := if reverse then 1.0 - position else position;
    var amplitudes := PositionalEffect(WOMP_POWER, adjusted, 1.0, sqrt);
    var freq := adjusted * (WOMP_END_FREQ - WOMP_START_FREQ) + WOMP_START_FREQ;
    if 0.0 <= position <= 1.0 then
      PositionalEffectKeepsPower(WOMP_POWER, adjusted, 1.0, sqrt);
      Pulse(amplitudes.a, amplitudes.b, freq, freq)
    else
      Pulse(amplitudes.a, amplitudes.b, freq, freq)
  }

  /** Reversing the womp is the same as sampling the mirrored position. */
  lemma WompReverseMirrors(position: real, sqrt: real -> real)
    requires IsSqrt(sqrt)
    ensures WompPulse(position, true, sqrt) == WompPulse(1.0 - position, false, sqrt)
  {
  }

  /**
   * The buzz pulse: each frequency is the fraction `phase` of the way from
   * its start to its end; both amplitudes rise from 0.8 to 0.9 with the
   * wave.
   */
  function BuzzPulse(position: real, phase: real, aStart: real, aEnd: real, bStart: real, bEnd: real): (r: Pulse)
    requires 0.0 <= phase <= 1.0
    ensures r.freqA == Blend(aStart, aEnd, phase) && r.freqB == Blend(bStart, bEnd, phase)
    ensures r.ampA == r.ampB
    ensures 0.0 <= position <= 1.0 ==> 0.8 <= r.ampA <= 0.9
  {
    var amp := 0.8 + 0.1 * position;
    Pulse(amp, amp, phase * (aEnd - aStart) + aStart, phase * (bEnd - bStart) + bStart)
  }

  /** The womp and buzz waves, with no speed or amplitude jitter. */
  method NewMilkerWaveManager() returns (manager: WaveManager<MilkerAction>)
    ensures manager.Valid() && fresh(manager.Repr)
    ensures manager.waves.Keys == {"womp", "buzz"}
    ensures manager.stopCallback == None && manager.stopTargetCycle == None && manager.baseSpeed.onReached == None
  {
    manager := new WaveManager();
    var womp := new CyclicalWave(WOMP_SHAPE);
    var buzz := new CyclicalWave(BUZZ_SHAPE);
    manager.AddWave(womp, None);
    manager.AddWave(buzz, None);
    manager.SetSpeedVariance(0.0);
    manager.SetAmplitudeVariance(0.0);
  }

  class MilkerActivity {
    const displayName: string
    const timerManager: TimerManager<MilkerAction>
    const waveManager: WaveManager<MilkerAction>
    var currentStage: MilkerStage
    var buzzFreqAStart: real
    var buzzFreqAEnd: real
    var buzzFreqBStart: real
    var buzzFreqBEnd: real
    var reverseWomp: bool
    ghost const Repr: set<object>

    /**
     * Everything but the coupling of stage and timer: the only timer is
     * the buzz timer and it starts the womp; the wave only ever stops into
     * the buzz and only ever reaches its speed into the stop; the buzz
     * frequencies are in their ranges during the buzz.
     */
    ghost predicate Inner()
      reads this, Repr
    {
      Repr == {this, timerManager, waveManager} + waveManager.Repr &&
      timerManager.Valid() && waveManager.Valid() &&
      "womp" in waveManager.waves && "buzz" in waveManager.waves &&
      (forall k | k in timerManager.timers :: k == "buzzEnd" && timerManager.timers[k].callback == WompStart) &&
      (waveManager.stopCallback == None || waveManager.stopCallback == Some(BuzzStart)) &&
      (waveManager.stopTargetCycle.Some? ==> waveManager.stopCallback == Some(BuzzStart)) &&
      (waveManager.baseSpeed.onReached == None || waveManager.baseSpeed.onReached == Some(StopAfterSpeedUp)) &&
      (currentStage == Buzz ==>
         0.0 <= buzzFreqAStart <= 0.3 && 0.0 <= buzzFreqAEnd <= 0.3 &&
         0.7 <= buzzFreqBStart <= 1.0 && 0.7 <= buzzFreqBEnd <= 1.0 &&
         waveManager.stopTargetCycle == None && !waveManager.isStopped &&
         !waveManager.baseSpeed.IsTransitioning() && waveManager.baseSpeed.onReached == None)
    }

    /** The buzz timer runs exactly during the buzz stage. */
    ghost predicate Valid()
      reads this, Repr
    {
      Inner() && ("buzzEnd" in timerManager.timers <==> currentStage == Buzz)
    }

    /** The womp stage has just started: the wave from rest at 0.3 is speeding up to 2.5, and no timer runs. */
    ghost predicate WompBegun()
      reads this, waveManager, waveManager.baseSpeed, timerManager
    {
      currentStage == Womp && timerManager.timers == map[] &&
      waveManager.currentTime == 0.0 && waveManager.stopTargetCycle == None && !waveManager.isStopped &&
      waveManager.baseSpeed.start == WOMP_START_SPEED && waveManager.baseSpeed.target == WOMP_END_SPEED &&
      waveManager.baseSpeed.IsTransitioning() && waveManager.baseSpeed.onReached == Some(StopAfterSpeedUp) &&
      14.0 < waveManager.baseSpeed.duration <= 22.0
    }

    /**
     * The buzz stage has just started: fresh frequency ends in their
     * ranges, the wave from rest at a steady speed in [0.4, 0.8), and the
     * buzz timer set for [6, 12) seconds.
     */
    ghost predicate BuzzBegun()
      reads this, waveManager, waveManager.baseSpeed, timerManager
    {
      currentStage == Buzz &&
      0.0 <= buzzFreqAStart < 0.3 && 0.0 <= buzzFreqAEnd < 0.3 &&
      0.7 <= buzzFreqBStart < 1.0 && 0.7 <= buzzFreqBEnd < 1.0 &&
      waveManager.currentTime == 0.0 && waveManager.stopTargetCycle == None && !waveManager.isStopped &&
      0.4 <= waveManager.baseSpeed.Current() < 0.8 && !waveManager.baseSpeed.IsTransitioning() &&
      "buzzEnd" in timerManager.timers && 6.0 <= timerManager.timers["buzzEnd"].initialDuration < 12.0
    }

    /** The waves are set up, then the womp stage starts. */
    constructor (rng: Rng)
      requires rng.Valid()
      modifies rng
      ensures Valid() && fresh(Repr)
      ensures displayName == "Milkmaster 3000"
      ensures currentStage == Womp && timerManager.timers == map[]
    {
      displayName := "Milkmaster 3000";
      timerManager := new TimerManager();
      var manager := NewMilkerWaveManager();
      waveManager := manager;
      currentStage := Womp;
      buzzFreqAStart, buzzFreqAEnd, buzzFreqBStart, buzzFreqBEnd := 0.75, 0.75, 0.75, 0.75;
      reverseWomp := false;
      Repr := {this, timerManager, manager} + manager.Repr;
      new;
      WompStartStep(rng);
    }

    /**
     * `wompStart`: the wave restarts at speed 0.3 and eases to 2.5 at a
     * random rate in [0.1, 0.15), then asks to stop at the end of its
     * cycle; the direction is a coin toss.
     */
    method WompStartStep(rng: Rng)
      requires Inner() && rng.Valid() && timerManager.timers == map[]
      modifies Repr, rng
      ensures Valid() && WompBegun()
    {
      currentStage := Womp;
      waveManager.Restart();
      var speedChangeRate := rng.InRange(0.1, 0.15);
      reverseWomp := rng.NextBoolean();
      waveManager.SetSpeed(WOMP_START_SPEED);
      var fired := waveManager.SetTargetSpeed(WOMP_END_SPEED, speedChangeRate, Some(StopAfterSpeedUp));
      WompDuration(speedChangeRate);
    }

    /**
     * `buzzStart`: fresh frequency ends, A in [0, 0.3) and B in [0.7, 1);
     * the wave restarts at a steady speed in [0.4, 0.8); the womp comes
     * back after [6, 12) seconds.
     */
    method BuzzStartStep(rng: Rng)
      requires Inner() && rng.Valid()
      modifies Repr, rng
      ensures Valid() && BuzzBegun()
    {
      var aStart, aEnd, bStart, bEnd, speed := DrawBuzz(rng);
      waveManager.Restart();
      waveManager.SetSpeed(speed);
      var duration := rng.InRange(6.0, 12.0);
      ghost var before := timerManager.timers;
      var immediate := timerManager.AddTimer("buzzEnd", duration, WompStart);
      assert timerManager.timers == before["buzzEnd" := Timer(duration, duration, WompStart)];
      EnterBuzz(aStart, aEnd, bStart, bEnd);
    }

    /** The stage becomes the buzz with the given frequency ends; nothing else changes. */
    method EnterBuzz(aStart: real, aEnd: real, bStart: real, bEnd: real)
      requires Inner() && "buzzEnd" in timerManager.timers
      requires 0.0 <= aStart <= 0.3 && 0.0 <= aEnd <= 0.3 && 0.7 <= bStart <= 1.0 && 0.7 <= bEnd <= 1.0
      requires waveManager.stopTargetCycle == None && !waveManager.isStopped
      requires !waveManager.baseSpeed.IsTransitioning() && waveManager.baseSpeed.onReached == None
      modifies this
      ensures Valid() && currentStage == Buzz
      ensures buzzFreqAStart == aStart && buzzFreqAEnd == aEnd && buzzFreqBStart == bStart && buzzFreqBEnd == bEnd
      ensures reverseWomp == old(reverseWomp)
    {
      currentStage, buzzFreqAStart, buzzFreqAEnd, buzzFreqBStart, buzzFreqBEnd := Buzz, aStart, aEnd, bStart, bEnd;
    }

    /**
     * Run a callback. The womp start only comes from the buzz timer, which
     * is gone by the time it runs; the speed callback is only armed during
     * the womp.
     */
    method Dispatch(action: MilkerAction, rng: Rng)
      requires Inner() && rng.Valid()
      requires action == WompStart ==> timerManager.timers == map[]
      requires action != WompStart ==> Valid()
      requires action == StopAfterSpeedUp ==> currentStage == Womp
      modifies Repr, rng
      ensures Valid()
      ensures action == StopAfterSpeedUp ==>
                waveManager.stopTargetCycle == Some((waveManager.currentTime + 1.0).Floor as real) &&
                waveManager.stopCallback == Some(BuzzStart) && currentStage == old(currentStage)
      ensures action == StopAfterSpeedUp ==>
                waveManager.currentTime == old(waveManager.currentTime) && unchanged(this, timerManager)
      ensures action == BuzzStart ==> BuzzBegun()
      ensures action == WompStart ==> WompBegun()
    {
      match action
      case StopAfterSpeedUp => waveManager.StopAtEndOfCycle(BuzzStart);
      case BuzzStart => BuzzStartStep(rng);
      case WompStart => WompStartStep(rng);
    }

    /** `runSimulation`: the timers, each callback run as its timer ends, then the wave. */
    method RunSimulation(delta: real, rng: Rng)
      requires Valid() && rng.Valid() && delta >= 0.0
      modifies Repr, rng
      ensures Valid()
    {
      RunTimers(delta, rng);
      UpdateWave(delta, rng);
    }

    /**
     * `waveManager.update`, with the speed callback run inside it and the
     * stop callback at its end. The buzz runs on at its steady speed; the
     * womp either runs on, with the stop asked for once its speed-up ends,
     * or reaches the stop and the buzz begins.
     */
    method UpdateWave(delta: real, rng: Rng)
      requires Valid() && rng.Valid() && delta >= 0.0
      modifies Repr, rng
      ensures Valid()
      ensures old(waveManager.isStopped) ==> unchanged(this, timerManager, waveManager) && rng.next == old(rng.next)
      ensures !old(waveManager.isStopped) && old(currentStage) == Buzz ==>
                currentStage == Buzz && waveManager.Moved(delta) && unchanged(this, timerManager)
      ensures !old(waveManager.isStopped) && old(currentStage) == Womp && currentStage == Womp ==>
                waveManager.Clocked(delta) && unchanged(this, timerManager) &&
                (waveManager.stopTargetCycle == old(waveManager.stopTargetCycle) ||
                 waveManager.stopTargetCycle == Some((old(waveManager.currentTime) + 1.0).Floor as real))
      ensures old(currentStage) == Womp && currentStage == Buzz ==> BuzzBegun()
    {
      var running, reached := waveManager.BeginUpdate(delta);
      label Began:
      if running {
        if reached.Some? {
          // the only speed callback is `StopAfterSpeedUp`, armed during the womp
          assert reached.value == StopAfterSpeedUp && currentStage == Womp;
          waveManager.StopAtEndOfCycle(BuzzStart);
        }
        label Asked:
        FinishWave(delta, rng);
        if currentStage == old(currentStage) {
          assert waveManager.Moved@Asked(delta);
        }
      }
    }

    /**
     * The rest of `waveManager.update` once the speed has eased: the clock
     * moves on, and reaching the stop target starts the buzz.
     */
    method FinishWave(delta: real, rng: Rng)
      requires Valid() && rng.Valid() && delta >= 0.0 && !waveManager.isStopped
      modifies Repr, rng
      ensures Valid()
      ensures (old(waveManager.stopTargetCycle).Some? &&
               old(waveManager.NextTime(delta)) >= old(waveManager.stopTargetCycle).value) ==> BuzzBegun()
      ensures !(old(waveManager.stopTargetCycle).Some? &&
                old(waveManager.NextTime(delta)) >= old(waveManager.stopTargetCycle).value) ==>
                waveManager.Moved(delta) && unchanged(this, timerManager)
    {
      var stopped := waveManager.FinishUpdate(delta, rng);
      if stopped.Some? {
        assert stopped.value == BuzzStart;
        BuzzStartStep(rng);
      }
    }

    /**
     * The base `runSimulation`: each timer present at the start is stepped,
     * and a callback runs as its timer ends. The buzz timer ending starts
     * the womp; otherwise only the timer moves.
     */
    method RunTimers(delta: real, rng: Rng)
      requires Valid() && rng.Valid() && delta >= 0.0
      modifies Repr, rng
      ensures Valid()
      ensures Ticked(old(timerManager.timers), timerManager.timers, delta)
      ensures old(currentStage) == Buzz && Ends(old(timerManager.timers["buzzEnd"]), delta) ==> WompBegun()
      ensures !(old(currentStage) == Buzz && Ends(old(timerManager.timers["buzzEnd"]), delta)) ==>
                unchanged(this, waveManager, waveManager.baseSpeed)
    {
      var keys := timerManager.Snapshot();
      ghost var start := timerManager.timers;
      ProgressStart(start, keys, delta);
      var i := 0;
      while i < |keys|
        invariant Valid() && rng.Valid()
        invariant Progress(start, keys, i, timerManager.timers, delta)
        invariant "buzzEnd" in Seen(keys, i) && old(currentStage) == Buzz && Ends(start["buzzEnd"], delta) ==> WompBegun()
        invariant !("buzzEnd" in Seen(keys, i) && old(currentStage) == Buzz && Ends(start["buzzEnd"], delta)) ==>
                    unchanged(this, waveManager, waveManager.baseSpeed)
      {
        SeenNext(keys, i);
        Visit(keys, i, delta, rng, start);
        i := i + 1;
      }
      assert keys[..|keys|] == keys;
      ProgressDone(start, keys, timerManager.timers, delta);
    }

    /** One visit of `RunTimers`' loop: `keys[i]` is stepped, and if that ends the buzz timer, the womp starts. */
    method Visit(keys: seq<string>, i: nat, delta: real, rng: Rng, ghost start: map<string, Timer<MilkerAction>>)
      requires Valid() && rng.Valid() && delta >= 0.0
      requires Progress(start, keys, i, timerManager.timers, delta) && i < |keys|
      modifies Repr, rng
      ensures Valid()
      ensures Progress(start, keys, i + 1, timerManager.timers, delta)
      ensures Ends(start[keys[i]], delta) ==> WompBegun()
      ensures !Ends(start[keys[i]], delta) ==> unchanged(this, waveManager, waveManager.baseSpeed)
    {
      ghost var before := timerManager.timers;
      var fired := timerManager.Tick(keys[i], delta);
      ghost var mid := timerManager.timers;
      if fired.Some? {
        assert timerManager.timers == map[];
        Dispatch(fired.value, rng);
      }
      ProgressNext(start, keys, i, before, delta, mid, timerManager.timers);
    }

    /** The phase of the buzz: the elapsed fraction of its timer, or 1 without one. */
    function BuzzPhase(): (r: real)
      requires Valid()
      reads this, Repr
      ensures 0.0 <= r <= 1.0
      ensures currentStage == Buzz ==> r < 1.0
    {
      timerManager.ProportionElapsed("buzzEnd").GetOr(1.0)
    }

    /** `getPulse`: the womp pulse or the buzz pulse, by stage. */
    function GetPulse(sqrt: real -> real): (r: Pulse)
      requires Valid() && IsSqrt(sqrt)
      reads this, Repr
      ensures currentStage == Womp ==> r == WompPulse(waveManager.GetPosition("womp", true).value, reverseWomp, sqrt)
      ensures currentStage == Buzz ==>
                r == BuzzPulse(waveManager.GetPosition("buzz", true).value, BuzzPhase(),
                               buzzFreqAStart, buzzFreqAEnd, buzzFreqBStart, buzzFreqBEnd)
      ensures currentStage == Buzz ==> 0.0 <= r.freqA <= 0.3 && 0.7 <= r.freqB <= 1.0
    {
      match currentStage
      case Womp => WompPulse(waveManager.GetPosition("womp", true).value, reverseWomp, sqrt)
      case Buzz =>
        BuzzPulse(waveManager.GetPosition("buzz", true).value, BuzzPhase(),
                  buzzFreqAStart, buzzFreqAEnd, buzzFreqBStart, buzzFreqBEnd)
    }
  }

  /** The buzz's draws, in order: the two ends of frequency A, of frequency B, then the speed. */
  method DrawBuzz(rng: Rng) returns (aStart: real, aEnd: real, bStart: real, bEnd: real, speed: real)
    requires rng.Valid()
    modifies rng
    ensures rng.Valid() && rng.next == old(rng.next) + 5
    ensures 0.0 <= aStart < 0.3 && 0.0 <= aEnd < 0.3
    ensures 0.7 <= bStart < 1.0 && 0.7 <= bEnd < 1.0
    ensures 0.4 <= speed < 0.8
  {
    aStart := rng.InRange(0.0, 0.3);
    aEnd := rng.InRange(0.0, 0.3);
    bStart := rng.InRange(0.7, 1.0);
    bEnd := rng.InRange(0.7, 1.0);
    speed := rng.InRange(0.4, 0.8);
  }

  /** The womp's speed-up of 2.2 at a rate in [0.1, 0.15) lasts more than 14 seconds and at most 22. */
  lemma WompDuration(rate: real)
    requires 0.1 <= rate < 0.15
    ensures 14.0 < (WOMP_END_SPEED - WOMP_START_SPEED) / rate <= 22.0
  {
    var d := (WOMP_END_SPEED - WOMP_START_SPEED) / rate;
    assert d * rate == 2.2;
    assert d > 0.0;
    MulMonotone(0.1, rate, d);
    assert 0.1 * d <= 2.2;
    MulStrict(rate, 0.15, d);
    assert 2.2 < 0.15 * d;
  }
}
