/**
 * The two calibration activities. "Calibration 1" sweeps a fixed power
 * from one channel to the other; "Calibration 2" drives one channel, then
 * the other, then both, for 16 seconds each, with both frequencies
 * following a slow wave.
 */
module Calibration {
  import opened Wrappers
  import opened Numeric
  import opened Utils
  import opened Random
  import opened Timers
  import opened CyclicalWaves
  import opened Pulses

  /** The one callback: the end of a calibration phase. */
  datatype CalibrationAction = NextPhase

  const WAVE_SPEED: real := 0.25
  const WAVE_POWER: real := 0.9
  const WAVE_FREQUENCY: real := 0.5
  const PHASE_CHANGE_SECS: real := 16.0

  const CALIBRATION_SHAPE: WaveShape :=
    WaveShape("calibration", [WavePoint(0.0, 0.0, 0.0), WavePoint(0.5, 1.0, 0.0)], HERMITE)

  /** The calibration wave at a quarter cycle a second, with no jitter; it never reaches a target or stops. */
  method NewCalibrationWaveManager() returns (manager: WaveManager<CalibrationAction>)
    ensures manager.Valid() && fresh(manager.Repr)
    ensures manager.waves.Keys == {"calibration"}
    ensures manager.baseSpeed.Current() == WAVE_SPEED
    ensures manager.speedVarianceHandler.variance == 0.0 && manager.amplitudeVarianceHandler.variance == 0.0
    ensures manager.stopTargetCycle == None && manager.stopCallback == None && manager.baseSpeed.onReached == None
    ensures !manager.isStopped && !manager.baseSpeed.IsTransitioning()
  {
    manager := new WaveManager();
    var wave := new CyclicalWave(CALIBRATION_SHAPE);
    manager.AddWave(wave, None);
    manager.SetSpeed(WAVE_SPEED);
    manager.SetSpeedVariance(0.0);
    manager.SetAmplitudeVariance(0.0);
  }

  /** The pulse of "Calibration 1": the power 0.9 split by position, both frequencies 0.5. */
  function Calibration1Pulse(position: real, sqrt: real -> real): (r: Pulse)
    requires IsSqrt(sqrt)
    ensures r.freqA == WAVE_FREQUENCY && r.freqB == WAVE_FREQUENCY
    ensures r.ampA == PositionalEffect(WAVE_POWER, position, 1.0, sqrt).a
    ensures r.ampB == PositionalEffect(WAVE_POWER, position, 1.0, sqrt).b
    ensures 0.0 <= position <= 1.0 ==>
              r.ampA * r.ampA + r.ampB * r.ampB == WAVE_POWER * WAVE_POWER &&
              0.0 <= r.ampA <= WAVE_POWER && 0.0 <= r.ampB <= WAVE_POWER
  {
    var amplitudes := PositionalEffect(WAVE_POWER, position, 1.0, sqrt);
    if 0.0 <= position <= 1.0 then
      PositionalEffectKeepsPower(WAVE_POWER, position, 1.0, sqrt);
      Pulse(amplitudes.a, amplitudes.b, WAVE_FREQUENCY, WAVE_FREQUENCY)
    else
      Pulse(amplitudes.a, amplitudes.b, WAVE_FREQUENCY, WAVE_FREQUENCY)
  }

  class Calibration1Activity {
    const displayName: string
    const timerManager: TimerManager<CalibrationAction>
    const waveManager: WaveManager<CalibrationAction>
    ghost const Repr: set<object>

    /** No timer is ever set, and the wave runs on at its fixed speed, never stopping or reaching a target. */
    ghost predicate Valid()
      reads this, Repr
    {
      Repr == {this, timerManager, waveManager} + waveManager.Repr &&
      timerManager.Valid() && waveManager.Valid() &&
      timerManager.timers == map[] && timerManager.order == [] &&
      "calibration" in waveManager.waves &&
      waveManager.stopTargetCycle == None && waveManager.stopCallback == None && !waveManager.isStopped &&
      waveManager.baseSpeed.onReached == None && !waveManager.baseSpeed.IsTransitioning() &&
      waveManager.baseSpeed.Current() == WAVE_SPEED
    }

    constructor ()
      ensures Valid() && fresh(Repr)
      ensures displayName == "Calibration 1"
      ensures waveManager.baseSpeed.Current() == WAVE_SPEED
    {
      displayName := "Calibration 1";
      timerManager := new TimerManager();
      var manager := NewCalibrationWaveManager();
      waveManager := manager;
      Repr := {this, timerManager, manager} + manager.Repr;
    }

    /** The contract of `RunSimulation` as one predicate of the states before and after, for the host to pass on. */
    twostate predicate Stepped(delta: real, rng: Rng)
      reads this, Repr, rng
    {
      old(Valid()) && Valid() && rng.Valid() &&
      waveManager.Moved(delta)
    }

    /**
     * `runSimulation`: the (empty) timers, then the wave, which hands back
     * no callback: its clock moves on at the fixed speed.
     */
    method RunSimulation(delta: real, rng: Rng)
      requires Valid() && rng.Valid() && delta >= 0.0
      modifies Repr, rng
      ensures Valid()
      ensures waveManager.Moved(delta)
      ensures Stepped(delta, rng)
    {
      var expired := timerManager.Update(delta);
      assert expired == [];
      waveManager.Update(delta, rng);
    }

    /** `getPulse`: the wave position sweeps the power between the channels. */
    function GetPulse(sqrt: real -> real): (r: Pulse)
      requires Valid() && IsSqrt(sqrt)
      reads this, Repr
      ensures r == Calibration1Pulse(waveManager.GetPosition("calibration", true).value, sqrt)
      ensures r.freqA == WAVE_FREQUENCY && r.freqB == WAVE_FREQUENCY
    {
      Calibration1Pulse(waveManager.GetPosition("calibration", true).value, sqrt)
    }
  }

  /** The phases of "Calibration 2", in order. */
  datatype Phase = CHANNEL_A | CHANNEL_B | BOTH

  function Ordinal(p: Phase): (n: nat)
    ensures n < 3
  {
    match p
    case CHANNEL_A => 0
    case CHANNEL_B => 1
    case BOTH => 2
  }

  /** `next()`: the following phase, wrapping from the last to the first. */
  function Next(p: Phase): (r: Phase)
    ensures Ordinal(r) == NextOrdinal(Ordinal(p), 3)
  {
    match p
    case CHANNEL_A => CHANNEL_B
    case CHANNEL_B => BOTH
    case BOTH => CHANNEL_A
  }

  /** Three phase changes come back to the same phase, and fewer do not. */
  lemma PhasesCycle(p: Phase)
    ensures Next(Next(Next(p))) == p
    ensures Next(p) != p && Next(Next(p)) != p
  {
  }

  /**
   * The pulse of "Calibration 2": both frequencies follow the wave; channel
   * A is driven at 0.9 except in the channel-B phase, and channel B except
   * in the channel-A phase.
   */
  function Calibration2Pulse(phase: Phase, position: real): (r: Pulse)
    ensures r.freqA == position && r.freqB == position
    ensures r.ampA > 0.0 <==> phase != CHANNEL_B
    ensures r.ampB > 0.0 <==> phase != CHANNEL_A
    ensures r.ampA == 0.0 || r.ampA == WAVE_POWER
    ensures r.ampB == 0.0 || r.ampB == WAVE_POWER
  {
    Pulse(if phase == CHANNEL_B then 0.0 else WAVE_POWER,
          if phase == CHANNEL_A then 0.0 else WAVE_POWER,
          position, position)
  }

  class Calibration2Activity {
    const displayName: string
    const timerManager: TimerManager<CalibrationAction>
    const waveManager: WaveManager<CalibrationAction>
    var currentPhase: Phase
    ghost const Repr: set<object>

    /**
     * All but the presence of the phase timer: it is the only timer, and it
     * lasts 16 seconds; the wave never stops or reaches a target.
     */
    ghost predicate Inner()
      reads this, Repr
    {
      Repr == {this, timerManager, waveManager} + waveManager.Repr &&
      timerManager.Valid() && waveManager.Valid() &&
      (forall k | k in timerManager.timers ::
         k == "nextPhase" && timerManager.timers[k].callback == NextPhase &&
         timerManager.timers[k].initialDuration == PHASE_CHANGE_SECS) &&
      "calibration" in waveManager.waves &&
      waveManager.stopTargetCycle == None && waveManager.stopCallback == None && !waveManager.isStopped &&
      waveManager.baseSpeed.onReached == None
    }

    /** The phase timer is always running. */
    ghost predicate Valid()
      reads this, Repr
    {
      Inner() && "nextPhase" in timerManager.timers
    }

    constructor ()
      ensures Valid() && fresh(Repr)
      ensures displayName == "Calibration 2"
      ensures currentPhase == CHANNEL_A && timerManager.timers["nextPhase"].remainingTime == PHASE_CHANGE_SECS
    {
      displayName := "Calibration 2";
      timerManager := new TimerManager();
      var manager := NewCalibrationWaveManager();
      waveManager := manager;
      currentPhase := CHANNEL_A;
      Repr := {this, timerManager, manager} + manager.Repr;
      new;
      var immediate := timerManager.AddTimer("nextPhase", PHASE_CHANGE_SECS, NextPhase);
    }

    /** `nextPhase`: move to the following phase and run the timer again from 16 seconds. */
    method NextPhaseStep()
      requires Inner()
      modifies this, timerManager
      ensures Valid()
      ensures currentPhase == Next(old(currentPhase))
      ensures timerManager.timers["nextPhase"].remainingTime == PHASE_CHANGE_SECS
      ensures unchanged(waveManager)
    {
      currentPhase := Next(currentPhase);
      var immediate := timerManager.AddTimer("nextPhase", PHASE_CHANGE_SECS, NextPhase);
    }

    /** The contract of `RunSimulation` as one predicate of the states before and after, for the host to pass on. */
    twostate predicate Stepped(delta: real, rng: Rng)
      reads this, Repr, rng
    {
      old(Valid()) && Valid() && rng.Valid() &&
      waveManager.Moved(delta) &&
      (old(timerManager.timers["nextPhase"].remainingTime) - delta <= 0.0 ==>
         currentPhase == Next(old(currentPhase)) &&
         timerManager.timers["nextPhase"].remainingTime == PHASE_CHANGE_SECS) &&
      (old(timerManager.timers["nextPhase"].remainingTime) - delta > 0.0 ==>
         currentPhase == old(currentPhase) &&
         timerManager.timers["nextPhase"].remainingTime == old(timerManager.timers["nextPhase"].remainingTime) - delta)
    }

    /**
     * `runSimulation`: the phase timer counts down; the step that ends it
     * moves to the next phase and restarts it, and any other step keeps the
     * phase. Then the wave, which hands back no callback: its clock moves on.
     */
    method RunSimulation(delta: real, rng: Rng)
      requires Valid() && rng.Valid() && delta >= 0.0
      modifies Repr, rng
      ensures Valid()
      ensures waveManager.Moved(delta)
      ensures old(timerManager.timers["nextPhase"].remainingTime) - delta <= 0.0 ==>
                currentPhase == Next(old(currentPhase)) &&
                timerManager.timers["nextPhase"].remainingTime == PHASE_CHANGE_SECS
      ensures old(timerManager.timers["nextPhase"].remainingTime) - delta > 0.0 ==>
                currentPhase == old(currentPhase) &&
                timerManager.timers["nextPhase"].remainingTime == old(timerManager.timers["nextPhase"].remainingTime) - delta
      ensures Stepped(delta, rng)
    {
      RunTimers(delta);
      waveManager.Update(delta, rng);
    }

    /** The base `runSimulation`: each timer present at the start is stepped, and a callback runs as its timer ends. */
    method RunTimers(delta: real)
      requires Valid() && delta >= 0.0
      modifies this, timerManager
      ensures Valid()
      ensures old(timerManager.timers["nextPhase"].remainingTime) - delta <= 0.0 ==>
                currentPhase == Next(old(currentPhase)) &&
                timerManager.timers["nextPhase"].remainingTime == PHASE_CHANGE_SECS
      ensures old(timerManager.timers["nextPhase"].remainingTime) - delta > 0.0 ==>
                currentPhase == old(currentPhase) &&
                timerManager.timers["nextPhase"].remainingTime == old(timerManager.timers["nextPhase"].remainingTime) - delta
    {
      var keys := timerManager.Snapshot();
      ghost var remaining := timerManager.timers["nextPhase"].remainingTime;
      ghost var phase := currentPhase;
      // the one place of the phase timer among the keys
      ghost var p :| 0 <= p < |keys| && keys[p] == "nextPhase";
      var i := 0;
      while i < |keys|
        invariant 0 <= i <= |keys|
        invariant Valid()
        invariant i <= p ==>
                    currentPhase == phase && timerManager.timers["nextPhase"].remainingTime == remaining
        invariant i > p && remaining - delta <= 0.0 ==>
                    currentPhase == Next(phase) && timerManager.timers["nextPhase"].remainingTime == PHASE_CHANGE_SECS
        invariant i > p && remaining - delta > 0.0 ==>
                    currentPhase == phase && timerManager.timers["nextPhase"].remainingTime == remaining - delta
      {
        assert i != p ==> keys[i] != "nextPhase";
        var fired := timerManager.Tick(keys[i], delta);
        if fired.Some? {
          NextPhaseStep();
        }
        i := i + 1;
      }
    }

    /** `getPulse`: the wave position as both frequencies, the channels driven by phase. */
    function GetPulse(): (r: Pulse)
      requires Valid()
      reads this, Repr
      ensures r == Calibration2Pulse(currentPhase, waveManager.GetPosition("calibration", true).value)
      ensures r.ampA > 0.0 <==> currentPhase != CHANNEL_B
      ensures r.ampB > 0.0 <==> currentPhase != CHANNEL_A
    {
      Calibration2Pulse(currentPhase, waveManager.GetPosition("calibration", true).value)
    }
  }
}
