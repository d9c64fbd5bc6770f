/**
 * "Additive": two wave managers each run one random wave at their own
 * speed; each of the four outputs is its own fixed mix of the two
 * positions. The mixes are redrawn every 10 to 50 seconds, sometimes with
 * new wave shapes, and one of the two speeds changes every 10 to 30
 * seconds.
 */
module Additive {
  import opened Wrappers
  import opened Numeric
  import opened Utils
  import opened Random
  import opened Timers
  import opened CyclicalWaves
  import opened Pulses

  /** The callbacks: the speed change and the proportion change. */
  datatype AdditiveAction = SpeedChange | ProportionChange

  const SPEED_MIN: real := 0.05
  const SPEED_MAX: real := 3.0
  const SPEED_CHANGE_RATE_MIN: real := 0.03
  const SPEED_CHANGE_RATE_MAX: real := 0.2
  const WAVE_SHAPE_CHANGE_PROBABILITY: real := 0.3

  /** The random wave: from 0 at the start of the cycle up to 0.9 at `point`. */
  function RandomWaveShape(point: real): (shape: WaveShape)
    requires 0.0 < point < 1.0
    ensures ValidShape(shape) && shape.name == "main"
  {
    WaveShape("main", [WavePoint(0.0, 0.0, 0.0), WavePoint(point, 0.9, 0.0)], HERMITE)
  }

  /** `randomWave`: the peak at a point in [0.01, 0.99). */
  method RandomWave(rng: Rng) returns (wave: CyclicalWave)
    requires rng.Valid()
    modifies rng
    ensures fresh(wave) && wave.Valid() && wave.Name() == "main"
    ensures wave.shape == RandomWaveShape(Uniform(0.01, 0.99, rng.source(old(rng.next))))
    ensures 0.01 <= wave.shape.points[1].time < 0.99
    ensures rng.next == old(rng.next) + 1
  {
    var point := rng.InRange(0.01, 0.99);
    wave := new CyclicalWave(RandomWaveShape(point));
  }

  /**
   * One output: `pos1 * proportion + pos2 * (1 - proportion)`. A
   * proportion in [0, 1] keeps it between the two positions; 1 gives the
   * first and 0 the second.
   */
  function Mix(pos1: real, pos2: real, proportion: real): (r: real)
    ensures proportion == 1.0 ==> r == pos1
    ensures proportion == 0.0 ==> r == pos2
    ensures 0.0 <= proportion <= 1.0 ==> Min(pos1, pos2) <= r <= Max(pos1, pos2)
    ensures pos1 == pos2 ==> r == pos1
  {
    assert pos1 * proportion + pos2 * (1.0 - proportion) == pos2 + (pos1 - pos2) * proportion;
    if pos1 == pos2 then
      ZeroProduct(pos1 - pos2, proportion);
      pos1 * proportion + pos2 * (1.0 - proportion)
    else if 0.0 <= proportion <= 1.0 then
      LerpMonotone(pos2, pos1, 0.0, proportion);
      LerpMonotone(pos2, pos1, proportion, 1.0);
      pos1 * proportion + pos2 * (1.0 - proportion)
    else
      pos1 * proportion + pos2 * (1.0 - proportion)
  }

  /** Mixing the other way round with the complementary proportion gives the same output. */
  lemma MixSymmetric(pos1: real, pos2: real, proportion: real)
    ensures Mix(pos1, pos2, proportion) == Mix(pos2, pos1, 1.0 - proportion)
  {
  }

  /** The pulse: each output its own mix of the two positions. */
  function AdditivePulse(pos1: real, pos2: real, proportionA: real, proportionB: real,
                         proportionFreqA: real, proportionFreqB: real): (r: Pulse)
    ensures r == Pulse(Mix(pos1, pos2, proportionA), Mix(pos1, pos2, proportionB),
                       Mix(pos1, pos2, proportionFreqA), Mix(pos1, pos2, proportionFreqB))
    ensures pos1 == pos2 ==> r == Pulse(pos1, pos1, pos1, pos1)
  {
    Pulse(Mix(pos1, pos2, proportionA), Mix(pos1, pos2, proportionB),
          Mix(pos1, pos2, proportionFreqA), Mix(pos1, pos2, proportionFreqB))
  }

  /** A manager running one random wave, with no stop ever set. */
  method NewAdditiveWaveManager(rng: Rng) returns (manager: WaveManager<AdditiveAction>)
    requires rng.Valid()
    modifies rng
    ensures manager.Valid() && fresh(manager.Repr) && "main" in manager.waves
    ensures manager.stopTargetCycle == None && manager.stopCallback == None && !manager.isStopped
    ensures manager.baseSpeed.onReached == None
    ensures manager.waves.Keys == {"main"}
    ensures manager.waves["main"].shape == RandomWaveShape(Uniform(0.01, 0.99, rng.source(old(rng.next))))
    ensures rng.next == old(rng.next) + 1
  {
    manager := new WaveManager();
    var wave := RandomWave(rng);
    manager.AddWave(wave, None);
  }

  /** How many draws the wave roll from `n` on takes: a second one, for the peak, when the first is below 0.3. */
  function WaveDraws(source: nat -> real, n: nat): (r: nat)
    ensures r == 1 || r == 2
  {
    if source(n) < WAVE_SHAPE_CHANGE_PROBABILITY then 2 else 1
  }

  /**
   * The wave roll from `n` on, seen on a manager whose waves were
   * `before`: below 0.3 the "main" wave is replaced by a random one peaking
   * at the next draw; otherwise the waves stay.
   */
  ghost predicate WaveRolled(manager: WaveManager<AdditiveAction>, before: map<string, CyclicalWave>,
                             source: nat -> real, n: nat)
    requires DrawsInUnit(source)
    reads manager
  {
    if source(n) < WAVE_SHAPE_CHANGE_PROBABILITY then
      "main" in manager.waves && manager.waves == before["main" := manager.waves["main"]] &&
      manager.waves["main"].shape == RandomWaveShape(Uniform(0.01, 0.99, source(n + 1)))
    else
      manager.waves == before
  }

  /** `if (nextDouble() < 0.3) manager.addWave(randomWave())`: sometimes a new "main" wave. */
  method MaybeReplaceWave(manager: WaveManager<AdditiveAction>, rng: Rng)
    requires manager.Valid() && rng.Valid()
    modifies manager, rng
    ensures manager.Valid()
    ensures WaveRolled(manager, old(manager.waves), rng.source, old(rng.next))
    ensures rng.next == old(rng.next) + WaveDraws(rng.source, old(rng.next))
    ensures manager.stopTargetCycle == old(manager.stopTargetCycle) && manager.stopCallback == old(manager.stopCallback)
    ensures manager.isStopped == old(manager.isStopped) && manager.currentTime == old(manager.currentTime)
    ensures manager.lastCycle == old(manager.lastCycle) && manager.baseAmplitude == old(manager.baseAmplitude)
  {
    var u := rng.NextDouble();
    if u < WAVE_SHAPE_CHANGE_PROBABILITY {
      var wave := RandomWave(rng);
      manager.AddWave(wave, None);
    }
  }

  /** A manager that never stops and hands back no callback. */
  ghost predicate Quiet(manager: WaveManager<AdditiveAction>)
    reads manager, manager.baseSpeed
  {
    manager.stopTargetCycle == None && manager.stopCallback == None && !manager.isStopped &&
    manager.baseSpeed.onReached == None && "main" in manager.waves
  }

  /**
   * The two managers, each with its own random wave and a starting speed in
   * [0.05, 3), drawn in the order: first wave, second wave, first speed,
   * second speed.
   */
  method NewAdditiveWaveManagers(rng: Rng) returns (first: WaveManager<AdditiveAction>, second: WaveManager<AdditiveAction>)
    requires rng.Valid()
    modifies rng
    ensures first.Valid() && fresh(first.Repr) && Quiet(first)
    ensures second.Valid() && fresh(second.Repr) && Quiet(second)
    ensures first.Repr !! second.Repr
    ensures first.waves.Keys == {"main"} && second.waves.Keys == {"main"}
    ensures first.waves["main"].shape == RandomWaveShape(Uniform(0.01, 0.99, rng.source(old(rng.next))))
    ensures second.waves["main"].shape == RandomWaveShape(Uniform(0.01, 0.99, rng.source(old(rng.next) + 1)))
    ensures first.baseSpeed.Current() == Uniform(SPEED_MIN, SPEED_MAX, rng.source(old(rng.next) + 2))
    ensures second.baseSpeed.Current() == Uniform(SPEED_MIN, SPEED_MAX, rng.source(old(rng.next) + 3))
    ensures !first.baseSpeed.IsTransitioning() && !second.baseSpeed.IsTransitioning()
    ensures SPEED_MIN <= first.baseSpeed.Current() < SPEED_MAX && SPEED_MIN <= second.baseSpeed.Current() < SPEED_MAX
    ensures rng.next == old(rng.next) + 4
  {
    first := NewAdditiveWaveManager(rng);
    second := NewAdditiveWaveManager(rng);
    var speed1 := rng.InRange(SPEED_MIN, SPEED_MAX);
    first.SetSpeed(speed1);
    var speed2 := rng.InRange(SPEED_MIN, SPEED_MAX);
    second.SetSpeed(speed2);
  }

  type ManagerState = (map<string, CyclicalWave>, real, real, int, bool, Option<real>, Option<AdditiveAction>)

  /** A manager's fields, as a value. */
  ghost function StateOf(manager: WaveManager<AdditiveAction>): ManagerState
    reads manager
  {
    (manager.waves, manager.currentTime, manager.baseAmplitude, manager.lastCycle,
     manager.isStopped, manager.stopTargetCycle, manager.stopCallback)
  }

  /** Whether the timer `key` is set and a step of `delta` ends it. */
  predicate Due(timers: map<string, Timer<AdditiveAction>>, key: string, delta: real)
  {
    key in timers && Ends(timers[key], delta)
  }

  /** The timer key each callback belongs to. */
  function TimerKey(action: AdditiveAction): string
  {
    match action
    case SpeedChange => "speedChange"
    case ProportionChange => "proportionChange"
  }

  /** The timers the activity sets: the two changes, each under its own key. */
  predicate Table(timers: map<string, Timer<AdditiveAction>>)
  {
    forall k | k in timers :: k == TimerKey(timers[k].callback)
  }

  class AdditiveActivity {
    const displayName: string
    const timerManager: TimerManager<AdditiveAction>
    const waveManager: WaveManager<AdditiveAction>
    const waveManager2: WaveManager<AdditiveAction>
    var proportionA: real
    var proportionB: real
    var proportionFreqA: real
    var proportionFreqB: real
    ghost const Repr: set<object>

    /** The proportions stay in [0, 1]; the only timers are the two changes, each with its own callback. */
    ghost predicate Valid()
      reads this, Repr
    {
      Repr == {this, timerManager, waveManager, waveManager2} + waveManager.Repr + waveManager2.Repr &&
      waveManager.Repr !! waveManager2.Repr &&
      timerManager !in waveManager.Repr && timerManager !in waveManager2.Repr &&
      timerManager.Valid() && waveManager.Valid() && waveManager2.Valid() &&
      Quiet(waveManager) && Quiet(waveManager2) &&
      Table(timerManager.timers) &&
      0.0 <= proportionA <= 1.0 && 0.0 <= proportionB <= 1.0 &&
      0.0 <= proportionFreqA <= 1.0 && 0.0 <= proportionFreqB <= 1.0
    }

    /** The state of the two speeds. */
    ghost function Speeds(): (real, real, real, real, Option<AdditiveAction>, real, real, real, real, Option<AdditiveAction>)
      reads waveManager.baseSpeed, waveManager2.baseSpeed
    {
      var s1, s2 := waveManager.baseSpeed, waveManager2.baseSpeed;
      (s1.start, s1.target, s1.elapsed, s1.duration, s1.onReached,
       s2.start, s2.target, s2.elapsed, s2.duration, s2.onReached)
    }

    /** The proportions and the state of both managers' clocks and waves. */
    ghost function Scene(): (real, real, real, real, ManagerState, ManagerState)
      reads this, waveManager, waveManager2
    {
      (proportionA, proportionB, proportionFreqA, proportionFreqB, StateOf(waveManager), StateOf(waveManager2))
    }

    /**
     * The speeds after `speedChange` with the draws from `n` on: a coin
     * toss picks the manager, which eases from its current speed to a speed
     * in [0.05, 3) at a rate in [0.03, 0.2) while the other keeps its
     * speed; the delay to the next change is the fourth draw.
     */
    twostate predicate SpeedRetargeted(rng: Rng, n: nat)
      requires rng.Valid()
      reads waveManager.baseSpeed, waveManager2.baseSpeed
    {
      var speed := Uniform(SPEED_MIN, SPEED_MAX, rng.source(n + 1));
      var rate := Uniform(SPEED_CHANGE_RATE_MIN, SPEED_CHANGE_RATE_MAX, rng.source(n + 2));
      (rng.source(n) < 0.5 ==>
         waveManager.baseSpeed.Retargeted(speed, Some(rate), None, None, None) && unchanged(waveManager2.baseSpeed)) &&
      (rng.source(n) >= 0.5 ==>
         waveManager2.baseSpeed.Retargeted(speed, Some(rate), None, None, None) && unchanged(waveManager.baseSpeed))
    }

    /** `speedChange` with the draws from `n` on: the speeds are retargeted and the next change is due after [10, 30) seconds. */
    twostate predicate SpeedChanged(rng: Rng, n: nat)
      requires rng.Valid()
      reads timerManager, waveManager.baseSpeed, waveManager2.baseSpeed, rng
    {
      var next := Uniform(10.0, 30.0, rng.source(n + 3));
      SpeedRetargeted(rng, n) && rng.next == n + 4 &&
      timerManager.timers == old(timerManager.timers)["speedChange" := Timer(next, next, SpeedChange)]
    }

    /**
     * The mix after `proportionChange` with the draws from `n` on: the four
     * proportions are the next four draws; the fifth is the delay to the
     * next change; then each manager in turn may get a new wave.
     */
    twostate predicate Redrawn(rng: Rng, n: nat)
      requires rng.Valid()
      reads this, waveManager, waveManager2, rng
    {
      proportionA == rng.source(n) && proportionB == rng.source(n + 1) &&
      proportionFreqA == rng.source(n + 2) && proportionFreqB == rng.source(n + 3) &&
      WavesRolled(rng, n + 5)
    }

    /** `proportionChange` with the draws from `n` on: the mix is redrawn and the next change is due after [10, 50) seconds. */
    twostate predicate ProportionsChanged(rng: Rng, n: nat)
      requires rng.Valid()
      reads this, timerManager, waveManager, waveManager2, rng
    {
      var next := Uniform(10.0, 50.0, rng.source(n + 4));
      Redrawn(rng, n) &&
      timerManager.timers == old(timerManager.timers)["proportionChange" := Timer(next, next, ProportionChange)]
    }

    /**
     * The wave rolls from `n` on: the first manager's, then the second's
     * from the draw after it, and the draws they took.
     */
    twostate predicate WavesRolled(rng: Rng, n: nat)
      requires rng.Valid()
      reads waveManager, waveManager2, rng
    {
      var m := n + WaveDraws(rng.source, n);
      WaveRolled(waveManager, old(waveManager.waves), rng.source, n) &&
      WaveRolled(waveManager2, old(waveManager2.waves), rng.source, m) &&
      rng.next == m + WaveDraws(rng.source, m)
    }

    /**
     * The first part of `init`: the four proportions, the two random waves
     * and the two starting speeds are drawn in that order; no timer is set
     * yet.
     */
    constructor (rng: Rng)
      requires rng.Valid()
      modifies rng
      ensures Valid() && fresh(Repr)
      ensures displayName == "Additive"
      ensures proportionA == rng.source(old(rng.next)) && proportionB == rng.source(old(rng.next) + 1)
      ensures proportionFreqA == rng.source(old(rng.next) + 2) && proportionFreqB == rng.source(old(rng.next) + 3)
      ensures waveManager.waves["main"].shape == RandomWaveShape(Uniform(0.01, 0.99, rng.source(old(rng.next) + 4)))
      ensures waveManager2.waves["main"].shape == RandomWaveShape(Uniform(0.01, 0.99, rng.source(old(rng.next) + 5)))
      ensures waveManager.baseSpeed.Current() == Uniform(SPEED_MIN, SPEED_MAX, rng.source(old(rng.next) + 6))
      ensures waveManager2.baseSpeed.Current() == Uniform(SPEED_MIN, SPEED_MAX, rng.source(old(rng.next) + 7))
      ensures rng.next == old(rng.next) + 8
      ensures timerManager.timers == map[]
    {
      displayName := "Additive";
      var pA, pB, pfA, pfB := DrawProportions(rng);
      proportionA, proportionB, proportionFreqA, proportionFreqB := pA, pB, pfA, pfB;
      var first, second := NewAdditiveWaveManagers(rng);
      waveManager, waveManager2 := first, second;
      timerManager := new TimerManager();
      Repr := {this, timerManager, first, second} + first.Repr + second.Repr;
      new;
      assert fresh(Repr);
    }

    /** `speedChange`. */
    method SpeedChangeStep(rng: Rng)
      requires Valid() && rng.Valid()
      modifies timerManager, waveManager.baseSpeed, waveManager2.baseSpeed, rng
      ensures Valid() && SpeedChanged(rng, old(rng.next))
      ensures rng.source(old(rng.next)) < 0.5 ==> SPEED_MIN <= waveManager.baseSpeed.target < SPEED_MAX
      ensures rng.source(old(rng.next)) >= 0.5 ==> SPEED_MIN <= waveManager2.baseSpeed.target < SPEED_MAX
      ensures 10.0 <= timerManager.timers["speedChange"].initialDuration < 30.0
    {
      var nextSpeedChangeSecs := Retarget(rng);
      var immediate := timerManager.AddTimer("speedChange", nextSpeedChangeSecs, SpeedChange);
    }

    /** The draws of a speed change: one manager eases to its new speed; the delay to the next change is returned. */
    method Retarget(rng: Rng) returns (secs: real)
      requires Valid() && rng.Valid()
      modifies waveManager.baseSpeed, waveManager2.baseSpeed, rng
      ensures Valid() && SpeedRetargeted(rng, old(rng.next)) && rng.next == old(rng.next) + 4
      ensures secs == Uniform(10.0, 30.0, rng.source(old(rng.next) + 3)) && 10.0 <= secs < 30.0
      ensures rng.source(old(rng.next)) < 0.5 ==> SPEED_MIN <= waveManager.baseSpeed.target < SPEED_MAX
      ensures rng.source(old(rng.next)) >= 0.5 ==> SPEED_MIN <= waveManager2.baseSpeed.target < SPEED_MAX
    {
      var useFirst, newSpeed, changeRate;
      useFirst, newSpeed, changeRate, secs := DrawSpeedChange(rng);
      if useFirst {
        var fired := waveManager.SetTargetSpeed(newSpeed, changeRate, None);
      } else {
        var fired := waveManager2.SetTargetSpeed(newSpeed, changeRate, None);
      }
    }

    /** `proportionChange`; the speeds and the clocks are left alone. */
    method ProportionChangeStep(rng: Rng)
      requires Valid() && rng.Valid()
      modifies this, timerManager, waveManager, waveManager2, rng
      ensures Valid() && ProportionsChanged(rng, old(rng.next))
      ensures 10.0 <= timerManager.timers["proportionChange"].initialDuration < 50.0
      ensures waveManager.currentTime == old(waveManager.currentTime) &&
              waveManager2.currentTime == old(waveManager2.currentTime)
      ensures waveManager.lastCycle == old(waveManager.lastCycle) && waveManager2.lastCycle == old(waveManager2.lastCycle)
    {
      var nextProportionChangeSecs := Redraw(rng);
      var immediate := timerManager.AddTimer("proportionChange", nextProportionChangeSecs, ProportionChange);
    }

    /**
     * The draws of `proportionChange`, in order: the four proportions, the
     * delay to the next change, then each manager's wave roll.
     */
    method Redraw(rng: Rng) returns (nextProportionChangeSecs: real)
      requires Valid() && rng.Valid()
      modifies this, waveManager, waveManager2, rng
      ensures Valid()
      ensures Redrawn(rng, old(rng.next))
      ensures nextProportionChangeSecs == Uniform(10.0, 50.0, rng.source(old(rng.next) + 4))
      ensures 10.0 <= nextProportionChangeSecs < 50.0
      ensures waveManager.currentTime == old(waveManager.currentTime) &&
              waveManager2.currentTime == old(waveManager2.currentTime)
      ensures waveManager.lastCycle == old(waveManager.lastCycle) && waveManager2.lastCycle == old(waveManager2.lastCycle)
    {
      var pA, pB, pfA, pfB, secs := DrawProportionChange(rng);
      SetProportions(pA, pB, pfA, pfB);
      RollWaves(rng);
      nextProportionChangeSecs := secs;
    }

    /** The four proportions take the given values, each in [0, 1]. */
    method SetProportions(pA: real, pB: real, pfA: real, pfB: real)
      requires Valid()
      requires 0.0 <= pA <= 1.0 && 0.0 <= pB <= 1.0 && 0.0 <= pfA <= 1.0 && 0.0 <= pfB <= 1.0
      modifies this
      ensures Valid()
      ensures proportionA == pA && proportionB == pB && proportionFreqA == pfA && proportionFreqB == pfB
    {
      proportionA, proportionB, proportionFreqA, proportionFreqB := pA, pB, pfA, pfB;
    }

    /** Each manager in turn may get a new random wave; nothing else changes. */
    method RollWaves(rng: Rng)
      requires Valid() && rng.Valid()
      modifies waveManager, waveManager2, rng
      ensures Valid()
      ensures WavesRolled(rng, old(rng.next))
      ensures waveManager.currentTime == old(waveManager.currentTime) &&
              waveManager2.currentTime == old(waveManager2.currentTime)
      ensures waveManager.lastCycle == old(waveManager.lastCycle) && waveManager2.lastCycle == old(waveManager2.lastCycle)
    {
      MaybeReplaceWaves(waveManager, waveManager2, rng);
    }

    /** Run a timer's callback. */
    method Dispatch(action: AdditiveAction, rng: Rng)
      requires Valid() && rng.Valid()
      modifies this, timerManager, waveManager, waveManager2, waveManager.baseSpeed, waveManager2.baseSpeed, rng
      ensures Valid()
      ensures action == SpeedChange ==> SpeedChanged(rng, old(rng.next)) && unchanged(this, waveManager, waveManager2)
      ensures action == ProportionChange ==>
                ProportionsChanged(rng, old(rng.next)) && unchanged(waveManager.baseSpeed, waveManager2.baseSpeed) &&
                waveManager.currentTime == old(waveManager.currentTime) &&
                waveManager2.currentTime == old(waveManager2.currentTime)
    {
      match action
      case SpeedChange => SpeedChangeStep(rng);
      case ProportionChange => ProportionChangeStep(rng);
    }

    /** The contract of `RunSimulation` as one predicate of the states before and after, for the host to pass on. */
    twostate predicate Stepped(delta: real, rng: Rng)
      reads this, Repr, rng
    {
      old(Valid()) && Valid() && rng.Valid() &&
      Ticked(old(timerManager.timers), timerManager.timers, delta) &&
      (!Due(old(timerManager.timers), "speedChange", delta) ==>
         waveManager.baseSpeed.Advanced(delta, None) && waveManager2.baseSpeed.Advanced(delta, None)) &&
      (!Due(old(timerManager.timers), "proportionChange", delta) ==>
         waveManager.Moved(delta) && waveManager2.Moved(delta) && proportionA == old(proportionA) &&
         proportionB == old(proportionB) && proportionFreqA == old(proportionFreqA) &&
         proportionFreqB == old(proportionFreqB))
    }

    /**
     * `runSimulation`: the timers, each callback run as its timer ends,
     * then both managers, which hand back nothing. A speed eases on alone
     * unless its change came due; a clock moves at its speed, with its
     * waves, unless the proportion change came due.
     */
    method RunSimulation(delta: real, rng: Rng)
      requires Valid() && rng.Valid() && delta >= 0.0
      modifies Repr, rng
      ensures Valid() && Ticked(old(timerManager.timers), timerManager.timers, delta)
      ensures !Due(old(timerManager.timers), "speedChange", delta) ==>
                waveManager.baseSpeed.Advanced(delta, None) && waveManager2.baseSpeed.Advanced(delta, None)
      ensures !Due(old(timerManager.timers), "proportionChange", delta) ==>
                waveManager.Moved(delta) && waveManager2.Moved(delta) &&
                proportionA == old(proportionA) && proportionB == old(proportionB) &&
                proportionFreqA == old(proportionFreqA) && proportionFreqB == old(proportionFreqB)
      ensures Stepped(delta, rng)
    {
      RunTimers(delta, rng);
      UpdateManagers(delta, rng);
    }

    /** Both managers' `update`, first then second: each speed eases on and each clock moves at its speed. */
    method UpdateManagers(delta: real, rng: Rng)
      requires Valid() && rng.Valid() && delta >= 0.0
      modifies waveManager.Repr, waveManager2.Repr, rng
      ensures Valid()
      ensures waveManager.baseSpeed.Advanced(delta, None) && waveManager.Moved(delta)
      ensures waveManager2.baseSpeed.Advanced(delta, None) && waveManager2.Moved(delta)
    {
      label Start:
      UpdateFirst(delta, rng);
      label First:
      UpdateSecond(delta, rng);
      assert waveManager.Moved@Start(delta) && waveManager2.Moved@First(delta);
      assert waveManager.baseSpeed.Advanced@Start(delta, None) && waveManager2.baseSpeed.Advanced@First(delta, None);
    }

    /** `waveManager.update`: its speed eases on and its clock moves; it never stops. */
    method UpdateFirst(delta: real, rng: Rng)
      requires Valid() && rng.Valid() && delta >= 0.0
      modifies waveManager.Repr, rng
      ensures Valid() && waveManager.baseSpeed.Advanced(delta, None) && waveManager.Moved(delta)
    {
      waveManager.Update(delta, rng);
    }

    /** `waveManager2.update`: its speed eases on and its clock moves; it never stops. */
    method UpdateSecond(delta: real, rng: Rng)
      requires Valid() && rng.Valid() && delta >= 0.0
      modifies waveManager2.Repr, rng
      ensures Valid() && waveManager2.baseSpeed.Advanced(delta, None) && waveManager2.Moved(delta)
    {
      waveManager2.Update(delta, rng);
    }

    /** The base `runSimulation`: each timer present at the start is stepped, and a callback runs as its timer ends. */
    method RunTimers(delta: real, rng: Rng)
      requires Valid() && rng.Valid() && delta >= 0.0
      modifies this, timerManager, waveManager, waveManager2, waveManager.baseSpeed, waveManager2.baseSpeed, rng
      ensures Valid() && Ticked(old(timerManager.timers), timerManager.timers, delta)
      ensures waveManager.currentTime == old(waveManager.currentTime) &&
              waveManager2.currentTime == old(waveManager2.currentTime)
      ensures !Due(old(timerManager.timers), "speedChange", delta) ==> Speeds() == old(Speeds())
      ensures !Due(old(timerManager.timers), "proportionChange", delta) ==> Scene() == old(Scene())
    {
      var keys := timerManager.Snapshot();
      ghost var start := timerManager.timers;
      ProgressStart(start, keys, delta);
      var i := 0;
      ghost var speedFired, proportionFired := false, false;
      while i < |keys|
        invariant Valid() && rng.Valid()
        invariant Progress(start, keys, i, timerManager.timers, delta)
        invariant waveManager.currentTime == old(waveManager.currentTime) &&
                  waveManager2.currentTime == old(waveManager2.currentTime)
        invariant speedFired ==> "speedChange" in start && Ends(start["speedChange"], delta)
        invariant proportionFired ==> "proportionChange" in start && Ends(start["proportionChange"], delta)
        invariant !speedFired ==> Speeds() == old(Speeds())
        invariant !proportionFired ==> Scene() == old(Scene())
      {
        ProgressAt(start, keys, i, timerManager.timers, delta);
        ghost var due := Ends(start[keys[i]], delta);
        Visit(keys, i, delta, rng, start);
        if due && keys[i] == "speedChange" {
          speedFired := true;
        } else if due && keys[i] == "proportionChange" {
          proportionFired := true;
        }
        i := i + 1;
      }
      assert keys[..|keys|] == keys;
      ProgressDone(start, keys, timerManager.timers, delta);
    }

    /** One visit of `RunTimers`' loop: `keys[i]` is stepped, and if that ends it, its callback runs. */
    method Visit(keys: seq<string>, i: nat, delta: real, rng: Rng, ghost start: map<string, Timer<AdditiveAction>>)
      requires Valid() && rng.Valid() && delta >= 0.0
      requires Progress(start, keys, i, timerManager.timers, delta) && i < |keys|
      modifies this, timerManager, waveManager, waveManager2, waveManager.baseSpeed, waveManager2.baseSpeed, rng
      ensures Valid()
      ensures Progress(start, keys, i + 1, timerManager.timers, delta)
      ensures waveManager.currentTime == old(waveManager.currentTime) &&
              waveManager2.currentTime == old(waveManager2.currentTime)
      ensures !(keys[i] == "speedChange" && Ends(start[keys[i]], delta)) ==>
                unchanged(waveManager.baseSpeed, waveManager2.baseSpeed)
      ensures !(keys[i] == "proportionChange" && Ends(start[keys[i]], delta)) ==>
                unchanged(this, waveManager, waveManager2)
    {
      ProgressAt(start, keys, i, timerManager.timers, delta);
      ghost var before := timerManager.timers;
      var fired := timerManager.Tick(keys[i], delta);
      ghost var mid := timerManager.timers;
      if fired.Some? {
        assert TimerKey(fired.value) == keys[i] && Ends(start[keys[i]], delta);
        Dispatch(fired.value, rng);
      }
      ProgressNext(start, keys, i, before, delta, mid, timerManager.timers);
    }

    /** `getPulse`: the outputs as mixes of the two managers' "main" positions. */
    function GetPulse(): (r: Pulse)
      requires Valid()
      reads this, Repr
      ensures r == AdditivePulse(waveManager.GetPosition("main", true).value, waveManager2.GetPosition("main", true).value,
                                 proportionA, proportionB, proportionFreqA, proportionFreqB)
      ensures var pos1 := waveManager.GetPosition("main", true).value;
              var pos2 := waveManager2.GetPosition("main", true).value;
              Min(pos1, pos2) <= r.ampA <= Max(pos1, pos2) && Min(pos1, pos2) <= r.ampB <= Max(pos1, pos2) &&
              Min(pos1, pos2) <= r.freqA <= Max(pos1, pos2) && Min(pos1, pos2) <= r.freqB <= Max(pos1, pos2)
    {
      AdditivePulse(waveManager.GetPosition("main", true).value, waveManager2.GetPosition("main", true).value,
                    proportionA, proportionB, proportionFreqA, proportionFreqB)
    }
  }

  /** `proportionChange`'s draws before the wave changes: the four proportions, then the seconds to the next change. */
  method DrawProportionChange(rng: Rng) returns (pA: real, pB: real, pfA: real, pfB: real, secs: real)
    requires rng.Valid()
    modifies rng
    ensures pA == rng.source(old(rng.next)) && pB == rng.source(old(rng.next) + 1)
    ensures pfA == rng.source(old(rng.next) + 2) && pfB == rng.source(old(rng.next) + 3)
    ensures secs == Uniform(10.0, 50.0, rng.source(old(rng.next) + 4)) && 10.0 <= secs < 50.0
    ensures rng.next == old(rng.next) + 5
  {
    pA, pB, pfA, pfB := DrawProportions(rng);
    secs := rng.InRange(10.0, 50.0);
  }

  /** Each manager in turn may get a new random wave. */
  method MaybeReplaceWaves(first: WaveManager<AdditiveAction>, second: WaveManager<AdditiveAction>, rng: Rng)
    requires first.Valid() && second.Valid() && rng.Valid() && first.Repr !! second.Repr
    requires Quiet(first) && Quiet(second)
    modifies first, second, rng
    ensures first.Valid() && second.Valid() && Quiet(first) && Quiet(second)
    ensures WaveRolled(first, old(first.waves), rng.source, old(rng.next))
    ensures var m := old(rng.next) + WaveDraws(rng.source, old(rng.next));
            WaveRolled(second, old(second.waves), rng.source, m) && rng.next == m + WaveDraws(rng.source, m)
    ensures first.currentTime == old(first.currentTime) && second.currentTime == old(second.currentTime)
    ensures first.lastCycle == old(first.lastCycle) && second.lastCycle == old(second.lastCycle)
  {
    MaybeReplaceWave(first, rng);
    MaybeReplaceWave(second, rng);
  }

  /** `speedChange`'s draws, in order: which manager, the new speed, the rate, the seconds to the next change. */
  method DrawSpeedChange(rng: Rng) returns (useFirst: bool, speed: real, rate: real, secs: real)
    requires rng.Valid()
    modifies rng
    ensures useFirst <==> rng.source(old(rng.next)) < 0.5
    ensures speed == Uniform(SPEED_MIN, SPEED_MAX, rng.source(old(rng.next) + 1))
    ensures rate == Uniform(SPEED_CHANGE_RATE_MIN, SPEED_CHANGE_RATE_MAX, rng.source(old(rng.next) + 2))
    ensures secs == Uniform(10.0, 30.0, rng.source(old(rng.next) + 3))
    ensures SPEED_MIN <= speed < SPEED_MAX && SPEED_CHANGE_RATE_MIN <= rate < SPEED_CHANGE_RATE_MAX
    ensures 10.0 <= secs < 30.0
    ensures rng.next == old(rng.next) + 4
  {
    useFirst := rng.NextBoolean();
    speed := rng.InRange(SPEED_MIN, SPEED_MAX);
    rate := rng.InRange(SPEED_CHANGE_RATE_MIN, SPEED_CHANGE_RATE_MAX);
    secs := rng.InRange(10.0, 30.0);
  }

  /** `proportionChange`'s first four draws, in order: A, B, frequency A, frequency B. */
  method DrawProportions(rng: Rng) returns (pA: real, pB: real, pfA: real, pfB: real)
    requires rng.Valid()
    modifies rng
    ensures pA == rng.source(old(rng.next)) && pB == rng.source(old(rng.next) + 1)
    ensures pfA == rng.source(old(rng.next) + 2) && pfB == rng.source(old(rng.next) + 3)
    ensures 0.0 <= pA < 1.0 && 0.0 <= pB < 1.0 && 0.0 <= pfA < 1.0 && 0.0 <= pfB < 1.0
    ensures rng.next == old(rng.next) + 4
  {
    pA := rng.InRange(0.0, 1.0);
    pB := rng.InRange(0.0, 1.0);
    pfA := rng.InRange(0.0, 1.0);
    pfB := rng.InRange(0.0, 1.0);
  }
}
