/**
 * "Fast/slow": one wave manager accelerates from 0.15 to 5 cycles a
 * second while a second one slows from 5 to 0.15 at the same rate, then
 * both turn round. Each channel's amplitude comes from one of the two; the
 * frequencies follow how far the first one has got. Now and then a
 * channel's wave shape changes, or the channels swap.
 */
module FastSlow {
  import opened Wrappers
  import opened Numeric
  import opened Utils
  import opened Random
  import opened Timers
  import opened CyclicalWaves
  import opened GeneratorWaves
  import opened Pulses

  /** The one callback: the first manager's speed reaching its target turns both round. */
  datatype FastSlowAction = NextIteration

  const MIN_SPEED: real := 0.15
  const MAX_SPEED: real := 5.0
  const SPEED_CHANGE_RATE_MIN: real := 0.1
  const SPEED_CHANGE_RATE_MAX: real := 0.3
  const SWITCH_PROBABILITY: real := 0.1
  const WAVE_SHAPE_CHANGE_PROBABILITY: real := 0.2

  /** The names of the four possible waves, in the order they are listed. */
  const WAVE_NAMES: seq<string> := ["sawtooth", "reverseSawtooth", "hermiteSawtooth", "hermiteReverseSawtooth"]

  const SAWTOOTH_SHAPE: WaveShape :=
    WaveShape("sawtooth", [WavePoint(0.0, 0.0, 0.0), WavePoint(1.0 - SMALL_AMOUNT, 0.9, 0.0)], LINEAR)
  const REVERSE_SAWTOOTH_SHAPE: WaveShape :=
    WaveShape("reverseSawtooth", [WavePoint(0.0, 0.9, 0.0), WavePoint(1.0 - SMALL_AMOUNT, 0.0, 0.0)], LINEAR)
  const HERMITE_SAWTOOTH_SHAPE: WaveShape :=
    WaveShape("hermiteSawtooth", [WavePoint(0.0, 0.0, 0.0), WavePoint(1.0 - SMALL_AMOUNT, 0.9, 0.0)], HERMITE)
  const HERMITE_REVERSE_SAWTOOTH_SHAPE: WaveShape :=
    WaveShape("hermiteReverseSawtooth", [WavePoint(0.0, 0.9, 0.0), WavePoint(1.0 - SMALL_AMOUNT, 0.0, 0.0)], HERMITE)

  /** How far a speed has got from the slowest to the fastest. */
  function SpeedPhase(speed: real): (r: real)
    ensures speed == MIN_SPEED ==> r == 0.0
    ensures speed == MAX_SPEED ==> r == 1.0
    ensures MIN_SPEED <= speed <= MAX_SPEED ==> 0.0 <= r <= 1.0
  {
    if MIN_SPEED <= speed <= MAX_SPEED then
      DivUnit(speed - MIN_SPEED, MAX_SPEED - MIN_SPEED);
      (speed - MIN_SPEED) / (MAX_SPEED - MIN_SPEED)
    else
      (speed - MIN_SPEED) / (MAX_SPEED - MIN_SPEED)
  }

  /**
   * The pulse: channel A's amplitude `posA` and B's `posB`, swapped when
   * `switched`; frequency B is the speed phase and frequency A its
   * complement, swapped when `freqSwitched`.
   */
  function FastSlowPulse(phase: real, posA: real, posB: real, switched: bool, freqSwitched: bool): (r: Pulse)
    ensures multiset{r.ampA, r.ampB} == multiset{posA, posB}
    ensures 0.0 <= phase <= 1.0 ==>
              r.freqA + r.freqB == 1.0 && 0.0 <= r.freqA <= 1.0 && 0.0 <= r.freqB <= 1.0 &&
              r.freqB == (if freqSwitched then 1.0 - phase else phase)
  {
    var freqA := ScaleBetween(1.0 - phase, 0.0, 1.0);
    var freqB := ScaleBetween(phase, 0.0, 1.0);
    if 0.0 <= phase <= 1.0 then
      ScaleBetweenEnds(phase, 0.0, 1.0);
      ScaleBetweenEnds(1.0 - phase, 0.0, 1.0);
      Pulse(if switched then posB else posA, if switched then posA else posB,
            if freqSwitched then freqB else freqA, if freqSwitched then freqA else freqB)
    else
      Pulse(if switched then posB else posA, if switched then posA else posB,
            if freqSwitched then freqB else freqA, if freqSwitched then freqA else freqB)
  }

  /** Flipping both switches swaps the two channels. */
  lemma SwitchingBothSwapsChannels(phase: real, posA: real, posB: real, switched: bool, freqSwitched: bool)
    ensures FastSlowPulse(phase, posA, posB, !switched, !freqSwitched) ==
            SwappedPulse(FastSlowPulse(phase, posA, posB, switched, freqSwitched))
  {
  }

  /** The 4.85 between the two speeds, covered at a rate in [0.1, 0.3), takes more than 16 seconds and at most 48.5. */
  lemma IterationDuration(rate: real)
    requires SPEED_CHANGE_RATE_MIN <= rate < SPEED_CHANGE_RATE_MAX
    ensures 16.0 < (MAX_SPEED - MIN_SPEED) / rate <= 48.5
  {
    var d := (MAX_SPEED - MIN_SPEED) / rate;
    assert d * rate == 4.85;
    assert d > 0.0;
    MulMonotone(0.1, rate, d);
    assert 0.1 * d <= 4.85;
    MulStrict(rate, 0.3, d);
    assert 4.85 < 0.3 * d;
  }

  /**
   * `if (nextDouble() < 0.2) wave = possibleWaves.random()`: with the
   * first draw below 0.2 the second picks one of the four waves; otherwise
   * the wave stays and only one draw is taken.
   */
  method MaybeChangeWave(current: nat, rng: Rng) returns (index: nat)
    requires rng.Valid() && current < |WAVE_NAMES|
    modifies rng
    ensures index < |WAVE_NAMES|
    ensures rng.source(old(rng.next)) < WAVE_SHAPE_CHANGE_PROBABILITY ==>
              index == PickIndex(rng.source(old(rng.next) + 1), 4) && rng.next == old(rng.next) + 2
    ensures rng.source(old(rng.next)) >= WAVE_SHAPE_CHANGE_PROBABILITY ==>
              index == current && rng.next == old(rng.next) + 1
    ensures (index, rng.next - old(rng.next)) == WaveDrawn(current, rng.source, old(rng.next))
  {
    var u := rng.NextDouble();
    index := current;
    if u < WAVE_SHAPE_CHANGE_PROBABILITY {
      index := rng.Pick(4);
    }
  }

  /** `if (nextDouble() < probability) b = !b`: one draw, which flips `b` when below the probability. */
  method MaybeToggle(b: bool, probability: real, rng: Rng) returns (r: bool)
    requires rng.Valid()
    modifies rng
    ensures r == (b != (rng.source(old(rng.next)) < probability))
    ensures rng.next == old(rng.next) + 1
  {
    var u := rng.NextDouble();
    r := if u < probability then !b else b;
  }

  /** One channel's wave-change draws from `n` on: the wave it then shows and how many draws that took. */
  ghost function WaveDrawn(current: nat, source: nat -> real, n: nat): (r: (nat, nat))
    requires DrawsInUnit(source) && current < |WAVE_NAMES|
    ensures r.0 < |WAVE_NAMES| && 1 <= r.1 <= 2
    ensures r.0 != current ==> source(n) < WAVE_SHAPE_CHANGE_PROBABILITY && r.1 == 2
  {
    if source(n) < WAVE_SHAPE_CHANGE_PROBABILITY then (PickIndex(source(n + 1), 4), 2) else (current, 1)
  }

  /** What the shape draws of `nextIteration` give: each channel's wave, the two switches, and how many draws were taken. */
  datatype ShapeDraw = ShapeDraw(waveTypeA: nat, waveTypeB: nat, switched: bool, freqSwitched: bool, draws: nat)

  /**
   * The shape draws from `n` on, in order: channel A's wave, channel B's,
   * the switch, the frequency switch; each switch flips when its draw is
   * below the switch probability.
   */
  ghost function ShapesDrawn(waveTypeA: nat, waveTypeB: nat, switched: bool, freqSwitched: bool,
                             source: nat -> real, n: nat): (r: ShapeDraw)
    requires DrawsInUnit(source) && waveTypeA < |WAVE_NAMES| && waveTypeB < |WAVE_NAMES|
    ensures r.waveTypeA < |WAVE_NAMES| && r.waveTypeB < |WAVE_NAMES|
    ensures 4 <= r.draws <= 6
    ensures r.switched == (switched != (source(n + r.draws - 2) < SWITCH_PROBABILITY))
    ensures r.freqSwitched == (freqSwitched != (source(n + r.draws - 1) < SWITCH_PROBABILITY))
  {
    var a := WaveDrawn(waveTypeA, source, n);
    var b := WaveDrawn(waveTypeB, source, n + a.1);
    var m := n + a.1 + b.1;
    ShapeDraw(a.0, b.0, switched != (source(m) < SWITCH_PROBABILITY),
              freqSwitched != (source(m + 1) < SWITCH_PROBABILITY), a.1 + b.1 + 2)
  }

  /** The wave and switch draws of `nextIteration`, in order: channel A's wave, channel B's, the switch, the frequency switch. */
  method NextShapes(waveTypeA: nat, waveTypeB: nat, switched: bool, freqSwitched: bool, rng: Rng)
    returns (a: nat, b: nat, s: bool, f: bool)
    requires rng.Valid() && waveTypeA < |WAVE_NAMES| && waveTypeB < |WAVE_NAMES|
    modifies rng
    ensures var d := ShapesDrawn(waveTypeA, waveTypeB, switched, freqSwitched, rng.source, old(rng.next));
            a == d.waveTypeA && b == d.waveTypeB && s == d.switched && f == d.freqSwitched &&
            rng.next == old(rng.next) + d.draws
  {
    ghost var n := rng.next;
    a := MaybeChangeWave(waveTypeA, rng);
    ghost var wa := WaveDrawn(waveTypeA, rng.source, n);
    b := MaybeChangeWave(waveTypeB, rng);
    ghost var wb := WaveDrawn(waveTypeB, rng.source, n + wa.1);
    ghost var m := rng.next;
    s := MaybeToggle(switched, SWITCH_PROBABILITY, rng);
    f := MaybeToggle(freqSwitched, SWITCH_PROBABILITY, rng);
    assert a == wa.0 && b == wb.0 && m == n + wa.1 + wb.1;
  }

  /** Every one of the four waves is in the manager. */
  ghost predicate HasAllWaves<A>(manager: WaveManager<A>)
    reads manager
  {
    forall i | 0 <= i < |WAVE_NAMES| :: WAVE_NAMES[i] in manager.waves
  }

  /** A manager holding all four waves, with no jitter. */
  method NewFastSlowWaveManager(sawtooth: CyclicalWave, reverseSawtooth: CyclicalWave,
                                hermiteSawtooth: CyclicalWave, hermiteReverseSawtooth: CyclicalWave)
    returns (manager: WaveManager<FastSlowAction>)
    requires sawtooth.Valid() && reverseSawtooth.Valid() && hermiteSawtooth.Valid() && hermiteReverseSawtooth.Valid()
    requires sawtooth.Name() == WAVE_NAMES[0] && reverseSawtooth.Name() == WAVE_NAMES[1]
    requires hermiteSawtooth.Name() == WAVE_NAMES[2] && hermiteReverseSawtooth.Name() == WAVE_NAMES[3]
    ensures manager.Valid() && fresh(manager.Repr) && HasAllWaves(manager)
    ensures manager.stopTargetCycle == None && manager.stopCallback == None && !manager.isStopped
    ensures manager.baseSpeed.start == 1.0 && manager.baseSpeed.target == 1.0 && manager.baseSpeed.onReached == None
    ensures manager.speedVarianceHandler.variance == 0.0 && manager.amplitudeVarianceHandler.variance == 0.0
    ensures manager.speedVarianceHandler.currentFactor == 1.0 && manager.speedVarianceHandler.previousFactor == 1.0
    ensures manager.amplitudeVarianceHandler.currentFactor == 1.0 && manager.amplitudeVarianceHandler.previousFactor == 1.0
  {
    manager := new WaveManager();
    manager.AddWave(sawtooth, None);
    manager.AddWave(reverseSawtooth, None);
    manager.AddWave(hermiteSawtooth, None);
    manager.AddWave(hermiteReverseSawtooth, None);
  }

  /** The four possible waves, shared by two managers. */
  method NewFastSlowWaveManagers() returns (first: WaveManager<FastSlowAction>, second: WaveManager<FastSlowAction>)
    ensures first.Valid() && fresh(first.Repr) && HasAllWaves(first) && Steady(first) && first.baseSpeed.onReached == None
    ensures second.Valid() && fresh(second.Repr) && HasAllWaves(second) && Steady(second) && second.baseSpeed.onReached == None
    ensures first.Repr !! second.Repr
  {
    var sawtooth := new CyclicalWave(SAWTOOTH_SHAPE);
    var reverseSawtooth := new CyclicalWave(REVERSE_SAWTOOTH_SHAPE);
    var hermiteSawtooth := new CyclicalWave(HERMITE_SAWTOOTH_SHAPE);
    var hermiteReverseSawtooth := new CyclicalWave(HERMITE_REVERSE_SAWTOOTH_SHAPE);
    first := NewFastSlowWaveManager(sawtooth, reverseSawtooth, hermiteSawtooth, hermiteReverseSawtooth);
    second := NewFastSlowWaveManager(sawtooth, reverseSawtooth, hermiteSawtooth, hermiteReverseSawtooth);
  }

  /** A manager that never stops, runs no jitter and keeps its speed between the two extremes. */
  ghost predicate Steady<A>(manager: WaveManager<A>)
    reads manager, manager.baseSpeed, manager.speedVarianceHandler, manager.amplitudeVarianceHandler
  {
    manager.stopTargetCycle == None && manager.stopCallback == None && !manager.isStopped &&
    manager.speedVarianceHandler.variance == 0.0 && manager.amplitudeVarianceHandler.variance == 0.0 &&
    manager.speedVarianceHandler.currentFactor == 1.0 && manager.speedVarianceHandler.previousFactor == 1.0 &&
    manager.amplitudeVarianceHandler.currentFactor == 1.0 && manager.amplitudeVarianceHandler.previousFactor == 1.0 &&
    MIN_SPEED <= manager.baseSpeed.start <= MAX_SPEED && MIN_SPEED <= manager.baseSpeed.target <= MAX_SPEED
  }

  class FastSlowActivity {
    const displayName: string
    const timerManager: TimerManager<FastSlowAction>
    const waveManager: WaveManager<FastSlowAction>
    const waveManager2: WaveManager<FastSlowAction>
    var accelerating: bool
    var switched: bool
    var freqSwitched: bool
    /** The index in `WAVE_NAMES` of channel A's wave and of channel B's. */
    var waveTypeA: nat
    var waveTypeB: nat
    ghost const Repr: set<object>

    /**
     * Both managers hold all four waves and stay steady; only the first
     * one's speed hands back a callback, the turn; no timers are used.
     */
    ghost predicate Valid()
      reads this, Repr
    {
      Repr == {this, timerManager, waveManager, waveManager2} + waveManager.Repr + waveManager2.Repr &&
      waveManager.Repr !! waveManager2.Repr &&
      timerManager.Valid() && waveManager.Valid() && waveManager2.Valid() &&
      timerManager.timers == map[] && timerManager.order == [] &&
      HasAllWaves(waveManager) && HasAllWaves(waveManager2) &&
      Steady(waveManager) && Steady(waveManager2) &&
      (waveManager.baseSpeed.onReached == None || waveManager.baseSpeed.onReached == Some(NextIteration)) &&
      waveManager2.baseSpeed.onReached == None &&
      waveTypeA < |WAVE_NAMES| && waveTypeB < |WAVE_NAMES|
    }

    /** The two switches are coin tosses; both managers get the four waves; then the first turn. */
    constructor (rng: Rng)
      requires rng.Valid()
      modifies rng
      ensures Valid() && fresh(Repr)
      ensures displayName == "Fast/slow" && accelerating
    {
      displayName := "Fast/slow";
      timerManager := new TimerManager();
      accelerating := false;
      var s := rng.NextBoolean();
      var f := rng.NextBoolean();
      switched, freqSwitched := s, f;
      var first, second := NewFastSlowWaveManagers();
      waveManager, waveManager2 := first, second;
      waveTypeA, waveTypeB := 0, 0;
      Repr := {this, timerManager, first, second} + first.Repr + second.Repr;
      new;
      assert fresh(Repr);
      NextIterationStep(rng);
    }

    /**
     * The speeds of an iteration at `rate`: the first manager eases from
     * one extreme to the other (up when `up`), handing back the turn on
     * arrival, while the second eases the other way over the same time,
     * `elapsed2` seconds into it.
     */
    ghost predicate Mirrored(up: bool, rate: real, elapsed2: real)
      reads waveManager.baseSpeed, waveManager2.baseSpeed
    {
      rate > 0.0 &&
      waveManager.baseSpeed.start == (if up then MIN_SPEED else MAX_SPEED) &&
      waveManager.baseSpeed.target == (if up then MAX_SPEED else MIN_SPEED) &&
      waveManager.baseSpeed.elapsed == 0.0 && waveManager.baseSpeed.duration == (MAX_SPEED - MIN_SPEED) / rate &&
      waveManager.baseSpeed.onReached == Some(NextIteration) &&
      waveManager2.baseSpeed.start == waveManager.baseSpeed.target &&
      waveManager2.baseSpeed.target == waveManager.baseSpeed.start &&
      waveManager2.baseSpeed.elapsed == elapsed2 && waveManager2.baseSpeed.duration == waveManager.baseSpeed.duration
    }

    /** The two channels' waves and the two switches are those of the draw `d`. */
    ghost predicate Shaped(d: ShapeDraw)
      reads this
    {
      waveTypeA == d.waveTypeA && waveTypeB == d.waveTypeB && switched == d.switched && freqSwitched == d.freqSwitched
    }

    /**
     * What `nextIteration` does with the draws from `n` on: the direction
     * flips, the speeds are mirrored at the rate drawn first (the second
     * manager `elapsed2` seconds on), then the shape draws follow.
     */
    twostate predicate Turned(source: nat -> real, n: nat, elapsed2: real)
      reads this, waveManager.baseSpeed, waveManager2.baseSpeed
    {
      DrawsInUnit(source) && old(waveTypeA) < |WAVE_NAMES| && old(waveTypeB) < |WAVE_NAMES| &&
      accelerating == !old(accelerating) &&
      Mirrored(accelerating, Uniform(SPEED_CHANGE_RATE_MIN, SPEED_CHANGE_RATE_MAX, source(n)), elapsed2) &&
      Shaped(ShapesDrawn(old(waveTypeA), old(waveTypeB), old(switched), old(freqSwitched), source, n + 1))
    }

    /**
     * `nextIteration`: the direction flips; the first manager jumps to the
     * start speed and eases to the other extreme, turning round again when
     * it gets there, while the second does the opposite at the same rate.
     * Then each channel may change wave, and each switch may flip.
     */
    method NextIterationStep(rng: Rng)
      requires Valid() && rng.Valid()
      modifies this, waveManager.baseSpeed, waveManager2.baseSpeed, rng
      ensures Valid() && Turned(rng.source, old(rng.next), 0.0)
      ensures rng.next == old(rng.next) + 1 +
                ShapesDrawn(old(waveTypeA), old(waveTypeB), old(switched), old(freqSwitched),
                            rng.source, old(rng.next) + 1).draws
      ensures waveManager.baseSpeed.IsTransitioning() && 16.0 < waveManager.baseSpeed.duration <= 48.5
    {
      ghost var shapes := (waveTypeA, waveTypeB, switched, freqSwitched, rng.next + 1);
      accelerating := !accelerating;
      var speedChangeRate := rng.InRange(SPEED_CHANGE_RATE_MIN, SPEED_CHANGE_RATE_MAX);
      IterationDuration(speedChangeRate);
      SetSpeeds(speedChangeRate);
      assert shapes == (waveTypeA, waveTypeB, switched, freqSwitched, rng.next);
      ChangeShapes(rng);
    }

    /** The two managers' speeds, mirrored at `rate` in the present direction. */
    method SetSpeeds(rate: real)
      requires Valid()
      requires rate > 0.0 && 16.0 < (MAX_SPEED - MIN_SPEED) / rate <= 48.5
      modifies waveManager.baseSpeed, waveManager2.baseSpeed
      ensures Valid() && Mirrored(accelerating, rate, 0.0)
      ensures waveManager.baseSpeed.IsTransitioning()
    {
      var startSpeed := if accelerating then MIN_SPEED else MAX_SPEED;
      var targetSpeed := if accelerating then MAX_SPEED else MIN_SPEED;
      waveManager.SetSpeed(startSpeed);
      var fired := waveManager.SetTargetSpeed(targetSpeed, rate, Some(NextIteration));
      assert Abs(targetSpeed - startSpeed) == MAX_SPEED - MIN_SPEED;
      waveManager2.SetSpeed(targetSpeed);
      var fired2 := waveManager2.SetTargetSpeed(startSpeed, rate, None);
    }

    /** The four draws that may change each channel's wave and flip each switch. */
    method ChangeShapes(rng: Rng)
      requires Valid() && rng.Valid()
      modifies this, rng
      ensures Valid() && accelerating == old(accelerating)
      ensures Shaped(ShapesDrawn(old(waveTypeA), old(waveTypeB), old(switched), old(freqSwitched),
                                 rng.source, old(rng.next)))
      ensures rng.next == old(rng.next) +
                ShapesDrawn(old(waveTypeA), old(waveTypeB), old(switched), old(freqSwitched),
                            rng.source, old(rng.next)).draws
    {
      var a, b, s, f := NextShapes(waveTypeA, waveTypeB, switched, freqSwitched, rng);
      waveTypeA, waveTypeB, switched, freqSwitched := a, b, s, f;
    }

    /** Whether an update by `delta` brings the first manager's speed to its extreme, where it hands back the turn. */
    ghost predicate Turns(delta: real)
      reads this, waveManager.baseSpeed
    {
      waveManager.baseSpeed.IsTransitioning() && waveManager.baseSpeed.onReached.Some? &&
      waveManager.baseSpeed.elapsed + delta >= waveManager.baseSpeed.duration
    }

    /** The contract of `RunSimulation` as one predicate of the states before and after, for the host to pass on. */
    twostate predicate Stepped(delta: real, rng: Rng)
      reads this, Repr, rng
    {
      old(Valid()) && Valid() && rng.Valid() &&
      waveManager.Moved(delta) && waveManager2.Moved(delta) &&
      (old(Turns(delta)) <==> accelerating != old(accelerating)) &&
      (old(Turns(delta)) ==> Turned(rng.source, old(rng.next), delta)) &&
      (!old(Turns(delta)) ==>
         waveManager.baseSpeed.Advanced(delta, None) && waveManager2.baseSpeed.Advanced(delta, None))
    }

    /**
     * `runSimulation`: the (empty) timers, then the first manager, whose
     * turn runs inside its update, then the second. Both clocks move at
     * their speeds after the turn, if any. A turn mirrors the speeds from
     * the draw that follows, the second manager's then eased on by `delta`,
     * and redraws the shapes; without one both speeds ease on.
     */
    method RunSimulation(delta: real, rng: Rng)
      requires Valid() && rng.Valid() && delta >= 0.0
      modifies Repr, rng
      ensures Valid() && waveManager.Moved(delta) && waveManager2.Moved(delta)
      ensures old(Turns(delta)) <==> accelerating != old(accelerating)
      ensures old(Turns(delta)) ==> Turned(rng.source, old(rng.next), delta)
      ensures !old(Turns(delta)) ==>
                waveManager.baseSpeed.Advanced(delta, None) && waveManager2.baseSpeed.Advanced(delta, None)
      ensures Stepped(delta, rng)
    {
      var expired := timerManager.Update(delta);
      assert expired == [];
      label Timed:
      UpdateFirst(delta, rng);
      label First:
      UpdateSecond(delta, rng);
      assert waveManager.Moved@Timed(delta) && waveManager2.Moved@First(delta);
      if old(Turns(delta)) {
        assert Turned@Timed(rng.source, old(rng.next), delta);
      }
    }

    /**
     * `waveManager.update`: the speed reaching its extreme turns both
     * managers round before the clock moves, at the new speed; otherwise
     * the speed eases on and nothing else changes but the first clock.
     */
    method UpdateFirst(delta: real, rng: Rng)
      requires Valid() && rng.Valid() && delta >= 0.0
      modifies this, waveManager.Repr, waveManager2.baseSpeed, rng
      ensures Valid() && waveManager.Moved(delta)
      ensures old(Turns(delta)) ==> Turned(rng.source, old(rng.next), 0.0)
      ensures !old(Turns(delta)) ==>
                waveManager.baseSpeed.Advanced(delta, None) && unchanged(this, waveManager2.baseSpeed)
    {
      var running, reached := waveManager.BeginUpdate(delta);
      label Began:
      assert Valid();
      if reached.Some? {
        NextIterationStep(rng);
      }
      label Steered:
      var stopped := waveManager.FinishUpdate(delta, rng);
      assert stopped == None;
      if reached.Some? {
        assert Turned@Began(rng.source, old@Began(rng.next), 0.0);
      }
    }

    /** `waveManager2.update`, which hands back nothing: the speed eases on and the clock moves. */
    method UpdateSecond(delta: real, rng: Rng)
      requires Valid() && rng.Valid() && delta >= 0.0
      modifies waveManager2.Repr, rng
      ensures Valid() && waveManager2.baseSpeed.Advanced(delta, None) && waveManager2.Moved(delta)
    {
      var running, reached := waveManager2.BeginUpdate(delta);
      assert reached == None;
      var stopped := waveManager2.FinishUpdate(delta, rng);
      assert stopped == None;
    }

    /**
     * `getPulse`: the speed phase of the first manager sets the
     * frequencies; channel A's amplitude is its wave on the second
     * manager, channel B's its wave on the first.
     */
    function GetPulse(): (r: Pulse)
      requires Valid()
      reads this, Repr
      ensures r == FastSlowPulse(SpeedPhase(waveManager.baseSpeed.Current()),
                                 waveManager2.GetPosition(WAVE_NAMES[waveTypeA], true).value,
                                 waveManager.GetPosition(WAVE_NAMES[waveTypeB], true).value,
                                 switched, freqSwitched)
      ensures r.freqA + r.freqB == 1.0 && 0.0 <= r.freqA <= 1.0 && 0.0 <= r.freqB <= 1.0
    {
      assert WAVE_NAMES[waveTypeA] in waveManager2.waves && WAVE_NAMES[waveTypeB] in waveManager.waves;
      FastSlowPulse(SpeedPhase(waveManager.CurrentSpeed()),
                    waveManager2.GetPosition(WAVE_NAMES[waveTypeA], true).value,
                    waveManager.GetPosition(WAVE_NAMES[waveTypeB], true).value,
                    switched, freqSwitched)
    }
  }
}
