/**
 * "Opposites": channel A's amplitude and frequency each drift between
 * random targets, and channel B always gets the opposite value (one minus
 * A's). How fast they drift follows an overall speed that itself drifts.
 */
module Opposites {
  import opened Wrappers
  import opened Numeric
  import opened Utils
  import opened Random
  import opened Timers
  import opened Smoothing
  import opened Pulses

  /** The callbacks: the overall speed timer, and the amplitude or the frequency reaching its target. */
  datatype OppositesAction = SpeedChange | AmplitudeTargetReached | FrequencyTargetReached

  const SPEED_MIN: real := 0.5
  const SPEED_MAX: real := 3.0
  /**
   * How many callbacks may run inside one another before the innermost is
   * dropped; a chain only continues while a fresh target equals the
   * current value exactly.
   */
  const MAX_CALLBACK_DEPTH: nat := 100

  /** The pulse: channel A takes the values, channel B their opposites. */
  function OppositePulse(amp: real, freq: real): (r: Pulse)
    ensures r.ampA == amp && r.freqA == freq
    ensures r.ampA + r.ampB == 1.0 && r.freqA + r.freqB == 1.0
    ensures 0.0 <= amp <= 1.0 && 0.0 <= freq <= 1.0 ==>
              0.0 <= r.ampB <= 1.0 && 0.0 <= r.freqB <= 1.0
  {
    Pulse(amp, 1.0 - amp, freq, 1.0 - freq)
  }

  /** Taking the opposite values swaps the two channels. */
  lemma OppositeIsSwap(amp: real, freq: real)
    ensures OppositePulse(1.0 - amp, 1.0 - freq) == SwappedPulse(OppositePulse(amp, freq))
  {
  }

  /** Whether a value easing with `elapsed` of `duration` gone arrives within a step of `delta`. */
  predicate Arrives(transitioning: bool, elapsed: real, duration: real, delta: real)
  {
    transitioning && elapsed + delta >= duration
  }

  /** The draws a step of `delta` takes for the timers: three when it ends the speed change, none otherwise. */
  function TimerDraws(timers: map<string, Timer<OppositesAction>>, delta: real): nat
  {
    if "speedChange" in timers && Ends(timers["speedChange"], delta) then 3 else 0
  }

  /** The only timer is the overall speed change. */
  predicate Table(timers: map<string, Timer<OppositesAction>>)
  {
    forall k | k in timers :: k == "speedChange" && timers[k].callback == SpeedChange
  }

  class OppositesActivity {
    const displayName: string
    const timerManager: TimerManager<OppositesAction>
    const ampA: SmoothedValue<OppositesAction>
    const freqA: SmoothedValue<OppositesAction>
    const overallSpeed: SmoothedValue<OppositesAction>
    ghost const Repr: set<object>

    /**
     * The amplitude and frequency stay in [0, 1] and the overall speed in
     * [0.5, 3]; while the amplitude or the frequency moves, its arrival is
     * due to be reported; the overall speed reports nothing.
     */
    ghost predicate Valid()
      reads this, Repr
    {
      Repr == {this, timerManager, ampA, freqA, overallSpeed} &&
      ampA != freqA && ampA != overallSpeed && freqA != overallSpeed &&
      timerManager.Valid() && ampA.Valid() && freqA.Valid() && overallSpeed.Valid() &&
      0.0 <= ampA.start <= 1.0 && 0.0 <= ampA.target <= 1.0 &&
      0.0 <= freqA.start <= 1.0 && 0.0 <= freqA.target <= 1.0 &&
      SPEED_MIN <= overallSpeed.start <= SPEED_MAX && SPEED_MIN <= overallSpeed.target <= SPEED_MAX &&
      (ampA.IsTransitioning() ==> ampA.onReached == Some(AmplitudeTargetReached)) &&
      (freqA.IsTransitioning() ==> freqA.onReached == Some(FrequencyTargetReached)) &&
      overallSpeed.onReached == None && Table(timerManager.timers)
    }

    /**
     * Where a new random target drawn from `source` at `n` and `n + 1`
     * leaves `v`, when the overall speed was `speed` and the target drawn
     * differs from `from`, where `v` stood: `v` eases from `from` to a
     * target in [0, 1) at a rate of [0.15, 0.4) times `speed`, and reports
     * `callback` on arrival.
     */
    ghost predicate AimedFrom(v: SmoothedValue<OppositesAction>, callback: OppositesAction, source: nat -> real,
                              n: nat, from: real, speed: real)
      requires DrawsInUnit(source)
      reads v
    {
      var target := Uniform(0.0, 1.0, source(n));
      var rate := Uniform(0.15 * speed, 0.4 * speed, source(n + 1));
      target != from ==>
        v.start == from && v.target == target && v.elapsed == 0.0 &&
        rate > 0.0 && v.duration == Abs(target - from) / rate &&
        v.IsTransitioning() && v.onReached == Some(callback)
    }

    /**
     * What a new random target for `v` does with draws `n` and `n + 1`:
     * `AimedFrom` at the current overall speed, with both draws taken when
     * the target differs from `from`.
     */
    ghost predicate Aimed(v: SmoothedValue<OppositesAction>, callback: OppositesAction, rng: Rng, n: nat, from: real)
      requires rng.Valid()
      reads v, overallSpeed, rng
    {
      AimedFrom(v, callback, rng.source, n, from, overallSpeed.Current()) &&
      (Uniform(0.0, 1.0, rng.source(n)) != from ==> rng.next == n + 2)
    }

    /**
     * What `speedChange` does with draws `n` to `n + 2`: the overall speed
     * eases from where it is to a value in [0.5, 3) at a rate in
     * [0.2, 0.5), and the next change is due in [10, 20) seconds.
     */
    twostate predicate SpeedChanged(rng: Rng, n: nat)
      requires rng.Valid()
      reads overallSpeed, timerManager, rng
    {
      var speed := Uniform(SPEED_MIN, SPEED_MAX, rng.source(n));
      var rate := Uniform(0.2, 0.5, rng.source(n + 1));
      var next := Uniform(10.0, 20.0, rng.source(n + 2));
      overallSpeed.Retargeted(speed, Some(rate), None, None, None) &&
      timerManager.timers == old(timerManager.timers)["speedChange" := Timer(next, next, SpeedChange)] &&
      rng.next == n + 3
    }

    /** Random starting values, in that order; then the first targets and the speed timer. */
    constructor (rng: Rng)
      requires rng.Valid()
      modifies rng
      ensures Valid() && fresh(Repr)
      ensures displayName == "Opposites"
      ensures "speedChange" in timerManager.timers
    {
      displayName := "Opposites";
      timerManager := new TimerManager();
      var amp := rng.InRange(0.0, 1.0);
      var freq := rng.InRange(0.0, 1.0);
      var speed := rng.InRange(SPEED_MIN, SPEED_MAX);
      ampA := new SmoothedValue(amp);
      freqA := new SmoothedValue(freq);
      overallSpeed := new SmoothedValue(speed);
      Repr := {this, timerManager, ampA, freqA, overallSpeed};
      new;
      assert fresh(Repr);
      NewAmplitudeTarget(rng, MAX_CALLBACK_DEPTH);
      NewFrequencyTarget(rng, MAX_CALLBACK_DEPTH);
      SpeedChangeStep(rng);
    }

    /** `getChangeRate`: a rate in [0.15, 0.4) times the current overall speed, so always positive. */
    method GetChangeRate(rng: Rng) returns (rate: real)
      requires Valid() && rng.Valid()
      modifies rng
      ensures 0.15 * overallSpeed.Current() <= rate < 0.4 * overallSpeed.Current()
      ensures rate > 0.0
      ensures rate == Uniform(0.15 * overallSpeed.Current(), 0.4 * overallSpeed.Current(), rng.source(old(rng.next)))
      ensures rng.next == old(rng.next) + 1
    {
      var current := overallSpeed.Current();
      rate := rng.InRange(0.15 * current, 0.4 * current);
    }

    /**
     * `newRandomAmplitudeTarget`: a target in [0, 1) at the change rate;
     * the amplitude reports its arrival, and an arrival that takes no time
     * runs at once.
     */
    method NewAmplitudeTarget(rng: Rng, fuel: nat)
      requires Valid() && rng.Valid()
      modifies ampA, rng
      ensures Valid()
      ensures Aimed(ampA, AmplitudeTargetReached, rng, old(rng.next), old(ampA.Current()))
      ensures old(rng.next) <= rng.next
      decreases fuel, 1
    {
      var target := rng.InRange(0.0, 1.0);
      var rate := GetChangeRate(rng);
      var fired := ampA.SetTarget(target, Some(rate), None, Some(AmplitudeTargetReached));
      if fired.Some? && fuel > 0 {
        assert fired.value == AmplitudeTargetReached;
        NewAmplitudeTarget(rng, fuel - 1);
      }
    }

    /** `newRandomFrequencyTarget`: the same for the frequency. */
    method NewFrequencyTarget(rng: Rng, fuel: nat)
      requires Valid() && rng.Valid()
      modifies freqA, rng
      ensures Valid()
      ensures Aimed(freqA, FrequencyTargetReached, rng, old(rng.next), old(freqA.Current()))
      ensures old(rng.next) <= rng.next
      decreases fuel, 1
    {
      var target := rng.InRange(0.0, 1.0);
      var rate := GetChangeRate(rng);
      var fired := freqA.SetTarget(target, Some(rate), None, Some(FrequencyTargetReached));
      if fired.Some? && fuel > 0 {
        assert fired.value == FrequencyTargetReached;
        NewFrequencyTarget(rng, fuel - 1);
      }
    }

    /**
     * `speedChange`: the overall speed eases towards a value in [0.5, 3)
     * at a rate in [0.2, 0.5); the next change comes in [10, 20) seconds.
     */
    method SpeedChangeStep(rng: Rng)
      requires Valid() && rng.Valid()
      modifies timerManager, overallSpeed, rng
      ensures Valid() && SpeedChanged(rng, old(rng.next))
      ensures SPEED_MIN <= overallSpeed.target < SPEED_MAX
      ensures overallSpeed.Current() == old(overallSpeed.Current())
      ensures 10.0 <= timerManager.timers["speedChange"].initialDuration < 20.0
    {
      var newSpeed := rng.InRange(SPEED_MIN, SPEED_MAX);
      var changeRate := rng.InRange(0.2, 0.5);
      var nextSpeedChangeSecs := rng.InRange(10.0, 20.0);
      var fired := overallSpeed.SetTarget(newSpeed, Some(changeRate), None, None);
      var immediate := timerManager.AddTimer("speedChange", nextSpeedChangeSecs, SpeedChange);
    }

    /** Run a callback; the arrival chains are bounded by `fuel`. */
    method Dispatch(action: OppositesAction, rng: Rng, fuel: nat)
      requires Valid() && rng.Valid()
      modifies timerManager, ampA, freqA, overallSpeed, rng
      ensures Valid()
      ensures action == SpeedChange ==> SpeedChanged(rng, old(rng.next)) && unchanged(ampA, freqA)
      ensures action == AmplitudeTargetReached ==>
                Aimed(ampA, AmplitudeTargetReached, rng, old(rng.next), old(ampA.Current())) &&
                unchanged(freqA, overallSpeed, timerManager)
      ensures action == FrequencyTargetReached ==>
                Aimed(freqA, FrequencyTargetReached, rng, old(rng.next), old(freqA.Current())) &&
                unchanged(ampA, overallSpeed, timerManager)
      decreases fuel, 2
    {
      match action
      case SpeedChange => SpeedChangeStep(rng);
      case AmplitudeTargetReached => NewAmplitudeTarget(rng, fuel);
      case FrequencyTargetReached => NewFrequencyTarget(rng, fuel);
    }

    /** The contract of `RunSimulation` as one predicate of the states before and after, for the host to pass on. */
    twostate predicate Stepped(delta: real, rng: Rng)
      reads this, Repr, rng
    {
      old(Valid()) && Valid() && rng.Valid() &&
      Ticked(old(timerManager.timers), timerManager.timers, delta) &&
      ("speedChange" in old(timerManager.timers) && Ends(old(timerManager.timers["speedChange"]), delta) ==>
         overallSpeed.start == old(overallSpeed.Current()) && SPEED_MIN <= overallSpeed.target < SPEED_MAX) &&
      (!("speedChange" in old(timerManager.timers) && Ends(old(timerManager.timers["speedChange"]), delta)) ==>
         overallSpeed.Advanced(delta, None)) &&
      (!Arrives(old(ampA.IsTransitioning()), old(ampA.elapsed), old(ampA.duration), delta) ==>
         ampA.Advanced(delta, None)) &&
      (!Arrives(old(freqA.IsTransitioning()), old(freqA.elapsed), old(freqA.duration), delta) ==>
         freqA.Advanced(delta, None)) &&
      (Arrives(old(ampA.IsTransitioning()), old(ampA.elapsed), old(ampA.duration), delta) ==>
         AimedFrom(ampA, AmplitudeTargetReached, rng.source, old(rng.next) + TimerDraws(old(timerManager.timers), delta),
                   old(ampA.target), old(overallSpeed.Current()))) &&
      (Arrives(old(freqA.IsTransitioning()), old(freqA.elapsed), old(freqA.duration), delta) ==>
         exists n: nat :: old(rng.next) + TimerDraws(old(timerManager.timers), delta) <= n &&
           AimedFrom(freqA, FrequencyTargetReached, rng.source, n, old(freqA.target), old(overallSpeed.Current())))
    }

    /**
     * `runSimulation`: the timers, then the amplitude, the frequency and the
     * overall speed, each running its arrival. The timers are `Ticked`; the
     * overall speed is retargeted when its change came due and eases on
     * otherwise; a value that does not arrive in this step eases on.
     */
    method RunSimulation(delta: real, rng: Rng)
      requires Valid() && rng.Valid() && delta >= 0.0
      modifies Repr, rng
      ensures Valid()
      ensures Ticked(old(timerManager.timers), timerManager.timers, delta)
      ensures "speedChange" in old(timerManager.timers) && Ends(old(timerManager.timers["speedChange"]), delta) ==>
                overallSpeed.start == old(overallSpeed.Current()) && SPEED_MIN <= overallSpeed.target < SPEED_MAX
      ensures !("speedChange" in old(timerManager.timers) && Ends(old(timerManager.timers["speedChange"]), delta)) ==>
                overallSpeed.Advanced(delta, None)
      ensures !Arrives(old(ampA.IsTransitioning()), old(ampA.elapsed), old(ampA.duration), delta) ==>
                ampA.Advanced(delta, None)
      ensures !Arrives(old(freqA.IsTransitioning()), old(freqA.elapsed), old(freqA.duration), delta) ==>
                freqA.Advanced(delta, None)
      ensures Arrives(old(ampA.IsTransitioning()), old(ampA.elapsed), old(ampA.duration), delta) ==>
                AimedFrom(ampA, AmplitudeTargetReached, rng.source, old(rng.next) + TimerDraws(old(timerManager.timers), delta),
                          old(ampA.target), old(overallSpeed.Current()))
      ensures Arrives(old(freqA.IsTransitioning()), old(freqA.elapsed), old(freqA.duration), delta) ==>
                exists n: nat :: old(rng.next) + TimerDraws(old(timerManager.timers), delta) <= n &&
                  AimedFrom(freqA, FrequencyTargetReached, rng.source, n, old(freqA.target), old(overallSpeed.Current()))
      ensures Stepped(delta, rng)
    {
      RunTimers(delta, rng);
      label Timed:
      ghost var k := UpdateValues(delta, rng);
      ghost var arrived := AimedFrom(freqA, FrequencyTargetReached, rng.source, k, old(freqA.target), old(overallSpeed.Current()));
      UpdateSpeed(delta);
      assert overallSpeed.Advanced@Timed(delta, None);
      assert arrived == AimedFrom(freqA, FrequencyTargetReached, rng.source, k, old(freqA.target), old(overallSpeed.Current()));
    }

    /**
     * `ampA.update` then `freqA.update`: a value that does not arrive in
     * this step eases on; one that arrives is aimed at a new target, the
     * amplitude from the next draws and the frequency from later ones.
     */
    method UpdateValues(delta: real, rng: Rng) returns (ghost k: nat)
      requires Valid() && rng.Valid() && delta >= 0.0
      modifies ampA, freqA, rng
      ensures Valid()
      ensures !Arrives(old(ampA.IsTransitioning()), old(ampA.elapsed), old(ampA.duration), delta) ==>
                ampA.Advanced(delta, None)
      ensures !Arrives(old(freqA.IsTransitioning()), old(freqA.elapsed), old(freqA.duration), delta) ==>
                freqA.Advanced(delta, None)
      ensures Arrives(old(ampA.IsTransitioning()), old(ampA.elapsed), old(ampA.duration), delta) ==>
                AimedFrom(ampA, AmplitudeTargetReached, rng.source, old(rng.next), old(ampA.target), overallSpeed.Current())
      ensures Arrives(old(freqA.IsTransitioning()), old(freqA.elapsed), old(freqA.duration), delta) ==>
                old(rng.next) <= k &&
                AimedFrom(freqA, FrequencyTargetReached, rng.source, k, old(freqA.target), overallSpeed.Current())
    {
      UpdateAmplitude(delta, rng);
      k := rng.next;
      UpdateFrequency(delta, rng);
    }

    /** `overallSpeed.update`: it eases on, with no callback to run. */
    method UpdateSpeed(delta: real)
      requires Valid() && delta >= 0.0
      modifies overallSpeed
      ensures Valid() && overallSpeed.Advanced(delta, None)
    {
      var reached := overallSpeed.Update(delta);
    }

    /** `ampA.update`, running the arrival if this step reaches the target. */
    method UpdateAmplitude(delta: real, rng: Rng)
      requires Valid() && rng.Valid() && delta >= 0.0
      modifies ampA, rng
      ensures Valid()
      ensures !Arrives(old(ampA.IsTransitioning()), old(ampA.elapsed), old(ampA.duration), delta) ==>
                ampA.Advanced(delta, None) && rng.next == old(rng.next)
      ensures Arrives(old(ampA.IsTransitioning()), old(ampA.elapsed), old(ampA.duration), delta) ==>
                Aimed(ampA, AmplitudeTargetReached, rng, old(rng.next), old(ampA.target))
      ensures old(rng.next) <= rng.next
    {
      var reached := ampA.Update(delta);
      if reached.Some? {
        NewAmplitudeTarget(rng, MAX_CALLBACK_DEPTH);
      }
    }

    /** `freqA.update`, running the arrival if this step reaches the target. */
    method UpdateFrequency(delta: real, rng: Rng)
      requires Valid() && rng.Valid() && delta >= 0.0
      modifies freqA, rng
      ensures Valid()
      ensures !Arrives(old(freqA.IsTransitioning()), old(freqA.elapsed), old(freqA.duration), delta) ==>
                freqA.Advanced(delta, None) && rng.next == old(rng.next)
      ensures Arrives(old(freqA.IsTransitioning()), old(freqA.elapsed), old(freqA.duration), delta) ==>
                Aimed(freqA, FrequencyTargetReached, rng, old(rng.next), old(freqA.target))
      ensures old(rng.next) <= rng.next
    {
      var reached := freqA.Update(delta);
      if reached.Some? {
        NewFrequencyTarget(rng, MAX_CALLBACK_DEPTH);
      }
    }

    /**
     * The base `runSimulation`: each timer present at the start is stepped,
     * and a callback runs as its timer ends. The timers are `Ticked`; the
     * overall speed is retargeted exactly when its change came due.
     */
    method RunTimers(delta: real, rng: Rng)
      requires Valid() && rng.Valid() && delta >= 0.0
      modifies timerManager, overallSpeed, rng
      ensures Valid()
      ensures Ticked(old(timerManager.timers), timerManager.timers, delta)
      ensures "speedChange" in old(timerManager.timers) && Ends(old(timerManager.timers["speedChange"]), delta) ==>
                overallSpeed.start == old(overallSpeed.Current()) && SPEED_MIN <= overallSpeed.target < SPEED_MAX
      ensures !("speedChange" in old(timerManager.timers) && Ends(old(timerManager.timers["speedChange"]), delta)) ==>
                unchanged(overallSpeed)
      ensures overallSpeed.Current() == old(overallSpeed.Current())
      ensures rng.next == old(rng.next) + TimerDraws(old(timerManager.timers), delta)
    {
      var keys := timerManager.Snapshot();
      ghost var start := timerManager.timers;
      ProgressStart(start, keys, delta);
      var i := 0;
      while i < |keys|
        invariant Valid() && rng.Valid()
        invariant Progress(start, keys, i, timerManager.timers, delta)
        invariant "speedChange" in Seen(keys, i) && Ends(start["speedChange"], delta) ==>
                    overallSpeed.start == old(overallSpeed.Current()) && SPEED_MIN <= overallSpeed.target < SPEED_MAX
        invariant !("speedChange" in Seen(keys, i) && Ends(start["speedChange"], delta)) ==> unchanged(overallSpeed)
        invariant overallSpeed.Current() == old(overallSpeed.Current())
        invariant rng.next == old(rng.next) + (if "speedChange" in Seen(keys, i) && Ends(start["speedChange"], delta) then 3 else 0)
      {
        SeenNext(keys, i);
        Visit(keys, i, delta, rng, start);
        i := i + 1;
      }
      assert keys[..|keys|] == keys;
      ProgressDone(start, keys, timerManager.timers, delta);
    }

    /** One visit of `RunTimers`' loop: `keys[i]` is stepped, and if that ends it, the speed change runs. */
    method Visit(keys: seq<string>, i: nat, delta: real, rng: Rng, ghost start: map<string, Timer<OppositesAction>>)
      requires Valid() && rng.Valid() && delta >= 0.0
      requires Progress(start, keys, i, timerManager.timers, delta) && i < |keys|
      modifies timerManager, overallSpeed, rng
      ensures Valid()
      ensures Progress(start, keys, i + 1, timerManager.timers, delta)
      ensures Ends(start[keys[i]], delta) ==>
                overallSpeed.start == old(overallSpeed.Current()) && SPEED_MIN <= overallSpeed.target < SPEED_MAX
      ensures !Ends(start[keys[i]], delta) ==> unchanged(overallSpeed)
      ensures overallSpeed.Current() == old(overallSpeed.Current())
      ensures rng.next == old(rng.next) + (if Ends(start[keys[i]], delta) then 3 else 0)
    {
      ghost var before := timerManager.timers;
      var fired := timerManager.Tick(keys[i], delta);
      ghost var mid := timerManager.timers;
      if fired.Some? {
        // the only timer, and so the only callback here, is the speed change
        SpeedChangeStep(rng);
      }
      ProgressNext(start, keys, i, before, delta, mid, timerManager.timers);
    }

    /** `getPulse`: the current amplitude and frequency on A, their opposites on B. */
    function GetPulse(): (r: Pulse)
      requires Valid()
      reads this, Repr
      ensures r == OppositePulse(ampA.Current(), freqA.Current())
      ensures 0.0 <= r.ampA <= 1.0 && 0.0 <= r.ampB <= 1.0 && 0.0 <= r.freqA <= 1.0 && 0.0 <= r.freqB <= 1.0
    {
      OppositePulse(ampA.Current(), freqA.Current())
    }
  }
}
