/**
 * "Sliding vibrator": a vibrator of random speed slides to random
 * positions at random speeds, and on arrival either holds for a while or
 * sets off again at once.
 */
module Vibro {
  import opened Wrappers
  import opened Numeric
  import opened Utils
  import opened Random
  import opened Timers
  import opened Smoothing
  import opened Pulses

  /** The callbacks: the speed change timer, the hold timer and the arrival at a target. */
  datatype VibroAction = SpeedChange | HoldOver | TargetReached

  const VIBE_POWER: real := 0.9
  const HOLD_PROBABILITY: real := 0.5
  /**
   * How many callbacks may run inside one another before the innermost is
   * dropped; a chain only continues while a fresh target equals the
   * current position exactly or a hold lasts no time at all.
   */
  const MAX_CALLBACK_DEPTH: nat := 100

  /** The pulse: both frequencies are the vibrator's speed, and the power is split between the channels by position. */
  function VibroPulse(vibeSpeed: real, position: real, sqrt: real -> real): (r: Pulse)
    requires IsSqrt(sqrt) && 0.0 <= position <= 1.0
    ensures r.freqA == vibeSpeed && r.freqB == vibeSpeed
    ensures r.ampA * r.ampA + r.ampB * r.ampB == VIBE_POWER * VIBE_POWER
    ensures 0.0 <= r.ampA <= VIBE_POWER && 0.0 <= r.ampB <= VIBE_POWER
    ensures r.ampA == PositionalEffect(VIBE_POWER, position, 1.0, sqrt).a
    ensures r.ampB == PositionalEffect(VIBE_POWER, position, 1.0, sqrt).b
  {
    var amplitudes := PositionalEffect(VIBE_POWER, position, 1.0, sqrt);
    PositionalEffectKeepsPower(VIBE_POWER, position, 1.0, sqrt);
    Pulse(amplitudes.a, amplitudes.b, vibeSpeed, vibeSpeed)
  }

  /** The timer a callback re-arms: `speedChange` its own, the others the hold. */
  function TimerKey(action: VibroAction): string
  {
    if action == SpeedChange then "speedChange" else "hold"
  }

  /** The only timers are the speed change and the hold, each with its own callback. */
  predicate Table(timers: map<string, Timer<VibroAction>>)
  {
    forall k | k in timers ::
      (k == "speedChange" && timers[k].callback == SpeedChange) || (k == "hold" && timers[k].callback == HoldOver)
  }

  class VibroActivity {
    const displayName: string
    const timerManager: TimerManager<VibroAction>
    var vibeSpeed: real
    var vibeTargetPosition: real
    var vibeMoveSpeed: real
    const vibePosition: SmoothedValue<VibroAction>
    ghost const Repr: set<object>

    /**
     * The slider never leaves [0, 1], the speeds stay in their ranges, and
     * while the slider moves its arrival is due to be reported.
     */
    ghost predicate Valid()
      reads this, Repr
    {
      Repr == {this, timerManager, vibePosition} &&
      timerManager.Valid() && Table(timerManager.timers) && vibePosition.Valid() &&
      0.0 <= vibePosition.start <= 1.0 && 0.0 <= vibePosition.target <= 1.0 &&
      (vibePosition.IsTransitioning() ==> vibePosition.onReached == Some(TargetReached)) &&
      0.0 <= vibeSpeed <= 1.0 && 0.0 <= vibeTargetPosition <= 1.0 && 0.04 <= vibeMoveSpeed <= 0.3
    }

    /** A random start position, then a random speed, a jump to a random position, a first target and the speed timer. */
    constructor (rng: Rng)
      requires rng.Valid()
      modifies rng
      ensures Valid() && fresh(Repr)
      ensures displayName == "Sliding vibrator"
      ensures "speedChange" in timerManager.timers
    {
      displayName := "Sliding vibrator";
      timerManager := new TimerManager();
      vibeSpeed := 0.3;
      vibeTargetPosition := 0.5;
      vibeMoveSpeed := 0.1;
      var initial := rng.InRange(0.0, 1.0);
      vibePosition := new SmoothedValue(initial);
      Repr := {this, timerManager, vibePosition};
      new;
      InitializeWithRandomValues(rng);
    }

    /** `initializeWithRandomValues`: a random speed, a jump to a random position, a first target and the speed timer. */
    method InitializeWithRandomValues(rng: Rng)
      requires Valid() && rng.Valid()
      modifies Repr, rng
      ensures Valid()
      ensures "speedChange" in timerManager.timers
    {
      vibeSpeed := rng.InRange(0.0, 1.0);
      var position := rng.InRange(0.0, 1.0);
      vibePosition.SetImmediately(position);
      NewTarget(rng, MAX_CALLBACK_DEPTH);
      ScheduleSpeedChangeTimer(rng);
    }

    /**
     * The effect of `newTarget` on draws `n` and `n + 1`, when the target
     * drawn is not `from`, where the slider is: it eases from there towards
     * the target at the drawn speed and will report its arrival; nothing
     * else changes.
     */
    twostate predicate Aimed(rng: Rng, n: nat, from: real)
      requires rng.Valid()
      reads this, vibePosition, timerManager, rng
    {
      var target := Uniform(0.0, 1.0, rng.source(n));
      var speed := Uniform(0.04, 0.3, rng.source(n + 1));
      target != from ==>
        vibeTargetPosition == target && vibeMoveSpeed == speed && vibeSpeed == old(vibeSpeed) &&
        vibePosition.start == from && vibePosition.target == target && vibePosition.elapsed == 0.0 &&
        vibePosition.duration == Abs(target - from) / speed &&
        vibePosition.IsTransitioning() && vibePosition.onReached == Some(TargetReached) &&
        timerManager.timers == old(timerManager.timers) && rng.next == n + 2
    }

    /**
     * The effect of `scheduleHoldTimer` on draw `n`, when the hold drawn
     * takes some time: the hold timer is set; nothing else changes.
     */
    twostate predicate Held(rng: Rng, n: nat)
      requires rng.Valid()
      reads this, timerManager, rng
    {
      var hold := Uniform(0.0, 3.0, rng.source(n));
      hold > 0.0 ==>
        timerManager.timers == old(timerManager.timers)["hold" := Timer(hold, hold, HoldOver)] &&
        vibeSpeed == old(vibeSpeed) && vibeTargetPosition == old(vibeTargetPosition) &&
        vibeMoveSpeed == old(vibeMoveSpeed) && rng.next == n + 1
    }

    /**
     * `newTarget`: a target in [0, 1) and a speed in [0.04, 0.3); the
     * slider eases there and reports its arrival. A target equal to the
     * current position is reached at once, and the arrival runs at once.
     */
    method NewTarget(rng: Rng, fuel: nat)
      requires Valid() && rng.Valid()
      modifies Repr, rng
      ensures Valid()
      ensures Aimed(rng, old(rng.next), old(vibePosition.Current()))
      ensures "hold" !in old(timerManager.timers) ==> Refreshed(old(timerManager.timers), timerManager.timers, "hold")
      decreases fuel, 1
    {
      vibeTargetPosition := rng.InRange(0.0, 1.0);
      vibeMoveSpeed := rng.InRange(0.04, 0.3);
      var fired := vibePosition.SetTarget(vibeTargetPosition, Some(vibeMoveSpeed), None, Some(TargetReached));
      if fired.Some? && fuel > 0 {
        Dispatch(fired.value, rng, fuel - 1);
      }
    }

    /** `scheduleSpeedChangeTimer`: the speed changes again in [5, 30) seconds. */
    method ScheduleSpeedChangeTimer(rng: Rng)
      requires Valid() && rng.Valid()
      modifies timerManager, rng
      ensures Valid()
      ensures var due := Uniform(5.0, 30.0, rng.source(old(rng.next)));
              timerManager.timers == old(timerManager.timers)["speedChange" := Timer(due, due, SpeedChange)] &&
              rng.next == old(rng.next) + 1
      ensures 5.0 <= timerManager.timers["speedChange"].initialDuration < 30.0
    {
      var duration := rng.InRange(5.0, 30.0);
      var immediate := timerManager.AddTimer("speedChange", duration, SpeedChange);
    }

    /** `scheduleHoldTimer`: the slider rests for [0, 3) seconds; a rest of no time sets off at once. */
    method ScheduleHoldTimer(rng: Rng, fuel: nat)
      requires Valid() && rng.Valid()
      modifies Repr, rng
      ensures Valid()
      ensures Held(rng, old(rng.next))
      ensures Uniform(0.0, 3.0, rng.source(old(rng.next))) > 0.0 ==> unchanged(vibePosition)
      ensures "hold" !in old(timerManager.timers) ==> Refreshed(old(timerManager.timers), timerManager.timers, "hold")
      decreases fuel, 1
    {
      var duration := rng.InRange(0.0, 3.0);
      var fired := timerManager.AddTimer("hold", duration, HoldOver);
      if fired.Some? && fuel > 0 {
        Dispatch(fired.value, rng, fuel - 1);
      }
    }

    /**
     * Run a callback: a new speed and the next speed timer; the end of a
     * hold sets off to a new target; an arrival holds with probability 0.5
     * and otherwise sets off at once.
     */
    method Dispatch(action: VibroAction, rng: Rng, fuel: nat)
      requires Valid() && rng.Valid()
      modifies Repr, rng
      ensures Valid()
      ensures action == SpeedChange ==>
                var due := Uniform(5.0, 30.0, rng.source(old(rng.next) + 1));
                vibeSpeed == Uniform(0.0, 1.0, rng.source(old(rng.next))) &&
                timerManager.timers == old(timerManager.timers)["speedChange" := Timer(due, due, SpeedChange)] &&
                rng.next == old(rng.next) + 2 && unchanged(vibePosition) &&
                vibeTargetPosition == old(vibeTargetPosition) && vibeMoveSpeed == old(vibeMoveSpeed)
      ensures action == HoldOver ==> Aimed(rng, old(rng.next), old(vibePosition.Current()))
      ensures action == TargetReached && rng.source(old(rng.next)) < HOLD_PROBABILITY ==>
                Held(rng, old(rng.next) + 1)
      ensures action == TargetReached && rng.source(old(rng.next)) >= HOLD_PROBABILITY ==>
                Aimed(rng, old(rng.next) + 1, old(vibePosition.Current()))
      ensures action != SpeedChange && "hold" !in old(timerManager.timers) ==>
                Refreshed(old(timerManager.timers), timerManager.timers, "hold")
      decreases fuel, 2
    {
      match action
      case SpeedChange =>
        vibeSpeed := rng.InRange(0.0, 1.0);
        ScheduleSpeedChangeTimer(rng);
      case HoldOver =>
        NewTarget(rng, fuel);
      case TargetReached =>
        var u := rng.NextDouble();
        if u < HOLD_PROBABILITY {
          ScheduleHoldTimer(rng, fuel);
        } else {
          NewTarget(rng, fuel);
        }
    }

    /**
     * `runSimulation`: the timers, each callback run as its timer ends,
     * then the slider.
     */
    method RunSimulation(delta: real, rng: Rng)
      requires Valid() && rng.Valid() && delta >= 0.0
      modifies Repr, rng
      ensures Valid()
    {
      RunTimers(delta, rng);
      UpdateSlider(delta, rng);
    }

    /** The base `runSimulation`: each timer present at the start is stepped, and a callback runs as its timer ends. */
    method RunTimers(delta: real, rng: Rng)
      requires Valid() && rng.Valid() && delta >= 0.0
      modifies Repr, rng
      ensures Valid()
      ensures Ticked(old(timerManager.timers), timerManager.timers, delta)
    {
      var keys := timerManager.Snapshot();
      ghost var start := timerManager.timers;
      ProgressStart(start, keys, delta);
      var i := 0;
      while i < |keys|
        invariant Valid() && rng.Valid()
        invariant Progress(start, keys, i, timerManager.timers, delta)
      {
        Visit(keys, i, delta, rng, start);
        i := i + 1;
      }
      ProgressDone(start, keys, timerManager.timers, delta);
    }

    /** One visit of `RunTimers`' loop: `keys[i]` is stepped, and if that ends it, its callback runs. */
    method Visit(keys: seq<string>, i: nat, delta: real, rng: Rng, ghost start: map<string, Timer<VibroAction>>)
      requires Valid() && rng.Valid() && delta >= 0.0
      requires Progress(start, keys, i, timerManager.timers, delta) && i < |keys|
      modifies Repr, rng
      ensures Valid()
      ensures Progress(start, keys, i + 1, timerManager.timers, delta)
    {
      ghost var before := timerManager.timers;
      var fired := timerManager.Tick(keys[i], delta);
      ghost var mid := timerManager.timers;
      if fired.Some? {
        assert TimerKey(fired.value) == keys[i];
        Dispatch(fired.value, rng, MAX_CALLBACK_DEPTH);
      }
      ProgressNext(start, keys, i, before, delta, mid, timerManager.timers);
    }

    /**
     * The slider moves on by `delta`; an arrival runs its callback: a hold
     * drawn after the coin, or a new target set off from where it arrived.
     */
    method UpdateSlider(delta: real, rng: Rng)
      requires Valid() && rng.Valid() && delta >= 0.0
      modifies Repr, rng
      ensures Valid()
      ensures !(old(vibePosition.IsTransitioning()) && old(vibePosition.elapsed) + delta >= old(vibePosition.duration)) ==>
                vibePosition.Advanced(delta, None) && timerManager.timers == old(timerManager.timers) &&
                rng.next == old(rng.next)
      ensures old(vibePosition.IsTransitioning()) && old(vibePosition.elapsed) + delta >= old(vibePosition.duration) ==>
                (rng.source(old(rng.next)) < HOLD_PROBABILITY ==> Held(rng, old(rng.next) + 1)) &&
                (rng.source(old(rng.next)) >= HOLD_PROBABILITY ==> Aimed(rng, old(rng.next) + 1, old(vibePosition.target)))
    {
      var reached := vibePosition.Update(delta);
      if reached.Some? {
        Dispatch(reached.value, rng, MAX_CALLBACK_DEPTH);
      }
    }

    /** `getPulse`: the speed as both frequencies; the power 0.9 split by the slider's position. */
    function GetPulse(sqrt: real -> real): (r: Pulse)
      requires Valid() && IsSqrt(sqrt)
      reads this, Repr
      ensures r == VibroPulse(vibeSpeed, vibePosition.Current(), sqrt)
      ensures r.ampA * r.ampA + r.ampB * r.ampB == VIBE_POWER * VIBE_POWER
      ensures 0.0 <= r.freqA == r.freqB <= 1.0
    {
      VibroPulse(vibeSpeed, vibePosition.Current(), sqrt)
    }
  }
}
