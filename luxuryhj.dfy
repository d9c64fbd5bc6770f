/**
 * "Luxury HJ": a stroke whose speed drifts to random targets, split
 * between the channels by position, and now and then a "bonus" on one
 * channel at a time: for 10 to 25 seconds that channel is mostly driven by
 * a second, faster wave.
 */
module LuxuryHJ {
  import opened Wrappers
  import opened Numeric
  import opened Utils
  import opened Random
  import opened Timers
  import opened CyclicalWaves
  import opened Pulses

  /** The callbacks: the stroke's speed change, and the end of a bonus, which does nothing. */
  datatype LuxuryAction = SpeedChange | BonusOver

  const START_FREQ: real := 0.15
  const END_FREQ: real := 0.65
  const BONUS_START_FREQ: real := 0.8
  const BONUS_END_FREQ: real := 1.0
  const BONUS_WEIGHT: real := 0.7
  /** The chance per minute of simulated time that each bonus starts. */
  const BONUS_RATE: real := 0.7

  const HJ_SHAPE: WaveShape :=
    WaveShape("hj", [WavePoint(0.0, 0.0, 0.0), WavePoint(0.5, 1.0, 0.0)], HERMITE)
  const BONUS_SHAPE: WaveShape :=
    WaveShape("bonus", [WavePoint(0.0, 0.6, 0.0), WavePoint(0.5, 1.0, 0.0)], HERMITE)

  /** The probability that a bonus starts in a step of `delta` seconds. */
  function BonusProbability(delta: real): (p: real)
    ensures delta >= 0.0 ==> p >= 0.0
    ensures p * 60.0 == BONUS_RATE * delta
  {
    (BONUS_RATE * delta) / 60.0
  }

  /**
   * The pulse: the stroke position splits the stroke amplitude between the
   * channels and sets the frequencies (A 2% below B); a channel with a
   * bonus running is moved 70% of the way to the bonus wave's amplitude
   * and frequency.
   */
  function LuxuryPulse(position: real, baseAmp: real, ampBonus: real, bonusA: bool, bonusB: bool,
                       sqrt: real -> real): (r: Pulse)
    ensures var split := PositionalEffect(baseAmp, position, 1.0, sqrt);
            var freq := position * (END_FREQ - START_FREQ) + START_FREQ;
            var freqBonus := ampBonus * (BONUS_END_FREQ - BONUS_START_FREQ) + BONUS_START_FREQ;
            r.ampA == (if bonusA then Blend(split.a, ampBonus, BONUS_WEIGHT) else split.a) &&
            r.ampB == (if bonusB then Blend(split.b, ampBonus, BONUS_WEIGHT) else split.b) &&
            r.freqA == (if bonusA then Blend(freq * 0.98, freqBonus, BONUS_WEIGHT) else freq * 0.98) &&
            r.freqB == (if bonusB then Blend(freq, freqBonus, BONUS_WEIGHT) else freq)
    ensures 0.0 <= position <= 1.0 && 0.0 <= ampBonus <= 1.0 ==>
              0.0 <= r.freqA <= 1.0 && 0.0 <= r.freqB <= 1.0
  {
    var split := PositionalEffect(baseAmp, position, 1.0, sqrt);
    var freqA := (position * (END_FREQ - START_FREQ) + START_FREQ) * 0.98;
    var freqB := position * (END_FREQ - START_FREQ) + START_FREQ;
    var freqBonus := ampBonus * (BONUS_END_FREQ - BONUS_START_FREQ) + BONUS_START_FREQ;
    Pulse(if bonusA then ampBonus * BONUS_WEIGHT + split.a * (1.0 - BONUS_WEIGHT) else split.a,
          if bonusB then ampBonus * BONUS_WEIGHT + split.b * (1.0 - BONUS_WEIGHT) else split.b,
          if bonusA then freqBonus * BONUS_WEIGHT + freqA * (1.0 - BONUS_WEIGHT) else freqA,
          if bonusB then freqBonus * BONUS_WEIGHT + freqB * (1.0 - BONUS_WEIGHT) else freqB)
  }

  /** Without a bonus, the stroke's power is split between the channels and kept. */
  lemma PlainStrokeKeepsPower(position: real, baseAmp: real, ampBonus: real, sqrt: real -> real)
    requires IsSqrt(sqrt) && 0.0 <= position <= 1.0
    ensures var r := LuxuryPulse(position, baseAmp, ampBonus, false, false, sqrt);
            r.ampA * r.ampA + r.ampB * r.ampB == baseAmp * baseAmp
  {
    PositionalEffectKeepsPower(baseAmp, position, 1.0, sqrt);
  }

  /** The stroke: speed jitter 0.2, amplitude jitter 0.2 eased in fully, speed 0.5. */
  method NewHJWaveManager() returns (manager: WaveManager<LuxuryAction>)
    ensures manager.Valid() && fresh(manager.Repr)
    ensures manager.waves.Keys == {"hj"}
    ensures manager.baseSpeed.Current() == 0.5
    ensures manager.speedVarianceHandler.variance == 0.2 && manager.amplitudeVarianceHandler.variance == 0.2
    ensures manager.amplitudeVarianceHandler.easeIn == 1.0
    ensures manager.baseSpeed.onReached == None && manager.stopTargetCycle == None && !manager.isStopped
  {
    manager := new WaveManager();
    var wave := new CyclicalWave(HJ_SHAPE);
    manager.AddWave(wave, None);
    manager.SetSpeedVariance(0.2);
    manager.SetAmplitudeVariance(0.2);
    manager.SetAmplitudeVarianceEaseIn(1.0);
    manager.SetSpeed(0.5);
  }

  /** The bonus wave: speed jitter 0.5, amplitude jitter 0.15, speed 1. */
  method NewBonusWaveManager() returns (manager: WaveManager<LuxuryAction>)
    ensures manager.Valid() && fresh(manager.Repr)
    ensures manager.waves.Keys == {"bonus"}
    ensures manager.baseSpeed.Current() == 1.0
    ensures manager.speedVarianceHandler.variance == 0.5 && manager.amplitudeVarianceHandler.variance == 0.15
    ensures manager.baseSpeed.onReached == None && manager.stopTargetCycle == None && !manager.isStopped
    ensures !manager.baseSpeed.IsTransitioning()
  {
    manager := new WaveManager();
    var wave := new CyclicalWave(BONUS_SHAPE);
    manager.AddWave(wave, None);
    manager.SetSpeedVariance(0.5);
    manager.SetAmplitudeVariance(0.15);
    manager.SetSpeed(1.0);
  }

  /** The timer that runs `action`: the speed change has its own; a bonus end belongs to either bonus. */
  predicate Owns(key: string, action: LuxuryAction)
  {
    match action
    case SpeedChange => key == "speedChange"
    case BonusOver => key == "bonusA" || key == "bonusB"
  }

  /** The timers the activity sets, each with its own callback. */
  predicate Table(timers: map<string, Timer<LuxuryAction>>)
  {
    forall k | k in timers :: Owns(k, timers[k].callback)
  }

  /** What the bonus rolls leave: the timer table, the next draw, and the bonus speed last set, if any. */
  datatype RollOutcome = RollOutcome(timers: map<string, Timer<LuxuryAction>>, next: nat, speed: Option<real>)

  /**
   * One bonus roll from draw `n` on, after the earlier rolls left the
   * bonus speed `speed`: the draw wins when below the probability for this
   * step; a win with no bonus on the other channel sets the bonus speed in
   * [1.5, 5) from the next draw and this channel's bonus for [10, 25)
   * seconds from the one after; anything else only takes the one draw.
   */
  function BonusRoll(timers: map<string, Timer<LuxuryAction>>, key: string, otherKey: string,
                     source: nat -> real, n: nat, delta: real, speed: Option<real>): (r: RollOutcome)
    requires DrawsInUnit(source)
    ensures r.next == n + 1 || r.next == n + 3
    ensures r.next == n + 3 <==> source(n) < BonusProbability(delta) && otherKey !in timers
    ensures r.next == n + 3 ==>
              key in r.timers && 10.0 <= r.timers[key].initialDuration < 25.0 && Fresh(r.timers[key]) &&
              r.speed.Some? && 1.5 <= r.speed.value < 5.0
    ensures forall k | k != key :: (k in r.timers <==> k in timers) && (k in timers ==> r.timers[k] == timers[k])
    ensures r.next == n + 1 ==> r.timers == timers && r.speed == speed
  {
    if source(n) < BonusProbability(delta) && otherKey !in timers then
      var duration := Uniform(10.0, 25.0, source(n + 2));
      RollOutcome(timers[key := Timer(duration, duration, BonusOver)], n + 3, Some(Uniform(1.5, 5.0, source(n + 1))))
    else
      RollOutcome(timers, n + 1, speed)
  }

  /** The two bonus rolls of a step from draw `n` on: channel A's, then channel B's. */
  function BonusRolls(timers: map<string, Timer<LuxuryAction>>, source: nat -> real, n: nat, delta: real): (r: RollOutcome)
    requires DrawsInUnit(source)
    ensures n + 2 <= r.next <= n + 6
    ensures !("bonusA" in timers && "bonusB" in timers) ==> !("bonusA" in r.timers && "bonusB" in r.timers)
    ensures forall k | k != "bonusA" && k != "bonusB" ::
              (k in r.timers <==> k in timers) && (k in timers ==> r.timers[k] == timers[k])
  {
    var a := BonusRoll(timers, "bonusA", "bonusB", source, n, delta, None);
    BonusRoll(a.timers, "bonusB", "bonusA", source, a.next, delta, a.speed)
  }

  class LuxuryHJActivity {
    const displayName: string
    const timerManager: TimerManager<LuxuryAction>
    const hjWaveManager: WaveManager<LuxuryAction>
    const bonusWaveManager: WaveManager<LuxuryAction>
    ghost const Repr: set<object>

    /**
     * The timers are the speed change and the bonuses, and at most one
     * bonus runs at a time; neither wave has a callback or a stop request,
     * and the bonus wave's speed only ever jumps, never eases.
     */
    ghost predicate Valid()
      reads this, Repr
    {
      Repr == {this, timerManager, hjWaveManager, bonusWaveManager} + hjWaveManager.Repr + bonusWaveManager.Repr &&
      hjWaveManager.Repr !! bonusWaveManager.Repr &&
      timerManager !in hjWaveManager.Repr && timerManager !in bonusWaveManager.Repr &&
      timerManager.Valid() && hjWaveManager.Valid() && bonusWaveManager.Valid() &&
      "hj" in hjWaveManager.waves && "bonus" in bonusWaveManager.waves &&
      hjWaveManager.baseSpeed.onReached == None && hjWaveManager.stopTargetCycle == None && !hjWaveManager.isStopped &&
      bonusWaveManager.baseSpeed.onReached == None && bonusWaveManager.stopTargetCycle == None &&
      !bonusWaveManager.isStopped && !bonusWaveManager.baseSpeed.IsTransitioning() &&
      Table(timerManager.timers) &&
      !("bonusA" in timerManager.timers && "bonusB" in timerManager.timers)
    }

    /**
     * What `speedChange` does with draws `n` to `n + 2`: the stroke eases
     * from its current speed to a target in [0.3, 3) at a rate in
     * [0.05, 0.3), and the next change is due after [1, 20) seconds.
     */
    twostate predicate SpeedChanged(rng: Rng, n: nat)
      requires rng.Valid()
      reads hjWaveManager.baseSpeed, timerManager, rng
    {
      var speed := Uniform(0.3, 3.0, rng.source(n));
      var rate := Uniform(0.05, 0.3, rng.source(n + 1));
      var next := Uniform(1.0, 20.0, rng.source(n + 2));
      hjWaveManager.baseSpeed.Retargeted(speed, Some(rate), None, None, None) &&
      timerManager.timers == old(timerManager.timers)["speedChange" := Timer(next, next, SpeedChange)] &&
      rng.next == n + 3
    }

    /** Both waves are set up, then the first speed change runs. */
    constructor (rng: Rng)
      requires rng.Valid()
      modifies rng
      ensures Valid() && fresh(Repr)
      ensures displayName == "Luxury HJ"
      ensures timerManager.timers.Keys == {"speedChange"}
    {
      displayName := "Luxury HJ";
      timerManager := new TimerManager();
      var hj := NewHJWaveManager();
      var bonus := NewBonusWaveManager();
      hjWaveManager := hj;
      bonusWaveManager := bonus;
      Repr := {this, timerManager, hj, bonus} + hj.Repr + bonus.Repr;
      new;
      assert fresh(Repr);
      SpeedChangeStep(rng);
    }

    /**
     * `speedChange`: a target speed in [0.3, 3) reached at a rate in
     * [0.05, 0.3), and the next change in [1, 20) seconds.
     */
    method SpeedChangeStep(rng: Rng)
      requires Valid() && rng.Valid()
      modifies timerManager, hjWaveManager.baseSpeed, rng
      ensures Valid() && SpeedChanged(rng, old(rng.next))
      ensures 0.3 <= hjWaveManager.baseSpeed.target < 3.0
      ensures 1.0 <= timerManager.timers["speedChange"].initialDuration < 20.0
    {
      var newSpeed := rng.InRange(0.3, 3.0);
      var changeRate := rng.InRange(0.05, 0.3);
      var nextSpeedChangeSecs := rng.InRange(1.0, 20.0);
      var fired := hjWaveManager.SetTargetSpeed(newSpeed, changeRate, None);
      var immediate := timerManager.AddTimer("speedChange", nextSpeedChangeSecs, SpeedChange);
    }

    /** Run a timer's callback: the speed change, or the end of a bonus, which does nothing. */
    method Dispatch(action: LuxuryAction, rng: Rng)
      requires Valid() && rng.Valid()
      modifies timerManager, hjWaveManager.baseSpeed, rng
      ensures Valid()
      ensures action == SpeedChange ==> SpeedChanged(rng, old(rng.next))
      ensures action == BonusOver ==> unchanged(timerManager, hjWaveManager.baseSpeed, rng)
    {
      match action
      case SpeedChange => SpeedChangeStep(rng);
      case BonusOver =>
    }

    /** The contract of `RunSimulation` as one predicate of the states before and after, for the host to pass on. */
    twostate predicate Stepped(delta: real, rng: Rng)
      reads this, Repr, rng
    {
      old(Valid()) && Valid() && rng.Valid() &&
      (exists ticked, m | Ticked(old(timerManager.timers), ticked, delta) && old(rng.next) <= m ::
         Rolled(BonusRolls(ticked, rng.source, m, delta), old(bonusWaveManager.baseSpeed.Current()), rng)) &&
      hjWaveManager.Moved(delta) &&
      bonusWaveManager.ClockedAt(delta, old(bonusWaveManager.baseSpeed.Current())) &&
      ("speedChange" in old(timerManager.timers) && Ends(old(timerManager.timers["speedChange"]), delta) ==>
         hjWaveManager.baseSpeed.start == old(hjWaveManager.baseSpeed.Current()) &&
         0.3 <= hjWaveManager.baseSpeed.target < 3.0) &&
      (!("speedChange" in old(timerManager.timers) && Ends(old(timerManager.timers["speedChange"]), delta)) ==>
         hjWaveManager.baseSpeed.Advanced(delta, None))
    }

    /**
     * `runSimulation`: the timers, both waves, then a roll for a bonus on
     * channel A and one on channel B. The timers are stepped and then
     * rolled on from a later draw (the waves' jitter may draw in between).
     * The stroke's speed is retargeted when its change came due and eases
     * on otherwise, and its clock moves at the resulting speed; the bonus
     * clock moves at the bonus speed it had, which the rolls may then reset.
     */
    method RunSimulation(delta: real, rng: Rng)
      requires Valid() && rng.Valid() && delta >= 0.0
      modifies Repr, rng
      ensures Valid()
      ensures exists ticked, m | Ticked(old(timerManager.timers), ticked, delta) && old(rng.next) <= m ::
                Rolled(BonusRolls(ticked, rng.source, m, delta), old(bonusWaveManager.baseSpeed.Current()), rng)
      ensures hjWaveManager.Moved(delta)
      ensures bonusWaveManager.ClockedAt(delta, old(bonusWaveManager.baseSpeed.Current()))
      ensures "speedChange" in old(timerManager.timers) && Ends(old(timerManager.timers["speedChange"]), delta) ==>
                hjWaveManager.baseSpeed.start == old(hjWaveManager.baseSpeed.Current()) &&
                0.3 <= hjWaveManager.baseSpeed.target < 3.0
      ensures !("speedChange" in old(timerManager.timers) && Ends(old(timerManager.timers["speedChange"]), delta)) ==>
                hjWaveManager.baseSpeed.Advanced(delta, None)
      ensures Stepped(delta, rng)
    {
      RunTimers(delta, rng);
      ghost var ticked := timerManager.timers;
      label Timed:
      UpdateHJ(delta, rng);
      label Stroked:
      UpdateBonus(delta, rng);
      ghost var m := rng.next;
      label Bonused:
      RollBonuses(delta, rng);
      assert Ticked(old(timerManager.timers), ticked, delta) && old(rng.next) <= m;
      assert bonusWaveManager.ClockedAt@Stroked(delta, old(bonusWaveManager.baseSpeed.Current()));
      assert Rolled(BonusRolls(ticked, rng.source, m, delta), old(bonusWaveManager.baseSpeed.Current()), rng);
    }

    /** The timers, the next draw and the bonus speed are those the rolls leave, the speed `before` if no roll won. */
    ghost predicate Rolled(o: RollOutcome, before: real, rng: Rng)
      reads timerManager, bonusWaveManager.baseSpeed, rng
    {
      timerManager.timers == o.timers && rng.next == o.next &&
      bonusWaveManager.baseSpeed.Current() == (if o.speed.Some? then o.speed.value else before)
    }

    /** The two bonus rolls of a step, channel A first; the stroke is left alone. */
    method RollBonuses(delta: real, rng: Rng)
      requires Valid() && rng.Valid() && delta >= 0.0
      modifies timerManager, bonusWaveManager.baseSpeed, rng
      ensures Valid()
      ensures Rolled(BonusRolls(old(timerManager.timers), rng.source, old(rng.next), delta),
                     old(bonusWaveManager.baseSpeed.Current()), rng)
    {
      ghost var a := BonusRoll(timerManager.timers, "bonusA", "bonusB", rng.source, rng.next, delta, None);
      RollBonus("bonusA", "bonusB", delta, rng);
      ghost var speed := bonusWaveManager.baseSpeed.Current();
      ghost var b := BonusRoll(a.timers, "bonusB", "bonusA", rng.source, a.next, delta, None);
      RollBonus("bonusB", "bonusA", delta, rng);
      assert Rolled(b, speed, rng);
    }

    /** `update` of the stroke's wave manager: its speed eases on and its clock moves; it never stops. */
    method UpdateHJ(delta: real, rng: Rng)
      requires Valid() && rng.Valid() && delta >= 0.0
      modifies hjWaveManager, hjWaveManager.baseSpeed, hjWaveManager.amplitudeVarianceHandler,
               hjWaveManager.speedVarianceHandler, rng
      ensures Valid() && old(rng.next) <= rng.next
      ensures hjWaveManager.baseSpeed.Advanced(delta, None) && hjWaveManager.Moved(delta)
    {
      hjWaveManager.Update(delta, rng);
    }

    /** `update` of the bonus wave manager: its clock moves at its speed; it never stops. */
    method UpdateBonus(delta: real, rng: Rng)
      requires Valid() && rng.Valid() && delta >= 0.0
      modifies bonusWaveManager, bonusWaveManager.baseSpeed, bonusWaveManager.amplitudeVarianceHandler,
               bonusWaveManager.speedVarianceHandler, rng
      ensures Valid() && old(rng.next) <= rng.next
      ensures bonusWaveManager.baseSpeed.Advanced(delta, None) && bonusWaveManager.Moved(delta)
      ensures bonusWaveManager.baseSpeed.Current() == old(bonusWaveManager.baseSpeed.Current())
    {
      bonusWaveManager.Update(delta, rng);
    }

    /**
     * One bonus roll: a draw is always made; if it falls below the
     * probability for this step and the other channel has no bonus, the
     * bonus wave jumps to a speed in [1.5, 5) and this channel's bonus runs
     * for [10, 25) seconds.
     */
    method RollBonus(key: string, otherKey: string, delta: real, rng: Rng)
      requires Valid() && rng.Valid() && delta >= 0.0
      requires (key == "bonusA" && otherKey == "bonusB") || (key == "bonusB" && otherKey == "bonusA")
      modifies timerManager, bonusWaveManager.baseSpeed, rng
      ensures Valid()
      ensures Rolled(BonusRoll(old(timerManager.timers), key, otherKey, rng.source, old(rng.next), delta, None),
                     old(bonusWaveManager.baseSpeed.Current()), rng)
      ensures var n := old(rng.next);
              var won := rng.source(n) < BonusProbability(delta);
              var speed := Uniform(1.5, 5.0, rng.source(n + 1));
              var duration := Uniform(10.0, 25.0, rng.source(n + 2));
              (won && otherKey !in old(timerManager.timers) ==>
                 timerManager.timers == old(timerManager.timers)[key := Timer(duration, duration, BonusOver)] &&
                 bonusWaveManager.baseSpeed.Current() == speed && !bonusWaveManager.baseSpeed.IsTransitioning() &&
                 rng.next == n + 3) &&
              (!(won && otherKey !in old(timerManager.timers)) ==>
                 unchanged(timerManager, bonusWaveManager.baseSpeed) && rng.next == n + 1)
    {
      var u := rng.NextDouble();
      if u < BonusProbability(delta) && !timerManager.HasTimer(otherKey) {
        StartBonus(key, otherKey, rng);
      }
    }

    /** A bonus on the channel of `key`: the bonus wave jumps to a speed in [1.5, 5), and the bonus runs [10, 25) seconds. */
    method StartBonus(key: string, otherKey: string, rng: Rng)
      requires Valid() && rng.Valid()
      requires (key == "bonusA" && otherKey == "bonusB") || (key == "bonusB" && otherKey == "bonusA")
      requires otherKey !in timerManager.timers
      modifies timerManager, bonusWaveManager.baseSpeed, rng
      ensures Valid()
      ensures var speed := Uniform(1.5, 5.0, rng.source(old(rng.next)));
              var duration := Uniform(10.0, 25.0, rng.source(old(rng.next) + 1));
              timerManager.timers == old(timerManager.timers)[key := Timer(duration, duration, BonusOver)] &&
              bonusWaveManager.baseSpeed.Current() == speed && !bonusWaveManager.baseSpeed.IsTransitioning() &&
              rng.next == old(rng.next) + 2
    {
      var speed := rng.InRange(1.5, 5.0);
      bonusWaveManager.SetSpeed(speed);
      var duration := rng.InRange(10.0, 25.0);
      var immediate := timerManager.AddTimer(key, duration, BonusOver);
    }

    /**
     * The base `runSimulation`: each timer present at the start is stepped,
     * and a callback runs as its timer ends. The timers are `Ticked`; the
     * stroke is retargeted exactly when its speed change came due.
     */
    method RunTimers(delta: real, rng: Rng)
      requires Valid() && rng.Valid() && delta >= 0.0
      modifies timerManager, hjWaveManager.baseSpeed, rng
      ensures Valid() && old(rng.next) <= rng.next
      ensures Ticked(old(timerManager.timers), timerManager.timers, delta)
      ensures "speedChange" in old(timerManager.timers) && Ends(old(timerManager.timers["speedChange"]), delta) ==>
                hjWaveManager.baseSpeed.start == old(hjWaveManager.baseSpeed.Current()) &&
                0.3 <= hjWaveManager.baseSpeed.target < 3.0
      ensures !("speedChange" in old(timerManager.timers) && Ends(old(timerManager.timers["speedChange"]), delta)) ==>
                unchanged(hjWaveManager.baseSpeed)
    {
      var keys := timerManager.Snapshot();
      ghost var start := timerManager.timers;
      ProgressStart(start, keys, delta);
      var i := 0;
      while i < |keys|
        invariant Valid() && rng.Valid() && old(rng.next) <= rng.next
        invariant Progress(start, keys, i, timerManager.timers, delta)
        invariant "speedChange" in Seen(keys, i) && Ends(start["speedChange"], delta) ==>
                    hjWaveManager.baseSpeed.start == old(hjWaveManager.baseSpeed.Current()) &&
                    0.3 <= hjWaveManager.baseSpeed.target < 3.0
        invariant !("speedChange" in Seen(keys, i) && Ends(start["speedChange"], delta)) ==>
                    unchanged(hjWaveManager.baseSpeed)
      {
        SeenNext(keys, i);
        Visit(keys, i, delta, rng, start);
        i := i + 1;
      }
      assert keys[..|keys|] == keys;
      ProgressDone(start, keys, timerManager.timers, delta);
    }

    /** One visit of `RunTimers`' loop: `keys[i]` is stepped, and if that ends it, its callback runs. */
    method Visit(keys: seq<string>, i: nat, delta: real, rng: Rng, ghost start: map<string, Timer<LuxuryAction>>)
      requires Valid() && rng.Valid() && delta >= 0.0
      requires Progress(start, keys, i, timerManager.timers, delta) && i < |keys|
      modifies timerManager, hjWaveManager.baseSpeed, rng
      ensures Valid() && old(rng.next) <= rng.next
      ensures Progress(start, keys, i + 1, timerManager.timers, delta)
      ensures !(keys[i] == "speedChange" && Ends(start[keys[i]], delta)) ==> unchanged(hjWaveManager.baseSpeed)
      ensures keys[i] == "speedChange" && Ends(start[keys[i]], delta) ==>
                hjWaveManager.baseSpeed.start == old(hjWaveManager.baseSpeed.Current()) &&
                0.3 <= hjWaveManager.baseSpeed.target < 3.0
    {
      ghost var before := timerManager.timers;
      var fired := timerManager.Tick(keys[i], delta);
      ghost var mid := timerManager.timers;
      if fired.Some? {
        assert Owns(keys[i], fired.value);
        Dispatch(fired.value, rng);
      }
      ProgressNext(start, keys, i, before, delta, mid, timerManager.timers);
    }

    /** `getPulse`: the stroke without amplitude jitter, mixed with the bonus wave on a channel with a bonus. */
    function GetPulse(sqrt: real -> real): (r: Pulse)
      requires Valid()
      reads this, Repr
      ensures r == LuxuryPulse(hjWaveManager.GetPosition("hj", false).value, hjWaveManager.CurrentAmplitude(),
                               bonusWaveManager.GetPosition("bonus", true).value,
                               timerManager.HasTimer("bonusA"), timerManager.HasTimer("bonusB"), sqrt)
      ensures !(timerManager.HasTimer("bonusA") && timerManager.HasTimer("bonusB"))
    {
      LuxuryPulse(hjWaveManager.GetPosition("hj", false).value, hjWaveManager.CurrentAmplitude(),
                  bonusWaveManager.GetPosition("bonus", true).value,
                  timerManager.HasTimer("bonusA"), timerManager.HasTimer("bonusB"), sqrt)
    }
  }
}
