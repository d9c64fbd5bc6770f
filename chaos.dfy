/**
 * "Chaos": all four outputs are redrawn at random every few simulation
 * steps, and how many steps that is changes every 10 to 30 seconds.
 */
module Chaos {
  import opened Numeric
  import opened Utils
  import opened Random
  import opened Timers
  import opened Pulses

  /** The one callback: draw a new step count and schedule the next change. */
  datatype ChaosAction = RandomiseEveryCyclesChange

  const MIN_CYCLES: int := 1
  const MAX_CYCLES: int := 10

  /** The step counter after one more step: back to zero when it reaches the threshold. */
  function NextCount(counter: int, threshold: int): (r: int)
    requires 0 <= counter
    ensures 0 <= r && (threshold >= 1 ==> r < threshold)
    ensures r == 0 <==> counter + 1 >= threshold
    ensures r != 0 ==> r == counter + 1
  {
    if counter + 1 >= threshold then 0 else counter + 1
  }

  /** From zero, the counter comes back to zero after exactly `threshold` steps and not before. */
  lemma {:induction false} CountReturns(threshold: int, steps: nat)
    requires threshold >= 1 && steps <= threshold
    ensures Iterate(threshold, steps) == (if steps == threshold then 0 else steps)
  {
    if steps > 0 {
      CountReturns(threshold, steps - 1);
    }
  }

  /** The counter after `steps` steps from zero with a fixed threshold. */
  function Iterate(threshold: int, steps: nat): (r: int)
    ensures 0 <= r
  {
    if steps == 0 then 0 else NextCount(Iterate(threshold, steps - 1), threshold)
  }

  /** The key of the step-count change timer. */
  const CHANGE_KEY: string := "randomiseEveryCyclesChange"

  /** The change timer set from the draw `u`: it runs for a time in [10, 30) seconds. */
  function ChangeTimer(u: real): (t: Timer<ChaosAction>)
    requires 0.0 <= u < 1.0
    ensures 10.0 <= t.initialDuration < 30.0 && Fresh(t) && t.callback == RandomiseEveryCyclesChange
  {
    var d := Uniform(10.0, 30.0, u);
    Timer(d, d, RandomiseEveryCyclesChange)
  }

  /** How many draws a timer step of `delta` makes: two when it ends the change timer `t`, none otherwise. */
  function ChangeDraws(t: Timer<ChaosAction>, delta: real): (n: nat)
    ensures n == 0 || n == 2
    ensures n == 2 <==> Ends(t, delta)
  {
    if Ends(t, delta) then 2 else 0
  }

  class ChaosActivity {
    const displayName: string
    const timerManager: TimerManager<ChaosAction>
    var randomiseEveryCycles: int
    var cycleCounter: int
    var ampA: real
    var ampB: real
    var freqA: real
    var freqB: real
    ghost const Repr: set<object>

    /** All but the presence of the change timer: it is the only timer there can be. */
    ghost predicate Inner()
      reads this, Repr
    {
      Repr == {this, timerManager} && timerManager.Valid() &&
      (forall k | k in timerManager.timers ::
         k == CHANGE_KEY && timerManager.timers[k].callback == RandomiseEveryCyclesChange) &&
      MIN_CYCLES <= randomiseEveryCycles <= MAX_CYCLES && 0 <= cycleCounter &&
      0.0 <= ampA <= 1.0 && 0.0 <= ampB <= 1.0 && 0.0 <= freqA <= 1.0 && 0.0 <= freqB <= 1.0
    }

    /** The step-count change is always scheduled. */
    ghost predicate Valid()
      reads this, Repr
    {
      Inner() && CHANGE_KEY in timerManager.timers
    }

    /** Draw all four outputs, then the step count and its change timer. */
    constructor (rng: Rng)
      requires rng.Valid()
      modifies rng
      ensures Valid() && fresh(Repr)
      ensures displayName == "Chaos" && cycleCounter == 0
      ensures ampA == rng.source(old(rng.next)) && ampB == rng.source(old(rng.next) + 1)
      ensures freqA == rng.source(old(rng.next) + 2) && freqB == rng.source(old(rng.next) + 3)
      ensures randomiseEveryCycles == MIN_CYCLES + PickIndex(rng.source(old(rng.next) + 4), MAX_CYCLES - MIN_CYCLES + 1)
      ensures timerManager.timers == map[CHANGE_KEY := ChangeTimer(rng.source(old(rng.next) + 5))]
      ensures rng.next == old(rng.next) + 6
    {
      displayName := "Chaos";
      timerManager := new TimerManager();
      randomiseEveryCycles := 1;
      cycleCounter := 0;
      ampA, ampB, freqA, freqB := 0.0, 0.0, 0.0, 0.0;
      Repr := {this, timerManager};
      new;
      Randomise(rng);
      RandomiseEveryCyclesChangeStep(rng);
    }

    /** `randomise`: the four outputs are the next four draws, in the order A and B amplitude, A and B frequency. */
    method Randomise(rng: Rng)
      requires Inner() && rng.Valid()
      modifies this, rng
      ensures Inner()
      ensures ampA == rng.source(old(rng.next)) && ampB == rng.source(old(rng.next) + 1)
      ensures freqA == rng.source(old(rng.next) + 2) && freqB == rng.source(old(rng.next) + 3)
      ensures rng.next == old(rng.next) + 4
      ensures randomiseEveryCycles == old(randomiseEveryCycles) && cycleCounter == old(cycleCounter)
    {
      ampA := rng.InRange(0.0, 1.0);
      ampB := rng.InRange(0.0, 1.0);
      freqA := rng.InRange(0.0, 1.0);
      freqB := rng.InRange(0.0, 1.0);
    }

    /**
     * `randomiseEveryCyclesChange`: a step count drawn from 1..10, then the
     * change timer set afresh for a time drawn from [10, 30) seconds.
     */
    method RandomiseEveryCyclesChangeStep(rng: Rng)
      requires Inner() && rng.Valid()
      modifies timerManager, this, rng
      ensures Valid()
      ensures randomiseEveryCycles == MIN_CYCLES + PickIndex(rng.source(old(rng.next)), MAX_CYCLES - MIN_CYCLES + 1)
      ensures timerManager.timers == old(timerManager.timers)[CHANGE_KEY := ChangeTimer(rng.source(old(rng.next) + 1))]
      ensures rng.next == old(rng.next) + 2
      ensures cycleCounter == old(cycleCounter)
      ensures ampA == old(ampA) && ampB == old(ampB) && freqA == old(freqA) && freqB == old(freqB)
    {
      randomiseEveryCycles := rng.IntInRange(MIN_CYCLES, MAX_CYCLES);
      var nextChangeSecs := rng.InRange(10.0, 30.0);
      var immediate := timerManager.AddTimer(CHANGE_KEY, nextChangeSecs, RandomiseEveryCyclesChange);
    }

    /** The contract of `RunSimulation` as one predicate of the states before and after, for the host to pass on. */
    twostate predicate Stepped(delta: real, rng: Rng)
      reads this, Repr, rng
    {
      old(Valid()) && Valid() && rng.Valid() &&
      TimersStepped(delta, rng) &&
      cycleCounter == NextCount(old(cycleCounter), randomiseEveryCycles) &&
      cycleCounter < randomiseEveryCycles &&
      (cycleCounter != 0 ==>
         ampA == old(ampA) && ampB == old(ampB) && freqA == old(freqA) && freqB == old(freqB) &&
         rng.next == old(rng.next) + ChangeDraws(old(timerManager.timers[CHANGE_KEY]), delta)) &&
      (cycleCounter == 0 ==>
         var m := old(rng.next) + ChangeDraws(old(timerManager.timers[CHANGE_KEY]), delta);
         rng.next == m + 4 &&
         ampA == rng.source(m) && ampB == rng.source(m + 1) &&
         freqA == rng.source(m + 2) && freqB == rng.source(m + 3))
    }

    /**
     * `runSimulation`: the timers, then one more step on the counter; the
     * step that reaches the current threshold resets it and redraws the
     * outputs from the next four draws, and any other step leaves them as
     * they were.
     */
    method RunSimulation(delta: real, rng: Rng)
      requires Valid() && rng.Valid() && delta >= 0.0
      modifies Repr, rng
      ensures Valid()
      ensures TimersStepped(delta, rng)
      ensures cycleCounter == NextCount(old(cycleCounter), randomiseEveryCycles)
      ensures cycleCounter < randomiseEveryCycles
      ensures cycleCounter != 0 ==>
                ampA == old(ampA) && ampB == old(ampB) && freqA == old(freqA) && freqB == old(freqB) &&
                rng.next == old(rng.next) + ChangeDraws(old(timerManager.timers[CHANGE_KEY]), delta)
      ensures cycleCounter == 0 ==>
                var m := old(rng.next) + ChangeDraws(old(timerManager.timers[CHANGE_KEY]), delta);
                rng.next == m + 4 &&
                ampA == rng.source(m) && ampB == rng.source(m + 1) &&
                freqA == rng.source(m + 2) && freqB == rng.source(m + 3)
      ensures Stepped(delta, rng)
    {
      RunTimers(delta, rng);
      cycleCounter := cycleCounter + 1;
      if cycleCounter >= randomiseEveryCycles {
        cycleCounter := 0;
        Randomise(rng);
      }
    }

    /**
     * What the timers do in one step of `delta`: the step that ends the
     * change timer draws a new step count and sets the timer afresh from
     * the next two draws; any other step counts it down and keeps the step
     * count.
     */
    twostate predicate TimersStepped(delta: real, rng: Rng)
      requires old(Valid()) && rng.Valid()
      reads this, timerManager, rng
    {
      var n := old(rng.next);
      var t := old(timerManager.timers[CHANGE_KEY]);
      (Ends(t, delta) ==>
         randomiseEveryCycles == MIN_CYCLES + PickIndex(rng.source(n), MAX_CYCLES - MIN_CYCLES + 1) &&
         timerManager.timers == map[CHANGE_KEY := ChangeTimer(rng.source(n + 1))]) &&
      (!Ends(t, delta) ==>
         randomiseEveryCycles == old(randomiseEveryCycles) &&
         timerManager.timers == map[CHANGE_KEY := CountedDown(t, delta)])
    }

    /** The base `runSimulation`: each timer present at the start is stepped, and a callback runs as its timer ends. */
    method RunTimers(delta: real, rng: Rng)
      requires Valid() && rng.Valid() && delta >= 0.0
      modifies Repr, rng
      ensures Valid()
      ensures TimersStepped(delta, rng)
      ensures rng.next == old(rng.next) + ChangeDraws(old(timerManager.timers[CHANGE_KEY]), delta)
      ensures cycleCounter == old(cycleCounter)
      ensures ampA == old(ampA) && ampB == old(ampB) && freqA == old(freqA) && freqB == old(freqB)
    {
      var keys := timerManager.Snapshot();
      ghost var t := timerManager.timers[CHANGE_KEY];
      ghost var n := rng.next;
      ghost var count := randomiseEveryCycles;
      assert timerManager.timers == map[CHANGE_KEY := t];
      // the one place of the change timer among the keys
      ghost var p :| 0 <= p < |keys| && keys[p] == CHANGE_KEY;
      var i := 0;
      while i < |keys|
        invariant 0 <= i <= |keys|
        invariant Valid() && rng.Valid()
        invariant cycleCounter == old(cycleCounter)
        invariant ampA == old(ampA) && ampB == old(ampB) && freqA == old(freqA) && freqB == old(freqB)
        invariant i <= p ==>
                    timerManager.timers == map[CHANGE_KEY := t] && rng.next == n && randomiseEveryCycles == count
        invariant i > p && Ends(t, delta) ==>
                    randomiseEveryCycles == MIN_CYCLES + PickIndex(rng.source(n), MAX_CYCLES - MIN_CYCLES + 1) &&
                    timerManager.timers == map[CHANGE_KEY := ChangeTimer(rng.source(n + 1))] && rng.next == n + 2
        invariant i > p && !Ends(t, delta) ==>
                    randomiseEveryCycles == count &&
                    timerManager.timers == map[CHANGE_KEY := CountedDown(t, delta)] && rng.next == n
      {
        assert i != p ==> keys[i] != CHANGE_KEY;
        var fired := timerManager.Tick(keys[i], delta);
        if fired.Some? {
          RandomiseEveryCyclesChangeStep(rng);
        }
        i := i + 1;
      }
    }

    /** `getPulse`: the four drawn values. */
    function GetPulse(): (r: Pulse)
      requires Valid()
      reads this, Repr
      ensures r.ampA == ampA && r.ampB == ampB && r.freqA == freqA && r.freqB == freqB
      ensures 0.0 <= r.ampA <= 1.0 && 0.0 <= r.ampB <= 1.0 && 0.0 <= r.freqA <= 1.0 && 0.0 <= r.freqB <= 1.0
    {
      Pulse(ampA, ampB, freqA, freqB)
    }
  }
}
