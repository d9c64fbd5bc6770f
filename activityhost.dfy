/**
 * The activity host: the pulse source that runs one activity at a time.
 * Each pulse request advances the current activity by the time since the
 * previous request; each state update may, with a chance that grows with
 * the time since the previous update, switch to a different activity
 * drawn at random (never a calibration).
 */
module ActivityHosting {
  import opened Numeric
  import opened Random
  import opened Pulses
  import Lick
  import Penetration
  import Vibro
  import Milker
  import Chaos
  import LuxuryHJ
  import Opposites
  import Calibration
  import BJ
  import FastSlow
  import Additive

  /** The running activity, one case per concrete activity class. */
  datatype RunningActivity =
    | RunningLick(lick: Lick.LickActivity)
    | RunningPenetration(penetration: Penetration.PenetrationActivity)
    | RunningVibro(vibro: Vibro.VibroActivity)
    | RunningMilker(milker: Milker.MilkerActivity)
    | RunningChaos(chaos: Chaos.ChaosActivity)
    | RunningLuxuryHJ(luxuryHJ: LuxuryHJ.LuxuryHJActivity)
    | RunningOpposites(opposites: Opposites.OppositesActivity)
    | RunningCalibration1(calibration1: Calibration.Calibration1Activity)
    | RunningCalibration2(calibration2: Calibration.Calibration2Activity)
    | RunningBJ(bj: BJ.BJActivity)
    | RunningFastSlow(fastSlow: FastSlow.FastSlowActivity)
    | RunningAdditive(additive: Additive.AdditiveActivity)

  /** How many activities there are to choose from. */
  const ACTIVITY_COUNT: nat := 12

  /** The display names, in the order the activities are declared. */
  const CATALOGUE: seq<string> := [
    "Infinite licks", "Penetration", "Sliding vibrator", "Milkmaster 3000", "Chaos", "Luxury HJ",
    "Opposites", "Calibration 1", "Calibration 2", "BJ megamix", "Fast/slow", "Additive"]

  /** `String.contains`: `sub` occurs somewhere in `s`. */
  predicate Occurs(sub: string, s: string)
    decreases |s|
  {
    |sub| <= |s| && (s[..|sub|] == sub || Occurs(sub, s[1..]))
  }

  /** A string without the first character of `sub` cannot contain `sub`. */
  lemma {:induction false} AbsentFirstCharacter(sub: string, s: string)
    requires |sub| > 0 && sub[0] !in s
    ensures !Occurs(sub, s)
    decreases |s|
  {
    if |sub| <= |s| {
      assert s[0] in s;
      assert s[..|sub|][0] == s[0];
      assert forall c | c in s[1..] :: c in s;
      AbsentFirstCharacter(sub, s[1..]);
    }
  }

  /** Every placement of `sub` in `s` is seen by `Occurs`. */
  lemma {:induction false} OccursAt(sub: string, s: string, i: nat)
    requires i + |sub| <= |s| && s[i..i + |sub|] == sub
    ensures Occurs(sub, s)
    decreases i
  {
    if i > 0 {
      assert s[1..][i - 1..i - 1 + |sub|] == s[i..i + |sub|];
      OccursAt(sub, s[1..], i - 1);
    } else {
      assert s[..|sub|] == s[0..0 + |sub|];
    }
  }

  /** Whether the redraw in `changeActivity` keeps the candidate `name`. */
  predicate Acceptable(name: string, currentName: string) {
    name != currentName && !Occurs("Calibration", name)
  }

  /** Whatever is running, the catalogue has an activity the switch will accept. */
  lemma SomeActivityAcceptable(currentName: string)
    ensures var j := if currentName == CATALOGUE[0] then 1 else 0;
            Acceptable(CATALOGUE[j], currentName)
  {
    assert 'C' !in CATALOGUE[0] by {
      assert forall k | 0 <= k < |CATALOGUE[0]| :: CATALOGUE[0][k] != 'C';
    }
    assert 'C' !in CATALOGUE[1] by {
      assert forall k | 0 <= k < |CATALOGUE[1]| :: CATALOGUE[1][k] != 'C';
    }
    AbsentFirstCharacter("Calibration", CATALOGUE[0]);
    AbsentFirstCharacter("Calibration", CATALOGUE[1]);
  }

  /**
   * The non-negative time step of the host: the first call (a baseline
   * below zero) or a clock that went backwards gives zero; otherwise the
   * time since the baseline.
   */
  function Elapsed(baseline: real, now: real): (delta: real)
    ensures delta >= 0.0
    ensures baseline < 0.0 || baseline > now ==> delta == 0.0
    ensures 0.0 <= baseline <= now ==> baseline + delta == now
  {
    if baseline < 0.0 || baseline > now then 0.0 else now - baseline
  }

  /**
   * The chance of a switch in one update: the per-minute setting, tripled,
   * times the minutes elapsed. It is never negative, and nothing elapsed
   * means no chance.
   */
  function SwitchChance(changeProbability: real, delta: real): (p: real)
    ensures changeProbability >= 0.0 && delta >= 0.0 ==> p >= 0.0
    ensures delta == 0.0 ==> p == 0.0
  {
    (changeProbability * 3.0 * delta) / 60.0
  }

  /** A reset baseline: the next step, whenever it comes, is zero. */
  lemma FirstStepAfterResetIsZero(now: real)
    ensures Elapsed(-1.0, now) == 0.0
    ensures SwitchChance(1.0, Elapsed(-1.0, now)) == 0.0
  {
  }

  function ActivityObject(c: RunningActivity): object {
    match c
    case RunningLick(a) => a
    case RunningPenetration(a) => a
    case RunningVibro(a) => a
    case RunningMilker(a) => a
    case RunningChaos(a) => a
    case RunningLuxuryHJ(a) => a
    case RunningOpposites(a) => a
    case RunningCalibration1(a) => a
    case RunningCalibration2(a) => a
    case RunningBJ(a) => a
    case RunningFastSlow(a) => a
    case RunningAdditive(a) => a
  }

  ghost function ActivityRepr(c: RunningActivity): set<object> {
    match c
    case RunningLick(a) => a.Repr
    case RunningPenetration(a) => a.Repr
    case RunningVibro(a) => a.Repr
    case RunningMilker(a) => a.Repr
    case RunningChaos(a) => a.Repr
    case RunningLuxuryHJ(a) => a.Repr
    case RunningOpposites(a) => a.Repr
    case RunningCalibration1(a) => a.Repr
    case RunningCalibration2(a) => a.Repr
    case RunningBJ(a) => a.Repr
    case RunningFastSlow(a) => a.Repr
    case RunningAdditive(a) => a.Repr
  }

  ghost predicate ActivityValid(c: RunningActivity)
    reads ActivityObject(c), ActivityRepr(c)
  {
    match c
    case RunningLick(a) => a.Valid()
    case RunningPenetration(a) => a.Valid()
    case RunningVibro(a) => a.Valid()
    case RunningMilker(a) => a.Valid()
    case RunningChaos(a) => a.Valid()
    case RunningLuxuryHJ(a) => a.Valid()
    case RunningOpposites(a) => a.Valid()
    case RunningCalibration1(a) => a.Valid()
    case RunningCalibration2(a) => a.Valid()
    case RunningBJ(a) => a.Valid()
    case RunningFastSlow(a) => a.Valid()
    case RunningAdditive(a) => a.Valid()
  }

  /** Whatever leaves the activity's objects alone keeps it valid. */
  twostate lemma ActivityValidKept(c: RunningActivity)
    requires old(ActivityValid(c))
    requires unchanged(ActivityObject(c)) && unchanged(ActivityRepr(c))
    ensures ActivityValid(c)
  {
  }

  /** The activity's object together with its representation. */
  ghost function ActivityFrame(c: RunningActivity): set<object> {
    match c
    case RunningLick(a) => {a} + a.Repr
    case RunningPenetration(a) => {a} + a.Repr
    case RunningVibro(a) => {a} + a.Repr
    case RunningMilker(a) => {a} + a.Repr
    case RunningChaos(a) => {a} + a.Repr
    case RunningLuxuryHJ(a) => {a} + a.Repr
    case RunningOpposites(a) => {a} + a.Repr
    case RunningCalibration1(a) => {a} + a.Repr
    case RunningCalibration2(a) => {a} + a.Repr
    case RunningBJ(a) => {a} + a.Repr
    case RunningFastSlow(a) => {a} + a.Repr
    case RunningAdditive(a) => {a} + a.Repr
  }

  /** The activity is valid and `pulse` is what its `getPulse` gives as it now stands. */
  ghost predicate Gives(c: RunningActivity, pulse: Pulse, sqrt: real -> real, pow: (real, real) -> real)
    requires IsSqrt(sqrt)
    reads ActivityFrame(c)
  {
    match c
    case RunningLick(a) => a.Valid() && pulse == a.GetPulse(sqrt)
    case RunningPenetration(a) => a.Valid() && pulse == a.GetPulse(pow)
    case RunningVibro(a) => a.Valid() && pulse == a.GetPulse(sqrt)
    case RunningMilker(a) => a.Valid() && pulse == a.GetPulse(sqrt)
    case RunningChaos(a) => a.Valid() && pulse == a.GetPulse()
    case RunningLuxuryHJ(a) => a.Valid() && pulse == a.GetPulse(sqrt)
    case RunningOpposites(a) => a.Valid() && pulse == a.GetPulse()
    case RunningCalibration1(a) => a.Valid() && pulse == a.GetPulse(sqrt)
    case RunningCalibration2(a) => a.Valid() && pulse == a.GetPulse()
    case RunningBJ(a) => a.Valid() && a.IsPulse(pulse, sqrt)
    case RunningFastSlow(a) => a.Valid() && pulse == a.GetPulse()
    case RunningAdditive(a) => a.Valid() && pulse == a.GetPulse()
  }

  /**
   * What the step of the activity `c` did, from the state before it to the
   * state after: its own `Stepped`. The vibrator, milker and BJ activities
   * have none (their steps are stated part by part) and need only stay valid.
   */
  twostate predicate ActivityStepped(c: RunningActivity, delta: real, rng: Rng)
    reads ActivityFrame(c), rng
  {
    match c
    case RunningLick(a) => a.Stepped(delta, rng)
    case RunningPenetration(a) => a.Stepped(delta, rng)
    case RunningVibro(a) => a.Valid()
    case RunningMilker(a) => a.Valid()
    case RunningChaos(a) => a.Stepped(delta, rng)
    case RunningLuxuryHJ(a) => a.Stepped(delta, rng)
    case RunningOpposites(a) => a.Stepped(delta, rng)
    case RunningCalibration1(a) => a.Stepped(delta, rng)
    case RunningCalibration2(a) => a.Stepped(delta, rng)
    case RunningBJ(a) => a.Valid()
    case RunningFastSlow(a) => a.Stepped(delta, rng)
    case RunningAdditive(a) => a.Stepped(delta, rng)
  }

  /** The activity's display name. */
  function Name(c: RunningActivity): string {
    match c
    case RunningLick(a) => a.displayName
    case RunningPenetration(a) => a.displayName
    case RunningVibro(a) => a.displayName
    case RunningMilker(a) => a.displayName
    case RunningChaos(a) => a.displayName
    case RunningLuxuryHJ(a) => a.displayName
    case RunningOpposites(a) => a.displayName
    case RunningCalibration1(a) => a.displayName
    case RunningCalibration2(a) => a.displayName
    case RunningBJ(a) => a.displayName
    case RunningFastSlow(a) => a.displayName
    case RunningAdditive(a) => a.displayName
  }

  /** `createInstance` of the `index`-th activity class. */
  method CreateActivity(index: nat, rng: Rng) returns (c: RunningActivity)
    requires index < ACTIVITY_COUNT && rng.Valid()
    modifies rng
    ensures ActivityValid(c) && fresh(ActivityRepr(c)) && fresh(ActivityObject(c))
    ensures Name(c) == CATALOGUE[index]
  {
    if index == 0 {
      c := CreateLick(rng);
    } else if index == 1 {
      c := CreatePenetration(rng);
    } else if index == 2 {
      c := CreateVibro(rng);
    } else if index == 3 {
      c := CreateMilker(rng);
    } else if index == 4 {
      c := CreateChaos(rng);
    } else if index == 5 {
      c := CreateLuxuryHJ(rng);
    } else if index == 6 {
      c := CreateOpposites(rng);
    } else if index == 7 {
      c := CreateCalibration1();
    } else if index == 8 {
      c := CreateCalibration2();
    } else if index == 9 {
      c := CreateBJ(rng);
    } else if index == 10 {
      c := CreateFastSlow(rng);
    } else {
      c := CreateAdditive(rng);
    }
  }

  method CreateLick(rng: Rng) returns (c: RunningActivity)
    requires rng.Valid()
    modifies rng
    ensures ActivityValid(c) && fresh(ActivityRepr(c)) && fresh(ActivityObject(c))
    ensures Name(c) == CATALOGUE[0]
  {
    var a := new Lick.LickActivity(rng);
    c := RunningLick(a);
  }

  method CreatePenetration(rng: Rng) returns (c: RunningActivity)
    requires rng.Valid()
    modifies rng
    ensures ActivityValid(c) && fresh(ActivityRepr(c)) && fresh(ActivityObject(c))
    ensures Name(c) == CATALOGUE[1]
  {
    var a := new Penetration.PenetrationActivity(rng);
    c := RunningPenetration(a);
  }

  method CreateVibro(rng: Rng) returns (c: RunningActivity)
    requires rng.Valid()
    modifies rng
    ensures ActivityValid(c) && fresh(ActivityRepr(c)) && fresh(ActivityObject(c))
    ensures Name(c) == CATALOGUE[2]
  {
    var a := new Vibro.VibroActivity(rng);
    c := RunningVibro(a);
  }

  method CreateMilker(rng: Rng) returns (c: RunningActivity)
    requires rng.Valid()
    modifies rng
    ensures ActivityValid(c) && fresh(ActivityRepr(c)) && fresh(ActivityObject(c))
    ensures Name(c) == CATALOGUE[3]
  {
    var a := new Milker.MilkerActivity(rng);
    c := RunningMilker(a);
  }

  method CreateChaos(rng: Rng) returns (c: RunningActivity)
    requires rng.Valid()
    modifies rng
    ensures ActivityValid(c) && fresh(ActivityRepr(c)) && fresh(ActivityObject(c))
    ensures Name(c) == CATALOGUE[4]
  {
    var a := new Chaos.ChaosActivity(rng);
    c := RunningChaos(a);
  }

  method CreateLuxuryHJ(rng: Rng) returns (c: RunningActivity)
    requires rng.Valid()
    modifies rng
    ensures ActivityValid(c) && fresh(ActivityRepr(c)) && fresh(ActivityObject(c))
    ensures Name(c) == CATALOGUE[5]
  {
    var a := new LuxuryHJ.LuxuryHJActivity(rng);
    c := RunningLuxuryHJ(a);
  }

  method CreateOpposites(rng: Rng) returns (c: RunningActivity)
    requires rng.Valid()
    modifies rng
    ensures ActivityValid(c) && fresh(ActivityRepr(c)) && fresh(ActivityObject(c))
    ensures Name(c) == CATALOGUE[6]
  {
    var a := new Opposites.OppositesActivity(rng);
    c := RunningOpposites(a);
  }

  method CreateCalibration1() returns (c: RunningActivity)
    ensures ActivityValid(c) && fresh(ActivityRepr(c)) && fresh(ActivityObject(c))
    ensures Name(c) == CATALOGUE[7]
  {
    var a := new Calibration.Calibration1Activity();
    c := RunningCalibration1(a);
  }

  method CreateCalibration2() returns (c: RunningActivity)
    ensures ActivityValid(c) && fresh(ActivityRepr(c)) && fresh(ActivityObject(c))
    ensures Name(c) == CATALOGUE[8]
  {
    var a := new Calibration.Calibration2Activity();
    c := RunningCalibration2(a);
  }

  method CreateBJ(rng: Rng) returns (c: RunningActivity)
    requires rng.Valid()
    modifies rng
    ensures ActivityValid(c) && fresh(ActivityRepr(c)) && fresh(ActivityObject(c))
    ensures Name(c) == CATALOGUE[9]
  {
    var a := new BJ.BJActivity(rng);
    ghost var n := a.NextStageStep(rng);
    c := RunningBJ(a);
  }

  method CreateFastSlow(rng: Rng) returns (c: RunningActivity)
    requires rng.Valid()
    modifies rng
    ensures ActivityValid(c) && fresh(ActivityRepr(c)) && fresh(ActivityObject(c))
    ensures Name(c) == CATALOGUE[10]
  {
    var a := new FastSlow.FastSlowActivity(rng);
    c := RunningFastSlow(a);
  }

  method CreateAdditive(rng: Rng) returns (c: RunningActivity)
    requires rng.Valid()
    modifies rng
    ensures ActivityValid(c) && fresh(ActivityRepr(c)) && fresh(ActivityObject(c))
    ensures Name(c) == CATALOGUE[11]
  {
    var a := new Additive.AdditiveActivity(rng);
    // the rest of `init`, once the object exists: the first speed change, then the first proportion change
    a.SpeedChangeStep(rng);
    a.ProportionChangeStep(rng);
    c := RunningAdditive(a);
  }

  /** A draw whose candidate from `names` the switch turns down. */
  predicate Rejected(names: seq<string>, u: real, currentName: string)
    requires |names| > 0 && 0.0 <= u < 1.0
  {
    !Acceptable(names[PickIndex(u, |names|)], currentName)
  }

  /**
   * The redraw of `changeActivity`: uniform picks among `names` until one
   * is acceptable. It ends because some name is acceptable and every
   * index turns up again in the random stream.
   */
  method DrawAcceptableIndex(names: seq<string>, currentName: string, rng: Rng) returns (index: nat)
    requires rng.Valid() && exists j | 0 <= j < |names| :: Acceptable(names[j], currentName)
    modifies rng
    ensures index < |names| && Acceptable(names[index], currentName)
    ensures rng.next > old(rng.next) && index == PickIndex(rng.source(rng.next - 1), |names|)
    ensures forall n | old(rng.next) <= n < rng.next - 1 :: Rejected(names, rng.source(n), currentName)
  {
    ghost var j :| 0 <= j < |names| && Acceptable(names[j], currentName);
    assert Recurs(rng.source, rng.next, |names|, j);
    ghost var m :| m >= rng.next && PickIndex(rng.source(m), |names|) == j;
    index := rng.Pick(|names|);
    while !Acceptable(names[index], currentName)
      invariant rng.Valid() && old(rng.next) < rng.next && index < |names|
      invariant index == PickIndex(rng.source(rng.next - 1), |names|)
      invariant !Acceptable(names[index], currentName) ==> rng.next <= m
      invariant forall n | old(rng.next) <= n < rng.next - 1 :: Rejected(names, rng.source(n), currentName)
      decreases m - rng.next
    {
      index := rng.Pick(|names|);
    }
  }

  /** The host. */
  class ActivityHost {
    const displayName: string
    var current: RunningActivity
    var lastUpdateTime: real
    var lastSimulationTime: real
    /** The name the host reports as the current activity. */
    var currentActivityDisplayName: string
    ghost var Repr: set<object>

    ghost predicate Valid()
      reads this, Repr
    {
      Repr == {this, ActivityObject(current)} + ActivityRepr(current) &&
      this != ActivityObject(current) && this !in ActivityRepr(current) && ActivityValid(current)
    }

    /** The host holding `first`, with both baselines unset. */
    constructor (first: RunningActivity)
      requires ActivityValid(first)
      ensures Valid() && Repr == {this, ActivityObject(first)} + ActivityRepr(first)
      ensures displayName == "Activity output" && current == first
      ensures currentActivityDisplayName == Name(first)
      ensures lastUpdateTime == -1.0 && lastSimulationTime == -1.0
    {
      displayName := "Activity output";
      current := first;
      lastUpdateTime := -1.0;
      lastSimulationTime := -1.0;
      currentActivityDisplayName := Name(first);
      Repr := {this, ActivityObject(first)} + ActivityRepr(first);
      new;
      ActivityValidKept(first);
    }

    /**
     * `changeActivity`: a new activity whose name is not the current one
     * and does not contain "Calibration"; both baselines are reset so that
     * the next step of either kind is zero.
     */
    method ChangeActivity(rng: Rng)
      requires Valid() && rng.Valid()
      modifies this, rng
      ensures Valid() && fresh(ActivityRepr(current)) && fresh(ActivityObject(current))
      ensures Name(current) != old(Name(current)) && !Occurs("Calibration", Name(current))
      ensures lastUpdateTime == -1.0 && lastSimulationTime == -1.0
      ensures currentActivityDisplayName == Name(current)
    {
      SomeActivityAcceptable(Name(current));
      var index := DrawAcceptableIndex(CATALOGUE, Name(current), rng);
      var next := CreateActivity(index, rng);
      SetCurrentActivity(next);
    }

    /** `setCurrentActivity`: the chosen activity runs from now on, with both baselines reset. */
    method SetCurrentActivity(next: RunningActivity)
      requires ActivityValid(next) && this != ActivityObject(next) && this !in ActivityRepr(next)
      modifies this
      ensures Valid() && current == next
      ensures lastUpdateTime == -1.0 && lastSimulationTime == -1.0
      ensures currentActivityDisplayName == Name(next)
    {
      lastSimulationTime := -1.0;
      lastUpdateTime := -1.0;
      currentActivityDisplayName := Name(next);
      current := next;
      Repr := {this, ActivityObject(next)} + ActivityRepr(next);
      ActivityValidKept(next);
    }

    /**
     * `updateState`: one draw decides a switch, with the chance
     * `SwitchChance` of the time since the last update; afterwards the
     * baseline is `currentTime` either way.
     */
    method UpdateState(currentTime: real, changeProbability: real, rng: Rng)
      requires Valid() && rng.Valid() && rng !in Repr
      modifies this, rng
      ensures Valid() && lastUpdateTime == currentTime
      ensures rng.source(old(rng.next)) < SwitchChance(changeProbability, Elapsed(old(lastUpdateTime), currentTime)) ==>
                Name(current) != old(Name(current)) && !Occurs("Calibration", Name(current)) &&
                lastSimulationTime == -1.0
      ensures rng.source(old(rng.next)) >= SwitchChance(changeProbability, Elapsed(old(lastUpdateTime), currentTime)) ==>
                current == old(current) && lastSimulationTime == old(lastSimulationTime) &&
                rng.next == old(rng.next) + 1
    {
      var timeDelta := Elapsed(lastUpdateTime, currentTime);
      var probability := SwitchChance(changeProbability, timeDelta);
      var u := rng.NextDouble();
      if u < probability {
        ChangeActivity(rng);
        SetUpdateBaseline(currentTime);
      } else {
        SetUpdateBaseline(currentTime);
      }
    }

    /** The update baseline becomes `time`; nothing else changes. */
    method SetUpdateBaseline(time: real)
      requires Valid()
      modifies this
      ensures Valid() && lastUpdateTime == time
      ensures current == old(current) && lastSimulationTime == old(lastSimulationTime)
      ensures currentActivityDisplayName == old(currentActivityDisplayName)
    {
      lastUpdateTime := time;
    }

    /** The bookkeeping of `getPulseAtTime`: the step to run is `Elapsed` of the old baseline, which becomes `time`. */
    method Advance(time: real) returns (delta: real)
      requires Valid()
      modifies this
      ensures Valid() && current == old(current) && lastUpdateTime == old(lastUpdateTime)
      ensures delta == Elapsed(old(lastSimulationTime), time) && lastSimulationTime == time
    {
      if lastSimulationTime < 0.0 || lastSimulationTime > time {
        lastSimulationTime := time;
      }
      delta := time - lastSimulationTime;
      lastSimulationTime := time;
    }

    /** `getPulseAtTime`: the current activity runs for the non-negative step, then gives its pulse. */
    method GetPulseAtTime(time: real, rng: Rng, sqrt: real -> real, pow: (real, real) -> real) returns (pulse: Pulse)
      requires Valid() && rng.Valid() && IsSqrt(sqrt)
      modifies Repr, rng
      ensures Valid() && current == old(current) && lastSimulationTime == time
      ensures lastUpdateTime == old(lastUpdateTime) && Gives(current, pulse, sqrt, pow)
    {
      var delta := Advance(time);
      pulse := RunCurrent(delta, rng, sqrt, pow);
    }

    /** `runSimulation` then `getPulse` on whichever activity is running. */
    method RunCurrent(delta: real, rng: Rng, sqrt: real -> real, pow: (real, real) -> real) returns (pulse: Pulse)
      requires Valid() && rng.Valid() && IsSqrt(sqrt) && delta >= 0.0
      modifies ActivityRepr(current), rng
      ensures Valid() && ActivityStepped(current, delta, rng) && Gives(current, pulse, sqrt, pow)
    {
      pulse := RunActivity(current, delta, rng, sqrt, pow);
    }
  }

  /** `runSimulation` then `getPulse` on the activity `c`. */
  method RunActivity(c: RunningActivity, delta: real, rng: Rng, sqrt: real -> real, pow: (real, real) -> real)
    returns (pulse: Pulse)
    requires ActivityValid(c) && rng.Valid() && IsSqrt(sqrt) && delta >= 0.0
    modifies ActivityRepr(c), rng
    ensures ActivityValid(c) && ActivityStepped(c, delta, rng) && Gives(c, pulse, sqrt, pow)
  {
    match c
    case RunningLick(a) => pulse := RunLick(a, delta, rng, sqrt);
    case RunningPenetration(a) => pulse := RunPenetration(a, delta, rng, pow);
    case RunningVibro(a) => pulse := RunVibro(a, delta, rng, sqrt);
    case RunningMilker(a) => pulse := RunMilker(a, delta, rng, sqrt);
    case RunningChaos(a) => pulse := RunChaos(a, delta, rng);
    case RunningLuxuryHJ(a) => pulse := RunLuxuryHJ(a, delta, rng, sqrt);
    case RunningOpposites(a) => pulse := RunOpposites(a, delta, rng);
    case RunningCalibration1(a) => pulse := RunCalibration1(a, delta, rng, sqrt);
    case RunningCalibration2(a) => pulse := RunCalibration2(a, delta, rng);
    case RunningBJ(a) => pulse := RunBJ(a, delta, rng, sqrt);
    case RunningFastSlow(a) => pulse := RunFastSlow(a, delta, rng);
    case RunningAdditive(a) => pulse := RunAdditive(a, delta, rng);
  }

  /** `runSimulation` then `getPulse`, one per kind of activity: the pulse is the activity's own after its step. */
  method RunLick(a: Lick.LickActivity, delta: real, rng: Rng, sqrt: real -> real) returns (pulse: Pulse)
    requires a.Valid() && rng.Valid() && IsSqrt(sqrt) && delta >= 0.0
    modifies a.Repr, rng
    ensures a.Valid() && a.Stepped(delta, rng) && pulse == a.GetPulse(sqrt)
  {
    a.RunSimulation(delta, rng);
    pulse := a.GetPulse(sqrt);
  }

  method RunPenetration(a: Penetration.PenetrationActivity, delta: real, rng: Rng, pow: (real, real) -> real) returns (pulse: Pulse)
    requires a.Valid() && rng.Valid() && delta >= 0.0
    modifies a.Repr, rng
    ensures a.Valid() && a.Stepped(delta, rng) && pulse == a.GetPulse(pow)
  {
    a.RunSimulation(delta, rng);
    pulse := a.GetPulse(pow);
  }

  method RunVibro(a: Vibro.VibroActivity, delta: real, rng: Rng, sqrt: real -> real) returns (pulse: Pulse)
    requires a.Valid() && rng.Valid() && IsSqrt(sqrt) && delta >= 0.0
    modifies a.Repr, rng
    ensures a.Valid() && pulse == a.GetPulse(sqrt)
  {
    a.RunSimulation(delta, rng);
    pulse := a.GetPulse(sqrt);
  }

  method RunMilker(a: Milker.MilkerActivity, delta: real, rng: Rng, sqrt: real -> real) returns (pulse: Pulse)
    requires a.Valid() && rng.Valid() && IsSqrt(sqrt) && delta >= 0.0
    modifies a.Repr, rng
    ensures a.Valid() && pulse == a.GetPulse(sqrt)
  {
    a.RunSimulation(delta, rng);
    pulse := a.GetPulse(sqrt);
  }

  method RunChaos(a: Chaos.ChaosActivity, delta: real, rng: Rng) returns (pulse: Pulse)
    requires a.Valid() && rng.Valid() && delta >= 0.0
    modifies a.Repr, rng
    ensures a.Valid() && a.Stepped(delta, rng) && pulse == a.GetPulse()
  {
    a.RunSimulation(delta, rng);
    pulse := a.GetPulse();
  }

  method RunLuxuryHJ(a: LuxuryHJ.LuxuryHJActivity, delta: real, rng: Rng, sqrt: real -> real) returns (pulse: Pulse)
    requires a.Valid() && rng.Valid() && IsSqrt(sqrt) && delta >= 0.0
    modifies a.Repr, rng
    ensures a.Valid() && a.Stepped(delta, rng) && pulse == a.GetPulse(sqrt)
  {
    a.RunSimulation(delta, rng);
    pulse := a.GetPulse(sqrt);
  }

  method RunOpposites(a: Opposites.OppositesActivity, delta: real, rng: Rng) returns (pulse: Pulse)
    requires a.Valid() && rng.Valid() && delta >= 0.0
    modifies a.Repr, rng
    ensures a.Valid() && a.Stepped(delta, rng) && pulse == a.GetPulse()
  {
    a.RunSimulation(delta, rng);
    pulse := a.GetPulse();
  }

  method RunCalibration1(a: Calibration.Calibration1Activity, delta: real, rng: Rng, sqrt: real -> real) returns (pulse: Pulse)
    requires a.Valid() && rng.Valid() && IsSqrt(sqrt) && delta >= 0.0
    modifies a.Repr, rng
    ensures a.Valid() && a.Stepped(delta, rng) && pulse == a.GetPulse(sqrt)
  {
    a.RunSimulation(delta, rng);
    pulse := a.GetPulse(sqrt);
  }

  method RunCalibration2(a: Calibration.Calibration2Activity, delta: real, rng: Rng) returns (pulse: Pulse)
    requires a.Valid() && rng.Valid() && delta >= 0.0
    modifies a.Repr, rng
    ensures a.Valid() && a.Stepped(delta, rng) && pulse == a.GetPulse()
  {
    a.RunSimulation(delta, rng);
    pulse := a.GetPulse();
  }

  method RunBJ(a: BJ.BJActivity, delta: real, rng: Rng, sqrt: real -> real) returns (pulse: Pulse)
    requires a.Valid() && rng.Valid() && IsSqrt(sqrt) && delta >= 0.0
    modifies a.Repr, rng
    ensures a.Valid() && a.IsPulse(pulse, sqrt)
  {
    a.RunSimulation(delta, rng);
    pulse := a.GetPulse(sqrt);
  }

  method RunFastSlow(a: FastSlow.FastSlowActivity, delta: real, rng: Rng) returns (pulse: Pulse)
    requires a.Valid() && rng.Valid() && delta >= 0.0
    modifies a.Repr, rng
    ensures a.Valid() && a.Stepped(delta, rng) && pulse == a.GetPulse()
  {
    a.RunSimulation(delta, rng);
    pulse := a.GetPulse();
  }

  method RunAdditive(a: Additive.AdditiveActivity, delta: real, rng: Rng) returns (pulse: Pulse)
    requires a.Valid() && rng.Valid() && delta >= 0.0
    modifies a.Repr, rng
    ensures a.Valid() && a.Stepped(delta, rng) && pulse == a.GetPulse()
  {
    a.RunSimulation(delta, rng);
    pulse := a.GetPulse();
  }

  /**
   * The host's initialisation: a first activity drawn from all of them,
   * then a switch, which never lands on a calibration.
   */
  method NewActivityHost(rng: Rng) returns (host: ActivityHost)
    requires rng.Valid()
    modifies rng
    ensures host.Valid() && fresh(host.Repr)
    ensures !Occurs("Calibration", Name(host.current)) && host.currentActivityDisplayName == Name(host.current)
    ensures host.lastUpdateTime == -1.0 && host.lastSimulationTime == -1.0
  {
    var index := rng.Pick(ACTIVITY_COUNT);
    var first := CreateActivity(index, rng);
    host := new ActivityHost(first);
    host.ChangeActivity(rng);
  }
}
