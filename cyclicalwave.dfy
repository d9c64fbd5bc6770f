/**
 * `CyclicalWave`, `VarianceHandler` and `WaveManager`: a keyframed shape
 * sampled once per cycle, a per-cycle jitter factor, and the cycle clock
 * that drives a set of named waves.
 */
module CyclicalWaves {
  import opened Wrappers
  import opened Numeric
  import opened Utils
  import opened Random
  import opened Smoothing

  /** The position in the cycle of a simulation time: Kotlin's `time % 1.0`. */
  function CyclePhase(time: real): (r: real)
    ensures time >= 0.0 ==> 0.0 <= r < 1.0 && r == time - time.Floor as real
  {
    if time >= 0.0 then RemOneIsFraction(time); Rem(time, 1.0) else Rem(time, 1.0)
  }

  /** Consecutive keyframes have increasing times. */
  predicate TimeOrdered(points: seq<WavePoint>)
  {
    forall i | 0 <= i < |points| - 1 :: points[i].time < points[i + 1].time
  }

  /** What the constructor demands of a shape. */
  predicate ValidShape(shape: WaveShape)
  {
    |shape.points| >= 2 &&
    (forall i | 0 <= i < |shape.points| :: 0.0 <= shape.points[i].time < 1.0) &&
    TimeOrdered(shape.points)
  }

  /** A shape the `CyclicalWave` constructor accepts. */
  type CheckedShape = shape: WaveShape | ValidShape(shape)
    witness WaveShape("", [WavePoint(0.0, 0.0, 0.0), WavePoint(0.5, 0.0, 0.0)], LINEAR)

  lemma {:induction false} TimesIncrease(points: seq<WavePoint>, i: nat, j: nat)
    requires TimeOrdered(points) && i < j < |points|
    ensures points[i].time < points[j].time
    decreases j - i
  {
    if i + 1 < j {
      TimesIncrease(points, i + 1, j);
    }
  }

  /** `indexOfLast { it.time <= phase }`: the last keyframe at or before `phase`, or -1. */
  function IndexOfLast(points: seq<WavePoint>, phase: real): (r: int)
    ensures -1 <= r < |points|
    ensures r >= 0 ==> points[r].time <= phase
    ensures forall k | r < k < |points| :: points[k].time > phase
  {
    if points == [] then -1
    else if points[|points| - 1].time <= phase then |points| - 1
    else IndexOfLast(points[..|points| - 1], phase)
  }

  /** At a keyframe's own time the search finds that keyframe. */
  lemma IndexAtKeyframe(points: seq<WavePoint>, k: nat)
    requires TimeOrdered(points) && k < |points|
    ensures IndexOfLast(points, points[k].time) == k
  {
    var r := IndexOfLast(points, points[k].time);
    if r > k {
      TimesIncrease(points, k, r);
    }
  }

  datatype Bracket = Bracket(previous: WavePoint, next: WavePoint)

  class CyclicalWave {
    const shape: CheckedShape

    ghost predicate Valid()
    {
      ValidShape(shape)
    }

    /** The constructor's checks: two or more points, times in [0, 1), strictly increasing. */
    constructor (shape: CheckedShape)
      ensures Valid() && this.shape == shape
    {
      this.shape := shape;
    }

    function Name(): string
    {
      shape.name
    }

    /**
     * `findSurroundingPoints`: the keyframes around `phase`. Before the
     * first keyframe the previous one is the last, a cycle earlier; after
     * the last the next one is the first, a cycle later.
     */
    function FindSurroundingPoints(phase: real): (r: Bracket)
      requires Valid()
      ensures r.previous.time < r.next.time
      ensures 0.0 <= phase < 1.0 ==> r.previous.time <= phase < r.next.time
      ensures (forall k | 0 <= k < |shape.points| :: shape.points[k].time > phase) ==>
                r == Bracket(shape.points[|shape.points| - 1].(time := shape.points[|shape.points| - 1].time - 1.0),
                             shape.points[0])
      ensures shape.points[|shape.points| - 1].time <= phase ==>
                r == Bracket(shape.points[|shape.points| - 1], shape.points[0].(time := shape.points[0].time + 1.0))
      ensures shape.points[0].time <= phase < shape.points[|shape.points| - 1].time ==>
                exists i | 0 <= i < |shape.points| - 1 ::
                  r == Bracket(shape.points[i], shape.points[i + 1]) &&
                  shape.points[i].time <= phase < shape.points[i + 1].time
    {
      var points := shape.points;
      var index := IndexOfLast(points, phase);
      var last := |points| - 1;
      if index == -1 then
        assert points[0].time > phase;
        Bracket(points[last].(time := points[last].time - 1.0), points[0])
      else if index == last then
        Bracket(points[last], points[0].(time := points[0].time + 1.0))
      else
        Bracket(points[index], points[index + 1])
    }

    /** `getPosition`: the shape's interpolation between the surrounding keyframes. */
    function GetPosition(simulationTime: real): (r: real)
      requires Valid()
      ensures var b := FindSurroundingPoints(CyclePhase(simulationTime));
              shape.interpolationType == LINEAR && 0.0 <= CyclePhase(simulationTime) ==>
                Min(b.previous.position, b.next.position) <= r <= Max(b.previous.position, b.next.position)
    {
      var phase := CyclePhase(simulationTime);
      var b := FindSurroundingPoints(phase);
      match shape.interpolationType
      case HERMITE =>
        HermiteInterpolate(phase, b.previous.time, b.previous.position, b.previous.slope,
                           b.next.time, b.next.position, b.next.slope)
      case LINEAR =>
        LinearInterpolate(phase, b.previous.time, b.previous.position, b.next.time, b.next.position)
    }

    /** `getPositionAndVelocity`: the same position, with the rate of change beside it. */
    function GetPositionAndVelocity(simulationTime: real): (r: Motion)
      requires Valid()
      ensures r.position == GetPosition(simulationTime)
    {
      var phase := CyclePhase(simulationTime);
      var b := FindSurroundingPoints(phase);
      match shape.interpolationType
      case HERMITE =>
        HermiteInterpolateWithVelocity(phase, b.previous.time, b.previous.position, b.previous.slope,
                                       b.next.time, b.next.position, b.next.slope)
      case LINEAR =>
        LinearInterpolateWithVelocity(phase, b.previous.time, b.previous.position, b.next.time, b.next.position)
    }
  }

  /** Sampling at the time of a keyframe gives that keyframe's position, for both interpolation kinds. */
  lemma SampleAtKeyframe(wave: CyclicalWave, simulationTime: real, k: nat)
    requires wave.Valid() && k < |wave.shape.points|
    requires CyclePhase(simulationTime) == wave.shape.points[k].time
    ensures wave.GetPosition(simulationTime) == wave.shape.points[k].position
    ensures wave.GetPositionAndVelocity(simulationTime).position == wave.shape.points[k].position
  {
    IndexAtKeyframe(wave.shape.points, k);
    var b := wave.FindSurroundingPoints(CyclePhase(simulationTime));
    assert b.previous == wave.shape.points[k];
  }

  /** A linear shape is flat over a segment whose two keyframes share a position, ends included. */
  lemma {:induction false} FlatSegment(wave: CyclicalWave, time: real, k: nat, c: real)
    requires wave.Valid() && wave.shape.interpolationType == LINEAR
    requires k + 1 < |wave.shape.points|
    requires wave.shape.points[k].position == c && wave.shape.points[k + 1].position == c
    requires wave.shape.points[k].time <= CyclePhase(time) <= wave.shape.points[k + 1].time
    ensures wave.GetPosition(time) == c
  {
    var points := wave.shape.points;
    var phase := CyclePhase(time);
    if phase == points[k + 1].time {
      IndexAtKeyframe(points, k + 1);
    } else {
      var r := IndexOfLast(points, phase);
      if r > k + 1 {
        TimesIncrease(points, k + 1, r);
      }
      assert r == k;
    }
  }

  /** A linear shape whose last and first keyframes share a position is flat across the wrap. */
  lemma FlatWrap(wave: CyclicalWave, time: real, c: real)
    requires wave.Valid() && wave.shape.interpolationType == LINEAR
    requires wave.shape.points[0].position == c && wave.shape.points[|wave.shape.points| - 1].position == c
    requires time >= 0.0
    requires CyclePhase(time) < wave.shape.points[0].time ||
             CyclePhase(time) >= wave.shape.points[|wave.shape.points| - 1].time
    ensures wave.GetPosition(time) == c
  {
    var points := wave.shape.points;
    var phase := CyclePhase(time);
    if phase < points[0].time {
      forall k | 0 <= k < |points|
        ensures points[k].time > phase
      {
        if k > 0 { TimesIncrease(points, 0, k); }
      }
    }
  }

  /** Which random jitter a handler draws. */
  datatype VarianceKind =
    | AmplitudeVariance   // 1 - nextDouble(0, variance)
    | SpeedVariance       // 1 + nextDouble(-variance, variance)

  /** The jitter factor for `variance` and draw `u`. */
  function VarianceFactor(kind: VarianceKind, variance: real, u: real): (r: real)
    requires 0.0 <= u < 1.0
    ensures kind == AmplitudeVariance && variance > 0.0 ==> 1.0 - variance < r <= 1.0
    ensures kind == SpeedVariance && variance > 0.0 ==> 1.0 - variance <= r < 1.0 + variance
  {
    match kind
    case AmplitudeVariance =>
      var factor := 1.0 - (0.0 + u * (variance - 0.0));
      if variance > 0.0 then FractionOfRange(0.0, variance, u); factor else factor
    case SpeedVariance =>
      var factor := 1.0 + (-variance + u * (variance - -variance));
      if variance > 0.0 then FractionOfRange(-variance, variance, u); factor else factor
  }

  class VarianceHandler {
    var previousFactor: real
    var currentFactor: real
    var variance: real
    var easeIn: real
    const kind: VarianceKind

    ghost predicate Valid()
      reads this
    {
      0.0 <= easeIn <= 1.0
    }

    constructor (initialFactor: real, kind: VarianceKind)
      ensures Valid()
      ensures previousFactor == initialFactor && currentFactor == initialFactor
      ensures variance == 0.0 && easeIn == 0.0 && this.kind == kind
    {
      previousFactor := initialFactor;
      currentFactor := initialFactor;
      variance := 0.0;
      easeIn := 0.0;
      this.kind := kind;
    }

    method SetVariance(newVariance: real)
      modifies this
      ensures variance == newVariance
      ensures previousFactor == old(previousFactor) && currentFactor == old(currentFactor) && easeIn == old(easeIn)
    {
      variance := newVariance;
    }

    /** `setEaseIn`: the fraction of a cycle the new factor is blended in over, clamped to [0, 1]. */
    method SetEaseIn(newEaseIn: real)
      modifies this
      ensures Valid()
      ensures easeIn == Clamp(newEaseIn, 0.0, 1.0)
      ensures previousFactor == old(previousFactor) && currentFactor == old(currentFactor) && variance == old(variance)
    {
      easeIn := Clamp(newEaseIn, 0.0, 1.0);
    }

    /**
     * The effect of `applyNewCycle` when the next draw of the stream is
     * `source(n)`: the current factor becomes the previous one, and the new
     * factor is exactly 1 for no variance and a fresh jitter otherwise.
     */
    twostate predicate NewCycle(source: nat -> real, n: nat)
      reads this
    {
      previousFactor == old(currentFactor) && variance == old(variance) && easeIn == old(easeIn) &&
      (variance == 0.0 ==> currentFactor == 1.0) &&
      (variance != 0.0 ==> 0.0 <= source(n) < 1.0 && currentFactor == VarianceFactor(kind, variance, source(n)))
    }

    /** How many draws `applyNewCycle` takes. */
    function Draws(): (d: nat)
      reads this
      ensures d <= 1
      ensures d == 0 <==> variance == 0.0
    {
      if variance == 0.0 then 0 else 1
    }

    method ApplyNewCycle(rng: Rng) returns ()
      requires Valid() && rng.Valid() && variance >= 0.0
      modifies this, rng
      ensures Valid()
      ensures NewCycle(rng.source, old(rng.next))
      ensures rng.next == old(rng.next) + Draws()
      ensures kind == AmplitudeVariance && variance > 0.0 ==> 1.0 - variance < currentFactor <= 1.0
      ensures kind == SpeedVariance && variance > 0.0 ==> 1.0 - variance <= currentFactor < 1.0 + variance
    {
      previousFactor := currentFactor;
      if variance == 0.0 {
        currentFactor := 1.0;
      } else {
        var u := rng.NextDouble();
        currentFactor := VarianceFactor(kind, variance, u);
      }
    }

    /**
     * `getInterpolatedFactor`: the blend from the previous to the current
     * factor over the first `easeIn` of the cycle; the current factor from
     * then on, or at once with no ease-in.
     */
    function GetInterpolatedFactor(phase: real): (r: real)
      reads this
      ensures Min(previousFactor, currentFactor) <= r <= Max(previousFactor, currentFactor)
      ensures easeIn == 0.0 ==> r == currentFactor
      ensures easeIn > 0.0 && phase >= easeIn ==> r == currentFactor
      ensures easeIn > 0.0 && phase <= 0.0 ==> r == previousFactor
    {
      var weight := if easeIn == 0.0 then 1.0 else Clamp(phase / easeIn, 0.0, 1.0);
      if easeIn > 0.0 then EasedEnds(phase, easeIn); Blend(previousFactor, currentFactor, weight)
      else Blend(previousFactor, currentFactor, weight)
    }
  }

  /**
   * `WaveManager`: named waves sampled on one clock. The clock runs at the
   * eased base speed times the speed jitter; each new whole cycle rolls both
   * jitter factors; a stop target halts the clock there and hands back the
   * stop callback. Callbacks are actions of the owner's choosing.
   */
  /** A sample scaled by `factor`. */
  function Scale(factor: real, x: real): (r: real)
    ensures factor == 1.0 ==> r == x
    ensures factor == 0.0 || x == 0.0 ==> r == 0.0
  {
    factor * x
  }

  /** A wave's motion at amplitude `amplitude`, its clock running at `speed`. */
  function ScaledMotion(m: Motion, amplitude: real, speed: real): (r: Motion)
    ensures r.position == Scale(amplitude, m.position)
    ensures amplitude == 0.0 ==> r == Motion(0.0, 0.0)
    ensures speed == 0.0 ==> r.velocity == 0.0
  {
    Motion(Scale(amplitude, m.position), Scale(Scale(amplitude, speed), m.velocity))
  }

  /** A clock at `time` after `delta` seconds at `speed` times the jitter `factor`. */
  function Advance(time: real, delta: real, speed: real, factor: real): real
  {
    time + delta * (speed * factor)
  }

  class WaveManager<A> {
    var waves: map<string, CyclicalWave>
    var currentTime: real
    var baseAmplitude: real
    const baseSpeed: SmoothedValue<A>
    var lastCycle: int
    var isStopped: bool
    var stopTargetCycle: Option<real>
    var stopCallback: Option<A>
    const amplitudeVarianceHandler: VarianceHandler
    const speedVarianceHandler: VarianceHandler
    ghost const Repr: set<object>

    ghost predicate Valid()
      reads this, Repr
    {
      Repr == {this, baseSpeed, amplitudeVarianceHandler, speedVarianceHandler} &&
      amplitudeVarianceHandler != speedVarianceHandler &&
      baseSpeed.Valid() && amplitudeVarianceHandler.Valid() && speedVarianceHandler.Valid() &&
      amplitudeVarianceHandler.kind == AmplitudeVariance && speedVarianceHandler.kind == SpeedVariance &&
      0.0 <= amplitudeVarianceHandler.variance <= 1.0 && 0.0 <= speedVarianceHandler.variance <= 1.0
    }

    constructor ()
      ensures Valid() && fresh(Repr)
      ensures waves == map[] && currentTime == 0.0 && baseAmplitude == 1.0 && lastCycle == 0
      ensures !isStopped && stopTargetCycle == None && stopCallback == None
      ensures baseSpeed.Current() == 1.0 && !baseSpeed.IsTransitioning() && baseSpeed.onReached == None
      ensures baseSpeed.start == 1.0 && baseSpeed.target == 1.0
      ensures amplitudeVarianceHandler.variance == 0.0 && speedVarianceHandler.variance == 0.0
      ensures amplitudeVarianceHandler.easeIn == 0.0 && speedVarianceHandler.easeIn == 0.0
      ensures amplitudeVarianceHandler.currentFactor == 1.0 && amplitudeVarianceHandler.previousFactor == 1.0
      ensures speedVarianceHandler.currentFactor == 1.0 && speedVarianceHandler.previousFactor == 1.0
    {
      waves := map[];
      currentTime := 0.0;
      baseAmplitude := 1.0;
      baseSpeed := new SmoothedValue(1.0);
      lastCycle := 0;
      isStopped := false;
      stopTargetCycle := None;
      stopCallback := None;
      amplitudeVarianceHandler := new VarianceHandler(1.0, AmplitudeVariance);
      speedVarianceHandler := new VarianceHandler(1.0, SpeedVariance);
      Repr := {this, baseSpeed, amplitudeVarianceHandler, speedVarianceHandler};
    }

    /** The clock, the waves and the stop state are as before. */
    twostate predicate ClockKept()
      reads this
    {
      waves == old(waves) && currentTime == old(currentTime) && baseAmplitude == old(baseAmplitude) &&
      lastCycle == old(lastCycle) && isStopped == old(isStopped) &&
      stopTargetCycle == old(stopTargetCycle) && stopCallback == old(stopCallback)
    }

    /** `currentAmplitude`: the base amplitude times the amplitude jitter at this phase. */
    function CurrentAmplitude(): (r: real)
      reads this, amplitudeVarianceHandler
      ensures amplitudeVarianceHandler.previousFactor == 1.0 && amplitudeVarianceHandler.currentFactor == 1.0 ==>
                r == baseAmplitude
    {
      baseAmplitude * amplitudeVarianceHandler.GetInterpolatedFactor(CyclePhase(currentTime))
    }

    /** `currentSpeed`: the eased base speed times the speed jitter at this phase. */
    function CurrentSpeed(): (r: real)
      reads this, baseSpeed, speedVarianceHandler
      ensures speedVarianceHandler.previousFactor == 1.0 && speedVarianceHandler.currentFactor == 1.0 ==>
                r == baseSpeed.Current()
    {
      baseSpeed.Current() * speedVarianceHandler.GetInterpolatedFactor(CyclePhase(currentTime))
    }

    /** The amplitude a sample is scaled by, with or without the jitter. */
    function Amplitude(applyAmplitudeVariance: bool): (r: real)
      reads this, amplitudeVarianceHandler
      ensures !applyAmplitudeVariance ==> r == baseAmplitude
    {
      if applyAmplitudeVariance then CurrentAmplitude() else baseAmplitude
    }

    /** `addWave`: store `wave` under `name`, or under its own name; a wave of that name is replaced. */
    method AddWave(wave: CyclicalWave, name: Option<string>)
      requires Valid() && wave.Valid()
      modifies this
      ensures Valid()
      ensures waves == old(waves)[name.GetOr(wave.Name()) := wave]
      ensures currentTime == old(currentTime) && baseAmplitude == old(baseAmplitude) && lastCycle == old(lastCycle)
      ensures isStopped == old(isStopped) && stopTargetCycle == old(stopTargetCycle) && stopCallback == old(stopCallback)
    {
      waves := waves[name.GetOr(wave.Name()) := wave];
    }

    method RemoveWave(name: string)
      requires Valid()
      modifies this
      ensures Valid()
      ensures waves == old(waves) - {name}
      ensures currentTime == old(currentTime) && baseAmplitude == old(baseAmplitude) && lastCycle == old(lastCycle)
      ensures isStopped == old(isStopped) && stopTargetCycle == old(stopTargetCycle) && stopCallback == old(stopCallback)
    {
      waves := waves - {name};
    }

    /** `getWave`: the wave of that name, which is an error when absent. */
    function GetWave(name: string): (r: Option<CyclicalWave>)
      reads this
      ensures r.Some? <==> name in waves
      ensures r.Some? ==> r.value == waves[name]
    {
      if name in waves then Some(waves[name]) else None
    }

    /** `getPosition`: the named wave at the current time, times the amplitude (with or without jitter). */
    function GetPosition(name: string, applyAmplitudeVariance: bool): (r: Option<real>)
      requires Valid()
      reads this, Repr
      ensures r.Some? <==> name in waves
      ensures r.Some? && !applyAmplitudeVariance ==> r.value == Scale(baseAmplitude, waves[name].GetPosition(currentTime))
    {
      if name !in waves then None
      else
        Some(Scale(Amplitude(applyAmplitudeVariance), waves[name].GetPosition(currentTime)))
    }

    /** `getPositionAndVelocity`: the same position, and the velocity scaled by amplitude and speed. */
    function GetPositionAndVelocity(name: string, applyAmplitudeVariance: bool): (r: Option<Motion>)
      requires Valid()
      reads this, Repr
      ensures r.Some? <==> name in waves
    {
      if name !in waves then None
      else
        Some(ScaledMotion(waves[name].GetPositionAndVelocity(currentTime), Amplitude(applyAmplitudeVariance), CurrentSpeed()))
    }

    /**
     * The first part of `update`: nothing while stopped; otherwise the base
     * speed eases on, and its callback, if that ends the easing, is handed
     * back to run before `FinishUpdate`.
     */
    method BeginUpdate(delta: real) returns (running: bool, fired: Option<A>)
      requires Valid() && delta >= 0.0
      modifies baseSpeed
      ensures Valid()
      ensures running == !isStopped
      ensures !running ==> fired == None && unchanged(baseSpeed)
      ensures running ==> baseSpeed.Advanced(delta, fired)
    {
      if isStopped {
        return false, None;
      }
      running := true;
      fired := baseSpeed.Update(delta);
    }

    /** The clock after a step of `delta` at the current speed. */
    function NextTime(delta: real): real
      reads this, baseSpeed, speedVarianceHandler
    {
      Advance(currentTime, delta, baseSpeed.Current(), speedVarianceHandler.GetInterpolatedFactor(CyclePhase(currentTime)))
    }

    /** `NextTime` is the clock plus `delta` at the current speed. */
    lemma NextTimeAtSpeed(delta: real)
      ensures NextTime(delta) == currentTime + delta * CurrentSpeed()
    {
    }

    /**
     * The rest of `update`: the clock moves by `delta` at the current speed;
     * entering another whole cycle rolls both jitter factors; reaching the
     * stop target pins the clock there, stops it and hands back the stop
     * callback; later updates then do nothing until `Restart`.
     */
    method FinishUpdate(delta: real, rng: Rng) returns (fired: Option<A>)
      requires Valid() && rng.Valid() && delta >= 0.0
      modifies this, amplitudeVarianceHandler, speedVarianceHandler, rng
      ensures Valid()
      ensures waves == old(waves) && baseAmplitude == old(baseAmplitude)
      ensures stopTargetCycle == old(stopTargetCycle) && stopCallback == old(stopCallback)
      ensures old(NextTime(delta)).Floor != old(lastCycle) ==>
                lastCycle == old(NextTime(delta)).Floor &&
                amplitudeVarianceHandler.NewCycle(rng.source, old(rng.next)) &&
                speedVarianceHandler.NewCycle(rng.source, old(rng.next) + old(amplitudeVarianceHandler.Draws())) &&
                rng.next == old(rng.next) + old(amplitudeVarianceHandler.Draws()) + old(speedVarianceHandler.Draws())
      ensures old(NextTime(delta)).Floor == old(lastCycle) ==>
                lastCycle == old(lastCycle) && rng.next == old(rng.next) &&
                unchanged(amplitudeVarianceHandler) && unchanged(speedVarianceHandler)
      ensures old(stopTargetCycle).Some? && old(NextTime(delta)) >= old(stopTargetCycle).value ==>
                currentTime == old(stopTargetCycle).value && isStopped && fired == old(stopCallback)
      ensures !(old(stopTargetCycle).Some? && old(NextTime(delta)) >= old(stopTargetCycle).value) ==>
                currentTime == old(NextTime(delta)) && isStopped == old(isStopped) && fired == None
    {
      var newTime := NextTime(delta);
      var newCycle := newTime.Floor;
      if newCycle != lastCycle {
        lastCycle := newCycle;
        amplitudeVarianceHandler.ApplyNewCycle(rng);
        speedVarianceHandler.ApplyNewCycle(rng);
      }
      if stopTargetCycle.Some? && newTime >= stopTargetCycle.value {
        currentTime := stopTargetCycle.value;
        isStopped := true;
        fired := stopCallback;
      } else {
        currentTime := newTime;
        fired := None;
      }
    }

    /**
     * The clock after an `update` by `delta` that does not reach a stop
     * target: it moves at the eased base speed times the speed jitter of
     * the phase it started from, the cycle count follows it, and the waves
     * and the amplitude stay.
     */
    twostate predicate Clocked(delta: real)
      reads this, baseSpeed, speedVarianceHandler
    {
      ClockedAt(delta, baseSpeed.Current())
    }

    /** `Clocked`, with the speed the clock moved at given outright. */
    twostate predicate ClockedAt(delta: real, speed: real)
      reads this, speedVarianceHandler
    {
      waves == old(waves) && baseAmplitude == old(baseAmplitude) &&
      currentTime == Advance(old(currentTime), delta, speed,
                             old(speedVarianceHandler.GetInterpolatedFactor(CyclePhase(currentTime)))) &&
      lastCycle == currentTime.Floor
    }

    /** What an `update` that does not reach a stop target does: `Clocked`, and the stop state stays. */
    twostate predicate Moved(delta: real)
      reads this, baseSpeed, speedVarianceHandler
    {
      Clocked(delta) &&
      isStopped == old(isStopped) && stopTargetCycle == old(stopTargetCycle) && stopCallback == old(stopCallback)
    }

    /**
     * Whether an `update` by `delta` that eased the base speed to its
     * present value reaches the stop target: the clock, moved at that speed
     * times the jitter of the phase it started from, gets to the target.
     */
    twostate predicate Reaches(delta: real)
      reads this, baseSpeed, speedVarianceHandler
    {
      old(stopTargetCycle).Some? &&
      Advance(old(currentTime), delta, baseSpeed.Current(),
              old(speedVarianceHandler.GetInterpolatedFactor(CyclePhase(currentTime)))) >= old(stopTargetCycle).value
    }

    /**
     * What an `update` that reaches the stop target does to the clock: it
     * is pinned at the target and stopped; the cycle count follows the
     * unpinned clock; the waves, the amplitude and the stop request stay.
     */
    twostate predicate Halted(delta: real)
      reads this, baseSpeed, speedVarianceHandler
    {
      waves == old(waves) && baseAmplitude == old(baseAmplitude) && isStopped &&
      stopTargetCycle == old(stopTargetCycle) && stopCallback == old(stopCallback) &&
      old(stopTargetCycle).Some? && currentTime == old(stopTargetCycle).value &&
      lastCycle == Advance(old(currentTime), delta, baseSpeed.Current(),
                           old(speedVarianceHandler.GetInterpolatedFactor(CyclePhase(currentTime)))).Floor
    }

    /**
     * `update` for an owner that gives the speed no callback: nothing while
     * stopped; otherwise the base speed eases on and the clock moves, or is
     * pinned at the stop target, whose callback is handed back to run.
     */
    method Step(delta: real, rng: Rng) returns (fired: Option<A>)
      requires Valid() && rng.Valid() && delta >= 0.0
      requires baseSpeed.onReached == None
      modifies this, baseSpeed, amplitudeVarianceHandler, speedVarianceHandler, rng
      ensures Valid() && baseSpeed.onReached == None && old(rng.next) <= rng.next
      ensures old(isStopped) ==>
                unchanged(this, baseSpeed, amplitudeVarianceHandler, speedVarianceHandler) &&
                rng.next == old(rng.next) && fired == None
      ensures !old(isStopped) ==> baseSpeed.Advanced(delta, None)
      ensures !old(isStopped) && Reaches(delta) ==> Halted(delta) && fired == old(stopCallback)
      ensures !old(isStopped) && !Reaches(delta) ==> Moved(delta) && fired == None
    {
      var running, reached := BeginUpdate(delta);
      fired := None;
      if running {
        fired := FinishUpdate(delta, rng);
      }
    }

    /**
     * `update` for an owner that gives neither the speed nor a stop a
     * callback: nothing while stopped; otherwise the base speed eases on and
     * the clock moves, and there is no callback to run.
     */
    method Update(delta: real, rng: Rng)
      requires Valid() && rng.Valid() && delta >= 0.0
      requires baseSpeed.onReached == None && stopTargetCycle == None
      modifies this, baseSpeed, amplitudeVarianceHandler, speedVarianceHandler, rng
      ensures Valid() && baseSpeed.onReached == None && old(rng.next) <= rng.next
      ensures old(isStopped) ==>
                unchanged(this, baseSpeed, amplitudeVarianceHandler, speedVarianceHandler) && rng.next == old(rng.next)
      ensures !old(isStopped) ==> baseSpeed.Advanced(delta, None) && Moved(delta)
    {
      var fired := Step(delta, rng);
    }

    /** `stopAtEndOfCycle`: stop at the next whole cycle, `floor(currentTime + 1)`. */
    method StopAtEndOfCycle(callback: A)
      requires Valid()
      modifies this
      ensures Valid()
      ensures stopTargetCycle == Some((currentTime + 1.0).Floor as real) && stopCallback == Some(callback)
      ensures old(currentTime) < stopTargetCycle.value <= old(currentTime) + 1.0
      ensures waves == old(waves) && currentTime == old(currentTime) && baseAmplitude == old(baseAmplitude)
      ensures lastCycle == old(lastCycle) && isStopped == old(isStopped)
    {
      stopTargetCycle := Some((currentTime + 1.0).Floor as real);
      stopCallback := Some(callback);
    }

    /** `stopAfterIterations(n)`: stop at `floor(currentTime + n)`. */
    method StopAfterIterations(iterations: int, callback: A)
      requires Valid()
      modifies this
      ensures Valid()
      ensures stopTargetCycle == Some((currentTime + iterations as real).Floor as real) && stopCallback == Some(callback)
      ensures currentTime == 0.0 && iterations >= 0 ==> stopTargetCycle.value == iterations as real
      ensures waves == old(waves) && currentTime == old(currentTime) && baseAmplitude == old(baseAmplitude)
      ensures lastCycle == old(lastCycle) && isStopped == old(isStopped)
    {
      stopTargetCycle := Some((currentTime + iterations as real).Floor as real);
      stopCallback := Some(callback);
    }

    /** `restart`: clock to zero, no stop target, running; the cycle count and the waves stay. */
    method Restart()
      requires Valid()
      modifies this
      ensures Valid()
      ensures stopTargetCycle == None && !isStopped && currentTime == 0.0
      ensures waves == old(waves) && lastCycle == old(lastCycle) && baseAmplitude == old(baseAmplitude)
      ensures stopCallback == old(stopCallback)
    {
      stopTargetCycle := None;
      isStopped := false;
      currentTime := 0.0;
    }

    /** `setSpeed`: the base speed jumps to `speed`, dropping any easing and its callback. */
    method SetSpeed(speed: real)
      requires Valid()
      modifies baseSpeed
      ensures Valid()
      ensures baseSpeed.Current() == speed && baseSpeed.GetTarget() == speed
      ensures !baseSpeed.IsTransitioning() && baseSpeed.onReached == None
    {
      baseSpeed.SetImmediately(speed);
    }

    method SetAmplitude(amplitude: real)
      requires Valid()
      modifies this
      ensures Valid()
      ensures baseAmplitude == amplitude
      ensures waves == old(waves) && currentTime == old(currentTime) && lastCycle == old(lastCycle)
      ensures isStopped == old(isStopped) && stopTargetCycle == old(stopTargetCycle) && stopCallback == old(stopCallback)
    {
      baseAmplitude := amplitude;
    }

    /** `setAmplitudeVariance`: clamped to [0, 1]. */
    method SetAmplitudeVariance(variance: real)
      requires Valid()
      modifies amplitudeVarianceHandler
      ensures Valid()
      ensures amplitudeVarianceHandler.variance == Clamp(variance, 0.0, 1.0)
      ensures amplitudeVarianceHandler.easeIn == old(amplitudeVarianceHandler.easeIn)
      ensures amplitudeVarianceHandler.currentFactor == old(amplitudeVarianceHandler.currentFactor)
      ensures amplitudeVarianceHandler.previousFactor == old(amplitudeVarianceHandler.previousFactor)
    {
      amplitudeVarianceHandler.SetVariance(Clamp(variance, 0.0, 1.0));
    }

    /** `setSpeedVariance`: clamped to [0, 1]. */
    method SetSpeedVariance(variance: real)
      requires Valid()
      modifies speedVarianceHandler
      ensures Valid()
      ensures speedVarianceHandler.variance == Clamp(variance, 0.0, 1.0)
      ensures speedVarianceHandler.easeIn == old(speedVarianceHandler.easeIn)
      ensures speedVarianceHandler.currentFactor == old(speedVarianceHandler.currentFactor)
      ensures speedVarianceHandler.previousFactor == old(speedVarianceHandler.previousFactor)
    {
      speedVarianceHandler.SetVariance(Clamp(variance, 0.0, 1.0));
    }

    method SetAmplitudeVarianceEaseIn(easeIn: real)
      requires Valid()
      modifies amplitudeVarianceHandler
      ensures Valid()
      ensures amplitudeVarianceHandler.easeIn == Clamp(easeIn, 0.0, 1.0)
      ensures amplitudeVarianceHandler.variance == old(amplitudeVarianceHandler.variance)
      ensures amplitudeVarianceHandler.currentFactor == old(amplitudeVarianceHandler.currentFactor)
      ensures amplitudeVarianceHandler.previousFactor == old(amplitudeVarianceHandler.previousFactor)
    {
      amplitudeVarianceHandler.SetEaseIn(easeIn);
    }

    method SetSpeedVarianceEaseIn(easeIn: real)
      requires Valid()
      modifies speedVarianceHandler
      ensures Valid()
      ensures speedVarianceHandler.easeIn == Clamp(easeIn, 0.0, 1.0)
      ensures speedVarianceHandler.variance == old(speedVarianceHandler.variance)
      ensures speedVarianceHandler.currentFactor == old(speedVarianceHandler.currentFactor)
      ensures speedVarianceHandler.previousFactor == old(speedVarianceHandler.previousFactor)
    {
      speedVarianceHandler.SetEaseIn(easeIn);
    }

    /** `setTargetSpeed`: ease the base speed to `target` at `rate`; a callback that fires at once is handed back. */
    method SetTargetSpeed(target: real, rate: real, onReached: Option<A>) returns (fired: Option<A>)
      requires Valid()
      modifies baseSpeed
      ensures Valid()
      ensures baseSpeed.Retargeted(target, Some(rate), None, onReached, fired)
    {
      fired := baseSpeed.SetTarget(target, Some(rate), None, onReached);
    }

    function GetTargetSpeed(): (r: real)
      reads this, baseSpeed
      ensures r == baseSpeed.target
    {
      baseSpeed.GetTarget()
    }
  }

  /** Both of the manager's samplers agree on the position. */
  lemma PositionsAgree<A>(manager: WaveManager<A>, name: string, applyAmplitudeVariance: bool)
    requires manager.Valid() && name in manager.waves
    ensures manager.GetPositionAndVelocity(name, applyAmplitudeVariance).value.position ==
            manager.GetPosition(name, applyAmplitudeVariance).value
  {
  }
}
