/**
 * `SmoothedValue`: a value that eases from `start` to `target` along a
 * smoothstep curve over `duration` seconds, and hands back a completion
 * callback (an action of the owner's choosing) exactly once.
 */
module Smoothing {
  import opened Wrappers
  import opened Numeric
  import opened Utils

  /** The eased value `elapsed` seconds into a transition of `duration` seconds. */
  function Eased(start: real, target: real, elapsed: real, duration: real): (r: real)
    requires duration > 0.0
    ensures Min(start, target) <= r <= Max(start, target)
    ensures elapsed <= 0.0 ==> r == start
    ensures elapsed >= duration ==> r == target
  {
    EasedEnds(elapsed, duration);
    Blend(start, target, Smoothstep(Clamp(elapsed / duration, 0.0, 1.0)))
  }

  lemma EasedEnds(elapsed: real, duration: real)
    requires duration > 0.0
    ensures elapsed <= 0.0 ==> elapsed / duration <= 0.0
    ensures elapsed >= duration ==> elapsed / duration >= 1.0
  {
    if elapsed >= duration {
      DivSelf(duration);
      DivMonotone(duration, elapsed, duration);
    } else if elapsed <= 0.0 {
      DivMonotone(elapsed, 0.0, duration);
    }
  }

  /** The eased value never moves back towards `start` as time passes. */
  lemma {:induction false} EasedMonotone(start: real, target: real, e1: real, e2: real, duration: real)
    requires duration > 0.0 && e1 <= e2
    ensures start <= target ==> Eased(start, target, e1, duration) <= Eased(start, target, e2, duration)
    ensures start >= target ==> Eased(start, target, e1, duration) >= Eased(start, target, e2, duration)
  {
    var s1, s2 := EasedProgress(start, target, e1, e2, duration);
    BlendMonotone(start, target, s1, s2);
  }

  lemma EasedProgress(start: real, target: real, e1: real, e2: real, duration: real)
    returns (s1: real, s2: real)
    requires duration > 0.0 && e1 <= e2
    ensures s1 <= s2
    ensures 0.0 <= s1 <= 1.0 && 0.0 <= s2 <= 1.0
    ensures Eased(start, target, e1, duration) == Blend(start, target, s1)
    ensures Eased(start, target, e2, duration) == Blend(start, target, s2)
  {
    DivMonotone(e1, e2, duration);
    var t1 := Clamp(e1 / duration, 0.0, 1.0);
    var t2 := Clamp(e2 / duration, 0.0, 1.0);
    SmoothstepMonotone(t1, t2);
    s1 := Smoothstep(t1);
    s2 := Smoothstep(t2);
  }

  class SmoothedValue<A> {
    var start: real
    var target: real
    var elapsed: real
    var duration: real
    var onReached: Option<A>

    /** Time never runs backwards, and a callback is only held while a transition runs. */
    ghost predicate Valid()
      reads this
    {
      elapsed >= 0.0 && (!IsTransitioning() ==> onReached == None)
    }

    constructor (initialValue: real)
      ensures Valid()
      ensures start == initialValue && target == initialValue
      ensures elapsed == 0.0 && duration == 0.0 && onReached == None
    {
      start := initialValue;
      target := initialValue;
      elapsed := 0.0;
      duration := 0.0;
      onReached := None;
    }

    predicate IsTransitioning()
      reads this
    {
      elapsed < duration && duration > 0.0
    }

    /** `current`: the target once no transition runs, else the eased value, between `start` and `target`. */
    function Current(): (r: real)
      reads this
      ensures !IsTransitioning() ==> r == target
      ensures Min(start, target) <= r <= Max(start, target)
      ensures IsTransitioning() && elapsed <= 0.0 ==> r == start
    {
      if !IsTransitioning() then target else Eased(start, target, elapsed, duration)
    }

    function GetTarget(): (r: real)
      reads this
      ensures r == target
    {
      target
    }

    /**
     * The effect of `setTarget`: a transition from the old current value to
     * `newTarget`, lasting `|newTarget - start| / rate` (none for a
     * non-positive rate) or the given duration (none if there is no distance
     * to cover); a transition that takes no time hands its callback back at
     * once instead of keeping it.
     */
    twostate predicate Retargeted(newTarget: real, rate: Option<real>, newDuration: Option<real>,
                                  new callback: Option<A>, new fired: Option<A>)
      reads this
    {
      start == old(Current()) && target == newTarget && elapsed == 0.0 &&
      (rate.Some? ==> duration == (if rate.value > 0.0 then Abs(newTarget - start) / rate.value else 0.0)) &&
      (newDuration.Some? ==> duration == (if Abs(newTarget - start) > 0.0 then newDuration.value else 0.0)) &&
      (IsTransitioning() <==> duration > 0.0) &&
      (IsTransitioning() ==> onReached == callback && fired == None) &&
      (!IsTransitioning() ==> onReached == None && fired == callback)
    }

    /**
     * The effect of `update`: nothing unless a transition runs; otherwise
     * time advances by `delta`, and the step that ends the transition hands
     * back the callback, which is then gone, with the value at the target.
     */
    twostate predicate Advanced(delta: real, new fired: Option<A>)
      reads this
    {
      start == old(start) && target == old(target) && duration == old(duration) &&
      (!old(IsTransitioning()) ==> elapsed == old(elapsed) && onReached == old(onReached) && fired == None) &&
      (old(IsTransitioning()) ==> elapsed == old(elapsed) + delta) &&
      (old(IsTransitioning()) && IsTransitioning() ==> onReached == old(onReached) && fired == None) &&
      (old(IsTransitioning()) && !IsTransitioning() ==>
         fired == old(onReached) && onReached == None && Current() == target)
    }

    /**
     * `setTarget`: exactly one of `rate` and `duration` is given. The new
     * transition starts from the current value; if it takes no time the
     * callback is returned at once and not kept.
     */
    method SetTarget(newTarget: real, rate: Option<real>, newDuration: Option<real>, callback: Option<A>)
      returns (fired: Option<A>)
      requires Valid()
      requires rate.Some? != newDuration.Some?
      modifies this
      ensures Valid()
      ensures Retargeted(newTarget, rate, newDuration, callback, fired)
      ensures rate.Some? && rate.value > 0.0 && newTarget != old(Current()) ==> IsTransitioning()
    {
      start := Current();
      target := newTarget;
      var difference := Abs(newTarget - start);
      if rate.Some? {
        if rate.value > 0.0 && difference > 0.0 {
          assert difference / rate.value > 0.0;
        }
        duration := if rate.value > 0.0 then difference / rate.value else 0.0;
      } else {
        duration := if difference > 0.0 then newDuration.value else 0.0;
      }
      elapsed := 0.0;
      onReached := callback;
      fired := None;
      if !IsTransitioning() {
        fired := CompleteTransition();
      }
    }

    /** `setImmediately`: jump to `value` and drop any pending callback. */
    method SetImmediately(value: real)
      modifies this
      ensures Valid()
      ensures start == value && target == value && elapsed == 0.0 && duration == 0.0 && onReached == None
      ensures Current() == value
    {
      start := value;
      target := value;
      elapsed := 0.0;
      duration := 0.0;
      onReached := None;
    }

    /**
     * `update`: advance a running transition by `delta`; the step that ends
     * it returns the callback, which is then gone, and leaves the value at
     * the target.
     */
    method Update(delta: real) returns (fired: Option<A>)
      requires Valid() && delta >= 0.0
      modifies this
      ensures Valid()
      ensures Advanced(delta, fired)
      ensures start <= target ==> old(Current()) <= Current()
      ensures start >= target ==> old(Current()) >= Current()
    {
      fired := None;
      if !IsTransitioning() {
        return;
      }
      EasedMonotone(start, target, elapsed, elapsed + delta, duration);
      elapsed := elapsed + delta;
      if !IsTransitioning() {
        fired := CompleteTransition();
      }
    }

    /** `handleTransitionComplete`: take the callback out, leaving none behind. */
    method CompleteTransition() returns (fired: Option<A>)
      modifies this
      ensures start == old(start) && target == old(target)
      ensures elapsed == old(elapsed) && duration == old(duration)
      ensures onReached == None && fired == old(onReached)
    {
      fired := onReached;
      onReached := None;
    }
  }
}
