/**
 * `TimerManager`: a keyed table of one-shot countdowns. Keys keep the order of
 * their first insertion (Kotlin's `mutableMapOf` is a linked hash map), and a
 * callback is an action value of the owner's choosing that the owner runs.
 */
module Timers {
  import opened Wrappers
  import opened Numeric

  datatype Timer<A> = Timer(initialDuration: real, remainingTime: real, callback: A)

  ghost predicate Distinct<K>(s: seq<K>)
  {
    forall i, j | 0 <= i < j < |s| :: s[i] != s[j]
  }

  /** `s` with every occurrence of `k` removed. */
  function Without(s: seq<string>, k: string): (r: seq<string>)
    ensures forall x :: x in r <==> x in s && x != k
    ensures Distinct(s) ==> Distinct(r)
  {
    if s == [] then []
    else if s[0] == k then Without(s[1..], k)
    else
      var rest := Without(s[1..], k);
      assert Distinct(s) ==> s[0] !in rest by {
        if Distinct(s) {
          assert forall x | x in s[1..] :: x != s[0];
        }
      }
      [s[0]] + rest
  }

  lemma {:induction false} WithoutAbsent(s: seq<string>, k: string)
    requires k !in s
    ensures Without(s, k) == s
  {
    if s != [] {
      WithoutAbsent(s[1..], k);
    }
  }

  lemma {:induction false} WithoutConcat(a: seq<string>, b: seq<string>, k: string)
    ensures Without(a + b, k) == Without(a, k) + Without(b, k)
  {
    if a == [] {
      assert a + b == b;
    } else {
      assert (a + b)[1..] == a[1..] + b;
      WithoutConcat(a[1..], b, k);
    }
  }

  /** The timers of `order` that survive a step of `delta`, in order. */
  function Survivors<A>(order: seq<string>, timers: map<string, Timer<A>>, delta: real): (r: seq<string>)
    requires forall k | k in order :: k in timers
    ensures forall k :: k in r <==> k in order && timers[k].remainingTime - delta > 0.0
    ensures Distinct(order) ==> Distinct(r)
  {
    if order == [] then []
    else
      var init := order[..|order| - 1];
      var last := order[|order| - 1];
      assert forall k | k in init :: k in order;
      var rest := Survivors(init, timers, delta);
      if timers[last].remainingTime - delta > 0.0 then
        assert Distinct(order) ==> last !in init;
        rest + [last]
      else rest
  }

  /** The callbacks of the timers of `order` that expire in a step of `delta`, in order. */
  function Expired<A>(order: seq<string>, timers: map<string, Timer<A>>, delta: real): (r: seq<A>)
    requires forall k | k in order :: k in timers
    ensures forall c :: c in r ==> exists k | k in order :: timers[k].remainingTime - delta <= 0.0 && timers[k].callback == c
  {
    if order == [] then []
    else
      var init := order[..|order| - 1];
      var last := order[|order| - 1];
      assert forall k | k in init :: k in order;
      var rest := Expired(init, timers, delta);
      if timers[last].remainingTime - delta > 0.0 then rest
      else rest + [timers[last].callback]
  }

  /** The table after the timers of `visited` were stepped by `delta` and the expired ones removed. */
  function Stepped<A>(timers: map<string, Timer<A>>, visited: seq<string>, delta: real): (r: map<string, Timer<A>>)
    ensures forall k :: k in r <==> k in timers && (k in visited ==> timers[k].remainingTime - delta > 0.0)
  {
    map k | k in timers && (k in visited ==> timers[k].remainingTime - delta > 0.0) ::
      if k in visited then timers[k].(remainingTime := timers[k].remainingTime - delta) else timers[k]
  }

  /** Whether a step of `delta` ends the timer `t`. */
  predicate Ends<A>(t: Timer<A>, delta: real)
  {
    t.remainingTime - delta <= 0.0
  }

  /** `t` after a step of `delta` that does not end it. */
  function CountedDown<A>(t: Timer<A>, delta: real): (r: Timer<A>)
    ensures r.initialDuration == t.initialDuration && r.callback == t.callback
    ensures r.remainingTime == t.remainingTime - delta
  {
    t.(remainingTime := t.remainingTime - delta)
  }

  /** A timer set afresh and not yet stepped. */
  predicate Fresh<A>(t: Timer<A>)
  {
    t.remainingTime == t.initialDuration
  }

  /**
   * What a callback that owns `key` may do to the table: drop or set afresh
   * the timer of `key`, and leave every other timer as it was.
   */
  ghost predicate Refreshed<A>(before: map<string, Timer<A>>, after: map<string, Timer<A>>, key: string)
  {
    (forall k | k != key :: k in after <==> k in before) &&
    (forall k | k in after && k != key :: after[k] == before[k]) &&
    (key in after ==> Fresh(after[key]))
  }

  /**
   * Where an owner's `update` loop stands once the keys of `visited` were
   * stepped, each expiry running a callback that owns its key: a timer of
   * `start` still running is counted down if visited and untouched if not;
   * every other timer in the table was set afresh by a callback.
   */
  ghost predicate Visited<A>(start: map<string, Timer<A>>, now: map<string, Timer<A>>, visited: set<string>, delta: real)
  {
    (forall k | k in start && (k in visited ==> !Ends(start[k], delta)) ::
       k in now && now[k] == (if k in visited then CountedDown(start[k], delta) else start[k])) &&
    (forall k | k in now && !(k in start && (k in visited ==> !Ends(start[k], delta))) :: Fresh(now[k]))
  }

  /**
   * The table after a whole `update` of `before` by `delta`: every timer
   * that the step does not end is counted down, and every other timer left
   * is one a callback set afresh.
   */
  ghost predicate Ticked<A>(before: map<string, Timer<A>>, after: map<string, Timer<A>>, delta: real)
  {
    Visited(before, after, before.Keys, delta)
  }

  lemma VisitedNone<A>(start: map<string, Timer<A>>, delta: real)
    ensures Visited(start, start, {}, delta)
  {
  }

  /**
   * One visit of an owner's `update` loop keeps `Visited`: the key is
   * ticked (`mid`), and if that ended it, a callback owning it ran
   * (`after`).
   */
  lemma {:induction false} VisitedNext<A>(start: map<string, Timer<A>>, now: map<string, Timer<A>>, visited: set<string>,
                                          key: string, delta: real,
                                          mid: map<string, Timer<A>>, after: map<string, Timer<A>>)
    requires Visited(start, now, visited, delta)
    requires key in start && key !in visited
    requires !Ends(start[key], delta) ==> mid == now[key := CountedDown(now[key], delta)] && after == mid
    requires Ends(start[key], delta) ==> mid == now - {key} && Refreshed(mid, after, key)
    ensures Visited(start, after, visited + {key}, delta)
  {
    assert key in now && now[key] == start[key];
  }

  /** The keys among the first `i` of `keys`: those an `update` loop has visited. */
  ghost function Seen(keys: seq<string>, i: nat): (r: set<string>)
    requires i <= |keys|
    ensures forall k :: k in r <==> k in keys[..i]
  {
    set k | k in keys[..i]
  }

  /** A visit adds its key to those seen, and a key is seen once. */
  lemma SeenNext(keys: seq<string>, i: nat)
    requires i < |keys|
    ensures Seen(keys, i + 1) == Seen(keys, i) + {keys[i]}
    ensures Distinct(keys) ==> keys[i] !in Seen(keys, i)
  {
    assert keys[..i + 1] == keys[..i] + [keys[i]];
    if Distinct(keys) {
      forall j | 0 <= j < i ensures keys[j] != keys[i] { assert Distinct(keys); }
    }
  }

  /**
   * An owner's `update` loop over `keys`, the table's keys at its start,
   * after `i` visits: `Visited` with the first `i` keys visited.
   */
  ghost predicate Progress<A>(start: map<string, Timer<A>>, keys: seq<string>, i: nat, now: map<string, Timer<A>>, delta: real)
  {
    i <= |keys| && Distinct(keys) && (forall k :: k in keys <==> k in start) &&
    Visited(start, now, Seen(keys, i), delta)
  }

  lemma ProgressStart<A>(start: map<string, Timer<A>>, keys: seq<string>, delta: real)
    requires Distinct(keys) && forall k :: k in keys <==> k in start
    ensures Progress(start, keys, 0, start, delta)
  {
    assert Seen(keys, 0) == {};
    VisitedNone(start, delta);
  }

  /** The key the loop visits next is one of `start` and still holds its starting timer. */
  lemma ProgressAt<A>(start: map<string, Timer<A>>, keys: seq<string>, i: nat, now: map<string, Timer<A>>, delta: real)
    requires Progress(start, keys, i, now, delta) && i < |keys|
    ensures keys[i] in start && keys[i] in now && now[keys[i]] == start[keys[i]]
  {
    SeenNext(keys, i);
    assert keys[i] in start;
  }

  /** Every one of the first `i` keys is in the table `now`. */
  ghost predicate Kept<A>(keys: seq<string>, i: nat, now: map<string, Timer<A>>)
  {
    forall j | 0 <= j < i && j < |keys| :: keys[j] in now
  }

  /**
   * The visit of `keys[i]` keeps `Progress`: the key is ticked (`mid`), and
   * if that ended it, a callback owning it ran (`after`). A visit that
   * leaves the key in the table also keeps `Kept`.
   */
  lemma ProgressNext<A>(start: map<string, Timer<A>>, keys: seq<string>, i: nat, now: map<string, Timer<A>>, delta: real,
                        mid: map<string, Timer<A>>, after: map<string, Timer<A>>)
    requires Progress(start, keys, i, now, delta) && i < |keys|
    requires keys[i] in now && !Ends(now[keys[i]], delta) ==>
               mid == now[keys[i] := CountedDown(now[keys[i]], delta)] && after == mid
    requires keys[i] in now && Ends(now[keys[i]], delta) ==> mid == now - {keys[i]} && Refreshed(mid, after, keys[i])
    ensures Progress(start, keys, i + 1, after, delta)
    ensures Kept(keys, i, now) && keys[i] in after ==> Kept(keys, i + 1, after)
  {
    SeenNext(keys, i);
    assert keys[i] in start;
    assert keys[i] in now && now[keys[i]] == start[keys[i]];
    VisitedNext(start, now, Seen(keys, i), keys[i], delta, mid, after);
    if Kept(keys, i, now) && keys[i] in after {
      forall j | 0 <= j < i + 1 ensures keys[j] in after {
        if j < i {
          assert keys[j] != keys[i] by { assert Distinct(keys); }
        }
      }
    }
  }

  /** Once every key is visited, the loop has made a whole `update`. */
  lemma ProgressDone<A>(start: map<string, Timer<A>>, keys: seq<string>, now: map<string, Timer<A>>, delta: real)
    requires Progress(start, keys, |keys|, now, delta)
    ensures Ticked(start, now, delta)
  {
    assert keys[..|keys|] == keys;
    assert Seen(keys, |keys|) == start.Keys;
  }

  /** With nothing set afresh, the table of `Stepped` is a whole `update`. */
  lemma SteppedTicked<A>(timers: map<string, Timer<A>>, order: seq<string>, delta: real)
    requires forall k :: k in order <==> k in timers
    ensures Ticked(timers, Stepped(timers, order, delta), delta)
  {
  }

  class TimerManager<A> {
    var timers: map<string, Timer<A>>
    /** The keys of `timers` in iteration order. */
    var order: seq<string>

    /** Every stored timer is still running and has not run longer than its duration. */
    ghost predicate Valid()
      reads this
    {
      Distinct(order) &&
      (forall k :: k in timers <==> k in order) &&
      (forall k | k in timers :: 0.0 < timers[k].remainingTime <= timers[k].initialDuration)
    }

    constructor ()
      ensures Valid()
      ensures timers == map[] && order == []
    {
      timers := map[];
      order := [];
    }

    /**
     * `addTimer`: a non-positive duration runs the callback at once and stores
     * nothing; otherwise the timer is stored, replacing any timer of that key
     * in its place.
     */
    method AddTimer(key: string, duration: real, callback: A) returns (fired: Option<A>)
      requires Valid()
      modifies this
      ensures Valid()
      ensures duration <= 0.0 ==> fired == Some(callback) && timers == old(timers) && order == old(order)
      ensures duration > 0.0 ==> fired == None
      ensures duration > 0.0 ==> timers == old(timers)[key := Timer(duration, duration, callback)]
      ensures duration > 0.0 ==> order == (if key in old(timers) then old(order) else old(order) + [key])
      ensures duration > 0.0 || key !in old(timers) ==> Refreshed(old(timers), timers, key)
    {
      if duration <= 0.0 {
        return Some(callback);
      }
      if key !in timers {
        order := order + [key];
      }
      timers := timers[key := Timer(duration, duration, callback)];
      fired := None;
    }

    /** `cancelTimer`: forget the timer of `key`, if any. */
    method CancelTimer(key: string)
      requires Valid()
      modifies this
      ensures Valid()
      ensures timers == old(timers) - {key} && order == Without(old(order), key)
      ensures Refreshed(old(timers), timers, key)
    {
      timers := timers - {key};
      order := Without(order, key);
    }

    function HasTimer(key: string): (r: bool)
      reads this
      ensures r <==> key in timers
    {
      key in timers
    }

    /** `getRemainingTime`: positive while the timer runs, absent otherwise. */
    function RemainingTime(key: string): (r: Option<real>)
      reads this
      ensures r.Some? <==> HasTimer(key)
      ensures Valid() && r.Some? ==> 0.0 < r.value
    {
      if key in timers then Some(timers[key].remainingTime) else None
    }

    /** `getElapsedTime`: how long the timer of `key` has run, short of its duration. */
    function ElapsedTime(key: string): (r: Option<real>)
      reads this
      ensures r.Some? <==> HasTimer(key)
      ensures Valid() && r.Some? ==> 0.0 <= r.value < timers[key].initialDuration
    {
      if key in timers then Some(timers[key].initialDuration - timers[key].remainingTime) else None
    }

    /** `getProportionElapsed`: the elapsed fraction of a running timer, in [0, 1). */
    function ProportionElapsed(key: string): (r: Option<real>)
      reads this
      requires Valid()
      ensures r.Some? <==> HasTimer(key)
      ensures r.Some? ==> 0.0 <= r.value < 1.0
    {
      if key in timers then
        var t := timers[key];
        assert 0.0 < t.remainingTime <= t.initialDuration;
        ProportionBounds(t.initialDuration, t.remainingTime);
        Some((t.initialDuration - t.remainingTime) / t.initialDuration)
      else None
    }

    /** The keys to visit in one `update`: those stored when it starts. */
    function Snapshot(): (r: seq<string>)
      reads this
      requires Valid()
      ensures Distinct(r) && forall k :: k in r <==> k in timers
    {
      order
    }

    /**
     * One visit of `update`'s loop: a key still present is stepped by `delta`;
     * if that ends it, it is removed before its callback is returned to run,
     * so the callback may store the same key again.
     */
    method Tick(key: string, delta: real) returns (fired: Option<A>)
      requires Valid() && delta >= 0.0
      modifies this
      ensures Valid()
      ensures key !in old(timers) ==> fired == None && timers == old(timers) && order == old(order)
      ensures key in old(timers) && !Ends(old(timers)[key], delta) ==>
                fired == None && order == old(order) &&
                timers == old(timers)[key := CountedDown(old(timers)[key], delta)]
      ensures key in old(timers) && Ends(old(timers)[key], delta) ==>
                fired == Some(old(timers)[key].callback) &&
                timers == old(timers) - {key} && order == Without(old(order), key)
      ensures forall k | k in timers ::
                k in old(timers) && timers[k].callback == old(timers)[k].callback &&
                timers[k].initialDuration == old(timers)[k].initialDuration
    {
      if key !in timers {
        return None;
      }
      var t := timers[key];
      var remaining := t.remainingTime - delta;
      if remaining <= 0.0 {
        timers := timers - {key};
        order := Without(order, key);
        fired := Some(t.callback);
      } else {
        timers := timers[key := t.(remainingTime := remaining)];
        fired := None;
      }
    }

    /**
     * `update` for an owner whose callbacks do not touch this table: every
     * timer present at the start is stepped once, expired ones are removed,
     * and their callbacks are returned in visiting order.
     */
    method Update(delta: real) returns (fired: seq<A>)
      requires Valid() && delta >= 0.0
      modifies this
      ensures Valid()
      ensures timers == Stepped(old(timers), old(order), delta)
      ensures order == Survivors(old(order), old(timers), delta)
      ensures fired == Expired(old(order), old(timers), delta)
    {
      var keys := Snapshot();
      ghost var start := timers;
      fired := [];
      var i := 0;
      SteppedNone(start, delta);
      PrefixNone(keys);
      while i < |keys|
        invariant i <= |keys|
        invariant Valid()
        invariant Progress(start, keys, i, delta, fired)
      {
        fired := Visit(start, keys, i, delta, fired);
        i := i + 1;
      }
      PrefixAll(keys, i);
    }

    /**
     * Where `update`'s loop stands after visiting the first `i` keys of
     * `keys`: those are stepped, the expired ones are removed from the
     * table and the order, and their callbacks collected.
     */
    ghost predicate Progress(start: map<string, Timer<A>>, keys: seq<string>, i: nat, delta: real, fired: seq<A>)
      reads this
    {
      i <= |keys| && Distinct(keys) && (forall k | k in keys :: k in start) &&
      timers == Stepped(start, keys[..i], delta) &&
      order == Survivors(keys[..i], start, delta) + keys[i..] &&
      fired == Expired(keys[..i], start, delta)
    }

    /** One visit of `update`'s loop: the `i`-th key is ticked and its callback collected if it expired. */
    method Visit(ghost start: map<string, Timer<A>>, keys: seq<string>, i: nat, delta: real, done: seq<A>)
      returns (fired: seq<A>)
      requires Valid() && delta >= 0.0 && i < |keys|
      requires Progress(start, keys, i, delta, done)
      modifies this
      ensures Valid()
      ensures Progress(start, keys, i + 1, delta, fired)
    {
      var key := keys[i];
      KeyAt(keys, i);
      SteppedNext(start, keys[..i], key, delta);
      SurvivorsNext(keys[..i], key, start, delta);
      ghost var kept := Survivors(keys[..i], start, delta);
      var t := timers[key];
      ghost var before := timers;
      assert before == Stepped(start, keys[..i], delta);
      assert t == start[key];
      var remaining := t.remainingTime - delta;
      if remaining <= 0.0 {
        WithoutMiddle(kept, key, keys[i + 1..]);
        timers := timers - {key};
        order := Without(order, key);
        fired := done + [t.callback];
      } else {
        Associative(kept, [key], keys[i + 1..]);
        timers := timers[key := t.(remainingTime := remaining)];
        fired := done;
        assert timers == before[key := t.(remainingTime := remaining)];
        assert t.(remainingTime := remaining) == start[key].(remainingTime := start[key].remainingTime - delta);
      }
    }
  }

  lemma Associative<T>(a: seq<T>, b: seq<T>, c: seq<T>)
    ensures a + (b + c) == (a + b) + c
  {
  }

  lemma PrefixNone<T>(s: seq<T>)
    ensures s[..0] == [] && s[0..] == s
  {
  }

  lemma PrefixAll<T>(s: seq<T>, i: nat)
    requires i == |s|
    ensures s[..i] == s
  {
  }

  lemma SteppedNone<A>(start: map<string, Timer<A>>, delta: real)
    ensures Stepped(start, [], delta) == start
  {
  }

  lemma KeyAt(keys: seq<string>, i: nat)
    requires i < |keys| && Distinct(keys)
    ensures keys[..i + 1] == keys[..i] + [keys[i]]
    ensures keys[i..] == [keys[i]] + keys[i + 1..]
    ensures keys[i] !in keys[..i] && keys[i] !in keys[i + 1..]
  {
    forall j | 0 <= j < |keys| && j != i ensures keys[j] != keys[i] {
      if j < i { assert keys[j] != keys[i]; } else { assert keys[i] != keys[j]; }
    }
  }

  lemma SteppedNext<A>(start: map<string, Timer<A>>, visited: seq<string>, key: string, delta: real)
    requires key in start && key !in visited
    ensures key in Stepped(start, visited, delta) && Stepped(start, visited, delta)[key] == start[key]
    ensures start[key].remainingTime - delta > 0.0 ==>
      Stepped(start, visited + [key], delta) ==
      Stepped(start, visited, delta)[key := start[key].(remainingTime := start[key].remainingTime - delta)]
    ensures start[key].remainingTime - delta <= 0.0 ==>
      Stepped(start, visited + [key], delta) == Stepped(start, visited, delta) - {key}
  {
    assert forall k :: k in visited + [key] <==> k in visited || k == key;
  }

  lemma SurvivorsNext<A>(visited: seq<string>, key: string, start: map<string, Timer<A>>, delta: real)
    requires key in start && forall k | k in visited :: k in start
    ensures forall k | k in visited + [key] :: k in start
    ensures Survivors(visited + [key], start, delta) ==
      Survivors(visited, start, delta) + (if start[key].remainingTime - delta > 0.0 then [key] else [])
    ensures Expired(visited + [key], start, delta) ==
      Expired(visited, start, delta) + (if start[key].remainingTime - delta > 0.0 then [] else [start[key].callback])
  {
    assert (visited + [key])[..|visited|] == visited;
  }

  /** Removing a key that occurs once, between two parts, joins the parts. */
  lemma WithoutMiddle(a: seq<string>, key: string, b: seq<string>)
    requires key !in a && key !in b
    ensures Without(a + ([key] + b), key) == a + b
  {
    WithoutConcat(a, [key] + b, key);
    WithoutConcat([key], b, key);
    WithoutAbsent(a, key);
    WithoutAbsent(b, key);
    assert Without([key], key) == [];
  }

  lemma ProportionBounds(initial: real, remaining: real)
    requires 0.0 < remaining <= initial
    ensures 0.0 <= (initial - remaining) / initial < 1.0
  {
    DivBelowOne(initial - remaining, initial);
  }
}
