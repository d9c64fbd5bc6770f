/**
 * `java.util.TreeMap` with `Double` keys, as the pulse sources use it: a
 * list of entries in strictly increasing key order, where storing a key
 * that is present replaces its value.
 */
module TreeMaps {
  import opened Wrappers

  datatype Entry<V> = Entry(key: real, value: V)

  predicate Sorted<V>(entries: seq<Entry<V>>)
  {
    forall i, j | 0 <= i < j < |entries| :: entries[i].key < entries[j].key
  }

  function KeySet<V>(entries: seq<Entry<V>>): set<real>
  {
    set i | 0 <= i < |entries| :: entries[i].key
  }

  /** The map the entries stand for. */
  ghost function AsMap<V>(entries: seq<Entry<V>>): map<real, V>
    requires Sorted(entries)
  {
    map i | 0 <= i < |entries| :: entries[i].key := entries[i].value
  }

  lemma AsMapCons<V>(e: Entry<V>, rest: seq<Entry<V>>)
    requires Sorted([e] + rest) && Sorted(rest)
    ensures AsMap([e] + rest) == AsMap(rest)[e.key := e.value]
  {
    var entries := [e] + rest;
    assert entries[0] == e;
    assert forall i | 0 <= i < |rest| :: entries[i + 1] == rest[i];
  }

  lemma KeySetCons<V>(e: Entry<V>, rest: seq<Entry<V>>)
    ensures KeySet([e] + rest) == {e.key} + KeySet(rest)
  {
    var entries := [e] + rest;
    assert entries[0] == e;
    assert forall i | 0 <= i < |rest| :: entries[i + 1] == rest[i];
    forall k | k in KeySet(entries)
      ensures k in {e.key} + KeySet(rest)
    {
      var i :| 0 <= i < |entries| && entries[i].key == k;
      if i > 0 {
        assert rest[i - 1] == entries[i];
      }
    }
  }

  /** An entry in front of entries with greater keys: still sorted, with one key more. */
  lemma Prepend<V>(e: Entry<V>, rest: seq<Entry<V>>)
    requires Sorted(rest) && forall i | 0 <= i < |rest| :: e.key < rest[i].key
    ensures Sorted([e] + rest)
    ensures KeySet([e] + rest) == {e.key} + KeySet(rest)
  {
    var r := [e] + rest;
    forall i, j | 0 <= i < j < |r|
      ensures r[i].key < r[j].key
    {
      assert r[j] == rest[j - 1];
      if i > 0 {
        assert r[i] == rest[i - 1];
      }
    }
    KeySetCons(e, rest);
  }

  /** `put`: store `value` under `key`, keeping the order; the entry replaces the one of a present key (see `InsertAsMap`). */
  function Insert<V>(entries: seq<Entry<V>>, key: real, value: V): (r: seq<Entry<V>>)
    requires Sorted(entries)
    ensures Sorted(r)
    ensures KeySet(r) == KeySet(entries) + {key}
    ensures forall e | e in r :: e == Entry(key, value) || e in entries
  {
    if |entries| == 0 then
      var r := [Entry(key, value)];
      assert r[0].key == key;
      r
    else
      var head, tail := entries[0], entries[1..];
      assert entries == [head] + tail;
      if key < head.key then
        Prepend(Entry(key, value), entries);
        [Entry(key, value)] + entries
      else if key == head.key then
        ReplaceHead(head, tail, value);
        [Entry(key, value)] + tail
      else
        var rest := Insert(tail, key, value);
        KeepHead(head, tail, rest, key, value);
        [head] + rest
  }

  /** The step of `Insert` at a present first key: the new entry takes the old one's place. */
  lemma ReplaceHead<V>(head: Entry<V>, tail: seq<Entry<V>>, value: V)
    requires Sorted([head] + tail)
    ensures Sorted([Entry(head.key, value)] + tail)
    ensures KeySet([Entry(head.key, value)] + tail) == KeySet([head] + tail) + {head.key}
    ensures forall e | e in [Entry(head.key, value)] + tail :: e == Entry(head.key, value) || e in [head] + tail
  {
    var entries := [head] + tail;
    assert entries[0] == head;
    assert forall i | 0 <= i < |tail| :: tail[i] == entries[i + 1];
    Prepend(head, tail);
    Prepend(Entry(head.key, value), tail);
  }

  /** The step of `Insert` past the first key: the first entry stays in front of the insertion into the rest. */
  lemma KeepHead<V>(head: Entry<V>, tail: seq<Entry<V>>, rest: seq<Entry<V>>, key: real, value: V)
    requires Sorted([head] + tail) && head.key < key
    requires Sorted(rest) && KeySet(rest) == KeySet(tail) + {key}
    requires forall e | e in rest :: e == Entry(key, value) || e in tail
    ensures Sorted([head] + rest)
    ensures KeySet([head] + rest) == KeySet([head] + tail) + {key}
    ensures forall e | e in [head] + rest :: e == Entry(key, value) || e in [head] + tail
  {
    var entries := [head] + tail;
    assert entries[0] == head;
    assert forall i | 0 <= i < |tail| :: tail[i] == entries[i + 1];
    assert forall e | e in tail :: head.key < e.key;
    assert forall i | 0 <= i < |rest| :: rest[i] in rest;
    Prepend(head, rest);
    Prepend(head, tail);
  }

  /** As a map, `put` sets the key to the value and leaves every other key as it was. */
  lemma {:induction false} InsertAsMap<V>(entries: seq<Entry<V>>, key: real, value: V)
    requires Sorted(entries)
    ensures AsMap(Insert(entries, key, value)) == AsMap(entries)[key := value]
  {
    if |entries| == 0 {
      var r := Insert(entries, key, value);
      assert r == [Entry(key, value)] && r[0].key == key;
    } else {
      var head, tail := entries[0], entries[1..];
      assert entries == [head] + tail;
      assert forall i | 0 <= i < |tail| :: tail[i] == entries[i + 1];
      Prepend(head, tail);
      AsMapCons(head, tail);
      if key < head.key {
        Prepend(Entry(key, value), entries);
        AsMapCons(Entry(key, value), entries);
      } else if key == head.key {
        Prepend(Entry(key, value), tail);
        AsMapCons(Entry(key, value), tail);
        UpdateTwice(AsMap(tail), key, head.value, value);
      } else {
        var rest := Insert(tail, key, value);
        InsertAsMap(tail, key, value);
        assert forall i | 0 <= i < |rest| :: rest[i].key in KeySet(rest);
        Prepend(head, rest);
        AsMapCons(head, rest);
        UpdateSwap(AsMap(tail), key, value, head.key, head.value);
      }
    }
  }

  /** A second update of the same key overrides the first. */
  lemma UpdateTwice<V>(m: map<real, V>, k: real, a: V, b: V)
    ensures m[k := a][k := b] == m[k := b]
  {
  }

  /** Updates of two different keys can be made in either order. */
  lemma UpdateSwap<V>(m: map<real, V>, k1: real, v1: V, k2: real, v2: V)
    requires k1 != k2
    ensures m[k1 := v1][k2 := v2] == m[k2 := v2][k1 := v1]
  {
  }

  /** `floorEntry`: the entry of the greatest key at or below `t`. */
  function FloorEntry<V(==)>(entries: seq<Entry<V>>, t: real): (r: Option<Entry<V>>)
    requires Sorted(entries)
    ensures r.None? <==> forall i | 0 <= i < |entries| :: entries[i].key > t
    ensures r.Some? ==> exists i | 0 <= i < |entries| :: entries[i] == r.value
    ensures r.Some? ==> r.value.key <= t && forall i | 0 <= i < |entries| && entries[i].key <= t :: entries[i].key <= r.value.key
  {
    if |entries| == 0 || entries[0].key > t then None
    else
      match FloorEntry(entries[1..], t)
      case None => Some(entries[0])
      case Some(e) =>
        var i :| 0 <= i < |entries[1..]| && entries[1..][i] == e;
        assert entries[i + 1] == e;
        Some(e)
  }

  /** `higherEntry`: the entry of the least key strictly above `t`. */
  function HigherEntry<V(==)>(entries: seq<Entry<V>>, t: real): (r: Option<Entry<V>>)
    requires Sorted(entries)
    ensures r.None? <==> forall i | 0 <= i < |entries| :: entries[i].key <= t
    ensures r.Some? ==> exists i | 0 <= i < |entries| :: entries[i] == r.value
    ensures r.Some? ==> r.value.key > t && forall i | 0 <= i < |entries| && entries[i].key > t :: r.value.key <= entries[i].key
  {
    if |entries| == 0 then None
    else if entries[0].key > t then Some(entries[0])
    else
      match HigherEntry(entries[1..], t)
      case None => None
      case Some(e) =>
        var i :| 0 <= i < |entries[1..]| && entries[1..][i] == e;
        assert entries[i + 1] == e;
        Some(e)
  }

  /** At a stored key, `floorEntry` is that key's own entry. */
  lemma FloorAtKey<V>(entries: seq<Entry<V>>, k: nat)
    requires Sorted(entries) && k < |entries|
    ensures FloorEntry(entries, entries[k].key) == Some(entries[k])
  {
    var r := FloorEntry(entries, entries[k].key);
    var i :| 0 <= i < |entries| && entries[i] == r.value;
  }

  /** Between two neighbouring keys, the floor is the lower one and the higher entry the upper one. */
  lemma BetweenNeighbours<V>(data: seq<Entry<V>>, time: real, k: nat)
    requires Sorted(data) && k + 1 < |data| && data[k].key <= time < data[k + 1].key
    ensures FloorEntry(data, time) == Some(data[k]) && HigherEntry(data, time) == Some(data[k + 1])
  {
    var before := FloorEntry(data, time);
    var after := HigherEntry(data, time);
    var i :| 0 <= i < |data| && data[i] == before.value;
    var j :| 0 <= j < |data| && data[j] == after.value;
    assert i <= k;
    assert j >= k + 1;
  }

  /** At or past the last key, the floor is the last entry. */
  lemma FloorPastLast<V>(data: seq<Entry<V>>, time: real)
    requires Sorted(data) && |data| > 0 && time >= data[|data| - 1].key
    ensures FloorEntry(data, time) == Some(data[|data| - 1])
  {
    var before := FloorEntry(data, time);
    var i :| 0 <= i < |data| && data[i] == before.value;
    assert i == |data| - 1;
  }

  /** Before the first key, the higher entry is the first entry. */
  lemma HigherBeforeFirst<V>(data: seq<Entry<V>>, time: real)
    requires Sorted(data) && |data| > 0 && time < data[0].key
    ensures HigherEntry(data, time) == Some(data[0])
  {
    var after := HigherEntry(data, time);
    var j :| 0 <= j < |data| && data[j] == after.value;
    if j > 0 { assert data[0].key < data[j].key; }
  }

  /** The floor and higher entries around `time`, in terms of positions in the list. */
  lemma Neighbours<V>(data: seq<Entry<V>>, time: real)
    requires Sorted(data)
    ensures forall k | 0 <= k < |data| - 1 && data[k].key <= time < data[k + 1].key ::
              FloorEntry(data, time) == Some(data[k]) && HigherEntry(data, time) == Some(data[k + 1])
    ensures |data| > 0 && time >= data[|data| - 1].key ==> FloorEntry(data, time) == Some(data[|data| - 1])
    ensures |data| > 0 && time < data[0].key ==> HigherEntry(data, time) == Some(data[0])
  {
    forall k | 0 <= k < |data| - 1 && data[k].key <= time < data[k + 1].key
      ensures FloorEntry(data, time) == Some(data[k]) && HigherEntry(data, time) == Some(data[k + 1])
    {
      BetweenNeighbours(data, time, k);
    }
    if |data| > 0 && time >= data[|data| - 1].key {
      FloorPastLast(data, time);
    }
    if |data| > 0 && time < data[0].key {
      HigherBeforeFirst(data, time);
    }
  }

  /** `lastKey`: the greatest key. */
  function LastKey<V>(entries: seq<Entry<V>>): (r: real)
    requires Sorted(entries) && |entries| > 0
    ensures r in KeySet(entries)
    ensures forall k | k in KeySet(entries) :: k <= r
  {
    entries[|entries| - 1].key
  }

  /** The map after `put(keys[i], values[i])` for each `i` in order, starting empty. */
  function FromPairs<V>(keys: seq<real>, values: seq<V>): (r: seq<Entry<V>>)
    requires |keys| == |values|
    ensures Sorted(r)
    ensures KeySet(r) == set k | k in keys
  {
    if |keys| == 0 then []
    else
      var n := |keys| - 1;
      var front := FromPairs(keys[..n], values[..n]);
      var r := Insert(front, keys[n], values[n]);
      assert keys == keys[..n] + [keys[n]];
      r
  }

  /** Every stored value is one of the values put. */
  lemma {:induction false} FromPairsValues<V>(keys: seq<real>, values: seq<V>)
    requires |keys| == |values|
    ensures forall e | e in FromPairs(keys, values) :: e.value in values
  {
    if |keys| > 0 {
      var n := |keys| - 1;
      FromPairsValues(keys[..n], values[..n]);
      assert forall v | v in values[..n] :: v in values;
    }
  }

  /** One more `put` of the next pair. */
  lemma FromPairsStep<V>(keys: seq<real>, values: seq<V>, i: nat)
    requires |keys| == |values| && i < |keys|
    ensures FromPairs(keys[..i + 1], values[..i + 1]) == Insert(FromPairs(keys[..i], values[..i]), keys[i], values[i])
  {
    assert keys[..i + 1][..i] == keys[..i] && values[..i + 1][..i] == values[..i];
  }

  /**
   * A key stored several times keeps the value of its last `put`: the value
   * of `keys[j]` is `values[j]` when no later pair has the same key.
   */
  lemma {:induction false} LastPutWins<V>(keys: seq<real>, values: seq<V>, j: nat)
    requires |keys| == |values| && j < |keys|
    requires forall k | j < k < |keys| :: keys[k] != keys[j]
    ensures keys[j] in AsMap(FromPairs(keys, values))
    ensures AsMap(FromPairs(keys, values))[keys[j]] == values[j]
  {
    var n := |keys| - 1;
    var front := FromPairs(keys[..n], values[..n]);
    assert FromPairs(keys, values) == Insert(front, keys[n], values[n]);
    InsertAsMap(front, keys[n], values[n]);
    if j < n {
      LastPutWins(keys[..n], values[..n], j);
    }
  }
}
