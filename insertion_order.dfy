/**
 * JavaScript `Map` and `Set` values filled by a loop that inserts a key
 * only when it is not present yet: the keys in the order they were first
 * seen, and for each key the value that came with its first occurrence.
 */
module InsertionOrder {
  predicate NoDuplicates<K(==,!new)>(s: seq<K>)
  {
    forall i, j :: 0 <= i < j < |s| ==> s[i] != s[j]
  }

  /** `[...new Set(keys)]`: each key once, in order of first occurrence. */
  function Distinct<K(==,!new)>(keys: seq<K>): (r: seq<K>)
    ensures forall k :: k in r <==> k in keys
    ensures NoDuplicates(r)
    ensures |r| <= |keys|
  {
    if keys == [] then []
    else
      var p := Distinct(keys[..|keys| - 1]);
      var k := keys[|keys| - 1];
      if k in p then p else p + [k]
  }

  function Keys<K, V>(entries: seq<(K, V)>): (r: seq<K>)
    ensures |r| == |entries| && forall i :: 0 <= i < |entries| ==> r[i] == entries[i].0
  {
    seq(|entries|, i requires 0 <= i < |entries| => entries[i].0)
  }

  /** The map after `if (!m.has(k)) m.set(k, v)` for every entry in turn. */
  function FirstValues<K(==,!new), V>(entries: seq<(K, V)>): (m: map<K, V>)
    ensures forall k :: k in m <==> k in Keys(entries)
  {
    if entries == [] then map[]
    else
      var m := FirstValues(entries[..|entries| - 1]);
      var e := entries[|entries| - 1];
      assert Keys(entries) == Keys(entries[..|entries| - 1]) + [e.0];
      if e.0 in m then m else m[e.0 := e.1]
  }

  /** The value kept for a key is the one of its first occurrence. */
  lemma {:induction false} FirstValuesFirst<K(!new), V>(entries: seq<(K, V)>, i: nat)
    requires i < |entries|
    requires forall j :: 0 <= j < i ==> entries[j].0 != entries[i].0
    ensures entries[i].0 in FirstValues(entries) && FirstValues(entries)[entries[i].0] == entries[i].1
  {
    var p := entries[..|entries| - 1];
    if i < |entries| - 1 {
      FirstValuesFirst(p, i);
    } else {
      assert entries[i].0 !in Keys(p) by {
        forall j | 0 <= j < |p|
          ensures Keys(p)[j] != entries[i].0
        {
          assert p[j] == entries[j];
        }
      }
    }
  }

  /** The values of a map listed in the given key order (`[...m.values()]`). */
  function ValuesInOrder<K, V>(order: seq<K>, m: map<K, V>): (r: seq<V>)
    requires forall k :: k in order ==> k in m
    ensures |r| == |order| && forall i :: 0 <= i < |order| ==> r[i] == m[order[i]]
  {
    seq(|order|, i requires 0 <= i < |order| => m[order[i]])
  }

  lemma DistinctSnoc<K(!new)>(keys: seq<K>, n: nat)
    requires n < |keys|
    ensures Distinct(keys[..n + 1]) == if keys[n] in Distinct(keys[..n]) then Distinct(keys[..n]) else Distinct(keys[..n]) + [keys[n]]
  {
    assert keys[..n + 1][..n] == keys[..n];
  }

  lemma FirstValuesSnoc<K(!new), V>(entries: seq<(K, V)>, n: nat)
    requires n < |entries|
    ensures var m := FirstValues(entries[..n]);
      FirstValues(entries[..n + 1]) == if entries[n].0 in m then m else m[entries[n].0 := entries[n].1]
  {
    assert entries[..n + 1][..n] == entries[..n];
  }

  /** The loop that fills a `Map` (order and contents) keeping the first value of each key. */
  method CollectFirst<K(==,!new), V>(entries: seq<(K, V)>) returns (order: seq<K>, values: map<K, V>)
    ensures order == Distinct(Keys(entries)) && values == FirstValues(entries)
  {
    order, values := [], map[];
    for n := 0 to |entries|
      invariant order == Distinct(Keys(entries[..n])) && values == FirstValues(entries[..n])
    {
      assert Keys(entries[..n + 1]) == Keys(entries)[..n + 1];
      assert Keys(entries[..n]) == Keys(entries)[..n];
      DistinctSnoc(Keys(entries), n);
      FirstValuesSnoc(entries, n);
      var (k, v) := entries[n];
      if k !in values {
        values := values[k := v];
        order := order + [k];
      }
    }
    assert entries[..|entries|] == entries;
  }

  /** The loop that calls `m.set(k, v)` for every entry in turn (order and contents of the `Map`). */
  method CollectLast<K(==,!new), V>(entries: seq<(K, V)>) returns (order: seq<K>, values: map<K, V>)
    ensures order == Distinct(Keys(entries)) && values == LastValues(entries)
  {
    order, values := [], map[];
    for n := 0 to |entries|
      invariant order == Distinct(Keys(entries[..n])) && values == LastValues(entries[..n])
      invariant forall k :: k in values <==> k in order
    {
      assert Keys(entries[..n + 1]) == Keys(entries)[..n + 1];
      assert Keys(entries[..n]) == Keys(entries)[..n];
      DistinctSnoc(Keys(entries), n);
      LastValuesSnoc(entries, n);
      var (k, v) := entries[n];
      if k !in values {
        order := order + [k];
      }
      values := values[k := v];
    }
    assert entries[..|entries|] == entries;
  }

  /** The loop that fills a `Set` with every element in turn. */
  method CollectDistinct<K(==,!new)>(xs: seq<K>) returns (order: seq<K>)
    ensures order == Distinct(xs)
  {
    order := [];
    for n := 0 to |xs|
      invariant order == Distinct(xs[..n])
    {
      DistinctSnoc(xs, n);
      if xs[n] !in order {
        order := order + [xs[n]];
      }
    }
    assert xs[..|xs|] == xs;
  }
  /** The map after `m.set(k, v)` for every entry in turn: a later entry overwrites an earlier value. */
  function LastValues<K(==,!new), V>(entries: seq<(K, V)>): (m: map<K, V>)
    ensures forall k :: k in m <==> k in Keys(entries)
  {
    if entries == [] then map[]
    else
      var e := entries[|entries| - 1];
      assert Keys(entries) == Keys(entries[..|entries| - 1]) + [e.0];
      LastValues(entries[..|entries| - 1])[e.0 := e.1]
  }

  /** The value kept for a key is the one of its last occurrence. */
  lemma {:induction false} LastValuesLast<K(!new), V>(entries: seq<(K, V)>, i: nat)
    requires i < |entries|
    requires forall j :: i < j < |entries| ==> entries[j].0 != entries[i].0
    ensures entries[i].0 in LastValues(entries) && LastValues(entries)[entries[i].0] == entries[i].1
  {
    if i < |entries| - 1 {
      LastValuesLast(entries[..|entries| - 1], i);
    }
  }

  lemma LastValuesSnoc<K(!new), V>(entries: seq<(K, V)>, n: nat)
    requires n < |entries|
    ensures LastValues(entries[..n + 1]) == LastValues(entries[..n])[entries[n].0 := entries[n].1]
  {
    assert entries[..n + 1][..n] == entries[..n];
  }

  /** A sequence without duplicates is its own `[...new Set(s)]`. */
  lemma {:induction false} DistinctOfNoDuplicates<K(!new)>(s: seq<K>)
    requires NoDuplicates(s)
    ensures Distinct(s) == s
  {
    if s != [] {
      var p := s[..|s| - 1];
      DistinctOfNoDuplicates(p);
      assert s[|s| - 1] !in p by {
        forall j | 0 <= j < |p|
          ensures p[j] != s[|s| - 1]
        {
          assert p[j] == s[j];
        }
      }
      assert p + [s[|s| - 1]] == s;
    }
  }

  /**
   * A JavaScript `Map` as a value: its keys in insertion order and the
   * value of each key.
   */
  datatype OrderedMap<K, V> = OrderedMap(order: seq<K>, values: map<K, V>)

  /** Every key is listed once, and exactly the keys of the map are listed. */
  predicate WellFormed<K(==,!new), V>(m: OrderedMap<K, V>)
  {
    NoDuplicates(m.order) && m.values.Keys == set k | k in m.order
  }

  /** `Array.from(m.entries())`: the key/value pairs in insertion order. */
  function Entries<K(==,!new), V>(m: OrderedMap<K, V>): (r: seq<(K, V)>)
    requires WellFormed(m)
    ensures Keys(r) == m.order
    ensures forall i :: 0 <= i < |r| ==> r[i].1 == m.values[m.order[i]]
  {
    seq(|m.order|, i requires 0 <= i < |m.order| => (m.order[i], m.values[m.order[i]]))
  }

  /** `new Map(entries)`: keys in order of first occurrence, each with its last value. */
  function FromEntries<K(==,!new), V>(entries: seq<(K, V)>): (r: OrderedMap<K, V>)
    ensures WellFormed(r)
  {
    OrderedMap(Distinct(Keys(entries)), LastValues(entries))
  }

  /** The entries of a prefix of the key order give the map restricted to that prefix. */
  lemma {:induction false} LastValuesOfEntries<K(!new), V>(m: OrderedMap<K, V>, n: nat)
    requires WellFormed(m) && n <= |m.order|
    ensures LastValues(Entries(m)[..n]) == map k | k in m.order[..n] :: m.values[k]
  {
    if n > 0 {
      LastValuesOfEntries(m, n - 1);
      LastValuesSnoc(Entries(m), n - 1);
      assert m.order[..n] == m.order[..n - 1] + [m.order[n - 1]];
    }
  }

  /** `new Map(Array.from(m.entries()))` is `m` again: same keys, same order, same values. */
  lemma FromEntriesOfEntries<K(!new), V>(m: OrderedMap<K, V>)
    requires WellFormed(m)
    ensures FromEntries(Entries(m)) == m
  {
    var es := Entries(m);
    assert Distinct(Keys(es)) == m.order by {
      DistinctOfNoDuplicates(m.order);
    }
    assert LastValues(es) == m.values by {
      LastValuesOfEntries(m, |m.order|);
      assert es[..|m.order|] == es;
      assert m.order[..|m.order|] == m.order;
      RestrictToOrder(m);
    }
  }

  lemma RestrictToOrder<K(!new), V>(m: OrderedMap<K, V>)
    requires WellFormed(m)
    ensures (map k | k in m.order :: m.values[k]) == m.values
  {
    var restricted := map k | k in m.order :: m.values[k];
    assert restricted.Keys == m.values.Keys;
  }
}
