/** The JavaScript `Map` the scripts fill in their loops and write out as checkpoints. */
module InsertionMaps {
  import opened Wrappers

  /**
   * A `Map`: lookup by key, plus the order of first insertion in which
   * `entries()` enumerates. `set` on a present key replaces its value and
   * keeps its position.
   */
  datatype InsertionMap<K(==,!new), V> = InsertionMap(keys: seq<K>, values: map<K, V>) {

    ghost predicate Valid() {
      && (forall i, j :: 0 <= i < j < |keys| ==> keys[i] != keys[j])
      && (forall k :: k in values <==> k in keys)
    }

    /** `map.get(k)`. */
    function Get(k: K): Option<V> {
      if k in values then Some(values[k]) else None
    }

    /** `map.set(k, v)`. */
    function Set(k: K, v: V): (m: InsertionMap<K, V>)
      requires Valid()
      ensures m.Valid()
      ensures m.Get(k) == Some(v)
      ensures forall k' :: k' != k ==> m.Get(k') == Get(k')
      ensures m.keys == if k in values then keys else keys + [k]
    {
      InsertionMap(if k in values then keys else keys + [k], values[k := v])
    }

    /** `Array.from(map.entries())`: the `[key, value]` pairs in insertion order. */
    function Entries(): (es: seq<(K, V)>)
      requires Valid()
      ensures |es| == |keys|
      ensures forall i :: 0 <= i < |keys| ==> es[i] == (keys[i], values[keys[i]])
    {
      seq(|keys|, i requires 0 <= i < |keys| => (keys[i], values[keys[i]]))
    }
  }

  /** `new Map()`. */
  function Empty<K(==,!new), V>(): (m: InsertionMap<K, V>)
    ensures m.Valid() && m.Entries() == []
    ensures forall k :: m.Get(k) == None
  {
    InsertionMap([], map[])
  }

  /** `new Map(entries)`: the pairs are set one after another, left to right. */
  function FromEntries<K(==,!new), V>(es: seq<(K, V)>): (m: InsertionMap<K, V>)
    ensures m.Valid()
  {
    if es == [] then Empty()
    else FromEntries(es[..|es| - 1]).Set(es[|es| - 1].0, es[|es| - 1].1)
  }

  /** Loading one more pair is one more `set`. */
  lemma FromEntriesSnoc<K(!new), V>(es: seq<(K, V)>, e: (K, V))
    ensures FromEntries(es + [e]) == FromEntries(es).Set(e.0, e.1)
  {
    assert (es + [e])[..|es|] == es;
  }

  /** A key is present exactly when some pair carries it. */
  lemma {:induction false} FromEntriesDomain<K(!new), V>(es: seq<(K, V)>, k: K)
    ensures FromEntries(es).Get(k).Some? <==> exists i :: 0 <= i < |es| && es[i].0 == k
  {
    if es != [] {
      var n := |es| - 1;
      var init := es[..n];
      FromEntriesDomain(init, k);
      if es[n].0 == k {
        assert FromEntries(es).Get(k).Some?;
      } else {
        assert FromEntries(es).Get(k) == FromEntries(init).Get(k);
        if i :| 0 <= i < |es| && es[i].0 == k {
          assert init[i].0 == k;
        }
        if i :| 0 <= i < n && init[i].0 == k {
          assert es[i].0 == k;
        }
      }
    }
  }

  /** A later pair with the same key overwrites an earlier one: a key maps to the value of its LAST pair. */
  lemma {:induction false} FromEntriesLastWins<K(!new), V>(es: seq<(K, V)>, i: nat)
    requires i < |es|
    requires forall j :: i < j < |es| ==> es[j].0 != es[i].0
    ensures FromEntries(es).Get(es[i].0) == Some(es[i].1)
  {
    var n := |es| - 1;
    var init := es[..n];
    var k := es[i].0;
    assert FromEntries(es) == FromEntries(init).Set(es[n].0, es[n].1);
    if i < n {
      assert FromEntries(init).Get(k) == Some(es[i].1) by {
        assert init[i] == es[i];
        FromEntriesLastWins(init, i);
      }
    }
  }

  /** Without a repeated key, every pair adds its key at the end. */
  lemma {:induction false} FromEntriesDistinctKeys<K(!new), V>(es: seq<(K, V)>)
    requires forall i, j :: 0 <= i < j < |es| ==> es[i].0 != es[j].0
    ensures FromEntries(es).keys == seq(|es|, i requires 0 <= i < |es| => es[i].0)
  {
    if es != [] {
      var n := |es| - 1;
      var init := es[..n];
      FromEntriesDistinctKeys(init);
      FromEntriesDomain(init, es[n].0);
      assert es[n].0 !in FromEntries(init).values;
      assert seq(|es|, i requires 0 <= i < |es| => es[i].0) == seq(n, i requires 0 <= i < n => init[i].0) + [es[n].0];
    }
  }

  /** When no key repeats, the entries come back exactly as they were inserted. */
  lemma FromEntriesDistinct<K(!new), V>(es: seq<(K, V)>)
    requires forall i, j :: 0 <= i < j < |es| ==> es[i].0 != es[j].0
    ensures FromEntries(es).Entries() == es
  {
    var r := FromEntries(es);
    FromEntriesDistinctKeys(es);
    forall i | 0 <= i < |es|
      ensures r.Entries()[i] == es[i]
    {
      FromEntriesLastWins(es, i);
    }
  }

  /** Writing a map's entries and loading them back yields the same map. */
  lemma FromEntriesOfEntries<K(!new), V>(m: InsertionMap<K, V>)
    requires m.Valid()
    ensures FromEntries(m.Entries()) == m
  {
    var es := m.Entries();
    var r := FromEntries(es);
    FromEntriesDistinct(es);
    assert r.keys == m.keys by {
      assert forall i :: 0 <= i < |m.keys| ==> r.keys[i] == r.Entries()[i].0 == es[i].0;
    }
    forall k | k in m.values
      ensures k in r.values && r.values[k] == m.values[k]
    {
      var i :| 0 <= i < |m.keys| && m.keys[i] == k;
      assert r.Entries()[i] == es[i];
    }
    assert r.values == m.values;
  }
}
