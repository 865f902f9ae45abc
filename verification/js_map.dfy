/** A JavaScript `Map`: a finite map that also remembers the order in which its
    keys were first inserted, since iteration (`for (const [k, v] of m)`,
    `m.entries()`) follows that order. `set` on a key already present replaces
    its value and keeps its position. */
module JsMaps {

  predicate Distinct<T(==)>(s: seq<T>) {
    forall i, j :: 0 <= i < j < |s| ==> s[i] != s[j]
  }

  datatype JsMap<K(==), V> = JsMap(keys: seq<K>, values: map<K, V>) {

    /** The insertion order lists every key exactly once. */
    predicate Valid() {
      && Distinct(keys)
      && (forall k :: k in keys ==> k in values)
      && (forall k :: k in values ==> k in keys)
    }

    /** `m.has(k)` */
    predicate Has(k: K) {
      k in values
    }

    /** `m.set(k, v)` */
    function Set(k: K, v: V): (m: JsMap<K, V>)
      requires Valid()
      ensures m.Valid()
      ensures m.values == values[k := v]
      ensures m.keys == if k in values then keys else keys + [k]
    {
      if k in values then JsMap(keys, values[k := v]) else JsMap(keys + [k], values[k := v])
    }

    /** `Array.from(m.entries())` */
    function Entries(): (es: seq<(K, V)>)
      requires Valid()
      ensures |es| == |keys|
      ensures forall i :: 0 <= i < |es| ==> es[i] == (keys[i], values[keys[i]])
    {
      seq(|keys|, i requires 0 <= i < |keys| => (keys[i], values[keys[i]]))
    }
  }

  /** `new Map()` */
  function Empty<K(==), V>(): (m: JsMap<K, V>)
    ensures m.Valid() && m.keys == [] && m.values == map[]
  {
    JsMap([], map[])
  }

  /** `new Map(entries)`: the entries are set one after another. */
  function FromEntries<K(==), V>(es: seq<(K, V)>): (m: JsMap<K, V>)
    ensures m.Valid()
  {
    if es == [] then Empty() else FromEntries(es[..|es| - 1]).Set(es[|es| - 1].0, es[|es| - 1].1)
  }

  /** Writing a map out as its entry list and reading it back gives the same map,
      keys in the same order. */
  lemma EntriesRoundTrip<K, V>(m: JsMap<K, V>)
    requires m.Valid()
    ensures FromEntries(m.Entries()) == m
  {
    var es := m.Entries();
    assert Firsts(es) == m.keys;
    FromDistinctEntries(es);
    var r := FromEntries(es);
    forall k | k in r.values
      ensures k in m.values && r.values[k] == m.values[k]
    {
      var i :| 0 <= i < |m.keys| && m.keys[i] == k;
    }
    assert r.values == m.values;
  }

  /** The keys of an entry list. */
  function Firsts<K, V>(es: seq<(K, V)>): (ks: seq<K>)
    ensures |ks| == |es|
    ensures forall i :: 0 <= i < |es| ==> ks[i] == es[i].0
  {
    seq(|es|, i requires 0 <= i < |es| => es[i].0)
  }

  lemma FirstsSnoc<K, V>(es: seq<(K, V)>)
    requires es != [] && Distinct(Firsts(es))
    ensures Distinct(Firsts(es[..|es| - 1]))
    ensures Firsts(es) == Firsts(es[..|es| - 1]) + [es[|es| - 1].0]
    ensures es[|es| - 1].0 !in Firsts(es[..|es| - 1])
  {
    assert Firsts(es[..|es| - 1]) == Firsts(es)[..|es| - 1];
  }

  /** Entries with distinct keys are read back as they are, keys in order. */
  lemma {:induction false} FromDistinctEntries<K, V>(es: seq<(K, V)>)
    requires Distinct(Firsts(es))
    ensures FromEntries(es).keys == Firsts(es)
    ensures forall i :: 0 <= i < |es| ==> FromEntries(es).values[es[i].0] == es[i].1
  {
    if es != [] {
      var init := es[..|es| - 1];
      var k := es[|es| - 1].0;
      FirstsSnoc(es);
      FromDistinctEntries(init);
      var before := FromEntries(init);
      assert FromEntries(es) == before.Set(k, es[|es| - 1].1);
      assert k !in before.values;
    }
  }
}
