/**
 * A JavaScript `Map<string, V>`: a key-to-value table that remembers the
 * order in which keys were first inserted; `Array.from(m.values())` lists the
 * values in that order.
 */
module OrderedMaps {

  import opened Wrappers
  import opened Collections

  datatype OrderedMap<V> = OrderedMap(keys: seq<string>, entries: map<string, V>)
  {
    /** Each key occurs once in the insertion order, and the order covers exactly the table's keys. */
    ghost predicate Valid() {
      Distinct(keys) && entries.Keys == set k | k in keys
    }

    /** `Array.from(m.values())`. */
    function Values(): (vs: seq<V>)
      requires Valid()
      ensures |vs| == |keys|
      ensures forall i :: 0 <= i < |keys| ==> vs[i] == entries[keys[i]]
    {
      seq(|keys|, i requires 0 <= i < |keys| => entries[keys[i]])
    }

    /** `m.get(k)`. */
    function Get(k: string): (r: Option<V>)
      ensures r.Some? <==> k in entries
      ensures r.Some? ==> r.value == entries[k]
    {
      if k in entries then Some(entries[k]) else None
    }

    /** `m.set(k, v)`: a new key goes to the end of the order; an existing key keeps its place. */
    function Set(k: string, v: V): (m: OrderedMap<V>)
      requires Valid()
      ensures m.Valid()
      ensures m.entries == entries[k := v]
      ensures k in entries ==> m.keys == keys
      ensures k !in entries ==> m.keys == keys + [k]
    {
      if k in entries then OrderedMap(keys, entries[k := v])
      else OrderedMap(keys + [k], entries[k := v])
    }
  }

  /** `new Map()`. */
  function Empty<V>(): (m: OrderedMap<V>)
    ensures m.Valid() && m.Values() == [] && m.entries == map[]
  {
    OrderedMap([], map[])
  }

  /** Setting a fresh key appends its value to the listing and keeps every other value where it was. */
  lemma SetFreshAppends<V>(m: OrderedMap<V>, k: string, v: V)
    requires m.Valid() && k !in m.entries
    ensures m.Set(k, v).Values() == m.Values() + [v]
  {
    var vs := m.Set(k, v).Values();
    assert k !in m.keys;
    forall i | 0 <= i < |m.keys| ensures vs[i] == m.Values()[i] {
      assert m.keys[i] != k;
    }
  }

  /** Setting an existing key replaces its value in place and leaves the listing's order alone. */
  lemma SetExistingReplaces<V>(m: OrderedMap<V>, k: string, v: V)
    requires m.Valid()
    ensures forall i :: 0 <= i < |m.keys| && m.keys[i] == k ==> m.Set(k, v).Values() == m.Values()[i := v]
  {
    forall i | 0 <= i < |m.keys| && m.keys[i] == k
      ensures m.Set(k, v).Values() == m.Values()[i := v]
    {
      var vs := m.Set(k, v).Values();
      forall j | 0 <= j < |m.keys| ensures vs[j] == m.Values()[i := v][j] {
        if j != i { assert m.keys[j] != k; }
      }
    }
  }

  /** The values of a table whose entries are keyed by their own id are pairwise distinct. */
  lemma ValuesDistinct<V>(m: OrderedMap<V>, idOf: V -> string)
    requires m.Valid()
    requires forall k :: k in m.entries ==> idOf(m.entries[k]) == k
    ensures Distinct(m.Values())
  {
    var vs := m.Values();
    forall i, j | 0 <= i < j < |vs| ensures vs[i] != vs[j] {
      assert m.keys[i] in m.entries && m.keys[j] in m.entries;
      assert idOf(vs[i]) == m.keys[i] && idOf(vs[j]) == m.keys[j];
    }
  }
}
