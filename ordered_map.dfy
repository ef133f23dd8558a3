/** The insertion-ordered string-keyed maps of the source (Kotlin's `mutableMapOf`,
    a LinkedHashMap): iteration follows first insertion, and storing under a key
    that is already present replaces its value in place. */
module OrderedMaps {
  import opened Seqs

  datatype OrderedMap<V> = OrderedMap(keys: seq<string>, values: map<string, V>) {

    /** The keys are listed once each, and exactly the keys of `values` are listed. */
    predicate Valid() {
      NoDup(keys) && values.Keys == set k | k in keys
    }

    /** `map[k] = v`: a new key goes to the end, an existing key keeps its place. */
    function Put(k: string, v: V): (r: OrderedMap<V>)
      ensures r.values == values[k := v]
      ensures k in values ==> r.keys == keys
      ensures k !in values ==> r.keys == keys + [k]
      ensures Valid() ==> r.Valid()
    {
      if k in values then OrderedMap(keys, values[k := v])
      else OrderedMap(keys + [k], values[k := v])
    }

    /** The entries in iteration order. */
    function Entries(): (r: seq<(string, V)>)
      requires Valid()
      ensures |r| == |keys|
      ensures forall i :: 0 <= i < |r| ==> r[i] == (keys[i], values[keys[i]])
    {
      seq(|keys|, i requires 0 <= i < |keys| => (keys[i], values[keys[i]]))
    }
  }

  /** `values.toList()`: the values in iteration order. */
  function ValueList<V>(m: OrderedMap<V>): (r: seq<V>)
    requires m.Valid()
    ensures |r| == |m.keys|
    ensures forall i :: 0 <= i < |r| ==> m.keys[i] in m.values && r[i] == m.values[m.keys[i]]
  {
    seq(|m.keys|, i requires 0 <= i < |m.keys| && m.keys[i] in m.values => m.values[m.keys[i]])
  }

  function Empty<V>(): (r: OrderedMap<V>)
    ensures r.Valid() && r.keys == [] && r.values == map[]
  {
    OrderedMap([], map[])
  }

  /** The keys of a list of entries. */
  function KeysOf<V>(entries: seq<(string, V)>): (r: set<string>)
    ensures forall i :: 0 <= i < |entries| ==> entries[i].0 in r
    ensures forall k :: k in r ==> exists i :: 0 <= i < |entries| && entries[i].0 == k
  {
    set i | 0 <= i < |entries| :: entries[i].0
  }

  /** The value the last entry with key `k` carries. */
  function LastValue<V>(entries: seq<(string, V)>, k: string): V
    requires k in KeysOf(entries)
  {
    var last := entries[|entries| - 1];
    if last.0 == k then last.1
    else
      assert k in KeysOf(entries[..|entries| - 1]) by {
        var i :| 0 <= i < |entries| && entries[i].0 == k;
        assert entries[..|entries| - 1][i] == entries[i];
      }
      LastValue(entries[..|entries| - 1], k)
  }

  /** The value of the last entry with a key is the one stored under it. */
  lemma {:induction false} LastEntry<V>(entries: seq<(string, V)>, i: nat)
    requires i < |entries|
    requires forall j :: i < j < |entries| ==> entries[j].0 != entries[i].0
    ensures LastValue(entries, entries[i].0) == entries[i].1
  {
    if i < |entries| - 1 {
      var init := entries[..|entries| - 1];
      assert init[i] == entries[i];
      LastEntry(init, i);
    }
  }

  /** Stores every entry in order, as a `forEach { map[key] = value }` does. */
  function PutAll<V>(m: OrderedMap<V>, entries: seq<(string, V)>): (r: OrderedMap<V>)
    ensures r.values.Keys == m.values.Keys + KeysOf(entries)
    ensures forall k :: k in r.values ==>
      r.values[k] == if k in KeysOf(entries) then LastValue(entries, k) else m.values[k]
    ensures |m.keys| <= |r.keys| && r.keys[..|m.keys|] == m.keys
    ensures KeysOf(entries) <= m.values.Keys ==> r.keys == m.keys
    ensures m.Valid() ==> r.Valid()
  {
    if entries == [] then m
    else
      var init := entries[..|entries| - 1];
      var last := entries[|entries| - 1];
      assert KeysOf(entries) == KeysOf(init) + {last.0} by {
        forall k | k in KeysOf(entries) ensures k in KeysOf(init) + {last.0} {
          var i :| 0 <= i < |entries| && entries[i].0 == k;
          if i < |entries| - 1 { assert init[i] == entries[i]; }
        }
      }
      PutAll(m, init).Put(last.0, last.1)
  }

  /** Storing the same entries a second time changes nothing. */
  lemma PutAllTwice<V>(m: OrderedMap<V>, entries: seq<(string, V)>)
    ensures PutAll(PutAll(m, entries), entries) == PutAll(m, entries)
  {
    var once := PutAll(m, entries);
    var twice := PutAll(once, entries);
    assert twice.keys == once.keys;
    assert twice.values == once.values;
  }
}
