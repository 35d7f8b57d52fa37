/**
 YAML documents as the rule loader sees them.  A mapping keeps its insertion
 order; the scalars that no modelled code looks into are kept as their text.
 */
module Yaml {
  import opened Wrappers

  datatype Yaml = Text(s: string) | Array(items: seq<Yaml>) | Hash(pairs: seq<Pair>) | Scalar(repr: string)

  datatype Pair = Pair(key: Yaml, value: Yaml)

  function Without(pairs: seq<Pair>, key: Yaml): seq<Pair> {
    if pairs == [] then []
    else
      var before := Without(pairs[..|pairs| - 1], key);
      if pairs[|pairs| - 1].key == key then before else before + [pairs[|pairs| - 1]]
  }

  /** Insertion into the linked hash map: a key that is there already moves to the back with its new value. */
  function Insert(pairs: seq<Pair>, key: Yaml, value: Yaml): seq<Pair> { Without(pairs, key) + [Pair(key, value)] }

  predicate HasKey(pairs: seq<Pair>, key: Yaml) { exists i :: 0 <= i < |pairs| && pairs[i].key == key }

  predicate DistinctKeys(pairs: seq<Pair>) { forall i, j :: 0 <= i < j < |pairs| ==> pairs[i].key != pairs[j].key }

  /** Mappings have distinct keys at every depth. */
  predicate WellFormed(y: Yaml) {
    match y
    case Hash(pairs) => DistinctKeys(pairs) && forall i :: 0 <= i < |pairs| ==> WellFormed(pairs[i].value)
    case Array(items) => forall i :: 0 <= i < |items| ==> WellFormed(items[i])
    case _ => true
  }

  lemma {:induction false} WithoutAbsent(pairs: seq<Pair>, key: Yaml)
    requires !HasKey(pairs, key)
    ensures Without(pairs, key) == pairs
  {
    if pairs != [] {
      var init := pairs[..|pairs| - 1];
      assert forall i :: 0 <= i < |init| ==> init[i] == pairs[i];
      WithoutAbsent(init, key);
    }
  }

  lemma {:induction false} WithoutMembers(pairs: seq<Pair>, key: Yaml)
    ensures forall p :: p in Without(pairs, key) <==> p in pairs && p.key != key
  {
    if pairs != [] {
      var init, last := pairs[..|pairs| - 1], pairs[|pairs| - 1];
      WithoutMembers(init, key);
      assert pairs == init + [last];
    }
  }

  lemma {:induction false} WithoutDistinct(pairs: seq<Pair>, key: Yaml)
    requires DistinctKeys(pairs)
    ensures DistinctKeys(Without(pairs, key)) && !HasKey(Without(pairs, key), key)
  {
    if pairs != [] {
      var init, last := pairs[..|pairs| - 1], pairs[|pairs| - 1];
      assert forall i :: 0 <= i < |init| ==> init[i] == pairs[i];
      WithoutDistinct(init, key);
      WithoutMembers(init, key);
      var w := Without(init, key);
      forall i | 0 <= i < |w| ensures w[i].key != last.key {
        assert w[i] in init;
      }
    }
  }

  /** The value of a key, as `doc["key"]` finds it. */
  function Lookup(y: Yaml, key: string): Option<Yaml> {
    match y
    case Hash(pairs) => Find(pairs, key)
    case _ => None
  }

  function Find(pairs: seq<Pair>, key: string): Option<Yaml> {
    if pairs == [] then None
    else if pairs[0].key == Text(key) then Some(pairs[0].value)
    else Find(pairs[1..], key)
  }

  /** In a mapping of distinct keys a value is found exactly under its own key. */
  lemma {:induction false} FindIff(pairs: seq<Pair>, key: string, v: Yaml)
    requires DistinctKeys(pairs)
    ensures Find(pairs, key) == Some(v) <==> Pair(Text(key), v) in pairs
  {
    if pairs != [] {
      var rest := pairs[1..];
      assert forall i :: 0 <= i < |rest| ==> rest[i] == pairs[i + 1];
      FindIff(rest, key, v);
      assert pairs == [pairs[0]] + rest;
    }
  }
}
