// The save format shared by the campaign behaviours for their
// string-keyed timestamp dictionaries: a list of keys and a parallel list
// of values, written in the dictionary's enumeration order and read back
// over the shorter of the two lists, a later key overwriting an earlier one.

module ParallelLists {
  import opened Common

  /** `order` enumerates the keys of `m`, each exactly once. */
  ghost predicate IsEnumeration<V>(order: seq<string>, m: map<string, V>)
  {
    NoDuplicates(order) && forall k :: k in m <==> k in order
  }

  /** The map rebuilt from the first `n` key/value pairs, in order. */
  function LoadPairs<V>(keys: seq<string>, values: seq<V>, n: nat): (m: map<string, V>)
    requires n <= |keys| && n <= |values|
    ensures forall k :: k in m <==> k in keys[..n]
  {
    if n == 0 then map[]
    else
      assert keys[..n] == keys[..n - 1] + [keys[n - 1]];
      LoadPairs(keys, values, n - 1)[keys[n - 1] := values[n - 1]]
  }

  /** The map the load loop builds: the pairs up to the shorter list's length. */
  function ParallelMap<V>(keys: seq<string>, values: seq<V>): (m: map<string, V>)
    ensures forall k :: k in m <==> k in keys[..MinInt(|keys|, |values|)]
  {
    LoadPairs(keys, values, MinInt(|keys|, |values|))
  }

  /** A key's value is the one paired with its last occurrence among the pairs read. */
  lemma {:induction false} LoadPairsLast<V>(keys: seq<string>, values: seq<V>, n: nat, i: nat)
    requires i < n <= |keys| && n <= |values|
    requires forall j :: i < j < n ==> keys[j] != keys[i]
    ensures LoadPairs(keys, values, n)[keys[i]] == values[i]
  {
    if i < n - 1 {
      LoadPairsLast(keys, values, n - 1, i);
    }
  }

  /** The load loop: `map[keys[i]] = values[i]` for every pair both lists hold. */
  method LoadParallel<V>(keys: seq<string>, values: seq<V>) returns (m: map<string, V>)
    ensures m == ParallelMap(keys, values)
  {
    m := map[];
    var n := MinInt(|keys|, |values|);
    var i := 0;
    while i < n
      invariant 0 <= i <= n
      invariant m == LoadPairs(keys, values, i)
    {
      m := m[keys[i] := values[i]];
      i := i + 1;
    }
  }

  /** The values saved beside `order`, one per key. */
  function SavedValues<V>(order: seq<string>, m: map<string, V>): (values: seq<V>)
    requires forall i :: 0 <= i < |order| ==> order[i] in m
    ensures |values| == |order|
  {
    seq(|order|, i requires 0 <= i < |order| => m[order[i]])
  }

  /** The save loop: every entry, in enumeration order, into two parallel lists. */
  method SaveParallel<V>(m: map<string, V>, order: seq<string>) returns (keys: seq<string>, values: seq<V>)
    requires IsEnumeration(order, m)
    ensures keys == order && values == SavedValues(order, m)
  {
    keys, values := [], [];
    var i := 0;
    while i < |order|
      invariant 0 <= i <= |order|
      invariant keys == order[..i]
      invariant values == SavedValues(order[..i], m)
    {
      assert order[..i + 1] == order[..i] + [order[i]];
      keys := keys + [order[i]];
      values := values + [m[order[i]]];
      i := i + 1;
    }
    assert order[..i] == order;
  }

  /** The pairs read back from a save of `m` rebuild `m`: each prefix rebuilds the entries it names. */
  lemma {:induction false} LoadSavedPrefix<V>(m: map<string, V>, order: seq<string>, n: nat)
    requires forall i :: 0 <= i < |order| ==> order[i] in m
    requires n <= |order|
    ensures LoadPairs(order, SavedValues(order, m), n) == map k | k in order[..n] :: m[k]
  {
    if n > 0 {
      LoadSavedPrefix(m, order, n - 1);
      var k := order[n - 1];
      assert order[..n] == order[..n - 1] + [k];
      var before: map<string, V> := map k | k in order[..n - 1] :: m[k];
      var after: map<string, V> := map k | k in order[..n] :: m[k];
      assert after == before[k := m[k]] by {
        assert forall x :: x in after <==> x in before || x == k;
      }
      var values := SavedValues(order, m);
      assert values[n - 1] == m[k];
      assert LoadPairs(order, values, n) == LoadPairs(order, values, n - 1)[k := values[n - 1]];
    }
  }

  /** Saving a dictionary and loading the two lists gives back the same dictionary. */
  lemma SaveLoadParallel<V>(m: map<string, V>, order: seq<string>)
    requires IsEnumeration(order, m)
    ensures ParallelMap(order, SavedValues(order, m)) == m
  {
    LoadSavedPrefix(m, order, |order|);
    assert order[..|order|] == order;
  }
}
