// The `OrderBy(..).ThenBy(..)` orderings used by the ripple ranking, the
// patronage candidate list and the tournament seeding ranking: a stable
// insertion sort on a lexicographic key of up to three components.

module Sorting {
  import opened Common

  /** A lexicographic sort key; a descending component is stored negated. */
  datatype SortKey = SortKey(k1: real, k2: real, k3: real)

  predicate KeyLe(a: SortKey, b: SortKey)
  {
    a.k1 < b.k1 || (a.k1 == b.k1 && (a.k2 < b.k2 || (a.k2 == b.k2 && a.k3 <= b.k3)))
  }

  lemma KeyLeTransitive(a: SortKey, b: SortKey, c: SortKey)
    requires KeyLe(a, b) && KeyLe(b, c)
    ensures KeyLe(a, c)
  {
  }

  predicate SortedBy<T>(s: seq<T>, key: T -> SortKey)
  {
    forall i, j :: 0 <= i < j < |s| ==> KeyLe(key(s[i]), key(s[j]))
  }

  /** A head ranking at or before every element keeps a sorted sequence sorted. */
  lemma ConsSorted<T>(x: T, s: seq<T>, key: T -> SortKey)
    requires SortedBy(s, key)
    requires forall e :: e in s ==> KeyLe(key(x), key(e))
    ensures SortedBy([x] + s, key)
  {
    var r := [x] + s;
    forall i, j | 0 <= i < j < |r| ensures KeyLe(key(r[i]), key(r[j])) {
      assert r[j] == s[j - 1] && r[j] in s;
      if i > 0 {
        assert r[i] == s[i - 1];
      }
    }
  }

  /** The tail of a sorted sequence is sorted and ranks at or after its head. */
  lemma SortedTail<T>(s: seq<T>, key: T -> SortKey)
    requires s != [] && SortedBy(s, key)
    ensures SortedBy(s[1..], key)
    ensures forall e :: e in s ==> KeyLe(key(s[0]), key(e))
  {
    forall i, j | 0 <= i < j < |s[1..]| ensures KeyLe(key(s[1..][i]), key(s[1..][j])) {
      assert s[1..][i] == s[i + 1] && s[1..][j] == s[j + 1];
    }
    forall e | e in s ensures KeyLe(key(s[0]), key(e)) {
      var k :| 0 <= k < |s| && s[k] == e;
    }
  }

  /** Places `x` before the first element whose key is not below it. */
  function Insert<T>(x: T, s: seq<T>, key: T -> SortKey): (r: seq<T>)
    requires SortedBy(s, key)
    ensures SortedBy(r, key)
    ensures multiset(r) == multiset(s) + multiset{x}
    ensures forall e :: e in r ==> e == x || e in s
  {
    if s == [] then [x]
    else
      SortedTail(s, key);
      if KeyLe(key(x), key(s[0])) then
        assert forall e :: e in s ==> KeyLe(key(s[0]), key(e)) ==> KeyLe(key(x), key(e));
        ConsSorted(x, s, key);
        [x] + s
      else
        assert s == [s[0]] + s[1..];
        var t := Insert(x, s[1..], key);
        assert forall e :: e in s[1..] ==> e in s;
        ConsSorted(s[0], t, key);
        [s[0]] + t
  }

  /** `OrderBy` on the key: a sorted permutation of `s`. */
  function SortBy<T>(s: seq<T>, key: T -> SortKey): (r: seq<T>)
    ensures SortedBy(r, key)
    ensures multiset(r) == multiset(s)
    ensures |r| == |s|
  {
    if s == [] then []
    else
      assert s == [s[0]] + s[1..];
      Insert(s[0], SortBy(s[1..], key), key)
  }

  /** `x` occurs in `r` at some position before some occurrence of `y`. */
  ghost predicate Before<T>(r: seq<T>, x: T, y: T)
  {
    exists a, b :: 0 <= a < b < |r| && r[a] == x && r[b] == y
  }

  /** Inserting `x` puts it before every element that does not rank below it. */
  lemma {:induction false} InsertBefore<T>(x: T, s: seq<T>, key: T -> SortKey, e: T)
    requires SortedBy(s, key)
    requires e in s && KeyLe(key(x), key(e))
    ensures Before(Insert(x, s, key), x, e)
    decreases |s|
  {
    InsertShape(x, s, key);
    var k :| 0 <= k < |s| && s[k] == e;
    if KeyLe(key(x), key(s[0])) {
      var r := [x] + s;
      assert 0 <= 0 < k + 1 < |r| && r[0] == x && r[k + 1] == e;
    } else {
      SortedTail(s, key);
      assert e != s[0];
      assert s[1..][k - 1] == e;
      InsertBefore(x, s[1..], key, e);
      ConsKeepsBefore(s[0], Insert(x, s[1..], key), x, e);
    }
  }

  /** The two shapes of a non-empty insertion. */
  lemma InsertShape<T>(x: T, s: seq<T>, key: T -> SortKey)
    requires SortedBy(s, key) && s != []
    ensures SortedBy(s[1..], key)
    ensures KeyLe(key(x), key(s[0])) ==> Insert(x, s, key) == [x] + s
    ensures !KeyLe(key(x), key(s[0])) ==> Insert(x, s, key) == [s[0]] + Insert(x, s[1..], key)
  {
    SortedTail(s, key);
  }

  /** Every element already there is still there after an insertion. */
  lemma InsertKeeps<T>(x: T, s: seq<T>, key: T -> SortKey, z: T)
    requires SortedBy(s, key) && z in s
    ensures z in Insert(x, s, key)
  {
    assert z in multiset(s);
  }

  /** When `x` goes further in, the head stays first, before every later element. */
  lemma InsertHeadBefore<T>(x: T, s: seq<T>, key: T -> SortKey, z: T)
    requires SortedBy(s, key) && s != [] && !KeyLe(key(x), key(s[0]))
    requires z in s[1..]
    ensures Before(Insert(x, s, key), s[0], z)
  {
    InsertShape(x, s, key);
    var t := Insert(x, s[1..], key);
    var r := [s[0]] + t;
    InsertKeeps(x, s[1..], key, z);
    var k :| 0 <= k < |t| && t[k] == z;
    assert 0 <= 0 < k + 1 < |r| && r[0] == s[0] && r[k + 1] == z;
  }

  /** An element put in front keeps the order of the rest. */
  lemma ConsKeepsBefore<T>(h: T, t: seq<T>, y: T, z: T)
    requires Before(t, y, z)
    ensures Before([h] + t, y, z)
  {
    var c, d :| 0 <= c < d < |t| && t[c] == y && t[d] == z;
    var r := [h] + t;
    assert 0 <= c + 1 < d + 1 < |r| && r[c + 1] == y && r[d + 1] == z;
  }

  /** Inserting an element keeps the order of the elements already there. */
  lemma {:induction false} InsertKeepsBefore<T>(x: T, s: seq<T>, key: T -> SortKey, y: T, z: T)
    requires SortedBy(s, key)
    requires Before(s, y, z)
    ensures Before(Insert(x, s, key), y, z)
    decreases |s|
  {
    var a, b :| 0 <= a < b < |s| && s[a] == y && s[b] == z;
    InsertShape(x, s, key);
    if KeyLe(key(x), key(s[0])) {
      ConsKeepsBefore(x, s, y, z);
    } else {
      assert s[1..][b - 1] == z;
      if a == 0 {
        InsertHeadBefore(x, s, key, z);
      } else {
        assert s[1..][a - 1] == y;
        InsertKeepsBefore(x, s[1..], key, y, z);
        ConsKeepsBefore(s[0], Insert(x, s[1..], key), y, z);
      }
    }
  }

  /**
   * `SortBy` is stable, as `OrderBy` is: of two elements with equal keys,
   * the one earlier in the input is also earlier in the result.
   */
  lemma {:induction false} SortByStable<T>(s: seq<T>, key: T -> SortKey, i: nat, j: nat)
    requires i < j < |s| && key(s[i]) == key(s[j])
    ensures Before(SortBy(s, key), s[i], s[j])
    decreases |s|
  {
    assert s == [s[0]] + s[1..];
    var rest := SortBy(s[1..], key);
    assert SortBy(s, key) == Insert(s[0], rest, key);
    if i == 0 {
      assert s[j] in multiset(s[1..]) by { assert s[1..][j - 1] == s[j]; }
      assert s[j] in multiset(rest);
      assert s[j] in rest;
      InsertBefore(s[0], rest, key, s[j]);
    } else {
      assert s[1..][i - 1] == s[i] && s[1..][j - 1] == s[j];
      SortByStable(s[1..], key, i - 1, j - 1);
      InsertKeepsBefore(s[0], rest, key, s[i], s[j]);
    }
  }

  /** `Take(n)`. */
  function Take<T>(s: seq<T>, n: nat): (r: seq<T>)
    ensures |r| == if n < |s| then n else |s|
    ensures r == s[..|r|]
  {
    if n < |s| then s[..n] else s
  }

  /**
   * `OrderBy(key).Take(n)` over distinct elements: distinct, sorted, drawn
   * from `s`, and nothing left out ranks strictly before anything kept;
   * when fewer than `n` are kept, nothing is left out.
   */
  lemma RankedTake<T>(s: seq<T>, key: T -> SortKey, n: nat)
    requires NoDuplicates(s)
    ensures var r := Take(SortBy(s, key), n);
            NoDuplicates(r) && SortedBy(r, key) && (forall x :: x in r ==> x in s) &&
            (forall x, y :: y in r && x in s && x !in r ==> KeyLe(key(y), key(x))) &&
            (|r| < n ==> forall x :: x in s ==> x in r)
  {
    var q := SortBy(s, key);
    var r := Take(q, n);
    MultisetNoDuplicates(s, q);
    forall x | x in r ensures x in s {
      assert x in multiset(q);
    }
    forall x, y | y in r && x in s && x !in r ensures KeyLe(key(y), key(x)) {
      assert x in multiset(q);
      var j :| 0 <= j < |q| && q[j] == x;
      var i :| 0 <= i < |r| && r[i] == y;
      assert r == q[..|r|];
    }
    if |r| < n {
      forall x | x in s ensures x in r {
        assert x in multiset(q);
      }
    }
  }
}
