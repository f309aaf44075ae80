// Shared vocabulary of the NobleSociety model: optional values, hero ids,
// the numeric conversions C# performs implicitly, ordinal string order and
// the "x|y" pair keys that several components build from two hero ids.

module Common {

  datatype Option<T> = None | Some(value: T)
  {
    function GetOr(default: T): T
    {
      if this.Some? then this.value else default
    }
  }

  /** A hero is identified by its StringId. */
  type HeroId = string

  /** One call of `ChangeRelationAction.ApplyRelationChangeBetweenHeroes(from, to, delta)`. */
  datatype RelationChange = RelationChange(from: HeroId, to: HeroId, delta: int)

  // ---------------------------------------------------------------------
  // Numbers

  function Abs(x: real): (r: real)
    ensures r >= 0.0 && (r == x || r == -x)
  {
    if x < 0.0 then -x else x
  }

  function AbsInt(x: int): (r: int)
    ensures r >= 0 && (r == x || r == -x)
  {
    if x < 0 then -x else x
  }

  function Min(a: real, b: real): real { if a <= b then a else b }
  function Max(a: real, b: real): real { if a >= b then a else b }
  function MinInt(a: int, b: int): int { if a <= b then a else b }
  function MaxInt(a: int, b: int): int { if a >= b then a else b }

  /** Clamp of a value into [lo, hi], as the source's `Clamp`/`MathF.Clamp`. */
  function Clamp(v: real, lo: real, hi: real): (r: real)
    requires lo <= hi
    ensures lo <= r <= hi
    ensures lo <= v <= hi ==> r == v
    ensures v < lo ==> r == lo
    ensures v > hi ==> r == hi
  {
    if v < lo then lo else if v > hi then hi else v
  }

  /** C#'s `(int)x` on a floating value: truncation toward zero. */
  function Truncate(x: real): (r: int)
    ensures x >= 0.0 ==> r as real <= x < r as real + 1.0
    ensures x < 0.0 ==> r as real - 1.0 < x <= r as real
    ensures AbsInt(r) as real <= Abs(x)
  {
    if x >= 0.0 then x.Floor else -((-x).Floor)
  }

  /** A second store under the same key replaces the first. */
  lemma MapOverwrite<K, V>(m: map<K, V>, k: K, a: V, b: V)
    ensures m[k := a][k := b] == m[k := b]
  {
  }

  /** C#'s integer `a / 2`: half, truncated toward zero. */
  function Half(a: int): (q: int)
    ensures a >= 0 ==> 0 <= 2 * q <= a < 2 * q + 2
    ensures a < 0 ==> 2 * q - 2 < a <= 2 * q <= 0
  {
    if a >= 0 then a / 2 else -((-a) / 2)
  }

  /**
   * Rounding half away from zero, `Math.Round(x, MidpointRounding.AwayFromZero)`.
   */
  function RoundAwayFromZero(x: real): (r: int)
    ensures Abs(x - r as real) <= 0.5
    ensures x >= 0.0 ==> r >= 0
    ensures x <= 0.0 ==> r <= 0
    ensures Abs(x) >= 0.5 ==> AbsInt(r) >= 1
    ensures Abs(x - r as real) == 0.5 ==> Abs(r as real) > Abs(x)
  {
    if x >= 0.0 then (x + 0.5).Floor else -((-x + 0.5).Floor)
  }

  /** `Math.Round(x)` with .NET's default rounding: half to even. */
  function RoundHalfToEven(x: real): (r: int)
    ensures Abs(x - r as real) <= 0.5
    ensures Abs(x - r as real) == 0.5 ==> r % 2 == 0
  {
    var f := x.Floor;
    var frac := x - f as real;
    if frac < 0.5 then f
    else if frac > 0.5 then f + 1
    else if f % 2 == 0 then f else f + 1
  }

  // ---------------------------------------------------------------------
  // Sequences

  /** Order-preserving selection, the shape of `Where` and of `List.RemoveAll(!keep)`. */
  function Filter<T>(s: seq<T>, keep: T -> bool): (r: seq<T>)
    ensures |r| <= |s|
    ensures forall x :: x in r ==> x in s && keep(x)
  {
    if s == [] then []
    else Filter(s[..|s| - 1], keep) + (if keep(s[|s| - 1]) then [s[|s| - 1]] else [])
  }

  /** `Filter` drops nothing it should keep. */
  lemma FilterKeepsAll<T>(s: seq<T>, keep: T -> bool)
    ensures forall x :: x in s && keep(x) ==> x in Filter(s, keep)
  {
    forall x | x in s && keep(x)
      ensures x in Filter(s, keep)
    {
      FilterKeeps(s, keep, x);
    }
  }

  lemma {:induction false} FilterAll<T>(s: seq<T>, keep: T -> bool)
    requires forall x :: x in s ==> keep(x)
    ensures Filter(s, keep) == s
  {
    if s != [] {
      FilterAll(s[..|s| - 1], keep);
      assert s[..|s| - 1] + [s[|s| - 1]] == s;
    }
  }

  lemma {:induction false} FilterAppend<T>(a: seq<T>, b: seq<T>, keep: T -> bool)
    ensures Filter(a + b, keep) == Filter(a, keep) + Filter(b, keep)
  {
    if b != [] {
      assert (a + b)[..|a + b| - 1] == a + b[..|b| - 1];
      FilterAppend(a, b[..|b| - 1], keep);
    } else {
      assert a + b == a;
    }
  }

  lemma {:induction false} FilterMultiset<T>(s: seq<T>, keep: T -> bool)
    ensures multiset(Filter(s, keep)) <= multiset(s)
  {
    if s != [] {
      FilterMultiset(s[..|s| - 1], keep);
      assert s == s[..|s| - 1] + [s[|s| - 1]];
    }
  }

  lemma {:induction false} FilterKeeps<T>(s: seq<T>, keep: T -> bool, x: T)
    requires x in s && keep(x)
    ensures x in Filter(s, keep)
  {
    if s[|s| - 1] != x {
      assert s == s[..|s| - 1] + [s[|s| - 1]];
      FilterKeeps(s[..|s| - 1], keep, x);
    }
  }

  function Count<T>(s: seq<T>, p: T -> bool): (n: nat)
    ensures n <= |s|
  {
    if s == [] then 0
    else Count(s[..|s| - 1], p) + (if p(s[|s| - 1]) then 1 else 0)
  }

  lemma {:induction false} FilterCount<T>(s: seq<T>, keep: T -> bool)
    ensures |Filter(s, keep)| == Count(s, keep)
    ensures |s| - |Filter(s, keep)| == Count(s, x => !keep(x))
  {
    if s != [] {
      FilterCount(s[..|s| - 1], keep);
    }
  }

  lemma {:induction false} CountAppend<T>(a: seq<T>, b: seq<T>, p: T -> bool)
    ensures Count(a + b, p) == Count(a, p) + Count(b, p)
  {
    if b != [] {
      assert (a + b)[..|a + b| - 1] == a + b[..|b| - 1];
      CountAppend(a, b[..|b| - 1], p);
    } else {
      assert a + b == a;
    }
  }

  lemma {:induction false} CountPositive<T>(s: seq<T>, p: T -> bool)
    requires Count(s, p) > 0
    ensures exists i :: 0 <= i < |s| && p(s[i])
  {
    if !p(s[|s| - 1]) {
      CountPositive(s[..|s| - 1], p);
      var i :| 0 <= i < |s| - 1 && p(s[..|s| - 1][i]);
      assert s[i] == s[..|s| - 1][i];
    }
  }

  /** The sequence without the element at position `i`. */
  function RemoveAt<T>(s: seq<T>, i: nat): (r: seq<T>)
    requires i < |s|
    ensures |r| == |s| - 1
  {
    seq(|s| - 1, j requires 0 <= j < |s| - 1 => if j < i then s[j] else s[j + 1])
  }

  /** Whatever is left after removing a position was there before. */
  lemma RemoveAtSubset<T>(s: seq<T>, i: nat, y: T)
    requires i < |s| && y in RemoveAt(s, i)
    ensures y in s
  {
    var r := RemoveAt(s, i);
    var j :| 0 <= j < |r| && r[j] == y;
    if j < i {
      assert s[j] == y;
    } else {
      assert s[j + 1] == y;
    }
  }

  /** Every element other than the removed one stays. */
  lemma RemoveAtKeeps<T>(s: seq<T>, i: nat, y: T)
    requires i < |s| && y in s && y != s[i]
    ensures y in RemoveAt(s, i)
  {
    var j :| 0 <= j < |s| && s[j] == y;
    if j < i {
      assert RemoveAt(s, i)[j] == y;
    } else {
      assert RemoveAt(s, i)[j - 1] == y;
    }
  }

  /** `List.Remove(x)`: drops the first occurrence of `x`, if any. */
  function RemoveFirst<T(==)>(s: seq<T>, x: T): (r: seq<T>)
    ensures x !in s ==> r == s
    ensures x in s ==> |r| == |s| - 1 && multiset(r) + multiset{x} == multiset(s)
  {
    if s == [] then []
    else if s[0] == x then
      assert s == [s[0]] + s[1..];
      s[1..]
    else
      assert s == [s[0]] + s[1..];
      [s[0]] + RemoveFirst(s[1..], x)
  }

  predicate NoDuplicates<T(==)>(s: seq<T>)
  {
    forall i, j :: 0 <= i < j < |s| ==> s[i] != s[j]
  }

  lemma {:induction false} RemoveFirstNoDuplicates<T>(s: seq<T>, x: T)
    requires NoDuplicates(s)
    ensures x !in RemoveFirst(s, x)
    ensures NoDuplicates(RemoveFirst(s, x))
    ensures forall y :: y in RemoveFirst(s, x) <==> y in s && y != x
  {
    if s != [] && s[0] != x {
      assert NoDuplicates(s[1..]) by {
        forall i, j | 0 <= i < j < |s[1..]| ensures s[1..][i] != s[1..][j] {
          assert s[1..][i] == s[i + 1] && s[1..][j] == s[j + 1];
        }
      }
      RemoveFirstNoDuplicates(s[1..], x);
      var t := RemoveFirst(s[1..], x);
      assert forall k :: 0 <= k < |s| - 1 ==> s[0] != s[1..][k];
      assert s[0] !in s[1..];
      assert s[0] !in t;
      assert RemoveFirst(s, x) == [s[0]] + t;
    } else if s != [] {
      assert forall k :: 1 <= k < |s| ==> s[k] != s[0];
    }
  }

  /** Selection keeps a sequence free of repeats. */
  lemma {:induction false} FilterNoDuplicates<T>(s: seq<T>, keep: T -> bool)
    requires NoDuplicates(s)
    ensures NoDuplicates(Filter(s, keep))
  {
    if s != [] {
      var init := s[..|s| - 1];
      var x := s[|s| - 1];
      assert NoDuplicates(init) by {
        forall i, j | 0 <= i < j < |init| ensures init[i] != init[j] {
          assert init[i] == s[i] && init[j] == s[j];
        }
      }
      FilterNoDuplicates(init, keep);
      var f := Filter(init, keep);
      if keep(x) {
        assert x !in f by {
          assert forall k :: 0 <= k < |init| ==> init[k] == s[k] != x;
        }
        var r := f + [x];
        forall i, j | 0 <= i < j < |r| ensures r[i] != r[j] {
          if j == |r| - 1 {
            assert r[i] == f[i];
          } else {
            assert r[i] == f[i] && r[j] == f[j];
          }
        }
      }
    }
  }

  /** Appending a new element keeps a sequence free of repeats. */
  lemma AppendNoDuplicates<T>(s: seq<T>, x: T)
    requires NoDuplicates(s) && x !in s
    ensures NoDuplicates(s + [x])
  {
    var r := s + [x];
    forall i, j | 0 <= i < j < |r| ensures r[i] != r[j] {
      assert r[i] == s[i];
      if j < |s| {
        assert r[j] == s[j];
      }
    }
  }

  /** In a sequence without repeats every element occurs once. */
  lemma {:induction false} NoDuplicatesOnce<T>(s: seq<T>, x: T)
    requires NoDuplicates(s)
    ensures multiset(s)[x] <= 1
  {
    if s != [] {
      var init := s[..|s| - 1];
      assert s == init + [s[|s| - 1]];
      NoDuplicatesOnce(init, x);
      if s[|s| - 1] == x {
        assert forall k :: 0 <= k < |init| ==> init[k] != x;
      }
    }
  }

  /** A rearrangement of a sequence without repeats has none either. */
  lemma MultisetNoDuplicates<T>(s: seq<T>, t: seq<T>)
    requires NoDuplicates(s) && multiset(s) == multiset(t)
    ensures NoDuplicates(t)
  {
    forall i, j | 0 <= i < j < |t| ensures t[i] != t[j] {
      if t[i] == t[j] {
        assert t == t[..j] + t[j..];
        assert t[i] in t[..j] && t[j] in t[j..];
        NoDuplicatesOnce(s, t[i]);
        assert false;
      }
    }
  }

  // ---------------------------------------------------------------------
  // Strings

  /**
   * `string.CompareOrdinal(x, y) < 0`: code unit by code unit, a proper
   * prefix before its extensions.
   */
  predicate OrdinalLess(x: string, y: string)
  {
    if |x| == 0 then |y| > 0
    else if |y| == 0 then false
    else if x[0] != y[0] then x[0] < y[0]
    else OrdinalLess(x[1..], y[1..])
  }

  lemma {:induction false} OrdinalLessAsymmetric(x: string, y: string)
    ensures !(OrdinalLess(x, y) && OrdinalLess(y, x))
  {
    if |x| > 0 && |y| > 0 && x[0] == y[0] {
      OrdinalLessAsymmetric(x[1..], y[1..]);
    }
  }

  lemma {:induction false} OrdinalLessTotal(x: string, y: string)
    ensures x == y || OrdinalLess(x, y) || OrdinalLess(y, x)
  {
    if |x| > 0 && |y| > 0 && x[0] == y[0] {
      OrdinalLessTotal(x[1..], y[1..]);
      if x[1..] == y[1..] {
        assert x == [x[0]] + x[1..] && y == [y[0]] + y[1..];
      }
    }
  }

  /**
   * The key under which an unordered pair of heroes is stored: the two ids
   * in ordinal order joined with '|'.
   */
  function PairKey(x: HeroId, y: HeroId): string
  {
    if OrdinalLess(x, y) then x + "|" + y else y + "|" + x
  }

  /** A pair key is one of the two joins of the ids, and one longer than both together. */
  lemma PairKeyShape(x: HeroId, y: HeroId)
    ensures var k := PairKey(x, y);
            (k == x + "|" + y || k == y + "|" + x) && |k| == |x| + |y| + 1
  {
  }

  lemma PairKeySymmetric(x: HeroId, y: HeroId)
    ensures PairKey(x, y) == PairKey(y, x)
  {
    OrdinalLessAsymmetric(x, y);
    OrdinalLessTotal(x, y);
  }

  /** `s.StartsWith(p)` with ordinal comparison. */
  predicate StartsWith(s: string, p: string)
  {
    |p| <= |s| && s[..|p|] == p
  }

  /** `s.Contains(sub)`: `sub` occurs somewhere in `s`. */
  predicate Contains(s: string, sub: string)
  {
    StartsWith(s, sub) || (|s| > 0 && Contains(s[1..], sub))
  }

  lemma {:induction false} ContainsAt(s: string, sub: string, i: nat)
    requires i + |sub| <= |s| && s[i..i + |sub|] == sub
    ensures Contains(s, sub)
  {
    if i > 0 {
      assert s[1..][i - 1..i - 1 + |sub|] == s[i..i + |sub|];
      ContainsAt(s[1..], sub, i - 1);
    }
  }

  /** `s.Split(sep)`: the pieces between separators, empty pieces kept. */
  function Split(s: string, sep: char): (parts: seq<string>)
    ensures |parts| >= 1
    ensures forall p :: p in parts ==> sep !in p
  {
    if s == [] then [""]
    else
      var rest := Split(s[1..], sep);
      if s[0] == sep then [""] + rest
      else [[s[0]] + rest[0]] + rest[1..]
  }

  lemma {:induction false} SplitNoSeparator(s: string, sep: char)
    requires sep !in s
    ensures Split(s, sep) == [s]
  {
    if s != [] {
      SplitNoSeparator(s[1..], sep);
      assert [s[0]] + s[1..] == s;
    }
  }

  lemma {:induction false} SplitJoin(a: string, b: string, sep: char)
    requires sep !in a
    ensures Split(a + [sep] + b, sep) == [a] + Split(b, sep)
  {
    if a == [] {
      assert a + [sep] + b == [sep] + b;
      assert ([sep] + b)[1..] == b;
    } else {
      assert (a + [sep] + b)[1..] == a[1..] + [sep] + b;
      SplitJoin(a[1..], b, sep);
      assert [a[0]] + a[1..] == a;
    }
  }

  /** `string.Join(sep, parts)`. */
  function Join(parts: seq<string>, sep: char): (s: string)
  {
    if |parts| == 0 then ""
    else if |parts| == 1 then parts[0]
    else parts[0] + [sep] + Join(parts[1..], sep)
  }

  lemma {:induction false} SplitJoinRoundTrip(parts: seq<string>, sep: char)
    requires |parts| >= 1
    requires forall p :: p in parts ==> sep !in p
    ensures Split(Join(parts, sep), sep) == parts
  {
    if |parts| == 1 {
      SplitNoSeparator(parts[0], sep);
    } else {
      SplitJoinRoundTrip(parts[1..], sep);
      SplitJoin(parts[0], Join(parts[1..], sep), sep);
      assert [parts[0]] + parts[1..] == parts;
    }
  }
}
