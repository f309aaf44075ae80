// The memory housekeeping pass of the daily driver, as functions on a
// memory log: half-life fading, a weight floor, per-tag caps that drop the
// oldest records of a tag, and a FIFO hard cap; with what each step keeps.

module MemoryHousekeeping {
  import opened Common
  import opened MemoryEntries

  /** Memories lighter than this after fading are dropped. */
  const CullThreshold: real := 0.2
  /** No lord keeps more memories than this; the oldest positions go first. */
  const HardCap: nat := 250

  /** `_tagCaps`, in the order its entries are declared and enumerated. */
  const TagCaps: seq<(MemoryTag, nat)> :=
    [(BattleVictoryTag, 180), (BattleDefeatTag, 180), (Belief, 120),
     (BetrayalTag, 120), (TradeAgreement, 80), (Gossip, 60)]

  /** How many records carry `tag` (the length of the source's `FindAll`). */
  function CountTag(s: seq<MemoryEntry>, tag: MemoryTag): (n: nat)
    ensures n <= |s|
  {
    if s == [] then 0
    else CountTag(s[..|s| - 1], tag) + (if tag in s[|s| - 1].tags then 1 else 0)
  }

  /** The records without `tag`, in order. */
  function Untagged(s: seq<MemoryEntry>, tag: MemoryTag): seq<MemoryEntry>
  {
    if s == [] then []
    else Untagged(s[..|s| - 1], tag) + (if tag in s[|s| - 1].tags then [] else [s[|s| - 1]])
  }

  lemma {:induction false} CountTagRemoveAt(s: seq<MemoryEntry>, i: nat, tag: MemoryTag)
    requires i < |s|
    ensures CountTag(RemoveAt(s, i), tag) == CountTag(s, tag) - (if tag in s[i].tags then 1 else 0)
  {
    var init := s[..|s| - 1];
    var r := RemoveAt(s, i);
    if i == |s| - 1 {
      assert r == init;
    } else {
      assert init[i] == s[i];
      CountTagRemoveAt(init, i, tag);
      assert r[..|r| - 1] == RemoveAt(init, i);
      assert r[|r| - 1] == s[|s| - 1];
    }
  }

  lemma {:induction false} UntaggedRemoveAt(s: seq<MemoryEntry>, i: nat, tag: MemoryTag)
    requires i < |s| && tag in s[i].tags
    ensures Untagged(RemoveAt(s, i), tag) == Untagged(s, tag)
  {
    var init := s[..|s| - 1];
    var r := RemoveAt(s, i);
    if i == |s| - 1 {
      assert r == init;
    } else {
      assert init[i] == s[i];
      UntaggedRemoveAt(init, i, tag);
      assert r[..|r| - 1] == RemoveAt(init, i);
      assert r[|r| - 1] == s[|s| - 1];
    }
  }

  lemma {:induction false} UntaggedKeeps(s: seq<MemoryEntry>, tag: MemoryTag, x: MemoryEntry)
    requires x in s && tag !in x.tags
    ensures x in Untagged(s, tag)
  {
    if s[|s| - 1] != x {
      assert s == s[..|s| - 1] + [s[|s| - 1]];
      UntaggedKeeps(s[..|s| - 1], tag, x);
    }
  }

  lemma {:induction false} UntaggedSubset(s: seq<MemoryEntry>, tag: MemoryTag, x: MemoryEntry)
    requires x in Untagged(s, tag)
    ensures x in s
  {
    if x != s[|s| - 1] {
      UntaggedSubset(s[..|s| - 1], tag, x);
    }
  }

  predicate AboveCull(e: MemoryEntry)
  {
    e.weight >= CullThreshold
  }

  /** Every weight, permanent records included, multiplied by the same factor. */
  function Scaled(log: seq<MemoryEntry>, m: real): (r: seq<MemoryEntry>)
    ensures |r| == |log|
    ensures forall i :: 0 <= i < |log| ==> r[i] == log[i].(weight := log[i].weight * m)
  {
    seq(|log|, i requires 0 <= i < |log| => log[i].(weight := log[i].weight * m))
  }

  /** The position of the first record carrying `tag` with the earliest timestamp, if any. */
  function OldestTagged(s: seq<MemoryEntry>, tag: MemoryTag): (r: Option<nat>)
    ensures r.Some? ==> r.value < |s| && tag in s[r.value].tags
  {
    if s == [] then None
    else
      var p := OldestTagged(s[..|s| - 1], tag);
      if tag !in s[|s| - 1].tags then p
      else if p.None? || s[|s| - 1].timestamp < s[p.value].timestamp then Some(|s| - 1)
      else p
  }

  lemma {:induction false} OldestTaggedIsOldest(s: seq<MemoryEntry>, tag: MemoryTag, j: nat)
    requires j < |s| && tag in s[j].tags
    ensures OldestTagged(s, tag).Some?
    ensures s[OldestTagged(s, tag).value].timestamp <= s[j].timestamp
  {
    if j < |s| - 1 {
      OldestTaggedIsOldest(s[..|s| - 1], tag, j);
    }
  }

  /** When some record carries `tag`, the search finds one. */
  lemma {:induction false} OldestTaggedFinds(s: seq<MemoryEntry>, tag: MemoryTag)
    requires CountTag(s, tag) > 0
    ensures OldestTagged(s, tag).Some?
  {
    if tag !in s[|s| - 1].tags {
      OldestTaggedFinds(s[..|s| - 1], tag);
    }
  }

  /** Where the oldest record carrying `tag` sits (the first such, on equal timestamps). */
  function OldestIndex(s: seq<MemoryEntry>, tag: MemoryTag): (i: nat)
    requires CountTag(s, tag) > 0
    ensures OldestTagged(s, tag) == Some(i)
    ensures i < |s| && tag in s[i].tags
  {
    OldestTaggedFinds(s, tag);
    OldestTagged(s, tag).value
  }

  /** No record carrying `tag` is older than the one at `OldestIndex`. */
  lemma OldestIndexIsOldest(s: seq<MemoryEntry>, tag: MemoryTag, j: nat)
    requires CountTag(s, tag) > 0
    requires j < |s| && tag in s[j].tags
    ensures s[OldestIndex(s, tag)].timestamp <= s[j].timestamp
  {
    OldestTaggedIsOldest(s, tag, j);
  }

  /**
   * The log after its `k` oldest records carrying `tag` are removed, one at
   * a time (a step finding no such record removes nothing).
   */
  function DropOldest(log: seq<MemoryEntry>, tag: MemoryTag, k: nat): seq<MemoryEntry>
  {
    if k == 0 then log
    else
      var s := DropOldest(log, tag, k - 1);
      match OldestTagged(s, tag)
      case None => s
      case Some(i) => RemoveAt(s, i)
  }

  /** With at least `k` records carrying `tag`, exactly `k` of them go and no other record. */
  lemma {:induction false} DropOldestRemoves(log: seq<MemoryEntry>, tag: MemoryTag, k: nat)
    requires k <= CountTag(log, tag)
    ensures |DropOldest(log, tag, k)| == |log| - k
    ensures CountTag(DropOldest(log, tag, k), tag) == CountTag(log, tag) - k
  {
    if k > 0 {
      DropOldestRemoves(log, tag, k - 1);
      var s := DropOldest(log, tag, k - 1);
      CountTagRemoveAt(s, OldestIndex(s, tag), tag);
    }
  }

  /** While records carrying `tag` remain, step `i + 1` of `DropOldest` removes the oldest of them. */
  lemma DropOldestStep(log: seq<MemoryEntry>, tag: MemoryTag, i: nat)
    requires i < CountTag(log, tag)
    ensures CountTag(DropOldest(log, tag, i), tag) > 0
    ensures DropOldest(log, tag, i + 1) ==
            RemoveAt(DropOldest(log, tag, i), OldestIndex(DropOldest(log, tag, i), tag))
  {
    DropOldestRemoves(log, tag, i);
  }

  /** The record removed by the `j`-th step of `DropOldest` (counting from zero), if that step removes one. */
  function DroppedAt(log: seq<MemoryEntry>, tag: MemoryTag, j: nat): Option<MemoryEntry>
  {
    var s := DropOldest(log, tag, j);
    match OldestTagged(s, tag)
    case None => None
    case Some(i) => Some(s[i])
  }

  /** One entry of the per-tag cap: the excess of the oldest records with that tag is removed. */
  function CapTag(log: seq<MemoryEntry>, tag: MemoryTag, cap: nat): seq<MemoryEntry>
  {
    var n := CountTag(log, tag);
    if n <= cap then log else DropOldest(log, tag, n - cap)
  }

  /** The per-tag caps, applied one tag after the other. */
  function CapTags(log: seq<MemoryEntry>, caps: seq<(MemoryTag, nat)>): seq<MemoryEntry>
  {
    if caps == [] then log
    else
      var last := caps[|caps| - 1];
      CapTag(CapTags(log, caps[..|caps| - 1]), last.0, last.1)
  }

  /** The FIFO hard cap: only the newest `HardCap` positions are kept. */
  function HardCapped(log: seq<MemoryEntry>): (r: seq<MemoryEntry>)
  {
    if |log| > HardCap then log[|log| - HardCap..] else log
  }

  /** The log after one non-skipped housekeeping pass. */
  function PrunedLog(log: seq<MemoryEntry>, m: real): seq<MemoryEntry>
  {
    HardCapped(CapTags(Filter(Scaled(log, m), AboveCull), TagCaps))
  }
}
