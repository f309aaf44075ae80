// What one housekeeping pass keeps and drops: the per-tag drop of the
// oldest records, the caps applied one after the other, and the pass as a
// whole.

module HousekeepingFacts {
  import opened Common
  import opened MemoryEntries
  
  import opened MemoryHousekeeping

  /** Dropping the oldest records of a tag leaves only records that were there. */
  lemma {:induction false} DropOldestSubset(log: seq<MemoryEntry>, tag: MemoryTag, k: nat, x: MemoryEntry)
    requires x in DropOldest(log, tag, k)
    ensures x in log
  {
    if k > 0 {
      var s := DropOldest(log, tag, k - 1);
      if OldestTagged(s, tag).Some? {
        RemoveAtSubset(s, OldestTagged(s, tag).value, x);
      }
      DropOldestSubset(log, tag, k - 1, x);
    }
  }

  /** Each of the first `CountTag` steps drops a record that was in the log and carries the tag. */
  lemma DroppedAtInLog(log: seq<MemoryEntry>, tag: MemoryTag, j: nat)
    requires j < CountTag(log, tag)
    ensures DroppedAt(log, tag, j).Some?
    ensures DroppedAt(log, tag, j).value in log && tag in DroppedAt(log, tag, j).value.tags
  {
    DropOldestRemoves(log, tag, j);
    var s := DropOldest(log, tag, j);
    OldestTaggedFinds(s, tag);
    DropOldestSubset(log, tag, j, s[OldestTagged(s, tag).value]);
  }

  /** One removal step takes a record no younger than any tagged record it leaves. */
  lemma OldestStep(s: seq<MemoryEntry>, tag: MemoryTag, i: nat, y: MemoryEntry)
    requires OldestTagged(s, tag) == Some(i)
    requires y in RemoveAt(s, i) && tag in y.tags
    ensures s[i].timestamp <= y.timestamp
  {
    RemoveAtSubset(s, i, y);
    var n :| 0 <= n < |s| && s[n] == y;
    OldestTaggedIsOldest(s, tag, n);
  }

  /** A record left after one more step was left before it. */
  lemma DropStepSubset(log: seq<MemoryEntry>, tag: MemoryTag, k: nat, y: MemoryEntry)
    requires k > 0 && y in DropOldest(log, tag, k)
    ensures y in DropOldest(log, tag, k - 1)
  {
    var s := DropOldest(log, tag, k - 1);
    if OldestTagged(s, tag).Some? {
      RemoveAtSubset(s, OldestTagged(s, tag).value, y);
    }
  }

  /** The record the last step drops is no younger than any tagged record it leaves. */
  lemma DroppedLast(log: seq<MemoryEntry>, tag: MemoryTag, k: nat, y: MemoryEntry)
    requires 0 < k <= CountTag(log, tag)
    requires y in DropOldest(log, tag, k) && tag in y.tags
    ensures DroppedAt(log, tag, k - 1).Some?
    ensures DroppedAt(log, tag, k - 1).value.timestamp <= y.timestamp
  {
    DropOldestRemoves(log, tag, k - 1);
    var s := DropOldest(log, tag, k - 1);
    OldestTaggedFinds(s, tag);
    OldestStep(s, tag, OldestTagged(s, tag).value, y);
  }

  /** No dropped record is younger than a record with the same tag that is kept. */
  lemma {:induction false} DroppedAreOldest(log: seq<MemoryEntry>, tag: MemoryTag, j: nat, k: nat, y: MemoryEntry)
    requires j < k <= CountTag(log, tag)
    requires y in DropOldest(log, tag, k) && tag in y.tags
    ensures DroppedAt(log, tag, j).Some?
    ensures DroppedAt(log, tag, j).value.timestamp <= y.timestamp
  {
    if j == k - 1 {
      DroppedLast(log, tag, k, y);
    } else {
      DropStepSubset(log, tag, k, y);
      DroppedAreOldest(log, tag, j, k - 1, y);
    }
  }

  /** The records without the tag all stay, in their order. */
  lemma {:induction false} DropOldestKeepsUntagged(log: seq<MemoryEntry>, tag: MemoryTag, k: nat)
    ensures Untagged(DropOldest(log, tag, k), tag) == Untagged(log, tag)
  {
    if k > 0 {
      DropOldestKeepsUntagged(log, tag, k - 1);
      var s := DropOldest(log, tag, k - 1);
      if OldestTagged(s, tag).Some? {
        UntaggedRemoveAt(s, OldestTagged(s, tag).value, tag);
      }
    }
  }

  /** A record without the tag is never dropped. */
  lemma {:induction false} DropOldestKeeps(log: seq<MemoryEntry>, tag: MemoryTag, k: nat, x: MemoryEntry)
    requires x in log && tag !in x.tags
    ensures x in DropOldest(log, tag, k)
  {
    if k > 0 {
      DropOldestKeeps(log, tag, k - 1, x);
      var s := DropOldest(log, tag, k - 1);
      if OldestTagged(s, tag).Some? {
        RemoveAtKeeps(s, OldestTagged(s, tag).value, x);
      }
    }
  }

  /** Removing records never raises how many carry any tag. */
  lemma {:induction false} DropOldestCount(log: seq<MemoryEntry>, tag: MemoryTag, k: nat, other: MemoryTag)
    ensures CountTag(DropOldest(log, tag, k), other) <= CountTag(log, other)
    ensures |DropOldest(log, tag, k)| <= |log|
  {
    if k > 0 {
      DropOldestCount(log, tag, k - 1, other);
      var s := DropOldest(log, tag, k - 1);
      if OldestTagged(s, tag).Some? {
        CountTagRemoveAt(s, OldestTagged(s, tag).value, other);
      }
    }
  }

  /** One cap leaves its tag within the cap. */
  lemma CapTagWithin(log: seq<MemoryEntry>, tag: MemoryTag, cap: nat)
    ensures CountTag(CapTag(log, tag, cap), tag) <= cap
  {
    var n := CountTag(log, tag);
    if n > cap {
      DropOldestRemoves(log, tag, n - cap);
    }
  }

  /** One cap raises no count and not the length. */
  lemma CapTagCount(log: seq<MemoryEntry>, tag: MemoryTag, cap: nat, other: MemoryTag)
    ensures CountTag(CapTag(log, tag, cap), other) <= CountTag(log, other)
    ensures |CapTag(log, tag, cap)| <= |log|
  {
    var n := CountTag(log, tag);
    if n > cap {
      DropOldestCount(log, tag, n - cap, other);
    }
  }

  /** One cap brings in nothing new. */
  lemma CapTagSubset(log: seq<MemoryEntry>, tag: MemoryTag, cap: nat, x: MemoryEntry)
    requires x in CapTag(log, tag, cap)
    ensures x in log
  {
    var n := CountTag(log, tag);
    if n > cap {
      DropOldestSubset(log, tag, n - cap, x);
    }
  }

  /** One cap keeps every record without its tag. */
  lemma CapTagKeeps(log: seq<MemoryEntry>, tag: MemoryTag, cap: nat, x: MemoryEntry)
    requires x in log && tag !in x.tags
    ensures x in CapTag(log, tag, cap)
  {
    var n := CountTag(log, tag);
    if n > cap {
      DropOldestKeeps(log, tag, n - cap, x);
    }
  }

  /** Capping only removes records: no tag count goes up, the log gets no longer. */
  lemma {:induction false} CapTagsShrink(log: seq<MemoryEntry>, caps: seq<(MemoryTag, nat)>, other: MemoryTag)
    ensures CountTag(CapTags(log, caps), other) <= CountTag(log, other)
    ensures |CapTags(log, caps)| <= |log|
  {
    if caps != [] {
      var prev := CapTags(log, caps[..|caps| - 1]);
      var last := caps[|caps| - 1];
      CapTagsShrink(log, caps[..|caps| - 1], other);
      CapTagCount(prev, last.0, last.1, other);
    }
  }

  /** Capping brings in nothing new. */
  lemma {:induction false} CapTagsSubset(log: seq<MemoryEntry>, caps: seq<(MemoryTag, nat)>, x: MemoryEntry)
    requires x in CapTags(log, caps)
    ensures x in log
  {
    if caps != [] {
      var prev := CapTags(log, caps[..|caps| - 1]);
      var last := caps[|caps| - 1];
      CapTagSubset(prev, last.0, last.1, x);
      CapTagsSubset(log, caps[..|caps| - 1], x);
    }
  }

  /** After the caps, every capped tag is held by at most its cap of records. */
  lemma {:induction false} CapTagsBound(log: seq<MemoryEntry>, caps: seq<(MemoryTag, nat)>, i: nat)
    requires i < |caps|
    ensures CountTag(CapTags(log, caps), caps[i].0) <= caps[i].1
  {
    var init := caps[..|caps| - 1];
    var last := caps[|caps| - 1];
    var prev := CapTags(log, init);
    if i < |caps| - 1 {
      CapTagCount(prev, last.0, last.1, caps[i].0);
      assert caps[i] == init[i];
      CapTagsBound(log, init, i);
    } else {
      CapTagWithin(prev, last.0, last.1);
    }
  }

  /** A record carrying none of the capped tags is never removed by the caps. */
  lemma {:induction false} CapTagsKeepUntagged(log: seq<MemoryEntry>, caps: seq<(MemoryTag, nat)>, x: MemoryEntry)
    requires x in log
    requires forall i :: 0 <= i < |caps| ==> caps[i].0 !in x.tags
    ensures x in CapTags(log, caps)
  {
    if caps != [] {
      var init := caps[..|caps| - 1];
      var last := caps[|caps| - 1];
      assert forall i :: 0 <= i < |init| ==> init[i] == caps[i];
      CapTagsKeepUntagged(log, init, x);
      CapTagKeeps(CapTags(log, init), last.0, last.1, x);
    }
  }

  lemma {:induction false} CountTagSuffix(s: seq<MemoryEntry>, j: nat, tag: MemoryTag)
    requires j <= |s|
    ensures CountTag(s[j..], tag) <= CountTag(s, tag)
  {
    if j < |s| {
      CountTagSuffix(s[..|s| - 1], j, tag);
      assert s[j..][..|s[j..]| - 1] == s[..|s| - 1][j..];
    } else {
      assert s[j..] == [];
    }
  }

  lemma HardCappedSubset(log: seq<MemoryEntry>, x: MemoryEntry)
    requires x in HardCapped(log)
    ensures x in log
  {
    var r := HardCapped(log);
    var k :| 0 <= k < |r| && r[k] == x;
    assert log[|log| - |r| + k] == x;
  }

  /** After a pass no lord holds more than 250 memories. */
  lemma PrunedLogSize(log: seq<MemoryEntry>, m: real)
    ensures |PrunedLog(log, m)| <= HardCap
  {
  }

  /**
   * Every record left by a pass is a faded copy of one that was there and
   * weighs at least 0.20, so in particular no negative memory survives.
   */
  lemma PrunedLogWeights(log: seq<MemoryEntry>, m: real, x: MemoryEntry)
    requires x in PrunedLog(log, m)
    ensures x.weight >= CullThreshold
    ensures x in Scaled(log, m)
  {
    var culled := Filter(Scaled(log, m), AboveCull);
    HardCappedSubset(CapTags(culled, TagCaps), x);
    CapTagsSubset(culled, TagCaps, x);
  }

  /** After a pass every capped tag is within its cap. */
  lemma PrunedLogTagCaps(log: seq<MemoryEntry>, m: real, i: nat)
    requires i < |TagCaps|
    ensures CountTag(PrunedLog(log, m), TagCaps[i].0) <= TagCaps[i].1
  {
    var capped := CapTags(Filter(Scaled(log, m), AboveCull), TagCaps);
    CapTagsBound(Filter(Scaled(log, m), AboveCull), TagCaps, i);
    CountTagSuffix(capped, |capped| - |HardCapped(capped)|, TagCaps[i].0);
  }

  /**
   * A record that carries no capped tag and stays at or above the floor
   * after fading survives the pass when the log is within the hard cap.
   */
  lemma PrunedLogKeeps(log: seq<MemoryEntry>, m: real, i: nat)
    requires i < |log| <= HardCap
    requires log[i].weight * m >= CullThreshold
    requires forall c :: 0 <= c < |TagCaps| ==> TagCaps[c].0 !in log[i].tags
    ensures log[i].(weight := log[i].weight * m) in PrunedLog(log, m)
  {
    var x := log[i].(weight := log[i].weight * m);
    var culled := Filter(Scaled(log, m), AboveCull);
    assert Scaled(log, m)[i] == x;
    FilterKeeps(Scaled(log, m), AboveCull, x);
    CapTagsKeepUntagged(culled, TagCaps, x);
    CapTagsShrink(culled, TagCaps, Gossip);
  }
}
