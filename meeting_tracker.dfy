// The meeting tracker: a daily sweep stamps every pair of lords seen
// together (in one settlement or one army) with the current day, forgets
// pairs not seen for 120 days, and answers whether two heroes met recently.
// Times are campaign days; a hero reference that may be null is an
// `Option<HeroId>`.

module MeetingTracker {
  import opened Common
  import opened ParallelLists

  /** How long a meeting is remembered. */
  const RememberDays: real := 120.0
  /** The key of a pair with a null hero. */
  const NullPairKey: string := "null|null"

  /** `PairKey(a, b)`: the unordered pair key, or "null|null" when either hero is missing. */
  function MeetingKey(a: Option<HeroId>, b: Option<HeroId>): (k: string)
    ensures a.None? || b.None? ==> k == NullPairKey
  {
    if a.None? || b.None? then NullPairKey else PairKey(a.value, b.value)
  }

  /** The key does not depend on the order of the two heroes. */
  lemma MeetingKeySymmetric(a: Option<HeroId>, b: Option<HeroId>)
    ensures MeetingKey(a, b) == MeetingKey(b, a)
  {
    if a.Some? && b.Some? {
      PairKeySymmetric(a.value, b.value);
    }
  }

  // ---------------------------------------------------------------------
  // Co-presence, as a function of the map before the sweep

  /** The inner loop from `j` on: hero `i` is stamped together with each later hero. */
  function CoPresenceRow(m: map<string, real>, heroes: seq<Option<HeroId>>, i: nat, j: nat, now: real): map<string, real>
    requires i < |heroes|
    decreases |heroes| - j
  {
    if j >= |heroes| then m
    else CoPresenceRow(m[MeetingKey(heroes[i], heroes[j]) := now], heroes, i, j + 1, now)
  }

  /** The outer loop from `i` on. */
  function CoPresenceRows(m: map<string, real>, heroes: seq<Option<HeroId>>, i: nat, now: real): map<string, real>
    decreases |heroes| - i
  {
    if i >= |heroes| then m
    else CoPresenceRows(CoPresenceRow(m, heroes, i, i + 1, now), heroes, i + 1, now)
  }

  /** `RecordCoPresence`: nothing for a missing list or fewer than two heroes, otherwise every pair stamped. */
  function CoPresence(m: map<string, real>, heroes: Option<seq<Option<HeroId>>>, now: real): map<string, real>
  {
    if heroes.None? || |heroes.value| < 2 then m else CoPresenceRows(m, heroes.value, 0, now)
  }

  /** A key already stamped `now` stays stamped through a row. */
  lemma {:induction false} RowKeepsStamp(m: map<string, real>, heroes: seq<Option<HeroId>>, i: nat, j: nat, now: real, k: string)
    requires i < |heroes| && k in m && m[k] == now
    ensures var r := CoPresenceRow(m, heroes, i, j, now); k in r && r[k] == now
    decreases |heroes| - j
  {
    if j < |heroes| {
      RowKeepsStamp(m[MeetingKey(heroes[i], heroes[j]) := now], heroes, i, j + 1, now, k);
    }
  }

  /** A key already stamped `now` stays stamped through the remaining rows. */
  lemma {:induction false} RowsKeepStamp(m: map<string, real>, heroes: seq<Option<HeroId>>, i: nat, now: real, k: string)
    requires k in m && m[k] == now
    ensures var r := CoPresenceRows(m, heroes, i, now); k in r && r[k] == now
    decreases |heroes| - i
  {
    if i < |heroes| {
      RowKeepsStamp(m, heroes, i, i + 1, now, k);
      RowsKeepStamp(CoPresenceRow(m, heroes, i, i + 1, now), heroes, i + 1, now, k);
    }
  }

  /** Row `i`, from `j` on, stamps hero `i` with every hero `q` from `j` on. */
  lemma {:induction false} RowStampsPair(m: map<string, real>, heroes: seq<Option<HeroId>>, i: nat, j: nat, now: real, q: nat)
    requires i < |heroes| && j <= q < |heroes|
    ensures var r := CoPresenceRow(m, heroes, i, j, now);
            MeetingKey(heroes[i], heroes[q]) in r && r[MeetingKey(heroes[i], heroes[q])] == now
    decreases |heroes| - j
  {
    var next := m[MeetingKey(heroes[i], heroes[j]) := now];
    if q == j {
      RowKeepsStamp(next, heroes, i, j + 1, now, MeetingKey(heroes[i], heroes[q]));
    } else {
      RowStampsPair(next, heroes, i, j + 1, now, q);
    }
  }

  /** The rows from `i` on stamp every pair `p < q` with `p` from `i` on. */
  lemma {:induction false} RowsStampPair(m: map<string, real>, heroes: seq<Option<HeroId>>, i: nat, now: real, p: nat, q: nat)
    requires i <= p < q < |heroes|
    ensures var r := CoPresenceRows(m, heroes, i, now);
            MeetingKey(heroes[p], heroes[q]) in r && r[MeetingKey(heroes[p], heroes[q])] == now
    decreases |heroes| - i
  {
    var row := CoPresenceRow(m, heroes, i, i + 1, now);
    if p == i {
      RowStampsPair(m, heroes, i, i + 1, now, q);
      RowsKeepStamp(row, heroes, i + 1, now, MeetingKey(heroes[p], heroes[q]));
    } else {
      RowsStampPair(row, heroes, i + 1, now, p, q);
    }
  }

  /** No key but a pair key of the group is in `keys`. */
  ghost predicate NotPairKey(k: string, heroes: seq<Option<HeroId>>)
  {
    forall p, q :: 0 <= p < q < |heroes| ==> MeetingKey(heroes[p], heroes[q]) != k
  }

  /** A row leaves every key that is not one of the group's pair keys as it was. */
  lemma {:induction false} RowLeavesOthers(m: map<string, real>, heroes: seq<Option<HeroId>>, i: nat, j: nat, now: real, k: string)
    requires i < j && i < |heroes| && NotPairKey(k, heroes)
    ensures var r := CoPresenceRow(m, heroes, i, j, now);
            (k in r <==> k in m) && (k in m ==> r[k] == m[k])
    decreases |heroes| - j
  {
    if j < |heroes| {
      assert MeetingKey(heroes[i], heroes[j]) != k;
      RowLeavesOthers(m[MeetingKey(heroes[i], heroes[j]) := now], heroes, i, j + 1, now, k);
    }
  }

  /** The rows leave every key that is not one of the group's pair keys as it was. */
  lemma {:induction false} RowsLeaveOthers(m: map<string, real>, heroes: seq<Option<HeroId>>, i: nat, now: real, k: string)
    requires NotPairKey(k, heroes)
    ensures var r := CoPresenceRows(m, heroes, i, now);
            (k in r <==> k in m) && (k in m ==> r[k] == m[k])
    decreases |heroes| - i
  {
    if i < |heroes| {
      RowLeavesOthers(m, heroes, i, i + 1, now, k);
      RowsLeaveOthers(CoPresenceRow(m, heroes, i, i + 1, now), heroes, i + 1, now, k);
    }
  }

  /**
   * What a co-presence sweep does: every pair `p < q` of the group is
   * stamped `now`, and every other key keeps its presence and its time.
   */
  lemma CoPresenceStampsExactlyPairs(m: map<string, real>, heroes: seq<Option<HeroId>>, now: real)
    requires |heroes| >= 2
    ensures forall p, q :: 0 <= p < q < |heroes| ==>
              MeetingKey(heroes[p], heroes[q]) in CoPresence(m, Some(heroes), now) &&
              CoPresence(m, Some(heroes), now)[MeetingKey(heroes[p], heroes[q])] == now
    ensures forall k :: NotPairKey(k, heroes) ==>
              (k in CoPresence(m, Some(heroes), now) <==> k in m) &&
              (k in m ==> CoPresence(m, Some(heroes), now)[k] == m[k])
  {
    forall p, q | 0 <= p < q < |heroes|
      ensures MeetingKey(heroes[p], heroes[q]) in CoPresence(m, Some(heroes), now) &&
              CoPresence(m, Some(heroes), now)[MeetingKey(heroes[p], heroes[q])] == now
    {
      RowsStampPair(m, heroes, 0, now, p, q);
    }
    forall k | NotPairKey(k, heroes)
      ensures (k in CoPresence(m, Some(heroes), now) <==> k in m) &&
              (k in m ==> CoPresence(m, Some(heroes), now)[k] == m[k])
    {
      RowsLeaveOthers(m, heroes, 0, now, k);
    }
  }

  /** A missing list or a single hero records nothing. */
  lemma CoPresenceNeedsTwo(m: map<string, real>, heroes: Option<seq<Option<HeroId>>>, now: real)
    requires heroes.None? || |heroes.value| < 2
    ensures CoPresence(m, heroes, now) == m
  {
  }

  // ---------------------------------------------------------------------
  // Forgetting and querying

  /** `ForgetOld`: the entries not strictly older than `cutoff`. */
  function Forget(m: map<string, real>, cutoff: real): map<string, real>
  {
    map k | k in m && !(m[k] < cutoff) :: m[k]
  }

  /** Forgetting removes exactly the entries strictly older than the cutoff and changes no time. */
  lemma ForgetExact(m: map<string, real>, cutoff: real)
    ensures forall k :: k in Forget(m, cutoff) <==> k in m && m[k] >= cutoff
    ensures forall k :: k in Forget(m, cutoff) ==> Forget(m, cutoff)[k] == m[k]
  {
  }

  /** Forgetting twice with the same cutoff forgets nothing more. */
  lemma ForgetIdempotent(m: map<string, real>, cutoff: real)
    ensures Forget(Forget(m, cutoff), cutoff) == Forget(m, cutoff)
  {
    assert forall k :: k in Forget(Forget(m, cutoff), cutoff) <==> k in Forget(m, cutoff);
  }

  /**
   * `HasMetWithinDays` over the tracker's map (`None` when no tracker
   * exists): false for a missing tracker, a null hero or an unknown pair;
   * otherwise whether the pair was seen at most `withinDays` ago.
   */
  function HasMetWithinDays(lastSeen: Option<map<string, real>>, a: Option<HeroId>, b: Option<HeroId>,
                            withinDays: real, now: real): (r: bool)
    ensures r ==> lastSeen.Some? && a.Some? && b.Some? && MeetingKey(a, b) in lastSeen.value
    ensures r ==> now - lastSeen.value[MeetingKey(a, b)] <= withinDays
  {
    if lastSeen.None? || a.None? || b.None? then false
    else
      var key := MeetingKey(a, b);
      key in lastSeen.value && now - lastSeen.value[key] <= withinDays
  }

  /** The question is the same whichever hero is named first. */
  lemma HasMetSymmetric(lastSeen: Option<map<string, real>>, a: Option<HeroId>, b: Option<HeroId>, withinDays: real, now: real)
    ensures HasMetWithinDays(lastSeen, a, b, withinDays, now) == HasMetWithinDays(lastSeen, b, a, withinDays, now)
  {
    MeetingKeySymmetric(a, b);
  }

  /** Two heroes of a group seen together today have met within any non-negative number of days. */
  lemma MetAfterCoPresence(m: map<string, real>, heroes: seq<Option<HeroId>>, now: real, p: nat, q: nat, withinDays: real)
    requires p < q < |heroes| && heroes[p].Some? && heroes[q].Some? && withinDays >= 0.0
    ensures HasMetWithinDays(Some(CoPresence(m, Some(heroes), now)), heroes[p], heroes[q], withinDays, now)
  {
    RowsStampPair(m, heroes, 0, now, p, q);
  }

  /** A pair still remembered after forgetting with a cutoff of `now - days` has met within `days`. */
  lemma ForgetKeepsRecent(m: map<string, real>, a: HeroId, b: HeroId, days: real, now: real)
    requires MeetingKey(Some(a), Some(b)) in Forget(m, now - days)
    ensures HasMetWithinDays(Some(Forget(m, now - days)), Some(a), Some(b), days, now)
  {
  }

  // ---------------------------------------------------------------------
  // The behaviour

  /** The co-presence sweep over every group, one after the other. */
  function CoPresenceAll(m: map<string, real>, groups: seq<Option<seq<Option<HeroId>>>>, now: real): map<string, real>
  {
    if groups == [] then m
    else CoPresence(CoPresenceAll(m, groups[..|groups| - 1], now), groups[|groups| - 1], now)
  }

  /** The daily tick of the tracker: the sweep and then the cleanup. */
  function DailyTick(m: map<string, real>, groups: seq<Option<seq<Option<HeroId>>>>, now: real): map<string, real>
  {
    Forget(CoPresenceAll(m, groups, now), now - RememberDays)
  }

  /** A key stamped today survives the cleanup that ends the same tick. */
  lemma DailyTickKeepsTodaysMeetings(m: map<string, real>, groups: seq<Option<seq<Option<HeroId>>>>, now: real, g: nat, p: nat, q: nat)
    requires g == |groups| - 1 && groups[g].Some? && p < q < |groups[g].value|
    ensures MeetingKey(groups[g].value[p], groups[g].value[q]) in DailyTick(m, groups, now)
  {
    RowsStampPair(CoPresenceAll(m, groups[..g], now), groups[g].value, 0, now, p, q);
  }

  class MeetingTrackerBehavior {
    var lastSeen: map<string, real>

    constructor ()
      ensures lastSeen == map[]
    {
      lastSeen := map[];
    }

    /** The inner loop of `RecordCoPresence` for hero `i`. */
    method StampRow(heroes: seq<Option<HeroId>>, i: nat, now: real)
      requires i < |heroes|
      modifies this
      ensures lastSeen == CoPresenceRow(old(lastSeen), heroes, i, i + 1, now)
    {
      var j := i + 1;
      while j < |heroes|
        invariant i + 1 <= j
        invariant CoPresenceRow(old(lastSeen), heroes, i, i + 1, now) == CoPresenceRow(lastSeen, heroes, i, j, now)
      {
        lastSeen := lastSeen[MeetingKey(heroes[i], heroes[j]) := now];
        j := j + 1;
      }
    }

    /** `RecordCoPresence`: every pair `i < j` of the group stamped with `now`. */
    method RecordCoPresence(heroes: Option<seq<Option<HeroId>>>, now: real)
      modifies this
      ensures lastSeen == CoPresence(old(lastSeen), heroes, now)
    {
      if heroes.None? || |heroes.value| < 2 {
        return;
      }
      var hs := heroes.value;
      var i := 0;
      while i < |hs|
        invariant 0 <= i <= |hs|
        invariant CoPresenceRows(old(lastSeen), hs, 0, now) == CoPresenceRows(lastSeen, hs, i, now)
      {
        StampRow(hs, i, now);
        i := i + 1;
      }
    }

    /** `ForgetOld`: the keys older than the cutoff are collected, then removed one by one. */
    method ForgetOld(olderThanDays: real, now: real)
      modifies this
      ensures lastSeen == Forget(old(lastSeen), now - olderThanDays)
    {
      var cutoff := now - olderThanDays;
      var toRemove := set k | k in lastSeen && lastSeen[k] < cutoff;
      ghost var before := lastSeen;
      var pending := toRemove;
      while pending != {}
        invariant pending <= toRemove
        invariant lastSeen == before - (toRemove - pending)
        decreases pending
      {
        var k :| k in pending;
        lastSeen := lastSeen - {k};
        pending := pending - {k};
      }
      assert lastSeen == Forget(before, cutoff) by {
        assert forall k :: k in lastSeen <==> k in Forget(before, cutoff);
      }
    }

    /** `OnDailyTick`: each co-presence group in turn, then forgetting meetings older than 120 days. */
    method OnDailyTick(groups: seq<Option<seq<Option<HeroId>>>>, now: real)
      modifies this
      ensures lastSeen == DailyTick(old(lastSeen), groups, now)
    {
      var g := 0;
      while g < |groups|
        invariant 0 <= g <= |groups|
        invariant lastSeen == CoPresenceAll(old(lastSeen), groups[..g], now)
      {
        assert groups[..g + 1][..g] == groups[..g];
        RecordCoPresence(groups[g], now);
        g := g + 1;
      }
      assert groups[..g] == groups;
      ForgetOld(RememberDays, now);
    }

    /** `SyncData` when saving: keys and days as two parallel lists, in the given enumeration order. */
    method Save(order: seq<string>) returns (keys: seq<string>, days: seq<real>)
      requires IsEnumeration(order, lastSeen)
      ensures keys == order && days == SavedValues(order, lastSeen)
      ensures ParallelMap(keys, days) == lastSeen
    {
      keys, days := SaveParallel(lastSeen, order);
      SaveLoadParallel(lastSeen, order);
    }

    /** `SyncData` when loading: the map rebuilt from the pairs both lists hold. */
    method Load(keys: seq<string>, days: seq<real>)
      modifies this
      ensures lastSeen == ParallelMap(keys, days)
    {
      lastSeen := LoadParallel(keys, days);
    }
  }
}
