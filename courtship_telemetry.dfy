// Courtship telemetry: the campaign time at which each NPC pair started
// courting, and the number of days each courtship took to end in marriage,
// for tuning the pace of the romance behaviour.

module CourtshipTelemetry {
  import opened Common
  import opened Sorting
  import opened ParallelLists
  import Romance

  /** What the telemetry keeps: pending start times by pair key, and the finished courtships' lengths in days. */
  datatype Tally = Tally(starts: map<string, real>, durations: seq<real>)

  /**
   * `MarkCourtshipStart` on two heroes: the pair's start time is recorded
   * unless one is already pending, which is never overwritten.
   */
  function StartCourtship(starts: map<string, real>, x: HeroId, y: HeroId, now: real): (r: map<string, real>)
    ensures r.Keys == starts.Keys + {PairKey(x, y)}
    ensures forall k :: k in starts ==> r[k] == starts[k]
    ensures PairKey(x, y) !in starts ==> r[PairKey(x, y)] == now
  {
    var key := PairKey(x, y);
    if key in starts then starts else starts[key := now]
  }

  /** Either order of the two heroes records the same courtship. */
  lemma StartCourtshipSymmetric(starts: map<string, real>, x: HeroId, y: HeroId, now: real)
    ensures StartCourtship(starts, x, y, now) == StartCourtship(starts, y, x, now)
  {
    PairKeySymmetric(x, y);
  }

  /**
   * `MarkMarriage` on two heroes: with a pending start, exactly one
   * duration (now minus the start) is appended and the pair's key is
   * removed; without one, nothing changes.
   */
  function RecordMarriage(t: Tally, x: HeroId, y: HeroId, now: real): (r: Tally)
    ensures var key := PairKey(x, y);
            if key in t.starts then
              r.starts.Keys == t.starts.Keys - {key} &&
              |r.durations| == |t.durations| + 1 && r.durations[..|t.durations|] == t.durations &&
              r.durations[|t.durations|] == now - t.starts[key]
            else r == t
    ensures forall k :: k in r.starts ==> r.starts[k] == t.starts[k]
  {
    var key := PairKey(x, y);
    if key in t.starts then
      Tally(t.starts - {key}, t.durations + [now - t.starts[key]])
    else t
  }

  /**
   * The telemetry is consistent at time `now` when no pending courtship
   * started after `now` and no recorded length is negative.
   */
  ghost predicate Consistent(t: Tally, now: real)
  {
    (forall k :: k in t.starts ==> t.starts[k] <= now) &&
    (forall i :: 0 <= i < |t.durations| ==> t.durations[i] >= 0.0)
  }

  /**
   * As long as campaign time does not run backwards, every operation keeps
   * the telemetry consistent, so no courtship is ever recorded as lasting
   * a negative number of days.
   */
  lemma TimeForwardKeepsConsistent(t: Tally, x: HeroId, y: HeroId, now: real, later: real, victim: HeroId)
    requires Consistent(t, now) && now <= later
    ensures Consistent(Tally(StartCourtship(t.starts, x, y, later), t.durations), later)
    ensures Consistent(RecordMarriage(t, x, y, later), later)
    ensures Consistent(Tally(Romance.ForgetHeroKeys(t.starts, victim), t.durations), later)
  {
    var r := RecordMarriage(t, x, y, later);
    forall i | 0 <= i < |r.durations|
      ensures r.durations[i] >= 0.0
    {
      if i < |t.durations| {
        assert r.durations[i] == r.durations[..|t.durations|][i];
      }
    }
  }

  /**
   * `ForgetHero` as written: every pending key whose text contains the
   * hero's id is dropped, and no other key.
   */
  function ForgetHeroAsWritten(starts: map<string, real>, sid: HeroId): (r: map<string, real>)
    ensures forall k :: k in r <==> k in starts && !Contains(k, sid)
    ensures forall k :: k in r ==> r[k] == starts[k]
  {
    starts - Romance.KeysContaining(starts, sid)
  }

  /**
   * The substring test drops the pending courtship of "lord_12" and
   * "lord_3" when "lord_1" dies; the key test by pair member keeps it.
   */
  lemma SubstringForgetDropsUnrelatedCourtship()
    ensures var m := map[PairKey("lord_12", "lord_3") := 0.0];
            ForgetHeroAsWritten(m, "lord_1") == map[] && Romance.ForgetHeroKeys(m, "lord_1") == m
  {
    var k := PairKey("lord_12", "lord_3");
    var m := map[k := 0.0];
    Romance.SubstringMatchForgetsOtherPair();
    assert ForgetHeroAsWritten(m, "lord_1").Keys == {};
    assert Romance.ForgetHeroKeys(m, "lord_1").Keys == m.Keys;
  }

  /** The report `Summary` formats. */
  datatype SummaryReport = NoSamplesYet | Samples(count: nat, avg: real, p50: real, p90: real)

  function Sum(s: seq<real>): real
  {
    if s == [] then 0.0 else Sum(s[..|s| - 1]) + s[|s| - 1]
  }

  /** The ordering `List<float>.Sort` puts the copy in: ascending by value. */
  function DurationKey(d: real): SortKey
  {
    SortKey(d, 0.0, 0.0)
  }

  /** `(int)(n * 0.9f)`: the index of the 90th percentile among `n` sorted samples. */
  function P90Index(n: nat): int
  {
    Truncate(n as real * 0.9)
  }

  /** Both percentile indices of a non-empty list lie within it, the median's first. */
  lemma PercentileIndices(n: nat)
    requires n > 0
    ensures 0 <= n / 2 <= P90Index(n) < n
  {
    var x := n as real * 0.9;
    assert (n / 2) as real <= x;
    assert x < n as real;
  }

  /**
   * `Summary` over the recorded lengths: "No samples yet." when there are
   * none; otherwise their number, their mean, and the values at index n/2
   * and (int)(0.9·n) of a sorted copy, both of them recorded lengths and
   * the median no larger than the 90th percentile.
   */
  function Summarize(durations: seq<real>): (r: SummaryReport)
    ensures r.NoSamplesYet? <==> durations == []
    ensures r.Samples? ==>
              r.count == |durations| && r.avg == Mean(durations) &&
              r.p50 in durations && r.p90 in durations && r.p50 <= r.p90
  {
    if durations == [] then NoSamplesYet
    else
      var sorted := SortBy(durations, DurationKey);
      var n := |sorted|;
      PercentileIndices(n);
      SortedPicks(durations, sorted, n / 2, P90Index(n));
      Samples(n, Mean(durations), sorted[n / 2], sorted[P90Index(n)])
  }

  /** Two picks from a sorted copy are recorded values, in index order. */
  lemma SortedPicks(durations: seq<real>, sorted: seq<real>, i: int, j: int)
    requires sorted == SortBy(durations, DurationKey)
    requires 0 <= i <= j < |sorted|
    ensures sorted[i] in durations && sorted[j] in durations && sorted[i] <= sorted[j]
  {
    assert sorted[i] in multiset(sorted) && sorted[j] in multiset(sorted);
    if i < j {
      assert KeyLe(DurationKey(sorted[i]), DurationKey(sorted[j]));
    }
  }

  /** `Average()`: the total over the count. */
  function Mean(s: seq<real>): real
    requires s != []
  {
    Sum(s) / |s| as real
  }

  /**
   * The percentiles rank as their names say: no sample sorted at or
   * before the median index exceeds it, and no sample sorted at or after
   * the 90th-percentile index is below it.
   */
  lemma PercentilesRank(durations: seq<real>)
    requires durations != []
    ensures var sorted := SortBy(durations, DurationKey);
            var r := Summarize(durations);
            (forall i :: 0 <= i <= |sorted| / 2 ==> sorted[i] <= r.p50) &&
            (forall i :: P90Index(|sorted|) <= i < |sorted| ==> r.p90 <= sorted[i])
  {
    var sorted := SortBy(durations, DurationKey);
    var n := |sorted|;
    PercentileIndices(n);
    forall i | 0 <= i <= n / 2
      ensures sorted[i] <= sorted[n / 2]
    {
      if i < n / 2 {
        assert KeyLe(DurationKey(sorted[i]), DurationKey(sorted[n / 2]));
      }
    }
    forall i | P90Index(n) <= i < n
      ensures sorted[P90Index(n)] <= sorted[i]
    {
      if P90Index(n) < i {
        assert KeyLe(DurationKey(sorted[P90Index(n)]), DurationKey(sorted[i]));
      }
    }
  }

  /**
   * The telemetry behaviour. The source reaches it through a static
   * instance; here that instance is the (possibly null) receiver the
   * static entry points are handed.
   */
  class CourtshipTelemetryBehavior {
    var startTimes: map<string, real>
    var durations: seq<real>

    constructor()
      ensures startTimes == map[] && durations == []
    {
      startTimes := map[];
      durations := [];
    }

    /** `MarkCourtshipStart`: nothing happens without an instance or either hero. */
    static method MarkCourtshipStart(instance: CourtshipTelemetryBehavior?, a: Option<HeroId>, b: Option<HeroId>, now: real)
      modifies instance
      ensures instance != null && (a.None? || b.None?) ==> unchanged(instance)
      ensures instance != null && a.Some? && b.Some? ==>
                instance.startTimes == StartCourtship(old(instance.startTimes), a.value, b.value, now) &&
                instance.durations == old(instance.durations)
    {
      if instance == null || a.None? || b.None? {
        return;
      }
      var key := PairKey(a.value, b.value);
      if key !in instance.startTimes {
        instance.startTimes := instance.startTimes[key := now];
      }
    }

    /** `MarkMarriage`: nothing happens without an instance or either hero. */
    static method MarkMarriage(instance: CourtshipTelemetryBehavior?, a: Option<HeroId>, b: Option<HeroId>, now: real)
      modifies instance
      ensures instance != null && (a.None? || b.None?) ==> unchanged(instance)
      ensures instance != null && a.Some? && b.Some? ==>
                Tally(instance.startTimes, instance.durations) ==
                RecordMarriage(Tally(old(instance.startTimes), old(instance.durations)), a.value, b.value, now)
    {
      if instance == null || a.None? || b.None? {
        return;
      }
      var key := PairKey(a.value, b.value);
      if key in instance.startTimes {
        var started := instance.startTimes[key];
        instance.durations := instance.durations + [now - started];
        instance.startTimes := instance.startTimes - {key};
      }
    }

    /**
     * `ForgetHero`: the pending courtships the hero is part of are dropped.
     * The key test here is the corrected one (see `Romance.ForgetHeroKeys`);
     * the source's substring test is `ForgetHeroAsWritten`.
     */
    static method ForgetHero(instance: CourtshipTelemetryBehavior?, h: Option<HeroId>)
      modifies instance
      ensures instance != null && h.None? ==> unchanged(instance)
      ensures instance != null && h.Some? ==>
                instance.startTimes == Romance.ForgetHeroKeys(old(instance.startTimes), h.value) &&
                instance.durations == old(instance.durations)
    {
      if instance == null || h.None? {
        return;
      }
      var doomed := Romance.KeysNaming(instance.startTimes, h.value);
      instance.startTimes := Romance.RemoveKeys(instance.startTimes, doomed);
    }

    /** `Summary`: the report on a sorted copy; no instance reads as no samples. */
    static method Summary(instance: CourtshipTelemetryBehavior?) returns (r: SummaryReport)
      ensures instance == null ==> r == NoSamplesYet
      ensures instance != null ==> r == Summarize(instance.durations)
    {
      if instance == null || |instance.durations| == 0 {
        return NoSamplesYet;
      }
      var sorted := SortBy(instance.durations, DurationKey);
      var n := |sorted|;
      PercentileIndices(n);
      r := Samples(n, Mean(instance.durations), sorted[n / 2], sorted[P90Index(n)]);
    }

    /** The save of `SyncData`: the pending start times as two parallel lists, the lengths as they are. */
    method Save(order: seq<string>) returns (keys: seq<string>, days: seq<real>, lengths: seq<real>)
      requires IsEnumeration(order, startTimes)
      ensures keys == order && days == SavedValues(order, startTimes) && lengths == durations
      ensures ParallelMap(keys, days) == startTimes
    {
      keys, days := SaveParallel(startTimes, order);
      SaveLoadParallel(startTimes, order);
      lengths := durations;
    }

    /** The load of `SyncData`: the start times rebuilt over the shorter list, the lengths taken as saved. */
    method Load(keys: seq<string>, days: seq<real>, lengths: seq<real>)
      modifies this
      ensures startTimes == ParallelMap(keys, days) && durations == lengths
    {
      startTimes := LoadParallel(keys, days);
      durations := lengths;
    }
  }
}
