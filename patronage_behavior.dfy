// The daily patronage pass of a clan: its leader looks at up to five
// needy leaders of the realm and sends at most one gift, keeping one
// rolling window of counters per donor-recipient pair. The windows are
// saved as two parallel string lists.

module PatronageBehavior {
  import opened Common
  import opened HeroTraits
  import opened Sorting
  import opened PatronageLogic

  /** `GiftTracker`: the counters of one donor-recipient pair. */
  datatype GiftWindow = GiftWindow(windowStartDay: real, relationGained: int, lastGiftDay: real,
                                   giftsGiven: int, giftsReceived: int)

  /** One `ApplyGift` call: gold and goodwill from `donor` to `recipient`. */
  datatype Gift = Gift(donor: HeroId, recipient: HeroId, amount: int, delta: int)

  /** One decay penalty: `donor`'s relation with `recipient` drops by `penalty`. */
  datatype DecayPenalty = DecayPenalty(donor: HeroId, recipient: HeroId, penalty: int)

  /** The window a pair starts with on first contact. */
  function FreshWindow(now: real): GiftWindow
  {
    GiftWindow(now, 0, 0.0, 0, 0)
  }

  /** Whole sixty-day blocks since the last gift, when a gift was made and a block has passed; else 0. */
  function DecayBlocks(w: GiftWindow, now: real): (blocks: int)
    ensures blocks >= 0
    ensures blocks > 0 ==> w.lastGiftDay + blocks as real * GiftDecayBlockDays <= now < w.lastGiftDay + (blocks + 1) as real * GiftDecayBlockDays
  {
    if w.lastGiftDay > 0.0 && now - w.lastGiftDay >= GiftDecayBlockDays then
      var q := (now - w.lastGiftDay) / GiftDecayBlockDays;
      assert q >= 1.0;
      Truncate(q)
    else 0
  }

  /**
   * The soft decay: each whole block since the last gift takes one point
   * off the window's gain (not below zero) and moves the last-gift day on
   * by a block, so less than a block remains.
   */
  function Decay(w: GiftWindow, now: real): (r: GiftWindow)
    ensures var blocks := DecayBlocks(w, now);
            blocks > 0 ==>
              r.relationGained == MaxInt(0, w.relationGained - blocks * GiftSoftDecayPerBlock) &&
              r.lastGiftDay == w.lastGiftDay + blocks as real * GiftDecayBlockDays &&
              0.0 <= now - r.lastGiftDay < GiftDecayBlockDays
    ensures DecayBlocks(w, now) == 0 ==> r == w
    ensures r.windowStartDay == w.windowStartDay && r.giftsGiven == w.giftsGiven && r.giftsReceived == w.giftsReceived
  {
    var blocks := DecayBlocks(w, now);
    var penalty := blocks * GiftSoftDecayPerBlock;
    if penalty > 0 then
      w.(relationGained := MaxInt(0, w.relationGained - penalty),
         lastGiftDay := w.lastGiftDay + blocks as real * GiftDecayBlockDays)
    else w
  }

  /** The rolling window: older than thirty days, it starts again empty at `now`. */
  function ResetIfStale(w: GiftWindow, now: real): (r: GiftWindow)
    ensures now - w.windowStartDay > WindowDays ==> r == GiftWindow(now, 0, w.lastGiftDay, 0, 0)
    ensures now - w.windowStartDay <= WindowDays ==> r == w
  {
    if now - w.windowStartDay > WindowDays then
      w.(relationGained := 0, giftsGiven := 0, giftsReceived := 0, windowStartDay := now)
    else w
  }

  /** The pair's window as the gift decision sees it: created if missing, decayed, then reset if stale. */
  function PreparedWindow(stored: Option<GiftWindow>, now: real): (r: GiftWindow)
    ensures now - r.windowStartDay <= WindowDays
    ensures stored.Some? && 0 <= stored.value.relationGained ==> 0 <= r.relationGained <= stored.value.relationGained
    ensures stored.None? ==> r == FreshWindow(now)
    ensures stored.Some? && 0 <= stored.value.giftsGiven ==> 0 <= r.giftsGiven <= stored.value.giftsGiven
    ensures stored.Some? && 0 <= stored.value.giftsReceived ==> 0 <= r.giftsReceived <= stored.value.giftsReceived
  {
    ResetIfStale(Decay(stored.GetOr(FreshWindow(now)), now), now)
  }

  /** The safety downshift: while the donor's reserve would be breached, at most twice, the amount halves, not below `GiftMin`. */
  function Downshifted(amount: int, donorGold: int, reserve: int, attempts: nat): int
    decreases 2 - attempts
  {
    if attempts < 2 && donorGold - amount < reserve then
      Downshifted(MaxInt(GiftMin, Half(amount)), donorGold, reserve, attempts + 1)
    else amount
  }

  /** From an amount of at least `GiftMin`, the downshift only lowers it and never below `GiftMin`. */
  lemma {:induction false} DownshiftBounds(amount: int, donorGold: int, reserve: int, attempts: nat)
    requires amount >= GiftMin
    ensures GiftMin <= Downshifted(amount, donorGold, reserve, attempts) <= amount
    decreases 2 - attempts
  {
    if attempts < 2 && donorGold - amount < reserve {
      DownshiftBounds(MaxInt(GiftMin, Half(amount)), donorGold, reserve, attempts + 1);
    }
  }

  /** The downshift loop, which halves at most twice. */
  method Downshift(amount: int, donorGold: int, reserve: int) returns (r: int, attempts: nat)
    ensures r == Downshifted(amount, donorGold, reserve, 0)
    ensures attempts <= 2
    ensures attempts < 2 ==> donorGold - r >= reserve
  {
    r, attempts := amount, 0;
    while attempts < 2 && donorGold - r < reserve
      invariant attempts <= 2
      invariant Downshifted(r, donorGold, reserve, attempts) == Downshifted(amount, donorGold, reserve, 0)
      decreases 2 - attempts
    {
      r := MaxInt(GiftMin, Half(r));
      attempts := attempts + 1;
    }
  }

  /** `IsEligibleDonor`: a living, free adult of the clan being ticked. */
  function IsEligibleDonor(h: Option<Noble>, clanId: string): (eligible: bool)
    ensures h.None? ==> !eligible
    ensures eligible ==> h.value.clan.Some? && h.value.clan.value.id == clanId
    ensures eligible ==> h.value.isAlive && !h.value.isDead && !h.value.isChild && !h.value.isPrisoner
  {
    h.Some? && h.value.isAlive && !h.value.isChild && !h.value.isPrisoner && !h.value.isDead &&
    h.value.clan.Some? && h.value.clan.value.id == clanId
  }

  /** A candidate recipient: free, alive and its clan's leader. */
  predicate IsCandidate(r: Noble)
  {
    !r.isPrisoner && !r.isDead && r.clan.Some? && r.clan.value.leader == Some(r.id)
  }

  /** Neediest first (lowest surplus), then poorest, then the random draw `shuffle`. */
  function NeedKey(shuffle: HeroId -> real): Noble -> SortKey
  {
    (r: Noble) => SortKey(GetClanSurplus(r.clan) as real,
                 (if r.clan.Some? then r.clan.value.gold else 2147483647) as real,
                 shuffle(r.id))
  }

  /**
   * The candidates of one donor: the leaders among `eligible` (the living
   * heroes the world offers, each once), neediest first, at most five;
   * no leader left out ranks before one kept.
   */
  function Candidates(eligible: seq<Noble>, shuffle: HeroId -> real): (r: seq<Noble>)
    requires NoDuplicates(eligible)
    ensures |r| <= 5 && NoDuplicates(r)
    ensures forall c :: c in r ==> c in eligible && IsCandidate(c)
    ensures SortedBy(r, NeedKey(shuffle))
    ensures forall c, x :: c in r && x in eligible && IsCandidate(x) && x !in r ==> KeyLe(NeedKey(shuffle)(c), NeedKey(shuffle)(x))
    ensures |r| < 5 ==> forall x :: x in eligible && IsCandidate(x) ==> x in r
  {
    var leaders := Filter(eligible, IsCandidate);
    FilterNoDuplicates(eligible, IsCandidate);
    RankedTake(leaders, NeedKey(shuffle), 5);
    assert forall x :: x in eligible && IsCandidate(x) ==> x in leaders by {
      forall x | x in eligible && IsCandidate(x) ensures x in leaders {
        FilterKeeps(eligible, IsCandidate, x);
      }
    }
    Take(SortBy(leaders, NeedKey(shuffle)), 5)
  }

  /**
   * The decision for one candidate on a prepared window: the downshifted
   * amount, if the rules approve it, and a relation gain that fits the
   * window's remaining room and is positive.
   */
  function GiftOutcome(d: Noble, r: Noble, w: GiftWindow, giftsGiven: int, giftsReceived: int,
                       currentRelation: int, baseDeltaOf: int -> int, pick: nat): (g: Option<Gift>)
    requires d.clan.Some?
    ensures g.Some? ==> g.value.donor == d.id && g.value.recipient == r.id
    ensures g.Some? ==> 1 <= g.value.delta <= MaxRelationPerWindow - w.relationGained
    ensures g.Some? ==> GiftMin <= g.value.amount && d.clan.value.gold - g.value.amount >= Reserve(d.clan)
  {
    var amount0 := DetermineGiftAmount(d, r, pick);
    var amount := Downshifted(amount0, d.clan.value.gold, Reserve(d.clan), 0);
    DownshiftBounds(amount0, d.clan.value.gold, Reserve(d.clan), 0);
    if !ShouldDonorGift(Some(d), Some(r), giftsGiven, giftsReceived, currentRelation, amount) then None
    else
      var sameKingdom := d.clan.value.kingdom.Some? && r.clan.Some? && d.clan.value.kingdom == r.clan.value.kingdom;
      var proposed := CalculateRelationDelta(baseDeltaOf(amount), GetTraitMultiplier(d, r, sameKingdom));
      var remaining := MaxRelationPerWindow - w.relationGained;
      var deltaToApply := MaxInt(0, MinInt(proposed, remaining));
      if deltaToApply <= 0 then None else Some(Gift(d.id, r.id, amount, deltaToApply))
  }

  /**
   * A gift is made only when the rules approve it with the counts and the
   * relation as read, and only with the amount after the downshift.
   */
  lemma GiftIsApproved(d: Noble, r: Noble, w: GiftWindow, giftsGiven: int, giftsReceived: int,
                       currentRelation: int, baseDeltaOf: int -> int, pick: nat)
    requires d.clan.Some?
    ensures var g := GiftOutcome(d, r, w, giftsGiven, giftsReceived, currentRelation, baseDeltaOf, pick);
            g.Some? ==>
              ShouldDonorGift(Some(d), Some(r), giftsGiven, giftsReceived, currentRelation, g.value.amount) &&
              g.value.amount == Downshifted(DetermineGiftAmount(d, r, pick), d.clan.value.gold, Reserve(d.clan), 0)
  {
  }

  /** The window after a gift: the gain and both gift counters go up, the last-gift day is now. */
  function Credited(w: GiftWindow, delta: int, now: real): GiftWindow
  {
    w.(relationGained := w.relationGained + delta, giftsGiven := w.giftsGiven + 1,
       giftsReceived := w.giftsReceived + 1, lastGiftDay := now)
  }

  /** A window whose gain is in [0, 6] keeps it there through preparation and a gift the outcome allows. */
  lemma GainStaysBounded(d: Noble, r: Noble, stored: Option<GiftWindow>, now: real, giftsGiven: int, giftsReceived: int,
                         currentRelation: int, baseDeltaOf: int -> int, pick: nat)
    requires d.clan.Some?
    requires stored.Some? ==> 0 <= stored.value.relationGained <= MaxRelationPerWindow
    ensures var w := PreparedWindow(stored, now);
            0 <= w.relationGained <= MaxRelationPerWindow &&
            var g := GiftOutcome(d, r, w, giftsGiven, giftsReceived, currentRelation, baseDeltaOf, pick);
            g.Some? ==> 0 < Credited(w, g.value.delta, now).relationGained <= MaxRelationPerWindow
  {
  }

  /**
   * The gifts `donor` has sent in the windows still open: the sum of the
   * send counters of its windows, in `keys`, started at most thirty days ago.
   */
  function GivenInWindow(keys: seq<(HeroId, HeroId)>, m: map<(HeroId, HeroId), GiftWindow>, now: real, donor: HeroId): int
  {
    if keys == [] then 0
    else
      var k := keys[|keys| - 1];
      GivenInWindow(keys[..|keys| - 1], m, now, donor) +
        (if k in m && k.0 == donor && now - m[k].windowStartDay <= WindowDays then m[k].giftsGiven else 0)
  }

  /** The gifts `recipient` has received in the windows still open, summed the same way. */
  function ReceivedInWindow(keys: seq<(HeroId, HeroId)>, m: map<(HeroId, HeroId), GiftWindow>, now: real, recipient: HeroId): int
  {
    if keys == [] then 0
    else
      var k := keys[|keys| - 1];
      ReceivedInWindow(keys[..|keys| - 1], m, now, recipient) +
        (if k in m && k.1 == recipient && now - m[k].windowStartDay <= WindowDays then m[k].giftsReceived else 0)
  }

  /** An open window of the donor counts in full toward its sends, when no counter is negative. */
  lemma {:induction false} GivenCountsWindow(keys: seq<(HeroId, HeroId)>, m: map<(HeroId, HeroId), GiftWindow>, now: real, k: (HeroId, HeroId))
    requires forall j :: j in m ==> m[j].giftsGiven >= 0
    requires k in keys && k in m && now - m[k].windowStartDay <= WindowDays
    ensures GivenInWindow(keys, m, now, k.0) >= m[k].giftsGiven
  {
    GivenNonNegative(keys[..|keys| - 1], m, now, k.0);
    if keys[|keys| - 1] != k {
      GivenCountsWindow(keys[..|keys| - 1], m, now, k);
    }
  }

  lemma {:induction false} GivenNonNegative(keys: seq<(HeroId, HeroId)>, m: map<(HeroId, HeroId), GiftWindow>, now: real, donor: HeroId)
    requires forall j :: j in m ==> m[j].giftsGiven >= 0
    ensures GivenInWindow(keys, m, now, donor) >= 0
  {
    if keys != [] {
      GivenNonNegative(keys[..|keys| - 1], m, now, donor);
    }
  }

  /** An open window of the recipient counts in full toward its receipts, when no counter is negative. */
  lemma {:induction false} ReceivedCountsWindow(keys: seq<(HeroId, HeroId)>, m: map<(HeroId, HeroId), GiftWindow>, now: real, k: (HeroId, HeroId))
    requires forall j :: j in m ==> m[j].giftsReceived >= 0
    requires k in keys && k in m && now - m[k].windowStartDay <= WindowDays
    ensures ReceivedInWindow(keys, m, now, k.1) >= m[k].giftsReceived
  {
    ReceivedNonNegative(keys[..|keys| - 1], m, now, k.1);
    if keys[|keys| - 1] != k {
      ReceivedCountsWindow(keys[..|keys| - 1], m, now, k);
    }
  }

  lemma {:induction false} ReceivedNonNegative(keys: seq<(HeroId, HeroId)>, m: map<(HeroId, HeroId), GiftWindow>, now: real, recipient: HeroId)
    requires forall j :: j in m ==> m[j].giftsReceived >= 0
    ensures ReceivedInWindow(keys, m, now, recipient) >= 0
  {
    if keys != [] {
      ReceivedNonNegative(keys[..|keys| - 1], m, now, recipient);
    }
  }

  /** The window stored for `key`, if any. */
  function Stored(m: map<(HeroId, HeroId), GiftWindow>, key: (HeroId, HeroId)): (r: Option<GiftWindow>)
    ensures r.Some? <==> key in m
  {
    if key in m then Some(m[key]) else None
  }

  /** The relation penalty opening a window charges: one per whole block since the last gift, or none. */
  function PenaltyOf(stored: Option<GiftWindow>, donor: HeroId, recipient: HeroId, now: real): (r: seq<DecayPenalty>)
    ensures |r| <= 1
    ensures forall p :: p in r ==> p.donor == donor && p.recipient == recipient && p.penalty > 0
    ensures stored.None? ==> r == []
  {
    var blocks := DecayBlocks(stored.GetOr(FreshWindow(now)), now);
    if blocks > 0 then [DecayPenalty(donor, recipient, blocks * GiftSoftDecayPerBlock)] else []
  }

  /** Every window's gain lies in [0, 6]. */
  predicate BoundedGains(m: map<(HeroId, HeroId), GiftWindow>)
  {
    forall k :: k in m ==> 0 <= m[k].relationGained <= MaxRelationPerWindow
  }

  /** Storing a window whose gain is in range keeps every gain in range. */
  lemma StoreKeepsBounded(m: map<(HeroId, HeroId), GiftWindow>, key: (HeroId, HeroId), w: GiftWindow)
    requires BoundedGains(m) && 0 <= w.relationGained <= MaxRelationPerWindow
    ensures BoundedGains(m[key := w])
  {
  }

  // ---------------------------------------------------------------------
  // Saving and loading: two parallel string lists

  /** The culture-invariant `ToString` and `Parse` of the window's floats and ints. */
  datatype NumberFormat = NumberFormat(showReal: real -> string, showInt: int -> string,
                                       parseReal: string -> real, parseInt: string -> int)

  /** Parsing gives back what was shown, and no shown number holds the value separator. */
  ghost predicate FaithfulFormat(f: NumberFormat)
  {
    (forall x :: f.parseReal(f.showReal(x)) == x && ';' !in f.showReal(x)) &&
    (forall n :: f.parseInt(f.showInt(n)) == n && ';' !in f.showInt(n))
  }

  /** The saved key `donor|recipient`. */
  function KeyString(k: (HeroId, HeroId)): string
  {
    k.0 + ['|'] + k.1
  }

  /** The saved value: the five counters joined with `;`. */
  function WindowString(w: GiftWindow, f: NumberFormat): string
  {
    Join([f.showReal(w.windowStartDay), f.showInt(w.relationGained), f.showReal(w.lastGiftDay),
          f.showInt(w.giftsGiven), f.showInt(w.giftsReceived)], ';')
  }

  /** One saved entry read back: nothing unless the key has exactly two parts and the value exactly five. */
  function ParseEntry(key: string, value: string, f: NumberFormat): (r: Option<((HeroId, HeroId), GiftWindow)>)
    ensures r.Some? ==> |Split(key, '|')| == 2 && |Split(value, ';')| == 5
    ensures r.Some? ==> '|' !in r.value.0.0 && '|' !in r.value.0.1
  {
    var keyParts := Split(key, '|');
    if |keyParts| != 2 then None
    else
      var valParts := Split(value, ';');
      if |valParts| != 5 then None
      else
        Some(((keyParts[0], keyParts[1]),
              GiftWindow(f.parseReal(valParts[0]), f.parseInt(valParts[1]), f.parseReal(valParts[2]),
                         f.parseInt(valParts[3]), f.parseInt(valParts[4]))))
  }

  /** Type of one parsed entry: a key and its window, or nothing for a malformed entry. */
  type Entry = Option<((HeroId, HeroId), GiftWindow)>

  /**
   * The dictionary rebuilt from parsed entries in order: malformed entries
   * are skipped, and a repeated key overwrites its window in place,
   * keeping its first position.
   */
  function Assemble(entries: seq<Entry>): (r: (map<(HeroId, HeroId), GiftWindow>, seq<(HeroId, HeroId)>))
    ensures forall k :: k in r.1 <==> k in r.0
    ensures NoDuplicates(r.1) && |r.1| <= |entries|
    ensures forall k :: k in r.0 ==> Some((k, r.0[k])) in entries
  {
    if entries == [] then (map[], [])
    else
      var prev := Assemble(entries[..|entries| - 1]);
      var e := entries[|entries| - 1];
      if e.None? then prev
      else if e.value.0 in prev.0 then (prev.0[e.value.0 := e.value.1], prev.1)
      else
        AppendNoDuplicates(prev.1, e.value.0);
        (prev.0[e.value.0 := e.value.1], prev.1 + [e.value.0])
  }

  /** The entries the two lists share, each parsed. */
  function ParsedEntries(keys: seq<string>, values: seq<string>, f: NumberFormat): (r: seq<Entry>)
    ensures |r| == MinInt(|keys|, |values|)
    ensures forall i :: 0 <= i < |r| ==> r[i] == ParseEntry(keys[i], values[i], f)
  {
    seq(MinInt(|keys|, |values|), i requires 0 <= i < MinInt(|keys|, |values|) => ParseEntry(keys[i], values[i], f))
  }

  /** The dictionary and its order after loading the two lists. */
  function Loaded(keys: seq<string>, values: seq<string>, f: NumberFormat): (r: (map<(HeroId, HeroId), GiftWindow>, seq<(HeroId, HeroId)>))
    ensures forall k :: k in r.1 <==> k in r.0
    ensures NoDuplicates(r.1) && |r.1| <= |keys| && |r.1| <= |values|
    ensures forall k :: k in r.0 ==> '|' !in k.0 && '|' !in k.1
  {
    var entries := ParsedEntries(keys, values, f);
    var r := Assemble(entries);
    assert forall k :: k in r.0 ==> '|' !in k.0 && '|' !in k.1 by {
      forall k | k in r.0 ensures '|' !in k.0 && '|' !in k.1 {
        var i :| 0 <= i < |entries| && entries[i] == Some((k, r.0[k]));
      }
    }
    r
  }

  /** The saved keys, in dictionary order. */
  function SavedKeys(order: seq<(HeroId, HeroId)>): (r: seq<string>)
    ensures |r| == |order|
  {
    seq(|order|, i requires 0 <= i < |order| => KeyString(order[i]))
  }

  /** The saved values, in the same order. */
  function SavedValues(order: seq<(HeroId, HeroId)>, m: map<(HeroId, HeroId), GiftWindow>, f: NumberFormat): (r: seq<string>)
    requires forall k :: k in order ==> k in m
    ensures |r| == |order|
  {
    seq(|order|, i requires 0 <= i < |order| => WindowString(m[order[i]], f))
  }

  /** A saved entry reads back as the same key and window. */
  lemma ParseSavedEntry(k: (HeroId, HeroId), w: GiftWindow, f: NumberFormat)
    requires '|' !in k.0 && '|' !in k.1 && FaithfulFormat(f)
    ensures ParseEntry(KeyString(k), WindowString(w, f), f) == Some((k, w))
  {
    SplitJoin(k.0, k.1, '|');
    SplitNoSeparator(k.1, '|');
    var parts := [f.showReal(w.windowStartDay), f.showInt(w.relationGained), f.showReal(w.lastGiftDay),
                  f.showInt(w.giftsGiven), f.showInt(w.giftsReceived)];
    SplitJoinRoundTrip(parts, ';');
  }

  /** The dictionary holding exactly the first `n` keys of `order`. */
  function Restrict(m: map<(HeroId, HeroId), GiftWindow>, order: seq<(HeroId, HeroId)>, n: nat): map<(HeroId, HeroId), GiftWindow>
    requires n <= |order|
    requires forall k :: k in order ==> k in m
  {
    map k | k in order[..n] :: m[k]
  }

  /**
   * Saving then loading gives back the dictionary and its order, when no
   * hero id holds the key separator and the number format is faithful.
   */
  lemma SaveLoadRoundTrip(m: map<(HeroId, HeroId), GiftWindow>, order: seq<(HeroId, HeroId)>, f: NumberFormat)
    requires (forall k :: k in order <==> k in m) && NoDuplicates(order)
    requires forall k :: k in order ==> '|' !in k.0 && '|' !in k.1
    requires FaithfulFormat(f)
    ensures Loaded(SavedKeys(order), SavedValues(order, m, f), f) == (m, order)
  {
    var entries := ParsedEntries(SavedKeys(order), SavedValues(order, m, f), f);
    SavedEntriesParse(m, order, f);
    AssembleAll(entries, m, order);
  }

  /** Entries that are, one by one, the keys of `order` with their windows rebuild the dictionary. */
  lemma AssembleAll(entries: seq<Entry>, m: map<(HeroId, HeroId), GiftWindow>, order: seq<(HeroId, HeroId)>)
    requires (forall k :: k in order <==> k in m) && NoDuplicates(order)
    requires |entries| == |order|
    requires forall i :: 0 <= i < |order| ==> entries[i] == Some((order[i], m[order[i]]))
    ensures Assemble(entries) == (m, order)
  {
    RestrictAll(m, order);
    assert entries[..|order|] == entries;
    assert order[..|order|] == order;
    AssemblePrefix(entries, m, order, |order|);
  }

  lemma RestrictAll(m: map<(HeroId, HeroId), GiftWindow>, order: seq<(HeroId, HeroId)>)
    requires forall k :: k in order <==> k in m
    ensures Restrict(m, order, |order|) == m
  {
    assert order[..|order|] == order;
  }

  /** Each saved entry parses back to its key and window. */
  lemma SavedEntriesParse(m: map<(HeroId, HeroId), GiftWindow>, order: seq<(HeroId, HeroId)>, f: NumberFormat)
    requires forall k :: k in order ==> k in m && '|' !in k.0 && '|' !in k.1
    requires FaithfulFormat(f)
    ensures var entries := ParsedEntries(SavedKeys(order), SavedValues(order, m, f), f);
            |entries| == |order| && forall i :: 0 <= i < |order| ==> entries[i] == Some((order[i], m[order[i]]))
  {
    var entries := ParsedEntries(SavedKeys(order), SavedValues(order, m, f), f);
    forall i | 0 <= i < |order| ensures entries[i] == Some((order[i], m[order[i]])) {
      ParseSavedEntry(order[i], m[order[i]], f);
    }
  }

  /** Entries that are, one by one, the keys of `order` with their windows rebuild that prefix. */
  lemma {:induction false} AssemblePrefix(entries: seq<Entry>, m: map<(HeroId, HeroId), GiftWindow>,
                                          order: seq<(HeroId, HeroId)>, n: nat)
    requires (forall k :: k in order ==> k in m) && NoDuplicates(order)
    requires n <= |order| && n <= |entries|
    requires forall i :: 0 <= i < n ==> entries[i] == Some((order[i], m[order[i]]))
    ensures Assemble(entries[..n]) == (Restrict(m, order, n), order[..n])
  {
    if n == 0 {
      assert Restrict(m, order, 0) == map[];
    } else {
      AssemblePrefix(entries, m, order, n - 1);
      assert entries[..n][..n - 1] == entries[..n - 1];
      RestrictStep(m, order, n);
    }
  }

  lemma RestrictStep(m: map<(HeroId, HeroId), GiftWindow>, order: seq<(HeroId, HeroId)>, n: nat)
    requires (forall k :: k in order ==> k in m) && NoDuplicates(order)
    requires 0 < n <= |order|
    ensures order[n - 1] !in Restrict(m, order, n - 1)
    ensures order[..n] == order[..n - 1] + [order[n - 1]]
    ensures Restrict(m, order, n) == Restrict(m, order, n - 1)[order[n - 1] := m[order[n - 1]]]
  {
    var k := order[n - 1];
    assert k !in order[..n - 1] by {
      assert forall j :: 0 <= j < n - 1 ==> order[..n - 1][j] == order[j] != order[n - 1];
    }
    assert order[..n] == order[..n - 1] + [k];
  }

  /** The behaviour's state: the pair windows, their order, and the gifts and decay penalties made. */
  datatype PatronageState = PatronageState(recentGifts: map<(HeroId, HeroId), GiftWindow>,
                                           order: seq<(HeroId, HeroId)>, gifts: seq<Gift>,
                                           penalties: seq<DecayPenalty>)

  /**
   * One candidate of the daily pass: the pair's window is opened (created,
   * decayed, reset), the caps are counted over every stored window, and the
   * gift the rules allow, if any, is made and credited to the window.
   */
  function Consider(st: PatronageState, d: Noble, r: Noble, now: real, currentRelation: int,
                    baseDeltaOf: int -> int, pick: nat): (c: (PatronageState, Option<Gift>))
    requires d.clan.Some?
    ensures c.1.Some? ==> c.1.value.donor == d.id && c.1.value.recipient == r.id && c.0.gifts == st.gifts + [c.1.value]
    ensures c.1.None? ==> c.0.gifts == st.gifts
  {
    var key := (d.id, r.id);
    var w := PreparedWindow(Stored(st.recentGifts, key), now);
    var order := if key in st.recentGifts then st.order else st.order + [key];
    var held := st.recentGifts[key := w];
    var outcome := GiftOutcome(d, r, w, GivenInWindow(order, held, now, d.id),
                               ReceivedInWindow(order, held, now, r.id), currentRelation, baseDeltaOf, pick);
    var windows := if outcome.Some? then st.recentGifts[key := Credited(w, outcome.value.delta, now)] else held;
    (PatronageState(windows, order, st.gifts + (if outcome.Some? then [outcome.value] else []),
                    st.penalties + PenaltyOf(Stored(st.recentGifts, key), d.id, r.id, now)),
     outcome)
  }

  /**
   * The daily pass over `cands` in order: each candidate is considered
   * until one receives a gift, and none after it. The index is that of the
   * candidate given the gift, if one was.
   */
  function GiftPass(st: PatronageState, d: Noble, cands: seq<Noble>, now: real,
                    relationOf: (HeroId, HeroId) -> int, baseDeltaOf: int -> int,
                    pickOf: HeroId -> nat): (p: (PatronageState, Option<nat>))
    requires d.clan.Some?
    ensures p.1.Some? ==> p.1.value < |cands|
    ensures p.1.None? ==> p.0.gifts == st.gifts
  {
    if cands == [] then (st, None)
    else
      var prev := GiftPass(st, d, cands[..|cands| - 1], now, relationOf, baseDeltaOf, pickOf);
      if prev.1.Some? then prev
      else
        var r := cands[|cands| - 1];
        var next := Consider(prev.0, d, r, now, relationOf(d.id, r.id), baseDeltaOf, pickOf(r.id));
        (next.0, if next.1.Some? then Some(|cands| - 1) else None)
  }

  /** What considering candidate `j` gives, in the state the pass over the candidates before it left. */
  function OutcomeAt(st: PatronageState, d: Noble, cands: seq<Noble>, j: nat, now: real,
                     relationOf: (HeroId, HeroId) -> int, baseDeltaOf: int -> int,
                     pickOf: HeroId -> nat): (PatronageState, Option<Gift>)
    requires d.clan.Some? && j < |cands|
  {
    var s := GiftPass(st, d, cands[..j], now, relationOf, baseDeltaOf, pickOf).0;
    Consider(s, d, cands[j], now, relationOf(d.id, cands[j].id), baseDeltaOf, pickOf(cands[j].id))
  }

  /**
   * The gift goes to the first candidate the rules approve in its turn:
   * when the pass gives to candidate `j`, no candidate before `j` was
   * given anything, considering `j` gave the one gift, from the donor to
   * `j`, and left the pass's final state. A pass that gives nothing
   * considered every candidate without a gift.
   */
  lemma {:induction false} GiftGoesToFirstApproved(st: PatronageState, d: Noble, cands: seq<Noble>, now: real,
                                                   relationOf: (HeroId, HeroId) -> int, baseDeltaOf: int -> int,
                                                   pickOf: HeroId -> nat)
    requires d.clan.Some?
    ensures var p := GiftPass(st, d, cands, now, relationOf, baseDeltaOf, pickOf);
            var n := if p.1.Some? then p.1.value else |cands|;
            (forall i :: 0 <= i < n ==> OutcomeAt(st, d, cands, i, now, relationOf, baseDeltaOf, pickOf).1.None?) &&
            (p.1.Some? ==>
               var o := OutcomeAt(st, d, cands, p.1.value, now, relationOf, baseDeltaOf, pickOf);
               o.1.Some? && o.0 == p.0 &&
               o.1.value.donor == d.id && o.1.value.recipient == cands[p.1.value].id &&
               p.0.gifts == st.gifts + [o.1.value])
  {
    if cands != [] {
      var m := |cands| - 1;
      var init := cands[..m];
      GiftGoesToFirstApproved(st, d, init, now, relationOf, baseDeltaOf, pickOf);
      PassOnPrefix(st, d, cands, now, relationOf, baseDeltaOf, pickOf);
      var prev := GiftPass(st, d, init, now, relationOf, baseDeltaOf, pickOf);
      var p := GiftPass(st, d, cands, now, relationOf, baseDeltaOf, pickOf);
      if prev.1.Some? {
        assert p == prev;
        var n := prev.1.value;
        forall i | 0 <= i < n
          ensures OutcomeAt(st, d, cands, i, now, relationOf, baseDeltaOf, pickOf).1.None?
        {
          assert OutcomeAt(st, d, cands, i, now, relationOf, baseDeltaOf, pickOf) ==
                 OutcomeAt(st, d, init, i, now, relationOf, baseDeltaOf, pickOf);
        }
        assert OutcomeAt(st, d, cands, n, now, relationOf, baseDeltaOf, pickOf) ==
               OutcomeAt(st, d, init, n, now, relationOf, baseDeltaOf, pickOf);
      } else {
        GiftPassStep(st, d, cands, m, now, relationOf, baseDeltaOf, pickOf);
        assert cands[..m + 1] == cands;
        forall i | 0 <= i < m
          ensures OutcomeAt(st, d, cands, i, now, relationOf, baseDeltaOf, pickOf).1.None?
        {
          assert OutcomeAt(st, d, cands, i, now, relationOf, baseDeltaOf, pickOf) ==
                 OutcomeAt(st, d, init, i, now, relationOf, baseDeltaOf, pickOf);
        }
        assert OutcomeAt(st, d, cands, m, now, relationOf, baseDeltaOf, pickOf) ==
               Consider(prev.0, d, cands[m], now, relationOf(d.id, cands[m].id), baseDeltaOf, pickOf(cands[m].id));
      }
    }
  }

  /** Considering candidate `j` in the pass over `cands` is considering it in the pass over `cands` without its last element. */
  lemma PassOnPrefix(st: PatronageState, d: Noble, cands: seq<Noble>, now: real,
                     relationOf: (HeroId, HeroId) -> int, baseDeltaOf: int -> int,
                     pickOf: HeroId -> nat)
    requires d.clan.Some? && cands != []
    ensures forall j :: 0 <= j < |cands| - 1 ==>
              OutcomeAt(st, d, cands, j, now, relationOf, baseDeltaOf, pickOf) ==
              OutcomeAt(st, d, cands[..|cands| - 1], j, now, relationOf, baseDeltaOf, pickOf)
    ensures cands[..|cands| - 1] == cands[..|cands| - 1][..|cands| - 1]
  {
    var init := cands[..|cands| - 1];
    forall j | 0 <= j < |cands| - 1
      ensures OutcomeAt(st, d, cands, j, now, relationOf, baseDeltaOf, pickOf) ==
              OutcomeAt(st, d, init, j, now, relationOf, baseDeltaOf, pickOf)
    {
      assert cands[..j] == init[..j];
    }
  }

  /** Once a gift is made the pass is over: the candidates after the gifted one change nothing. */
  lemma {:induction false} GiftPassStops(st: PatronageState, d: Noble, cands: seq<Noble>, i: nat, now: real,
                                         relationOf: (HeroId, HeroId) -> int, baseDeltaOf: int -> int,
                                         pickOf: HeroId -> nat)
    requires d.clan.Some? && i <= |cands|
    requires i == |cands| || GiftPass(st, d, cands[..i], now, relationOf, baseDeltaOf, pickOf).1.Some?
    ensures GiftPass(st, d, cands, now, relationOf, baseDeltaOf, pickOf) ==
            GiftPass(st, d, cands[..i], now, relationOf, baseDeltaOf, pickOf)
    decreases |cands| - i
  {
    if i < |cands| {
      var init := cands[..|cands| - 1];
      assert init[..i] == cands[..i];
      GiftPassStops(st, d, init, i, now, relationOf, baseDeltaOf, pickOf);
      assert GiftPass(st, d, init, now, relationOf, baseDeltaOf, pickOf).1.Some?;
    } else {
      assert cands[..i] == cands;
    }
  }

  /** While no gift is made, the pass takes the next candidate's consideration as its step. */
  lemma GiftPassStep(st: PatronageState, d: Noble, cands: seq<Noble>, i: nat, now: real,
                     relationOf: (HeroId, HeroId) -> int, baseDeltaOf: int -> int,
                     pickOf: HeroId -> nat)
    requires d.clan.Some? && i < |cands|
    requires GiftPass(st, d, cands[..i], now, relationOf, baseDeltaOf, pickOf).1.None?
    ensures var prev := GiftPass(st, d, cands[..i], now, relationOf, baseDeltaOf, pickOf);
            var c := Consider(prev.0, d, cands[i], now, relationOf(d.id, cands[i].id), baseDeltaOf, pickOf(cands[i].id));
            GiftPass(st, d, cands[..i + 1], now, relationOf, baseDeltaOf, pickOf) ==
            (c.0, if c.1.Some? then Some(i) else None)
  {
    assert cands[..i + 1][..i] == cands[..i];
  }

  /** The pass touches only the donor's own windows. */
  lemma {:induction false} PassKeepsOtherDonors(st: PatronageState, d: Noble, cands: seq<Noble>, now: real,
                                                relationOf: (HeroId, HeroId) -> int, baseDeltaOf: int -> int,
                                                pickOf: HeroId -> nat)
    requires d.clan.Some?
    ensures var p := GiftPass(st, d, cands, now, relationOf, baseDeltaOf, pickOf);
            forall k :: k in st.recentGifts && k.0 != d.id ==> k in p.0.recentGifts && p.0.recentGifts[k] == st.recentGifts[k]
  {
    if cands != [] {
      var init := cands[..|cands| - 1];
      PassKeepsOtherDonors(st, d, init, now, relationOf, baseDeltaOf, pickOf);
      var prev := GiftPass(st, d, init, now, relationOf, baseDeltaOf, pickOf);
      if prev.1.None? {
        var r := cands[|cands| - 1];
        ConsiderKeepsOtherDonors(prev.0, d, r, now, relationOf(d.id, r.id), baseDeltaOf, pickOf(r.id));
      }
    }
  }

  /** Considering a candidate changes only the window of the pair it opens. */
  lemma ConsiderKeepsOtherDonors(st: PatronageState, d: Noble, r: Noble, now: real, currentRelation: int,
                                 baseDeltaOf: int -> int, pick: nat)
    requires d.clan.Some?
    ensures var c := Consider(st, d, r, now, currentRelation, baseDeltaOf, pick);
            forall k :: k in st.recentGifts && k != (d.id, r.id) ==> k in c.0.recentGifts && c.0.recentGifts[k] == st.recentGifts[k]
  {
  }

  /** Every window's send and receive counters are not negative. */
  predicate CountersNonNegative(m: map<(HeroId, HeroId), GiftWindow>)
  {
    forall k :: k in m ==> m[k].giftsGiven >= 0 && m[k].giftsReceived >= 0
  }

  /** A window's send counter before a pass: 0 for a pair without one. */
  function GivenBefore(m: map<(HeroId, HeroId), GiftWindow>, k: (HeroId, HeroId)): int
  {
    if k in m then m[k].giftsGiven else 0
  }

  function ReceivedBefore(m: map<(HeroId, HeroId), GiftWindow>, k: (HeroId, HeroId)): int
  {
    if k in m then m[k].giftsReceived else 0
  }

  /**
   * The gift counters change only with a gift: a pass that gives nothing
   * raises no window's send or receive counter (opening may only reset
   * them), makes no gift and leaves the other donors' windows alone.
   */
  lemma {:induction false} CountersRiseOnlyWithGift(st: PatronageState, d: Noble, cands: seq<Noble>, now: real,
                                                    relationOf: (HeroId, HeroId) -> int, baseDeltaOf: int -> int,
                                                    pickOf: HeroId -> nat)
    requires d.clan.Some? && CountersNonNegative(st.recentGifts)
    ensures var p := GiftPass(st, d, cands, now, relationOf, baseDeltaOf, pickOf);
            p.1.None? ==>
              CountersNonNegative(p.0.recentGifts) &&
              (forall k :: k in p.0.recentGifts ==>
                 p.0.recentGifts[k].giftsGiven <= GivenBefore(st.recentGifts, k) &&
                 p.0.recentGifts[k].giftsReceived <= ReceivedBefore(st.recentGifts, k)) &&
              (forall k :: k in st.recentGifts && k.0 != d.id ==>
                 k in p.0.recentGifts && p.0.recentGifts[k] == st.recentGifts[k])
  {
    if cands != [] {
      var init := cands[..|cands| - 1];
      CountersRiseOnlyWithGift(st, d, init, now, relationOf, baseDeltaOf, pickOf);
      var prev := GiftPass(st, d, init, now, relationOf, baseDeltaOf, pickOf);
      if prev.1.None? {
        var r := cands[|cands| - 1];
        ConsiderRaisesNoCounter(prev.0, d, r, now, relationOf(d.id, r.id), baseDeltaOf, pickOf(r.id));
      }
    }
  }

  /** Considering one candidate without a gift raises no counter and touches only the donor's windows. */
  lemma ConsiderRaisesNoCounter(st: PatronageState, d: Noble, r: Noble, now: real, currentRelation: int,
                                baseDeltaOf: int -> int, pick: nat)
    requires d.clan.Some? && CountersNonNegative(st.recentGifts)
    ensures var c := Consider(st, d, r, now, currentRelation, baseDeltaOf, pick);
            c.1.None? ==>
              CountersNonNegative(c.0.recentGifts) &&
              (forall k :: k in c.0.recentGifts ==>
                 c.0.recentGifts[k].giftsGiven <= GivenBefore(st.recentGifts, k) &&
                 c.0.recentGifts[k].giftsReceived <= ReceivedBefore(st.recentGifts, k)) &&
              (forall k :: k in st.recentGifts && k.0 != d.id ==>
                 k in c.0.recentGifts && c.0.recentGifts[k] == st.recentGifts[k])
  {
    var key := (d.id, r.id);
    var stored := Stored(st.recentGifts, key);
    assert stored.Some? ==> stored.value == st.recentGifts[key];
  }

  /** `NoblePatronageBehavior`: the pair windows in dictionary order, and the effects made on the world. */
  class NoblePatronageBehavior {
    var recentGifts: map<(HeroId, HeroId), GiftWindow>
    var order: seq<(HeroId, HeroId)>
    var gifts: seq<Gift>
    var penalties: seq<DecayPenalty>

    /** `order` lists the dictionary's keys once each, in enumeration order. */
    ghost predicate Valid()
      reads this
    {
      (forall k :: k in order <==> k in recentGifts) && NoDuplicates(order)
    }

    /** Every window's gain is within the per-window maximum. */
    ghost predicate GainsBounded()
      reads this
    {
      BoundedGains(recentGifts)
    }

    /** The behaviour's fields as one value. */
    function PState(): PatronageState
      reads this
    {
      PatronageState(recentGifts, order, gifts, penalties)
    }

    constructor ()
      ensures Valid() && GainsBounded()
      ensures recentGifts == map[] && order == [] && gifts == [] && penalties == []
    {
      recentGifts := map[];
      order := [];
      gifts := [];
      penalties := [];
    }

    /**
     * `OnDailyTickClan`: an eligible leader considers its candidates in
     * order and stops after the first gift. `shuffle` is the random sort
     * draw, `relationOf` the relation as read, `baseDeltaOf` the rounded
     * `2·√(amount/20000)` and `pickOf` the amount draw of each recipient.
     */
    method OnDailyTickClan(clan: ClanView, donor: Option<Noble>, now: real, eligible: seq<Noble>,
                           shuffle: HeroId -> real, relationOf: (HeroId, HeroId) -> int,
                           baseDeltaOf: int -> int, pickOf: HeroId -> nat)
      requires Valid() && NoDuplicates(eligible)
      modifies this
      ensures Valid()
      ensures !IsEligibleDonor(donor, clan.id) ==> unchanged(this)
      ensures old(GainsBounded()) ==> GainsBounded()
      ensures gifts == old(gifts) || (|gifts| == |old(gifts)| + 1 && gifts[..|old(gifts)|] == old(gifts))
      ensures |gifts| > |old(gifts)| ==>
                var g := gifts[|gifts| - 1];
                g.donor == donor.value.id && exists c :: c in Candidates(eligible, shuffle) && c.id == g.recipient
      ensures forall k :: k in old(recentGifts) && k.0 != (if donor.Some? then donor.value.id else "") ==>
                k in recentGifts && recentGifts[k] == old(recentGifts[k])
      ensures IsEligibleDonor(donor, clan.id) ==>
                PState() == GiftPass(old(PState()), donor.value, Candidates(eligible, shuffle), now,
                                     relationOf, baseDeltaOf, pickOf).0
    {
      if !IsEligibleDonor(donor, clan.id) {
        return;
      }
      var d := donor.value;
      var candidates := Candidates(eligible, shuffle);
      var i := 0;
      var gave := false;
      while i < |candidates| && !gave
        invariant 0 <= i <= |candidates|
        invariant Valid()
        invariant old(GainsBounded()) ==> GainsBounded()
        invariant var p := GiftPass(old(PState()), d, candidates[..i], now, relationOf, baseDeltaOf, pickOf);
                  PState() == p.0 && (gave <==> p.1.Some?)
      {
        GiftPassStep(old(PState()), d, candidates, i, now, relationOf, baseDeltaOf, pickOf);
        var r := candidates[i];
        var _, _, _, outcome := ConsiderRecipient(d, r, now, relationOf(d.id, r.id), baseDeltaOf, pickOf(r.id));
        gave := outcome.Some?;
        i := i + 1;
      }
      GiftPassStops(old(PState()), d, candidates, i, now, relationOf, baseDeltaOf, pickOf);
      GiftGoesToFirstApproved(old(PState()), d, candidates, now, relationOf, baseDeltaOf, pickOf);
      PassKeepsOtherDonors(old(PState()), d, candidates, now, relationOf, baseDeltaOf, pickOf);
      var p := GiftPass(old(PState()), d, candidates, now, relationOf, baseDeltaOf, pickOf);
      if p.1.Some? {
        assert gifts[..|old(gifts)|] == old(gifts);
        assert candidates[p.1.value] in candidates;
      }
    }

    /** `SyncData` when saving: one key and one value string per window, in dictionary order. */
    method Save(f: NumberFormat) returns (keys: seq<string>, values: seq<string>)
      requires Valid()
      ensures keys == SavedKeys(order) && values == SavedValues(order, recentGifts, f)
    {
      keys, values := [], [];
      var i := 0;
      while i < |order|
        invariant 0 <= i <= |order| && |keys| == i && |values| == i
        invariant forall j :: 0 <= j < i ==> keys[j] == KeyString(order[j])
        invariant forall j :: 0 <= j < i ==> values[j] == WindowString(recentGifts[order[j]], f)
      {
        keys := keys + [KeyString(order[i])];
        values := values + [WindowString(recentGifts[order[i]], f)];
        i := i + 1;
      }
    }

    /**
     * `SyncData` when loading: with both lists present, the dictionary is
     * cleared and rebuilt from the entries the two lists share.
     */
    method Load(keys: Option<seq<string>>, values: Option<seq<string>>, f: NumberFormat)
      modifies this
      ensures keys.None? || values.None? ==> unchanged(this)
      ensures keys.Some? && values.Some? ==>
                (recentGifts, order) == Loaded(keys.value, values.value, f)
      ensures keys.Some? && values.Some? ==> Valid()
      ensures gifts == old(gifts) && penalties == old(penalties)
    {
      if keys.None? || values.None? {
        return;
      }
      var ks, vs := keys.value, values.value;
      recentGifts, order := map[], [];
      var n := MinInt(|ks|, |vs|);
      ghost var entries := ParsedEntries(ks, vs, f);
      var i := 0;
      while i < n
        invariant 0 <= i <= n
        invariant (recentGifts, order) == Assemble(entries[..i])
        invariant gifts == old(gifts) && penalties == old(penalties)
      {
        assert entries[..i + 1][..i] == entries[..i];
        var keyParts := Split(ks[i], '|');
        if |keyParts| != 2 {
          assert entries[i].None?;
          i := i + 1;
          continue;
        }
        var valParts := Split(vs[i], ';');
        if |valParts| != 5 {
          assert entries[i].None?;
          i := i + 1;
          continue;
        }
        var key := (keyParts[0], keyParts[1]);
        var window := GiftWindow(f.parseReal(valParts[0]), f.parseInt(valParts[1]), f.parseReal(valParts[2]),
                                 f.parseInt(valParts[3]), f.parseInt(valParts[4]));
        assert entries[i] == Some((key, window));
        if key !in recentGifts {
          order := order + [key];
        }
        recentGifts := recentGifts[key := window];
        i := i + 1;
      }
      assert entries[..n] == entries;
    }

    /**
     * One candidate: the pair's window is opened, then the caps are counted
     * over every stored window and, if the rules allow, the gift is made and
     * credited to the window.
     */
    method ConsiderRecipient(d: Noble, r: Noble, now: real, currentRelation: int, baseDeltaOf: int -> int, pick: nat)
      returns (w: GiftWindow, given: int, received: int, outcome: Option<Gift>)
      requires Valid() && d.clan.Some?
      modifies this
      ensures Valid()
      ensures old(GainsBounded()) ==> GainsBounded()
      ensures w == PreparedWindow(Stored(old(recentGifts), (d.id, r.id)), now)
      ensures order == (if (d.id, r.id) in old(recentGifts) then old(order) else old(order) + [(d.id, r.id)])
      ensures given == GivenInWindow(order, old(recentGifts)[(d.id, r.id) := w], now, d.id)
      ensures received == ReceivedInWindow(order, old(recentGifts)[(d.id, r.id) := w], now, r.id)
      ensures outcome == GiftOutcome(d, r, w, given, received, currentRelation, baseDeltaOf, pick)
      ensures outcome.None? ==> recentGifts == old(recentGifts)[(d.id, r.id) := w]
      ensures outcome.Some? ==> recentGifts == old(recentGifts)[(d.id, r.id) := Credited(w, outcome.value.delta, now)]
      ensures gifts == old(gifts) + (if outcome.Some? then [outcome.value] else [])
      ensures penalties == old(penalties) + PenaltyOf(Stored(old(recentGifts), (d.id, r.id)), d.id, r.id, now)
      ensures outcome.Some? ==> outcome.value.donor == d.id && outcome.value.recipient == r.id
      ensures forall k :: k in old(recentGifts) && k != (d.id, r.id) ==> k in recentGifts && recentGifts[k] == old(recentGifts)[k]
      ensures (PState(), outcome) == Consider(old(PState()), d, r, now, currentRelation, baseDeltaOf, pick)
    {
      ghost var bounded := GainsBounded();
      var key := (d.id, r.id);
      w := OpenWindow(d.id, r.id, now);
      given := GivenInWindow(order, recentGifts, now, d.id);
      received := ReceivedInWindow(order, recentGifts, now, r.id);
      outcome := GiftOutcome(d, r, w, given, received, currentRelation, baseDeltaOf, pick);
      if outcome.Some? {
        MapOverwrite(old(recentGifts), key, w, Credited(w, outcome.value.delta, now));
        RecordGift(outcome.value, Credited(w, outcome.value.delta, now));
      }
    }

    /** Lines 178-183 of the tick: the gift is applied and the pair's window credited. */
    method RecordGift(g: Gift, credited: GiftWindow)
      requires Valid() && (g.donor, g.recipient) in recentGifts
      modifies this
      ensures Valid()
      ensures GainsBounded() <== old(GainsBounded()) && 0 <= credited.relationGained <= MaxRelationPerWindow
      ensures recentGifts == old(recentGifts)[(g.donor, g.recipient) := credited]
      ensures gifts == old(gifts) + [g]
      ensures order == old(order) && penalties == old(penalties)
    {
      if GainsBounded() && 0 <= credited.relationGained <= MaxRelationPerWindow {
        StoreKeepsBounded(recentGifts, (g.donor, g.recipient), credited);
      }
      gifts := gifts + [g];
      recentGifts := recentGifts[(g.donor, g.recipient) := credited];
    }

    /**
     * Lines 104-134 of the tick: the pair's window is created if missing,
     * decayed (the penalty goes to the relation) and reset if stale.
     */
    method OpenWindow(donor: HeroId, recipient: HeroId, now: real) returns (w: GiftWindow)
      requires Valid()
      modifies this
      ensures Valid()
      ensures var key := (donor, recipient);
              w == PreparedWindow(Stored(old(recentGifts), key), now) &&
              recentGifts == old(recentGifts)[key := w] &&
              order == (if key in old(recentGifts) then old(order) else old(order) + [key])
      ensures old(GainsBounded()) ==> GainsBounded()
      ensures gifts == old(gifts)
      ensures penalties == old(penalties) + PenaltyOf(Stored(old(recentGifts), (donor, recipient)), donor, recipient, now)
    {
      var key := (donor, recipient);
      if key in recentGifts {
        w := recentGifts[key];
      } else {
        w := FreshWindow(now);
        AppendNoDuplicates(order, key);
        order := order + [key];
      }
      var blocks := DecayBlocks(w, now);
      if blocks > 0 {
        penalties := penalties + [DecayPenalty(donor, recipient, blocks * GiftSoftDecayPerBlock)];
      }
      w := ResetIfStale(Decay(w, now), now);
      if GainsBounded() {
        StoreKeepsBounded(recentGifts, key, w);
      }
      recentGifts := recentGifts[key := w];
    }
  }
}
