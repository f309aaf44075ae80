// Neutral seating of idle nobles: a lord idling in a town of its own clan
// (or in no town) is moved to the most prosperous town of its realm held by
// another clan, and pinned there for a few days; each town seats at most
// eight such guests, and a noble is moved at most once every fifteen days.

module IdleSeating {
  import opened Common
  import opened Sorting

  const MinStayDays: real := 5.0
  const RedirectCooldownDays: real := 15.0
  const MaxGuestsPerTown: int := 8
  const MaxRedirectDistance: real := 150.0

  /** The culture hub towns that get a prosperity bonus; the table is empty. */
  const CultureHubs: map<string, seq<string>> := map[]

  /** A town as the seating reads it; `distance` is measured from the noble's current town, 0 without one. */
  datatype TownView = TownView(id: string, hasSettlement: bool, mapFaction: Option<string>, ownerClan: string,
                               underSiege: bool, prosperity: real, distance: real)

  /** A clan: its id and its kingdom, if any. */
  datatype ClanRef = ClanRef(id: string, kingdom: Option<string>)

  /** The settlement a noble is in, and its town if it is one. */
  datatype SettlementView = SettlementView(id: string, town: Option<TownView>)

  /** A noble as the seating reads it. */
  datatype IdleHero = IdleHero(id: string, isAlive: bool, isChild: bool, isLord: bool, isPrisoner: bool,
                               hasParty: bool, clan: Option<ClanRef>, culture: Option<string>,
                               currentSettlement: Option<SettlementView>)

  /** The three dictionaries: seat town, lock expiry day and day of the last move, by hero id. */
  datatype Seating = Seating(seat: map<string, string>, lockUntil: map<string, real>, lastRedirect: map<string, real>)

  /** `IsEligible`: an idle, free, living adult lord whose clan belongs to a kingdom. */
  predicate IsEligible(h: Option<IdleHero>)
  {
    h.Some? && h.value.isAlive && !h.value.isChild && h.value.isLord && !h.value.isPrisoner &&
    !h.value.hasParty && h.value.clan.Some? && h.value.clan.value.kingdom.Some?
  }

  /** The heroes seated in a town. */
  function Guests(seat: map<string, string>, town: string): set<string>
  {
    set k | k in seat && seat[k] == town
  }

  /** No town seats more than eight guests, and the three dictionaries have the same heroes. */
  ghost predicate Valid(s: Seating)
  {
    (forall town :: |Guests(s.seat, town)| <= MaxGuestsPerTown) &&
    s.seat.Keys == s.lockUntil.Keys && s.lockUntil.Keys == s.lastRedirect.Keys
  }

  /** `Release`: the hero leaves all three dictionaries; nobody else is touched. */
  function Release(s: Seating, id: string): (r: Seating)
    ensures id !in r.seat && id !in r.lockUntil && id !in r.lastRedirect
    ensures forall k :: k != id ==>
              (k in r.seat <==> k in s.seat) && (k in r.lockUntil <==> k in s.lockUntil) &&
              (k in r.lastRedirect <==> k in s.lastRedirect)
    ensures forall k :: k in r.seat ==> r.seat[k] == s.seat[k]
    ensures forall k :: k in r.lockUntil ==> r.lockUntil[k] == s.lockUntil[k]
    ensures forall k :: k in r.lastRedirect ==> r.lastRedirect[k] == s.lastRedirect[k]
  {
    Seating(s.seat - {id}, s.lockUntil - {id}, s.lastRedirect - {id})
  }

  /** The heroes whose lock has run out by `now`. */
  function Expired(lockUntil: map<string, real>, now: real): set<string>
  {
    set k | k in lockUntil && lockUntil[k] <= now
  }

  /**
   * `OnDailyTick`: every hero whose lock ran out leaves all three
   * dictionaries; every other entry stays as it was.
   */
  function DailyCleanup(s: Seating, now: real): (r: Seating)
    ensures forall k :: k in r.seat <==> k in s.seat && !(k in s.lockUntil && s.lockUntil[k] <= now)
    ensures forall k :: k in r.lockUntil <==> k in s.lockUntil && s.lockUntil[k] > now
    ensures forall k :: k in r.lastRedirect <==> k in s.lastRedirect && !(k in s.lockUntil && s.lockUntil[k] <= now)
    ensures forall k :: k in r.seat ==> r.seat[k] == s.seat[k]
    ensures forall k :: k in r.lockUntil ==> r.lockUntil[k] == s.lockUntil[k]
    ensures forall k :: k in r.lastRedirect ==> r.lastRedirect[k] == s.lastRedirect[k]
  {
    var gone := Expired(s.lockUntil, now);
    Seating(s.seat - gone, s.lockUntil - gone, s.lastRedirect - gone)
  }

  /** The hub bonus of a town for a culture: 1000 for a listed hub. */
  function HubBonus(hubs: map<string, seq<string>>, cultureId: string, townId: string): real
  {
    if cultureId in hubs && townId in hubs[cultureId] then 1000.0 else 0.0
  }

  /** A town the noble may be sent to: of its realm, held by another clan, not besieged. */
  predicate Candidate(t: TownView, kingdom: string, clanId: string)
  {
    t.hasSettlement && t.mapFaction == Some(kingdom) && t.ownerClan != clanId && !t.underSiege
  }

  function CandidateTest(kingdom: string, clanId: string): TownView -> bool
  {
    t => Candidate(t, kingdom, clanId)
  }

  /** Most prosperous first (hub bonus included), then closest. */
  function HubKey(cultureId: string): TownView -> SortKey
  {
    (t: TownView) => SortKey(-(t.prosperity + HubBonus(CultureHubs, cultureId, t.id)), t.distance, 0.0)
  }

  /**
   * `PickNeutralHub`: the first town of the candidates in that order, or
   * none without a kingdom or a candidate. The pick is a candidate and no
   * candidate ranks before it.
   */
  function PickNeutralHub(hero: IdleHero, towns: seq<TownView>): (r: Option<TownView>)
    ensures r.Some? ==> (hero.clan.Some? && hero.clan.value.kingdom.Some? && r.value in towns &&
                         Candidate(r.value, hero.clan.value.kingdom.value, hero.clan.value.id))
    ensures r.Some? ==> (var key := HubKey(if hero.culture.Some? then hero.culture.value else "");
              forall t :: t in towns && Candidate(t, hero.clan.value.kingdom.value, hero.clan.value.id) ==>
                KeyLe(key(r.value), key(t)))
    ensures r.None? && hero.clan.Some? && hero.clan.value.kingdom.Some? ==>
              forall t :: t in towns ==> !Candidate(t, hero.clan.value.kingdom.value, hero.clan.value.id)
  {
    if hero.clan.None? || hero.clan.value.kingdom.None? then None
    else
      var kingdom := hero.clan.value.kingdom.value;
      var clanId := hero.clan.value.id;
      var q := Filter(towns, CandidateTest(kingdom, clanId));
      var key := HubKey(if hero.culture.Some? then hero.culture.value else "");
      var sorted := SortBy(q, key);
      if sorted == [] then
        assert forall t :: t in towns && Candidate(t, kingdom, clanId) ==> t in q by {
          forall t | t in towns && Candidate(t, kingdom, clanId) ensures t in q {
            FilterKeeps(towns, CandidateTest(kingdom, clanId), t);
          }
        }
        None
      else
        FirstIsBest(towns, q, sorted, key, kingdom, clanId);
        Some(sorted[0])
  }

  lemma FirstIsBest(towns: seq<TownView>, q: seq<TownView>, sorted: seq<TownView>, key: TownView -> SortKey,
                    kingdom: string, clanId: string)
    requires q == Filter(towns, CandidateTest(kingdom, clanId))
    requires sorted == SortBy(q, key) && sorted != []
    ensures sorted[0] in towns && Candidate(sorted[0], kingdom, clanId)
    ensures forall t :: t in towns && Candidate(t, kingdom, clanId) ==> KeyLe(key(sorted[0]), key(t))
  {
    assert sorted[0] in multiset(q);
    SortedTail(sorted, key);
    forall t | t in towns && Candidate(t, kingdom, clanId)
      ensures KeyLe(key(sorted[0]), key(t))
    {
      FilterKeeps(towns, CandidateTest(kingdom, clanId), t);
      assert t in multiset(sorted);
    }
  }

  /**
   * `TryRedirect`: nothing changes without a target, when the target
   * already seats eight guests, or when it lies more than 150 from the
   * current town; otherwise the noble is seated there, locked for five to
   * seven days (`roll` is the random draw in [0, 1]) and stamped as moved today.
   */
  function Redirect(s: Seating, hero: IdleHero, current: Option<TownView>, towns: seq<TownView>,
                    now: real, roll: real): (r: Seating)
    requires 0.0 <= roll <= 1.0
    ensures var target := PickNeutralHub(hero, towns);
            if target.None? || |Guests(s.seat, target.value.id)| >= MaxGuestsPerTown ||
               (current.Some? && target.value.distance > MaxRedirectDistance)
            then r == s
            else r.seat == s.seat[hero.id := target.value.id] &&
                 r.lastRedirect == s.lastRedirect[hero.id := now] &&
                 hero.id in r.lockUntil && now + MinStayDays <= r.lockUntil[hero.id] <= now + MinStayDays + 2.0 &&
                 r.lockUntil == s.lockUntil[hero.id := r.lockUntil[hero.id]]
  {
    var target := PickNeutralHub(hero, towns);
    if target.None? then s
    else if |Guests(s.seat, target.value.id)| >= MaxGuestsPerTown then s
    else if current.Some? && target.value.distance > MaxRedirectDistance then s
    else
      var stay := MinStayDays + 2.0 * roll;
      Seating(s.seat[hero.id := target.value.id], s.lockUntil[hero.id := now + stay], s.lastRedirect[hero.id := now])
  }

  /** Whether a pinned noble has left its seat or joined a party, and so is released. */
  predicate LeftSeat(h: IdleHero, seatId: string)
  {
    h.hasParty || h.currentSettlement.None? || h.currentSettlement.value.id != seatId
  }

  /** Whether a pinned noble is still locked or cooling down on `today`. */
  predicate Resting(s: Seating, id: string, today: real)
  {
    (id in s.lockUntil && today < s.lockUntil[id]) ||
    (id in s.lastRedirect && today - s.lastRedirect[id] < RedirectCooldownDays)
  }

  /** The noble's current town, if it is in one. */
  function CurrentTown(h: IdleHero): Option<TownView>
  {
    if h.currentSettlement.Some? then h.currentSettlement.value.town else None
  }

  /**
   * `OnDailyTickHero`: an ineligible noble is ignored; a pinned noble that
   * moved is released; a pinned noble still locked or cooling down stays;
   * otherwise a noble in a town of its own clan, or in no town while its
   * clan has a kingdom, may be redirected.
   */
  function DailyHero(s: Seating, hero: Option<IdleHero>, towns: seq<TownView>, today: real, roll: real): (r: Seating)
    requires 0.0 <= roll <= 1.0
  {
    if !IsEligible(hero) then s
    else
      var h := hero.value;
      if h.id in s.seat && LeftSeat(h, s.seat[h.id]) then Release(s, h.id)
      else if h.id in s.seat && Resting(s, h.id, today) then s
      else
        var town := CurrentTown(h);
        if town.Some? && h.clan.Some? && town.value.ownerClan == h.clan.value.id then
          Redirect(s, h, town, towns, today, roll)
        else if town.None? && h.clan.Some? && h.clan.value.kingdom.Some? then
          Redirect(s, h, None, towns, today, roll)
        else s
  }

  /**
   * The daily rules on one noble: an ineligible noble is left alone, a
   * pinned noble that moved is released, and a pinned noble at its seat is
   * not moved while locked or within fifteen days of its last move.
   */
  lemma DailyHeroRules(s: Seating, hero: Option<IdleHero>, towns: seq<TownView>, today: real, roll: real)
    requires 0.0 <= roll <= 1.0
    ensures !IsEligible(hero) ==> DailyHero(s, hero, towns, today, roll) == s
    ensures IsEligible(hero) && hero.value.id in s.seat && LeftSeat(hero.value, s.seat[hero.value.id]) ==>
              DailyHero(s, hero, towns, today, roll) == Release(s, hero.value.id)
    ensures IsEligible(hero) && hero.value.id in s.seat && !LeftSeat(hero.value, s.seat[hero.value.id]) &&
            Resting(s, hero.value.id, today) ==>
              DailyHero(s, hero, towns, today, roll) == s
  {
  }

  lemma SubsetCard<T>(a: set<T>, b: set<T>)
    requires a <= b
    ensures |a| <= |b|
  {
    if a != {} {
      var x :| x in a;
      SubsetCard(a - {x}, b - {x});
    }
  }

  /** Dropping heroes never adds a guest to any town. */
  lemma DropKeepsCapacity(s: Seating, gone: set<string>)
    requires Valid(s)
    ensures Valid(Seating(s.seat - gone, s.lockUntil - gone, s.lastRedirect - gone))
  {
    var seat := s.seat - gone;
    forall town
      ensures |Guests(seat, town)| <= MaxGuestsPerTown
    {
      SubsetCard(Guests(seat, town), Guests(s.seat, town));
    }
  }

  /** Seating one hero in a town with room keeps every town within capacity. */
  lemma SeatKeepsCapacity(seat: map<string, string>, id: string, target: string, after: map<string, string>)
    requires forall town :: |Guests(seat, town)| <= MaxGuestsPerTown
    requires |Guests(seat, target)| < MaxGuestsPerTown
    requires after == seat[id := target]
    ensures forall town :: |Guests(after, town)| <= MaxGuestsPerTown
  {
    forall town
      ensures |Guests(after, town)| <= MaxGuestsPerTown
    {
      if town == target {
        assert Guests(after, town) <= Guests(seat, town) + {id};
        SubsetCard(Guests(after, town), Guests(seat, town) + {id});
      } else {
        assert Guests(after, town) <= Guests(seat, town);
        SubsetCard(Guests(after, town), Guests(seat, town));
      }
    }
  }

  /** The capacity gate keeps every town within eight guests and the dictionaries in step. */
  lemma RedirectKeepsValid(s: Seating, hero: IdleHero, current: Option<TownView>, towns: seq<TownView>,
                           now: real, roll: real)
    requires Valid(s) && 0.0 <= roll <= 1.0
    ensures Valid(Redirect(s, hero, current, towns, now, roll))
  {
    var target := PickNeutralHub(hero, towns);
    if target.Some? && |Guests(s.seat, target.value.id)| < MaxGuestsPerTown &&
       !(current.Some? && target.value.distance > MaxRedirectDistance) {
      SeatKeepsCapacity(s.seat, hero.id, target.value.id, s.seat[hero.id := target.value.id]);
    }
  }

  /** Every daily step keeps the seating valid. */
  lemma DailyStepsKeepValid(s: Seating, hero: Option<IdleHero>, towns: seq<TownView>, today: real, roll: real)
    requires Valid(s) && 0.0 <= roll <= 1.0
    ensures Valid(DailyCleanup(s, today))
    ensures Valid(DailyHero(s, hero, towns, today, roll))
  {
    DropKeepsCapacity(s, Expired(s.lockUntil, today));
    if IsEligible(hero) {
      var h := hero.value;
      if h.id in s.seat && LeftSeat(h, s.seat[h.id]) {
        DropKeepsCapacity(s, {h.id});
      } else {
        var town := CurrentTown(h);
        RedirectKeepsValid(s, h, town, towns, today, roll);
        RedirectKeepsValid(s, h, None, towns, today, roll);
      }
    }
  }

  /** The seating behaviour and its three dictionaries. */
  class IdleNobleNeutralSeatingBehavior {
    var seatByHeroId: map<string, string>
    var lockUntil: map<string, real>
    var lastRedirect: map<string, real>

    constructor()
      ensures seatByHeroId == map[] && lockUntil == map[] && lastRedirect == map[]
    {
      seatByHeroId := map[];
      lockUntil := map[];
      lastRedirect := map[];
    }

    function State(): Seating
      reads this
    {
      Seating(seatByHeroId, lockUntil, lastRedirect)
    }

    /** `SyncData`: the dictionaries as loaded, a missing one replaced by an empty one. */
    method Load(seat: Option<map<string, string>>, locks: Option<map<string, real>>, last: Option<map<string, real>>)
      modifies this
      ensures seatByHeroId == (if seat.Some? then seat.value else map[])
      ensures lockUntil == (if locks.Some? then locks.value else map[])
      ensures lastRedirect == (if last.Some? then last.value else map[])
    {
      seatByHeroId := if seat.Some? then seat.value else map[];
      lockUntil := if locks.Some? then locks.value else map[];
      lastRedirect := if last.Some? then last.value else map[];
    }

    /** `Release`. */
    method ReleaseHero(id: string)
      modifies this
      ensures State() == Release(old(State()), id)
    {
      seatByHeroId := seatByHeroId - {id};
      lockUntil := lockUntil - {id};
      lastRedirect := lastRedirect - {id};
    }

    /** `OnDailyTick`: the expired heroes are collected, then released one by one. */
    method OnDailyTick(now: real)
      modifies this
      ensures State() == DailyCleanup(old(State()), now)
    {
      var expired := set k | k in lockUntil && lockUntil[k] <= now;
      ghost var s0 := State();
      var pending := expired;
      while pending != {}
        invariant pending <= expired
        invariant State() == Seating(s0.seat - (expired - pending), s0.lockUntil - (expired - pending),
                                     s0.lastRedirect - (expired - pending))
        decreases pending
      {
        var heroId :| heroId in pending;
        ReleaseHero(heroId);
        pending := pending - {heroId};
      }
    }

    /** `TryRedirect`; `entered` is the town the noble is moved into, if any. */
    method TryRedirect(hero: IdleHero, current: Option<TownView>, towns: seq<TownView>, now: real, roll: real)
      returns (entered: Option<string>)
      requires 0.0 <= roll <= 1.0
      modifies this
      ensures State() == Redirect(old(State()), hero, current, towns, now, roll)
      ensures entered.None? ==> State() == old(State())
      ensures entered.Some? ==> hero.id in seatByHeroId && seatByHeroId[hero.id] == entered.value
    {
      var target := PickNeutralHub(hero, towns);
      if target.None? {
        return None;
      }
      var guestsHere := |Guests(seatByHeroId, target.value.id)|;
      if guestsHere >= MaxGuestsPerTown {
        return None;
      }
      if current.Some? {
        var d := target.value.distance;
        if d > MaxRedirectDistance {
          return None;
        }
      }
      entered := Some(target.value.id);
      var id := hero.id;
      seatByHeroId := seatByHeroId[id := target.value.id];
      lockUntil := lockUntil[id := now + (MinStayDays + 2.0 * roll)];
      lastRedirect := lastRedirect[id := now];
    }

    /** `OnDailyTickHero`. */
    method OnDailyTickHero(hero: Option<IdleHero>, towns: seq<TownView>, today: real, roll: real)
      requires 0.0 <= roll <= 1.0
      modifies this
      ensures State() == DailyHero(old(State()), hero, towns, today, roll)
    {
      if !IsEligible(hero) {
        return;
      }
      var h := hero.value;
      var id := h.id;
      if id in seatByHeroId {
        var seatSettlementId := seatByHeroId[id];
        if h.hasParty || h.currentSettlement.None? || h.currentSettlement.value.id != seatSettlementId {
          ReleaseHero(id);
          return;
        }
        if id in lockUntil && today < lockUntil[id] {
          return;
        }
        if id in lastRedirect && today - lastRedirect[id] < RedirectCooldownDays {
          return;
        }
      }
      var currentTown := CurrentTown(h);
      if currentTown.Some? && h.clan.Some? && currentTown.value.ownerClan == h.clan.value.id {
        var _ := TryRedirect(h, currentTown, towns, today, roll);
      } else if currentTown.None? && h.clan.Some? && h.clan.value.kingdom.Some? {
        var _ := TryRedirect(h, None, towns, today, roll);
      }
    }
  }
}
