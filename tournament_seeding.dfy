// Tournament seeding: when a town creates a tournament, a few idle lords of
// its realm from nearby are moved into the town so that the game picks more
// nobles as participants. The town never holds more than ten lords after
// seeding, and a seeded lord is not moved again for three to five days.

module TournamentSeeding {
  import opened Common
  import opened Sorting

  const DesiredNobleAdds: int := 4
  const TownNobleCap: int := 10
  const MaxDistance: real := 140.0
  const LockDaysMin: real := 3.0
  const LockDaysMax: real := 5.0

  /** A hero staying in the town without a party. */
  datatype TownLord = TownLord(isLord: bool, isAlive: bool, isPrisoner: bool)

  /** The town's settlement: its id, whether it has a map faction, and the heroes in it without a party. */
  datatype SeedSettlement = SeedSettlement(id: string, hasMapFaction: bool, heroesWithoutParty: seq<Option<TownLord>>)

  /** The host town: its settlement (if any) and its owner clan's kingdom (if any). */
  datatype SeedTown = SeedTown(settlement: Option<SeedSettlement>, ownerKingdom: Option<string>)

  /**
   * A living hero of the campaign as the seeding reads it. `kingdom` is its
   * clan's kingdom (none without a clan); `fromDistance` is the distance to
   * the town from its current settlement, or else from its clan's first
   * fief, and none without either.
   */
  datatype SeedHero = SeedHero(id: string, isLord: bool, isChild: bool, isPrisoner: bool, kingdom: Option<string>,
                               hasParty: bool, currentSettlement: Option<string>, fromDistance: Option<real>,
                               valor: int)

  /** A lord that counts toward the town's cap. */
  predicate CountsAsLord(h: Option<TownLord>)
  {
    h.Some? && h.value.isLord && h.value.isAlive && !h.value.isPrisoner
  }

  function LordTest(): Option<TownLord> -> bool
  {
    h => CountsAsLord(h)
  }

  /** The number of lords in the town. */
  function LordsInTown(heroes: seq<Option<TownLord>>): (n: nat)
    ensures n <= |heroes|
  {
    Count(heroes, LordTest())
  }

  /** How many lords may be seeded into a town holding `lords`: at most four, and never past ten. */
  function ToSeat(lords: int): (n: int)
    ensures 0 <= n <= DesiredNobleAdds
    ensures lords + n <= TownNobleCap || n == 0
    ensures lords < TownNobleCap ==> n > 0
  {
    MinInt(DesiredNobleAdds, MaxInt(0, TownNobleCap - lords))
  }

  /** `IsSeedLocked`. */
  predicate SeedLocked(locks: map<string, real>, id: string, now: real)
  {
    id in locks && now < locks[id]
  }

  /** The candidate filter: an adult free idle lord of the realm, not the player, not in the town, not locked, within 140. */
  predicate IsCandidate(h: SeedHero, kingdom: string, settlementId: string, playerId: string,
                        locks: map<string, real>, now: real)
  {
    h.isLord && !h.isChild && !h.isPrisoner && h.id != playerId && h.kingdom == Some(kingdom) &&
    !h.hasParty && h.currentSettlement != Some(settlementId) && !SeedLocked(locks, h.id, now) &&
    h.fromDistance.Some? && h.fromDistance.value <= MaxDistance
  }

  function CandidateTest(kingdom: string, settlementId: string, playerId: string,
                         locks: map<string, real>, now: real): SeedHero -> bool
  {
    h => IsCandidate(h, kingdom, settlementId, playerId, locks, now)
  }

  /** Closest first, then the most valorous. */
  function SeedKey(): SeedHero -> SortKey
  {
    (h: SeedHero) => SortKey(if h.fromDistance.Some? then h.fromDistance.value else 0.0, -(h.valor as real), 0.0)
  }

  /** The ranked shortlist: the candidates ordered by `SeedKey`, the first `2·toSeat` of them. */
  function Shortlist(candidates: seq<SeedHero>, toSeat: nat): seq<SeedHero>
  {
    Take(SortBy(candidates, SeedKey()), 2 * toSeat)
  }

  /**
   * The shortlist is ranked, is drawn from the candidates, is at most
   * twice `toSeat` long, and no candidate left off it ranks before one on it.
   */
  lemma ShortlistRanked(candidates: seq<SeedHero>, toSeat: nat)
    requires NoDuplicates(candidates)
    ensures var s := Shortlist(candidates, toSeat);
            |s| <= 2 * toSeat && SortedBy(s, SeedKey()) && (forall h :: h in s ==> h in candidates) &&
            (forall h, x :: h in s && x in candidates && x !in s ==> KeyLe(SeedKey()(h), SeedKey()(x)))
  {
    RankedTake(candidates, SeedKey(), 2 * toSeat);
  }

  function MovesTest(failing: set<string>): SeedHero -> bool
  {
    (h: SeedHero) => h.id !in failing
  }

  /**
   * The heroes seated: the shortlisted heroes whose move succeeds
   * (`failing` are those whose move throws), in order, until `toSeat` are seated.
   */
  function Seated(shortlist: seq<SeedHero>, failing: set<string>, toSeat: nat): seq<SeedHero>
  {
    Take(Filter(shortlist, MovesTest(failing)), toSeat)
  }

  /** The seed locks after seating: the `k`-th seated hero is locked until `now + 3 + 2·rolls[k]`. */
  function ApplyLocks(locks: map<string, real>, seated: seq<SeedHero>, rolls: seq<real>, now: real): map<string, real>
    requires |seated| <= |rolls|
  {
    if seated == [] then locks
    else
      var k := |seated| - 1;
      ApplyLocks(locks, seated[..k], rolls, now)[seated[k].id := now + LockDaysMin + (LockDaysMax - LockDaysMin) * rolls[k]]
  }

  /** Every seated hero is locked for three to five days; every other lock is kept. */
  lemma {:induction false} ApplyLocksBounds(locks: map<string, real>, seated: seq<SeedHero>, rolls: seq<real>, now: real)
    requires |seated| <= |rolls|
    requires forall k :: 0 <= k < |rolls| ==> 0.0 <= rolls[k] <= 1.0
    ensures var r := ApplyLocks(locks, seated, rolls, now);
            (forall h :: h in seated ==> h.id in r && now + LockDaysMin <= r[h.id] <= now + LockDaysMax) &&
            (forall id :: id in r <==> id in locks || exists h :: h in seated && h.id == id) &&
            (forall id :: id in locks && (forall h :: h in seated ==> h.id != id) ==> r[id] == locks[id])
  {
    if seated != [] {
      var k := |seated| - 1;
      ApplyLocksBounds(locks, seated[..k], rolls, now);
      assert forall h :: h in seated ==> h in seated[..k] || h == seated[k];
      assert forall h :: h in seated[..k] ==> h in seated;
    }
  }

  /** What a `Postfix` call does: the heroes it seats and the new seed locks. */
  datatype SeedOutcome = SeedOutcome(seated: seq<SeedHero>, locks: map<string, real>)

  /**
   * `Postfix`: nothing without a town, a result, a settlement, a map
   * faction or an owner kingdom, or when the town holds ten lords;
   * otherwise the shortlist of candidates is seated as `Seated` says and
   * the seated heroes are locked.
   */
  function SeedTournament(town: Option<SeedTown>, hasResult: bool, all: seq<SeedHero>, playerId: string,
                          locks: map<string, real>, now: real, failing: set<string>, rolls: seq<real>): (r: SeedOutcome)
    requires |rolls| >= DesiredNobleAdds
    ensures r.seated == [] ==> r.locks == locks
    ensures |r.seated| <= DesiredNobleAdds
  {
    if town.None? || !hasResult then SeedOutcome([], locks)
    else if town.value.settlement.None? || !town.value.settlement.value.hasMapFaction then SeedOutcome([], locks)
    else
      var settlement := town.value.settlement.value;
      var lords := LordsInTown(settlement.heroesWithoutParty);
      var toSeat := ToSeat(lords);
      if toSeat == 0 || town.value.ownerKingdom.None? then SeedOutcome([], locks)
      else
        var candidates := Filter(all, CandidateTest(town.value.ownerKingdom.value, settlement.id, playerId, locks, now));
        if candidates == [] then SeedOutcome([], locks)
        else
          var seated := Seated(Shortlist(candidates, toSeat), failing, toSeat);
          SeedOutcome(seated, ApplyLocks(locks, seated, rolls, now))
  }

  /**
   * The guards and the cap: nothing is seated for a missing town, result,
   * settlement, faction or kingdom, or for a town with ten lords; otherwise
   * at most `min(4, 10 - lords)` are seated, so the town ends with at most
   * ten; each seated hero passed the candidate filter, was on the shortlist,
   * and is locked for three to five days.
   */
  lemma SeedingRules(town: Option<SeedTown>, hasResult: bool, all: seq<SeedHero>, playerId: string,
                     locks: map<string, real>, now: real, failing: set<string>, rolls: seq<real>)
    requires |rolls| >= DesiredNobleAdds
    requires forall k :: 0 <= k < |rolls| ==> 0.0 <= rolls[k] <= 1.0
    ensures var r := SeedTournament(town, hasResult, all, playerId, locks, now, failing, rolls);
            ((town.None? || !hasResult || town.value.settlement.None? || !town.value.settlement.value.hasMapFaction ||
              town.value.ownerKingdom.None? ||
              LordsInTown(town.value.settlement.value.heroesWithoutParty) >= TownNobleCap) ==>
               r == SeedOutcome([], locks)) &&
            (r.seated != [] ==>
               var s := town.value.settlement.value;
               var lords := LordsInTown(s.heroesWithoutParty);
               |r.seated| <= ToSeat(lords) && lords + |r.seated| <= TownNobleCap &&
               (forall h :: h in r.seated ==>
                  h in all && h.id !in failing &&
                  IsCandidate(h, town.value.ownerKingdom.value, s.id, playerId, locks, now) &&
                  h.id in r.locks && now + LockDaysMin <= r.locks[h.id] <= now + LockDaysMax))
  {
    var r := SeedTournament(town, hasResult, all, playerId, locks, now, failing, rolls);
    if r.seated != [] {
      var s := town.value.settlement.value;
      var lords := LordsInTown(s.heroesWithoutParty);
      var toSeat := ToSeat(lords);
      var test := CandidateTest(town.value.ownerKingdom.value, s.id, playerId, locks, now);
      var candidates := Filter(all, test);
      var shortlist := Shortlist(candidates, toSeat);
      forall h | h in r.seated
        ensures h in all && h.id !in failing && IsCandidate(h, town.value.ownerKingdom.value, s.id, playerId, locks, now)
      {
        var moving := Filter(shortlist, MovesTest(failing));
        assert h in moving;
        assert h in shortlist && h.id !in failing;
        assert h in multiset(SortBy(candidates, SeedKey()));
        assert h in candidates;
      }
      ApplyLocksBounds(locks, r.seated, rolls, now);
    }
  }

  /**
   * Within one call the recount never stops seating before the quota does:
   * the town gains only the heroes seated, and `toSeat` already keeps it
   * within ten.
   */
  lemma RecountNeverBindsFirst(lords: nat, seated: nat)
    requires seated < ToSeat(lords)
    ensures lords + seated < TownNobleCap
  {
  }

  /** The patch's seed locks, by hero id. */
  class TournamentNobleSeedingPatch {
    var seedLockUntil: map<string, real>

    constructor()
      ensures seedLockUntil == map[]
    {
      seedLockUntil := map[];
    }

    /** The counting loop over the heroes in the town. */
    static method CountLords(heroes: seq<Option<TownLord>>) returns (n: nat)
      ensures n == LordsInTown(heroes)
    {
      n := 0;
      var i := 0;
      while i < |heroes|
        invariant 0 <= i <= |heroes|
        invariant n == Count(heroes[..i], LordTest())
      {
        assert heroes[..i + 1][..i] == heroes[..i];
        var h := heroes[i];
        if h.Some? && h.value.isLord && h.value.isAlive && !h.value.isPrisoner {
          n := n + 1;
        }
        i := i + 1;
      }
      assert heroes[..i] == heroes;
    }

    /** The gathering loop over the living heroes. */
    static method GatherCandidates(all: seq<SeedHero>, kingdom: string, settlementId: string, playerId: string,
                                   locks: map<string, real>, now: real) returns (candidates: seq<SeedHero>)
      ensures candidates == Filter(all, CandidateTest(kingdom, settlementId, playerId, locks, now))
    {
      candidates := [];
      var i := 0;
      while i < |all|
        invariant 0 <= i <= |all|
        invariant candidates == Filter(all[..i], CandidateTest(kingdom, settlementId, playerId, locks, now))
      {
        assert all[..i + 1][..i] == all[..i];
        var h := all[i];
        i := i + 1;
        if !h.isLord || h.isChild || h.isPrisoner || h.id == playerId || h.kingdom != Some(kingdom) {
          continue;
        }
        if h.hasParty || h.currentSettlement == Some(settlementId) || SeedLocked(locks, h.id, now) {
          continue;
        }
        if h.fromDistance.None? || h.fromDistance.value > MaxDistance {
          continue;
        }
        candidates := candidates + [h];
      }
      assert all[..i] == all;
    }

    /** `Postfix`: `seated` are the heroes moved into the town, in order. */
    method Postfix(town: Option<SeedTown>, hasResult: bool, all: seq<SeedHero>, playerId: string, now: real,
                   failing: set<string>, rolls: seq<real>) returns (seated: seq<SeedHero>)
      requires |rolls| >= DesiredNobleAdds
      modifies this
      ensures SeedOutcome(seated, seedLockUntil) ==
                SeedTournament(town, hasResult, all, playerId, old(seedLockUntil), now, failing, rolls)
    {
      seated := [];
      if town.None? || !hasResult {
        return;
      }
      if town.value.settlement.None? || !town.value.settlement.value.hasMapFaction {
        return;
      }
      var settlement := town.value.settlement.value;
      var currentLordsInTown := CountLords(settlement.heroesWithoutParty);
      var headroom := MaxInt(0, TownNobleCap - currentLordsInTown);
      if headroom == 0 {
        return;
      }
      var toSeat := MinInt(DesiredNobleAdds, headroom);
      if toSeat <= 0 {
        return;
      }
      if town.value.ownerKingdom.None? {
        return;
      }
      var kingdom := town.value.ownerKingdom.value;
      var candidates := GatherCandidates(all, kingdom, settlement.id, playerId, seedLockUntil, now);
      if |candidates| == 0 {
        return;
      }
      var shortlist := Shortlist(candidates, toSeat);
      seated := SeatShortlist(shortlist, settlement.heroesWithoutParty, currentLordsInTown, toSeat, failing, rolls, now);
    }

    /** The seed lock of one seated hero: `now` plus a draw in [3, 5]. */
    method LockSeated(h: SeedHero, roll: real, now: real)
      modifies this
      ensures seedLockUntil == old(seedLockUntil)[h.id := now + LockDaysMin + (LockDaysMax - LockDaysMin) * roll]
    {
      seedLockUntil := seedLockUntil[h.id := now + LockDaysMin + (LockDaysMax - LockDaysMin) * roll];
    }

    /** One pass of the seating loop below the quota: the `i`-th shortlisted hero is moved and locked unless its move throws. */
    method SeatNext(shortlist: seq<SeedHero>, i: nat, seated: seq<SeedHero>, inTown: seq<Option<TownLord>>,
                    lords: nat, toSeat: nat, failing: set<string>, rolls: seq<real>, now: real,
                    ghost locks0: map<string, real>)
      returns (seated': seq<SeedHero>, inTown': seq<Option<TownLord>>)
      requires i < |shortlist| && |seated| < toSeat <= |rolls|
      requires seated == Take(Filter(shortlist[..i], MovesTest(failing)), toSeat)
      requires seedLockUntil == ApplyLocks(locks0, seated, rolls, now)
      requires LordsInTown(inTown) == lords + |seated|
      modifies this
      ensures |seated'| <= toSeat
      ensures seated' == Take(Filter(shortlist[..i + 1], MovesTest(failing)), toSeat)
      ensures seedLockUntil == ApplyLocks(locks0, seated', rolls, now)
      ensures LordsInTown(inTown') == lords + |seated'|
    {
      var h := shortlist[i];
      TakeStep(shortlist, i, failing, toSeat);
      seated', inTown' := seated, inTown;
      if h.id !in failing {
        ApplyLocksStep(locks0, seated, h, rolls, now);
        LockSeated(h, rolls[|seated|], now);
        seated' := seated + [h];
        inTown' := Enter(inTown);
      }
    }

    /**
     * The seating loop: the shortlisted heroes are moved in order until
     * `toSeat` are seated or a recount of the town finds ten lords; a hero
     * whose move throws is skipped, and each seated hero is locked.
     */
    method SeatShortlist(shortlist: seq<SeedHero>, heroesInTown: seq<Option<TownLord>>, lords: nat, toSeat: nat,
                         failing: set<string>, rolls: seq<real>, now: real) returns (seated: seq<SeedHero>)
      requires lords == LordsInTown(heroesInTown) && toSeat == ToSeat(lords) && |rolls| >= toSeat
      modifies this
      ensures seated == Seated(shortlist, failing, toSeat)
      ensures seedLockUntil == ApplyLocks(old(seedLockUntil), seated, rolls, now)
    {
      seated := [];
      ghost var locks0 := seedLockUntil;
      var inTown := heroesInTown;
      var i := 0;
      while i < |shortlist|
        invariant 0 <= i <= |shortlist|
        invariant |seated| <= toSeat
        invariant seated == Take(Filter(shortlist[..i], MovesTest(failing)), toSeat)
        invariant seedLockUntil == ApplyLocks(locks0, seated, rolls, now)
        invariant LordsInTown(inTown) == lords + |seated|
      {
        if |seated| >= toSeat {
          TakeSaturated(shortlist, i, failing, toSeat);
          break;
        }
        var recount := CountLords(inTown);
        RecountNeverBindsFirst(lords, |seated|);
        if recount >= TownNobleCap {
          break;
        }
        seated, inTown := SeatNext(shortlist, i, seated, inTown, lords, toSeat, failing, rolls, now, locks0);
        i := i + 1;
      }
      if i == |shortlist| {
        assert shortlist[..i] == shortlist;
      }
    }
  }

  /** `EnterSettlementAction` for a seated lord: the town holds one more hero without a party, and one more lord. */
  function Enter(inTown: seq<Option<TownLord>>): (r: seq<Option<TownLord>>)
    ensures LordsInTown(r) == LordsInTown(inTown) + 1
  {
    CountAppend(inTown, [Some(TownLord(true, true, false))], LordTest());
    inTown + [Some(TownLord(true, true, false))]
  }

  /** Below the quota, one more shortlisted hero extends the seated list by that hero, if its move succeeds. */
  lemma TakeStep(shortlist: seq<SeedHero>, i: nat, failing: set<string>, n: nat)
    requires i < |shortlist|
    requires |Take(Filter(shortlist[..i], MovesTest(failing)), n)| < n
    ensures Take(Filter(shortlist[..i + 1], MovesTest(failing)), n) ==
              Take(Filter(shortlist[..i], MovesTest(failing)), n) +
              (if shortlist[i].id !in failing then [shortlist[i]] else [])
  {
    FilterStep(shortlist, i, MovesTest(failing));
  }

  /** Locking one more seated hero updates that hero's lock only. */
  lemma ApplyLocksStep(locks: map<string, real>, seated: seq<SeedHero>, h: SeedHero, rolls: seq<real>, now: real)
    requires |seated| < |rolls|
    ensures ApplyLocks(locks, seated + [h], rolls, now) ==
              ApplyLocks(locks, seated, rolls, now)[h.id := now + LockDaysMin + (LockDaysMax - LockDaysMin) * rolls[|seated|]]
  {
    assert (seated + [h])[..|seated|] == seated;
  }

  /** One more element of the source extends the selection by that element, if kept. */
  lemma FilterStep<T>(s: seq<T>, i: nat, keep: T -> bool)
    requires i < |s|
    ensures Filter(s[..i + 1], keep) == Filter(s[..i], keep) + (if keep(s[i]) then [s[i]] else [])
  {
    assert s[..i + 1][..i] == s[..i];
  }

  /** Once `n` are selected from a prefix, the rest of the sequence adds nothing to the first `n`. */
  lemma TakeSaturated(shortlist: seq<SeedHero>, i: nat, failing: set<string>, n: nat)
    requires i <= |shortlist|
    requires |Take(Filter(shortlist[..i], MovesTest(failing)), n)| >= n
    ensures Take(Filter(shortlist[..i], MovesTest(failing)), n) == Take(Filter(shortlist, MovesTest(failing)), n)
  {
    assert shortlist == shortlist[..i] + shortlist[i..];
    FilterAppend(shortlist[..i], shortlist[i..], MovesTest(failing));
  }
}
