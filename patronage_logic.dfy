// The decision rules of noble patronage: which clan leader may send gold to
// which, how much, and how much goodwill a gift buys.

module PatronageLogic {
  import opened Common
  import opened HeroTraits

  const WindowDays: real := 30.0
  const GiftFloor: int := 50000
  const GiftMin: int := 10000
  const GiftMax: int := 60000
  const MaxGiftsPerDonorPerWindow: int := 2
  const MaxGiftsPerRecipientPerWindow: int := 1
  const MaxRelationPerWindow: int := 6
  const MaxRelation: int := 80
  const GiftDecayBlockDays: real := 60.0
  const GiftSoftDecayPerBlock: int := 1
  /** `int.MinValue`, the surplus reported for a missing clan. */
  const IntMinValue: int := -2147483648

  /** A clan as the patronage rules read it; `warPartyWages` holds each war party's wage, or nothing when it has no mobile party. */
  datatype ClanView = ClanView(id: string, gold: int, warPartyWages: seq<Option<int>>, leader: Option<HeroId>, kingdom: Option<string>)

  /** A hero as the patronage rules read it. */
  datatype Noble = Noble(id: HeroId, clan: Option<ClanView>, traits: TraitSnapshot,
                         isAlive: bool, isPrisoner: bool, isChild: bool, isDead: bool)

  /** The wages of the war parties that have a mobile party. */
  function WageSum(wages: seq<Option<int>>): int
  {
    if wages == [] then 0
    else WageSum(wages[..|wages| - 1]) + wages[|wages| - 1].GetOr(0)
  }

  /** With no negative wage, the sum is not negative. */
  lemma {:induction false} WageSumNonNegative(wages: seq<Option<int>>)
    requires forall i :: 0 <= i < |wages| && wages[i].Some? ==> wages[i].value >= 0
    ensures WageSum(wages) >= 0
  {
    if wages != [] {
      WageSumNonNegative(wages[..|wages| - 1]);
    }
  }

  function TotalWage(clan: Option<ClanView>): int
  {
    if clan.None? then 0 else WageSum(clan.value.warPartyWages)
  }

  /** `GetClanTotalWage`: the accumulation over the clan's war parties. */
  method GetClanTotalWage(clan: Option<ClanView>) returns (sum: int)
    ensures sum == TotalWage(clan)
    ensures clan.None? ==> sum == 0
  {
    if clan.None? {
      return 0;
    }
    var wages := clan.value.warPartyWages;
    sum := 0;
    var i := 0;
    while i < |wages|
      invariant 0 <= i <= |wages|
      invariant sum == WageSum(wages[..i])
    {
      assert wages[..i + 1][..i] == wages[..i];
      if wages[i].Some? {
        sum := sum + wages[i].value;
      }
      i := i + 1;
    }
    assert wages[..i] == wages;
  }

  /** What the clan keeps in reserve: the gift floor plus twenty days of wages. */
  function Reserve(clan: Option<ClanView>): int
  {
    GiftFloor + 20 * TotalWage(clan)
  }

  /** `GetClanSurplus`: gold beyond the reserve; `int.MinValue` for a missing clan. */
  function GetClanSurplus(clan: Option<ClanView>): (r: int)
    ensures clan.None? ==> r == IntMinValue
    ensures clan.Some? ==> r + Reserve(clan) == clan.value.gold
  {
    if clan.None? then IntMinValue else clan.value.gold - Reserve(clan)
  }

  /** `RecipientNeedsAid`: below the gift floor or living beyond the reserve. */
  function RecipientNeedsAid(clan: Option<ClanView>): (needs: bool)
    ensures clan.None? ==> !needs
    ensures clan.Some? && clan.value.gold < GiftFloor ==> needs
    ensures needs <==> clan.Some? && (clan.value.gold < GiftFloor || clan.value.gold < Reserve(clan))
  {
    clan.Some? && (clan.value.gold < GiftFloor || GetClanSurplus(clan) < 0)
  }

  /**
   * When no war party has a negative wage, the gold test adds nothing:
   * a clan needs aid exactly when its surplus is negative.
   */
  lemma NeedsAidIsDeficit(clan: ClanView)
    requires forall i :: 0 <= i < |clan.warPartyWages| && clan.warPartyWages[i].Some? ==> clan.warPartyWages[i].value >= 0
    ensures RecipientNeedsAid(Some(clan)) <==> GetClanSurplus(Some(clan)) < 0
  {
    WageSumNonNegative(clan.warPartyWages);
  }

  /**
   * `GetTraitMultiplier`: generous, needy-merciful, honourable-in-realm and
   * calculating recipients attract more; a calculating donor gives less.
   * The product is held to [0.8, 1.2].
   */
  function GetTraitMultiplier(donor: Noble, recipient: Noble, sameKingdom: bool): (m: real)
    ensures 0.8 <= m <= 1.2
  {
    var d := donor.traits;
    var r := recipient.traits;
    var m1 := if d.generosity > 0 then 1.25 else 1.0;
    var m2 := if d.calculating > 0 then m1 * 0.85 else m1;
    var m3 := if d.honor > 0 && !sameKingdom then m2 * 0.9 else m2;
    var m4 := if d.mercy > 0 && recipient.clan.Some? && recipient.clan.value.gold < GiftFloor then m3 * 1.1 else m3;
    var m5 := if r.generosity > 0 then m4 * 1.1 else m4;
    var m6 := if r.honor > 0 && sameKingdom then m5 * 1.1 else m5;
    var m7 := if r.honor > 0 && d.calculating > 0 then m6 * 0.9 else m6;
    var m8 := if r.calculating > 0 then m7 * 1.1 else m7;
    var m9 := if r.mercy > 0 && donor.clan.Some? && donor.clan.value.gold < GiftFloor then m8 * 1.1 else m8;
    Clamp(m9, 0.8, 1.2)
  }

  /** Two heroes with no positive trait leave the multiplier at 1. */
  lemma NeutralTraitMultiplier(donor: Noble, recipient: Noble, sameKingdom: bool)
    requires donor.traits == TraitSnapshot(0, 0, 0, 0, 0) && recipient.traits == TraitSnapshot(0, 0, 0, 0, 0)
    ensures GetTraitMultiplier(donor, recipient, sameKingdom) == 1.0
  {
  }

  /**
   * `CalculateRelationDelta`: `baseDelta` is the rounded `2·√(amount/20000)`;
   * scaled by the trait multiplier, held to at most 6 and truncated.
   */
  function CalculateRelationDelta(baseDelta: int, traitMultiplier: real): (r: int)
    ensures r <= MaxRelationPerWindow
    ensures baseDelta >= 0 && traitMultiplier >= 0.0 ==> r >= 0
  {
    var result := baseDelta as real * traitMultiplier;
    Truncate(Min(result, MaxRelationPerWindow as real))
  }

  /** `(int)(0.9f * donorGold)`: the richness bar for a recipient not in need. */
  function NinetyPercent(gold: int): int
  {
    Truncate(0.9 * gold as real)
  }

  /**
   * `ShouldDonorGift`: whether `donor` may send `amount` to `recipient`,
   * given the gifts already counted in the window and their relation.
   */
  predicate ShouldDonorGift(donor: Option<Noble>, recipient: Option<Noble>, giftsGivenInWindow: int,
                            recipientGiftsInWindow: int, currentRelation: int, amount: int): (approve: bool)
    ensures donor.None? || recipient.None? ==> !approve
    ensures approve ==> donor.value.id != recipient.value.id && donor.value.clan.Some? && recipient.value.clan.Some?
    ensures approve ==> donor.value.clan.value.gold - amount >= Reserve(donor.value.clan) &&
                        donor.value.clan.value.gold >= GiftFloor
    ensures approve ==> recipient.value.clan.value.gold <= donor.value.clan.value.gold ||
                        GetClanSurplus(recipient.value.clan) < 0
    ensures approve ==> RecipientNeedsAid(recipient.value.clan) ||
                        recipient.value.clan.value.gold < NinetyPercent(donor.value.clan.value.gold)
  {
    donor.Some? && recipient.Some? &&
    var d := donor.value;
    var r := recipient.value;
    d.clan.Some? && d.clan.value.gold >= GiftFloor &&
    r.clan.Some? &&
    !r.isPrisoner && !r.isChild && !r.isDead &&
    giftsGivenInWindow < MaxGiftsPerDonorPerWindow &&
    recipientGiftsInWindow < MaxGiftsPerRecipientPerWindow &&
    currentRelation < MaxRelation &&
    d.id != r.id &&
    r.clan.value.leader == Some(r.id) &&
    var donorGold := d.clan.value.gold;
    var recipGold := r.clan.value.gold;
    GetClanSurplus(d.clan) > 0 &&
    !(!RecipientNeedsAid(r.clan) && recipGold >= NinetyPercent(donorGold)) &&
    !(recipGold > donorGold && GetClanSurplus(r.clan) >= 0) &&
    donorGold - amount >= Reserve(d.clan) &&
    !d.isPrisoner && !d.isChild && !d.isDead
  }

  /**
   * What an approved gift guarantees: distinct heroes, the window caps
   * respected, the recipient leads its clan, the donor keeps its reserve
   * after paying, and gold never flows to a richer clan that is not in
   * deficit.
   */
  lemma ApprovedGift(donor: Noble, recipient: Noble, giftsGivenInWindow: int, recipientGiftsInWindow: int,
                     currentRelation: int, amount: int)
    requires ShouldDonorGift(Some(donor), Some(recipient), giftsGivenInWindow, recipientGiftsInWindow, currentRelation, amount)
    ensures donor.id != recipient.id
    ensures giftsGivenInWindow < 2 && recipientGiftsInWindow < 1 && currentRelation < 80
    ensures recipient.clan.Some? && recipient.clan.value.leader == Some(recipient.id)
    ensures GetClanSurplus(donor.clan) > 0
    ensures donor.clan.Some? && donor.clan.value.gold - amount >= Reserve(donor.clan)
    ensures !(recipient.clan.value.gold > donor.clan.value.gold && GetClanSurplus(recipient.clan) >= 0)
  {
  }

  /** `MBRandom.RandomInt(lo, hi)`: the draw `pick` mapped into [lo, hi). */
  function RandomInt(lo: int, hi: int, pick: nat): (r: int)
    requires lo < hi
    ensures lo <= r < hi
  {
    lo + pick % (hi - lo)
  }

  /** The generosity factor on the gift bounds: 1.25 for a generous donor. */
  function GenerosityMult(t: TraitSnapshot): (m: real)
    ensures m == 1.0 || m == 1.25
  {
    if t.generosity > 0 then 1.25 else 1.0
  }

  /** What the recipient still lacks to reach its cushion. */
  function RecipientNeed(recipient: Noble): (n: int)
    ensures n >= 0
  {
    var recipTarget := MaxInt(GiftFloor, 20 * TotalWage(recipient.clan) + GiftFloor / 2);
    var recipGold := if recipient.clan.Some? then recipient.clan.value.gold else 0;
    MaxInt(0, recipTarget - recipGold)
  }

  /**
   * `DetermineGiftAmount(donor, recipient)`: a draw between the scaled
   * minimum and a cap set by the donor's surplus and the recipient's need,
   * never beyond the scaled maximum; the scaled minimum when the cap
   * leaves no room.
   */
  function DetermineGiftAmount(donor: Noble, recipient: Noble, pick: nat): (r: int)
    ensures var m := GenerosityMult(donor.traits);
            Truncate(GiftMin as real * m) <= r <= Truncate(GiftMax as real * m)
    ensures var min := Truncate(GiftMin as real * GenerosityMult(donor.traits));
            r == min || (r <= MaxInt(0, GetClanSurplus(donor.clan)) && r <= RecipientNeed(recipient))
  {
    var m := GenerosityMult(donor.traits);
    var donorSurplus := MaxInt(0, GetClanSurplus(donor.clan));
    var min := Truncate(GiftMin as real * m);
    var max := Truncate(GiftMax as real * m);
    var hardCap := MaxInt(min, MinInt(max, MinInt(donorSurplus, RecipientNeed(recipient))));
    if hardCap <= min then min
    else
      var roll := RandomInt(min, MaxInt(min + 1, hardCap + 1), pick);
      MinInt(roll, hardCap)
  }
}
