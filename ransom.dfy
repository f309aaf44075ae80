// Dynamic ransom: the game's base ransom for a captive, scaled by the
// wealth of the captive's clan and by the captor's character, held within
// a band around the base; and the AI's decisions on a ransom offer.

module RansomLogic {
  import opened Common
  import opened HeroTraits
  import opened PatronageLogic

  const FallbackRansom: int := 5000
  const PoorCaptorGold: int := 30000
  const WealthAlpha: real := 0.35
  const WealthCap: real := 2.25

  /** The source's own `Clamp`: the lower bound is tested first. */
  function ClampF(v: real, min: real, max: real): (r: real)
    ensures min <= max ==> min <= r <= max
    ensures min <= v <= max ==> r == v
  {
    if v < min then min else if v > max then max else v
  }

  lemma ClampFMonotone(v1: real, v2: real, min: real, max: real)
    requires v1 <= v2 && min <= max
    ensures ClampF(v1, min, max) <= ClampF(v2, min, max)
  {
  }

  /** `Lerp(a, b, t)`. */
  function Lerp(a: real, b: real, t: real): real
  {
    a + (b - a) * t
  }

  /**
   * `CalculateWealthMultiplier`: `1 + alpha·log10(gold / 10000)` for the
   * captive clan's gold, counted as at least 10000 (and as 0 without a
   * clan), held to [1, cap]. `log10` stands for `Math.Log10`; the bound
   * holds whatever it returns.
   */
  function CalculateWealthMultiplier(captiveClan: Option<ClanView>, log10: real -> real,
                                     alpha: real, cap: real): (m: real)
    ensures 1.0 <= cap ==> 1.0 <= m <= cap
  {
    WealthCurve(log10(GoldRatio(captiveClan)), alpha, cap)
  }

  /** The clan's gold over 10000, the gold counted as at least 10000 and as 0 without a clan. */
  function GoldRatio(clan: Option<ClanView>): (q: real)
    ensures q >= 1.0
  {
    var clanGold := if clan.Some? then clan.value.gold else 0;
    MaxInt(clanGold, 10000) as real / 10000.0
  }

  /** The wealth curve on the logarithm of the gold ratio, held to [1, cap]. */
  function WealthCurve(logRatio: real, alpha: real, cap: real): (m: real)
    ensures 1.0 <= cap ==> 1.0 <= m <= cap
  {
    ClampF(1.0 + alpha * logRatio, 1.0, cap)
  }

  lemma ScaleMonotone(k: real, x: real, y: real)
    requires k >= 0.0 && x <= y
    ensures k * x <= k * y
  {
    assert k * y - k * x == k * (y - x);
  }

  /** A richer captive clan (a larger logarithm) never lowers the wealth multiplier. */
  lemma WealthCurveMonotone(l1: real, l2: real, alpha: real, cap: real)
    requires alpha >= 0.0 && 1.0 <= cap && l1 <= l2
    ensures WealthCurve(l1, alpha, cap) <= WealthCurve(l2, alpha, cap)
  {
    ScaleMonotone(alpha, l1, l2);
    ClampFMonotone(1.0 + alpha * l1, 1.0 + alpha * l2, 1.0, cap);
  }

  /**
   * `GetTraitContextMultiplier`: a calculating or ungenerous captor asks
   * 10% more, an honourable or merciful one 5% less, a captor of the
   * captive's kingdom 10% less, and the relation shades it by up to 2%
   * either way. Without either hero it is 1.
   */
  function GetTraitContextMultiplier(captor: Option<Noble>, captive: Option<Noble>, relation: int): (m: real)
    ensures captor.None? || captive.None? ==> m == 1.0
    ensures -100 <= relation <= 100 ==> 0.8379 <= m <= 1.122
  {
    if captor.None? || captive.None? then 1.0
    else
      var t := captor.value.traits;
      var m1 := if t.calculating > 0 || t.generosity < 0 then 1.10 else 1.0;
      var m2 := if t.honor > 0 || t.mercy > 0 then m1 * 0.95 else m1;
      var captorKingdom := if captor.value.clan.Some? then captor.value.clan.value.kingdom else None;
      var captiveKingdom := if captive.value.clan.Some? then captive.value.clan.value.kingdom else None;
      var m3 := if captorKingdom.Some? && captorKingdom == captiveKingdom then m2 * 0.90 else m2;
      var shade := Lerp(0.98, 1.02, (relation as real / 100.0 + 1.0) / 2.0);
      m3 * shade
  }

  /** A captor with no marked trait, of another realm and indifferent to the captive, asks the plain price. */
  lemma NeutralCaptorMultiplier(captor: Noble, captive: Noble)
    requires captor.traits == TraitSnapshot(0, 0, 0, 0, 0)
    requires captor.clan.None?
    ensures GetTraitContextMultiplier(Some(captor), Some(captive), 0) == 1.0
  {
  }

  /** The ransom before rounding: the base scaled by the multipliers' product, held to [0.85·base, 2.25·base]. */
  function ClampedRansom(baseRansom: int, mult: real): (v: real)
    ensures baseRansom >= 0 ==> 0.85 * baseRansom as real <= v <= baseRansom as real * 2.25
  {
    var ransom := baseRansom as real * mult;
    ClampF(ransom, 0.85 * baseRansom as real, baseRansom as real * 2.25)
  }

  /** Without wealth or character to scale it, the ransom is the base. */
  lemma PlainRansomIsBase(baseRansom: int)
    requires baseRansom >= 0
    ensures ClampedRansom(baseRansom, 1.0) == baseRansom as real
  {
  }

  /** A larger multiplier never lowers the ransom, all else equal. */
  lemma ClampedRansomMonotone(baseRansom: int, m1: real, m2: real)
    requires baseRansom >= 0 && m1 <= m2
    ensures ClampedRansom(baseRansom, m1) <= ClampedRansom(baseRansom, m2)
  {
    var b := baseRansom as real;
    ScaleMonotone(b, m1, m2);
    ClampFMonotone(b * m1, b * m2, 0.85 * b, b * 2.25);
  }

  /**
   * The base ransom: what the game's ransom model returns for the captive
   * (`invoked`), or 5000 when no ransom method was resolved or the call failed.
   */
  function BaseRansom(methodFound: bool, invoked: Option<int>): (b: int)
    ensures !methodFound || invoked.None? ==> b == FallbackRansom
  {
    if methodFound && invoked.Some? then invoked.value else FallbackRansom
  }

  /**
   * `CalculateDynamicRansom`: 5000 without either hero; otherwise the
   * clamped ransom rounded half to even, so within half a coin of a value
   * in [0.85·base, 2.25·base].
   */
  function DynamicRansom(captive: Option<Noble>, captor: Option<Noble>, methodFound: bool, invoked: Option<int>,
                         log10: real -> real, relation: int): (r: int)
    ensures captive.None? || captor.None? ==> r == FallbackRansom
    ensures captive.Some? && captor.Some? ==>
              var b := BaseRansom(methodFound, invoked);
              b >= 0 ==> 0.85 * b as real - 0.5 <= r as real <= b as real * 2.25 + 0.5
  {
    if captive.None? || captor.None? then FallbackRansom
    else
      var b := BaseRansom(methodFound, invoked);
      var wealthMult := CalculateWealthMultiplier(captive.value.clan, log10, WealthAlpha, WealthCap);
      var traitMult := GetTraitContextMultiplier(captor, captive, relation);
      var v := ClampedRansom(b, wealthMult * traitMult);
      RoundHalfToEven(v)
  }

  /**
   * The reflection cache of `CalculateDynamicRansom`: whether a ransom
   * method is held, and the model type it was resolved for. `resolve`
   * stands for the reflective lookup on a model type.
   */
  class RansomMethodCache {
    var methodFound: bool
    var cachedModelType: Option<string>

    constructor()
      ensures !methodFound && cachedModelType.None?
    {
      methodFound := false;
      cachedModelType := None;
    }

    /** A held method is the one the lookup gives for the cached model type. */
    ghost predicate Coherent(resolve: string -> bool)
      reads this
    {
      methodFound ==> cachedModelType.Some? && resolve(cachedModelType.value)
    }

    /**
     * `CalculateDynamicRansom` with its cache: the lookup is redone when
     * no method is held or the model type changed. The cache never changes
     * the result: it is the ransom for the lookup on the current model type.
     */
    method CalculateDynamicRansom(captive: Option<Noble>, captor: Option<Noble>, modelType: string,
                                  resolve: string -> bool, invoked: Option<int>,
                                  log10: real -> real, relation: int) returns (r: int)
      requires Coherent(resolve)
      modifies this
      ensures Coherent(resolve)
      ensures r == DynamicRansom(captive, captor, resolve(modelType), invoked, log10, relation)
      ensures captive.None? || captor.None? ==> unchanged(this)
      ensures captive.Some? && captor.Some? ==> cachedModelType == Some(modelType) && methodFound == resolve(modelType)
    {
      if captive.None? || captor.None? {
        return FallbackRansom;
      }
      if !methodFound || cachedModelType != Some(modelType) {
        methodFound := resolve(modelType);
        cachedModelType := Some(modelType);
      }
      r := DynamicRansom(captive, captor, methodFound, invoked, log10, relation);
    }
  }

  /** `CaptorShouldAccept`: an offer of at least 85% of the ask, or any offer to a captor clan under 30000 gold. */
  function CaptorShouldAccept(offer: int, ask: int, captorClan: Option<ClanView>): (accept: bool)
    ensures captorClan.Some? && captorClan.value.gold < PoorCaptorGold ==> accept
    ensures 0 <= ask <= offer ==> accept
    ensures captorClan.None? || captorClan.value.gold >= PoorCaptorGold ==> (accept <==> 100 * offer >= 85 * ask)
  {
    offer as real >= 0.85 * ask as real || (captorClan.Some? && captorClan.value.gold < PoorCaptorGold)
  }

  /** An accepted offer stays accepted when raised; the full ask is accepted whenever it is not negative. */
  lemma AcceptIsMonotone(offer: int, higher: int, ask: int, captorClan: Option<ClanView>)
    requires offer <= higher
    ensures CaptorShouldAccept(offer, ask, captorClan) ==> CaptorShouldAccept(higher, ask, captorClan)
    ensures ask >= 0 ==> CaptorShouldAccept(ask, ask, captorClan)
  {
  }

  /** `CaptiveShouldPay`: the captive's clan pays only with more gold than the ransom plus twenty days of wages. */
  function CaptiveShouldPay(captive: Noble, ransomAmount: int): (pay: bool)
    ensures captive.clan.None? ==> !pay
    ensures pay ==> captive.clan.value.gold - ransomAmount > 20 * TotalWage(captive.clan)
    ensures pay && TotalWage(captive.clan) >= 0 ==> captive.clan.value.gold > ransomAmount
  {
    var wageBuffer := 20 * TotalWage(captive.clan);
    captive.clan.Some? && captive.clan.value.gold > ransomAmount + wageBuffer
  }

  /**
   * A paying clan keeps more than twenty days of its wages after paying,
   * and a clan that would pay a ransom would pay any smaller one.
   */
  lemma PayingKeepsWageBuffer(captive: Noble, ransomAmount: int, smaller: int)
    requires CaptiveShouldPay(captive, ransomAmount)
    requires smaller <= ransomAmount
    ensures captive.clan.value.gold - ransomAmount > 20 * TotalWage(captive.clan)
    ensures CaptiveShouldPay(captive, smaller)
  {
  }

  /** An installment plan: paid now, and paid later. */
  datatype Plan = Plan(upfront: int, deferred: int)

  /**
   * `GetInstallmentPlan`: a captor clan under 30000 gold gets half now
   * (`ransom / 2`, truncated) and the rest later; any other captor,
   * a missing clan included, is paid in full now.
   */
  function GetInstallmentPlan(captorClan: Option<ClanView>, ransom: int): (p: Plan)
    ensures p.upfront + p.deferred == ransom
    ensures captorClan.Some? && captorClan.value.gold < PoorCaptorGold ==>
              p.upfront == Half(ransom) && (ransom >= 0 ==> 0 <= p.deferred - p.upfront <= 1)
    ensures !(captorClan.Some? && captorClan.value.gold < PoorCaptorGold) ==> p == Plan(ransom, 0)
  {
    if captorClan.Some? && captorClan.value.gold < PoorCaptorGold then
      var upfront := Half(ransom);
      Plan(upfront, ransom - upfront)
    else Plan(ransom, 0)
  }

  /** A poor captor accepts whatever is offered and is paid in installments. */
  lemma PoorCaptorTakesInstallments(offer: int, ask: int, captorClan: ClanView, ransom: int)
    requires captorClan.gold < PoorCaptorGold
    ensures CaptorShouldAccept(offer, ask, Some(captorClan))
    ensures GetInstallmentPlan(Some(captorClan), ransom).upfront == Half(ransom)
  {
  }
}
