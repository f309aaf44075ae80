// One remembered event of a noble: its kind, who was involved, when it
// happened, how strongly it is felt, and how that feeling fades.

module MemoryEntries {
  import opened Common
  import opened HeroTraits

  datatype MemoryType =
    | ReleasedAfterBattle | FavorRefused | TradeDeal | Insult | MilitaryAid | Betrayal
    | MarriageProposal | SupportInCouncil | RejectedCouncilProposal | GossipHeard
    | TournamentWin | TournamentLoss | MinorFavor | Murder | BattleVictory | BattleDefeat
    | LostSoldiersTo | ChildBorn | TournamentVictory | CowardiceInBattle | InfluencedBy
    | LostSettlement | SiegeStarted | BanditThreat | Imprisoned

  /** `MemoryTag`; `NoTag` is the source's `MemoryTag.None`. */
  datatype MemoryTag =
    | NoTag | Gossip | BattleVictoryTag | BattleDefeatTag | BetrayalTag | Political
    | LiegeMistreatment | TradeAgreement | Belief

  /**
   * `NobleMemoryEntry`. `kind` is the source's `Type`; `originalKind` is set
   * only on records of hearsay and names the kind of event that was heard.
   */
  datatype MemoryEntry = MemoryEntry(
    kind: MemoryType,
    originalKind: Option<MemoryType>,
    source: Option<HeroId>,
    target: Option<HeroId>,
    timestamp: real,
    weight: real,
    notes: string,
    tags: set<MemoryTag>,
    decayRate: real,
    neverForget: bool,
    repeatCount: int)

  predicate IsPermanentKind(kind: MemoryType)
  {
    kind == Betrayal || kind == Murder || kind == ChildBorn
  }

  /**
   * The constructor: stamps the record with the current day, one hearing,
   * no tags, and picks the fading behaviour from the kind.
   */
  function NewEntry(kind: MemoryType, source: Option<HeroId>, target: Option<HeroId>,
                    weight: real, notes: string, now: real): (e: MemoryEntry)
    ensures e.kind == kind && e.originalKind == None
    ensures e.source == source && e.target == target
    ensures e.weight == weight && e.notes == notes
    ensures e.timestamp == now && e.repeatCount == 1 && e.tags == {}
    ensures e.neverForget <==> IsPermanentKind(kind)
    ensures kind == TournamentLoss || kind == MinorFavor ==> e.decayRate == 0.05
    ensures kind == TradeDeal || kind == TournamentWin ==> e.decayRate == 0.025
    ensures e.decayRate == 0.025 || e.decayRate == 0.03 || e.decayRate == 0.05
    ensures !(kind in {TournamentLoss, MinorFavor, TradeDeal, TournamentWin}) ==> e.decayRate == 0.03
  {
    var rate := match kind
      case TournamentLoss => 0.05
      case MinorFavor => 0.05
      case TradeDeal => 0.025
      case TournamentWin => 0.025
      case _ => 0.03;
    MemoryEntry(kind, None, source, target, now, weight, notes, {}, rate, IsPermanentKind(kind), 1)
  }

  /** How much one decay step takes off the weight of `e` for a holder with traits `t`. */
  function EffectiveDecay(e: MemoryEntry, t: TraitSnapshot): (d: real)
    ensures e.decayRate > 0.0 ==> d > 0.0
    ensures e.decayRate >= 0.0 ==> 0.765 * e.decayRate <= d <= 1.375 * e.decayRate
  {
    e.decayRate * GetDecayModifier(t)
  }

  /**
   * `DecayWeight`, as written: unless the record is permanent, the weight
   * moves by one decay step toward zero (without stopping at zero) and is
   * snapped to zero once it is below 0.001 in magnitude. Nothing else changes.
   */
  function DecayWeight(e: MemoryEntry, t: TraitSnapshot): (r: MemoryEntry)
    ensures r == e.(weight := r.weight)
    ensures e.neverForget ==> r == e
    ensures !e.neverForget ==> r.weight == 0.0 || Abs(r.weight) >= 0.001
    ensures !e.neverForget && e.weight > 0.0 && Abs(e.weight - EffectiveDecay(e, t)) >= 0.001 ==>
              r.weight == e.weight - EffectiveDecay(e, t)
    ensures !e.neverForget && e.weight < 0.0 && Abs(e.weight + EffectiveDecay(e, t)) >= 0.001 ==>
              r.weight == e.weight + EffectiveDecay(e, t)
    ensures e.weight == 0.0 ==> r.weight == 0.0
  {
    if e.neverForget then e
    else
      var step := EffectiveDecay(e, t);
      var w := if e.weight > 0.0 then e.weight - step
               else if e.weight < 0.0 then e.weight + step
               else e.weight;
      e.(weight := if Abs(w) < 0.001 then 0.0 else w)
  }

  /**
   * When a step does not cross zero, decay never increases how strongly the
   * memory is felt and never changes its sign.
   */
  lemma DecayShrinksWithoutOvershoot(e: MemoryEntry, t: TraitSnapshot)
    requires e.decayRate >= 0.0
    requires Abs(e.weight) >= EffectiveDecay(e, t)
    ensures Abs(DecayWeight(e, t).weight) <= Abs(e.weight)
    ensures e.weight > 0.0 ==> DecayWeight(e, t).weight >= 0.0
    ensures e.weight < 0.0 ==> DecayWeight(e, t).weight <= 0.0
  {
  }

  /**
   * The step does not stop at zero: a small positive memory turns into a
   * larger negative one (0.01 becomes -0.02 with rate 0.03 and a neutral
   * holder), so its magnitude grows and its valence flips.
   */
  lemma DecayOvershootFlipsSign()
    ensures var t := TraitSnapshot(0, 0, 0, 0, 0);
            var e := MemoryEntry(Insult, None, None, None, 0.0, 0.01, "", {}, 0.03, false, 1);
            DecayWeight(e, t).weight == -0.02 && Abs(DecayWeight(e, t).weight) > Abs(e.weight)
  {
    var t := TraitSnapshot(0, 0, 0, 0, 0);
    assert GetDecayModifier(t) == 1.0;
  }

  /**
   * The evidently intended decay: the weight moves toward zero by one step
   * and stops there. The daily tick of `Society` applies this step in place
   * of the source's `DecayWeight`, whose overshoot
   * `DecayOvershootFlipsSign` exhibits.
   */
  function DecayWeightToZero(e: MemoryEntry, t: TraitSnapshot): (r: MemoryEntry)
    ensures r == e.(weight := r.weight)
    ensures e.neverForget ==> r == e
    ensures e.decayRate >= 0.0 ==> Abs(r.weight) <= Abs(e.weight)
    ensures e.weight >= 0.0 ==> r.weight >= 0.0
    ensures e.weight <= 0.0 ==> r.weight <= 0.0
    ensures !e.neverForget && e.decayRate >= 0.0 && Abs(e.weight) >= EffectiveDecay(e, t) + 0.001 ==>
              Abs(r.weight) == Abs(e.weight) - EffectiveDecay(e, t)
    ensures !e.neverForget ==> r.weight == 0.0 || Abs(r.weight) >= 0.001
  {
    if e.neverForget then e
    else
      var step := EffectiveDecay(e, t);
      var w := if e.weight > 0.0 then Max(0.0, e.weight - step)
               else if e.weight < 0.0 then Min(0.0, e.weight + step)
               else e.weight;
      e.(weight := if Abs(w) < 0.001 then 0.0 else w)
  }

  /**
   * `IsExpired`: a non-permanent record expires once the days since it was
   * stamped, scaled by the holder's modifier and the record's rate, exceed 1.
   */
  function IsExpired(e: MemoryEntry, t: TraitSnapshot, now: real): (expired: bool)
    ensures e.neverForget ==> !expired
    ensures e.decayRate >= 0.0 && now <= e.timestamp ==> !expired
    ensures e.decayRate >= 0.0 && (now - e.timestamp) * 1.375 * e.decayRate <= 1.0 ==> !expired
    ensures e.decayRate >= 0.0 && !e.neverForget && (now - e.timestamp) * 0.765 * e.decayRate > 1.0 ==> expired
  {
    ExpiryBounds(now - e.timestamp, GetDecayModifier(t), e.decayRate);
    !e.neverForget && (now - e.timestamp) * GetDecayModifier(t) * e.decayRate > 1.0
  }

  /**
   * The scaled age `d * m * r` with a modifier in [0.765, 1.375] lies
   * between the ages scaled by the two extreme modifiers.
   */
  lemma ExpiryBounds(d: real, m: real, r: real)
    requires 0.765 <= m <= 1.375
    ensures r >= 0.0 && d <= 0.0 ==> d * m * r <= 0.0
    ensures r >= 0.0 && d * 1.375 * r <= 1.0 ==> d * m * r <= 1.0
    ensures r >= 0.0 && d * 0.765 * r > 1.0 ==> d * m * r > 1.0
  {
    if r >= 0.0 && d <= 0.0 {
      assert d * (m * r) <= 0.0;
    }
    if r >= 0.0 && d > 0.0 {
      var x := d * r;
      assert x >= 0.0;
      assert d * m * r == m * x && d * 0.765 * r == 0.765 * x && d * 1.375 * r == 1.375 * x;
      ProductNonNegative(m - 0.765, x);
      ProductNonNegative(1.375 - m, x);
      assert (m - 0.765) * x == m * x - 0.765 * x && (1.375 - m) * x == 1.375 * x - m * x;
    }
  }

  lemma ProductNonNegative(a: real, b: real)
    requires a >= 0.0 && b >= 0.0
    ensures a * b >= 0.0
  {
  }

  /** Once expired, a record stays expired as time goes on. */
  lemma ExpiryIsPermanent(e: MemoryEntry, t: TraitSnapshot, now: real, later: real)
    requires e.decayRate >= 0.0 && now <= later
    requires IsExpired(e, t, now)
    ensures IsExpired(e, t, later)
  {
    var m := GetDecayModifier(t);
    assert (later - e.timestamp) * m * e.decayRate >= (now - e.timestamp) * m * e.decayRate by {
      assert later - e.timestamp >= now - e.timestamp;
      assert m * e.decayRate >= 0.0;
      assert (later - e.timestamp) * (m * e.decayRate) >= (now - e.timestamp) * (m * e.decayRate);
    }
  }

  /**
   * A fresh record of an ordinary kind expires at the latest 1/(0.765 * 0.025)
   * days after it was made, that is within 53 days; a permanent one never does.
   */
  lemma FreshEntryLifetime(kind: MemoryType, source: Option<HeroId>, target: Option<HeroId>,
                           weight: real, notes: string, born: real, t: TraitSnapshot, now: real)
    ensures var e := NewEntry(kind, source, target, weight, notes, born);
            (IsPermanentKind(kind) ==> !IsExpired(e, t, now)) &&
            (!IsPermanentKind(kind) && now >= born + 53.0 ==> IsExpired(e, t, now))
  {
    var e := NewEntry(kind, source, target, weight, notes, born);
    if !IsPermanentKind(kind) && now >= born + 53.0 {
      var m := GetDecayModifier(t);
      var age := now - born;
      assert m * e.decayRate >= 0.765 * 0.025;
      assert age * (m * e.decayRate) >= 53.0 * (0.765 * 0.025);
      assert (now - e.timestamp) * m * e.decayRate == age * (m * e.decayRate);
    }
  }
}
