// The five personality traits a hero carries, and the decay-speed modifier
// they give to that hero's memories.

module HeroTraits {
  import opened Common

  datatype Trait = Calculating | Generosity | Honor | Mercy | Valor

  /** `HeroTraitSnapshot`: the five trait levels of one hero at one moment. */
  datatype TraitSnapshot = TraitSnapshot(calculating: int, generosity: int, honor: int, mercy: int, valor: int)

  function Level(t: TraitSnapshot, which: Trait): int
  {
    match which
    case Calculating => t.calculating
    case Generosity => t.generosity
    case Honor => t.honor
    case Mercy => t.mercy
    case Valor => t.valor
  }

  /**
   * `GetHeroTraits`: reads the five levels from the game's trait query
   * (`level`) and copies them unchanged.
   */
  function GetHeroTraits(level: Trait -> int): (t: TraitSnapshot)
    ensures forall which :: Level(t, which) == level(which)
  {
    TraitSnapshot(level(Calculating), level(Generosity), level(Honor), level(Mercy), level(Valor))
  }

  /**
   * `GetDecayModifier`: merciful heroes let memories fade faster,
   * dishonourable and generous ones slower, calculating ones faster again.
   * The factors multiply.
   */
  function GetDecayModifier(t: TraitSnapshot): (m: real)
    ensures 0.765 <= m <= 1.375
    ensures t.mercy <= 0 && t.honor >= 0 && t.generosity <= 0 && t.calculating <= 0 ==> m == 1.0
    ensures t.mercy > 0 && t.honor >= 0 && t.generosity <= 0 && t.calculating <= 0 ==> m == 1.25
  {
    var mercy := if t.mercy > 0 then 1.25 else 1.0;
    var honor := if t.honor < 0 then 0.85 else 1.0;
    var generosity := if t.generosity > 0 then 0.9 else 1.0;
    var calculating := if t.calculating > 0 then 1.1 else 1.0;
    DecayFactorsBounded(mercy, honor, generosity, calculating);
    mercy * honor * generosity * calculating
  }

  /**
   * Each trait contributes its own factor: a positive mercy multiplies the
   * modifier by 1.25, a negative honour by 0.85, a positive generosity by
   * 0.9 and a positive calculating by 1.1, compared with the same hero
   * without that trait; valour plays no part.
   */
  lemma DecayModifierFactors(t: TraitSnapshot, v: int)
    ensures t.mercy > 0 ==> GetDecayModifier(t) == 1.25 * GetDecayModifier(t.(mercy := 0))
    ensures t.honor < 0 ==> GetDecayModifier(t) == 0.85 * GetDecayModifier(t.(honor := 0))
    ensures t.generosity > 0 ==> GetDecayModifier(t) == 0.9 * GetDecayModifier(t.(generosity := 0))
    ensures t.calculating > 0 ==> GetDecayModifier(t) == 1.1 * GetDecayModifier(t.(calculating := 0))
    ensures GetDecayModifier(t.(valor := v)) == GetDecayModifier(t)
  {
  }

  lemma DecayFactorsBounded(a: real, b: real, c: real, d: real)
    requires a == 1.0 || a == 1.25
    requires b == 1.0 || b == 0.85
    requires c == 1.0 || c == 0.9
    requires d == 1.0 || d == 1.1
    ensures 0.765 <= a * b * c * d <= 1.375
  {
  }

  /** `GetTraitValue`: the level of one trait, or 0 for a missing hero. */
  function GetTraitValue(hero: Option<HeroId>, traitsOf: HeroId -> TraitSnapshot, which: Trait): (v: int)
    ensures hero.None? ==> v == 0
    ensures hero.Some? ==> v == Level(traitsOf(hero.value), which)
  {
    match hero
    case None => 0
    case Some(h) => Level(traitsOf(h), which)
  }
}
