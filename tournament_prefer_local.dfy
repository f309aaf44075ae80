// The tournament participant reordering: lords staying in the town who are
// already on the game's participant list are moved to its front, each group
// keeping its order. Nobody is added.

module TournamentPreferLocal {
  import opened Common

  /**
   * A participant as the reordering sees it: its `StringId`, or nothing for
   * a missing character or id.
   */
  type Participant = Option<string>

  /** A character of a hero in the town. */
  datatype CharacterView = CharacterView(id: Option<string>, isPlayer: bool)

  /** A hero in the town without a party. */
  datatype TownHero = TownHero(isLord: bool, isAlive: bool, isPrisoner: bool, age: real,
                               character: Option<CharacterView>)

  /** A usable id: present and not empty. */
  predicate HasId(c: Participant)
  {
    c.Some? && c.value != ""
  }

  /** The ids of the participants on the list. */
  function IdsOf(vanilla: seq<Participant>): (ids: set<string>)
    ensures forall id :: id in ids <==> exists c :: c in vanilla && HasId(c) && c.value == id
  {
    if vanilla == [] then {}
    else
      var c := vanilla[|vanilla| - 1];
      IdsOf(vanilla[..|vanilla| - 1]) + (if HasId(c) then {c.value} else {})
  }

  /** A hero of the town who may be preferred: an adult living free lord, the player only when invited. */
  predicate LocalEligible(h: TownHero, includePlayer: bool)
  {
    h.isLord && h.isAlive && !h.isPrisoner && h.age >= 18.0 &&
    !(!includePlayer && h.character.Some? && h.character.value.isPlayer)
  }

  /** `h.CharacterObject?.StringId`. */
  function CharacterId(h: TownHero): Participant
  {
    if h.character.Some? then h.character.value.id else None
  }

  /** The ids of the eligible town heroes that are already on the list. */
  function LocalIds(heroes: seq<Option<TownHero>>, vanillaIds: set<string>, includePlayer: bool): (ids: set<string>)
    ensures ids <= vanillaIds
    ensures forall id :: id in ids <==>
              id in vanillaIds &&
              exists h :: h in heroes && h.Some? && LocalEligible(h.value, includePlayer) &&
                          HasId(CharacterId(h.value)) && CharacterId(h.value).value == id
  {
    if heroes == [] then {}
    else
      var h := heroes[|heroes| - 1];
      var rest := LocalIds(heroes[..|heroes| - 1], vanillaIds, includePlayer);
      assert forall x :: x in heroes <==> x in heroes[..|heroes| - 1] || x == h;
      if h.Some? && LocalEligible(h.value, includePlayer) && HasId(CharacterId(h.value)) &&
         CharacterId(h.value).value in vanillaIds
      then rest + {CharacterId(h.value).value}
      else rest
  }

  /** Whether a participant is one of the preferred locals. */
  function IsLocal(locals: set<string>): Participant -> bool
  {
    c => HasId(c) && c.value in locals
  }

  /** Whether a participant with an id is not one of the preferred locals. */
  function IsOther(locals: set<string>): Participant -> bool
  {
    c => HasId(c) && c.value !in locals
  }

  /** The reordered list: the locals in their order, then the others in theirs. */
  function Reordered(vanilla: seq<Participant>, locals: set<string>): seq<Participant>
  {
    Filter(vanilla, IsLocal(locals)) + Filter(vanilla, IsOther(locals))
  }

  /**
   * `Postfix`: the list is left as it is without a town, without a list,
   * for an empty list and when no eligible local is on it; otherwise it
   * is reordered.
   */
  function PreferLocals(result: Option<seq<Participant>>, heroes: Option<seq<Option<TownHero>>>,
                        includePlayer: bool): (r: Option<seq<Participant>>)
    ensures heroes.None? || result.None? || result.value == [] ==> r == result
    ensures r.Some? <==> result.Some?
  {
    if heroes.None? || result.None? || result.value == [] then result
    else
      var locals := LocalIds(heroes.value, IdsOf(result.value), includePlayer);
      if locals == {} then result
      else Some(Reordered(result.value, locals))
  }

  /** Every local comes before every other participant in the reordered list. */
  lemma LocalsFirst(vanilla: seq<Participant>, locals: set<string>)
    ensures var r := Reordered(vanilla, locals);
            var k := |Filter(vanilla, IsLocal(locals))|;
            (forall i :: 0 <= i < k ==> HasId(r[i]) && r[i].value in locals) &&
            (forall i :: k <= i < |r| ==> HasId(r[i]) && r[i].value !in locals)
  {
    var a := Filter(vanilla, IsLocal(locals));
    var b := Filter(vanilla, IsOther(locals));
    var r := a + b;
    forall i | 0 <= i < |a|
      ensures HasId(r[i]) && r[i].value in locals
    {
      assert r[i] == a[i] && a[i] in a;
    }
    forall i | |a| <= i < |r|
      ensures HasId(r[i]) && r[i].value !in locals
    {
      assert r[i] == b[i - |a|] && b[i - |a|] in b;
    }
  }

  /**
   * Nothing is added and nothing with an id is lost: the reordered list
   * holds exactly the participants with an id, each as often as before.
   */
  lemma {:induction false} ReorderedIsPermutation(vanilla: seq<Participant>, locals: set<string>)
    ensures multiset(Reordered(vanilla, locals)) == multiset(Filter(vanilla, HasIdTest()))
  {
    if vanilla != [] {
      var init := vanilla[..|vanilla| - 1];
      ReorderedIsPermutation(init, locals);
    }
  }

  /** `HasId` as a test for `Filter`. */
  function HasIdTest(): Participant -> bool
  {
    c => HasId(c)
  }

  /** A selection that keeps nothing is empty. */
  lemma {:induction false} FilterNone<T>(s: seq<T>, keep: T -> bool)
    requires forall x :: x in s ==> !keep(x)
    ensures Filter(s, keep) == []
  {
    if s != [] {
      FilterNone(s[..|s| - 1], keep);
    }
  }

  /** Reordering an already reordered list changes nothing. */
  lemma ReorderedIdempotent(vanilla: seq<Participant>, locals: set<string>)
    ensures Reordered(Reordered(vanilla, locals), locals) == Reordered(vanilla, locals)
  {
    var local, other := IsLocal(locals), IsOther(locals);
    var a := Filter(vanilla, local);
    var b := Filter(vanilla, other);
    assert Filter(a + b, local) == a by {
      FilterAppend(a, b, local);
      FilterAll(a, local);
      FilterNone(b, local);
    }
    assert Filter(a + b, other) == b by {
      FilterAppend(a, b, other);
      FilterNone(a, other);
      FilterAll(b, other);
    }
  }

  /** The first pass: the ids of the list, into a set. */
  method CollectVanillaIds(vanilla: seq<Participant>) returns (ids: set<string>)
    ensures ids == IdsOf(vanilla)
  {
    ids := {};
    var i := 0;
    while i < |vanilla|
      invariant 0 <= i <= |vanilla|
      invariant ids == IdsOf(vanilla[..i])
    {
      assert vanilla[..i + 1][..i] == vanilla[..i];
      var c := vanilla[i];
      if HasId(c) {
        ids := ids + {c.value};
      }
      i := i + 1;
    }
    assert vanilla[..i] == vanilla;
  }

  /** The second pass: the eligible town heroes already on the list. */
  method CollectLocalIds(heroes: seq<Option<TownHero>>, vanillaIds: set<string>, includePlayer: bool)
    returns (ids: set<string>)
    ensures ids == LocalIds(heroes, vanillaIds, includePlayer)
  {
    ids := {};
    var i := 0;
    while i < |heroes|
      invariant 0 <= i <= |heroes|
      invariant ids == LocalIds(heroes[..i], vanillaIds, includePlayer)
    {
      assert heroes[..i + 1][..i] == heroes[..i];
      var h := heroes[i];
      if h.Some? && LocalEligible(h.value, includePlayer) {
        var id := CharacterId(h.value);
        if HasId(id) && id.value in vanillaIds {
          ids := ids + {id.value};
        }
      }
      i := i + 1;
    }
    assert heroes[..i] == heroes;
  }

  /** The two reordering passes: locals first, then the others, skipping entries without an id. */
  method Reorder(vanilla: seq<Participant>, locals: set<string>) returns (reordered: seq<Participant>)
    ensures reordered == Reordered(vanilla, locals)
  {
    reordered := [];
    var i := 0;
    while i < |vanilla|
      invariant 0 <= i <= |vanilla|
      invariant reordered == Filter(vanilla[..i], IsLocal(locals))
    {
      assert vanilla[..i + 1][..i] == vanilla[..i];
      var c := vanilla[i];
      if HasId(c) && c.value in locals {
        reordered := reordered + [c];
      }
      i := i + 1;
    }
    assert vanilla[..i] == vanilla;
    ghost var front := reordered;
    i := 0;
    while i < |vanilla|
      invariant 0 <= i <= |vanilla|
      invariant reordered == front + Filter(vanilla[..i], IsOther(locals))
    {
      assert vanilla[..i + 1][..i] == vanilla[..i];
      var c := vanilla[i];
      if HasId(c) && c.value !in locals {
        reordered := reordered + [c];
      }
      i := i + 1;
    }
    assert vanilla[..i] == vanilla;
  }

  /** `Postfix` on the participant list the game produced. */
  method Postfix(result: Option<seq<Participant>>, heroes: Option<seq<Option<TownHero>>>, includePlayer: bool)
    returns (r: Option<seq<Participant>>)
    ensures r == PreferLocals(result, heroes, includePlayer)
  {
    if heroes.None? || result.None? || |result.value| == 0 {
      return result;
    }
    var vanilla := result.value;
    var vanillaIds := CollectVanillaIds(vanilla);
    var locals := CollectLocalIds(heroes.value, vanillaIds, includePlayer);
    if |locals| == 0 {
      return result;
    }
    var reordered := Reorder(vanilla, locals);
    r := Some(reordered);
  }
}
