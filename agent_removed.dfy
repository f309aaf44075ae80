// Relation changes when a hero is knocked out in a mission: the player
// gains or loses standing with the hero it beat or was beaten by, and in
// tournaments a winning lord gains or loses standing with the lord it beat.
// Each knock-out counts once until the dedupe memory is cleared.

module AgentRemoved {
  import opened Common
  import opened HeroTraits

  const DefeatedByPositivePlayerGain: int := 2
  const DefeatedByNegativePlayerLoss: int := 2
  const PositivePlayerDefeatedGain: int := 1
  const NegativePlayerDefeatedLoss: int := 1

  /** A character as an agent carries it. */
  datatype CharacterView = CharacterView(stringId: string, isHero: bool)

  /** An agent of the mission: its identity, its team (if any) and its character (if any). */
  datatype AgentView = AgentView(handle: nat, team: Option<nat>, character: Option<CharacterView>)

  /** A hero of the campaign. */
  datatype HeroView = HeroView(id: string, isLord: bool, traits: TraitSnapshot)

  /** A knock-out: the removed agent, the agent that removed it, and whether the killing blow is valid. */
  datatype Removal = Removal(affected: Option<AgentView>, affector: Option<AgentView>, blowValid: bool)

  /** The dedupe memory: the removed agents already counted for the player, and the winner-loser pairs counted in tournaments. */
  datatype Dedupe = Dedupe(affectedAgents: seq<nat>, processedPairs: set<string>)

  /** What one knock-out does: the new dedupe memory and the relation change, if any. */
  datatype Outcome = Outcome(dedupe: Dedupe, change: Option<RelationChange>)

  /** `IsPositivePerson`. */
  function IsPositivePerson(t: TraitSnapshot): (positive: bool)
    ensures t.honor >= 0 && t.valor >= 0 && t.generosity >= 0 && t.mercy >= 0 ==> positive
    ensures t.honor < 0 && t.valor <= 0 && t.generosity <= 0 && t.mercy <= 0 ==> !positive
  {
    t.honor + t.valor + t.generosity + t.mercy >= 0
  }

  /** Positivity ignores Calculating, and raising a counted trait never makes a hero negative. */
  lemma PositivityRule(t: TraitSnapshot, calculating: int, honor: int)
    requires honor >= t.honor
    ensures IsPositivePerson(t) == IsPositivePerson(t.(calculating := calculating))
    ensures IsPositivePerson(t) ==> IsPositivePerson(t.(honor := honor))
    ensures IsPositivePerson(TraitSnapshot(calculating, 0, 0, 0, 0))
    ensures !IsPositivePerson(t.(honor := -1, valor := 0, generosity := 0, mercy := 0))
  {
  }

  /** `Hero.FindFirst` by string id: the first hero with that id. */
  function FindHero(heroes: seq<HeroView>, id: string): (h: Option<HeroView>)
    ensures h.Some? ==> h.value in heroes && h.value.id == id
    ensures h.None? ==> forall x :: x in heroes ==> x.id != id
    ensures h.Some? ==> exists i :: 0 <= i < |heroes| && heroes[i] == h.value &&
                                    forall j :: 0 <= j < i ==> heroes[j].id != id
  {
    if heroes == [] then None
    else if heroes[0].id == id then Some(heroes[0])
    else FindHero(heroes[1..], id)
  }

  /** The directed key of a tournament bout: winner id, `|`, loser id. */
  function DirectedKey(winner: string, loser: string): string
  {
    winner + "|" + loser
  }

  /** The guards every knock-out must pass before anything happens. */
  predicate Counts(ev: Removal, heroes: seq<HeroView>)
  {
    ev.affected.Some? && ev.affector.Some? &&
    ev.affected.value.character.Some? && ev.affector.value.character.Some? &&
    (ev.affector.value.character.value.isHero || ev.affected.value.character.value.isHero) &&
    !(ev.affected.value.team.Some? && ev.affector.value.team.Some? &&
      ev.affected.value.team == ev.affector.value.team) &&
    ev.blowValid &&
    FindHero(heroes, ev.affector.value.character.value.stringId).Some? &&
    FindHero(heroes, ev.affected.value.character.value.stringId).Some? &&
    FindHero(heroes, ev.affector.value.character.value.stringId) !=
      FindHero(heroes, ev.affected.value.character.value.stringId)
  }

  /**
   * `Postfix`: after the guards, a knock-out involving the player (whose
   * id is `playerId`) changes the player's relation with the other hero,
   * once per removed agent; one between two lords in a tournament changes
   * the winner's relation with the loser, once per directed pair.
   */
  function OnAgentRemoved(d: Dedupe, ev: Removal, heroes: seq<HeroView>, playerId: string,
                          isTournament: bool): (r: Outcome)
    ensures !Counts(ev, heroes) ==> r == Outcome(d, None)
    ensures r.change.Some? ==> Counts(ev, heroes) && r.change.value.delta in {2, -2, 1, -1}
    ensures multiset(d.affectedAgents) <= multiset(r.dedupe.affectedAgents)
    ensures d.processedPairs <= r.dedupe.processedPairs
  {
    if !Counts(ev, heroes) then Outcome(d, None)
    else
      var winner := FindHero(heroes, ev.affector.value.character.value.stringId).value;
      var loser := FindHero(heroes, ev.affected.value.character.value.stringId).value;
      var agent := ev.affected.value.handle;
      if winner.id == playerId || loser.id == playerId then
        if agent in d.affectedAgents then Outcome(d, None)
        else
          var change :=
            if winner.id == playerId then
              RelationChange(playerId, loser.id,
                if IsPositivePerson(loser.traits) then DefeatedByPositivePlayerGain else -DefeatedByNegativePlayerLoss)
            else
              RelationChange(playerId, winner.id,
                if IsPositivePerson(winner.traits) then PositivePlayerDefeatedGain else -NegativePlayerDefeatedLoss);
          Outcome(d.(affectedAgents := d.affectedAgents + [agent]), Some(change))
      else if !isTournament || !winner.isLord || !loser.isLord then Outcome(d, None)
      else
        var key := DirectedKey(winner.id, loser.id);
        if key in d.processedPairs then Outcome(d, None)
        else
          var delta := if IsPositivePerson(loser.traits) then DefeatedByPositivePlayerGain else -DefeatedByNegativePlayerLoss;
          Outcome(d.(processedPairs := d.processedPairs + {key}), Some(RelationChange(winner.id, loser.id, delta)))
  }

  /**
   * The player's side: a counted knock-out by the player changes its
   * relation with the loser by +2 or -2 by the loser's positivity; a
   * knock-out of the player changes its relation with the winner by +1 or
   * -1 by the winner's positivity; an agent already counted changes nothing.
   */
  lemma PlayerBranch(d: Dedupe, ev: Removal, heroes: seq<HeroView>, playerId: string, isTournament: bool)
    requires Counts(ev, heroes)
    ensures var winner := FindHero(heroes, ev.affector.value.character.value.stringId).value;
            var loser := FindHero(heroes, ev.affected.value.character.value.stringId).value;
            var r := OnAgentRemoved(d, ev, heroes, playerId, isTournament);
            (winner.id == playerId || loser.id == playerId ==>
               (ev.affected.value.handle in d.affectedAgents <==> r.change.None?) &&
               (ev.affected.value.handle in r.dedupe.affectedAgents) &&
               r.dedupe.processedPairs == d.processedPairs) &&
            (winner.id == playerId && ev.affected.value.handle !in d.affectedAgents ==>
               r.change == Some(RelationChange(playerId, loser.id, if IsPositivePerson(loser.traits) then 2 else -2))) &&
            (loser.id == playerId && ev.affected.value.handle !in d.affectedAgents ==>
               r.change == Some(RelationChange(playerId, winner.id, if IsPositivePerson(winner.traits) then 1 else -1)))
  {
  }

  /**
   * Between two heroes other than the player: nothing outside a tournament
   * or unless both are lords; otherwise a +2 or -2 change from the winner to
   * the loser by the loser's positivity, unless that directed pair was counted.
   */
  lemma TournamentBranch(d: Dedupe, ev: Removal, heroes: seq<HeroView>, playerId: string, isTournament: bool)
    requires Counts(ev, heroes)
    ensures var winner := FindHero(heroes, ev.affector.value.character.value.stringId).value;
            var loser := FindHero(heroes, ev.affected.value.character.value.stringId).value;
            var r := OnAgentRemoved(d, ev, heroes, playerId, isTournament);
            winner.id != playerId && loser.id != playerId ==>
              r.dedupe.affectedAgents == d.affectedAgents &&
              (!isTournament || !winner.isLord || !loser.isLord ==> r == Outcome(d, None)) &&
              (isTournament && winner.isLord && loser.isLord ==>
                 (DirectedKey(winner.id, loser.id) in d.processedPairs <==> r.change.None?) &&
                 r.dedupe.processedPairs == d.processedPairs + {DirectedKey(winner.id, loser.id)} &&
                 (r.change.Some? ==>
                    r.change.value == RelationChange(winner.id, loser.id, if IsPositivePerson(loser.traits) then 2 else -2)))
  {
  }

  /** The dedupe memory after a run of knock-outs, the last one processed last. */
  function RunDedupe(d: Dedupe, evs: seq<Removal>, heroes: seq<HeroView>, playerId: string, isTournament: bool): Dedupe
  {
    if evs == [] then d
    else OnAgentRemoved(RunDedupe(d, evs[..|evs| - 1], heroes, playerId, isTournament), evs[|evs| - 1],
                        heroes, playerId, isTournament).dedupe
  }

  /** The change made by the last knock-out of a run. */
  function LastChange(d: Dedupe, evs: seq<Removal>, heroes: seq<HeroView>, playerId: string, isTournament: bool)
    : Option<RelationChange>
    requires evs != []
  {
    OnAgentRemoved(RunDedupe(d, evs[..|evs| - 1], heroes, playerId, isTournament), evs[|evs| - 1],
                   heroes, playerId, isTournament).change
  }

  /** The removed agents of a run whose knock-out changed a relation of the player, in order. */
  function PlayerCounted(d: Dedupe, evs: seq<Removal>, heroes: seq<HeroView>, playerId: string, isTournament: bool)
    : seq<nat>
  {
    if evs == [] then []
    else
      var c := LastChange(d, evs, heroes, playerId, isTournament);
      PlayerCounted(d, evs[..|evs| - 1], heroes, playerId, isTournament) +
      (if c.Some? && c.value.from == playerId then [evs[|evs| - 1].affected.value.handle] else [])
  }

  /** The directed pairs of a run whose tournament knock-out changed a relation, in order. */
  function PairsCounted(d: Dedupe, evs: seq<Removal>, heroes: seq<HeroView>, playerId: string, isTournament: bool)
    : seq<string>
  {
    if evs == [] then []
    else
      var c := LastChange(d, evs, heroes, playerId, isTournament);
      PairsCounted(d, evs[..|evs| - 1], heroes, playerId, isTournament) +
      (if c.Some? && c.value.from != playerId then [DirectedKey(c.value.from, c.value.to)] else [])
  }

  /** A change made by the player branch is the player's, one by the tournament branch is not. */
  lemma ChangeSide(d: Dedupe, ev: Removal, heroes: seq<HeroView>, playerId: string, isTournament: bool)
    requires OnAgentRemoved(d, ev, heroes, playerId, isTournament).change.Some?
    ensures var r := OnAgentRemoved(d, ev, heroes, playerId, isTournament);
            var c := r.change.value;
            (c.from == playerId ==>
               ev.affected.value.handle !in d.affectedAgents &&
               r.dedupe == d.(affectedAgents := d.affectedAgents + [ev.affected.value.handle])) &&
            (c.from != playerId ==>
               DirectedKey(c.from, c.to) !in d.processedPairs &&
               r.dedupe == d.(processedPairs := d.processedPairs + {DirectedKey(c.from, c.to)}))
  {
  }

  /**
   * Until the dedupe memory is cleared, every removed agent changes the
   * player's relations at most once, and every directed pair of lords gets
   * at most one tournament change; none of them was already counted.
   */
  lemma {:induction false} CountedOnce(d: Dedupe, evs: seq<Removal>, heroes: seq<HeroView>, playerId: string,
                                       isTournament: bool)
    ensures var run := RunDedupe(d, evs, heroes, playerId, isTournament);
            NoDuplicates(PlayerCounted(d, evs, heroes, playerId, isTournament)) &&
            NoDuplicates(PairsCounted(d, evs, heroes, playerId, isTournament)) &&
            (forall a :: a in PlayerCounted(d, evs, heroes, playerId, isTournament) ==>
               a !in d.affectedAgents && a in run.affectedAgents) &&
            (forall k :: k in PairsCounted(d, evs, heroes, playerId, isTournament) ==>
               k !in d.processedPairs && k in run.processedPairs) &&
            (forall a :: a in d.affectedAgents ==> a in run.affectedAgents) &&
            d.processedPairs <= run.processedPairs
  {
    if evs != [] {
      var init := evs[..|evs| - 1];
      var ev := evs[|evs| - 1];
      CountedOnce(d, init, heroes, playerId, isTournament);
      var before := RunDedupe(d, init, heroes, playerId, isTournament);
      var o := OnAgentRemoved(before, ev, heroes, playerId, isTournament);
      assert forall a :: a in before.affectedAgents ==> a in o.dedupe.affectedAgents by {
        forall a | a in before.affectedAgents ensures a in o.dedupe.affectedAgents {
          assert a in multiset(before.affectedAgents);
        }
      }
      var players := PlayerCounted(d, init, heroes, playerId, isTournament);
      var pairs := PairsCounted(d, init, heroes, playerId, isTournament);
      if o.change.Some? {
        ChangeSide(before, ev, heroes, playerId, isTournament);
        if o.change.value.from == playerId {
          AppendNoDuplicates(players, ev.affected.value.handle);
          assert o.dedupe.affectedAgents == before.affectedAgents + [ev.affected.value.handle];
        } else {
          AppendNoDuplicates(pairs, DirectedKey(o.change.value.from, o.change.value.to));
        }
      }
    }
  }

  /** `ClearDedupe` empties both memories; after it every agent and pair may count again. */
  function ClearDedupe(d: Dedupe): (r: Dedupe)
    ensures r.affectedAgents == [] && r.processedPairs == {}
  {
    Dedupe([], {})
  }

  /** The patch's static state: the counted agents (a list) and the counted pairs (a set). */
  class OnAgentRemovedPatch {
    var affectedAgents: seq<nat>
    var processedPairs: set<string>

    constructor()
      ensures affectedAgents == [] && processedPairs == {}
    {
      affectedAgents := [];
      processedPairs := {};
    }

    function State(): Dedupe
      reads this
    {
      Dedupe(affectedAgents, processedPairs)
    }

    /** `ClearDedupe`. */
    method Clear()
      modifies this
      ensures State() == ClearDedupe(old(State()))
    {
      if |affectedAgents| > 0 {
        affectedAgents := [];
      }
      if |processedPairs| > 0 {
        processedPairs := {};
      }
    }

    /** `Postfix`: `change` is the relation change it applies, if any. */
    method Postfix(ev: Removal, heroes: seq<HeroView>, playerId: string, isTournament: bool)
      returns (change: Option<RelationChange>)
      modifies this
      ensures Outcome(State(), change) == OnAgentRemoved(old(State()), ev, heroes, playerId, isTournament)
    {
      change := None;
      if ev.affected.None? || ev.affector.None? {
        return;
      }
      var affectedAgent, affectorAgent := ev.affected.value, ev.affector.value;
      if affectedAgent.character.None? || affectorAgent.character.None? {
        return;
      }
      var affectedChar, affectorChar := affectedAgent.character.value, affectorAgent.character.value;
      if !affectorChar.isHero && !affectedChar.isHero {
        return;
      }
      if affectedAgent.team.Some? && affectorAgent.team.Some? && affectedAgent.team == affectorAgent.team {
        return;
      }
      if !ev.blowValid {
        return;
      }
      var winnerFound := FindHero(heroes, affectorChar.stringId);
      var loserFound := FindHero(heroes, affectedChar.stringId);
      if winnerFound.None? || loserFound.None? || winnerFound == loserFound {
        return;
      }
      var winner, loser := winnerFound.value, loserFound.value;
      if winner.id == playerId || loser.id == playerId {
        if affectedAgent.handle in affectedAgents {
          return;
        }
        var delta := 0;
        if winner.id == playerId {
          delta := if IsPositivePerson(loser.traits) then DefeatedByPositivePlayerGain else -DefeatedByNegativePlayerLoss;
          change := Some(RelationChange(playerId, loser.id, delta));
        } else {
          delta := if IsPositivePerson(winner.traits) then PositivePlayerDefeatedGain else -NegativePlayerDefeatedLoss;
          change := Some(RelationChange(playerId, winner.id, delta));
        }
        affectedAgents := affectedAgents + [affectedAgent.handle];
        return;
      }
      if !isTournament {
        return;
      }
      if !winner.isLord || !loser.isLord {
        return;
      }
      var pairKey := DirectedKey(winner.id, loser.id);
      if pairKey in processedPairs {
        return;
      }
      var npcDelta := if IsPositivePerson(loser.traits) then DefeatedByPositivePlayerGain else -DefeatedByNegativePlayerLoss;
      change := Some(RelationChange(winner.id, loser.id, npcDelta));
      processedPairs := processedPairs + {pairKey};
    }
  }
}
