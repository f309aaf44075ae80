// The hook on every relation change: a change of ten points or more starts
// a ripple pass, and the changes the pass itself makes must not start
// another one. The pass's changes go through the same hook.

module RelationPatch {
  import opened Common
  import opened RelationRipple

  /** Only changes of at least this size ripple. */
  const RippleThreshold: int := 10

  /**
   * One call of `ChangeRelationAction.ApplyInternal`: `hero`'s relation with
   * `other` moves by `delta`. Either hero may be null here, which is why
   * this is not the `RelationChange` of two known heroes.
   */
  datatype RelationCall = RelationCall(hero: Option<HeroId>, other: Option<HeroId>, delta: int)

  /** The changes a ripple pass makes, as the relation calls it issues. */
  function AsRelationChanges(rs: seq<RippleChange>): (r: seq<RelationCall>)
    ensures |r| == |rs|
    ensures forall i :: 0 <= i < |rs| ==> r[i] == RelationCall(Some(rs[i].observer), Some(rs[i].target), rs[i].delta)
  {
    seq(|rs|, i requires 0 <= i < |rs| => RelationCall(Some(rs[i].observer), Some(rs[i].target), rs[i].delta))
  }

  /** Whether a change arriving outside a pass starts one. */
  predicate Consequential(hero: Option<HeroId>, other: Option<HeroId>, relationChange: int)
  {
    hero.Some? && other.Some? && relationChange != 0 && AbsInt(relationChange) >= RippleThreshold
  }

  /** A change a pass makes is never large enough to start a pass, with or without the flag. */
  lemma RippleChangesAreNotConsequential(rs: seq<RippleChange>, i: nat)
    requires i < |rs| && -CapPerObserver <= rs[i].delta <= CapPerObserver
    ensures !Consequential(AsRelationChanges(rs)[i].hero, AsRelationChanges(rs)[i].other, AsRelationChanges(rs)[i].delta)
  {
  }

  /**
   * The relation action with its postfix hook. `inRipple` is the
   * re-entrancy flag; `applied` records every relation change made, in
   * order; `passes` counts the ripple passes started.
   */
  class RelationActions {
    var inRipple: bool
    var applied: seq<RelationCall>
    var passes: nat

    constructor ()
      ensures !inRipple && applied == [] && passes == 0
    {
      inRipple := false;
      applied := [];
      passes := 0;
    }

    /**
     * `ApplyInternal`: the change is made, then the postfix runs. A change
     * made while a pass is running is recorded and nothing more.
     */
    method ApplyInternal(g: SocialGraph, hero: Option<HeroId>, other: Option<HeroId>, relationChange: int,
                         showQuickNotification: bool, detail: RelationDetail)
      modifies this
      decreases if inRipple then 0 else 1, 2
      ensures inRipple == old(inRipple)
      ensures |applied| >= |old(applied)| + 1
      ensures applied[..|old(applied)| + 1] == old(applied) + [RelationCall(hero, other, relationChange)]
      ensures old(inRipple) || !Consequential(hero, other, relationChange) ==>
                applied == old(applied) + [RelationCall(hero, other, relationChange)] && passes == old(passes)
      ensures !old(inRipple) && Consequential(hero, other, relationChange) ==> passes == old(passes) + 1
    {
      applied := applied + [RelationCall(hero, other, relationChange)];
      ghost var mid := applied;
      var ripples := Postfix(g, hero, other, relationChange, showQuickNotification, detail);
      assert applied[..|mid|] == mid;
    }

    /**
     * `Postfix`: outside a pass, a consequential change sets the flag, runs
     * `ApplyRipples` on the original heroes and change, makes the pass's
     * changes through `ApplyInternal`, and clears the flag again.
     */
    method Postfix(g: SocialGraph, hero: Option<HeroId>, other: Option<HeroId>, relationChange: int,
                   showQuickNotification: bool, detail: RelationDetail) returns (ripples: seq<RippleChange>)
      modifies this
      decreases if inRipple then 0 else 1, 1
      ensures inRipple == old(inRipple)
      ensures old(inRipple) || !Consequential(hero, other, relationChange) ==>
                ripples == [] && applied == old(applied) && passes == old(passes)
      ensures !old(inRipple) && Consequential(hero, other, relationChange) ==>
                passes == old(passes) + 1 && applied == old(applied) + AsRelationChanges(ripples)
      ensures |ripples| <= MaxObserversPerEvent
      ensures forall i :: 0 <= i < |ripples| ==>
                ripples[i].delta != 0 && -CapPerObserver <= ripples[i].delta <= CapPerObserver &&
                ripples[i].target == RippleTarget(hero.value, other.value, relationChange) &&
                ripples[i].observer != hero.value && ripples[i].observer != other.value
    {
      ripples := [];
      if inRipple || hero.None? || other.None? || relationChange == 0 {
        return;
      }
      if AbsInt(relationChange) < RippleThreshold {
        return;
      }
      inRipple := true;
      passes := passes + 1;
      var observers, limited;
      observers, limited, ripples := ApplyRipples(g, hero.value, other.value, relationChange, detail);
      MakeRippleChanges(g, ripples, detail);
      inRipple := false;
    }

    /** The pass's changes, made one after the other through the hooked relation action while the flag is set. */
    method MakeRippleChanges(g: SocialGraph, ripples: seq<RippleChange>, detail: RelationDetail)
      requires inRipple
      modifies this
      decreases 0, 3
      ensures inRipple && passes == old(passes)
      ensures applied == old(applied) + AsRelationChanges(ripples)
    {
      var i := 0;
      while i < |ripples|
        invariant 0 <= i <= |ripples|
        invariant inRipple && passes == old(passes)
        invariant applied == old(applied) + AsRelationChanges(ripples[..i])
      {
        ApplyInternal(g, Some(ripples[i].observer), Some(ripples[i].target), ripples[i].delta, false, detail);
        assert AsRelationChanges(ripples[..i + 1]) == AsRelationChanges(ripples[..i]) + [AsRelationChanges(ripples)[i]];
        i := i + 1;
      }
      assert ripples[..i] == ripples;
    }
  }
}
