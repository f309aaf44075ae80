// The relation ripple service: when two heroes' relation changes a lot,
// the heroes around them (family, clanmates, close friends, the realm's
// lords) shift their own relation toward the hero the change favours or
// disfavours, each by a small attenuated amount.

module RelationRipple {
  import opened Common
  import opened HeroTraits
  import opened Sorting

  const ImmediateFamilyMult: real := 0.60
  const ClanmateMult: real := 0.35
  const CloseFriendMult: real := 0.30
  const LiegeVassalMult: real := 0.25
  const CapPerObserver: int := 5
  /** The threshold applies to the ripple before rounding. */
  const MinAbsThreshold: real := 0.5
  const MaxObserversPerEvent: nat := 20
  const FriendThreshold: int := 50

  /** `ChangeRelationDetail`; only the emissary kind is treated specially. */
  datatype RelationDetail = Emissary | OtherDetail

  /** The game world as the ripple pass reads it. */
  datatype SocialGraph = SocialGraph(
    immediateFamily: HeroId -> seq<HeroId>,
    clanmates: HeroId -> seq<HeroId>,
    liegeVassalCircle: HeroId -> seq<HeroId>,
    allAliveHeroes: seq<HeroId>,
    isAlive: HeroId -> bool,
    relation: (HeroId, HeroId) -> int,
    traitsOf: HeroId -> TraitSnapshot)

  /** One change the pass makes: `observer`'s relation with `target` moves by `delta`. */
  datatype RippleChange = RippleChange(observer: HeroId, target: HeroId, delta: int)

  /** One `Accumulate` call: the heroes of a ring, its weight and the hero it must skip. */
  datatype Ring = Ring(members: seq<HeroId>, mult: real, exclude: Option<HeroId>)

  /** `CloseFriendsOf`: every other living hero whom `h` regards at 50 or more. */
  function CloseFriendsOf(g: SocialGraph, h: HeroId): (r: seq<HeroId>)
    ensures forall o :: o in r ==> o in g.allAliveHeroes && o != h && g.relation(h, o) >= FriendThreshold
  {
    Filter(g.allAliveHeroes, o => o != h && g.relation(h, o) >= FriendThreshold)
  }

  /** The eight `Accumulate` calls of `ApplyRipples`, in the order they are made. */
  function Rings(g: SocialGraph, a: HeroId, b: HeroId): (r: seq<Ring>)
    ensures |r| == 8
    ensures forall i :: 0 <= i < |r| ==> 0.0 < r[i].mult <= ImmediateFamilyMult
  {
    [Ring(g.immediateFamily(a), ImmediateFamilyMult, None),
     Ring(g.immediateFamily(b), ImmediateFamilyMult, None),
     Ring(g.clanmates(a), ClanmateMult, Some(b)),
     Ring(g.clanmates(b), ClanmateMult, Some(a)),
     Ring(CloseFriendsOf(g, a), CloseFriendMult, Some(b)),
     Ring(CloseFriendsOf(g, b), CloseFriendMult, Some(a)),
     Ring(g.liegeVassalCircle(a), LiegeVassalMult, None),
     Ring(g.liegeVassalCircle(b), LiegeVassalMult, None)]
  }

  /** A ring counts `h` when `h` is in it, alive, and not the hero it skips. */
  predicate Eligible(ring: Ring, h: HeroId, alive: HeroId -> bool)
  {
    h in ring.members && alive(h) && ring.exclude != Some(h)
  }

  function Lookup(m: map<HeroId, real>, h: HeroId): Option<real>
  {
    if h in m then Some(m[h]) else None
  }

  /** The dictionary update of `Accumulate` for one counted hero: a heavier ring replaces a lighter one. */
  function Merge(p: Option<real>, mult: real): (r: Option<real>)
    ensures r.Some? && (r.value == mult || p == r)
    ensures p.Some? ==> p.value <= r.value
    ensures mult <= r.value
  {
    if p.None? || mult > p.value then Some(mult) else p
  }

  /** The weight `h` ends with after the rings are accumulated in order, if any ring counts it. */
  function BestWeight(rings: seq<Ring>, h: HeroId, alive: HeroId -> bool): (r: Option<real>)
    ensures r.Some? ==> exists i :: 0 <= i < |rings| && Eligible(rings[i], h, alive) && r.value == rings[i].mult
    ensures forall i :: 0 <= i < |rings| && Eligible(rings[i], h, alive) ==> r.Some? && rings[i].mult <= r.value
  {
    if rings == [] then None
    else
      var init := rings[..|rings| - 1];
      var p := BestWeight(init, h, alive);
      assert forall i :: 0 <= i < |init| ==> init[i] == rings[i];
      if Eligible(rings[|rings| - 1], h, alive) then Merge(p, rings[|rings| - 1].mult) else p
  }

  /**
   * `Accumulate`: every counted hero of the ring is recorded with the larger
   * of its previous weight and the ring's. `order` follows the dictionary's
   * enumeration order: a new key goes last.
   */
  method Accumulate(m: map<HeroId, real>, order: seq<HeroId>, ring: Ring, alive: HeroId -> bool)
    returns (m': map<HeroId, real>, order': seq<HeroId>)
    requires forall h :: h in order <==> h in m
    requires NoDuplicates(order)
    ensures forall h :: Lookup(m', h) == if Eligible(ring, h, alive) then Merge(Lookup(m, h), ring.mult) else Lookup(m, h)
    ensures forall h :: h in order' <==> h in m'
    ensures NoDuplicates(order')
  {
    m', order' := m, order;
    var i := 0;
    while i < |ring.members|
      invariant 0 <= i <= |ring.members|
      invariant forall h :: Lookup(m', h) ==
                  if h in ring.members[..i] && alive(h) && ring.exclude != Some(h) then Merge(Lookup(m, h), ring.mult)
                  else Lookup(m, h)
      invariant forall h :: h in order' <==> h in m'
      invariant NoDuplicates(order')
    {
      var h := ring.members[i];
      assert ring.members[..i + 1] == ring.members[..i] + [h];
      if alive(h) && ring.exclude != Some(h) {
        if h in m' {
          if ring.mult > m'[h] {
            m' := m'[h := ring.mult];
          }
        } else {
          m' := m'[h := ring.mult];
          order' := order' + [h];
        }
      }
      i := i + 1;
    }
    assert ring.members[..i] == ring.members;
  }

  /** `ContextMultiplier`: stronger events ripple further; emissary work a little more. */
  function ContextMultiplier(detail: RelationDetail, baseDelta: int): (r: real)
    ensures 0.30 <= r <= 0.69
    ensures detail == OtherDetail ==> r <= 0.60
    ensures detail == OtherDetail && baseDelta == 0 ==> r == 0.30
  {
    var mag := MinInt(AbsInt(baseDelta), 15) as real;
    var mult := 0.30 + 0.02 * mag;
    if detail == Emissary then mult * 1.15 else mult
  }

  /** The context factor ignores the direction of the change. */
  lemma ContextMultiplierSymmetric(detail: RelationDetail, baseDelta: int)
    ensures ContextMultiplier(detail, baseDelta) == ContextMultiplier(detail, -baseDelta)
  {
  }

  /** ... and grows with its size, up to a magnitude of 15. */
  lemma ContextMultiplierMonotone(detail: RelationDetail, d1: int, d2: int)
    requires AbsInt(d1) <= AbsInt(d2)
    ensures ContextMultiplier(detail, d1) <= ContextMultiplier(detail, d2)
  {
  }

  /** `TraitModifier`: strongly principled heroes (either way) react more; calculating ones to politics. */
  function TraitModifier(t: TraitSnapshot, detail: RelationDetail): (r: real)
    ensures r >= 1.0
    ensures t.mercy == 0 && t.honor == 0 && (detail == OtherDetail || t.calculating == 0) ==> r == 1.0
  {
    var magnitudeBoost := 1.0 + 0.03 * (AbsInt(t.mercy) + AbsInt(t.honor)) as real;
    var politicalBoost := if detail == Emissary then 1.0 + 0.03 * AbsInt(t.calculating) as real else 1.0;
    assert magnitudeBoost * politicalBoost >= magnitudeBoost * 1.0;
    magnitudeBoost * politicalBoost
  }

  /** The modifier does not distinguish a merciful hero from a cruel one, or an honest one from a devious one. */
  lemma TraitModifierSymmetric(t: TraitSnapshot, detail: RelationDetail)
    ensures TraitModifier(t, detail) == TraitModifier(t.(mercy := -t.mercy, honor := -t.honor, calculating := -t.calculating), detail)
  {
  }

  /** Outside emissary work, how calculating the observer is plays no part. */
  lemma TraitModifierIgnoresCalculating(t: TraitSnapshot, c: int)
    ensures TraitModifier(t, OtherDetail) == TraitModifier(t.(calculating := c), OtherDetail)
  {
  }

  /**
   * The attenuation of a ripple by how far the observer's relation with the
   * target already is from neutral: none up to 20, then linear, never below 0.1.
   */
  function Attenuation(current: int): (r: real)
    ensures 0.1 <= r <= 1.0
    ensures AbsInt(current) <= 20 ==> r == 1.0
    ensures AbsInt(current) >= 92 ==> r == 0.1
  {
    var edge := AbsInt(current) as real;
    1.0 - Clamp((edge - 20.0) / 80.0, 0.0, 0.9)
  }

  lemma AttenuationSymmetric(current: int)
    ensures Attenuation(current) == Attenuation(-current)
  {
  }

  lemma AttenuationMonotone(c1: int, c2: int)
    requires AbsInt(c1) <= AbsInt(c2)
    ensures Attenuation(c2) <= Attenuation(c1)
  {
  }

  /** `RippleTarget`: the hero the change was made toward when it is a gain, the other one when it is a loss. */
  function RippleTarget(a: HeroId, b: HeroId, baseDelta: int): (r: HeroId)
    ensures r == a || r == b
    ensures baseDelta > 0 ==> r == b
    ensures baseDelta < 0 ==> r == a
  {
    if baseDelta >= 0 then b else a
  }

  /** The ripple before rounding. */
  function RippleValue(baseDelta: int, weight: real, traitMod: real, atten: real): real
  {
    baseDelta as real * weight * traitMod * atten
  }

  /** With positive factors the ripple goes the way the original change went. */
  lemma RippleValueSign(baseDelta: int, weight: real, traitMod: real, atten: real)
    requires weight > 0.0 && traitMod > 0.0 && atten > 0.0
    ensures RippleValue(baseDelta, weight, traitMod, atten) > 0.0 <==> baseDelta > 0
    ensures RippleValue(baseDelta, weight, traitMod, atten) < 0.0 <==> baseDelta < 0
  {
    var p := weight * traitMod;
    PositiveProduct(weight, traitMod);
    var q := p * atten;
    PositiveProduct(p, atten);
    assert RippleValue(baseDelta, weight, traitMod, atten) == baseDelta as real * q;
  }

  /**
   * A ripple below 0.5 in magnitude is dropped; any other is rounded half
   * away from zero and held to at most 5 either way.
   */
  function FinalRipple(f: real): (r: Option<int>)
    ensures r.Some? <==> Abs(f) >= MinAbsThreshold
    ensures r.Some? ==> r.value != 0 && -CapPerObserver <= r.value <= CapPerObserver
    ensures r.Some? ==> (r.value > 0 <==> f > 0.0)
    ensures r.Some? && Abs(f) <= CapPerObserver as real ==> Abs(f - r.value as real) <= 0.5
    ensures r.Some? && Abs(f) <= CapPerObserver as real && Abs(f - r.value as real) == 0.5 ==>
              Abs(r.value as real) > Abs(f)
    ensures r.Some? && Abs(f) >= CapPerObserver as real ==> AbsInt(r.value) == CapPerObserver
  {
    if Abs(f) < MinAbsThreshold then None
    else
      var k := RoundAwayFromZero(f);
      Some(if k > 0 then MinInt(k, CapPerObserver) else -MinInt(-k, CapPerObserver))
  }

  /** The change one observer makes, if any, given its ring weight and the pass's context factor. */
  function ObserverRipple(g: SocialGraph, observer: HeroId, ringWeight: real, ctx: real, target: HeroId,
                          baseDelta: int, detail: RelationDetail): (r: Option<int>)
    ensures r.Some? ==> r.value != 0 && -CapPerObserver <= r.value <= CapPerObserver
    ensures r.Some? && ringWeight > 0.0 && ctx > 0.0 ==> (r.value > 0 <==> baseDelta > 0)
  {
    var weight := ringWeight * ctx;
    var traitMod := TraitModifier(g.traitsOf(observer), detail);
    var atten := Attenuation(g.relation(observer, target));
    var f := RippleValue(baseDelta, weight, traitMod, atten);
    assert ringWeight > 0.0 && ctx > 0.0 ==> (f > 0.0 <==> baseDelta > 0) by {
      if ringWeight > 0.0 && ctx > 0.0 {
        PositiveProduct(ringWeight, ctx);
        RippleValueSign(baseDelta, weight, traitMod, atten);
      }
    }
    FinalRipple(f)
  }

  /** The observer loop of `ApplyRipples`: the changes made, in the order of `limited`. */
  function Ripples(g: SocialGraph, limited: seq<HeroId>, observers: map<HeroId, real>, ctx: real,
                   target: HeroId, baseDelta: int, detail: RelationDetail): (r: seq<RippleChange>)
    requires forall h :: h in limited ==> h in observers
    ensures |r| <= |limited|
    ensures forall i :: 0 <= i < |r| ==>
              r[i].target == target && r[i].observer in limited && r[i].observer != target &&
              g.isAlive(r[i].observer) && r[i].delta != 0 && -CapPerObserver <= r[i].delta <= CapPerObserver
  {
    if limited == [] then []
    else
      var init := limited[..|limited| - 1];
      var h := limited[|limited| - 1];
      var prior := Ripples(g, init, observers, ctx, target, baseDelta, detail);
      assert forall x :: x in init ==> x in limited;
      if !g.isAlive(h) || h == target then prior
      else
        match ObserverRipple(g, h, observers[h], ctx, target, baseDelta, detail)
        case None => prior
        case Some(d) => prior + [RippleChange(h, target, d)]
  }

  /** With positive ring weights, every ripple has the sign of the original change. */
  lemma {:induction false} RipplesFollowBaseDelta(g: SocialGraph, limited: seq<HeroId>, observers: map<HeroId, real>,
                                                  ctx: real, target: HeroId, baseDelta: int, detail: RelationDetail,
                                                  c: RippleChange)
    requires forall h :: h in limited ==> h in observers && observers[h] > 0.0
    requires ctx > 0.0
    requires c in Ripples(g, limited, observers, ctx, target, baseDelta, detail)
    ensures c.delta > 0 <==> baseDelta > 0
  {
    var init := limited[..|limited| - 1];
    var h := limited[|limited| - 1];
    var prior := Ripples(g, init, observers, ctx, target, baseDelta, detail);
    if c in prior {
      RipplesFollowBaseDelta(g, init, observers, ctx, target, baseDelta, detail, c);
    } else {
      var o := ObserverRipple(g, h, observers[h], ctx, target, baseDelta, detail);
      assert Ripples(g, limited, observers, ctx, target, baseDelta, detail) == prior + [RippleChange(h, target, o.value)];
    }
  }

  lemma PositiveProduct(x: real, y: real)
    requires x > 0.0 && y > 0.0
    ensures x * y > 0.0
  {
  }

  /** The ranking of observers: heaviest ring first, then the one closest to either hero. */
  function RankKey(g: SocialGraph, observers: map<HeroId, real>, a: HeroId, b: HeroId): HeroId -> SortKey
  {
    h => SortKey(-(if h in observers then observers[h] else 0.0), -(MaxInt(g.relation(a, h), g.relation(b, h)) as real), 0.0)
  }

  /**
   * `ApplyRipples`: gathers the observers of the pair `a`, `b` with their
   * heaviest ring weight, drops the pair itself, keeps the 20 best ranked
   * and lets each living one other than the target shift its relation
   * with the target. The changes are returned in the order they are made.
   */
  method ApplyRipples(g: SocialGraph, a: HeroId, b: HeroId, baseDelta: int, detail: RelationDetail)
    returns (observers: map<HeroId, real>, limited: seq<HeroId>, changes: seq<RippleChange>)
    ensures forall h :: Lookup(observers, h) == if h == a || h == b then None else BestWeight(Rings(g, a, b), h, g.isAlive)
    ensures forall h :: h in observers ==> observers[h] > 0.0
    ensures |limited| <= MaxObserversPerEvent && NoDuplicates(limited)
    ensures forall h :: h in limited ==> h in observers
    ensures SortedBy(limited, RankKey(g, observers, a, b))
    ensures forall x, y :: y in limited && x in observers && x !in limited ==>
              KeyLe(RankKey(g, observers, a, b)(y), RankKey(g, observers, a, b)(x))
    ensures |limited| < MaxObserversPerEvent ==> forall h :: h in observers ==> h in limited
    ensures changes == Ripples(g, limited, observers, ContextMultiplier(detail, baseDelta),
                               RippleTarget(a, b, baseDelta), baseDelta, detail)
    ensures forall i :: 0 <= i < |changes| ==> changes[i].observer != a && changes[i].observer != b
  {
    var order;
    observers, order := GatherObservers(g, a, b);
    var key := RankKey(g, observers, a, b);
    limited := Take(SortBy(order, key), MaxObserversPerEvent);
    RankedTake(order, key, MaxObserversPerEvent);
    changes := [];
    if |order| == 0 {
      return;
    }
    var target := RippleTarget(a, b, baseDelta);
    var ctx := ContextMultiplier(detail, baseDelta);
    changes := ObserverLoop(g, limited, observers, ctx, target, baseDelta, detail);
    forall i | 0 <= i < |changes| ensures changes[i].observer != a && changes[i].observer != b {
      assert Lookup(observers, changes[i].observer).Some?;
    }
  }

  /**
   * The eight `Accumulate` calls and the removal of the pair itself: every
   * hero some ring counts, other than `a` and `b`, with its heaviest ring
   * weight; `order` is the dictionary's enumeration order.
   */
  method GatherObservers(g: SocialGraph, a: HeroId, b: HeroId) returns (observers: map<HeroId, real>, order: seq<HeroId>)
    ensures forall h :: Lookup(observers, h) == if h == a || h == b then None else BestWeight(Rings(g, a, b), h, g.isAlive)
    ensures forall h :: h in observers ==> observers[h] > 0.0
    ensures forall h :: h in order <==> h in observers
    ensures NoDuplicates(order)
  {
    var rings := Rings(g, a, b);
    var m;
    m, order := AccumulateAll(rings, g.isAlive);
    RemoveFirstNoDuplicates(order, a);
    RemoveFirstNoDuplicates(RemoveFirst(order, a), b);
    observers := m - {a, b};
    order := RemoveFirst(RemoveFirst(order, a), b);
    forall h | h in observers ensures observers[h] > 0.0 {
      assert Lookup(m, h) == BestWeight(rings, h, g.isAlive);
    }
  }

  /** The `Accumulate` calls, one ring after the other, into an empty dictionary. */
  method AccumulateAll(rings: seq<Ring>, alive: HeroId -> bool) returns (m: map<HeroId, real>, order: seq<HeroId>)
    ensures forall h :: Lookup(m, h) == BestWeight(rings, h, alive)
    ensures forall h :: h in order <==> h in m
    ensures NoDuplicates(order)
  {
    m, order := map[], [];
    var k := 0;
    while k < |rings|
      invariant 0 <= k <= |rings|
      invariant forall h :: Lookup(m, h) == BestWeight(rings[..k], h, alive)
      invariant forall h :: h in order <==> h in m
      invariant NoDuplicates(order)
    {
      assert rings[..k + 1][..k] == rings[..k];
      m, order := Accumulate(m, order, rings[k], alive);
      k := k + 1;
    }
    assert rings[..k] == rings;
  }

  /** The loop over the ranked observers: each living one other than the target makes its change, if any. */
  method ObserverLoop(g: SocialGraph, limited: seq<HeroId>, observers: map<HeroId, real>, ctx: real,
                      target: HeroId, baseDelta: int, detail: RelationDetail) returns (changes: seq<RippleChange>)
    requires forall h :: h in limited ==> h in observers
    ensures changes == Ripples(g, limited, observers, ctx, target, baseDelta, detail)
  {
    changes := [];
    var i := 0;
    while i < |limited|
      invariant 0 <= i <= |limited|
      invariant changes == Ripples(g, limited[..i], observers, ctx, target, baseDelta, detail)
    {
      assert limited[..i + 1][..i] == limited[..i];
      var observer := limited[i];
      if g.isAlive(observer) && observer != target {
        var ripple := ObserverRipple(g, observer, observers[observer], ctx, target, baseDelta, detail);
        if ripple.Some? {
          changes := changes + [RippleChange(observer, target, ripple.value)];
        }
      }
      i := i + 1;
    }
    assert limited[..i] == limited;
  }
}
