// The NPC romance behaviour: per-clan courtship turns gated by cooldowns,
// the registry of active suitors per courted hero, rivalry penalties
// between suitors of the same hero, the cleanup passes on death and once a
// day, and the flat packing of the suitor registry into save lists.

module Romance {
  import opened Common
  import opened ParallelLists

  const RomanceCooldownDays: real := 3.0
  const BaseAdvanceChance: real := 0.25
  const RivalryPairPenalty: int := -3
  const RivalryTickDays: real := 10.0
  const ClanProcessIntervalDays: real := 3.0
  /** The relation penalty each living rival takes when a suitor marries. */
  const FalloutPenalty: int := -10
  /** The chance that a failed advance roll ends the romance. */
  const HardFailChance: real := 0.15

  /** The game's romance levels, as far as the behaviour reads or writes them. */
  datatype RomanceLevel = Untested | FailedInCompatibility | FailedInPracticalities | CourtshipStarted
                        | CoupleDecidedThatTheyAreCompatible | CoupleAgreedOnMarriage | Marriage | Ended

  /** A romance action the behaviour performs in the game. */
  datatype RomanceEvent = LevelChanged(a: HeroId, b: HeroId, level: RomanceLevel) | Married(a: HeroId, b: HeroId)

  // ---------------------------------------------------------------------
  // The log whitelist

  const MarriageAgreedArrow: string := " \U{2192} CoupleAgreedOnMarriage"

  /** The message openings that the log keeps when it is not verbose. */
  const ImportantPrefixes: seq<string> :=
    ["MARRIAGE:", "CourtshipStarted:", "Rivalry tick summary", "Rivalry fallout summary",
     "Cleanup on death", "Daily cleanup:", "Clan ", "War declared:"]

  /** `IsImportant`: summaries and milestones pass the log filter, nothing else. */
  function IsImportant(msg: string): (keep: bool)
    ensures keep <==> (exists p :: p in ImportantPrefixes && StartsWith(msg, p)) || Contains(msg, MarriageAgreedArrow)
  {
    StartsWith(msg, "MARRIAGE:") || StartsWith(msg, "CourtshipStarted:") ||
    Contains(msg, MarriageAgreedArrow) ||
    StartsWith(msg, "Rivalry tick summary") || StartsWith(msg, "Rivalry fallout summary") ||
    StartsWith(msg, "Cleanup on death") || StartsWith(msg, "Daily cleanup:") ||
    StartsWith(msg, "Clan ") || StartsWith(msg, "War declared:")
  }

  /** Every message opening with a whitelisted prefix is kept, whatever follows. */
  lemma ImportantPrefixesPass(p: string, rest: string)
    requires p in ImportantPrefixes
    ensures IsImportant(p + rest)
  {
    assert (p + rest)[..|p|] == p;
  }

  /** The advance to an agreed marriage is logged although other advances are not. */
  lemma AgreedAdvanceIsImportant(a: string, b: string)
    ensures IsImportant("Advanced: " + a + " & " + b + MarriageAgreedArrow)
  {
    var head := "Advanced: " + a + " & " + b;
    var msg := head + MarriageAgreedArrow;
    assert msg[|head|..|head| + |MarriageAgreedArrow|] == MarriageAgreedArrow;
    ContainsAt(msg, MarriageAgreedArrow, |head|);
  }

  // ---------------------------------------------------------------------
  // Advance chance

  /**
   * What `ComputeAdvanceChance` reads from the game: the attraction
   * percentage and the clan relation (nothing when the game call throws),
   * whether both clans sit in the same kingdom, and the suitor clan's fiefs.
   */
  datatype AdvanceFactors = AdvanceFactors(attraction: Option<int>, clanRelation: Option<int>,
                                           sameKingdom: bool, fiefs: nat)

  function AttractionBonus(attraction: Option<int>): (d: real)
    ensures -0.15 <= d <= 0.15
  {
    if attraction.None? then 0.0 else Clamp((attraction.value - 50) as real / 200.0, -0.15, 0.15)
  }

  function RelationBonus(relation: Option<int>): (d: real)
    ensures -0.2 <= d <= 0.2
  {
    if relation.None? then 0.0 else Clamp(relation.value as real / 100.0, -0.2, 0.2)
  }

  /**
   * `ComputeAdvanceChance`: the base chance plus the bounded attraction and
   * relation terms, the kingdom and fief bonuses, held to [0.05, 0.90].
   * The terms add up to at most 0.80, so the upper bound never binds.
   */
  function ComputeAdvanceChance(f: AdvanceFactors): (p: real)
    ensures 0.05 <= p <= 0.90
    ensures p <= 0.8
  {
    var p := BaseAdvanceChance + AttractionBonus(f.attraction) + RelationBonus(f.clanRelation)
             + (if f.sameKingdom then 0.1 else 0.0)
             + (if f.fiefs >= 1 then 0.05 else 0.0)
             + (if f.fiefs >= 3 then 0.05 else 0.0);
    Clamp(p, 0.05, 0.90)
  }

  /** Neutral attraction and relation, no shared kingdom and no fief leave the base chance. */
  lemma NeutralAdvanceChance(attraction: Option<int>, relation: Option<int>)
    requires attraction == None || attraction == Some(50)
    requires relation == None || relation == Some(0)
    ensures ComputeAdvanceChance(AdvanceFactors(attraction, relation, false, 0)) == BaseAdvanceChance
  {
  }

  /** More attraction, a better relation, a shared kingdom or more fiefs never lower the chance. */
  lemma AdvanceChanceMonotone(f: AdvanceFactors, g: AdvanceFactors)
    requires f.attraction.Some? == g.attraction.Some?
    requires f.attraction.Some? ==> f.attraction.value <= g.attraction.value
    requires f.clanRelation.Some? == g.clanRelation.Some?
    requires f.clanRelation.Some? ==> f.clanRelation.value <= g.clanRelation.value
    requires f.sameKingdom ==> g.sameKingdom
    requires f.fiefs <= g.fiefs
    ensures ComputeAdvanceChance(f) <= ComputeAdvanceChance(g)
  {
    assert AttractionBonus(f.attraction) <= AttractionBonus(g.attraction);
    assert RelationBonus(f.clanRelation) <= RelationBonus(g.clanRelation);
  }

  // ---------------------------------------------------------------------
  // Cooldowns

  /** A timestamped key is due once `days` have elapsed since its stamp, or when it has none. */
  predicate CooldownElapsed(times: map<string, real>, key: string, now: real, days: real)
  {
    key !in times || now - times[key] >= days
  }

  /** The approach cooldown of a pair does not depend on who approaches whom. */
  lemma CooldownSymmetric(times: map<string, real>, a: HeroId, b: HeroId, now: real)
    ensures CooldownElapsed(times, PairKey(a, b), now, RomanceCooldownDays) ==
            CooldownElapsed(times, PairKey(b, a), now, RomanceCooldownDays)
  {
    PairKeySymmetric(a, b);
  }

  /** A pair stamped at `now` may act again exactly once three days have passed. */
  lemma TouchedCooldown(times: map<string, real>, a: HeroId, b: HeroId, now: real, later: real)
    ensures CooldownElapsed(times[PairKey(a, b) := now], PairKey(b, a), later, RomanceCooldownDays) <==>
            later - now >= RomanceCooldownDays
  {
    PairKeySymmetric(a, b);
  }

  // ---------------------------------------------------------------------
  // The suitor registry as values

  type Registry = map<HeroId, seq<HeroId>>

  /** A target's suitors; none when it has no entry. */
  function SuitorsOf(m: Registry, target: HeroId): seq<HeroId>
  {
    if target in m then m[target] else []
  }

  ghost predicate NoRepeatedSuitors(m: Registry)
  {
    forall t :: t in m ==> NoDuplicates(m[t])
  }

  /** `RegisterSuitor`: the target gets an entry, and the suitor joins its list unless already in it. */
  function WithSuitor(m: Registry, target: HeroId, suitor: HeroId): (r: Registry)
    ensures target in r && suitor in r[target]
    ensures forall x :: x in r[target] <==> x in SuitorsOf(m, target) || x == suitor
    ensures SuitorsOf(m, target) <= r[target] && |r[target]| <= |SuitorsOf(m, target)| + 1
    ensures NoDuplicates(SuitorsOf(m, target)) ==> NoDuplicates(r[target])
    ensures r - {target} == m - {target}
  {
    var list := SuitorsOf(m, target);
    if suitor in list then m[target := list]
    else
      AppendKeepsNoDuplicates(list, suitor);
      m[target := list + [suitor]]
  }

  lemma AppendKeepsNoDuplicates(s: seq<HeroId>, x: HeroId)
    requires x !in s
    ensures NoDuplicates(s) ==> NoDuplicates(s + [x])
  {
    if NoDuplicates(s) {
      AppendNoDuplicates(s, x);
    }
  }

  lemma RemoveFirstKeepsNoDuplicates(s: seq<HeroId>, x: HeroId)
    ensures NoDuplicates(s) ==> x !in RemoveFirst(s, x) && NoDuplicates(RemoveFirst(s, x))
  {
    if NoDuplicates(s) {
      RemoveFirstNoDuplicates(s, x);
    }
  }

  /**
   * `UnregisterSuitor`: the suitor's first occurrence leaves the target's
   * list, and an entry left empty goes (an entry that was already empty
   * goes too).
   */
  function WithoutSuitor(m: Registry, target: HeroId, suitor: HeroId): (r: Registry)
    ensures target !in m ==> r == m
    ensures target in r ==> r[target] == RemoveFirst(m[target], suitor) && r[target] != []
    ensures target in m && RemoveFirst(m[target], suitor) == [] ==> target !in r
    ensures target in m && NoDuplicates(m[target]) ==> suitor !in SuitorsOf(r, target) && NoDuplicates(SuitorsOf(r, target))
    ensures r - {target} == m - {target}
  {
    if target !in m then m
    else
      RemoveFirstKeepsNoDuplicates(m[target], suitor);
      var list := RemoveFirst(m[target], suitor);
      if list == [] then m - {target} else m[target := list]
  }

  /** Registering then unregistering a new suitor gives the target's previous list back. */
  lemma {:induction false} RegisterThenUnregister(m: Registry, target: HeroId, suitor: HeroId)
    requires target in m && m[target] != [] && suitor !in m[target]
    ensures WithoutSuitor(WithSuitor(m, target, suitor), target, suitor) == m
  {
    RemoveFirstAppend(m[target], suitor);
  }

  lemma {:induction false} RemoveFirstAppend(s: seq<HeroId>, x: HeroId)
    requires x !in s
    ensures RemoveFirst(s + [x], x) == s
  {
    if s != [] {
      assert (s + [x])[1..] == s[1..] + [x];
      RemoveFirstAppend(s[1..], x);
      assert [s[0]] + s[1..] == s;
    }
  }

  // ---------------------------------------------------------------------
  // Cleanup passes

  /**
   * The registry after `OnHeroKilled`'s pass over the remaining entries: the
   * victim's first occurrence leaves every list and every list left empty
   * goes, so no entry is empty afterwards.
   */
  function DropSuitorEverywhere(m: Registry, victim: HeroId): (r: Registry)
    ensures forall t :: t in r <==> t in m && RemoveFirst(m[t], victim) != []
    ensures forall t :: t in r ==> r[t] == RemoveFirst(m[t], victim) && r[t] != []
  {
    map t | t in m && RemoveFirst(m[t], victim) != [] :: RemoveFirst(m[t], victim)
  }

  /** Without repeated suitors, the victim is named in no list after the pass. */
  lemma DropSuitorRemovesVictim(m: Registry, victim: HeroId, t: HeroId)
    requires NoRepeatedSuitors(m)
    requires t in DropSuitorEverywhere(m, victim)
    ensures victim !in DropSuitorEverywhere(m, victim)[t]
    ensures NoDuplicates(DropSuitorEverywhere(m, victim)[t])
    ensures forall x :: x in DropSuitorEverywhere(m, victim)[t] <==> x in m[t] && x != victim
  {
    RemoveFirstNoDuplicates(m[t], victim);
  }

  /**
   * `OnDailyTickGlobal`'s cleanup: a target that is missing, dead or
   * married loses its entry, the others keep only such suitors in order,
   * and an entry left empty goes.
   */
  function Cleaned(m: Registry, valid: HeroId -> bool): (r: Registry)
    ensures forall t :: t in r ==> t in m && valid(t) && r[t] != []
    ensures forall t, x :: t in r && x in r[t] ==> valid(x) && x in m[t]
    ensures forall t :: t in m && valid(t) && Filter(m[t], valid) != [] ==> t in r && r[t] == Filter(m[t], valid)
  {
    map t | t in m && valid(t) && Filter(m[t], valid) != [] :: Filter(m[t], valid)
  }

  /** A second cleanup against the same world changes nothing. */
  lemma CleanedIdempotent(m: Registry, valid: HeroId -> bool)
    ensures Cleaned(Cleaned(m, valid), valid) == Cleaned(m, valid)
  {
    var c := Cleaned(m, valid);
    forall t | t in c
      ensures Filter(c[t], valid) == c[t]
    {
      FilterAll(c[t], valid);
    }
  }

  /** Cleanup keeps every list free of repeats. */
  lemma CleanedNoRepeats(m: Registry, valid: HeroId -> bool)
    requires NoRepeatedSuitors(m)
    ensures NoRepeatedSuitors(Cleaned(m, valid))
  {
    forall t | t in Cleaned(m, valid)
      ensures NoDuplicates(Cleaned(m, valid)[t])
    {
      FilterNoDuplicates(m[t], valid);
    }
  }

  /** The keys a death removes from a timestamp dictionary, as written: every key containing the victim's id. */
  function KeysContaining(m: map<string, real>, victim: HeroId): (doomed: set<string>)
    ensures forall k :: k in doomed <==> k in m && Contains(k, victim)
  {
    set k | k in m && Contains(k, victim)
  }

  /**
   * The substring test also removes the keys of pairs the victim is not
   * part of: the death of "lord_1" erases the cooldown of "lord_12" with
   * "lord_3".
   */
  lemma SubstringMatchForgetsOtherPair()
    ensures var m := map[PairKey("lord_12", "lord_3") := 0.0];
            PairKey("lord_12", "lord_3") in KeysContaining(m, "lord_1") &&
            !NamesHero(PairKey("lord_12", "lord_3"), "lord_1")
  {
    var k := PairKey("lord_12", "lord_3");
    assert OrdinalLess("lord_12", "lord_3") by {
      assert "lord_12"[1..] == "ord_12" && "lord_3"[1..] == "ord_3";
      assert "ord_12"[1..] == "rd_12" && "ord_3"[1..] == "rd_3";
      assert "rd_12"[1..] == "d_12" && "rd_3"[1..] == "d_3";
      assert "d_12"[1..] == "_12" && "d_3"[1..] == "_3";
      assert "_12"[1..] == "12" && "_3"[1..] == "3";
    }
    assert k == "lord_12|lord_3";
    assert k[0..|"lord_1"|] == "lord_1";
    ContainsAt(k, "lord_1", 0);
    PairKeyNames("lord_12", "lord_3", "lord_1");
  }

  /** Whether a pair key names `hero` as one of its two parts. */
  predicate NamesHero(key: string, hero: HeroId)
  {
    hero in Split(key, '|')
  }

  /** A pair key of two ids without '|' names exactly those two heroes. */
  lemma PairKeyNames(x: HeroId, y: HeroId, hero: HeroId)
    requires '|' !in x && '|' !in y
    ensures NamesHero(PairKey(x, y), hero) <==> hero == x || hero == y
  {
    SplitJoin(x, y, '|');
    SplitNoSeparator(y, '|');
    SplitJoin(y, x, '|');
    SplitNoSeparator(x, '|');
    assert x + "|" + y == x + ['|'] + y;
    assert y + "|" + x == y + ['|'] + x;
  }

  /**
   * The evidently intended removal on a death: exactly the keys that name
   * the victim as one of the pair.
   */
  function KeysNaming(m: map<string, real>, victim: HeroId): (doomed: set<string>)
    ensures forall k :: k in doomed <==> k in m && NamesHero(k, victim)
  {
    set k | k in m && NamesHero(k, victim)
  }

  /** A dictionary with the keys naming `victim` removed; every other entry is kept as it was. */
  function ForgetHeroKeys(m: map<string, real>, victim: HeroId): (r: map<string, real>)
    ensures forall k :: k in r <==> k in m && !NamesHero(k, victim)
    ensures forall k :: k in r ==> r[k] == m[k]
  {
    m - KeysNaming(m, victim)
  }

  /** With the intended removal, a pair's key survives a death exactly when neither hero died. */
  lemma ForgetHeroKeysExact(m: map<string, real>, victim: HeroId, x: HeroId, y: HeroId)
    requires '|' !in x && '|' !in y && PairKey(x, y) in m
    ensures PairKey(x, y) in ForgetHeroKeys(m, victim) <==> victim != x && victim != y
  {
    PairKeyNames(x, y, victim);
  }

  /** The removal loop over a list of doomed keys. */
  method RemoveKeys(m: map<string, real>, doomed: set<string>) returns (r: map<string, real>)
    ensures r == m - doomed
  {
    r := m;
    var pending := doomed;
    while pending != {}
      invariant pending <= doomed
      invariant r == m - (doomed - pending)
      decreases pending
    {
      var k :| k in pending;
      r := r - {k};
      pending := pending - {k};
    }
  }

  // ---------------------------------------------------------------------
  // Rivalry

  /** The rivalry ledger and the relation changes applied so far. */
  datatype RivalryState = RivalryState(ticks: map<string, real>, changes: seq<RelationChange>)

  /** One pair of the rivalry pass: penalised and stamped when its key is due. */
  function RivalryStep(st: RivalryState, a: HeroId, b: HeroId, now: real): RivalryState
  {
    var key := PairKey(a, b);
    if CooldownElapsed(st.ticks, key, now, RivalryTickDays)
    then RivalryState(st.ticks[key := now], st.changes + [RelationChange(a, b, RivalryPairPenalty)])
    else st
  }

  /** The inner loop: suitor `i` against suitors `j`, `j + 1`, ... */
  function RivalryRow(st: RivalryState, list: seq<HeroId>, i: nat, j: nat, now: real): RivalryState
    requires i < |list|
    decreases |list| - j
  {
    if j >= |list| then st
    else RivalryRow(RivalryStep(st, list[i], list[j], now), list, i, j + 1, now)
  }

  /** The outer loop: every pair `i < j`, row by row. */
  function RivalryRows(st: RivalryState, list: seq<HeroId>, i: nat, now: real): RivalryState
    decreases |list| - i
  {
    if i >= |list| then st
    else RivalryRows(RivalryRow(st, list, i, i + 1, now), list, i + 1, now)
  }

  function ChangeKey(c: RelationChange): string
  {
    PairKey(c.from, c.to)
  }

  /**
   * What a rivalry pass that started from ledger `t0` with `n0` changes
   * has done: stamps are old ones or `now`, and every change since is a
   * -3 on a pair that was due in `t0`, now stamped, and penalised once.
   */
  ghost predicate RivalryFair(t0: map<string, real>, st: RivalryState, n0: nat, now: real)
  {
    n0 <= |st.changes| &&
    (forall k :: k in t0 ==> k in st.ticks) &&
    (forall k :: k in st.ticks ==> st.ticks[k] == now || (k in t0 && st.ticks[k] == t0[k])) &&
    (forall p :: n0 <= p < |st.changes| ==>
       st.changes[p].delta == RivalryPairPenalty &&
       ChangeKey(st.changes[p]) in st.ticks && st.ticks[ChangeKey(st.changes[p])] == now &&
       CooldownElapsed(t0, ChangeKey(st.changes[p]), now, RivalryTickDays)) &&
    (forall p, q :: n0 <= p < q < |st.changes| ==> ChangeKey(st.changes[p]) != ChangeKey(st.changes[q]))
  }

  lemma RivalryStepFair(t0: map<string, real>, st: RivalryState, n0: nat, a: HeroId, b: HeroId, now: real)
    requires RivalryFair(t0, st, n0, now)
    ensures RivalryFair(t0, RivalryStep(st, a, b, now), n0, now)
  {
    var key := PairKey(a, b);
    if CooldownElapsed(st.ticks, key, now, RivalryTickDays) {
      var next := RivalryStep(st, a, b, now);
      var c := RelationChange(a, b, RivalryPairPenalty);
      assert ChangeKey(c) == key;
      assert CooldownElapsed(t0, key, now, RivalryTickDays) by {
        if key in t0 {
          assert st.ticks[key] != now;
        }
      }
      forall p | n0 <= p < |st.changes|
        ensures ChangeKey(st.changes[p]) != key
      {
        assert st.ticks[ChangeKey(st.changes[p])] == now;
      }
      forall p, q | n0 <= p < q < |next.changes|
        ensures ChangeKey(next.changes[p]) != ChangeKey(next.changes[q])
      {
        if q == |st.changes| {
          assert next.changes[q] == c;
          assert next.changes[p] == st.changes[p];
        } else {
          assert next.changes[p] == st.changes[p] && next.changes[q] == st.changes[q];
        }
      }
      forall p | n0 <= p < |next.changes|
        ensures next.changes[p].delta == RivalryPairPenalty
        ensures ChangeKey(next.changes[p]) in next.ticks && next.ticks[ChangeKey(next.changes[p])] == now
        ensures CooldownElapsed(t0, ChangeKey(next.changes[p]), now, RivalryTickDays)
      {
        if p < |st.changes| {
          assert next.changes[p] == st.changes[p];
        } else {
          assert next.changes[p] == c;
        }
      }
    }
  }

  lemma {:induction false} RivalryRowFair(t0: map<string, real>, st: RivalryState, n0: nat,
                                          list: seq<HeroId>, i: nat, j: nat, now: real)
    requires i < |list|
    requires RivalryFair(t0, st, n0, now)
    ensures RivalryFair(t0, RivalryRow(st, list, i, j, now), n0, now)
    decreases |list| - j
  {
    if j < |list| {
      var next := RivalryStep(st, list[i], list[j], now);
      assert RivalryRow(st, list, i, j, now) == RivalryRow(next, list, i, j + 1, now);
      RivalryStepFair(t0, st, n0, list[i], list[j], now);
      RivalryRowFair(t0, next, n0, list, i, j + 1, now);
    }
  }

  lemma {:induction false} RivalryRowsFair(t0: map<string, real>, st: RivalryState, n0: nat,
                                           list: seq<HeroId>, i: nat, now: real)
    requires RivalryFair(t0, st, n0, now)
    ensures RivalryFair(t0, RivalryRows(st, list, i, now), n0, now)
    decreases |list| - i
  {
    if i < |list| {
      RivalryRowFair(t0, st, n0, list, i, i + 1, now);
      RivalryRowsFair(t0, RivalryRow(st, list, i, i + 1, now), n0, list, i + 1, now);
    }
  }

  /** A row of the rivalry pass only appends relation changes. */
  lemma {:induction false} RivalryRowExtends(st: RivalryState, list: seq<HeroId>, i: nat, j: nat, now: real)
    requires i < |list|
    ensures st.changes <= RivalryRow(st, list, i, j, now).changes
    decreases |list| - j
  {
    if j < |list| {
      RivalryRowExtends(RivalryStep(st, list[i], list[j], now), list, i, j + 1, now);
    }
  }

  /** The whole rivalry pass only appends relation changes. */
  lemma {:induction false} RivalryRowsExtends(st: RivalryState, list: seq<HeroId>, i: nat, now: real)
    ensures st.changes <= RivalryRows(st, list, i, now).changes
    decreases |list| - i
  {
    if i < |list| {
      RivalryRowExtends(st, list, i, i + 1, now);
      RivalryRowsExtends(RivalryRow(st, list, i, i + 1, now), list, i + 1, now);
    }
  }

  /**
   * One rivalry pass penalises each unordered pair at most once, only
   * when its last penalty is ten days old or it has none, with -3, and
   * stamps it with `now`; no other stamp changes.
   */
  lemma RivalryPassIsFair(ticks: map<string, real>, changes: seq<RelationChange>, list: seq<HeroId>, now: real)
    ensures RivalryFair(ticks, RivalryRows(RivalryState(ticks, changes), list, 0, now), |changes|, now)
  {
    RivalryRowsFair(ticks, RivalryState(ticks, changes), |changes|, list, 0, now);
  }

  /**
   * `ApplyRivalryFalloutOnSuccess`: the winner against every living
   * listed rival other than itself, -10 each, in list order.
   */
  function Fallout(rivals: seq<HeroId>, winner: HeroId, living: HeroId -> bool): seq<RelationChange>
  {
    if rivals == [] then []
    else
      var sid := rivals[|rivals| - 1];
      Fallout(rivals[..|rivals| - 1], winner, living) +
      (if sid != winner && living(sid) then [RelationChange(winner, sid, FalloutPenalty)] else [])
  }

  /** Every fallout change is the winner's penalty against a living rival other than itself, at most one per rival. */
  lemma {:induction false} FalloutOnlyRivals(rivals: seq<HeroId>, winner: HeroId, living: HeroId -> bool)
    ensures |Fallout(rivals, winner, living)| <= |rivals|
    ensures forall c :: c in Fallout(rivals, winner, living) ==>
              c.from == winner && c.to != winner && c.to in rivals && living(c.to) && c.delta == FalloutPenalty
  {
    if rivals != [] {
      FalloutOnlyRivals(rivals[..|rivals| - 1], winner, living);
    }
  }

  /** Every living rival other than the winner is penalised. */
  lemma {:induction false} FalloutReachesRival(rivals: seq<HeroId>, winner: HeroId, living: HeroId -> bool, x: HeroId)
    requires x in rivals && x != winner && living(x)
    ensures RelationChange(winner, x, FalloutPenalty) in Fallout(rivals, winner, living)
  {
    if rivals[|rivals| - 1] != x {
      assert rivals == rivals[..|rivals| - 1] + [rivals[|rivals| - 1]];
      FalloutReachesRival(rivals[..|rivals| - 1], winner, living, x);
    }
  }

  // ---------------------------------------------------------------------
  // Flat packing of the registry

  /** Whether a saved suitor id is read back: `!string.IsNullOrEmpty`. */
  predicate IsSavedId(id: HeroId)
  {
    id != ""
  }

  /** The ids of `flat` from `lo` up to `hi` that a load keeps, in order: the non-empty ones. */
  function SavedBetween(flat: seq<HeroId>, lo: nat, hi: nat): seq<HeroId>
    requires lo <= hi <= |flat|
    decreases hi - lo
  {
    if hi == lo then []
    else SavedBetween(flat, lo, hi - 1) + (if IsSavedId(flat[hi - 1]) then [flat[hi - 1]] else [])
  }

  /** A load keeps only ids that sit between `lo` and `hi`, and only saved ones. */
  lemma {:induction false} SavedBetweenKept(flat: seq<HeroId>, lo: nat, hi: nat)
    requires lo <= hi <= |flat|
    ensures forall x :: x in SavedBetween(flat, lo, hi) ==> IsSavedId(x)
    decreases hi - lo
  {
    if hi > lo {
      SavedBetweenKept(flat, lo, hi - 1);
    }
  }

  /** A stretch of saved ids loads back unchanged. */
  lemma {:induction false} SavedBetweenAll(flat: seq<HeroId>, lo: nat, hi: nat)
    requires lo <= hi <= |flat|
    requires forall k :: lo <= k < hi ==> IsSavedId(flat[k])
    ensures SavedBetween(flat, lo, hi) == flat[lo..hi]
    decreases hi - lo
  {
    if hi > lo {
      SavedBetweenAll(flat, lo, hi - 1);
      assert flat[lo..hi] == flat[lo..hi - 1] + [flat[hi - 1]];
    }
  }

  /** The count saved for each target, in enumeration order. */
  function PackCounts(order: seq<HeroId>, m: Registry): (counts: seq<int>)
    requires forall i :: 0 <= i < |order| ==> order[i] in m
    ensures |counts| == |order|
  {
    seq(|order|, i requires 0 <= i < |order| => |m[order[i]]|)
  }

  /** All suitor lists, one after the other, in enumeration order. */
  function PackFlat(order: seq<HeroId>, m: Registry): (flat: seq<HeroId>)
    requires forall i :: 0 <= i < |order| ==> order[i] in m
  {
    if order == [] then []
    else PackFlat(order[..|order| - 1], m) + m[order[|order| - 1]]
  }

  lemma {:induction false} PackFlatAppend(a: seq<HeroId>, b: seq<HeroId>, m: Registry)
    requires forall i :: 0 <= i < |a| ==> a[i] in m
    requires forall i :: 0 <= i < |b| ==> b[i] in m
    ensures PackFlat(a + b, m) == PackFlat(a, m) + PackFlat(b, m)
  {
    if b == [] {
      assert a + b == a;
    } else {
      assert (a + b)[..|a + b| - 1] == a + b[..|b| - 1];
      PackFlatAppend(a, b[..|b| - 1], m);
    }
  }

  /** How many flat entries a target consumes: its count, cut short where the flat list ends. */
  function Taken(count: int, left: nat): (n: nat)
    ensures n <= left
    ensures count <= 0 ==> n == 0
    ensures 0 <= count <= left ==> n == count
  {
    if count <= 0 then 0 else MinInt(count, left)
  }

  /**
   * The unpacking loop from target `i` and flat position `idx` on: each
   * target takes its count of flat entries (zero past the end of the
   * counts), drops the empty ids, and replaces its entry.
   */
  function UnpackFrom(acc: Registry, targets: seq<HeroId>, counts: seq<int>, flat: seq<HeroId>,
                      i: nat, idx: nat): (r: Registry)
    requires i <= |targets| && idx <= |flat|
    decreases |targets| - i
  {
    if i == |targets| then acc
    else
      var count := if i < |counts| then counts[i] else 0;
      var n := Taken(count, |flat| - idx);
      var list := SavedBetween(flat, idx, idx + n);
      UnpackFrom(acc[targets[i] := list], targets, counts, flat, i + 1, idx + n)
  }

  /** One turn of the unpacking loop: target `i` takes its entries and the loop moves on. */
  lemma UnpackFromStep(acc: Registry, targets: seq<HeroId>, counts: seq<int>, flat: seq<HeroId>,
                       i: nat, idx: nat, n: nat, list: seq<HeroId>)
    requires i < |targets| && idx + n <= |flat| && n == Taken(if i < |counts| then counts[i] else 0, |flat| - idx)
    requires list == SavedBetween(flat, idx, idx + n)
    ensures UnpackFrom(acc, targets, counts, flat, i, idx) ==
            UnpackFrom(acc[targets[i] := list], targets, counts, flat, i + 1, idx + n)
  {
  }


  /** The unpacking loop adds an entry for each remaining target and removes none. */
  lemma {:induction false} UnpackFromKeys(acc: Registry, targets: seq<HeroId>, counts: seq<int>, flat: seq<HeroId>,
                                          i: nat, idx: nat)
    requires i <= |targets| && idx <= |flat|
    ensures forall t :: t in UnpackFrom(acc, targets, counts, flat, i, idx) <==> t in acc || t in targets[i..]
    decreases |targets| - i
  {
    if i < |targets| {
      var count := if i < |counts| then counts[i] else 0;
      var n := Taken(count, |flat| - idx);
      var list := SavedBetween(flat, idx, idx + n);
      UnpackFromKeys(acc[targets[i] := list], targets, counts, flat, i + 1, idx + n);
      assert targets[i..] == [targets[i]] + targets[i + 1..];
    }
  }

  /** No list in the registry holds an id a load would drop. */
  ghost predicate OnlySavedIds(m: Registry)
  {
    forall t :: t in m ==> forall x :: x in m[t] ==> IsSavedId(x)
  }

  /** A target whose count is its list's length, with the list next in the flat list, gets that list back. */
  lemma UnpackTakesList(list: seq<HeroId>, acc: Registry, targets: seq<HeroId>, counts: seq<int>, flat: seq<HeroId>,
                        i: nat, idx: nat)
    requires i < |targets| && i < |counts| && counts[i] == |list|
    requires idx + |list| <= |flat| && flat[idx..idx + |list|] == list
    requires forall x :: x in list ==> IsSavedId(x)
    ensures UnpackFrom(acc, targets, counts, flat, i, idx) ==
            UnpackFrom(acc[targets[i] := list], targets, counts, flat, i + 1, idx + |list|)
  {
    assert forall k :: idx <= k < idx + |list| ==> flat[k] == list[k - idx] && list[k - idx] in list;
    SavedBetweenAll(flat, idx, idx + |list|);
    assert Taken(if i < |counts| then counts[i] else 0, |flat| - idx) == |list|;
    UnpackFromStep(acc, targets, counts, flat, i, idx, |list|, list);
  }

  /** Every list the unpacking loop writes holds only saved ids. */
  lemma {:induction false} UnpackFromSaved(acc: Registry, targets: seq<HeroId>, counts: seq<int>, flat: seq<HeroId>,
                                           i: nat, idx: nat)
    requires i <= |targets| && idx <= |flat|
    requires OnlySavedIds(acc)
    ensures OnlySavedIds(UnpackFrom(acc, targets, counts, flat, i, idx))
    decreases |targets| - i
  {
    if i < |targets| {
      var count := if i < |counts| then counts[i] else 0;
      var n := Taken(count, |flat| - idx);
      var list := SavedBetween(flat, idx, idx + n);
      SavedBetweenKept(flat, idx, idx + n);
      UnpackFromSaved(acc[targets[i] := list], targets, counts, flat, i + 1, idx + n);
    }
  }

  /** The registry a load rebuilds: every saved target has an entry, and no listed id is empty. */
  function Unpack(targets: seq<HeroId>, counts: seq<int>, flat: seq<HeroId>): (r: Registry)
    ensures forall t :: t in r <==> t in targets
    ensures forall t, x :: t in r && x in r[t] ==> IsSavedId(x)
  {
    UnpackFromKeys(map[], targets, counts, flat, 0, 0);
    UnpackFromSaved(map[], targets, counts, flat, 0, 0);
    assert targets[0..] == targets;
    UnpackFrom(map[], targets, counts, flat, 0, 0)
  }

  /** The entries of `m` for the targets `keys` lists. */
  function EntriesFor(m: Registry, keys: seq<HeroId>): (r: Registry)
    requires forall k :: 0 <= k < |keys| ==> keys[k] in m
    ensures forall t :: t in r <==> t in keys
    ensures forall t :: t in r ==> r[t] == m[t]
  {
    map t | t in keys :: m[t]
  }

  /** Adding target `i`'s entry, then the rest of the suffix, adds the whole suffix. */
  lemma SuffixMapStep(m: Registry, order: seq<HeroId>, acc: Registry, i: nat)
    requires forall k :: i <= k < |order| ==> order[k] in m
    requires i < |order|
    ensures acc[order[i] := m[order[i]]] + EntriesFor(m, order[i + 1..]) == acc + EntriesFor(m, order[i..])
  {
    assert order[i..] == [order[i]] + order[i + 1..];
  }

  /** A suffix made of two parts: the first part sits right at `idx`, the second right after it. */
  lemma SuffixSplit(flat: seq<HeroId>, idx: nat, a: seq<HeroId>, b: seq<HeroId>)
    requires idx <= |flat| && flat[idx..] == a + b
    ensures idx + |a| <= |flat| && flat[idx..idx + |a|] == a && flat[idx + |a|..] == b
  {
    assert flat[idx..][..|a|] == flat[idx..idx + |a|];
    assert flat[idx..][|a|..] == flat[idx + |a|..];
  }

  /** The flat list of a non-empty run of targets: the first target's list, then the rest. */
  lemma PackFlatFirst(m: Registry, order: seq<HeroId>)
    requires forall k :: 0 <= k < |order| ==> order[k] in m
    requires order != []
    ensures PackFlat(order, m) == m[order[0]] + PackFlat(order[1..], m)
  {
    assert order == [order[0]] + order[1..];
    PackFlatAppend([order[0]], order[1..], m);
    assert [order[0]][..0] == [];
  }

  /** One target of the round trip: its entry comes back, and the rest follows from the later targets. */
  lemma UnpackPackedStep(m: Registry, targets: seq<HeroId>, counts: seq<int>, flat: seq<HeroId>,
                         acc: Registry, i: nat, idx: nat)
    requires i < |targets| == |counts| && targets[i] in m && counts[i] == |m[targets[i]]|
    requires forall k :: i < k < |targets| ==> targets[k] in m
    requires forall x :: x in m[targets[i]] ==> IsSavedId(x)
    requires idx + |m[targets[i]]| <= |flat| && flat[idx..idx + |m[targets[i]]|] == m[targets[i]]
    requires UnpackFrom(acc[targets[i] := m[targets[i]]], targets, counts, flat, i + 1, idx + |m[targets[i]]|) ==
             acc[targets[i] := m[targets[i]]] + EntriesFor(m, targets[i + 1..])
    ensures UnpackFrom(acc, targets, counts, flat, i, idx) == acc + EntriesFor(m, targets[i..])
  {
    UnpackTakesList(m[targets[i]], acc, targets, counts, flat, i, idx);
    SuffixMapStep(m, targets, acc, i);
  }

  /**
   * From target `i` on, when each count is the length of its target's
   * list and the flat list from `idx` on is those lists one after the
   * other, the unpacking loop adds exactly those entries.
   */
  lemma {:induction false} UnpackPackedFrom(m: Registry, targets: seq<HeroId>, counts: seq<int>, flat: seq<HeroId>,
                                            acc: Registry, i: nat, idx: nat)
    requires OnlySavedIds(m)
    requires i <= |targets| == |counts| && idx <= |flat|
    requires forall k :: i <= k < |targets| ==> targets[k] in m && counts[k] == |m[targets[k]]|
    requires flat[idx..] == PackFlat(targets[i..], m)
    ensures UnpackFrom(acc, targets, counts, flat, i, idx) == acc + EntriesFor(m, targets[i..])
    decreases |targets| - i
  {
    if i == |targets| {
      assert acc + EntriesFor(m, targets[i..]) == acc;
    } else {
      var t := targets[i];
      var rest := targets[i + 1..];
      assert targets[i..][1..] == rest;
      PackFlatFirst(m, targets[i..]);
      SuffixSplit(flat, idx, m[t], PackFlat(rest, m));
      UnpackPackedFrom(m, targets, counts, flat, acc[t := m[t]], i + 1, idx + |m[t]|);
      UnpackPackedStep(m, targets, counts, flat, acc, i, idx);
    }
  }

  /**
   * Packing a registry and unpacking the three lists gives it back, as
   * long as no listed suitor id is empty.
   */
  lemma PackUnpackRoundTrip(m: Registry, order: seq<HeroId>)
    requires IsEnumeration(order, m)
    requires OnlySavedIds(m)
    ensures Unpack(order, PackCounts(order, m), PackFlat(order, m)) == m
  {
    var flat := PackFlat(order, m);
    assert order[0..] == order && flat[0..] == flat;
    UnpackPackedFrom(m, order, PackCounts(order, m), flat, map[], 0, 0);
    assert map[] + EntriesFor(m, order) == m;
  }

  // ---------------------------------------------------------------------
  // The behaviour

  /**
   * One lord's turn in a clan tick, as the game presents it: whether the
   * lord is free to court, the target chosen for it (if any), their
   * romance level, whether the final checks pass, the advance factors and
   * the two random rolls.
   */
  datatype LordTurn = LordTurn(lord: HeroId, freeToCourt: bool, target: Option<HeroId>, level: RomanceLevel,
                               checksPass: bool, factors: AdvanceFactors, roll: real, failRoll: real)

  /** `after` keeps every key of `before`, and each of its entries is either stamped `now` or unchanged. */
  ghost predicate StampedOrKept(before: map<string, real>, after: map<string, real>, now: real)
  {
    (forall k :: k in before ==> k in after) &&
    forall k :: k in after ==> after[k] == now || (k in before && after[k] == before[k])
  }

  /** The levels at which a turn approaches the target, behind the cooldown. */
  predicate IsApproachLevel(level: RomanceLevel)
  {
    level == Untested || level == CourtshipStarted || level == CoupleDecidedThatTheyAreCompatible
  }

  /** The level an advance aims at, and the level a hard failure leaves. */
  function NextLevel(level: RomanceLevel): RomanceLevel
  {
    if level == CourtshipStarted then CoupleDecidedThatTheyAreCompatible else CoupleAgreedOnMarriage
  }

  function FailLevel(to: RomanceLevel): (r: RomanceLevel)
    ensures r == FailedInCompatibility || r == FailedInPracticalities
  {
    if to == CoupleDecidedThatTheyAreCompatible then FailedInCompatibility else FailedInPracticalities
  }

  // ---------------------------------------------------------------------
  // The clan pass

  /** The state a clan pass works on: the cooldowns, the registry, the rivalry ledger and the effects applied. */
  datatype RomanceState = RomanceState(lastApproach: map<string, real>, suitors: Registry,
                                       lastRivalryTick: map<string, real>, events: seq<RomanceEvent>,
                                       relationChanges: seq<RelationChange>)

  /**
   * One lord's courtship step against target `b`. At the three approach
   * levels nothing happens while the pair's cooldown runs. An untested
   * pair starts courting: the lord joins the target's suitors and the
   * cooldown is stamped. A courting pair whose final checks pass advances
   * on a roll under the advance chance (stamping the cooldown), or on a
   * fail roll under 0.15 fails and the lord leaves the suitors. An agreed
   * couple that passes the final checks marries: the rivals take the
   * fallout and the target's suitor entry goes.
   */
  function CourtStep(st: RomanceState, t: LordTurn, b: HeroId, now: real, living: HeroId -> bool): RomanceState
  {
    var a := t.lord;
    var key := PairKey(a, b);
    var ok := CooldownElapsed(st.lastApproach, key, now, RomanceCooldownDays);
    if t.level == Untested then
      if ok then
        st.(events := st.events + [LevelChanged(a, b, CourtshipStarted)],
            suitors := WithSuitor(st.suitors, b, a), lastApproach := st.lastApproach[key := now])
      else st
    else if t.level == CourtshipStarted || t.level == CoupleDecidedThatTheyAreCompatible then
      if !ok || !t.checksPass then st
      else if t.roll < ComputeAdvanceChance(t.factors) then
        st.(events := st.events + [LevelChanged(a, b, NextLevel(t.level))], lastApproach := st.lastApproach[key := now])
      else if t.failRoll < HardFailChance then
        st.(events := st.events + [LevelChanged(a, b, FailLevel(NextLevel(t.level)))],
            suitors := WithoutSuitor(st.suitors, b, a))
      else st
    else if t.level == CoupleAgreedOnMarriage && t.checksPass then
      st.(events := st.events + [Married(a, b)],
          relationChanges := st.relationChanges + Fallout(SuitorsOf(st.suitors, b), a, living),
          suitors := st.suitors - {b})
    else st
  }

  /** The rivalry pass over target `b`'s living suitors, when it has at least two. */
  function RivalryTick(st: RomanceState, b: HeroId, now: real, living: HeroId -> bool): RomanceState
  {
    if b !in st.suitors || |st.suitors[b]| <= 1 then st
    else
      var r := RivalryRows(RivalryState(st.lastRivalryTick, st.relationChanges), Filter(st.suitors[b], living), 0, now);
      st.(lastRivalryTick := r.ticks, relationChanges := r.changes)
  }

  /** One lord's turn: a lord free to court with a target courts it, then the target's rivalries tick. */
  function TurnStep(st: RomanceState, t: LordTurn, now: real, living: HeroId -> bool): RomanceState
  {
    if t.freeToCourt && t.target.Some? then
      RivalryTick(CourtStep(st, t, t.target.value, now, living), t.target.value, now, living)
    else st
  }

  /** The turns of a clan pass, taken in order. */
  function ClanTurns(st: RomanceState, turns: seq<LordTurn>, now: real, living: HeroId -> bool): RomanceState
  {
    if turns == [] then st
    else TurnStep(ClanTurns(st, turns[..|turns| - 1], now, living), turns[|turns| - 1], now, living)
  }

  /** Event `e` is about turn `t`'s lord and its target, and the lord was free to court. */
  predicate ActsFor(e: RomanceEvent, t: LordTurn)
  {
    t.freeToCourt && t.target.Some? && e.a == t.lord && e.b == t.target.value
  }

  /**
   * A courtship step stamps at most the pair's own cooldown, and only at
   * an approach level once it has elapsed; a pair still cooling down at an
   * approach level changes nothing.
   */
  lemma CourtStepStamps(st: RomanceState, t: LordTurn, b: HeroId, now: real, living: HeroId -> bool)
    ensures var r := CourtStep(st, t, b, now, living);
            var key := PairKey(t.lord, b);
            (r.lastApproach == st.lastApproach ||
             (r.lastApproach == st.lastApproach[key := now] && IsApproachLevel(t.level) &&
              CooldownElapsed(st.lastApproach, key, now, RomanceCooldownDays))) &&
            r.lastRivalryTick == st.lastRivalryTick &&
            (IsApproachLevel(t.level) && !CooldownElapsed(st.lastApproach, key, now, RomanceCooldownDays) ==> r == st)
  {
    if !IsApproachLevel(t.level) {
      assert CourtStep(st, t, b, now, living).lastApproach == st.lastApproach;
    }
  }

  /**
   * A courtship step adds at most one event, about the lord and its
   * target, and only appends relation changes.
   */
  lemma CourtStepAppends(st: RomanceState, t: LordTurn, b: HeroId, now: real, living: HeroId -> bool)
    ensures var r := CourtStep(st, t, b, now, living);
            st.events <= r.events && |r.events| <= |st.events| + 1 &&
            (|r.events| > |st.events| ==> r.events[|st.events|].a == t.lord && r.events[|st.events|].b == b) &&
            st.relationChanges <= r.relationChanges
  {
    var r := CourtStep(st, t, b, now, living);
    if IsApproachLevel(t.level) {
      assert r.relationChanges == st.relationChanges;
    } else if t.level == CoupleAgreedOnMarriage && t.checksPass {
      assert r.events == st.events + [Married(t.lord, b)];
    } else {
      assert r == st;
    }
  }

  /** The rivalry pass stamps or keeps each rivalry key, touches nothing but the ledger and the changes, and only appends changes. */
  lemma RivalryTickBounds(st: RomanceState, b: HeroId, now: real, living: HeroId -> bool)
    ensures var r := RivalryTick(st, b, now, living);
            r.lastApproach == st.lastApproach && r.suitors == st.suitors && r.events == st.events &&
            st.relationChanges <= r.relationChanges && StampedOrKept(st.lastRivalryTick, r.lastRivalryTick, now)
  {
    if b in st.suitors && |st.suitors[b]| > 1 {
      RivalryPassIsFair(st.lastRivalryTick, st.relationChanges, Filter(st.suitors[b], living), now);
      RivalryRowsExtends(RivalryState(st.lastRivalryTick, st.relationChanges), Filter(st.suitors[b], living), 0, now);
    }
  }

  lemma StampedOrKeptTransitive(a: map<string, real>, b: map<string, real>, c: map<string, real>, now: real)
    requires StampedOrKept(a, b, now) && StampedOrKept(b, c, now)
    ensures StampedOrKept(a, c, now)
  {
  }

  /** Event `e` is about one of the turns' lords and its target. */
  predicate ActsForSome(e: RomanceEvent, turns: seq<LordTurn>)
  {
    exists t :: t in turns && ActsFor(e, t)
  }

  /**
   * A clan pass only stamps cooldowns with `now` and keeps the others, only
   * appends events and relation changes, adds at most one event per turn,
   * and every event it adds is about a lord free to court and its target.
   */
  lemma {:induction false} ClanTurnsBounds(st: RomanceState, turns: seq<LordTurn>, now: real, living: HeroId -> bool)
    ensures var r := ClanTurns(st, turns, now, living);
            StampedOrKept(st.lastApproach, r.lastApproach, now) &&
            StampedOrKept(st.lastRivalryTick, r.lastRivalryTick, now) &&
            st.events <= r.events && |r.events| <= |st.events| + |turns| &&
            st.relationChanges <= r.relationChanges &&
            forall p :: |st.events| <= p < |r.events| ==> ActsForSome(r.events[p], turns)
  {
    if turns != [] {
      var init := turns[..|turns| - 1];
      var t := turns[|turns| - 1];
      ClanTurnsBounds(st, init, now, living);
      var mid := ClanTurns(st, init, now, living);
      var r := ClanTurns(st, turns, now, living);
      assert r == TurnStep(mid, t, now, living);
      if t.freeToCourt && t.target.Some? {
        var c := CourtStep(mid, t, t.target.value, now, living);
        CourtStepStamps(mid, t, t.target.value, now, living);
        CourtStepAppends(mid, t, t.target.value, now, living);
        RivalryTickBounds(c, t.target.value, now, living);
        StampedOrKeptTransitive(st.lastApproach, mid.lastApproach, r.lastApproach, now);
        StampedOrKeptTransitive(st.lastRivalryTick, mid.lastRivalryTick, r.lastRivalryTick, now);
        forall p | |st.events| <= p < |r.events|
          ensures ActsForSome(r.events[p], turns)
        {
          if p < |mid.events| {
            assert r.events[p] == mid.events[p];
            ActsForSomeExtends(mid.events[p], init, turns);
          } else {
            assert r.events[p] == c.events[|mid.events|];
            assert t in turns && ActsFor(r.events[p], t);
          }
        }
      } else {
        assert r.events == mid.events;
        forall p | |st.events| <= p < |r.events|
          ensures ActsForSome(r.events[p], turns)
        {
          ActsForSomeExtends(mid.events[p], init, turns);
        }
      }
    }
  }

  lemma ActsForSomeExtends(e: RomanceEvent, init: seq<LordTurn>, turns: seq<LordTurn>)
    requires ActsForSome(e, init) && init <= turns
    ensures ActsForSome(e, turns)
  {
    var t :| t in init && ActsFor(e, t);
    assert t in turns;
  }

  /** The saved form of the behaviour's four dictionaries. */
  datatype RomanceSave = RomanceSave(approachKeys: seq<string>, approachDays: seq<real>,
                                     targets: seq<HeroId>, counts: seq<int>, suitorsFlat: seq<HeroId>,
                                     rivalryKeys: seq<string>, rivalryDays: seq<real>,
                                     clanKeys: seq<string>, clanDays: seq<real>)

  /** `NpcRomanceCampaignBehavior`: its four dictionaries, and the romance and relation actions it has applied. */
  class NpcRomanceCampaignBehavior {
    var lastApproach: map<string, real>
    var suitors: Registry
    var lastRivalryTick: map<string, real>
    var lastClanProcess: map<string, real>
    var events: seq<RomanceEvent>
    var relationChanges: seq<RelationChange>

    /** The fields a clan pass works on, as one value. */
    function RState(): RomanceState
      reads this
    {
      RomanceState(lastApproach, suitors, lastRivalryTick, events, relationChanges)
    }

    constructor ()
      ensures lastApproach == map[] && suitors == map[] && lastRivalryTick == map[] && lastClanProcess == map[]
      ensures events == [] && relationChanges == []
    {
      lastApproach := map[];
      suitors := map[];
      lastRivalryTick := map[];
      lastClanProcess := map[];
      events := [];
      relationChanges := [];
    }

    /** `GetSuitorList`: a fresh list for no target; otherwise the target's list, created empty and stored when missing. */
    method GetSuitorList(target: Option<HeroId>) returns (list: seq<HeroId>)
      modifies this`suitors
      ensures target.None? ==> list == [] && suitors == old(suitors)
      ensures target.Some? ==> list == SuitorsOf(old(suitors), target.value) &&
                               suitors == old(suitors)[target.value := list]
    {
      if target.None? {
        return [];
      }
      var t := target.value;
      if t !in suitors {
        suitors := suitors[t := []];
      }
      list := suitors[t];
    }

    /** `RegisterSuitor`. */
    method RegisterSuitor(target: HeroId, suitor: HeroId)
      modifies this`suitors
      ensures suitors == WithSuitor(old(suitors), target, suitor)
    {
      var list := GetSuitorList(Some(target));
      if suitor !in list {
        suitors := suitors[target := list + [suitor]];
      }
    }

    /** `UnregisterSuitor`: nothing for no target. */
    method UnregisterSuitor(target: Option<HeroId>, suitor: HeroId)
      modifies this`suitors
      ensures target.None? ==> suitors == old(suitors)
      ensures target.Some? ==> suitors == WithoutSuitor(old(suitors), target.value, suitor)
    {
      if target.None? {
        return;
      }
      var t := target.value;
      if t in suitors {
        var list := RemoveFirst(suitors[t], suitor);
        suitors := suitors[t := list];
        if |list| == 0 {
          suitors := suitors - {t};
        }
      }
    }

    /** `ClearRivals`: the target's entry goes. */
    method ClearRivals(target: Option<HeroId>)
      modifies this`suitors
      ensures target.None? ==> suitors == old(suitors)
      ensures target.Some? ==> suitors == old(suitors) - {target.value}
    {
      if target.Some? {
        suitors := suitors - {target.value};
      }
    }

    /** `TouchCooldown`: the pair's approach is stamped with now. */
    method TouchCooldown(a: HeroId, b: HeroId, now: real)
      modifies this`lastApproach
      ensures lastApproach == old(lastApproach)[PairKey(a, b) := now]
      ensures forall later :: CooldownElapsed(lastApproach, PairKey(b, a), later, RomanceCooldownDays) <==>
                              later - now >= RomanceCooldownDays
    {
      lastApproach := lastApproach[PairKey(a, b) := now];
      PairKeySymmetric(a, b);
    }

    /**
     * `TryAdvance`: with the final checks passing, a roll under the
     * advance chance moves the pair to `to`; otherwise a fail roll under
     * 0.15 ends the romance and unregisters the suitor.
     */
    method TryAdvance(a: HeroId, b: HeroId, to: RomanceLevel, checksPass: bool, factors: AdvanceFactors,
                      roll: real, failRoll: real) returns (advanced: bool)
      modifies this`events, this`suitors
      ensures advanced <==> checksPass && roll < ComputeAdvanceChance(factors)
      ensures advanced ==> events == old(events) + [LevelChanged(a, b, to)] && suitors == old(suitors)
      ensures !advanced && checksPass && failRoll < HardFailChance ==>
                events == old(events) + [LevelChanged(a, b, FailLevel(to))] &&
                suitors == WithoutSuitor(old(suitors), b, a)
      ensures !advanced && !(checksPass && failRoll < HardFailChance) ==>
                events == old(events) && suitors == old(suitors)
    {
      if !checksPass {
        return false;
      }
      var p := ComputeAdvanceChance(factors);
      if roll < p {
        events := events + [LevelChanged(a, b, to)];
        return true;
      }
      if failRoll < HardFailChance {
        events := events + [LevelChanged(a, b, FailLevel(to))];
        UnregisterSuitor(Some(b), a);
      }
      return false;
    }

    /** `ApplyRivalryFalloutOnSuccess`: nothing without both heroes or without an entry. */
    method ApplyRivalryFalloutOnSuccess(target: Option<HeroId>, winner: Option<HeroId>, living: HeroId -> bool)
      modifies this`relationChanges
      ensures target.None? || winner.None? || target.value !in suitors ==> relationChanges == old(relationChanges)
      ensures target.Some? && winner.Some? && target.value in suitors ==>
                relationChanges == old(relationChanges) + Fallout(suitors[target.value], winner.value, living)
    {
      if target.None? || winner.None? || target.value !in suitors {
        return;
      }
      var rivals := suitors[target.value];
      var w := winner.value;
      var i := 0;
      while i < |rivals|
        invariant 0 <= i <= |rivals|
        invariant relationChanges == old(relationChanges) + Fallout(rivals[..i], w, living)
      {
        assert rivals[..i + 1][..i] == rivals[..i];
        var sid := rivals[i];
        if sid != w && living(sid) {
          relationChanges := relationChanges + [RelationChange(w, sid, FalloutPenalty)];
        }
        i := i + 1;
      }
      assert rivals[..i] == rivals;
    }

    /**
     * `TickRivalries`: with at least two suitors listed, every pair of
     * living suitors is penalised when its rivalry stamp is due.
     */
    method TickRivalries(target: Option<HeroId>, now: real, living: HeroId -> bool)
      modifies this`lastRivalryTick, this`relationChanges
      ensures target.None? || target.value !in suitors || |suitors[target.value]| <= 1 ==>
                lastRivalryTick == old(lastRivalryTick) && relationChanges == old(relationChanges)
      ensures target.Some? && target.value in suitors && |suitors[target.value]| > 1 ==>
                RivalryState(lastRivalryTick, relationChanges) ==
                RivalryRows(RivalryState(old(lastRivalryTick), old(relationChanges)),
                            Filter(suitors[target.value], living), 0, now)
      ensures target.Some? ==> RState() == RivalryTick(old(RState()), target.value, now, living)
    {
      if target.None? || target.value !in suitors || |suitors[target.value]| <= 1 {
        return;
      }
      var list := Filter(suitors[target.value], living);
      ghost var st0 := RivalryState(lastRivalryTick, relationChanges);
      var i := 0;
      while i < |list|
        invariant 0 <= i <= |list|
        invariant RivalryRows(st0, list, 0, now) == RivalryRows(RivalryState(lastRivalryTick, relationChanges), list, i, now)
      {
        var j := i + 1;
        while j < |list|
          invariant i + 1 <= j <= |list|
          invariant RivalryRows(st0, list, 0, now) ==
                    RivalryRows(RivalryRow(RivalryState(lastRivalryTick, relationChanges), list, i, j, now), list, i + 1, now)
        {
          var a, b := list[i], list[j];
          var key := PairKey(a, b);
          if key !in lastRivalryTick || now - lastRivalryTick[key] >= RivalryTickDays {
            relationChanges := relationChanges + [RelationChange(a, b, RivalryPairPenalty)];
            lastRivalryTick := lastRivalryTick[key := now];
          }
          j := j + 1;
        }
        i := i + 1;
      }
    }

    /**
     * One lord's courtship step against target `b`: at the three approach
     * levels nothing happens while the pair's cooldown runs; otherwise the
     * courtship starts (and the lord joins the target's suitors) or an
     * advance is tried, and a successful action stamps the cooldown. An
     * agreed couple that passes the final checks marries: the rivals take
     * the fallout and the target's suitor entry goes.
     */
    method Court(t: LordTurn, b: HeroId, now: real, living: HeroId -> bool)
      modifies this`lastApproach, this`suitors, this`events, this`relationChanges
      ensures old(events) <= events && |events| <= |old(events)| + 1
      ensures lastApproach == old(lastApproach) ||
              (lastApproach == old(lastApproach)[PairKey(t.lord, b) := now] && IsApproachLevel(t.level) &&
               CooldownElapsed(old(lastApproach), PairKey(t.lord, b), now, RomanceCooldownDays))
      ensures IsApproachLevel(t.level) && !CooldownElapsed(old(lastApproach), PairKey(t.lord, b), now, RomanceCooldownDays) ==>
                lastApproach == old(lastApproach) && suitors == old(suitors) && events == old(events)
      ensures IsApproachLevel(t.level) ==> relationChanges == old(relationChanges)
      ensures t.level == Untested && CooldownElapsed(old(lastApproach), PairKey(t.lord, b), now, RomanceCooldownDays) ==>
                events == old(events) + [LevelChanged(t.lord, b, CourtshipStarted)] &&
                suitors == WithSuitor(old(suitors), b, t.lord) &&
                lastApproach == old(lastApproach)[PairKey(t.lord, b) := now]
      ensures (t.level == CourtshipStarted || t.level == CoupleDecidedThatTheyAreCompatible) &&
              lastApproach != old(lastApproach) ==>
                events == old(events) + [LevelChanged(t.lord, b, NextLevel(t.level))]
      ensures t.level == CoupleAgreedOnMarriage ==>
                lastApproach == old(lastApproach) &&
                (t.checksPass ==> events == old(events) + [Married(t.lord, b)] && suitors == old(suitors) - {b} &&
                                  relationChanges == old(relationChanges) + Fallout(SuitorsOf(old(suitors), b), t.lord, living)) &&
                (!t.checksPass ==> events == old(events) && suitors == old(suitors) && relationChanges == old(relationChanges))
      ensures !IsApproachLevel(t.level) && t.level != CoupleAgreedOnMarriage ==>
                lastApproach == old(lastApproach) && suitors == old(suitors) && events == old(events) &&
                relationChanges == old(relationChanges)
      ensures RState() == CourtStep(old(RState()), t, b, now, living)
    {
      var a := t.lord;
      var ok := CooldownElapsed(lastApproach, PairKey(a, b), now, RomanceCooldownDays);
      if t.level == Untested {
        if ok {
          events := events + [LevelChanged(a, b, CourtshipStarted)];
          RegisterSuitor(b, a);
          TouchCooldown(a, b, now);
        }
      } else if t.level == CourtshipStarted || t.level == CoupleDecidedThatTheyAreCompatible {
        if ok {
          var advanced := TryAdvance(a, b, NextLevel(t.level), t.checksPass, t.factors, t.roll, t.failRoll);
          if advanced {
            TouchCooldown(a, b, now);
          }
        }
      } else if t.level == CoupleAgreedOnMarriage {
        if t.checksPass {
          events := events + [Married(a, b)];
          ApplyRivalryFalloutOnSuccess(Some(b), Some(a), living);
          ClearRivals(Some(b));
        }
      }
    }

    /**
     * `OnDailyTickClan`: nothing for the player's or an eliminated clan, or
     * within three days of the clan's last pass; otherwise the pass is
     * stamped and each lord free to court and given a target takes a
     * courtship step, followed by the rivalry pass over that target.
     */
    method OnDailyTickClan(clan: string, isPlayerClan: bool, isEliminated: bool, now: real,
                           turns: seq<LordTurn>, living: HeroId -> bool)
      modifies this`lastClanProcess, this`lastApproach, this`suitors, this`events,
               this`relationChanges, this`lastRivalryTick
      ensures isPlayerClan || isEliminated || !CooldownElapsed(old(lastClanProcess), clan, now, ClanProcessIntervalDays) ==>
                unchanged(this)
      ensures !isPlayerClan && !isEliminated && CooldownElapsed(old(lastClanProcess), clan, now, ClanProcessIntervalDays) ==>
                lastClanProcess == old(lastClanProcess)[clan := now]
      ensures StampedOrKept(old(lastApproach), lastApproach, now)
      ensures old(events) <= events
      ensures old(relationChanges) <= relationChanges
      ensures !isPlayerClan && !isEliminated && CooldownElapsed(old(lastClanProcess), clan, now, ClanProcessIntervalDays) ==>
                RState() == ClanTurns(old(RState()), turns, now, living)
    {
      if isPlayerClan || isEliminated {
        return;
      }
      if clan in lastClanProcess && now - lastClanProcess[clan] < ClanProcessIntervalDays {
        return;
      }
      lastClanProcess := lastClanProcess[clan := now];
      var i := 0;
      while i < |turns|
        invariant 0 <= i <= |turns|
        invariant lastClanProcess == old(lastClanProcess)[clan := now]
        invariant RState() == ClanTurns(old(RState()), turns[..i], now, living)
      {
        assert turns[..i + 1][..i] == turns[..i];
        TakeTurn(turns[i], now, living);
        i := i + 1;
      }
      assert turns[..i] == turns;
      ClanTurnsBounds(old(RState()), turns, now, living);
    }

    /** One lord's turn: a lord free to court with a target courts it, then the target's rivalries tick. */
    method TakeTurn(t: LordTurn, now: real, living: HeroId -> bool)
      modifies this`lastApproach, this`suitors, this`events, this`relationChanges, this`lastRivalryTick
      ensures StampedOrKept(old(lastApproach), lastApproach, now)
      ensures old(events) <= events
      ensures old(relationChanges) <= relationChanges
      ensures RState() == TurnStep(old(RState()), t, now, living)
    {
      ClanTurnsBounds(RState(), [t], now, living);
      assert [t][..0] == [];
      if t.freeToCourt && t.target.Some? {
        var b := t.target.value;
        Court(t, b, now, living);
        TickRivalries(Some(b), now, living);
      }
    }

    /**
     * `OnHeroKilled`: the victim's entry goes, the victim leaves every
     * list and emptied entries go, and every cooldown and rivalry key
     * naming the victim is removed (the corrected key test, see
     * `ForgetHeroKeys`; the source matches any key containing the id).
     */
    method OnHeroKilled(victim: Option<HeroId>)
      modifies this`suitors, this`lastApproach, this`lastRivalryTick
      ensures victim.None? ==> unchanged(this)
      ensures victim.Some? ==>
                suitors == DropSuitorEverywhere(old(suitors) - {victim.value}, victim.value) &&
                lastApproach == ForgetHeroKeys(old(lastApproach), victim.value) &&
                lastRivalryTick == ForgetHeroKeys(old(lastRivalryTick), victim.value)
      ensures victim.Some? ==> victim.value !in suitors && forall t :: t in suitors ==> suitors[t] != []
    {
      if victim.None? {
        return;
      }
      var v := victim.value;
      suitors := suitors - {v};
      DropVictim(v);
      lastApproach := RemoveKeys(lastApproach, KeysNaming(lastApproach, v));
      lastRivalryTick := RemoveKeys(lastRivalryTick, KeysNaming(lastRivalryTick, v));
    }

    /** The pass of `OnHeroKilled` over the registry's keys. */
    method DropVictim(v: HeroId)
      modifies this`suitors
      ensures suitors == DropSuitorEverywhere(old(suitors), v)
    {
      ghost var s0 := suitors;
      var pending := suitors.Keys;
      while pending != {}
        invariant pending <= s0.Keys
        invariant forall t :: t in suitors <==> t in s0 && (t in pending || RemoveFirst(s0[t], v) != [])
        invariant forall t :: t in suitors ==> suitors[t] == if t in pending then s0[t] else RemoveFirst(s0[t], v)
        decreases pending
      {
        var k :| k in pending;
        var list := RemoveFirst(suitors[k], v);
        suitors := suitors[k := list];
        if |list| == 0 {
          suitors := suitors - {k};
        }
        pending := pending - {k};
      }
    }

    /**
     * `OnDailyTickGlobal`: `valid` tells whether a hero exists, lives and
     * is unmarried; the registry becomes its cleanup against that.
     */
    method OnDailyTickGlobal(valid: HeroId -> bool)
      modifies this`suitors
      ensures suitors == Cleaned(old(suitors), valid)
    {
      ghost var s0 := suitors;
      var pending := suitors.Keys;
      while pending != {}
        invariant pending <= s0.Keys
        invariant forall t :: t in suitors <==> t in s0 && (t in pending || (valid(t) && Filter(s0[t], valid) != []))
        invariant forall t :: t in suitors ==> suitors[t] == if t in pending then s0[t] else Filter(s0[t], valid)
        decreases pending
      {
        var k :| k in pending;
        if !valid(k) {
          suitors := suitors - {k};
        } else {
          var list := Filter(suitors[k], valid);
          suitors := suitors[k := list];
          if |list| == 0 {
            suitors := suitors - {k};
          }
        }
        pending := pending - {k};
      }
    }

    /** The flat packing loop of a save, over the registry in enumeration order. */
    method PackSuitors(order: seq<HeroId>) returns (targets: seq<HeroId>, counts: seq<int>, flat: seq<HeroId>)
      requires IsEnumeration(order, suitors)
      ensures targets == order && counts == PackCounts(order, suitors) && flat == PackFlat(order, suitors)
    {
      targets, counts, flat := [], [], [];
      var i := 0;
      while i < |order|
        invariant 0 <= i <= |order|
        invariant targets == order[..i]
        invariant counts == PackCounts(order[..i], suitors)
        invariant flat == PackFlat(order[..i], suitors)
      {
        var list := suitors[order[i]];
        assert order[..i + 1] == order[..i] + [order[i]];
        assert order[..i + 1][..i] == order[..i];
        targets := targets + [order[i]];
        counts := counts + [|list|];
        flat := flat + list;
        i := i + 1;
      }
      assert order[..i] == order;
    }

    /** The inner loop of a load: up to `count` flat ids from `idx`, keeping the non-empty ones. */
    static method TakeIds(flat: seq<HeroId>, idx: nat, count: int) returns (list: seq<HeroId>, next: nat)
      requires idx <= |flat|
      ensures next == idx + Taken(count, |flat| - idx) && next <= |flat|
      ensures list == SavedBetween(flat, idx, next)
    {
      list := [];
      next := idx;
      var j := 0;
      while j < count && next < |flat|
        invariant idx <= next <= |flat|
        invariant j == next - idx && j <= MaxInt(count, 0)
        invariant list == SavedBetween(flat, idx, next)
      {
        if flat[next] != "" {
          list := list + [flat[next]];
        }
        j := j + 1;
        next := next + 1;
      }
    }

    /** The unpacking loop of a load: targets, counts and flat ids back into the registry. */
    method UnpackSuitors(targets: seq<HeroId>, counts: seq<int>, flat: seq<HeroId>)
      modifies this`suitors
      ensures suitors == Unpack(targets, counts, flat)
    {
      suitors := map[];
      var idx := 0;
      var i := 0;
      while i < |targets|
        invariant 0 <= i <= |targets| && 0 <= idx <= |flat|
        invariant UnpackFrom(suitors, targets, counts, flat, i, idx) == Unpack(targets, counts, flat)
      {
        var count := if i < |counts| then counts[i] else 0;
        var list, next := TakeIds(flat, idx, count);
        UnpackFromStep(suitors, targets, counts, flat, i, idx, next - idx, list);
        suitors := suitors[targets[i] := list];
        idx := next;
        i := i + 1;
      }
    }

    /** `SyncData` when saving: the four dictionaries, each in the given enumeration order. */
    method Save(approachOrder: seq<string>, targetOrder: seq<HeroId>, rivalryOrder: seq<string>, clanOrder: seq<string>)
      returns (s: RomanceSave)
      requires IsEnumeration(approachOrder, lastApproach) && IsEnumeration(targetOrder, suitors)
      requires IsEnumeration(rivalryOrder, lastRivalryTick) && IsEnumeration(clanOrder, lastClanProcess)
      ensures s == RomanceSave(approachOrder, SavedValues(approachOrder, lastApproach),
                               targetOrder, PackCounts(targetOrder, suitors), PackFlat(targetOrder, suitors),
                               rivalryOrder, SavedValues(rivalryOrder, lastRivalryTick),
                               clanOrder, SavedValues(clanOrder, lastClanProcess))
    {
      var ak, ad := SaveParallel(lastApproach, approachOrder);
      var targets, counts, flat := PackSuitors(targetOrder);
      var rk, rd := SaveParallel(lastRivalryTick, rivalryOrder);
      var ck, cd := SaveParallel(lastClanProcess, clanOrder);
      s := RomanceSave(ak, ad, targets, counts, flat, rk, rd, ck, cd);
    }

    /** `SyncData` when loading: each dictionary rebuilt from its lists. */
    method Load(s: RomanceSave)
      modifies this`lastApproach, this`suitors, this`lastRivalryTick, this`lastClanProcess
      ensures lastApproach == ParallelMap(s.approachKeys, s.approachDays)
      ensures suitors == Unpack(s.targets, s.counts, s.suitorsFlat)
      ensures lastRivalryTick == ParallelMap(s.rivalryKeys, s.rivalryDays)
      ensures lastClanProcess == ParallelMap(s.clanKeys, s.clanDays)
    {
      lastApproach := LoadParallel(s.approachKeys, s.approachDays);
      UnpackSuitors(s.targets, s.counts, s.suitorsFlat);
      lastRivalryTick := LoadParallel(s.rivalryKeys, s.rivalryDays);
      lastClanProcess := LoadParallel(s.clanKeys, s.clanDays);
    }
  }
}
