// The daily driver of the society: each lord's tick, then the coarser
// housekeeping pass over the lord's memories, done in place, and the
// seasonal prune counters.

module SocietyBehavior {
  import opened Common
  import opened MemoryEntries
  import opened GossipRules
  import opened Society
  import opened MemoryHousekeeping

  const DaysPerSeason: int := 10

  /**
   * The season's anchor day and totals after a pass on `day` removed
   * `pruned` memories and `gossipPruned` gossip entries: the first day seen
   * anchors the season, the counts are added, and once ten days have passed
   * since the anchor the totals start again from zero with `day` as anchor.
   */
  function SeasonAfter(anchor: int, memories: int, gossip: int, pruned: int, gossipPruned: int, day: int): (r: (int, int, int))
    ensures day - r.0 < DaysPerSeason
    ensures r.0 == day || r.0 == anchor
    ensures r.0 == day && anchor >= 0 && day - anchor >= DaysPerSeason ==> r.1 == 0 && r.2 == 0
    ensures anchor < 0 || day - anchor < DaysPerSeason ==> r.1 == memories + pruned && r.2 == gossip + gossipPruned
  {
    var a := if anchor < 0 then day else anchor;
    if day - a >= DaysPerSeason then (day, 0, 0) else (a, memories + pruned, gossip + gossipPruned)
  }

  /** `NobleSocietyBehavior`: the per-lord daily driver and its seasonal counters. */
  class NobleSocietyBehavior {
    var seasonAnchorDay: int
    var seasonPrunedMemories: int
    var seasonPrunedGossip: int

    constructor ()
      ensures seasonAnchorDay == -1 && seasonPrunedMemories == 0 && seasonPrunedGossip == 0
    {
      seasonAnchorDay := -1;
      seasonPrunedMemories := 0;
      seasonPrunedGossip := 0;
    }

    /**
     * `PruneAndDecay`: at most once per day, fades every memory by the
     * half-life factor `decayMult` (the source's 0.5^(days/27)), drops the
     * light ones, applies the per-tag caps and the hard cap, and reports how
     * many records went (and zero gossip entries).
     */
    method PruneAndDecay(agent: NobleAgentState, now: real, decayMult: real) returns (pruned: int, gossipPruned: int)
      modifies agent`memoryLog, agent`lastDecayDay
      ensures gossipPruned == 0
      ensures pruned == |old(agent.memoryLog)| - |agent.memoryLog|
      ensures now - old(agent.lastDecayDay) < 1.0 ==> unchanged(agent)
      ensures now - old(agent.lastDecayDay) >= 1.0 ==>
                agent.memoryLog == PrunedLog(old(agent.memoryLog), decayMult) && agent.lastDecayDay == now
    {
      if now - agent.lastDecayDay < 1.0 {
        return 0, 0;
      }
      var before := |agent.memoryLog|;
      ScaleWeights(agent, decayMult);
      agent.memoryLog := Filter(agent.memoryLog, AboveCull);
      var removed := before - |agent.memoryLog|;
      var dropped := ApplyTagCaps(agent);
      removed := removed + dropped;
      if |agent.memoryLog| > HardCap {
        var toRemove := |agent.memoryLog| - HardCap;
        agent.memoryLog := agent.memoryLog[toRemove..];
        removed := removed + toRemove;
      }
      agent.lastDecayDay := now;
      return removed, 0;
    }

    /** The per-tag cap loop, over `TagCaps` in order; reports how many records it removed. */
    method ApplyTagCaps(agent: NobleAgentState) returns (dropped: int)
      modifies agent`memoryLog
      ensures agent.memoryLog == CapTags(old(agent.memoryLog), TagCaps)
      ensures dropped == |old(agent.memoryLog)| - |agent.memoryLog|
    {
      ghost var log0 := agent.memoryLog;
      dropped := 0;
      var c := 0;
      while c < |TagCaps|
        invariant 0 <= c <= |TagCaps|
        invariant agent.memoryLog == CapTags(log0, TagCaps[..c])
        invariant dropped == |log0| - |agent.memoryLog|
      {
        assert TagCaps[..c + 1][..c] == TagCaps[..c];
        var removed := CapOneTag(agent, TagCaps[c].0, TagCaps[c].1);
        dropped := dropped + removed;
        c := c + 1;
      }
      assert TagCaps[..c] == TagCaps;
    }

    /** The fading loop: every weight, in place, times `m`. */
    method ScaleWeights(agent: NobleAgentState, m: real)
      modifies agent`memoryLog
      ensures agent.memoryLog == Scaled(old(agent.memoryLog), m)
    {
      var i := 0;
      while i < |agent.memoryLog|
        invariant 0 <= i <= |agent.memoryLog| == |old(agent.memoryLog)|
        invariant forall k :: 0 <= k < i ==> agent.memoryLog[k] == old(agent.memoryLog)[k].(weight := old(agent.memoryLog)[k].weight * m)
        invariant forall k :: i <= k < |agent.memoryLog| ==> agent.memoryLog[k] == old(agent.memoryLog)[k]
      {
        var e := agent.memoryLog[i];
        agent.memoryLog := agent.memoryLog[i := e.(weight := e.weight * m)];
        i := i + 1;
      }
    }

    /** One entry of the cap table: the excess of the oldest records with `tag` goes. */
    method CapOneTag(agent: NobleAgentState, tag: MemoryTag, cap: nat) returns (dropped: int)
      modifies agent`memoryLog
      ensures agent.memoryLog == CapTag(old(agent.memoryLog), tag, cap)
      ensures dropped == |old(agent.memoryLog)| - |agent.memoryLog|
    {
      ghost var log0 := agent.memoryLog;
      var count := CountTag(agent.memoryLog, tag);
      if count <= cap {
        return 0;
      }
      var toDrop := count - cap;
      DropOldestRemoves(agent.memoryLog, tag, toDrop);
      DropOldestInPlace(agent, tag, toDrop);
      assert agent.memoryLog == DropOldest(log0, tag, toDrop) == CapTag(log0, tag, cap);
      dropped := toDrop;
    }

    /** The removal loop of one tag's cap: `k` times, the oldest record with the tag goes. */
    method DropOldestInPlace(agent: NobleAgentState, tag: MemoryTag, k: nat)
      requires k <= CountTag(agent.memoryLog, tag)
      modifies agent`memoryLog
      ensures agent.memoryLog == DropOldest(old(agent.memoryLog), tag, k)
    {
      ghost var log0 := agent.memoryLog;
      var i := 0;
      while i < k
        invariant 0 <= i <= k
        invariant agent.memoryLog == DropOldest(log0, tag, i)
      {
        DropOldestStep(log0, tag, i);
        var at := OldestIndex(agent.memoryLog, tag);
        agent.memoryLog := RemoveAt(agent.memoryLog, at);
        i := i + 1;
      }
    }

    /**
     * `OnDailyTickHero`: for a living adult lord, runs the lord's tick and
     * the housekeeping pass, adds the pass's count to the season's total,
     * and starts a new season once ten days have passed since its anchor.
     */
    method OnDailyTickHero(hero: HeroId, isLord: bool, isChild: bool, isDead: bool, now: real, decayMult: real,
                           registry: NobleSocietyManager, gossip: GossipManager, w: GossipWorld)
      requires registry.Valid() && gossip.Valid()
      requires hero !in w.nearby
      requires hero in registry.agents ==> Stamped(registry.agents[hero].memoryLog, now)
      modifies this, registry, gossip, registry.agents.Values
      ensures registry.Valid() && gossip.Valid()
      ensures !isLord || isChild || isDead ==>
                unchanged(this) && unchanged(registry) && unchanged(gossip) && unchanged(registry.agents.Values)
      ensures isLord && !isChild && !isDead ==>
                var prior := if hero in old(registry.agents) then old(registry.agents[hero].memoryLog) else [];
                var lastDecay := if hero in old(registry.agents) then old(registry.agents[hero].lastDecayDay) else -1.0;
                var ticked := TickedLog(prior, w.traitsOf(hero), now);
                hero in registry.agents &&
                registry.agents[hero].lastTickTime == now &&
                (now - lastDecay < 1.0 ==> registry.agents[hero].memoryLog == ticked) &&
                (now - lastDecay >= 1.0 ==>
                   registry.agents[hero].memoryLog == PrunedLog(ticked, decayMult) &&
                   registry.agents[hero].lastDecayDay == now) &&
                SeasonAfter(old(seasonAnchorDay), old(seasonPrunedMemories), old(seasonPrunedGossip),
                            |ticked| - |registry.agents[hero].memoryLog|, 0, now.Floor) ==
                  (seasonAnchorDay, seasonPrunedMemories, seasonPrunedGossip)
      ensures isLord && !isChild && !isDead ==>
                var prior := if hero in old(registry.agents) then old(registry.agents[hero].memoryLog) else [];
                GossipOutcome(prior, hero, w, now, old(registry.Logs()), registry.Logs(),
                              old(gossip.View()), gossip.View(), old(gossip.windowApplied), gossip.windowApplied)
    {
      if !isLord || isChild || isDead {
        return;
      }
      var pruned := TickAndPrune(hero, now, decayMult, registry, gossip, w);
      ghost var view, logs, windows := gossip.View(), registry.Logs(), gossip.windowApplied;
      ghost var agents := registry.agents;
      ghost var lord := agents[hero];
      ghost var lordLog := lord.memoryLog;
      CountSeason(pruned, 0, now.Floor);
      assert gossip.View() == view && registry.Logs() == logs && gossip.windowApplied == windows;
      assert registry.agents == agents && lord.memoryLog == lordLog;
    }

    /** The lord's tick, then the housekeeping pass on the lord's log; `pruned` is what the pass removed. */
    method TickAndPrune(hero: HeroId, now: real, decayMult: real,
                        registry: NobleSocietyManager, gossip: GossipManager, w: GossipWorld) returns (pruned: int)
      requires registry.Valid() && gossip.Valid()
      requires hero !in w.nearby
      requires hero in registry.agents ==> Stamped(registry.agents[hero].memoryLog, now)
      modifies registry, gossip, registry.agents.Values
      ensures registry.Valid() && gossip.Valid()
      ensures var prior := if hero in old(registry.agents) then old(registry.agents[hero].memoryLog) else [];
              var lastDecay := if hero in old(registry.agents) then old(registry.agents[hero].lastDecayDay) else -1.0;
              var ticked := TickedLog(prior, w.traitsOf(hero), now);
              hero in registry.agents &&
              registry.agents[hero].lastTickTime == now &&
              (now - lastDecay < 1.0 ==> registry.agents[hero].memoryLog == ticked) &&
              (now - lastDecay >= 1.0 ==>
                 registry.agents[hero].memoryLog == PrunedLog(ticked, decayMult) &&
                 registry.agents[hero].lastDecayDay == now) &&
              pruned == |ticked| - |registry.agents[hero].memoryLog|
      ensures var prior := if hero in old(registry.agents) then old(registry.agents[hero].memoryLog) else [];
              GossipOutcome(prior, hero, w, now, old(registry.Logs()), registry.Logs(),
                            old(gossip.View()), gossip.View(), old(gossip.windowApplied), gossip.windowApplied)
    {
      var agent := TickLord(hero, now, registry, gossip, w);
      ghost var logs := registry.Logs();
      assert forall h :: h in registry.agents && h != hero ==> registry.agents[h] != agent;
      ghost var view, windows, agents := gossip.View(), gossip.windowApplied, registry.agents;
      var gossipPruned;
      pruned, gossipPruned := PruneAndDecay(agent, now, decayMult);
      assert gossip.View() == view && gossip.windowApplied == windows && registry.agents == agents;
      assert AgreeExcept(logs, registry.Logs(), hero);
      ghost var prior := if hero in old(registry.agents) then old(registry.agents[hero].memoryLog) else [];
      GossipOutcomeSpeakerFree(prior, hero, w, now, old(registry.Logs()), logs, old(registry.Logs()), registry.Logs(),
                               old(gossip.View()), gossip.View(), old(gossip.windowApplied), gossip.windowApplied);
    }

    /** The lord's state is fetched (or created) and ticked. */
    method TickLord(hero: HeroId, now: real, registry: NobleSocietyManager, gossip: GossipManager, w: GossipWorld)
      returns (agent: NobleAgentState)
      requires registry.Valid() && gossip.Valid()
      requires hero !in w.nearby
      requires hero in registry.agents ==> Stamped(registry.agents[hero].memoryLog, now)
      modifies registry, gossip, registry.agents.Values
      ensures registry.Valid() && gossip.Valid()
      ensures var prior := if hero in old(registry.agents) then old(registry.agents[hero].memoryLog) else [];
              var lastDecay := if hero in old(registry.agents) then old(registry.agents[hero].lastDecayDay) else -1.0;
              hero in registry.agents && registry.agents[hero] == agent && agent.hero == hero &&
              agent.memoryLog == TickedLog(prior, w.traitsOf(hero), now) &&
              agent.lastTickTime == now && agent.lastDecayDay == lastDecay
      ensures hero in old(registry.agents) ==> agent == old(registry.agents[hero])
      ensures hero !in old(registry.agents) ==> fresh(agent)
      ensures var prior := if hero in old(registry.agents) then old(registry.agents[hero].memoryLog) else [];
              GossipOutcome(prior, hero, w, now, old(registry.Logs()), registry.Logs(),
                            old(gossip.View()), gossip.View(), old(gossip.windowApplied), gossip.windowApplied)
    {
      ghost var logs0 := registry.Logs();
      agent := registry.GetOrCreateAgent(Some(hero));
      assert AgreeExcept(logs0, registry.Logs(), hero);
      ghost var logs1 := registry.Logs();
      ghost var prior := agent.memoryLog;
      agent.Tick(now, gossip, registry, w);
      GossipOutcomeSpeakerFree(prior, hero, w, now, logs1, registry.Logs(), logs0, registry.Logs(),
                               old(gossip.View()), gossip.View(), old(gossip.windowApplied), gossip.windowApplied);
    }

    /**
     * The seasonal checkpoint: the pass's counts are added to the season's
     * totals; the first day seen anchors the season, and once ten days have
     * passed since the anchor the totals start again from zero.
     */
    method CountSeason(pruned: int, gossipPruned: int, day: int)
      modifies this
      ensures (seasonAnchorDay, seasonPrunedMemories, seasonPrunedGossip) ==
              SeasonAfter(old(seasonAnchorDay), old(seasonPrunedMemories), old(seasonPrunedGossip), pruned, gossipPruned, day)
    {
      seasonPrunedMemories := seasonPrunedMemories + pruned;
      seasonPrunedGossip := seasonPrunedGossip + gossipPruned;
      if seasonAnchorDay < 0 {
        seasonAnchorDay := day;
      }
      if day - seasonAnchorDay >= DaysPerSeason {
        seasonPrunedMemories, seasonPrunedGossip := 0, 0;
        seasonAnchorDay := day;
      }
    }
  }
}
