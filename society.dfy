// The living state of the society: each noble's memory log, the registry
// that hands out one such state per hero, and the gossip exchange that
// copies stories from one log into another and nudges relations.
//
// The three classes share one module because the source's calls form a
// cycle: a noble's daily tick starts a gossip attempt, which asks the
// registry for the listener's state, which may create a new noble state.

module Society {
  import opened Common
  import opened HeroTraits
  import opened MemoryEntries
  import opened GossipRules

  datatype ActivityTier = High | Medium | Low | Dormant

  /** The removal test of the daily tick: expired, or too faint to matter. */
  predicate Forgotten(e: MemoryEntry, t: TraitSnapshot, now: real)
  {
    IsExpired(e, t, now) || Abs(e.weight) < 0.001
  }

  /**
   * The decay loop of the daily tick, with the corrected step
   * `DecayWeightToZero` on every record rather than the source's
   * `DecayWeight`, which can overshoot zero.
   */
  function DecayAll(log: seq<MemoryEntry>, t: TraitSnapshot): (r: seq<MemoryEntry>)
    ensures |r| == |log|
    ensures forall i :: 0 <= i < |log| ==> r[i] == DecayWeightToZero(log[i], t)
  {
    seq(|log|, i requires 0 <= i < |log| => DecayWeightToZero(log[i], t))
  }

  /** The log after a daily tick's decay and prune. */
  function TickedLog(log: seq<MemoryEntry>, t: TraitSnapshot, now: real): seq<MemoryEntry>
  {
    Filter(DecayAll(log, t), e => !Forgotten(e, t, now))
  }

  /**
   * A tick leaves only live records (unexpired, at least 0.001 in
   * magnitude), and a permanent record that is felt at all survives it
   * unchanged.
   */
  lemma TickedLogKeepsPermanent(log: seq<MemoryEntry>, t: TraitSnapshot, now: real)
    ensures forall e :: e in TickedLog(log, t, now) ==> !IsExpired(e, t, now) && Abs(e.weight) >= 0.001
    ensures forall e :: e in log && e.neverForget && Abs(e.weight) >= 0.001 ==> e in TickedLog(log, t, now)
    ensures |TickedLog(log, t, now)| <= |log|
  {
    forall e | e in log && e.neverForget && Abs(e.weight) >= 0.001
      ensures e in TickedLog(log, t, now)
    {
      var i :| 0 <= i < |log| && log[i] == e;
      assert DecayAll(log, t)[i] == e;
      FilterKeeps(DecayAll(log, t), x => !Forgotten(x, t, now), e);
    }
  }

  /** What a gossip attempt needs to know about the world around the speaker. */
  datatype GossipWorld = GossipWorld(
    speakerIsDead: bool,
    speakerIsChild: bool,
    speakerIsLord: bool,
    nearby: seq<HeroId>,            // GetNearbyNobles(speaker)
    listenerPick: nat,              // the random draw choosing the listener
    relation: (HeroId, HeroId) -> int,
    traitsOf: HeroId -> TraitSnapshot,
    clanOf: HeroId -> Option<string>,
    location: Option<string>,       // the speaker's current settlement
    roll1: real,                    // random draws of the relation rules
    roll2: real)

  /** `NobleAgentState`: one noble's memories and tick bookkeeping. */
  class NobleAgentState {
    const hero: HeroId
    var activityTier: ActivityTier
    var lastTickTime: real
    var lastDecayDay: real
    var memoryLog: seq<MemoryEntry>

    constructor (hero: HeroId)
      ensures this.hero == hero && activityTier == Medium
      ensures lastTickTime == 0.0 && lastDecayDay == -1.0 && memoryLog == []
    {
      this.hero := hero;
      activityTier := Medium;
      lastTickTime := 0.0;
      lastDecayDay := -1.0;
      memoryLog := [];
    }

    /** More than one day has passed since the last tick. */
    function ShouldTick(now: real): (due: bool)
      reads this
      ensures due ==> now > lastTickTime
      ensures now <= lastTickTime + 1.0 ==> !due
      ensures now > lastTickTime + 1.0 ==> due
    {
      now - lastTickTime > 1.0
    }

    /**
     * `Tick`: one gossip attempt, then one decay step on every record, then
     * removal of the forgotten ones.
     */
    method Tick(now: real, gossip: GossipManager, registry: NobleSocietyManager, w: GossipWorld)
      requires gossip.Valid() && registry.Valid()
      requires hero !in w.nearby
      requires Stamped(memoryLog, now)
      modifies this, gossip, registry, registry.agents.Values
      ensures gossip.Valid() && registry.Valid()
      ensures memoryLog == TickedLog(old(memoryLog), w.traitsOf(hero), now)
      ensures lastTickTime == now && !ShouldTick(now)
      ensures lastDecayDay == old(lastDecayDay) && activityTier == old(activityTier)
      ensures forall h :: h in old(registry.agents) ==> h in registry.agents && registry.agents[h] == old(registry.agents[h])
      ensures !ReachesListener(old(memoryLog), hero, w, old(gossip.lastInteractionTime), now) ==>
                registry.agents == old(registry.agents)
      ensures GossipOutcome(old(memoryLog), hero, w, now, old(registry.Logs()), registry.Logs(),
                            old(gossip.View()), gossip.View(), old(gossip.windowApplied), gossip.windowApplied)
    {
      ghost var logs0 := registry.Logs();
      gossip.TryGossip(this, registry, now, w);
      ghost var logs := registry.Logs();
      assert forall h :: h in registry.agents && h != hero ==> registry.agents[h] != this;
      Age(w.traitsOf(hero), now);
      assert AgreeExcept(logs, registry.Logs(), hero);
      GossipOutcomeSpeakerFree(old(memoryLog), hero, w, now, logs0, logs, logs0, registry.Logs(),
                               old(gossip.View()), gossip.View(), old(gossip.windowApplied), gossip.windowApplied);
    }

    /** The part of `Tick` after the gossip attempt: every record decays one step, the forgotten ones go, and the tick is stamped. */
    method Age(t: TraitSnapshot, now: real)
      modifies this`memoryLog, this`lastTickTime
      ensures memoryLog == TickedLog(old(memoryLog), t, now)
      ensures lastTickTime == now
    {
      DecayEach(t);
      memoryLog := Filter(memoryLog, e => !Forgotten(e, t, now));
      lastTickTime := now;
    }

    /** The decay loop of `Tick`: one `DecayWeightToZero` step on every record, in place. */
    method DecayEach(t: TraitSnapshot)
      modifies this`memoryLog
      ensures memoryLog == DecayAll(old(memoryLog), t)
    {
      var i := 0;
      while i < |memoryLog|
        invariant 0 <= i <= |memoryLog| == |old(memoryLog)|
        invariant forall k :: 0 <= k < i ==> memoryLog[k] == DecayWeightToZero(old(memoryLog)[k], t)
        invariant forall k :: i <= k < |memoryLog| ==> memoryLog[k] == old(memoryLog)[k]
      {
        memoryLog := memoryLog[i := DecayWeightToZero(memoryLog[i], t)];
        i := i + 1;
      }
    }
  }

  /** The records `RegisterMemory` adds for one event. */
  function RegisteredEntries(source: HeroId, target: Option<HeroId>, kind: MemoryType, weight: real,
                             notes: string, tag: MemoryTag, markBelief: bool, now: real): (r: seq<MemoryEntry>)
    ensures |r| == if markBelief then 2 else 1
    ensures forall e :: e in r ==>
              e.kind == kind && e.source == Some(source) && e.target == target && e.weight == weight &&
              e.notes == notes && e.timestamp == now && e.repeatCount == 1 && e.originalKind == None
    ensures r[0].tags == if tag == NoTag then {} else {tag}
    ensures markBelief ==> r[1].tags == {Belief}
  {
    var e := NewEntry(kind, Some(source), target, weight, notes, now);
    [e.(tags := if tag == NoTag then {} else {tag})] + (if markBelief then [e.(tags := {Belief})] else [])
  }

  /** `NobleSocietyManager`: one agent state per hero, created on first use. */
  class NobleSocietyManager {
    var agents: map<HeroId, NobleAgentState>

    ghost predicate Valid()
      reads this
    {
      forall h :: h in agents ==> agents[h].hero == h
    }

    /** Every registered noble's memory log. */
    ghost function Logs(): (m: map<HeroId, seq<MemoryEntry>>)
      reads this, agents.Values
      ensures forall h :: h in agents <==> h in m
      ensures forall h :: h in agents ==> m[h] == agents[h].memoryLog
    {
      map h | h in agents :: agents[h].memoryLog
    }

    constructor ()
      ensures Valid() && agents == map[]
    {
      agents := map[];
    }

    method GetOrCreateAgent(hero: Option<HeroId>) returns (agent: NobleAgentState?)
      requires Valid()
      modifies this
      ensures Valid()
      ensures hero.None? ==> agent == null && agents == old(agents)
      ensures hero.Some? ==> agent != null && agent.hero == hero.value && agents == old(agents)[hero.value := agent]
      ensures hero.Some? && hero.value in old(agents) ==> agent == old(agents)[hero.value]
      ensures hero.Some? && hero.value !in old(agents) ==>
                fresh(agent) && agent.memoryLog == [] && agent.lastDecayDay == -1.0 && agent.lastTickTime == 0.0
    {
      if hero.None? {
        return null;
      }
      var h := hero.value;
      if h in agents {
        agent := agents[h];
      } else {
        agent := new NobleAgentState(h);
        agents := agents[h := agent];
      }
    }

    /**
     * `RegisterMemory`: records an event in the source's log (creating the
     * source's state if needed), and a second, belief-tagged copy when asked.
     */
    method RegisterMemory(source: Option<HeroId>, target: Option<HeroId>, kind: MemoryType, weight: real,
                          notes: string, tag: MemoryTag, markBelief: bool, now: real)
      requires Valid()
      modifies this, agents.Values
      ensures Valid()
      ensures source.None? ==> agents == old(agents)
      ensures source.Some? ==>
                var s := source.value;
                s in agents &&
                agents[s].memoryLog ==
                  (if s in old(agents) then old(agents[s].memoryLog) else []) +
                  RegisteredEntries(s, target, kind, weight, notes, tag, markBelief, now)
      ensures forall h :: h in old(agents) && Some(h) != source ==>
                h in agents && agents[h] == old(agents[h]) && agents[h].memoryLog == old(agents[h].memoryLog)
    {
      var agent := GetOrCreateAgent(source);
      if agent == null {
        return;
      }
      agent.memoryLog := agent.memoryLog + RegisteredEntries(source.value, target, kind, weight, notes, tag, markBelief, now);
    }
  }

  function Sum(s: seq<int>): int
  {
    if s == [] then 0 else Sum(s[..|s| - 1]) + s[|s| - 1]
  }

  /** Gossip between this pair is still within a day of their last exchange, in either direction. */
  predicate CoolingDown(last: map<(HeroId, HeroId), real>, a: HeroId, b: HeroId, now: real)
  {
    ((a, b) in last && now - last[(a, b)] < 1.0) || ((b, a) in last && now - last[(b, a)] < 1.0)
  }

  /** The same pair was already moved for the same reason within five days. */
  predicate ReasonCoolingDown(last: map<(HeroId, HeroId, string), real>, key: (HeroId, HeroId, string), now: real)
  {
    key in last && now - last[key] < MinDaysBetweenSameReason
  }

  function StoredWindow(ledger: map<(HeroId, HeroId), LedgerEntry>, pair: (HeroId, HeroId)): Option<LedgerEntry>
  {
    if pair in ledger then Some(ledger[pair]) else None
  }

  /**
   * Every pair's window holds exactly the changes applied in it, and they
   * add up to at most the weekly cap in either direction.
   */
  ghost predicate LedgerAccounts(ledger: map<(HeroId, HeroId), LedgerEntry>, applied: map<(HeroId, HeroId), seq<int>>)
  {
    LedgerBounded(ledger) &&
    forall p :: p in ledger ==> p in applied && Sum(applied[p]) as real == ledger[p].delta
  }

  /** Every stored window's total lies within the weekly cap in either direction. */
  predicate LedgerBounded(ledger: map<(HeroId, HeroId), LedgerEntry>)
  {
    forall p :: p in ledger ==> Abs(ledger[p].delta) <= WeeklyPairDeltaCap
  }

  /** The changes applied in the pair's current window: none once a new window starts. */
  ghost function WindowHistory(ledger: map<(HeroId, HeroId), LedgerEntry>, applied: map<(HeroId, HeroId), seq<int>>,
                               pair: (HeroId, HeroId), now: real): (h: seq<int>)
    requires LedgerAccounts(ledger, applied)
    ensures var window := CurrentWindow(StoredWindow(ledger, pair), now);
            Sum(h) as real == window.delta && Abs(window.delta) <= WeeklyPairDeltaCap
  {
    if pair in ledger && CurrentWindow(StoredWindow(ledger, pair), now) == ledger[pair] then applied[pair] else []
  }

  /** Storing a window together with the changes that make it up keeps the accounts. */
  lemma LedgerAccountsUpdate(ledger: map<(HeroId, HeroId), LedgerEntry>, applied: map<(HeroId, HeroId), seq<int>>,
                             pair: (HeroId, HeroId), e: LedgerEntry, h: seq<int>)
    requires LedgerAccounts(ledger, applied)
    requires Sum(h) as real == e.delta && Abs(e.delta) <= WeeklyPairDeltaCap
    ensures LedgerAccounts(ledger[pair := e], applied[pair := h])
  {
  }

  /** The part of `GossipManager` that relation requests change: the weekly ledger, the reason stamps and the changes made. */
  datatype RelationBudget = RelationBudget(ledger: map<(HeroId, HeroId), LedgerEntry>,
                                           reasons: map<(HeroId, HeroId, string), real>,
                                           changes: seq<RelationChange>)

  /** A change made by `from` toward `to`, non-zero, with the sign of `raw` and no larger. */
  predicate Aimed(c: RelationChange, from: HeroId, to: HeroId, raw: int)
  {
    c.from == from && c.to == to && c.delta != 0 && Sign(c.delta) == Sign(raw) && AbsInt(c.delta) <= AbsInt(raw)
  }

  /** The change answers one of the requests: made by the listener toward that request's actor. */
  predicate Requested(c: RelationChange, listener: HeroId, requests: seq<RelationRequest>)
  {
    exists q :: q in requests && q.actor == Some(c.to) && Aimed(c, listener, c.to, q.delta)
  }

  /**
   * `TryApplyBalancedRel` as a step on the budget: nothing without both
   * heroes, for a zero change, or within five days of the same reason;
   * otherwise the pair's window is rolled over if a week has passed, the
   * change is clipped to what the window still allows, the window is
   * stored, and a non-zero change is made and its reason stamped.
   */
  function BalancedStep(b: RelationBudget, listener: Option<HeroId>, actor: Option<HeroId>, rawDelta: int,
                        reason: string, now: real): (r: RelationBudget)
    requires LedgerBounded(b.ledger)
    ensures LedgerBounded(r.ledger)
    ensures listener.None? || actor.None? || rawDelta == 0 ==> r == b
    ensures listener.Some? && actor.Some? && ReasonCoolingDown(b.reasons, (listener.value, actor.value, reason), now) ==> r == b
    ensures r.changes == b.changes ==> r.reasons == b.reasons
    ensures r.changes != b.changes ==>
              listener.Some? && actor.Some? &&
              |r.changes| == |b.changes| + 1 && r.changes[..|b.changes|] == b.changes &&
              Aimed(r.changes[|b.changes|], listener.value, actor.value, rawDelta) &&
              r.reasons == b.reasons[(listener.value, actor.value, reason) := now]
    ensures listener.Some? && actor.Some? && rawDelta != 0 &&
            !ReasonCoolingDown(b.reasons, (listener.value, actor.value, reason), now) ==>
              var window := CurrentWindow(StoredWindow(b.ledger, (listener.value, actor.value)), now);
              (Abs(window.delta + rawDelta as real) <= WeeklyPairDeltaCap && Abs(window.delta) < WeeklyPairDeltaCap ==>
                 r.changes == b.changes + [RelationChange(listener.value, actor.value, rawDelta)])
  {
    if listener.None? || actor.None? || rawDelta == 0 then b
    else if ReasonCoolingDown(b.reasons, (listener.value, actor.value, reason), now) then b
    else
      var pair := (listener.value, actor.value);
      var window := CurrentWindow(StoredWindow(b.ledger, pair), now);
      var d := CappedDelta(window.delta, rawDelta);
      RelationBudget(b.ledger[pair := LedgerEntry(window.weekStart, window.delta + d as real)],
                     if d != 0 then b.reasons[(pair.0, pair.1, reason) := now] else b.reasons,
                     b.changes + (if d != 0 then [RelationChange(pair.0, pair.1, d)] else []))
  }

  /** The requests handed to `TryApplyBalancedRel` one after another, in order. */
  function RequestsApplied(b: RelationBudget, listener: HeroId, requests: seq<RelationRequest>, now: real): (r: RelationBudget)
    requires LedgerBounded(b.ledger)
    ensures LedgerBounded(r.ledger)
    decreases |requests|
  {
    if requests == [] then b
    else
      var q := requests[|requests| - 1];
      BalancedStep(RequestsApplied(b, listener, requests[..|requests| - 1], now), Some(listener), q.actor, q.delta, q.reason, now)
  }

  /**
   * Applying requests only appends changes, at most one per request, and
   * every change made is the listener's toward the actor of a request,
   * with that request's sign and no larger.
   */
  lemma {:induction false} RequestedChangesAimed(b: RelationBudget, listener: HeroId, requests: seq<RelationRequest>, now: real)
    requires LedgerBounded(b.ledger)
    ensures var r := RequestsApplied(b, listener, requests, now);
            |b.changes| <= |r.changes| <= |b.changes| + |requests| && r.changes[..|b.changes|] == b.changes &&
            forall c :: c in r.changes[|b.changes|..] ==> Requested(c, listener, requests)
    decreases |requests|
  {
    if requests != [] {
      var init := requests[..|requests| - 1];
      var q := requests[|requests| - 1];
      var mid := RequestsApplied(b, listener, init, now);
      RequestedChangesAimed(b, listener, init, now);
      var r := BalancedStep(mid, Some(listener), q.actor, q.delta, q.reason, now);
      assert r == RequestsApplied(b, listener, requests, now);
      forall c | c in r.changes[|b.changes|..]
        ensures Requested(c, listener, requests)
      {
        if c in mid.changes[|b.changes|..] {
          var p :| p in init && p.actor == Some(c.to) && Aimed(c, listener, c.to, p.delta);
          assert p in requests;
        } else {
          assert r.changes[|b.changes|..] == mid.changes[|b.changes|..] + r.changes[|mid.changes|..];
          assert r.changes != mid.changes;
          assert c == r.changes[|mid.changes|];
          assert q in requests;
        }
      }
    }
  }

  /** A gossip attempt by a speaker in state `log` gets as far as a listener. */
  predicate ReachesListener(log: seq<MemoryEntry>, speaker: HeroId, w: GossipWorld,
                            last: map<(HeroId, HeroId), real>, now: real)
    requires Stamped(log, now)
  {
    |log| > 0 && !w.speakerIsDead && !w.speakerIsChild && w.speakerIsLord && |w.nearby| > 0 &&
    ChooseMemory(log, w.traitsOf(speaker), now).Some? &&
    !CoolingDown(last, speaker, PickListener(w.nearby, w.listenerPick), now)
  }

  /** The gossip manager's fields that a gossip attempt changes, as a value. */
  datatype GossipView = GossipView(log: seq<GossipEvent>, last: map<(HeroId, HeroId), real>, budget: RelationBudget)

  /**
   * What one gossip attempt by `speaker`, whose log is `speakerLog`, does
   * to every other noble's log (`logs0` to `logs`) and to the gossip
   * manager (`g0` to `g`, its windows `win0` to `win`). Gossip older than
   * its lifespan is forgotten. If no listener is reached, or the listener
   * already holds the story, nothing else changes. Otherwise only the
   * listener's log changes, by filing the story; the story is recorded as
   * public gossip, the pair is stamped, and the listener's relation
   * requests are answered.
   */
  ghost predicate GossipOutcome(speakerLog: seq<MemoryEntry>, speaker: HeroId, w: GossipWorld, now: real,
                                logs0: map<HeroId, seq<MemoryEntry>>, logs: map<HeroId, seq<MemoryEntry>>,
                                g0: GossipView, g: GossipView,
                                win0: map<(HeroId, HeroId), seq<int>>, win: map<(HeroId, HeroId), seq<int>>)
    requires Stamped(speakerLog, now)
  {
    if !ReachesListener(speakerLog, speaker, w, g0.last, now) then
      (forall h :: h in logs && h != speaker ==> h in logs0 && logs[h] == logs0[h]) &&
      g == GossipView(RecentGossip(g0.log, now), g0.last, g0.budget) && win == win0
    else
      var listener := PickListener(w.nearby, w.listenerPick);
      var memory := ChooseMemory(speakerLog, w.traitsOf(speaker), now).value;
      var heard := if listener in logs0 then logs0[listener] else [];
      listener in logs &&
      (forall h :: h in logs && h != listener && h != speaker ==> h in logs0 && logs[h] == logs0[h]) &&
      (AlreadyKnows(heard, memory) ==>
         logs[listener] == heard &&
         g == GossipView(RecentGossip(g0.log, now), g0.last, g0.budget) && win == win0) &&
      (!AlreadyKnows(heard, memory) ==>
         logs[listener] == ListenerLogAfter(heard, memory, speaker, now, ListenerBelief(w, speaker, listener, memory)) &&
         g.log == RecentGossip(g0.log, now) + [GossipEvent(speaker, memory.target, memory.kind, memory.notes, now, w.location)] &&
         g.last == g0.last[(speaker, listener) := now] &&
         AnsweredRequests(g0.budget, g.budget, listener, GossipRequests(w, speaker, listener, memory), now))
  }

  /** Two maps hold the same keys and values, except perhaps at `k`. */
  ghost predicate AgreeExcept(m: map<HeroId, seq<MemoryEntry>>, m': map<HeroId, seq<MemoryEntry>>, k: HeroId)
  {
    (forall h :: h in m && h != k ==> h in m' && m'[h] == m[h]) &&
    (forall h :: h in m' && h != k ==> h in m)
  }

  /**
   * The outcome of a gossip attempt does not depend on the speaker's own
   * entry, which a listener never is.
   */
  lemma GossipOutcomeSpeakerFree(speakerLog: seq<MemoryEntry>, speaker: HeroId, w: GossipWorld, now: real,
                                 logs0: map<HeroId, seq<MemoryEntry>>, logs: map<HeroId, seq<MemoryEntry>>,
                                 logs0': map<HeroId, seq<MemoryEntry>>, logs': map<HeroId, seq<MemoryEntry>>,
                                 g0: GossipView, g: GossipView,
                                 win0: map<(HeroId, HeroId), seq<int>>, win: map<(HeroId, HeroId), seq<int>>)
    requires Stamped(speakerLog, now) && speaker !in w.nearby
    requires GossipOutcome(speakerLog, speaker, w, now, logs0, logs, g0, g, win0, win)
    requires AgreeExcept(logs0, logs0', speaker) && AgreeExcept(logs, logs', speaker)
    ensures GossipOutcome(speakerLog, speaker, w, now, logs0', logs', g0, g, win0, win)
  {
    if ReachesListener(speakerLog, speaker, w, g0.last, now) {
      var listener := PickListener(w.nearby, w.listenerPick);
      assert listener != speaker;
      assert (if listener in logs0 then logs0[listener] else []) == (if listener in logs0' then logs0'[listener] else []);
    }
  }

  /**
   * The budget went from `b0` to `b` by applying `requests` for the
   * listener: the changes before are kept, and each change after them is
   * one point toward the actor of a request.
   */
  predicate AnsweredRequests(b0: RelationBudget, b: RelationBudget, listener: HeroId, requests: seq<RelationRequest>, now: real)
  {
    LedgerBounded(b0.ledger) && b == RequestsApplied(b0, listener, requests, now) &&
    |b0.changes| <= |b.changes| <= |b0.changes| + |requests| && b.changes[..|b0.changes|] == b0.changes &&
    (forall c :: c in b.changes[|b0.changes|..] ==> Requested(c, listener, requests)) &&
    (forall c :: c in b.changes[|b0.changes|..] ==> c.from == listener && (c.delta == 1 || c.delta == -1))
  }

  /** One-point requests, applied in order, are answered as `AnsweredRequests` says. */
  lemma RequestsAnswered(b0: RelationBudget, listener: HeroId, requests: seq<RelationRequest>, now: real)
    requires LedgerBounded(b0.ledger)
    requires forall q :: q in requests ==> q.delta == 1 || q.delta == -1
    ensures AnsweredRequests(b0, RequestsApplied(b0, listener, requests, now), listener, requests, now)
  {
    var b := RequestsApplied(b0, listener, requests, now);
    RequestedChangesAimed(b0, listener, requests, now);
    forall c | c in b.changes[|b0.changes|..]
      ensures c.from == listener && (c.delta == 1 || c.delta == -1)
    {
      var q :| q in requests && q.actor == Some(c.to) && Aimed(c, listener, c.to, q.delta);
    }
  }

  /** The relation changes the story asks of the listener: by the kind it first had, aimed at the event's source or the speaker. */
  function GossipRequests(w: GossipWorld, speaker: HeroId, listener: HeroId, memory: MemoryEntry): seq<RelationRequest>
  {
    RelationRequests(memory.originalKind.GetOr(memory.kind), w.traitsOf(listener), memory.source, speaker, w.roll1, w.roll2)
  }

  /** How far the listener believes the story: its relation to the speaker, its traits, and clan loyalty. */
  function ListenerBelief(w: GossipWorld, speaker: HeroId, listener: HeroId, memory: MemoryEntry): real
  {
    var targetClan := if memory.target.Some? then w.clanOf(memory.target.value) else None;
    BeliefScore(w.relation(speaker, listener), w.traitsOf(listener), memory.kind, w.clanOf(listener) == targetClan)
  }

  /** `GossipManager`: the gossip record, the pair cooldowns and the weekly relation budget. */
  class GossipManager {
    var gossipLog: seq<GossipEvent>
    var lastInteractionTime: map<(HeroId, HeroId), real>
    var weeklyPairLedger: map<(HeroId, HeroId), LedgerEntry>
    var lastReasonTime: map<(HeroId, HeroId, string), real>
    /** The relation changes handed to the game, in order. */
    var relationChanges: seq<RelationChange>
    /** The changes applied to each pair in its current window. */
    ghost var windowApplied: map<(HeroId, HeroId), seq<int>>

    /**
     * Every pair's window holds exactly the changes applied in it, and they
     * add up to at most the weekly cap in either direction.
     */
    ghost predicate Valid()
      reads this`weeklyPairLedger, this`windowApplied
    {
      LedgerAccounts(weeklyPairLedger, windowApplied)
    }

    /** The fields that relation requests change, as a value. */
    function Budget(): RelationBudget
      reads this`weeklyPairLedger, this`lastReasonTime, this`relationChanges
    {
      RelationBudget(weeklyPairLedger, lastReasonTime, relationChanges)
    }

    /** The fields a gossip attempt changes, as a value. */
    function View(): (v: GossipView)
      reads this`gossipLog, this`lastInteractionTime, this`weeklyPairLedger, this`lastReasonTime, this`relationChanges
      ensures v.log == gossipLog && v.last == lastInteractionTime && v.budget == Budget()
    {
      GossipView(gossipLog, lastInteractionTime, Budget())
    }

    constructor ()
      ensures Valid()
      ensures gossipLog == [] && lastInteractionTime == map[] && weeklyPairLedger == map[]
      ensures lastReasonTime == map[] && relationChanges == []
    {
      gossipLog := [];
      lastInteractionTime := map[];
      weeklyPairLedger := map[];
      lastReasonTime := map[];
      relationChanges := [];
      windowApplied := map[];
    }

    method SpreadGossip(speaker: HeroId, subject: Option<HeroId>, topic: MemoryType, message: string,
                        location: Option<string>, now: real)
      modifies this`gossipLog
      ensures gossipLog == old(gossipLog) + [GossipEvent(speaker, subject, topic, message, now, location)]
    {
      gossipLog := gossipLog + [GossipEvent(speaker, subject, topic, message, now, location)];
    }

    /** `CleanupOldGossip`: forgets gossip older than its 20-day lifespan. */
    method CleanupOldGossip(now: real)
      modifies this`gossipLog
      ensures gossipLog == RecentGossip(old(gossipLog), now)
      ensures forall g :: g in gossipLog ==> now - g.timestamp <= GossipLifespanDays
    {
      gossipLog := RecentGossip(gossipLog, now);
    }

    /**
     * `TryApplyBalancedRel`: moves the listener's relation to the actor by
     * `rawDelta`, unless a hero is missing, the change is zero, or the same
     * reason moved this pair within five days; the change is clipped to
     * what the pair's weekly budget still allows.
     */
    method TryApplyBalancedRel(listener: Option<HeroId>, actor: Option<HeroId>, rawDelta: int,
                               reason: string, now: real) returns (applied: bool)
      requires Valid()
      modifies this`weeklyPairLedger, this`lastReasonTime, this`relationChanges, this`windowApplied
      ensures Valid()
      ensures Budget() == BalancedStep(old(Budget()), listener, actor, rawDelta, reason, now)
      ensures applied <==> relationChanges != old(relationChanges)
      ensures listener.None? || actor.None? || rawDelta == 0 ==> !applied && unchanged(this)
      ensures listener.Some? && actor.Some? && rawDelta != 0 &&
              ReasonCoolingDown(old(lastReasonTime), (listener.value, actor.value, reason), now) ==>
                !applied && unchanged(this)
      ensures listener.Some? && actor.Some? && rawDelta != 0 &&
              !ReasonCoolingDown(old(lastReasonTime), (listener.value, actor.value, reason), now) ==>
                var pair := (listener.value, actor.value);
                var window := CurrentWindow(StoredWindow(old(weeklyPairLedger), pair), now);
                var d := CappedDelta(window.delta, rawDelta);
                applied == (d != 0) &&
                weeklyPairLedger == old(weeklyPairLedger)[pair := LedgerEntry(window.weekStart, window.delta + d as real)] &&
                relationChanges == old(relationChanges) + (if applied then [RelationChange(pair.0, pair.1, d)] else []) &&
                lastReasonTime == (if applied then old(lastReasonTime)[(pair.0, pair.1, reason) := now] else old(lastReasonTime))
    {
      if listener.None? || actor.None? || rawDelta == 0 {
        return false;
      }
      if ReasonCoolingDown(lastReasonTime, (listener.value, actor.value, reason), now) {
        return false;
      }
      applied := ApplyWithinBudget((listener.value, actor.value), reason, rawDelta, now);
    }

    /** The pair's window is rolled over if a week has passed, and what its budget allows is applied. */
    method ApplyWithinBudget(pair: (HeroId, HeroId), reason: string, rawDelta: int, now: real) returns (applied: bool)
      requires Valid()
      modifies this`weeklyPairLedger, this`lastReasonTime, this`relationChanges, this`windowApplied
      ensures Valid()
      ensures var window := CurrentWindow(StoredWindow(old(weeklyPairLedger), pair), now);
              var d := CappedDelta(window.delta, rawDelta);
              applied == (d != 0) &&
              weeklyPairLedger == old(weeklyPairLedger)[pair := LedgerEntry(window.weekStart, window.delta + d as real)] &&
              relationChanges == old(relationChanges) + (if applied then [RelationChange(pair.0, pair.1, d)] else []) &&
              lastReasonTime == (if applied then old(lastReasonTime)[(pair.0, pair.1, reason) := now] else old(lastReasonTime))
    {
      var window := CurrentWindow(StoredWindow(weeklyPairLedger, pair), now);
      ghost var changes := WindowHistory(weeklyPairLedger, windowApplied, pair, now);
      var d := CappedDelta(window.delta, rawDelta);
      StoreWindow(pair, LedgerEntry(window.weekStart, window.delta + d as real), if d == 0 then changes else changes + [d]);
      if d == 0 {
        return false;
      }
      relationChanges := relationChanges + [RelationChange(pair.0, pair.1, d)];
      lastReasonTime := lastReasonTime[(pair.0, pair.1, reason) := now];
      applied := true;
    }

    /** The pair's window is stored together with the changes that make it up. */
    method StoreWindow(pair: (HeroId, HeroId), e: LedgerEntry, ghost h: seq<int>)
      requires Valid()
      requires Sum(h) as real == e.delta && Abs(e.delta) <= WeeklyPairDeltaCap
      modifies this`weeklyPairLedger, this`windowApplied
      ensures Valid()
      ensures weeklyPairLedger == old(weeklyPairLedger)[pair := e]
    {
      LedgerAccountsUpdate(weeklyPairLedger, windowApplied, pair, e, h);
      weeklyPairLedger := weeklyPairLedger[pair := e];
      windowApplied := windowApplied[pair := h];
    }

    /**
     * `TryGossip`: the speaker picks its most telling story, a random nearby
     * noble hears it (unless the two spoke within a day, or the listener
     * already holds the story), the listener files it, and the listener's
     * traits may move its relation to the hero concerned.
     */
    method TryGossip(agent: NobleAgentState, registry: NobleSocietyManager, now: real, w: GossipWorld)
      requires Valid() && registry.Valid()
      requires agent.hero !in w.nearby
      requires Stamped(agent.memoryLog, now)
      modifies this, registry, registry.agents.Values
      ensures Valid() && registry.Valid()
      ensures |old(relationChanges)| <= |relationChanges|
      ensures unchanged(agent)
      ensures forall h :: h in old(registry.agents) ==> h in registry.agents && registry.agents[h] == old(registry.agents[h])
      ensures agent.hero in old(registry.agents) ==>
                registry.agents[agent.hero].memoryLog == old(registry.agents[agent.hero].memoryLog)
      ensures !ReachesListener(old(agent.memoryLog), agent.hero, w, old(lastInteractionTime), now) ==>
                registry.agents == old(registry.agents)
      ensures GossipOutcome(old(agent.memoryLog), agent.hero, w, now, old(registry.Logs()), registry.Logs(),
                            old(View()), View(), old(windowApplied), windowApplied)
    {
      ghost var before := Budget();
      ghost var window := windowApplied;
      CleanupOldGossip(now);
      assert Budget() == before && windowApplied == window;
      if |agent.memoryLog| == 0 {
        return;
      }
      if w.speakerIsDead || w.speakerIsChild || !w.speakerIsLord {
        return;
      }
      if |w.nearby| == 0 {
        return;
      }
      var speaker := agent.hero;
      var chosen := ChooseMemory(agent.memoryLog, w.traitsOf(speaker), now);
      if chosen.None? {
        return;
      }
      var memory := chosen.value;
      var listener := PickListener(w.nearby, w.listenerPick);
      if CoolingDown(lastInteractionTime, speaker, listener, now) {
        return;
      }
      TellListener(agent, listener, memory, registry, w, now);
    }

    /** The listener's state is fetched (or created) and the story is told to it. */
    method TellListener(agent: NobleAgentState, listener: HeroId, memory: MemoryEntry,
                        registry: NobleSocietyManager, w: GossipWorld, now: real)
      requires Valid() && registry.Valid()
      requires listener != agent.hero
      modifies this, registry, registry.agents.Values
      ensures Valid() && registry.Valid()
      ensures |old(relationChanges)| <= |relationChanges|
      ensures unchanged(agent)
      ensures forall h :: h in old(registry.agents) ==> h in registry.agents && registry.agents[h] == old(registry.agents[h])
      ensures var prior := if listener in old(registry.agents) then old(registry.agents[listener].memoryLog) else [];
              listener in registry.agents &&
              (forall h :: h in registry.agents && h != listener ==>
                 h in old(registry.agents) && registry.agents[h].memoryLog == old(registry.agents[h].memoryLog)) &&
              (AlreadyKnows(prior, memory) ==>
                 registry.agents[listener].memoryLog == prior &&
                 gossipLog == old(gossipLog) && lastInteractionTime == old(lastInteractionTime) &&
                 Budget() == old(Budget()) && windowApplied == old(windowApplied)) &&
              (!AlreadyKnows(prior, memory) ==>
                 registry.agents[listener].memoryLog ==
                   ListenerLogAfter(prior, memory, agent.hero, now, ListenerBelief(w, agent.hero, listener, memory)) &&
                 gossipLog == old(gossipLog) + [GossipEvent(agent.hero, memory.target, memory.kind, memory.notes, now, w.location)] &&
                 lastInteractionTime == old(lastInteractionTime)[(agent.hero, listener) := now] &&
                 AnsweredRequests(old(Budget()), Budget(), listener, GossipRequests(w, agent.hero, listener, memory), now))
    {
      ghost var prior := if listener in registry.agents then registry.agents[listener].memoryLog else [];
      ghost var before := Budget();
      var listenerAgent := registry.GetOrCreateAgent(Some(listener));
      assert listenerAgent != agent;
      assert listenerAgent.memoryLog == prior && Budget() == before;
      Converse(listenerAgent, memory, agent.hero, w, now);
    }

    /**
     * The part of `TryGossip` after the listener is known: the dedupe check,
     * the public gossip record, filing the story, the relation rules, and
     * the pair's timestamp.
     */
    method Converse(listenerAgent: NobleAgentState, memory: MemoryEntry, speaker: HeroId, w: GossipWorld, now: real)
      requires Valid()
      modifies this, listenerAgent`memoryLog
      ensures Valid()
      ensures |old(relationChanges)| <= |relationChanges|
      ensures AlreadyKnows(old(listenerAgent.memoryLog), memory) ==> unchanged(this) && unchanged(listenerAgent)
      ensures !AlreadyKnows(old(listenerAgent.memoryLog), memory) ==>
                var listener := listenerAgent.hero;
                listenerAgent.memoryLog ==
                  ListenerLogAfter(old(listenerAgent.memoryLog), memory, speaker, now, ListenerBelief(w, speaker, listener, memory)) &&
                gossipLog == old(gossipLog) + [GossipEvent(speaker, memory.target, memory.kind, memory.notes, now, w.location)] &&
                lastInteractionTime == old(lastInteractionTime)[(speaker, listener) := now] &&
                relationChanges[..|old(relationChanges)|] == old(relationChanges) &&
                AnsweredRequests(old(Budget()), Budget(), listener, GossipRequests(w, speaker, listener, memory), now)
    {
      if AlreadyKnows(listenerAgent.memoryLog, memory) {
        return;
      }
      ShareStory(listenerAgent, memory, speaker, w, now);
    }

    /** A story new to the listener: recorded as public gossip, filed in the listener's log, its relation rules applied, and the pair stamped. */
    method ShareStory(listenerAgent: NobleAgentState, memory: MemoryEntry, speaker: HeroId, w: GossipWorld, now: real)
      requires Valid()
      modifies this, listenerAgent`memoryLog
      ensures Valid()
      ensures var listener := listenerAgent.hero;
              listenerAgent.memoryLog ==
                ListenerLogAfter(old(listenerAgent.memoryLog), memory, speaker, now, ListenerBelief(w, speaker, listener, memory)) &&
              gossipLog == old(gossipLog) + [GossipEvent(speaker, memory.target, memory.kind, memory.notes, now, w.location)] &&
              lastInteractionTime == old(lastInteractionTime)[(speaker, listener) := now] &&
              |old(relationChanges)| <= |relationChanges| &&
              relationChanges[..|old(relationChanges)|] == old(relationChanges) &&
              AnsweredRequests(old(Budget()), Budget(), listener, GossipRequests(w, speaker, listener, memory), now)
    {
      var listener := listenerAgent.hero;
      ghost var before := Budget();
      SpreadGossip(speaker, memory.target, memory.kind, memory.notes, w.location, now);
      var belief := ListenerBelief(w, speaker, listener, memory);
      listenerAgent.memoryLog := ListenerLogAfter(listenerAgent.memoryLog, memory, speaker, now, belief);

      assert Budget() == before;
      ApplyRequests(listener, GossipRequests(w, speaker, listener, memory), now);
      assert AnsweredRequests(before, Budget(), listener, GossipRequests(w, speaker, listener, memory), now);
      lastInteractionTime := lastInteractionTime[(speaker, listener) := now];
    }

    /** Hands each suggested change to the budgeted applier, in order. */
    method ApplyRequests(listener: HeroId, requests: seq<RelationRequest>, now: real)
      requires Valid()
      requires forall q :: q in requests ==> q.delta == 1 || q.delta == -1
      modifies this`weeklyPairLedger, this`lastReasonTime, this`relationChanges, this`windowApplied
      ensures Valid()
      ensures AnsweredRequests(old(Budget()), Budget(), listener, requests, now)
    {
      var i := 0;
      while i < |requests|
        invariant 0 <= i <= |requests|
        invariant Valid()
        invariant Budget() == RequestsApplied(old(Budget()), listener, requests[..i], now)
      {
        var q := requests[i];
        assert requests[..i + 1][..i] == requests[..i];
        var _ := TryApplyBalancedRel(Some(listener), q.actor, q.delta, q.reason, now);
        i := i + 1;
      }
      assert requests[..i] == requests;
      RequestsAnswered(old(Budget()), listener, requests, now);
    }
  }
}
