// The decisions gossip makes without touching any state: which memory a
// noble talks about, how a listener files what it hears, how much it
// believes it, which relation changes the story suggests, and how the
// weekly per-pair budget clips a change.

module GossipRules {
  import opened Common
  import opened HeroTraits
  import opened MemoryEntries

  const GossipLifespanDays: real := 20.0
  const WeeklyPairDeltaCap: real := 2.0
  const MinDaysBetweenSameReason: real := 5.0
  const LedgerWindowDays: real := 7.0
  const MaxRepeatCount: int := 5

  /** `GossipEvent`: who spoke about whom, on which topic, where and when. */
  datatype GossipEvent = GossipEvent(
    speaker: HeroId,
    subject: Option<HeroId>,
    topic: MemoryType,
    message: string,
    timestamp: real,
    location: Option<string>)

  /** The gossip still remembered at `now`: every event of the last `GossipLifespanDays` days, and no older one. */
  function RecentGossip(log: seq<GossipEvent>, now: real): (r: seq<GossipEvent>)
    ensures |r| <= |log|
    ensures forall g :: g in r <==> g in log && now - g.timestamp <= GossipLifespanDays
  {
    FilterKeepsAll(log, (g: GossipEvent) => g.timestamp >= now - GossipLifespanDays);
    Filter(log, (g: GossipEvent) => g.timestamp >= now - GossipLifespanDays)
  }

  // ---------------------------------------------------------------------
  // Choosing what to talk about

  /**
   * `GetTraitAffinity`: how much a hero cares about a kind of story, driven
   * by the one trait that kind speaks to.
   */
  function GetTraitAffinity(t: TraitSnapshot, kind: MemoryType): (a: real)
    ensures kind in {BattleVictory, MilitaryAid, LostSoldiersTo, TournamentWin} ==> (a > 1.0 <==> t.valor > 0)
    ensures kind in {Murder, ReleasedAfterBattle} ==> (a > 1.0 <==> t.mercy > 0)
    ensures kind in {Betrayal, FavorRefused} ==> (a > 1.0 <==> t.honor > 0)
    ensures kind in {TradeDeal, MinorFavor} ==> (a > 0.5 <==> t.generosity > 0)
    ensures (kind !in {BattleVictory, MilitaryAid, LostSoldiersTo, TournamentWin, Murder, ReleasedAfterBattle,
                       Betrayal, FavorRefused, TradeDeal, MinorFavor}) ==> a == 1.0
  {
    match kind
    case BattleVictory => 1.0 + 0.25 * t.valor as real
    case MilitaryAid => 1.0 + 0.25 * t.valor as real
    case LostSoldiersTo => 1.0 + 0.25 * t.valor as real
    case TournamentWin => 1.0 + 0.25 * t.valor as real
    case Murder => 1.0 + 0.25 * t.mercy as real
    case ReleasedAfterBattle => 1.0 + 0.25 * t.mercy as real
    case Betrayal => 1.0 + 0.25 * t.honor as real
    case FavorRefused => 1.0 + 0.25 * t.honor as real
    case TradeDeal => 0.5 + 0.15 * t.generosity as real
    case MinorFavor => 0.5 + 0.15 * t.generosity as real
    case _ => 1.0
  }

  predicate TraitsInGameRange(t: TraitSnapshot)
  {
    -2 <= t.calculating <= 2 && -2 <= t.generosity <= 2 && -2 <= t.honor <= 2 &&
    -2 <= t.mercy <= 2 && -2 <= t.valor <= 2
  }

  /**
   * With trait levels in the game's range [-2, 2], every affinity is
   * positive and at most 1.5; a neutral hero weighs low-stakes favours and
   * trades at half of everything else.
   */
  lemma AffinityBounds(t: TraitSnapshot, kind: MemoryType)
    requires TraitsInGameRange(t)
    ensures 0.2 <= GetTraitAffinity(t, kind) <= 1.5
    ensures t == TraitSnapshot(0, 0, 0, 0, 0) ==>
              GetTraitAffinity(t, kind) == (if kind == TradeDeal || kind == MinorFavor then 0.5 else 1.0)
  {
  }

  /**
   * Which records a noble may pass on: unexpired ones, and among hearsay
   * only what it has heard at least three times and holds as gossip.
   */
  predicate IsGossipCandidate(e: MemoryEntry, t: TraitSnapshot, now: real)
  {
    !IsExpired(e, t, now) &&
    (e.kind != GossipHeard || (e.repeatCount >= 3 && Gossip in e.tags))
  }

  /** Every record was made no later than `now`. */
  predicate Stamped(log: seq<MemoryEntry>, now: real)
  {
    forall i :: 0 <= i < |log| ==> log[i].timestamp <= now
  }

  /** How eager the speaker is to tell a story: felt weight times affinity, over age in days plus one. */
  function CandidateScore(e: MemoryEntry, t: TraitSnapshot, now: real): real
    requires e.timestamp <= now
  {
    e.weight * GetTraitAffinity(t, e.kind) / (now - e.timestamp + 1.0)
  }

  /**
   * The first of the best-scoring candidates among `log[..n]`: what
   * `OrderByDescending(score).First()` picks, since that ordering is stable.
   */
  function BestCandidate(log: seq<MemoryEntry>, t: TraitSnapshot, now: real, n: nat): (r: Option<nat>)
    requires n <= |log| && Stamped(log, now)
    ensures r.None? <==> forall i :: 0 <= i < n ==> !IsGossipCandidate(log[i], t, now)
    ensures r.Some? ==> r.value < n && IsGossipCandidate(log[r.value], t, now)
    ensures r.Some? ==> forall i :: 0 <= i < n && IsGossipCandidate(log[i], t, now) ==>
              CandidateScore(log[i], t, now) <= CandidateScore(log[r.value], t, now)
    ensures r.Some? ==> forall i :: 0 <= i < r.value && IsGossipCandidate(log[i], t, now) ==>
              CandidateScore(log[i], t, now) < CandidateScore(log[r.value], t, now)
  {
    if n == 0 then None
    else
      var best := BestCandidate(log, t, now, n - 1);
      var e := log[n - 1];
      if IsGossipCandidate(e, t, now) &&
         (best.None? || CandidateScore(e, t, now) > CandidateScore(log[best.value], t, now))
      then Some(n - 1)
      else best
  }

  /** The record a noble gossips about, if any. */
  function ChooseMemory(log: seq<MemoryEntry>, t: TraitSnapshot, now: real): (r: Option<MemoryEntry>)
    requires Stamped(log, now)
    ensures r.Some? ==> r.value in log && IsGossipCandidate(r.value, t, now)
    ensures r.None? <==> forall e :: e in log ==> !IsGossipCandidate(e, t, now)
  {
    match BestCandidate(log, t, now, |log|)
    case None => None
    case Some(i) => Some(log[i])
  }

  /** `GetRandomElement` over the nearby nobles, with the draw as `pick`. */
  function PickListener(nearby: seq<HeroId>, pick: nat): (h: HeroId)
    requires |nearby| > 0
    ensures h in nearby
  {
    nearby[pick % |nearby|]
  }

  // ---------------------------------------------------------------------
  // How the listener files what it hears

  /** The listener already holds this exact story: same kind, target and notes. */
  predicate AlreadyKnows(log: seq<MemoryEntry>, memory: MemoryEntry)
  {
    exists i :: 0 <= i < |log| && log[i].kind == memory.kind && log[i].target == memory.target &&
      log[i].notes == memory.notes
  }

  /** A hearsay record of the same story. */
  predicate HeardMatches(m: MemoryEntry, memory: MemoryEntry)
  {
    m.kind == GossipHeard &&
    (m.originalKind == Some(memory.kind) || m.kind == memory.kind) &&
    m.notes == memory.notes && m.target == memory.target
  }

  /** `FirstOrDefault(HeardMatches)`: the first hearsay record of the story. */
  function FindHeard(log: seq<MemoryEntry>, memory: MemoryEntry): (r: Option<nat>)
    ensures r.Some? ==> r.value < |log| && HeardMatches(log[r.value], memory)
    ensures r.Some? ==> forall i :: 0 <= i < r.value ==> !HeardMatches(log[i], memory)
    ensures r.None? <==> forall i :: 0 <= i < |log| ==> !HeardMatches(log[i], memory)
  {
    if |log| == 0 then None
    else if HeardMatches(log[0], memory) then Some(0)
    else match FindHeard(log[1..], memory)
      case None => None
      case Some(j) => Some(j + 1)
  }

  /**
   * Once the listener does not already hold the story, a hearsay record can
   * only match through its original kind: the fallback on the record's own
   * kind never fires, and relayed hearsay never finds an earlier hearing.
   */
  lemma HeardMatchesOnlyByOriginalKind(log: seq<MemoryEntry>, memory: MemoryEntry)
    requires !AlreadyKnows(log, memory)
    ensures FindHeard(log, memory).Some? ==>
              memory.kind != GossipHeard && log[FindHeard(log, memory).value].originalKind == Some(memory.kind)
  {
  }

  /** A first hearing: a weak hearsay record naming what kind of event was heard. */
  function HeardEntry(memory: MemoryEntry, speaker: HeroId, now: real): (e: MemoryEntry)
    ensures e.kind == GossipHeard && e.originalKind == Some(memory.kind)
    ensures e.source == Some(speaker) && e.target == memory.target && e.notes == memory.notes
    ensures e.weight == 0.1 && e.tags == {Gossip} && e.repeatCount == 1 && e.timestamp == now
    ensures !e.neverForget && e.decayRate == 0.03
  {
    NewEntry(GossipHeard, Some(speaker), memory.target, 0.1, memory.notes, now)
      .(originalKind := Some(memory.kind), tags := {Gossip})
  }

  /** A repeated hearing: one more hearing, capped at five, and slightly more weight. */
  function Reheard(e: MemoryEntry): (r: MemoryEntry)
    ensures r == e.(repeatCount := r.repeatCount, weight := r.weight)
    ensures r.weight == e.weight + 0.05
    ensures r.repeatCount <= MaxRepeatCount
    ensures e.repeatCount < MaxRepeatCount ==> r.repeatCount == e.repeatCount + 1
    ensures e.repeatCount >= 1 ==> r.repeatCount >= 2
  {
    e.(repeatCount := MinInt(e.repeatCount + 1, MaxRepeatCount), weight := e.weight + 0.05)
  }

  /** A story the listener now believes first-hand: the heard kind, from the speaker, at half the speaker's weight. */
  function PromotedEntry(memory: MemoryEntry, speaker: HeroId, now: real): (e: MemoryEntry)
    ensures e.kind == memory.kind && e.originalKind == None
    ensures e.source == Some(speaker) && e.target == memory.target && e.notes == memory.notes
    ensures e.weight == memory.weight * 0.5 && e.tags == {} && e.timestamp == now
  {
    NewEntry(memory.kind, Some(speaker), memory.target, memory.weight * 0.5, memory.notes, now)
  }

  predicate IsSmear(kind: MemoryType)
  {
    kind == Murder || kind == Betrayal || kind == BattleDefeat
  }

  /**
   * How far the listener believes a repeated story: trust in the speaker,
   * care for the kind of story, bravery for, calculation against; dark
   * rumours gain with honour, low-stakes ones lose a little, and smears
   * against the listener's own clan lose half a point.
   */
  function BeliefScore(trust: int, t: TraitSnapshot, kind: MemoryType, isAlly: bool): real
  {
    var base := trust as real / 10.0 + (GetTraitAffinity(t, kind) - 1.0)
                + t.valor as real * 0.3 + t.calculating as real * -0.2;
    var dark := if kind == Murder || kind == Betrayal then t.honor as real * 0.3 + 0.5 else 0.0;
    var lowStakes := if kind == TradeDeal || kind == MinorFavor then -0.2 else 0.0;
    var allyDiscount := if isAlly && IsSmear(kind) then -0.5 else 0.0;
    base + dark + lowStakes + allyDiscount
  }

  /**
   * Trust moves belief one tenth of a point per relation point, and an ally
   * hearing a smear believes it exactly half a point less.
   */
  lemma BeliefScoreShape(trust: int, more: nat, t: TraitSnapshot, kind: MemoryType)
    ensures BeliefScore(trust + more, t, kind, false) == BeliefScore(trust, t, kind, false) + more as real / 10.0
    ensures BeliefScore(trust, t, kind, true) ==
              BeliefScore(trust, t, kind, false) - (if IsSmear(kind) then 0.5 else 0.0)
  {
  }

  /**
   * What the listener's log becomes when it hears `memory` from `speaker`
   * (and does not already hold it): a repeat bumps the first matching
   * hearsay record and, once believed, adds a first-hand belief; a first
   * hearing adds a hearsay record.
   */
  function ListenerLogAfter(log: seq<MemoryEntry>, memory: MemoryEntry, speaker: HeroId,
                            now: real, belief: real): (r: seq<MemoryEntry>)
    ensures |log| <= |r| <= |log| + 1
  {
    match FindHeard(log, memory)
    case None => log + [HeardEntry(memory, speaker, now)]
    case Some(j) =>
      var bumped := Reheard(log[j]);
      log[j := bumped] +
        (if bumped.repeatCount >= 2 && belief >= 1.0 then [PromotedEntry(memory, speaker, now)] else [])
  }

  /** A first hearing appends exactly one hearsay record and keeps the rest. */
  lemma FirstHearingAppends(log: seq<MemoryEntry>, memory: MemoryEntry, speaker: HeroId, now: real, belief: real)
    requires forall i :: 0 <= i < |log| ==> !HeardMatches(log[i], memory)
    ensures ListenerLogAfter(log, memory, speaker, now, belief) == log + [HeardEntry(memory, speaker, now)]
  {
  }

  /**
   * A repeat hearing changes only the first matching hearsay record, and adds
   * a belief exactly when the score reaches 1.0 (a record always has at
   * least one hearing, so the two-hearings condition always holds).
   */
  lemma RepeatHearingPromotesOnBelief(log: seq<MemoryEntry>, memory: MemoryEntry, speaker: HeroId,
                                      now: real, belief: real, j: nat)
    requires FindHeard(log, memory) == Some(j)
    requires log[j].repeatCount >= 1
    ensures var r := ListenerLogAfter(log, memory, speaker, now, belief);
            r[..|log|] == log[j := Reheard(log[j])] &&
            (belief >= 1.0 <==> |r| == |log| + 1) &&
            (belief >= 1.0 ==> r[|log|] == PromotedEntry(memory, speaker, now))
  {
  }

  // ---------------------------------------------------------------------
  // Relation changes the story suggests to the listener

  datatype RelationRequest = RelationRequest(actor: Option<HeroId>, delta: int, reason: string)

  /** One row of the rule table: a one-point change toward `actor` when the condition holds. */
  function Rule(c: bool, actor: Option<HeroId>, delta: int, reason: string): (r: seq<RelationRequest>)
    ensures |r| <= 1
    ensures c <==> r == [RelationRequest(actor, delta, reason)]
    ensures !c <==> r == []
  {
    if c then [RelationRequest(actor, delta, reason)] else []
  }

  /**
   * The rule table of `TryGossip`: each kind of event, seen through the
   * listener's traits, may ask for up to two one-point changes toward the
   * event's source (battle stories) or the speaker (favours, trades,
   * betrayal). `roll1` and `roll2` are the random draws of the first and
   * second rule of the kind.
   */
  function RelationRequests(kind: MemoryType, t: TraitSnapshot, source: Option<HeroId>,
                            speaker: HeroId, roll1: real, roll2: real): (r: seq<RelationRequest>)
    ensures |r| <= 2
    ensures forall i :: 0 <= i < |r| ==> r[i].delta == 1 || r[i].delta == -1
    ensures |r| == 2 ==> r[0].reason != r[1].reason
    ensures forall i :: 0 <= i < |r| ==> r[i].actor == (if IsSourceDirected(kind) then source else Some(speaker))
    ensures !IsSourceDirected(kind) && kind !in {TradeDeal, MilitaryAid, MinorFavor, Betrayal, FavorRefused} ==> r == []
  {
    if IsSourceDirected(kind) then SourceRequests(kind, t, source, roll1, roll2)
    else SpeakerRequests(kind, t, Some(speaker), roll1, roll2)
  }

  /** The rows of the table about battles and mercy, aimed at the event's source. */
  function SourceRequests(kind: MemoryType, t: TraitSnapshot, source: Option<HeroId>, roll1: real, roll2: real): (r: seq<RelationRequest>)
    requires IsSourceDirected(kind)
    ensures |r| <= 2
    ensures forall i :: 0 <= i < |r| ==> r[i].delta == 1 || r[i].delta == -1
    ensures forall i :: 0 <= i < |r| ==> r[i].actor == source
    ensures |r| == 2 ==> r[0].reason != r[1].reason
  {
    if kind == ReleasedAfterBattle then
      if t.mercy > 0 then [RelationRequest(source, 1, "ReleasedAfterBattle+Mercy")]
      else if t.mercy < 0 then [RelationRequest(source, -1, "ReleasedAfterBattle-Mercy")]
      else []
    else if kind == BattleVictory then
      Rule(t.valor > 0, source, 1, "BattleVictory+Valor") +
      Rule(t.calculating > 0, source, -1, "BattleVictory-Calculating")
    else if kind == BattleDefeat then
      Rule(t.calculating > 0, source, -1, "BattleDefeat-Calculating") +
      Rule(t.honor >= 2 && roll2 < 0.25, source, 1, "BattleDefeat+Honor")
    else if kind == LostSoldiersTo then
      Rule(t.honor >= 2 && roll1 < 0.33, source, 1, "LostSoldiersTo+Honor") +
      Rule(t.mercy >= 1 && roll2 < 0.33, source, -1, "LostSoldiersTo-Mercy")
    else
      Rule(t.mercy > 0, source, -1, "Murder-Mercy")
  }

  /** The rows about favours, trades, refusals and betrayals, aimed at the speaker; other kinds ask nothing. */
  function SpeakerRequests(kind: MemoryType, t: TraitSnapshot, s: Option<HeroId>, roll1: real, roll2: real): (r: seq<RelationRequest>)
    ensures |r| <= 2
    ensures forall i :: 0 <= i < |r| ==> r[i].delta == 1 || r[i].delta == -1
    ensures forall i :: 0 <= i < |r| ==> r[i].actor == s
    ensures |r| == 2 ==> r[0].reason != r[1].reason
    ensures kind !in {TradeDeal, MilitaryAid, MinorFavor, Betrayal, FavorRefused} ==> r == []
  {
    if kind == TradeDeal then
      Rule(t.generosity > 2 && roll1 < 0.5, s, 1, "TradeDeal+Generosity") +
      Rule(t.calculating > 1 && roll2 < 0.25, s, -1, "TradeDeal-Calculating")
    else if kind == MilitaryAid || kind == MinorFavor then AidRequests(t, s, roll1, roll2)
    else if kind == Betrayal then
      Rule(t.honor > 0, s, -1, "Betrayal-Honor") +
      Rule(t.calculating >= 2 && roll2 < 0.2, s, 1, "Betrayal+Calculating")
    else if kind == FavorRefused then
      Rule(t.mercy < 0, s, 1, "FavorRefused+Mercy") +
      Rule(t.honor > 0 && roll2 < 0.5, s, -1, "FavorRefused-Honor")
    else []
  }

  function AidRequests(t: TraitSnapshot, s: Option<HeroId>, roll1: real, roll2: real): seq<RelationRequest>
  {
    Rule(t.valor > 0 && roll1 < 0.66, s, 1, "Aid+Valor") +
    Rule(t.honor < 0 && roll2 < 0.25, s, -1, "Aid-Honor")
  }

  predicate IsSourceDirected(kind: MemoryType)
  {
    kind == ReleasedAfterBattle || kind == BattleVictory || kind == BattleDefeat ||
    kind == LostSoldiersTo || kind == Murder
  }

  /** A neutral listener (all traits zero) is never moved by gossip. */
  lemma NeutralListenerUnmoved(kind: MemoryType, source: Option<HeroId>, speaker: HeroId, roll1: real, roll2: real)
    ensures RelationRequests(kind, TraitSnapshot(0, 0, 0, 0, 0), source, speaker, roll1, roll2) == []
  {
    if IsSourceDirected(kind) {
      assert SourceRequests(kind, TraitSnapshot(0, 0, 0, 0, 0), source, roll1, roll2) == [];
    } else {
      assert SpeakerRequests(kind, TraitSnapshot(0, 0, 0, 0, 0), Some(speaker), roll1, roll2) == [];
    }
  }

  // ---------------------------------------------------------------------
  // The weekly per-pair budget

  /** A pair's running total of gossip-driven change since `weekStart`. */
  datatype LedgerEntry = LedgerEntry(weekStart: real, delta: real)

  /** The pair's current window: the stored one, or a fresh one once seven days have passed. */
  function CurrentWindow(stored: Option<LedgerEntry>, now: real): (w: LedgerEntry)
    ensures stored.None? ==> w == LedgerEntry(now, 0.0)
    ensures stored.Some? && now - stored.value.weekStart < LedgerWindowDays ==> w == stored.value
    ensures stored.Some? && now - stored.value.weekStart >= LedgerWindowDays ==> w == LedgerEntry(now, 0.0)
  {
    if stored.None? || now - stored.value.weekStart >= LedgerWindowDays then LedgerEntry(now, 0.0)
    else stored.value
  }

  function Sign(x: int): int { if x > 0 then 1 else if x < 0 then -1 else 0 }

  /**
   * The part of `raw` the pair's budget lets through, given what the window
   * already holds: nothing once the budget is spent, the whole change when
   * it fits, otherwise the remaining room truncated to whole points.
   */
  function CappedDelta(delta: real, raw: int): (applied: int)
    requires Abs(delta) <= WeeklyPairDeltaCap
    ensures applied == 0 || Sign(applied) == Sign(raw)
    ensures AbsInt(applied) <= AbsInt(raw)
    ensures Abs(delta + applied as real) <= WeeklyPairDeltaCap
    ensures Abs(delta + raw as real) <= WeeklyPairDeltaCap && Abs(delta) < WeeklyPairDeltaCap ==> applied == raw
  {
    var remaining := WeeklyPairDeltaCap - Abs(delta);
    if remaining <= 0.0 then 0
    else if Abs(delta + raw as real) > WeeklyPairDeltaCap then
      var room := Truncate(Max(0.0, remaining));
      assert room as real <= remaining;
      if raw > 0 then room else if raw < 0 then -room else 0
    else raw
  }
}
