# NobleSociety, modelled in Dafny

NobleSociety is a campaign mod that gives the noble heroes of a sandbox
strategy game a social memory. Each noble keeps a log of remembered events
that fade over time. Nobles who meet gossip about those memories, and what
they hear shifts their relations within a weekly budget. A large relation
change ripples out to the heroes around the pair. Around this engine sit
bookkeeping behaviours: gifts of gold between clan leaders, NPC courtship
with suitor registries and rivalries, a meeting tracker, courtship
telemetry, neutral seating of idle nobles, tournament seeding and
participant ordering, relation changes on tournament knock-outs, and a
dynamic ransom price.

This project models that core as Dafny values, functions, classes and
methods, and proves what each piece promises. The modules:

- `Common` (common.dfy): options, hero ids, the relation change handed to the game, .NET rounding and truncation, ordinal order, `x|y` pair keys, `Split`/`Join`, order-preserving `Filter`.
- `Sorting` (sorting.dfy): the stable `OrderBy(..).ThenBy(..)` orderings as an insertion sort on a lexicographic key.
- `HeroTraits` (hero_traits.dfy): the five-trait snapshot and the memory decay modifier.
- `MemoryEntries` (memory_entry.dfy): memory kinds and tags, the per-kind decay table, `DecayWeight`, `IsExpired`.
- `GossipRules` (gossip_rules.dfy): the stateless gossip decisions: candidate choice, filing of heard stories, belief, suggested relation changes, the weekly budget clip.
- `Society` (society.dfy): `NobleAgentState`, the registry of agents and the `GossipManager` state with its ledgers, as classes.
- `MemoryHousekeeping`, `HousekeepingFacts`, `SocietyBehavior` (memory_housekeeping.dfy, housekeeping_facts.dfy, society_behavior.dfy): the daily driver and its in-place prune-and-decay pass.
- `RelationRipple`, `RelationPatch` (ripple.dfy, relation_patch.dfy): ripple propagation and the re-entrancy guard on relation changes.
- `PatronageLogic`, `PatronageBehavior` (patronage_logic.dfy, patronage_behavior.dfy): gift rules, the gift windows and their save format.
- `Romance` (romance.dfy): the NPC romance behaviour, its cooldowns, suitor registry, rivalries and flat save lists.
- `MeetingTracker`, `ParallelLists` (meeting_tracker.dfy, parallel_lists.dfy): the meeting tracker and the shared key/value-list save format.
- `CourtshipTelemetry` (courtship_telemetry.dfy): courtship start times and lengths.
- `TournamentPreferLocal`, `TournamentSeeding`, `AgentRemoved` (tournament_prefer_local.dfy, tournament_seeding.dfy, agent_removed.dfy): the tournament patches.
- `RansomLogic` (ransom.dfy): the dynamic ransom and the ransom decisions.
- `IdleSeating` (idle_seating.dfy): neutral seating of idle nobles.

Conventions:

- Heroes are their `StringId` strings, and a hero that may be null is an `Option`.
- Campaign time is in days, as `real`.
- Weights, multipliers and other floating-point values are `real`.
- Random draws, world queries (nearby nobles, family and friends, eligible recipients, distances, town lists) and game actions are parameters of the operations.
- Game actions such as relation changes, gold gifts and moves are recorded as effects.
- A dictionary whose enumeration order matters is a `map` together with a sequence giving its order.

The model follows the code, with one kind of exception. Where the table
under `## Findings` records a defect, the model keeps the code as written
as its own member and proves the discrepancy. The operations that use that
code run the corrected definition instead, and the list under `## Left out` names each of
them and says how it differs from the code. An example that follows the
code: in `GossipManager.TryGossip` (NobleSociety/Systems/GossipManager.cs:59-63), heard gossip
is a gossip candidate only once it is well established, meaning heard at
least three times and tagged as gossip. `GossipRules` models exactly that
test.

## Model

| member | source | states |
|---|---|---|
| Common.RoundHalfToEven | NobleSociety/Systems/DynamicRansomLogic.cs:114 | the result is within half of the value, and an exact half goes to the even neighbour |
| Common.RoundAwayFromZero | NobleSociety/Systems/RelationRippleService.cs:83 | the result is within half of the value with the value's sign, any value of size at least one half rounds to a non-zero result, and a value exactly halfway between two integers goes to the one farther from zero |
| Common.PairKeySymmetric | NobleSociety/Behaviors/NPCRomanceCampaignBehavior.cs:603-608 | the ordinal-ordered pair key is the same in either order of the two heroes |
| Common.SplitJoinRoundTrip | NobleSociety/Behaviors/NoblePatronageBehavior.cs:35-53 | splitting a joined list of pieces that hold no separator gives the pieces back |
| HeroTraits.GetHeroTraits | NobleSociety/Extensions/HeroTraitExtensions.cs:18-28 | each of the five levels in the snapshot is the game's level for that trait |
| HeroTraits.GetDecayModifier | NobleSociety/Extensions/HeroTraitExtensions.cs:30-45 | the modifier lies in [0.765, 1.375]; a holder with no marked trait gets 1, a merciful one otherwise unmarked gets 1.25 |
| HeroTraits.DecayModifierFactors | NobleSociety/Extensions/HeroTraitExtensions.cs:30-45 | each trait contributes its own factor against the same hero without it: mercy above 0 multiplies by 1.25, honour below 0 by 0.85, generosity above 0 by 0.9, calculating above 0 by 1.1; valour plays no part |
| HeroTraits.DecayFactorsBounded | NobleSociety/Extensions/HeroTraitExtensions.cs:33-44 | any product of the four factors (1 or 1.25, 1 or 0.85, 1 or 0.9, 1 or 1.1) lies in [0.765, 1.375] |
| HeroTraits.GetTraitValue | NobleSociety/Extensions/HeroTraitExtensions.cs:47-50 | 0 for an agent without a hero, otherwise that hero's level of the trait |
| MemoryEntries.NewEntry | NobleSociety/State/NobleMemoryEntry.cs:88-121 | the record carries the given kind, heroes, weight and notes, today's stamp, one hearing and no tags; it is permanent exactly for Betrayal, Murder and ChildBorn; its rate is 0.05 for TournamentLoss and MinorFavor, 0.025 for TradeDeal and TournamentWin, 0.03 otherwise |
| MemoryEntries.EffectiveDecay | NobleSociety/State/NobleMemoryEntry.cs:127 | one step is the rate scaled by the holder's modifier: positive for a positive rate, within [0.765, 1.375] times the rate |
| MemoryEntries.DecayWeight | NobleSociety/State/NobleMemoryEntry.cs:123-135 | as written: only the weight changes; a permanent record is untouched; a positive weight drops by one step, a negative one rises by one step, and a result under 0.001 in magnitude is snapped to 0 |
| MemoryEntries.DecayShrinksWithoutOvershoot | NobleSociety/State/NobleMemoryEntry.cs:123-135 | when the weight is at least one step from zero, decay never increases its magnitude or changes its sign |
| MemoryEntries.DecayOvershootFlipsSign | NobleSociety/State/NobleMemoryEntry.cs:128-131 | counterexample: weight 0.01 with rate 0.03 and a neutral holder becomes -0.02, a larger memory of the opposite valence |
| MemoryEntries.DecayWeightToZero | NobleSociety/State/NobleMemoryEntry.cs:123-135 | the corrected step, which the modelled daily tick runs in place of `DecayWeight`: only the weight changes, its magnitude never grows, its sign never flips, it drops by exactly one step when at least a step plus 0.001 from zero, and it is 0 or at least 0.001 in magnitude |
| MemoryEntries.ExpiryIsPermanent | NobleSociety/State/NobleMemoryEntry.cs:137-144 | an expired record stays expired on every later day |
| MemoryEntries.IsExpired | NobleSociety/State/NobleMemoryEntry.cs:137-144 | a permanent record never expires, and no record with a non-negative rate expires at or before its stamp; a record is not expired while its age scaled by 1.375 and its rate is at most 1, and a non-permanent one is expired once its age scaled by 0.765 and its rate exceeds 1 |
| MemoryEntries.FreshEntryLifetime | NobleSociety/State/NobleMemoryEntry.cs:88-144 | a new permanent record never expires; a new ordinary one has expired 53 days after it was made, whatever the holder's traits |
| GossipRules.AffinityBounds | NobleSociety/Systems/GossipManager.cs:310-337 | with traits in [-2, 2] every affinity lies in [0.2, 1.5]; a neutral hero weighs favours and trades at 0.5 and every other kind at 1 |
| GossipRules.GetTraitAffinity | NobleSociety/Systems/GossipManager.cs:310-337 | a hero cares more than the baseline about battles, aid, lost soldiers and tournament wins exactly when brave, about murder and releases exactly when merciful, about betrayal and refused favours exactly when honourable, and about trades and minor favours exactly when generous; every other kind weighs 1 |
| GossipRules.BestCandidate | NobleSociety/Systems/GossipManager.cs:60-73 | the pick is a candidate (unexpired; hearsay only when heard three times and tagged Gossip), no candidate scores higher, and every earlier candidate scores strictly lower, as the stable descending order's first element; none exactly when no record qualifies |
| GossipRules.ChooseMemory | NobleSociety/Systems/GossipManager.cs:60-75 | the story told is a candidate record of the speaker's log; there is none exactly when no record qualifies |
| GossipRules.PickListener | NobleSociety/Systems/GossipManager.cs:77 | the listener is one of the nearby nobles |
| GossipRules.FindHeard | NobleSociety/Systems/GossipManager.cs:95-99 | the index of the first hearsay record of the same story; none exactly when no record matches |
| GossipRules.HeardMatchesOnlyByOriginalKind | NobleSociety/Systems/GossipManager.cs:86-99 | after the already-knows check, a match can only come through the record's original kind, never through the fallback on its own kind |
| GossipRules.HeardEntry | NobleSociety/Systems/GossipManager.cs:147-156 | a first hearing is a GossipHeard record from the speaker about the same target and notes, weight 0.1, tagged Gossip, naming the heard kind |
| GossipRules.Reheard | NobleSociety/Systems/GossipManager.cs:105-106 | a repeat hearing adds 0.05 weight and one hearing capped at five, and changes nothing else |
| GossipRules.PromotedEntry | NobleSociety/Systems/GossipManager.cs:133-140 | a believed story is a first-hand record of the heard kind from the speaker at half the speaker's weight |
| GossipRules.BeliefScoreShape | NobleSociety/Systems/GossipManager.cs:117-129 | each relation point of trust adds a tenth of a point of belief; an ally hearing a smear believes it exactly half a point less |
| GossipRules.ListenerLogAfter | NobleSociety/Systems/GossipManager.cs:95-157 | hearing a story adds at most one record to the listener's log |
| GossipRules.FirstHearingAppends | NobleSociety/Systems/GossipManager.cs:145-157 | without an earlier hearing, exactly one hearsay record is appended and the rest is kept |
| GossipRules.RepeatHearingPromotesOnBelief | NobleSociety/Systems/GossipManager.cs:103-144 | a repeat changes only the first matching hearsay record, and a belief record is added exactly when the score reaches 1 |
| GossipRules.Rule | NobleSociety/Systems/GossipManager.cs:173-236 | one row of the table asks for its change exactly when its condition holds |
| GossipRules.RelationRequests | NobleSociety/Systems/GossipManager.cs:173-236 | at most two one-point requests with distinct reasons, aimed at the event's source for battle and mercy stories and at the speaker otherwise; other kinds ask nothing |
| GossipRules.SourceRequests | NobleSociety/Systems/GossipManager.cs:175-206 | the battle and mercy rows: at most two one-point requests with distinct reasons, all toward the event's source |
| GossipRules.SpeakerRequests | NobleSociety/Systems/GossipManager.cs:208-235 | the favour, trade, refusal and betrayal rows: at most two one-point requests with distinct reasons toward the speaker; other kinds ask nothing |
| GossipRules.NeutralListenerUnmoved | NobleSociety/Systems/GossipManager.cs:173-236 | a listener with all traits at zero is never asked to change a relation |
| GossipRules.CurrentWindow | NobleSociety/Systems/GossipManager.cs:254-255 | the stored window while under seven days old, otherwise (or without one) a fresh window starting today at zero |
| GossipRules.CappedDelta | NobleSociety/Systems/GossipManager.cs:257-267 | the applied change has the raw change's sign, is no larger, keeps the window within the weekly cap of 2, and is the whole change when it fits |
| Society.DecayAll | NobleSociety/State/NobleAgentState.cs:31-32 | every record takes one corrected decay step (`DecayWeightToZero`, not the code's `DecayWeight`), in place, and the log keeps its length |
| Society.TickedLogKeepsPermanent | NobleSociety/State/NobleAgentState.cs:31-34 | after a tick only unexpired records of at least 0.001 in magnitude remain, a permanent record still felt survives, and the log never grows |
| Society.NobleAgentState.constructor | NobleSociety/State/NobleAgentState.cs:10-21 | a new state has the hero, tier Medium, last tick 0, last decay day -1 and an empty log |
| Society.NobleAgentState.ShouldTick | NobleSociety/State/NobleAgentState.cs:23 | due exactly when more than one day has passed since the last tick; never due at or before the stamp |
| Society.NobleAgentState.Tick | NobleSociety/State/NobleAgentState.cs:25-37 | the gossip attempt has the outcome `GossipOutcome` states (old gossip forgotten; the listener, if reached and new to the story, files it, the pair is stamped, the event is recorded and the relation requests answered; no other noble's log changes); then the log is the decayed (with the corrected step) and pruned log and the tick is stamped today; no other hero's state object is replaced |
| Society.NobleAgentState.Age | NobleSociety/State/NobleAgentState.cs:30-36 | after the gossip attempt: the log is the decayed (with the corrected step) and pruned log and the tick is stamped today |
| Society.NobleAgentState.DecayEach | NobleSociety/State/NobleAgentState.cs:31-32 | the loop leaves exactly the log decayed with the corrected step |
| Society.RegisteredEntries | NobleSociety/Systems/NobleSocietyManager.cs:45-59 | one record with the event's fields (tagged unless the tag is None) and, when asked, a second identical record tagged Belief |
| Society.NobleSocietyManager.constructor | NobleSociety/Systems/NobleSocietyManager.cs:11-12 | the registry starts empty |
| Society.NobleSocietyManager.GetOrCreateAgent | NobleSociety/Systems/NobleSocietyManager.cs:14-24 | null for a missing hero; otherwise the hero's existing state, or a new empty one that is registered |
| Society.NobleSocietyManager.RegisterMemory | NobleSociety/Systems/NobleSocietyManager.cs:33-60 | the source's log gains exactly the registered records and every other hero's log is unchanged; nothing happens without a source |
| Society.WindowHistory | NobleSociety/Systems/GossipManager.cs:254-271 | the changes applied in a pair's current window add up to its stored total, which never exceeds the weekly cap |
| Society.LedgerAccountsUpdate | NobleSociety/Systems/GossipManager.cs:267-271 | storing a window together with the changes that make it up keeps every pair's total within the cap |
| Society.GossipManager.constructor | NobleSociety/Systems/GossipManager.cs:18-31 | all records and ledgers start empty |
| Society.GossipManager.SpreadGossip | NobleSociety/Systems/GossipManager.cs:33-37 | one gossip event is appended to the public record |
| Society.GossipManager.CleanupOldGossip | NobleSociety/Systems/GossipManager.cs:276-280 | the log becomes `RecentGossip` of the old log: exactly the gossip of the last 20 days remains |
| GossipRules.RecentGossip | NobleSociety/Systems/GossipManager.cs:276-280 | an event is kept exactly when it was in the log and is at most 20 days old |
| Society.GossipManager.TryApplyBalancedRel | NobleSociety/Systems/GossipManager.cs:242-274 | nothing for a missing hero, a zero change or a reason used on the pair within five days; otherwise the capped change is applied, the window stored and the reason stamped exactly when the change is non-zero; the weekly cap is kept; the new state is `BalancedStep` of the old |
| Society.BalancedStep | NobleSociety/Systems/GossipManager.cs:242-274 | the applier on values: no change without both heroes, for zero or within the reason's five days; a change made is the listener's toward the actor, non-zero, of the requested sign and no larger, and only then is the reason stamped; a change the window has room for is made in full; every window stays within the weekly cap |
| Society.RequestsApplied | NobleSociety/Systems/GossipManager.cs:173-236 | the requests handed to the applier in order keep every window within the weekly cap |
| Society.RequestedChangesAimed | NobleSociety/Systems/GossipManager.cs:173-236 | applying requests only appends, at most one change per request, and each new change is the listener's toward the actor of one of the requests with that request's sign |
| Society.RequestsAnswered | NobleSociety/Systems/GossipManager.cs:173-236 | for one-point requests, each new change is a one-point change by the listener toward a requested actor, and the budget is exactly `RequestsApplied` of the old one |
| Society.GossipManager.ApplyWithinBudget | NobleSociety/Systems/GossipManager.cs:254-273 | the window is rolled over if stale and what the budget allows is applied and recorded |
| Society.GossipManager.StoreWindow | NobleSociety/Systems/GossipManager.cs:258-271 | the pair's window is replaced and the ledger invariant kept |
| Society.GossipManager.TryGossip | NobleSociety/Systems/GossipManager.cs:45-239 | `GossipOutcome` from the old state: gossip older than 20 days is always forgotten; if no listener is reached, or the listener already holds the story, nothing else changes (logs, pair stamps, ledger, reason stamps, relation changes, windows); otherwise the listener's log becomes `ListenerLogAfter`, the event is appended to the gossip log, the pair is stamped, and the ledger, reason stamps and relation changes are the budgeted applier run over the story's `RelationRequests` (by its original kind, toward its source or the speaker), so every new change is a one-point change by the listener toward a requested actor; no other hero's log changes, and the registry is untouched when no listener is reached |
| Society.GossipManager.TellListener | NobleSociety/Systems/GossipManager.cs:84-238 | the listener's state is fetched or created and the story told to it: a listener already holding it leaves the logs, gossip log, pair stamps, ledger, reason stamps, relation changes and windows as they were; otherwise the listener files the story, the event is appended to the gossip log, the pair is stamped, and the relation changes are the budgeted applier run over the story's `RelationRequests` |
| Society.GossipManager.Converse | NobleSociety/Systems/GossipManager.cs:86-238 | after the already-knows check: one gossip event is recorded, the listener's log is updated, the pair stamped, earlier relation changes kept, and the ledger, reason stamps and changes are `RequestsApplied` over the story's `RelationRequests`, each new change a one-point change by the listener toward a requested actor |
| Society.GossipManager.ShareStory | NobleSociety/Systems/GossipManager.cs:92-238 | for a story new to the listener: one gossip event is recorded, the listener's log becomes `ListenerLogAfter`, the pair is stamped, and the ledger, reason stamps and changes are `RequestsApplied` over the story's `RelationRequests`, each new change a one-point change by the listener toward a requested actor |
| Society.GossipManager.ApplyRequests | NobleSociety/Systems/GossipManager.cs:173-236 | each requested change goes through the budgeted applier in order: the new state is `RequestsApplied` of the old, earlier changes kept, at most one new change per request, each a one-point change by the listener toward that request's actor |
| MemoryHousekeeping.CountTag | NobleSociety/Behaviors/NobleSocietyBehavior.cs:93-94 | the number of records carrying a tag is at most the log's length |
| MemoryHousekeeping.Scaled | NobleSociety/Behaviors/NobleSocietyBehavior.cs:83-85 | every record, permanent ones included, keeps its place and has its weight multiplied by the fading factor |
| MemoryHousekeeping.OldestTagged | NobleSociety/Behaviors/NobleSocietyBehavior.cs:93-99 | a found position holds a record carrying the tag |
| MemoryHousekeeping.OldestTaggedIsOldest | NobleSociety/Behaviors/NobleSocietyBehavior.cs:97-99 | whenever a record carries the tag one is found, and no record carrying the tag is older |
| MemoryHousekeeping.OldestIndex | NobleSociety/Behaviors/NobleSocietyBehavior.cs:97-99 | the position of the oldest record carrying the tag |
| MemoryHousekeeping.OldestIndexIsOldest | NobleSociety/Behaviors/NobleSocietyBehavior.cs:97-99 | no record carrying the tag is older than the one removed |
| MemoryHousekeeping.DropOldestRemoves | NobleSociety/Behaviors/NobleSocietyBehavior.cs:95-100 | with at least k records carrying the tag, exactly k records go, all of them carrying it |
| HousekeepingFacts.DropOldestSubset | NobleSociety/Behaviors/NobleSocietyBehavior.cs:98-99 | dropping adds no record |
| HousekeepingFacts.DroppedAtInLog | NobleSociety/Behaviors/NobleSocietyBehavior.cs:98-99 | each of the cap's removals takes a record of the log carrying the tag |
| HousekeepingFacts.DroppedAreOldest | NobleSociety/Behaviors/NobleSocietyBehavior.cs:96-99 | no dropped record is younger than a record with the same tag that is kept |
| HousekeepingFacts.DropOldestKeepsUntagged | NobleSociety/Behaviors/NobleSocietyBehavior.cs:93-99 | the records without the tag all stay, in their order |
| HousekeepingFacts.DropOldestKeeps | NobleSociety/Behaviors/NobleSocietyBehavior.cs:93-99 | a record without the tag is never dropped |
| HousekeepingFacts.DropOldestCount | NobleSociety/Behaviors/NobleSocietyBehavior.cs:98-99 | dropping raises no tag's count and not the log's length |
| HousekeepingFacts.CapTagWithin | NobleSociety/Behaviors/NobleSocietyBehavior.cs:93-100 | one cap leaves its tag on at most the cap's number of records |
| HousekeepingFacts.CapTagsBound | NobleSociety/Behaviors/NobleSocietyBehavior.cs:91-101 | after the table's caps, every capped tag is within its cap, a later cap never undoing an earlier one |
| HousekeepingFacts.CapTagsShrink | NobleSociety/Behaviors/NobleSocietyBehavior.cs:91-101 | the caps raise no tag's count and not the log's length |
| HousekeepingFacts.CapTagsSubset | NobleSociety/Behaviors/NobleSocietyBehavior.cs:91-101 | the caps bring in no record |
| HousekeepingFacts.CapTagsKeepUntagged | NobleSociety/Behaviors/NobleSocietyBehavior.cs:91-101 | a record carrying none of the capped tags is never removed by the caps |
| HousekeepingFacts.PrunedLogSize | NobleSociety/Behaviors/NobleSocietyBehavior.cs:104-109 | after a pass no lord holds more than 250 memories |
| HousekeepingFacts.PrunedLogWeights | NobleSociety/Behaviors/NobleSocietyBehavior.cs:83-109 | every record left weighs at least 0.20 and is a faded copy of a record that was there, so no negative memory survives a pass |
| HousekeepingFacts.PrunedLogTagCaps | NobleSociety/Behaviors/NobleSocietyBehavior.cs:91-109 | after a pass every capped tag is within its cap |
| HousekeepingFacts.PrunedLogKeeps | NobleSociety/Behaviors/NobleSocietyBehavior.cs:83-109 | a record with no capped tag that still weighs at least 0.20 after fading survives a pass on a log within the hard cap |
| SocietyBehavior.SeasonAfter | NobleSociety/Behaviors/NobleSocietyBehavior.cs:57-69 | the anchor is today or the old anchor and is always less than ten days back; within a season the counts are added, and a season ending resets the totals to zero |
| SocietyBehavior.NobleSocietyBehavior.constructor | NobleSociety/Behaviors/NobleSocietyBehavior.cs:17-20 | no anchor day and zero totals |
| SocietyBehavior.NobleSocietyBehavior.PruneAndDecay | NobleSociety/Behaviors/NobleSocietyBehavior.cs:73-115 | within a day of the last pass nothing changes; otherwise the log becomes the faded, culled and capped log and the pass day is stamped; the count is the number of records removed, and the gossip count is 0 |
| SocietyBehavior.NobleSocietyBehavior.ApplyTagCaps | NobleSociety/Behaviors/NobleSocietyBehavior.cs:91-101 | the log after the table's caps in order, counting the records removed |
| SocietyBehavior.NobleSocietyBehavior.ScaleWeights | NobleSociety/Behaviors/NobleSocietyBehavior.cs:84-85 | every weight, in place, times the factor |
| SocietyBehavior.NobleSocietyBehavior.CapOneTag | NobleSociety/Behaviors/NobleSocietyBehavior.cs:93-100 | the log after one tag's cap, counting the records removed |
| SocietyBehavior.NobleSocietyBehavior.DropOldestInPlace | NobleSociety/Behaviors/NobleSocietyBehavior.cs:97-99 | the k oldest records carrying the tag are removed from the log, one at a time |
| SocietyBehavior.NobleSocietyBehavior.OnDailyTickHero | NobleSociety/Behaviors/NobleSocietyBehavior.cs:46-70 | nothing changes for a dead, child or non-lord hero; otherwise the lord's state exists, its gossip attempt has the outcome `GossipOutcome` states for the lord's log before the tick (listener's log, gossip log, pair stamps, relation budget), it is ticked today, is pruned when a day has passed since the last pass, and the season totals advance by what the pass removed (the tick decays with the corrected step) |
| SocietyBehavior.NobleSocietyBehavior.TickAndPrune | NobleSociety/Behaviors/NobleSocietyBehavior.cs:50-57 | the lord's state exists and is ticked (with the gossip outcome `GossipOutcome` states) and pruned when a day has passed since the last pass; the count returned is what the pass removed |
| SocietyBehavior.NobleSocietyBehavior.TickLord | NobleSociety/Behaviors/NobleSocietyBehavior.cs:50-53 | the lord's state is the registered one or a new one, its log is the ticked log, the tick is stamped today, and the gossip attempt has the outcome `GossipOutcome` states |
| Society.GossipOutcomeSpeakerFree | NobleSociety/Systems/GossipManager.cs:282-305 | the outcome of a gossip attempt does not depend on the speaker's own log entry, since nearby nobles never include the speaker |
| SocietyBehavior.NobleSocietyBehavior.CountSeason | NobleSociety/Behaviors/NobleSocietyBehavior.cs:57-69 | the season's anchor and totals become the checkpoint's result |
| MeetingTracker.MeetingKey | NobleSociety/Behaviors/MeetingTracker.cs:119-124 | a missing hero gives the key "null\|null" |
| MeetingTracker.MeetingKeySymmetric | NobleSociety/Behaviors/MeetingTracker.cs:119-124 | the pair key does not depend on which hero is named first |
| MeetingTracker.RowStampsPair | NobleSociety/Behaviors/MeetingTracker.cs:101-106 | the inner loop for hero i stamps i with every later hero |
| MeetingTracker.RowsStampPair | NobleSociety/Behaviors/MeetingTracker.cs:100-106 | the outer loop stamps every pair i < j with the current time |
| MeetingTracker.RowLeavesOthers | NobleSociety/Behaviors/MeetingTracker.cs:101-106 | the inner loop leaves every key that is not a pair key of the group as it was |
| MeetingTracker.CoPresenceStampsExactlyPairs | NobleSociety/Behaviors/MeetingTracker.cs:96-109 | a sweep stamps every pair of the group with the current time and leaves the presence and time of every other key unchanged |
| MeetingTracker.CoPresenceNeedsTwo | NobleSociety/Behaviors/MeetingTracker.cs:98 | a missing list or a group of fewer than two records nothing |
| MeetingTracker.ForgetExact | NobleSociety/Behaviors/MeetingTracker.cs:111-117 | exactly the entries strictly older than the cutoff are removed, and no time changes |
| MeetingTracker.ForgetIdempotent | NobleSociety/Behaviors/MeetingTracker.cs:111-117 | a second cleanup with the same cutoff removes nothing |
| MeetingTracker.HasMetWithinDays | NobleSociety/Behaviors/MeetingTracker.cs:127-135 | true only with a tracker, both heroes, a known pair and a meeting at most the given number of days ago |
| MeetingTracker.HasMetSymmetric | NobleSociety/Behaviors/MeetingTracker.cs:119-135 | the answer is the same whichever hero is named first |
| MeetingTracker.MetAfterCoPresence | NobleSociety/Behaviors/MeetingTracker.cs:96-135 | two heroes seen in a group today have met within any non-negative number of days |
| MeetingTracker.ForgetKeepsRecent | NobleSociety/Behaviors/MeetingTracker.cs:111-135 | a pair that survives the cleanup with cutoff now - d has met within d days |
| MeetingTracker.DailyTickKeepsTodaysMeetings | NobleSociety/Behaviors/MeetingTracker.cs:69-94 | a pair stamped by the day's last sweep survives the 120-day cleanup that ends the tick |
| MeetingTracker.MeetingTrackerBehavior.constructor | NobleSociety/Behaviors/MeetingTracker.cs:30-34 | the tracker starts with no meetings |
| MeetingTracker.MeetingTrackerBehavior.StampRow | NobleSociety/Behaviors/MeetingTracker.cs:101-108 | the map after the inner loop for hero i |
| MeetingTracker.MeetingTrackerBehavior.RecordCoPresence | NobleSociety/Behaviors/MeetingTracker.cs:96-109 | the map after the sweep of one group |
| MeetingTracker.MeetingTrackerBehavior.ForgetOld | NobleSociety/Behaviors/MeetingTracker.cs:111-117 | the map after removing the entries older than the cutoff |
| MeetingTracker.MeetingTrackerBehavior.OnDailyTick | NobleSociety/Behaviors/MeetingTracker.cs:69-94 | the map after each group's sweep and the 120-day cleanup |
| MeetingTracker.MeetingTrackerBehavior.Save | NobleSociety/Behaviors/MeetingTracker.cs:47-57 | the keys in enumeration order with their days beside them, which load back into the same map |
| MeetingTracker.MeetingTrackerBehavior.Load | NobleSociety/Behaviors/MeetingTracker.cs:56-64 | the map rebuilt from the pairs both lists hold |
| ParallelLists.LoadPairs | NobleSociety/Behaviors/MeetingTracker.cs:61-63 | the keys of the rebuilt map are exactly the keys read |
| ParallelLists.ParallelMap | NobleSociety/Behaviors/MeetingTracker.cs:61-63 | loading reads only up to the shorter list's length |
| ParallelLists.LoadPairsLast | NobleSociety/Behaviors/MeetingTracker.cs:62-63 | a repeated key keeps the value of its last occurrence |
| ParallelLists.LoadParallel | NobleSociety/Behaviors/MeetingTracker.cs:61-63 | the load loop builds the map of the pairs both lists hold |
| ParallelLists.SavedValues | NobleSociety/Behaviors/MeetingTracker.cs:49-53 | one saved value per key |
| ParallelLists.SaveParallel | NobleSociety/Behaviors/MeetingTracker.cs:49-53 | the save loop writes the keys in enumeration order and each key's value beside it |
| ParallelLists.LoadSavedPrefix | NobleSociety/Behaviors/MeetingTracker.cs:47-64 | each prefix of a save loads back into the entries it names |
| ParallelLists.SaveLoadParallel | NobleSociety/Behaviors/MeetingTracker.cs:47-64 | saving a dictionary as two lists and loading them gives back the same dictionary |
| PatronageLogic.WageSumNonNegative | NobleSociety/Systems/PatronageLogic.cs:36-47 | with no negative wage the clan's total wage is not negative |
| PatronageLogic.GetClanTotalWage | NobleSociety/Systems/PatronageLogic.cs:36-47 | the sum of the wages of the war parties with a mobile party; 0 without a clan |
| PatronageLogic.GetClanSurplus | NobleSociety/Systems/PatronageLogic.cs:49-54 | int.MinValue without a clan; otherwise surplus plus reserve (the 50000 floor and twenty days of wages) is the clan's gold |
| PatronageLogic.NeedsAidIsDeficit | NobleSociety/Systems/PatronageLogic.cs:56-60 | with no negative wage, a clan needs aid exactly when its surplus is negative |
| PatronageLogic.RecipientNeedsAid | NobleSociety/Systems/PatronageLogic.cs:56-60 | a clan needs aid exactly when it exists and holds less than the gift floor or less than its reserve; no clan never needs aid |
| PatronageLogic.ShouldDonorGift | NobleSociety/Systems/PatronageLogic.cs:90-131 | no gift without both heroes; an approved gift is between two heroes with clans, leaves the donor its reserve, comes from a donor at or above the gift floor, goes to a recipient no richer than the donor or in deficit, and to one that needs aid or holds less than 90% of the donor's gold |
| PatronageLogic.GetTraitMultiplier | NobleSociety/Systems/PatronageLogic.cs:63-80 | the trait multiplier always lies in [0.8, 1.2] |
| PatronageLogic.NeutralTraitMultiplier | NobleSociety/Systems/PatronageLogic.cs:63-80 | two heroes with no positive trait leave the multiplier at 1 |
| PatronageLogic.CalculateRelationDelta | NobleSociety/Systems/PatronageLogic.cs:82-87 | the relation gain of a gift is at most 6, and not negative for a non-negative base and multiplier |
| PatronageLogic.ApprovedGift | NobleSociety/Systems/PatronageLogic.cs:90-131 | an approved gift is between two different heroes, within the window caps (fewer than 2 sent, none received) and below relation 80, to a clan leader, from a donor with a positive surplus that keeps its reserve after paying, and never to a richer clan that is not in deficit |
| PatronageLogic.RandomInt | NobleSociety/Systems/PatronageLogic.cs:163 | the draw lies in [lo, hi) |
| PatronageLogic.GenerosityMult | NobleSociety/Systems/PatronageLogic.cs:148-149 | the gift bounds are scaled by 1 or by 1.25 |
| PatronageLogic.RecipientNeed | NobleSociety/Systems/PatronageLogic.cs:152-155 | what the recipient lacks to reach its cushion is never negative |
| PatronageLogic.DetermineGiftAmount | NobleSociety/Systems/PatronageLogic.cs:146-165 | the amount lies between the scaled minimum and maximum, and is the minimum or fits both the donor's surplus and the recipient's need |
| PatronageBehavior.DecayBlocks | NobleSociety/Behaviors/NoblePatronageBehavior.cs:109-111 | the number of whole sixty-day blocks since the last gift, and none when no gift was made or no block has passed |
| PatronageBehavior.Decay | NobleSociety/Behaviors/NoblePatronageBehavior.cs:108-122 | each whole block takes one point off the gain, not below zero, and moves the last-gift day on so that less than a block remains; nothing changes without a block; the window start and counters stay |
| PatronageBehavior.ResetIfStale | NobleSociety/Behaviors/NoblePatronageBehavior.cs:124-134 | a window over thirty days old starts again empty today, keeping its last-gift day; a younger one is kept |
| PatronageBehavior.PreparedWindow | NobleSociety/Behaviors/NoblePatronageBehavior.cs:104-134 | the prepared window is at most thirty days old, a missing one is fresh, and a stored gain is never raised and never made negative |
| PatronageBehavior.DownshiftBounds | NobleSociety/Behaviors/NoblePatronageBehavior.cs:151-157 | the downshift only lowers an amount, and never below 10000 |
| PatronageBehavior.Downshift | NobleSociety/Behaviors/NoblePatronageBehavior.cs:151-157 | at most two halvings, and stopping early means the donor's reserve is safe |
| PatronageBehavior.Candidates | NobleSociety/Behaviors/NoblePatronageBehavior.cs:90-96 | at most five distinct free living clan leaders, neediest first, no leader left out ranking before one kept, and every leader kept when fewer than five are chosen |
| PatronageBehavior.GiftOutcome | NobleSociety/Behaviors/NoblePatronageBehavior.cs:145-172 | a gift goes from the donor to the candidate, with a positive gain that fits the window's room, and an amount of at least 10000 that leaves the donor its reserve |
| PatronageBehavior.GiftIsApproved | NobleSociety/Behaviors/NoblePatronageBehavior.cs:149-160 | a gift is made only with the rules' approval for the counts and relation as read and with the downshifted amount |
| PatronageBehavior.GainStaysBounded | NobleSociety/Behaviors/NoblePatronageBehavior.cs:104-183 | a window's gain stays within [0, 6] through preparation and a gift |
| PatronageBehavior.GivenCountsWindow | NobleSociety/Behaviors/NoblePatronageBehavior.cs:137-139 | each open window of the donor counts in full toward its sends |
| PatronageBehavior.ReceivedCountsWindow | NobleSociety/Behaviors/NoblePatronageBehavior.cs:141-143 | each open window of the recipient counts in full toward its receipts |
| PatronageBehavior.PenaltyOf | NobleSociety/Behaviors/NoblePatronageBehavior.cs:109-121 | at most one positive penalty, from the donor toward the recipient, and none for a new pair |
| PatronageBehavior.StoreKeepsBounded | NobleSociety/Behaviors/NoblePatronageBehavior.cs:178-183 | storing a window with its gain in range keeps every gain in range |
| PatronageBehavior.ParseEntry | NobleSociety/Behaviors/NoblePatronageBehavior.cs:51-63 | an entry is read only when its key has exactly two parts and its value exactly five, and the read ids hold no separator |
| PatronageBehavior.Assemble | NobleSociety/Behaviors/NoblePatronageBehavior.cs:48-64 | the rebuilt dictionary holds only entries that were read, malformed ones skipped, each key once |
| PatronageBehavior.ParsedEntries | NobleSociety/Behaviors/NoblePatronageBehavior.cs:49-54 | one parsed entry per pair both lists hold |
| PatronageBehavior.Loaded | NobleSociety/Behaviors/NoblePatronageBehavior.cs:46-64 | the loaded dictionary has no more entries than either list and no key holding a separator |
| PatronageBehavior.ParseSavedEntry | NobleSociety/Behaviors/NoblePatronageBehavior.cs:34-63 | a saved entry reads back as the same key and window |
| PatronageBehavior.SaveLoadRoundTrip | NobleSociety/Behaviors/NoblePatronageBehavior.cs:26-68 | saving then loading gives back the dictionary and its order, when no hero id holds the separator and number formatting round-trips |
| PatronageBehavior.AssembleAll | NobleSociety/Behaviors/NoblePatronageBehavior.cs:48-64 | entries that list a dictionary's keys in order, with their windows, rebuild it |
| PatronageBehavior.SavedEntriesParse | NobleSociety/Behaviors/NoblePatronageBehavior.cs:31-63 | every saved entry parses back to its key and window |
| PatronageBehavior.AssemblePrefix | NobleSociety/Behaviors/NoblePatronageBehavior.cs:49-64 | each prefix of such entries rebuilds the corresponding part of the dictionary |
| PatronageBehavior.NoblePatronageBehavior.constructor | NobleSociety/Behaviors/NoblePatronageBehavior.cs:16-17 | no windows, gifts or penalties |
| PatronageBehavior.NoblePatronageBehavior.OnDailyTickClan | NobleSociety/Behaviors/NoblePatronageBehavior.cs:80-187 | nothing for an ineligible leader; otherwise the new state is the gift pass over the leader's candidates in order (`GiftPass`), so at most one gift, from the leader to one of its candidates; gains stay within [0, 6]; no other donor's windows change |
| PatronageBehavior.NoblePatronageBehavior.Save | NobleSociety/Behaviors/NoblePatronageBehavior.cs:29-45 | one key and one value string per window, in dictionary order |
| PatronageBehavior.NoblePatronageBehavior.Load | NobleSociety/Behaviors/NoblePatronageBehavior.cs:44-67 | nothing without both lists; otherwise the dictionary is the one rebuilt from the lists |
| PatronageBehavior.NoblePatronageBehavior.ConsiderRecipient | NobleSociety/Behaviors/NoblePatronageBehavior.cs:102-183 | the window is opened and stored, the caps are counted over every open window, the outcome is the rules' decision, and on a gift the window is credited and the gift recorded; no other pair changes; the new state and outcome are those of `Consider` |
| PatronageBehavior.Consider | NobleSociety/Behaviors/NoblePatronageBehavior.cs:102-183 | considering one candidate records a gift exactly when the rules give one, from the donor to that candidate, and otherwise leaves the gifts as they were |
| PatronageBehavior.GiftPass | NobleSociety/Behaviors/NoblePatronageBehavior.cs:101-186 | the pass over the candidates names a gifted candidate among them, and a pass that names none made no gift |
| PatronageBehavior.GiftGoesToFirstApproved | NobleSociety/Behaviors/NoblePatronageBehavior.cs:101-186 | the gift goes to the first candidate the rules approve in its turn: every candidate before it was considered without a gift, its consideration made the one gift, from the donor to it, and the pass ends in the state it left; a pass without a gift considered every candidate without one |
| PatronageBehavior.GiftPassStops | NobleSociety/Behaviors/NoblePatronageBehavior.cs:185 | after the gift the loop breaks: the candidates after the gifted one change nothing |
| PatronageBehavior.GiftPassStep | NobleSociety/Behaviors/NoblePatronageBehavior.cs:101-186 | while no gift has been made the pass takes the next candidate's consideration as its step |
| PatronageBehavior.CountersRiseOnlyWithGift | NobleSociety/Behaviors/NoblePatronageBehavior.cs:101-186 | a pass without a gift raises no window's send or receive counter, keeps them non-negative, makes no gift and leaves other donors' windows alone |
| PatronageBehavior.ConsiderRaisesNoCounter | NobleSociety/Behaviors/NoblePatronageBehavior.cs:102-183 | considering one candidate without a gift raises no counter and touches only the donor's windows |
| PatronageBehavior.PassKeepsOtherDonors | NobleSociety/Behaviors/NoblePatronageBehavior.cs:101-186 | the pass touches only the donor's own windows |
| PatronageBehavior.ConsiderKeepsOtherDonors | NobleSociety/Behaviors/NoblePatronageBehavior.cs:102-183 | considering a candidate changes only the window of the pair it opens |
| PatronageBehavior.IsEligibleDonor | NobleSociety/Behaviors/NoblePatronageBehavior.cs:70-78 | no hero is not eligible; an eligible donor is alive, not dead, not a child, not a prisoner, and belongs to the clan being ticked |
| PatronageBehavior.NoblePatronageBehavior.RecordGift | NobleSociety/Behaviors/NoblePatronageBehavior.cs:178-183 | the gift is recorded and the pair's window credited |
| PatronageBehavior.NoblePatronageBehavior.OpenWindow | NobleSociety/Behaviors/NoblePatronageBehavior.cs:104-134 | the pair's window is created if missing, decayed (its penalty recorded) and reset if stale |
| RansomLogic.ClampF | NobleSociety/Systems/DynamicRansomLogic.cs:18 | with ordered bounds the result lies within them, and a value already within them is kept |
| RansomLogic.ClampFMonotone | NobleSociety/Systems/DynamicRansomLogic.cs:18 | clamping never reverses the order of two values |
| RansomLogic.CalculateWealthMultiplier | NobleSociety/Systems/DynamicRansomLogic.cs:30-35 | the wealth multiplier lies in [1, cap] whatever the logarithm returns |
| RansomLogic.GoldRatio | NobleSociety/Systems/DynamicRansomLogic.cs:32-33 | the gold counted is at least 10000, so the ratio is at least 1 |
| RansomLogic.WealthCurve | NobleSociety/Systems/DynamicRansomLogic.cs:33-34 | the curve is held to [1, cap] |
| RansomLogic.WealthCurveMonotone | NobleSociety/Systems/DynamicRansomLogic.cs:33-34 | a richer captive clan never lowers the wealth multiplier |
| RansomLogic.GetTraitContextMultiplier | NobleSociety/Systems/DynamicRansomLogic.cs:38-60 | 1 without either hero; for a relation in [-100, 100] the multiplier lies in [0.8379, 1.122] |
| RansomLogic.NeutralCaptorMultiplier | NobleSociety/Systems/DynamicRansomLogic.cs:38-60 | a captor with no marked trait, of no realm, at relation 0 asks the plain price |
| RansomLogic.ClampedRansom | NobleSociety/Systems/DynamicRansomLogic.cs:106-108 | for a non-negative base the ransom lies in [0.85 base, 2.25 base] |
| RansomLogic.PlainRansomIsBase | NobleSociety/Systems/DynamicRansomLogic.cs:106-108 | with a multiplier of 1 the ransom is the base |
| RansomLogic.ClampedRansomMonotone | NobleSociety/Systems/DynamicRansomLogic.cs:106-108 | a larger multiplier never lowers the ransom |
| RansomLogic.BaseRansom | NobleSociety/Systems/DynamicRansomLogic.cs:93-102 | 5000 when no ransom method was found or its call failed |
| RansomLogic.DynamicRansom | NobleSociety/Systems/DynamicRansomLogic.cs:78-115 | 5000 without either hero; otherwise within half a coin of [0.85 base, 2.25 base] |
| RansomLogic.RansomMethodCache.constructor | NobleSociety/Systems/DynamicRansomLogic.cs:15-16 | no method held and no model type cached |
| RansomLogic.RansomMethodCache.CalculateDynamicRansom | NobleSociety/Systems/DynamicRansomLogic.cs:78-115 | the cache never changes the result, which is the ransom for the lookup on the current model type; without either hero the cache is untouched, otherwise it holds the current model type's lookup |
| RansomLogic.AcceptIsMonotone | NobleSociety/Systems/DynamicRansomLogic.cs:118-123 | an accepted offer stays accepted when raised, and the full ask is always accepted |
| RansomLogic.PayingKeepsWageBuffer | NobleSociety/Systems/DynamicRansomLogic.cs:126-130 | a paying clan keeps more than twenty days of wages after paying, and would pay any smaller ransom |
| RansomLogic.CaptorShouldAccept | NobleSociety/Systems/DynamicRansomLogic.cs:118-123 | a captor clan under 30000 gold accepts any offer; the full ask accepts; otherwise an offer is accepted exactly when 100 times the offer is at least 85 times the ask |
| RansomLogic.CaptiveShouldPay | NobleSociety/Systems/DynamicRansomLogic.cs:126-130 | a captive without a clan never pays; a paying clan keeps more than twenty days of wages after paying, and with wages not negative it holds more gold than the ransom |
| RansomLogic.GetInstallmentPlan | NobleSociety/Systems/DynamicRansomLogic.cs:133-142 | the two parts add up to the ransom; a captor clan under 30000 gold gets the truncated half now and at most one coin more later; any other captor is paid in full now |
| RansomLogic.PoorCaptorTakesInstallments | NobleSociety/Systems/DynamicRansomLogic.cs:118-142 | a poor captor accepts any offer and is paid in installments |
| RelationPatch.AsRelationChanges | NobleSociety/Systems/RelationRippleService.cs:87-88 | each ripple becomes one relation call from the observer toward the target with the ripple's change, in the same order |
| RelationPatch.RippleChangesAreNotConsequential | NobleSociety/Patches/ChangeRelationActionPatch.cs:25-30 | a change a ripple pass makes is never large enough (at least 10 in magnitude) to start another pass, so the re-entrancy flag is not what stops the recursion |
| RelationPatch.RelationActions.constructor | NobleSociety/Patches/ChangeRelationActionPatch.cs:13 | the flag is clear, and no change or pass has been made |
| RelationPatch.RelationActions.ApplyInternal | NobleSociety/Patches/ChangeRelationActionPatch.cs:18-40 | the change is made first; inside a pass or for an inconsequential change nothing more happens; otherwise exactly one pass runs; the flag ends as it started |
| RelationPatch.RelationActions.Postfix | NobleSociety/Patches/ChangeRelationActionPatch.cs:18-40 | inside a pass, for a missing hero, a zero change or one under 10 in magnitude nothing happens; otherwise the flag is set for one pass whose at most 20 changes (each non-zero, at most 5 either way, toward the ripple target, from neither of the two heroes) are made through the relation action, and the flag is cleared again |
| RelationPatch.RelationActions.MakeRippleChanges | NobleSociety/Systems/RelationRippleService.cs:65-89 | the pass's changes are made in order through the hooked action while the flag is set, starting no other pass |
| RelationRipple.CloseFriendsOf | NobleSociety/Systems/RelationRippleService.cs:124-128 | every close friend is another living hero whom the hero regards at 50 or more |
| RelationRipple.Rings | NobleSociety/Systems/RelationRippleService.cs:38-48 | eight rings, each weighted in (0, 0.60] |
| RelationRipple.Merge | NobleSociety/Systems/RelationRippleService.cs:98-99 | the stored weight becomes the larger of the old weight and the ring's |
| RelationRipple.BestWeight | NobleSociety/Systems/RelationRippleService.cs:92-101 | a hero's weight is the weight of a ring that counts it, and no ring that counts it weighs more |
| RelationRipple.Accumulate | NobleSociety/Systems/RelationRippleService.cs:92-102 | each counted hero (present, alive, not the excluded one) gets the larger of its weight and the ring's; no other entry changes, and a new key goes last in enumeration order |
| RelationRipple.ContextMultiplier | NobleSociety/Systems/RelationRippleService.cs:143-150 | the context factor lies in [0.30, 0.69], at most 0.60 outside emissary work, and 0.30 for no change |
| RelationRipple.ContextMultiplierSymmetric | NobleSociety/Systems/RelationRippleService.cs:145 | the factor ignores the direction of the change |
| RelationRipple.ContextMultiplierMonotone | NobleSociety/Systems/RelationRippleService.cs:145-146 | the factor grows with the change's size |
| RelationRipple.TraitModifier | NobleSociety/Systems/RelationRippleService.cs:153-165 | the modifier is at least 1, and exactly 1 for an observer without mercy or honour (and without calculation in emissary work) |
| RelationRipple.TraitModifierSymmetric | NobleSociety/Systems/RelationRippleService.cs:152-165 | a cruel observer reacts as strongly as a merciful one, a devious one as an honest one |
| RelationRipple.TraitModifierIgnoresCalculating | NobleSociety/Systems/RelationRippleService.cs:158-160 | outside emissary work calculation plays no part |
| RelationRipple.Attenuation | NobleSociety/Systems/RelationRippleService.cs:73-76 | the attenuation lies in [0.1, 1]: 1 up to a relation of 20 either way, 0.1 from 92 on |
| RelationRipple.AttenuationSymmetric | NobleSociety/Systems/RelationRippleService.cs:73-76 | attenuation is the same near either end of the scale |
| RelationRipple.AttenuationMonotone | NobleSociety/Systems/RelationRippleService.cs:75-76 | the further the relation is from neutral, the smaller the ripple |
| RelationRipple.RippleTarget | NobleSociety/Systems/RelationRippleService.cs:167-168 | a gain ripples toward the hero it was made toward, a loss toward the other hero |
| RelationRipple.RippleValueSign | NobleSociety/Systems/RelationRippleService.cs:78 | with positive factors the ripple goes the way the original change went |
| RelationRipple.FinalRipple | NobleSociety/Systems/RelationRippleService.cs:81-85 | a ripple is made exactly when its magnitude is at least 0.5; it is non-zero, keeps its sign, is at most 5 either way, is within half a point of the value below the cap, rounds a halfway value away from zero, and is the cap beyond it |
| RelationRipple.ObserverRipple | NobleSociety/Systems/RelationRippleService.cs:67-85 | an observer's change is non-zero, at most 5 either way, and with positive weights has the original change's sign |
| RelationRipple.Ripples | NobleSociety/Systems/RelationRippleService.cs:65-89 | at most one change per ranked observer, each from a living observer other than the target, toward the target, non-zero and at most 5 either way |
| RelationRipple.RipplesFollowBaseDelta | NobleSociety/Systems/RelationRippleService.cs:65-89 | every ripple has the sign of the original change |
| RelationRipple.ApplyRipples | NobleSociety/Systems/RelationRippleService.cs:29-90 | the observers are every hero a ring counts except the pair itself, at its heaviest ring weight; at most 20 are kept, best ranked first, none left out ranking before one kept; the changes are the observer loop's, and neither hero of the pair ever changes its own relation |
| RelationRipple.GatherObservers | NobleSociety/Systems/RelationRippleService.cs:36-51 | every hero some ring counts, other than the pair, with its heaviest ring weight, which is positive |
| RelationRipple.AccumulateAll | NobleSociety/Systems/RelationRippleService.cs:38-48 | after the rings in order every counted hero has its heaviest ring weight |
| RelationRipple.ObserverLoop | NobleSociety/Systems/RelationRippleService.cs:65-89 | the changes made by the loop over the ranked observers |
| Romance.ImportantPrefixesPass | NobleSociety/Behaviors/NPCRomanceCampaignBehavior.cs:38-52 | every message opening with a whitelisted prefix passes the log filter, whatever follows |
| Romance.IsImportant | NobleSociety/Behaviors/NPCRomanceCampaignBehavior.cs:38-52 | a message passes the log filter exactly when it opens with one of the whitelisted prefixes or contains the agreed-marriage arrow |
| Romance.AgreedAdvanceIsImportant | NobleSociety/Behaviors/NPCRomanceCampaignBehavior.cs:38-52 | the advance to an agreed marriage is logged although other advances are not |
| Romance.AttractionBonus | NobleSociety/Behaviors/NPCRomanceCampaignBehavior.cs:465-473 | the attraction term lies in [-0.15, 0.15] |
| Romance.RelationBonus | NobleSociety/Behaviors/NPCRomanceCampaignBehavior.cs:475-482 | the clan relation term lies in [-0.2, 0.2] |
| Romance.ComputeAdvanceChance | NobleSociety/Behaviors/NPCRomanceCampaignBehavior.cs:461-498 | the chance lies in [0.05, 0.90], and in fact never exceeds 0.80 |
| Romance.NeutralAdvanceChance | NobleSociety/Behaviors/NPCRomanceCampaignBehavior.cs:461-498 | neutral attraction and relation (or failed reads), no shared kingdom and no fief leave the base chance of 0.25 |
| Romance.AdvanceChanceMonotone | NobleSociety/Behaviors/NPCRomanceCampaignBehavior.cs:461-498 | more attraction, a better relation, a shared kingdom or more fiefs never lower the chance |
| Romance.CooldownSymmetric | NobleSociety/Behaviors/NPCRomanceCampaignBehavior.cs:414-419 | a pair's approach cooldown does not depend on who approaches whom |
| Romance.TouchedCooldown | NobleSociety/Behaviors/NPCRomanceCampaignBehavior.cs:414-427 | a pair stamped now may act again exactly once three days have passed |
| Romance.WithSuitor | NobleSociety/Behaviors/NPCRomanceCampaignBehavior.cs:515-521 | the target gets an entry holding the suitor; the list gains at most the suitor, keeps its order and stays free of repeats; no other entry changes |
| Romance.WithoutSuitor | NobleSociety/Behaviors/NPCRomanceCampaignBehavior.cs:523-530 | nothing changes for a target without an entry; otherwise the suitor's first occurrence goes and an entry left empty goes; without repeats the suitor is no longer listed; no other entry changes |
| Romance.RegisterThenUnregister | NobleSociety/Behaviors/NPCRomanceCampaignBehavior.cs:515-530 | registering and then unregistering a new suitor gives the target's previous list back |
| Romance.DropSuitorEverywhere | NobleSociety/Behaviors/NPCRomanceCampaignBehavior.cs:277-283 | every list loses the victim's first occurrence and lists left empty go, so no entry is empty afterwards |
| Romance.DropSuitorRemovesVictim | NobleSociety/Behaviors/NPCRomanceCampaignBehavior.cs:277-283 | without repeated suitors, the victim is named in no list afterwards and every other suitor stays |
| Romance.Cleaned | NobleSociety/Behaviors/NPCRomanceCampaignBehavior.cs:302-328 | only valid targets with a non-empty list remain, each list keeps only valid suitors it held, and every valid target with a valid suitor keeps exactly its valid suitors in order |
| Romance.CleanedIdempotent | NobleSociety/Behaviors/NPCRomanceCampaignBehavior.cs:302-328 | a second cleanup against the same world changes nothing |
| Romance.CleanedNoRepeats | NobleSociety/Behaviors/NPCRomanceCampaignBehavior.cs:302-328 | cleanup keeps every list free of repeats |
| Romance.KeysContaining | NobleSociety/Behaviors/NPCRomanceCampaignBehavior.cs:285-291 | exactly the keys that contain the victim's id anywhere are removed |
| Romance.SubstringMatchForgetsOtherPair | NobleSociety/Behaviors/NPCRomanceCampaignBehavior.cs:285-291 | the death of "lord_1" removes the key of the pair "lord_12" and "lord_3", which it is not part of |
| Romance.PairKeyNames | NobleSociety/Behaviors/NPCRomanceCampaignBehavior.cs:603-608 | a pair key of two ids without "\|" names exactly those two heroes |
| Romance.KeysNaming | NobleSociety/Behaviors/NPCRomanceCampaignBehavior.cs:285-291 | exactly the keys that name the victim as one of the pair |
| Romance.ForgetHeroKeys | NobleSociety/Behaviors/NPCRomanceCampaignBehavior.cs:285-291 | the keys naming the victim go and every other entry is kept as it was |
| Romance.ForgetHeroKeysExact | NobleSociety/Behaviors/NPCRomanceCampaignBehavior.cs:285-291 | a pair's key survives a death exactly when neither hero of the pair died |
| Romance.RemoveKeys | NobleSociety/Behaviors/NPCRomanceCampaignBehavior.cs:286-291 | the removal loop takes out exactly the doomed keys |
| Romance.RivalryStepFair | NobleSociety/Behaviors/NPCRomanceCampaignBehavior.cs:559-567 | one pair's step keeps the rivalry pass fair |
| Romance.RivalryRowFair | NobleSociety/Behaviors/NPCRomanceCampaignBehavior.cs:555-568 | the inner loop keeps the rivalry pass fair |
| Romance.RivalryRowsFair | NobleSociety/Behaviors/NPCRomanceCampaignBehavior.cs:554-568 | the outer loop keeps the rivalry pass fair |
| Romance.RivalryRowExtends | NobleSociety/Behaviors/NPCRomanceCampaignBehavior.cs:555-568 | the inner loop only appends relation changes |
| Romance.RivalryRowsExtends | NobleSociety/Behaviors/NPCRomanceCampaignBehavior.cs:554-568 | the rivalry pass only appends relation changes |
| Romance.RivalryPassIsFair | NobleSociety/Behaviors/NPCRomanceCampaignBehavior.cs:543-572 | after a pass every stamp is an old one or now, and every new change is a -3 penalty on a pair that was due before the pass, now stamped, penalised once |
| Romance.FalloutOnlyRivals | NobleSociety/Behaviors/NPCRomanceCampaignBehavior.cs:574-593 | every fallout change is the winner's -10 against a living listed rival other than itself, at most one per listed rival |
| Romance.FalloutReachesRival | NobleSociety/Behaviors/NPCRomanceCampaignBehavior.cs:580-589 | every living rival other than the winner is penalised |
| Romance.SavedBetweenKept | NobleSociety/Behaviors/NPCRomanceCampaignBehavior.cs:135-139 | a load keeps only non-empty ids |
| Romance.SavedBetweenAll | NobleSociety/Behaviors/NPCRomanceCampaignBehavior.cs:135-139 | a stretch of non-empty ids loads back unchanged |
| Romance.PackCounts | NobleSociety/Behaviors/NPCRomanceCampaignBehavior.cs:116-122 | one count per target |
| Romance.PackFlatAppend | NobleSociety/Behaviors/NPCRomanceCampaignBehavior.cs:116-122 | the flat list of two runs of targets is the first run's followed by the second's |
| Romance.Taken | NobleSociety/Behaviors/NPCRomanceCampaignBehavior.cs:133-135 | a target consumes its count of flat entries, none for a count of zero or less, and never more than remain |
| Romance.UnpackFromStep | NobleSociety/Behaviors/NPCRomanceCampaignBehavior.cs:131-141 | one turn of the unpacking loop writes the target's list and moves on |
| Romance.UnpackFromKeys | NobleSociety/Behaviors/NPCRomanceCampaignBehavior.cs:131-141 | the unpacking loop adds an entry for each remaining target and removes none |
| Romance.UnpackTakesList | NobleSociety/Behaviors/NPCRomanceCampaignBehavior.cs:131-141 | a target whose count is its list's length, with the list next in the flat list, gets that list back |
| Romance.UnpackFromSaved | NobleSociety/Behaviors/NPCRomanceCampaignBehavior.cs:135-139 | every list the unpacking loop writes holds only non-empty ids |
| Romance.Unpack | NobleSociety/Behaviors/NPCRomanceCampaignBehavior.cs:127-142 | every saved target has an entry, and no listed id is empty |
| Romance.UnpackPackedStep | NobleSociety/Behaviors/NPCRomanceCampaignBehavior.cs:114-142 | one target of the round trip comes back, the rest following from the later targets |
| Romance.UnpackPackedFrom | NobleSociety/Behaviors/NPCRomanceCampaignBehavior.cs:114-142 | from any target on, the unpacking loop rebuilds exactly the packed entries |
| Romance.PackUnpackRoundTrip | NobleSociety/Behaviors/NPCRomanceCampaignBehavior.cs:110-142 | packing the suitor registry into three lists and unpacking them gives it back, as long as no listed suitor id is empty |
| Romance.NpcRomanceCampaignBehavior.constructor | NobleSociety/Behaviors/NPCRomanceCampaignBehavior.cs:70-76 | all four dictionaries start empty and no action has been taken |
| Romance.NpcRomanceCampaignBehavior.GetSuitorList | NobleSociety/Behaviors/NPCRomanceCampaignBehavior.cs:532-541 | an empty list for no target; otherwise the target's list, created empty and stored when missing |
| Romance.NpcRomanceCampaignBehavior.RegisterSuitor | NobleSociety/Behaviors/NPCRomanceCampaignBehavior.cs:515-521 | the registry becomes the one with the suitor registered |
| Romance.NpcRomanceCampaignBehavior.UnregisterSuitor | NobleSociety/Behaviors/NPCRomanceCampaignBehavior.cs:523-530 | nothing for no target; otherwise the registry without the suitor |
| Romance.NpcRomanceCampaignBehavior.ClearRivals | NobleSociety/Behaviors/NPCRomanceCampaignBehavior.cs:595-600 | the target's entry goes |
| Romance.NpcRomanceCampaignBehavior.TouchCooldown | NobleSociety/Behaviors/NPCRomanceCampaignBehavior.cs:421-427 | the pair is stamped now, and may act again, in either order, exactly once three days have passed |
| Romance.NpcRomanceCampaignBehavior.TryAdvance | NobleSociety/Behaviors/NPCRomanceCampaignBehavior.cs:429-459 | the pair advances exactly when the final checks pass and the roll is under the advance chance; a failed advance with a fail roll under 0.15 sets the failure level and unregisters the suitor; otherwise nothing changes |
| Romance.NpcRomanceCampaignBehavior.ApplyRivalryFalloutOnSuccess | NobleSociety/Behaviors/NPCRomanceCampaignBehavior.cs:574-593 | nothing without both heroes or without an entry; otherwise the winner's fallout against the listed rivals |
| Romance.NpcRomanceCampaignBehavior.TickRivalries | NobleSociety/Behaviors/NPCRomanceCampaignBehavior.cs:543-572 | nothing without a target, an entry or two listed suitors; otherwise the rivalry pass over the living suitors, which is `RivalryTick` on the behaviour's state |
| Romance.NpcRomanceCampaignBehavior.Court | NobleSociety/Behaviors/NPCRomanceCampaignBehavior.cs:213-262 | the new state is `CourtStep` of the old: at most one romance event; at the approach levels nothing happens while the cooldown runs; an untested pair starts courting, the lord joins the suitors and the pair is stamped; an advance that succeeds moves to the next level and stamps the pair; an agreed pair passing the final checks marries, the rivals pay the fallout and the target's suitors are cleared |
| Romance.NpcRomanceCampaignBehavior.OnDailyTickClan | NobleSociety/Behaviors/NPCRomanceCampaignBehavior.cs:191-269 | nothing for the player's or an eliminated clan or within three days of its last pass; otherwise the pass is stamped and the new state is `ClanTurns` over the lords' turns in order; approaches are only stamped now, and events and relation changes are only appended |
| Romance.NpcRomanceCampaignBehavior.TakeTurn | NobleSociety/Behaviors/NPCRomanceCampaignBehavior.cs:206-265 | the new state is `TurnStep` of the old: a lord free to court with a target courts it and the target's rivalries tick; approaches are only stamped now and events and relation changes are only appended |
| Romance.CourtStepStamps | NobleSociety/Behaviors/NPCRomanceCampaignBehavior.cs:213-262 | a courtship step stamps at most the pair's own cooldown, only at an approach level once the cooldown has elapsed, never the rivalry ledger; a pair still cooling down at an approach level changes nothing |
| Romance.CourtStepAppends | NobleSociety/Behaviors/NPCRomanceCampaignBehavior.cs:213-262 | a courtship step adds at most one event, about the lord and its target, and only appends relation changes |
| Romance.RivalryTickBounds | NobleSociety/Behaviors/NPCRomanceCampaignBehavior.cs:543-572 | the rivalry pass touches only the rivalry ledger and the relation changes; it stamps or keeps each key and only appends changes |
| Romance.ClanTurnsBounds | NobleSociety/Behaviors/NPCRomanceCampaignBehavior.cs:206-265 | a clan pass only stamps cooldowns and rivalry keys with now and keeps the others, only appends events and relation changes, adds at most one event per turn, and every event it adds is about a lord free to court and its target |
| Romance.NpcRomanceCampaignBehavior.OnHeroKilled | NobleSociety/Behaviors/NPCRomanceCampaignBehavior.cs:271-295 | nothing for no victim; otherwise the victim's entry goes, the victim leaves every list, emptied entries go, and every cooldown and rivalry key naming the victim is removed (the corrected key test, not the code's substring test) |
| Romance.NpcRomanceCampaignBehavior.DropVictim | NobleSociety/Behaviors/NPCRomanceCampaignBehavior.cs:277-283 | the registry after the pass that drops the victim from every list |
| Romance.NpcRomanceCampaignBehavior.OnDailyTickGlobal | NobleSociety/Behaviors/NPCRomanceCampaignBehavior.cs:302-328 | the registry becomes its cleanup against the world |
| Romance.NpcRomanceCampaignBehavior.PackSuitors | NobleSociety/Behaviors/NPCRomanceCampaignBehavior.cs:114-123 | the targets in enumeration order, their counts and their lists one after the other |
| Romance.NpcRomanceCampaignBehavior.TakeIds | NobleSociety/Behaviors/NPCRomanceCampaignBehavior.cs:133-139 | the non-empty ids among the target's share of the flat list, and where the next target starts |
| Romance.NpcRomanceCampaignBehavior.UnpackSuitors | NobleSociety/Behaviors/NPCRomanceCampaignBehavior.cs:127-142 | the registry rebuilt from the three lists |
| Romance.NpcRomanceCampaignBehavior.Save | NobleSociety/Behaviors/NPCRomanceCampaignBehavior.cs:86-183 | the four dictionaries as their parallel lists, each in enumeration order |
| Romance.NpcRomanceCampaignBehavior.Load | NobleSociety/Behaviors/NPCRomanceCampaignBehavior.cs:86-183 | each dictionary rebuilt from its lists |
| CourtshipTelemetry.StartCourtship | NobleSociety/Behaviors/CourtshipTelemetry.cs:75-84 | the pair's key is pending afterwards, a pending start is never overwritten, and a new pair starts now |
| CourtshipTelemetry.StartCourtshipSymmetric | NobleSociety/Behaviors/CourtshipTelemetry.cs:68-84 | either order of the two heroes records the same courtship |
| CourtshipTelemetry.RecordMarriage | NobleSociety/Behaviors/CourtshipTelemetry.cs:86-103 | with a pending start, exactly one length (now minus the start) is appended and the pair's key is removed; without one nothing changes; no other pending start changes |
| CourtshipTelemetry.TimeForwardKeepsConsistent | NobleSociety/Behaviors/CourtshipTelemetry.cs:75-112 | while campaign time does not run backwards, starts, marriages and forgetting keep every pending start in the past and every recorded length non-negative |
| CourtshipTelemetry.ForgetHeroAsWritten | NobleSociety/Behaviors/CourtshipTelemetry.cs:105-112 | exactly the pending keys whose text contains the hero's id are dropped |
| CourtshipTelemetry.SubstringForgetDropsUnrelatedCourtship | NobleSociety/Behaviors/CourtshipTelemetry.cs:109-110 | the death of "lord_1" drops the pending courtship of "lord_12" and "lord_3"; the key test by pair member keeps it |
| CourtshipTelemetry.PercentileIndices | NobleSociety/Behaviors/CourtshipTelemetry.cs:123-124 | for a non-empty list both percentile indices lie within it, the median's first |
| CourtshipTelemetry.Summarize | NobleSociety/Behaviors/CourtshipTelemetry.cs:115-127 | "No samples yet." exactly when there are no lengths; otherwise their count, their mean, and two recorded lengths as median and 90th percentile, the median no larger |
| CourtshipTelemetry.SortedPicks | NobleSociety/Behaviors/CourtshipTelemetry.cs:119-124 | two picks from the sorted copy are recorded lengths, in index order |
| CourtshipTelemetry.PercentilesRank | NobleSociety/Behaviors/CourtshipTelemetry.cs:119-124 | no length sorted at or before the median index exceeds the median, and none at or after the 90th-percentile index is below that percentile |
| CourtshipTelemetry.CourtshipTelemetryBehavior.constructor | NobleSociety/Behaviors/CourtshipTelemetry.cs:22-27 | no pending starts and no lengths |
| CourtshipTelemetry.CourtshipTelemetryBehavior.MarkCourtshipStart | NobleSociety/Behaviors/CourtshipTelemetry.cs:75-84 | nothing without an instance or either hero; otherwise the start is recorded |
| CourtshipTelemetry.CourtshipTelemetryBehavior.MarkMarriage | NobleSociety/Behaviors/CourtshipTelemetry.cs:86-103 | nothing without an instance or either hero; otherwise the marriage is recorded |
| CourtshipTelemetry.CourtshipTelemetryBehavior.ForgetHero | NobleSociety/Behaviors/CourtshipTelemetry.cs:105-112 | nothing without an instance or a hero; otherwise the pending courtships naming the hero are dropped (the corrected key test, not the code's substring test) |
| CourtshipTelemetry.CourtshipTelemetryBehavior.Summary | NobleSociety/Behaviors/CourtshipTelemetry.cs:115-127 | no instance reads as no samples; otherwise the report on the recorded lengths |
| CourtshipTelemetry.CourtshipTelemetryBehavior.Save | NobleSociety/Behaviors/CourtshipTelemetry.cs:36-57 | the pending starts as two parallel lists that load back into the same map, and the lengths as they are |
| CourtshipTelemetry.CourtshipTelemetryBehavior.Load | NobleSociety/Behaviors/CourtshipTelemetry.cs:47-57 | the start times rebuilt over the shorter list, the lengths as saved |
| TournamentPreferLocal.IdsOf | NobleSociety/Patches/TournamentPreferLocalNoblesPatch.cs:49-56 | exactly the non-empty ids of the participants |
| TournamentPreferLocal.LocalIds | NobleSociety/Patches/TournamentPreferLocalNoblesPatch.cs:59-70 | exactly the ids on the list of the town's adult living free lords (the player only when invited) |
| TournamentPreferLocal.PreferLocals | NobleSociety/Patches/TournamentPreferLocalNoblesPatch.cs:39-93 | the list is left as it is without a town, without a list or for an empty list, and a list is present afterwards exactly when it was before |
| TournamentPreferLocal.LocalsFirst | NobleSociety/Patches/TournamentPreferLocalNoblesPatch.cs:75-90 | every local comes before every other participant in the reordered list |
| TournamentPreferLocal.ReorderedIsPermutation | NobleSociety/Patches/TournamentPreferLocalNoblesPatch.cs:75-92 | nobody is added: the reordered list holds exactly the participants with an id, each as often as before |
| TournamentPreferLocal.FilterNone | NobleSociety/Patches/TournamentPreferLocalNoblesPatch.cs:78-90 | a pass that keeps nothing gives nothing |
| TournamentPreferLocal.ReorderedIdempotent | NobleSociety/Patches/TournamentPreferLocalNoblesPatch.cs:75-90 | reordering an already reordered list changes nothing |
| TournamentPreferLocal.CollectVanillaIds | NobleSociety/Patches/TournamentPreferLocalNoblesPatch.cs:50-56 | the first pass collects the list's ids |
| TournamentPreferLocal.CollectLocalIds | NobleSociety/Patches/TournamentPreferLocalNoblesPatch.cs:59-70 | the second pass collects the eligible locals on the list |
| TournamentPreferLocal.Reorder | NobleSociety/Patches/TournamentPreferLocalNoblesPatch.cs:76-90 | the two passes give the locals in their order followed by the others in theirs |
| TournamentPreferLocal.Postfix | NobleSociety/Patches/TournamentPreferLocalNoblesPatch.cs:39-93 | the list the patch leaves is the reordered list, or the original one when nothing is to be done |
| IdleSeating.Release | NobleSociety/Behaviors/IdleNobleNeutralSeatingBehavior.cs:135-140 | the hero leaves all three dictionaries and every other hero's entries stay as they were |
| IdleSeating.DailyCleanup | NobleSociety/Behaviors/IdleNobleNeutralSeatingBehavior.cs:51-61 | exactly the heroes whose lock ran out by today leave all three dictionaries; every other entry is kept unchanged |
| IdleSeating.PickNeutralHub | NobleSociety/Behaviors/IdleNobleNeutralSeatingBehavior.cs:142-165 | the pick is a town of the noble's realm, held by another clan and not besieged, and no such town ranks before it (prosperity plus the culture-hub bonus, then distance); none only when the realm has no such town or the noble has no kingdom |
| IdleSeating.FirstIsBest | NobleSociety/Behaviors/IdleNobleNeutralSeatingBehavior.cs:148-164 | the head of the ordered candidate list is a candidate and ranks no later than any other candidate |
| IdleSeating.Redirect | NobleSociety/Behaviors/IdleNobleNeutralSeatingBehavior.cs:106-133 | nothing changes without a target, when it seats eight guests or when it lies more than 150 away; otherwise the noble is seated there, its last move is today, and it is locked for five to seven days, with no other entry changed |
| IdleSeating.DailyHeroRules | NobleSociety/Behaviors/IdleNobleNeutralSeatingBehavior.cs:63-95 | an ineligible noble is left alone, a pinned noble that left its seat or joined a party is released, and a pinned noble still locked or within fifteen days of its last move stays put |
| IdleSeating.DropKeepsCapacity | NobleSociety/Behaviors/IdleNobleNeutralSeatingBehavior.cs:135-140 | releasing heroes keeps every town within eight guests and the three dictionaries over the same heroes |
| IdleSeating.SeatKeepsCapacity | NobleSociety/Behaviors/IdleNobleNeutralSeatingBehavior.cs:111-113 | seating one hero in a town with fewer than eight guests keeps every town within eight |
| IdleSeating.RedirectKeepsValid | NobleSociety/Behaviors/IdleNobleNeutralSeatingBehavior.cs:106-133 | a redirect keeps every town within eight guests and the dictionaries in step |
| IdleSeating.DailyStepsKeepValid | NobleSociety/Behaviors/IdleNobleNeutralSeatingBehavior.cs:51-95 | the daily cleanup and the per-noble step both keep that invariant |
| IdleSeating.IdleNobleNeutralSeatingBehavior.constructor | NobleSociety/Behaviors/IdleNobleNeutralSeatingBehavior.cs:30-32 | the behaviour starts with three empty dictionaries |
| IdleSeating.IdleNobleNeutralSeatingBehavior.Load | NobleSociety/Behaviors/IdleNobleNeutralSeatingBehavior.cs:40-49 | each dictionary is the loaded one, or empty when none was saved |
| IdleSeating.IdleNobleNeutralSeatingBehavior.ReleaseHero | NobleSociety/Behaviors/IdleNobleNeutralSeatingBehavior.cs:135-140 | the new state is the released state |
| IdleSeating.IdleNobleNeutralSeatingBehavior.OnDailyTick | NobleSociety/Behaviors/IdleNobleNeutralSeatingBehavior.cs:51-61 | collecting the expired heroes and releasing them one by one gives the daily cleanup |
| IdleSeating.IdleNobleNeutralSeatingBehavior.TryRedirect | NobleSociety/Behaviors/IdleNobleNeutralSeatingBehavior.cs:106-133 | the new state is the redirect; the town entered, if any, is the noble's new seat, and without one nothing changed |
| IdleSeating.IdleNobleNeutralSeatingBehavior.OnDailyTickHero | NobleSociety/Behaviors/IdleNobleNeutralSeatingBehavior.cs:63-95 | the new state is the daily per-noble step |
| AgentRemoved.PositivityRule | NobleSociety/Patches/OnAgentRemovedPatch.cs:210-220 | positivity ignores Calculating, raising Honor never makes a positive hero negative, an all-zero hero counts as positive and a dishonourable one with no other virtue does not |
| AgentRemoved.FindHero | NobleSociety/Patches/OnAgentRemovedPatch.cs:88-89 | a found hero is the first hero on the list with that id; none only when no hero has it |
| AgentRemoved.IsPositivePerson | NobleSociety/Patches/OnAgentRemovedPatch.cs:210-220 | a hero with no negative counted trait is positive, and one with negative honour and no positive counted trait is not |
| AgentRemoved.OnAgentRemoved | NobleSociety/Patches/OnAgentRemovedPatch.cs:62-208 | a knock-out failing the guards changes nothing; any change is by +2, -2, +1 or -1; the dedupe memories only grow |
| AgentRemoved.PlayerBranch | NobleSociety/Patches/OnAgentRemovedPatch.cs:99-175 | a knock-out by the player changes its relation with the loser by +2 or -2 by the loser's positivity, a knock-out of the player its relation with the winner by +1 or -1; exactly an already counted agent changes nothing; the agent is remembered |
| AgentRemoved.TournamentBranch | NobleSociety/Patches/OnAgentRemovedPatch.cs:180-201 | between two other heroes nothing happens outside a tournament or unless both are lords; otherwise the winner's relation with the loser changes by +2 or -2 unless that directed pair was already counted, and the pair is remembered |
| AgentRemoved.ChangeSide | NobleSociety/Patches/OnAgentRemovedPatch.cs:99-201 | a change from the player comes from a new agent that is then remembered; any other change comes from a new directed pair that is then remembered |
| AgentRemoved.CountedOnce | NobleSociety/Patches/OnAgentRemovedPatch.cs:52-208 | over any run of knock-outs between clears, no removed agent changes the player's relations twice and no directed pair of lords is counted twice, and nothing counted before the run counts again |
| AgentRemoved.ClearDedupe | NobleSociety/Patches/OnAgentRemovedPatch.cs:52-59 | both memories are empty afterwards |
| AgentRemoved.OnAgentRemovedPatch.constructor | NobleSociety/Patches/OnAgentRemovedPatch.cs:32-35 | both memories start empty |
| AgentRemoved.OnAgentRemovedPatch.Clear | NobleSociety/Patches/OnAgentRemovedPatch.cs:52-59 | the new memory is the cleared one |
| AgentRemoved.OnAgentRemovedPatch.Postfix | NobleSociety/Patches/OnAgentRemovedPatch.cs:62-208 | the change applied and the new memory are those of the knock-out rules |
| TournamentSeeding.LordsInTown | NobleSociety/Patches/TournamentNobleSeedingPatch.cs:46-48 | the count of lords never exceeds the heroes in the town |
| TournamentSeeding.ToSeat | NobleSociety/Patches/TournamentNobleSeedingPatch.cs:51-55 | at most four are seated, never past ten lords, and at least one while the town holds fewer than ten |
| TournamentSeeding.ShortlistRanked | NobleSociety/Patches/TournamentNobleSeedingPatch.cs:101-109 | the shortlist is ordered closest first then most valorous, drawn from the candidates, at most twice the quota long, and no candidate left off ranks before one on it |
| TournamentSeeding.ApplyLocksBounds | NobleSociety/Patches/TournamentNobleSeedingPatch.cs:131-132 | every seated hero is locked for three to five days from now and every other lock is kept |
| TournamentSeeding.SeedTournament | NobleSociety/Patches/TournamentNobleSeedingPatch.cs:40-140 | at most four heroes are seated, and the locks change only when someone is seated |
| TournamentSeeding.SeedingRules | NobleSociety/Patches/TournamentNobleSeedingPatch.cs:40-140 | nothing is seated for a missing town, result, settlement, faction or kingdom or a full town; otherwise at most min(4, 10 - lords) are seated, each one a candidate whose move succeeded and who is now locked for three to five days |
| TournamentSeeding.RecountNeverBindsFirst | NobleSociety/Patches/TournamentNobleSeedingPatch.cs:117-120 | below the quota the town is still under ten lords, so the recount never stops seating first |
| TournamentSeeding.TournamentNobleSeedingPatch.constructor | NobleSociety/Patches/TournamentNobleSeedingPatch.cs:33 | the lock dictionary starts empty |
| TournamentSeeding.TournamentNobleSeedingPatch.CountLords | NobleSociety/Patches/TournamentNobleSeedingPatch.cs:46-48 | the loop counts the lords in the town |
| TournamentSeeding.TournamentNobleSeedingPatch.GatherCandidates | NobleSociety/Patches/TournamentNobleSeedingPatch.cs:72-96 | the loop keeps exactly the candidates, in order |
| TournamentSeeding.TournamentNobleSeedingPatch.Postfix | NobleSociety/Patches/TournamentNobleSeedingPatch.cs:40-140 | the heroes seated and the new locks are those of the seeding rules |
| TournamentSeeding.TournamentNobleSeedingPatch.SeatShortlist | NobleSociety/Patches/TournamentNobleSeedingPatch.cs:111-140 | the loop seats the first shortlisted heroes whose move succeeds, up to the quota, and locks each of them |
| Sorting.SortByStable | NobleSociety/Behaviors/NoblePatronageBehavior.cs:92 | the sort is stable, as `OrderBy` is: of two inputs with equal keys, the earlier one also comes first in the result |

## Left out

- Logging is not modelled: `FileLogger`, `Log`/`NSLog.Log` and the diagnostic output of `IsImportant`. Only its decision is modelled.
- UI toasts, their colours and `Summary`'s string formatting are not modelled. `Summarize` gives the numbers the summary prints.
- Harmony wiring, `RegisterEvents` and the `IDataStore.SyncData` calls are not modelled. The save formats are modelled as pure pack and unpack functions. `Load` methods take the lists as loaded, `None` standing for a null list.
- `FormatException` paths when parsing saved numbers are not modelled. Parsing is a parameter `f` of `PatronageBehavior`, and the round trip assumes it reads back what it wrote.
- Float arithmetic is not modelled: `float`/`double` values are exact `real`s. Rounding error and the truncating casts of float values are out of scope, except the explicit `Math.Round` and `(int)` conversions, which `Common` models. One such cast is the p90 index `(int)(n * 0.9f)` in `Summary`, computed on reals.
- `Math.Sqrt`, `Math.Log10` and `Math.Pow` are parameters or stated bounds. These include the gift delta's square root, the wealth multiplier's logarithm and the decay multiplier of the prune pass.
- `MBRandom` draws are parameters (`roll`, `rolls`, `w.roll1`, ...). Their range is required where the source guarantees it.
- World queries are inputs rather than game calls: `GetNearbyNobles`, the ripple rings, `CloseFriendsOf`, `GetEligibleRecipients`, town lists and distances, `Mission.Current` as `isTournament`, and agent identity as a `handle`. The romance turn's `PickOrContinueTargetFor`, `FinalChecksPass` and `IsNpcFreeToCourt` are fields of `Romance.LordTurn`.
- Game actions are recorded, not performed: `ChangeRelationAction`, `GiveGoldAction` and `Enter`/`LeaveSettlementAction`. `IdleSeating.IdleNobleNeutralSeatingBehavior.TryRedirect` returns the town entered. A seeded lord's entry is modelled as one more lord in the town. A move that throws is modelled by the `failing` set. The partial effects of a move that throws half-way are not modelled.
- `try`/`catch` blocks that swallow exceptions in `OnAgentRemovedPatch.Postfix` and the seeding patch are not modelled beyond `failing`.
- Reflection in `ResolveRansomMethod` is not modelled. The `resolve` parameter of `RansomLogic.RansomMethodCache.CalculateDynamicRansom` stands for the lookup, and `invoked` for the call's result.
- The static `_instance` of `MeetingTracker` and `CourtshipTelemetry` is a nullable parameter of the static wrappers.
- `GetSuitorList` creating an empty list as a side effect is modelled only through the registry functions. The telemetry calls that the romance behaviour makes are not modelled.
- `OnWarDeclared` in the romance behaviour only logs and is not modelled.
- `GiftTracker` records are values stored in the map. They are not objects updated through a shared reference.
- Memory records are values in the agent's `memoryLog` sequence. They are not objects shared between logs, because the source never shares them.
- `OrderBy` ties: the stable order among equal keys is modelled by an insertion sort, proved stable by `Sorting.SortByStable`. The per-tag cap's `List.Sort`, which is not stable, is modelled as dropping the first record with the oldest timestamp each time.
- The old single-argument `DetermineGiftAmount(donor)` is not modelled (NobleSociety/Systems/PatronageLogic.cs:136-143). The daily pass uses the two-argument rule.
- `RelationRipple.ApplyRipples` plans every ripple first and then applies them in order. The `showSummary` flag only affects messages and is not modelled.
- `PatronageLogic.GetClanSurplus`: gold and wages are unbounded integers. The 32-bit overflow of `int` sums is not modelled.
- `RansomLogic.CaptiveShouldPay`: `20 * wage` is computed without 32-bit overflow.
- `PatronageLogic.GetClanTotalWage` has no precondition. Only the lemma `WageSumNonNegative` assumes wages that are not negative, as the game's party wages are.
- `GossipRules.CappedDelta`: requires the pair's running sum to be within the weekly cap. `Society`'s ledger invariant keeps that for every call the manager makes. The source would also compute a larger sum.
- `TournamentPreferLocal.PreferLocals`: a participant without a character or an id is dropped by the reordering. The code's two passes skip such entries. `ReorderedIsPermutation` states this.
- `IdleSeating.Redirect`: the distance to the target is a field of the town, 0 when the noble is in no town.
- `RelationPatch`: the `[ThreadStatic]` guard is a plain boolean field. There is no concurrency.
- Society.DecayAll runs the corrected step `DecayWeightToZero` (see `## Findings`), not the code's `DecayWeight`. A record of weight 0.01 at rate 0.03 becomes 0 here, and the tick's own prune removes it. In the code it becomes -0.02 and survives the tick. It is then left for the housekeeping cull, which counts it as a pruned memory, or for the next tick.
- Society.NobleAgentState.Tick decays with `DecayWeightToZero` rather than the code's `DecayWeight`, with the difference described for `Society.DecayAll`.
- Society.NobleAgentState.DecayEach applies `DecayWeightToZero` rather than the code's `DecayWeight`, with the difference described for `Society.DecayAll`.
- Society.NobleAgentState.Age decays with `DecayWeightToZero` rather than the code's `DecayWeight`, with the difference described for `Society.DecayAll`.
- SocietyBehavior.NobleSocietyBehavior.TickLord ticks with the corrected step, as `Society.NobleAgentState.Tick` does.
- SocietyBehavior.NobleSocietyBehavior.TickAndPrune ticks with the corrected step, so its prune count can be lower than the code's, as described for `OnDailyTickHero`.
- SocietyBehavior.NobleSocietyBehavior.OnDailyTickHero ticks with the corrected step. Its season prune total can therefore be lower than the code's: it leaves out the overshooting records that the code's housekeeping cull would remove and count.
- Romance.NpcRomanceCampaignBehavior.OnHeroKilled removes only the cooldown and rivalry keys that name the victim (`KeysNaming`, see `## Findings`). The code removes every key that contains the victim's id, so a key such as "lord_12|lord_3" survives the death of "lord_1" here but not in the code.
- CourtshipTelemetry.CourtshipTelemetryBehavior.ForgetHero drops only the pending courtships that name the hero (`Romance.ForgetHeroKeys`). The code drops every key that contains the id, as described for `OnHeroKilled`.

## Findings

| source | as written | input that shows it | evidently intended | confidence | as-written member | corrected member |
|---|---|---|---|---|---|---|
| NobleSociety/State/NobleMemoryEntry.cs:123-135 | `DecayWeight` subtracts a fixed step toward zero and can step past zero | weight 0.01, rate 0.03: the weight becomes -0.02, with a flipped sign and a larger magnitude. The tick's own prune keeps it, since it is 0.001 or more from zero. It lasts until the housekeeping cull removes it (that cull removes every weight under 0.20, negatives included, and counts it) or until it expires | fade to zero and stop there | not executed | MemoryEntries.DecayOvershootFlipsSign | MemoryEntries.DecayWeightToZero |
| NobleSociety/Behaviors/NPCRomanceCampaignBehavior.cs:285-291 | on a death, every cooldown key whose text contains the victim's id is removed | "lord_1" dies: the key "lord_12\|lord_3" is removed too | remove only the keys naming the victim | not executed | Romance.SubstringMatchForgetsOtherPair | Romance.ForgetHeroKeys |
| NobleSociety/Behaviors/CourtshipTelemetry.cs:109-110 | `ForgetHero` removes every pending start whose key contains the id | forgetting "lord_1" drops the courtship "lord_12\|lord_3" | forget only the hero's own courtships | not executed | CourtshipTelemetry.SubstringForgetDropsUnrelatedCourtship | Romance.ForgetHeroKeys |
