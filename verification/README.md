# Aftertick: queue, matchmaking, trading, leases and ingestion

A Dafny model of the server-side state machines of Aftertick, and proofs about every run of them.
`dafny verify dfyconfig.toml` checks the project.

**Queue.** Tickets are created, gathered into ready checks, taken through a captain map veto and assigned.
The Redis keys repeat the same facts many times: each player and party points at a ticket, four sorted sets index
tickets and records, and every ticket carries a copy of its ready check or veto. `Queue` gives each Lua script as one
function on the whole store, `RedisScripts` gives the scripts as step-by-step code with loops and proves each equal to
its function, and `QueueInvariants`, `QueueMatches`, `QueueAccepts`, `QueueVetoes`, `PartyInvariants`, `QueueRuns` and
`QueueResults` prove what every run keeps. Every script is atomic, and a run is any interleaving of scripts.
Two fields of the store are history and not Redis keys: `issued`, the roster each ticket id was created with, says that
random ids never repeat and that a plan names tickets the store handed out; `origins` says which plan a veto came from.

**Map veto and reservation.** `MapVeto` is the veto record and the ban step, `Orchestrator` the reservation of a match and
the separate check of a finished veto, `VetoHandover` the path from a matchmaker plan through any run to that check.

**Matchmaker.** `TeamSearch` splits ten players' tickets into two teams, `MatchEvaluation` judges a set of tickets at a
time, `MatchSearch` enumerates sets around the oldest ticket; `Ranking` is the order of candidates. Ratings, pings and
scores are reals, the Elo curve is an arbitrary function, and strings compare by code unit.

**Trading.** `Trading`, `TradingInvariants` and `TradingRuns` treat settlement, companion keys, openings and trade-ups;
`TradingTables` is the same transactions row by row. `Offers`, `OfferRuns` and `OfferTables` are the life of an offer and its
recorded requests, on top of the inventory, and `OfferReceipts` is what the accepted ones transferred. `Journal` is the event
journal and its cursor readers. A digest is the tuple it digests, ids are numbers, and a transfer adds one to the ownership
generation as the database trigger does.

**Leases.** `Leases`, `LeaseRuns` and `LeaseResults` treat instances, leases, commands and their interleavings;
`ControlPlane` is the transactions row by row. The code unquarantines an instance without looking for an active lease, so
"a ready instance has no active lease" is false of it: `LeaseResults.ReadyCanBeLeased` is a run that shows it, and
`LeaseResults.FreeBreaksOnlyByUnquarantine` says exactly which step breaks it.

**Ingestion.** `JsonText` and `CanonicalJson` are the printer that signatures rest on, whose three copies in the repository
are the same text, over UTF-16 code units. `StatTrak` and `Ingestion` are the event batches, counters and match status, and
`OwnershipCounts` the counters across matches and trades. `WeightedChoice` is the choice of a reward's rarity.

Facts assumed of the surroundings: transactions and scripts are atomic; random ids, claim tokens and sequence values
are new; the unique indexes and the ownership trigger of the migrations hold; a match's manifest lists no
ownership newer than the tables it was signed from.

## Model

| member | source | states |
|---|---|---|
| QueueRuns.ReachableInv | apps/api/src/redis-queue-service.ts:87-737 | In every state that any run of the queue and party scripts reaches from an empty store, all the redundant keys agree: pointers, index sets, per-ticket copies, record contents, frozen rosters |
| QueueRuns.RunKeepsInv | apps/api/src/redis-queue-service.ts:87-737 | Any run from a state where the keys agree ends in one where they agree |
| QueueRuns.StepKeepsInv | apps/api/src/redis-queue-service.ts:87-737 | Each of the sixteen scripts, and each key that expires or is acknowledged, keeps the agreement, whatever the phase of the tickets involved |
| QueueRuns.OneTicketPerPlayer | apps/api/src/redis-queue-service.ts:87-296 | In every reachable state a player's pointer names t exactly when t is live and lists the player, so nobody is in two live tickets |
| QueueRuns.ReadyCheckEnds | apps/api/src/redis-queue-service.ts:352-697 | A ready record disappears in exactly one of three ways: unanimous acceptance into its veto, unanimous acceptance into an assignment, or a cancellation recorded in the outbox |
| QueueRuns.OnlyTwoScriptsEndReady | apps/api/src/redis-queue-service.ts:298-737 | Only the accept and cancel scripts, called for that match, remove a ready record |
| QueueRuns.AcceptedToVeto | apps/api/src/redis-queue-service.ts:391-455 | When the last acceptance opens the veto, everybody accepted exactly once and every listed ticket still live carries the new veto's state |
| QueueRuns.AcceptedToAssigned | apps/api/src/redis-queue-service.ts:457-490 | When the last acceptance assigns, everybody accepted exactly once and every listed live ticket carries the assignment |
| QueueRuns.CancelEnds | apps/api/src/redis-queue-service.ts:630-697 | A cancellation leaves no listed ticket live, no veto, and an outbox entry with its time and reason |
| QueueInvariants.JoinOutcome | apps/api/src/redis-queue-service.ts:87-169 | A join either changes nothing or writes a fresh ticket whose members held no pointer and whose leader is the requester; verified lobbies and ready Redis parties supply the roster |
| QueueInvariants.JoinKeepsInv | apps/api/src/redis-queue-service.ts:87-169 | Joining with a fresh ticket id keeps all keys in agreement |
| QueueInvariants.LeaveKeepsInv | apps/api/src/redis-queue-service.ts:250-296 | Leaving, fenced, plain or by session end, keeps all keys in agreement in every phase |
| QueueInvariants.ClearPlayersKeepsInv | apps/api/src/redis-queue-service.ts:205-248 | Clearing a finished deathmatch keeps all keys in agreement |
| QueueResults.ClearedExactly | apps/api/src/redis-queue-service.ts:205-248 | Clearing removes exactly the live tickets assigned to the match that list one of the players, counts each once, and leaves pointers exact |
| QueueResults.ClearingIgnoresOrder | apps/api/src/redis-queue-service.ts:205-248 | The order in which Redis lists the stored players does not show in the tickets, the pointers or the count |
| QueueResults.LeaveUndoesJoin | apps/api/src/redis-queue-service.ts:87-296 | A join followed by its leader's leave restores every key but the fence counter; a verified lobby's party key, which the join overwrites, ends up free even if an older ticket held it |
| QueueResults.SnapshotsStayTrue | apps/api/src/redis-queue-service.ts:298-334 | A plan read earlier stays a plan of issued tickets with the same rosters through any run: rosters never change and ids are never reused |
| QueueMatches.ClaimsSound | apps/api/src/redis-queue-service.ts:316-334 | When the claims pass, every claimed ticket is live and searching, the tickets are distinct and no player occurs twice among them |
| QueueMatches.CreateReadyCheckKeepsInv | apps/api/src/redis-queue-service.ts:298-350 | Opening a ready check for a fresh match keeps all keys in agreement |
| QueueMatches.AssignDeathmatchKeepsInv | apps/api/src/redis-queue-service.ts:171-203 | Assigning a deathmatch ticket keeps all keys in agreement |
| QueueMatches.ReassignedKeepsInv | apps/api/src/redis-queue-service.ts:699-737 | Reassigning a match keeps all keys in agreement |
| QueueAccepts.AcceptKeepsInv | apps/api/src/redis-queue-service.ts:352-491 | Accepting, whether others are still missing or it was the last one, keeps all keys in agreement |
| QueueAccepts.AcceptedRecord | apps/api/src/redis-queue-service.ts:363-385 | After an acceptance the accepted list is duplicate-free, inside the members, and as long as the members exactly when it is all of them |
| QueueVetoes.BanVetoMapKeepsInv | apps/api/src/redis-queue-service.ts:493-587 | A ban keeps the two veto indexes, the record and every ticket's copy in agreement |
| QueueVetoes.CompleteVetoKeepsInv | apps/api/src/redis-queue-service.ts:589-628 | Completing a veto keeps all keys in agreement |
| QueueVetoes.CancelReadyCheckKeepsInv | apps/api/src/redis-queue-service.ts:630-697 | Cancelling keeps all keys in agreement |
| QueueVetoes.PenalisedExactly | apps/api/src/redis-queue-service.ts:644-676 | A cancellation raises the failure count and sets the cooldown of exactly the members at fault; a lobby follower never pays, nor anybody outside the match |
| PartyInvariants.CreatePartyKeepsInv | apps/api/src/redis-party-service.ts:13-26 | Creating a party keeps party pointers exact, the leader a member, one to five distinct members, and a queued party's roster as its ticket has it |
| PartyInvariants.InviteKeepsInv | apps/api/src/redis-party-service.ts:28-51 | Inviting keeps party pointers exact, the leader a member, one to five distinct members, and a queued party's roster as its ticket has it |
| PartyInvariants.AcceptInviteKeepsInv | apps/api/src/redis-party-service.ts:53-81 | Accepting an invitation keeps party pointers exact, the leader a member, one to five distinct members, and a queued party's roster as its ticket has it |
| PartyInvariants.SetReadyKeepsInv | apps/api/src/redis-party-service.ts:83-107 | Readying up keeps party pointers exact, the leader a member, one to five distinct members, and a queued party's roster as its ticket has it |
| PartyInvariants.TransferKeepsInv | apps/api/src/redis-party-service.ts:109-133 | Handing over the lead keeps party pointers exact, the leader a member, one to five distinct members, and a queued party's roster as its ticket has it |
| PartyInvariants.LeavePartyKeepsInv | apps/api/src/redis-party-service.ts:135-166 | Leaving a party keeps party pointers exact, the leader a member, one to five distinct members, and a queued party's roster as its ticket has it |
| RedisScripts.Redis.Join | apps/api/src/redis-queue-service.ts:87-169 | The join script with its member loop and the guard on verified parties, step by step, does to the keys exactly what its one-step specification in Queue does, and returns the same reply |
| RedisScripts.Redis.Leave | apps/api/src/redis-queue-service.ts:250-296 | The leave script with its pointer loop, step by step, does to the keys exactly what its one-step specification in Queue does, and returns the same reply |
| RedisScripts.Redis.AssignDeathmatch | apps/api/src/redis-queue-service.ts:171-203 | The deathmatch assignment script, step by step, does to the keys exactly what its one-step specification in Queue does, and returns the same reply |
| RedisScripts.Redis.CompleteDeathmatch | apps/api/src/redis-queue-service.ts:205-248 | The completion loop over stored players with its seen set, step by step, does to the keys exactly what its one-step specification in Queue does, and returns the same reply |
| RedisScripts.Redis.ReassignMatch | apps/api/src/redis-queue-service.ts:699-737 | The reassignment loop with its two counters, step by step, does to the keys exactly what its one-step specification in Queue does, and returns the same reply |
| RedisScripts.Redis.CreateReadyCheck | apps/api/src/redis-queue-service.ts:298-350 | The guards and the two loops over claims, step by step, does to the keys exactly what its one-step specification in Queue does, and returns the same reply |
| RedisScripts.Redis.CheckClaims | apps/api/src/redis-queue-service.ts:316-334 | The claim loop: stale tickets and repeated players are refused in order, step by step, does to the keys exactly what its one-step specification in Queue does, and returns the same reply |
| RedisScripts.Redis.Accept | apps/api/src/redis-queue-service.ts:352-491 | The accept script: missing, expired, waiting, veto and assigned outcomes, step by step, does to the keys exactly what its one-step specification in Queue does, and returns the same reply |
| RedisScripts.Redis.BanVetoMap | apps/api/src/redis-queue-service.ts:493-587 | The ban script with its removal loop and deadline rule, step by step, does to the keys exactly what its one-step specification in Queue does, and returns the same reply |
| RedisScripts.Redis.CompleteVeto | apps/api/src/redis-queue-service.ts:589-628 | The completion loop over tickets, counting players reached, step by step, does to the keys exactly what its one-step specification in Queue does, and returns the same reply |
| RedisScripts.Redis.CancelReadyCheck | apps/api/src/redis-queue-service.ts:630-697 | The follower, penalty and deletion loops, step by step, does to the keys exactly what its one-step specification in Queue does, and returns the same reply |
| RedisScripts.Redis.CreateParty | apps/api/src/redis-party-service.ts:13-26 | The create script, step by step, does to the keys exactly what its one-step specification in Queue does, and returns the same reply |
| RedisScripts.Redis.InviteToParty | apps/api/src/redis-party-service.ts:28-51 | The invite script with its member loop, step by step, does to the keys exactly what its one-step specification in Queue does, and returns the same reply |
| RedisScripts.Redis.AcceptInvite | apps/api/src/redis-party-service.ts:53-81 | The accept-invite script, step by step, does to the keys exactly what its one-step specification in Queue does, and returns the same reply |
| RedisScripts.Redis.SetReady | apps/api/src/redis-party-service.ts:83-107 | The ready script with its marking loop, step by step, does to the keys exactly what its one-step specification in Queue does, and returns the same reply |
| RedisScripts.Redis.TransferLeader | apps/api/src/redis-party-service.ts:109-133 | The transfer script, step by step, does to the keys exactly what its one-step specification in Queue does, and returns the same reply |
| RedisScripts.Redis.LeaveParty | apps/api/src/redis-party-service.ts:135-166 | The leave script with its filtering loop, step by step, does to the keys exactly what its one-step specification in Queue does, and returns the same reply |
| RedisScripts.Redis.Strike | apps/api/src/redis-queue-service.ts:525-534 | The removal loop drops the first occurrence of the banned map only, and reports whether there was one |
| RedisScripts.Redis.Penalise | apps/api/src/redis-queue-service.ts:658-676 | The penalty loop applies the specified penalties member by member |
| MapVeto.VetoRun | apps/api/src/redis-queue-service.ts:391-587 | In every run of the ban script from its opening, bans and remaining maps split the pool, at most pool size - 1 bans happen, and the veto is allocating exactly after the last of them |
| MapVeto.StagePartitionsPool | apps/api/src/redis-queue-service.ts:493-587 | At every stage banned and remaining maps are duplicate-free, disjoint and together the pool |
| MapVeto.BanStepKeepsStage | apps/api/src/redis-queue-service.ts:493-587 | A call keeps the stage; an accepted one adds exactly one ban, numbered and by the team whose turn it is, and finalises exactly when one map is left |
| MapVeto.BanAvailable | apps/api/src/redis-queue-service.ts:508-534 | A call is accepted exactly when the deadline passed, or the captain on turn names a remaining map |
| MapVeto.OpenIsStage | apps/api/src/redis-queue-service.ts:391-425 | The veto a ready check opens is a stage with no bans, already decided for a pool of one |
| TeamSearch.MeasureImbalance | apps/api/src/matchmaker.ts:109-118 | The loop over the sorted stack sizes computes the position-by-position gap sum |
| TeamSearch.NoImbalance | apps/api/src/matchmaker.ts:109-118 | The imbalance is zero exactly when both teams have the same stack sizes, counted |
| TeamSearch.TeamSearcher.Visit | apps/api/src/matchmaker.ts:131-170 | The backtracking visit restores both buffers and leaves as best the first least of the complete splits below the node |
| TeamSearch.SearchTeams | apps/api/src/matchmaker.ts:120-175 | The whole search equals its specification |
| TeamSearch.NoTeamsIffNoSplit | apps/api/src/matchmaker.ts:120-175 | There is no choice exactly when none of the 2^n picks puts five players on each side |
| TeamSearch.ChosenTeamsAreBest | apps/api/src/matchmaker.ts:120-175 | The choice is a five-a-side pick and no pick of all 2^n has a smaller (rating difference + 35 times imbalance, alpha ids) |
| TeamSearch.PickIsLeaf | apps/api/src/matchmaker.ts:131-170 | Pruning loses nothing: every five-a-side pick is reached |
| Ranking.BestIsFirstLeast | apps/api/src/matchmaker.ts:151-160 | Keeping a candidate only when strictly better yields the first of the least in visiting order |
| MatchEvaluation.InEveryList | apps/api/src/matchmaker.ts:99-103 | A value is in the intersection exactly when there is a list and every list has it |
| MatchEvaluation.CompetitivePlanSound | apps/api/src/matchmaker.ts:177-246 | A competitive plan has two teams of five sharing its ten distinct players, a duplicate-free pool of maps everyone allows, and a region everyone allows within the ping limit |
| MatchEvaluation.ChosenTeamsShare | apps/api/src/matchmaker.ts:120-175 | The chosen teams share out exactly the players of the tickets |
| MatchEvaluation.WaitGrows | apps/api/src/matchmaker.ts:105-107 | Waiting time never shrinks and is never negative |
| MatchEvaluation.WiderLimitSameRegion | apps/api/src/matchmaker.ts:201-217 | Raising the ping limit never changes a region that was already found |
| MatchEvaluation.EvaluateLater | apps/api/src/matchmaker.ts:177-302 | Tickets that match now match at every later time with the same teams, map, region and score |
| MatchSearch.MatchSearcher.Visit | apps/api/src/matchmaker.ts:330-359 | The visit restores the selection and evaluates, up to the limit, exactly the complete sets below the node in order |
| MatchSearch.MatchSearcher.Extend | apps/api/src/matchmaker.ts:351-358 | The loop over later candidates does the same for all the sets that go on with one of them |
| MatchSearch.MatchSearcher.Take | apps/api/src/matchmaker.ts:354-356 | Pushing a candidate, visiting and popping it evaluates the sets that go on with it and restores the selection |
| MatchSearch.SearchMode | apps/api/src/matchmaker.ts:317-363 | One mode's search equals its specification and evaluates at most combinationLimit sets |
| MatchSearch.Match | apps/api/src/matchmaker.ts:310-380 | The whole of findMatch equals its specification: the plan with the longest wait, then the better score |
| MatchSearch.EvaluatedCount | apps/api/src/matchmaker.ts:330-350 | Exactly the first min(limit, all) sets are evaluated, and the best accepted one of those is kept |
| MatchSearch.SetIsReached | apps/api/src/matchmaker.ts:330-359 | Every increasing choice of candidates that first reaches the target with its last ticket is enumerated |
| MatchSearch.ReachedIsSet | apps/api/src/matchmaker.ts:330-359 | Everything enumerated is such a choice |
| MatchSearch.FillsBySize | apps/api/src/matchmaker.ts:331-335 | When no ticket is empty, such a choice is any choice whose size is exactly the target |
| MatchSearch.FoundPlanIsFullSet | apps/api/src/matchmaker.ts:310-363 | A plan found is the evaluation of a set of exactly the target size around the oldest ticket |
| MatchSearch.FoundPlanIsBest | apps/api/src/matchmaker.ts:310-363 | When the complete sets are at most the limit, an acceptable set means a plan is found, and none has a smaller (score, joined ids) |
| MatchSearch.CandidatesAreOldest | apps/api/src/matchmaker.ts:319-325 | The candidates are the mode's tickets in order of joining, ties by id: nobody left out joined before anybody kept |
| MatchSearch.BestForLater | apps/api/src/matchmaker.ts:310-364 | The plan a mode finds later is never worse, by score and joined ids, than the one it finds now, even when the limit cuts the search |
| MatchSearch.MatchabilityNeverExpires | apps/api/src/matchmaker.ts:310-380 | If a ticket list matches at one time it matches at every later time, even when the limit cuts the search |
| Orchestrator.InsertRoster | apps/api/src/match-orchestrator.ts:254-265 | The roster loop succeeds exactly when every player has a side and none is listed twice; each row then has the player's side and the next slot of that side |
| Orchestrator.Reserve | apps/api/src/match-orchestrator.ts:223-270 | A reservation succeeds exactly for the right head count, a provisional map in the pool and an insertable roster, and keeps pool, region and roster of the plan |
| Orchestrator.SlotsUnique | apps/api/src/match-orchestrator.ts:254-265 | On each side slots count up from 1, so no side hands out a slot twice |
| Orchestrator.ValidateCompletedVeto | apps/api/src/match-orchestrator.ts:24-64 | The walk over the bans with its growing set reports exactly the first problem of the declarative check |
| Orchestrator.CheckBans | apps/api/src/match-orchestrator.ts:47-63 | The loop accepts exactly the ban lists in order, by the captain on turn, of distinct pool maps other than the selected one |
| Orchestrator.CaptainIsBest | apps/api/src/matchmaker.ts:79-85 | The captain is on the team and nobody on it has a higher rating, or the same rating and a smaller id |
| Orchestrator.FinishedVetoPasses | apps/api/src/match-orchestrator.ts:24-64 | A veto played to the end passes the check of a reservation with the same maps exactly when the reservation lists no map twice and the selected map has a non-empty name |
| Orchestrator.MatchedVetoPasses | apps/api/src/match-orchestrator.ts:24-64 | For every competitive plan of the matchmaker, every finished veto of its seed passes the check of its reservation |
| VetoHandover.OpeningRemembersPlan | apps/api/src/redis-queue-service.ts:1273-1310 | Opening a ready check for a reserved plan stores the plan's own veto seed and region |
| VetoHandover.OriginsStayInRun | apps/api/src/redis-queue-service.ts:87-737 | No run changes what a match was opened with |
| VetoHandover.ReachableVetoPasses | apps/api/src/match-orchestrator.ts:24-64 | In every reachable store, an allocating veto opened from a matchmaker plan passes the check of that plan's reservation |
| VetoHandover.PlannedVetoPasses | apps/api/src/match-orchestrator.ts:24-64 | From plan to match: after any run, a ready check opened for a matchmaker plan, and any further run, a veto of that match that is allocating passes the check against the plan's reservation |
| TradingInvariants.GreedySucceeds | apps/api/src/trading-service.ts:470-495 | Choosing, case by case, the owner's first key not yet taken never fails: every offered case finds a key of its own, matched owner by owner and definition by definition |
| TradingInvariants.SettleKeepsInv | apps/api/src/trading-service.ts:497-550 | A settlement keeps, for every player and key definition, at least as many active keys as active cases needing them, and every active case's grant unopened and its owner's |
| TradingInvariants.SettleOutcomes | apps/api/src/trading-service.ts:497-550 | Under the invariant an offer is accepted exactly when confirmed where one-sided, its terms still hold and both inventories have room; a missing key or a refused transfer never happens |
| TradingInvariants.MovedFacts | apps/api/src/trading-service.ts:497-540 | What an acceptance moves belongs to the two participants, brings as many keys as cases of each definition, and nothing the database refuses to move |
| TradingRuns.SettleConserves | apps/api/src/trading-service.ts:529-548 | Exactly the offered items and their companion keys change owner, each to the other participant and one generation on; the grants follow and everything else stays |
| TradingRuns.OneKeyPerCase | apps/api/src/trading-service.ts:470-495 | The companions are active keys, one for each offered case that a key opens |
| TradingRuns.SettleFits | apps/api/src/trading-service.ts:519-528 | After an acceptance both players see at most 512 items |
| TradingRuns.OtherOffersDie | apps/api/src/trading-service.ts:91-97 | Once an offer is accepted, every other offer naming one of its items at that ownership fails its fingerprint check |
| TradingRuns.RunKeepsEntitlements | apps/api/src/trading-service.ts:470-550 | Over every run of grants, settlements, openings and trade-ups the entitlement invariant holds and no (asset, generation) pair is transferred by two accepted offers |
| TradingRuns.ReachableEntitlements | apps/api/src/trading-service.ts:470-550 | Every run from empty tables keeps the entitlements: active cases backed and keyed, packages and grants naming each other, and no (asset, generation) pair on two receipts |
| TradingRuns.ActiveCaseOpens | apps/api/src/inventory-service.ts:1721-1767 | Opening an active case without naming a key, however often it was traded, is refused exactly for another odds version or for a case and key the catalog does not pair, each with its own error; otherwise it opens |
| TradingRuns.OpeningReplays | apps/api/src/inventory-service.ts:1696-1719 | After a case was opened and any run since, its player's next call changes nothing: another key is refused, the recorded reward comes back exactly while the player still holds it as an active cosmetic, and otherwise it is gone |
| TradingRuns.PackReplays | apps/api/src/inventory-service.ts:1570-1619 | The same for a package: a named key is refused, and after any run the recorded reward comes back exactly while the player still holds it |
| TradingRuns.OpenKeepsInv | apps/api/src/inventory-service.ts:1523-1817 | Opening a case or a package keeps the entitlement invariant |
| TradingRuns.TradeUpKeepsInv | apps/api/src/inventory-service.ts:1820-1985 | A trade-up keeps the entitlement invariant |
| TradingRuns.GrantCaseKeepsInv | packages/db/src/services/service-level-rewards.ts:55-85 | Granting a case with its key keeps the entitlement invariant |
| TradingTables.Tables.Entitle | apps/api/src/trading-service.ts:470-495 | The loop that grows the companions equals its specification and never takes a key twice |
| TradingTables.Tables.HandRows | apps/api/src/trading-service.ts:529-540 | Row by row, all rows and their grants pass to the other participant, or the database refuses one and nothing changed |
| TradingTables.Tables.Settle | apps/api/src/trading-service.ts:497-550 | The settlement transaction equals its specification, outcome and tables |
| TradingTables.Tables.OpenCase | apps/api/src/inventory-service.ts:1684-1816 | Opening a case row by row equals its specification |
| TradingTables.Tables.TradeUp | apps/api/src/inventory-service.ts:1904-1975 | The trade-up checks, insertion and consumption equal their specification |
| TradingInvariants.HandOverStep | packages/db/migrations/032_player_trading.sql:59-89 | Transferring one more row after others is transferring them together: each transfer adds one generation and resets the count |
| Offers.SnapshotOk | apps/api/src/trading-service.ts:364-378 | Terms that pass are between the two players, list exactly the agreed items, and each item belongs to one of the two |
| OfferRuns.RunOk | apps/api/src/trading-service.ts:318-468 | Over every run of calls, sweeps and inventory changes: senders alternate, no offer passes 100 revisions, closed offers do not change, recorded answers stay, events are only appended |
| OfferRuns.ReachableWorldOk | apps/api/src/trading-service.ts:318-468 | Every run from empty tables, of the inventory and of the offers together, ends with the entitlements and the offers' version history in order |
| OfferRuns.ClosedForever | apps/api/src/trading-service.ts:414-468 | A closed offer never changes again |
| OfferRuns.SenderIsCreatorIffOdd | apps/api/src/trading-service.ts:414-434 | The sender of a revision is the creator exactly when its number is odd, and no revision exceeds 100 |
| OfferRuns.ReplayAnswers | apps/api/src/trading-service.ts:342-362 | Repeating a committed request, after any run, returns the stored answer and does nothing |
| OfferRuns.ReuseRefused | apps/api/src/trading-service.ts:342-362 | A committed request id sent again with any other contents, after any run, is refused and nothing changes; the refusal names the reuse exactly when the call's own checks let it reach the record |
| OfferRuns.StepGood | apps/api/src/trading-service.ts:328-468 | Each call changes the inventory only through an accepted settlement |
| OfferReceipts.StepSells | apps/api/src/trading-service.ts:328-468 | Items change hands only by the call that turns a pending offer into an accepted one, exactly as the settlement of its current terms says; every other offer call leaves inventory and accepted offers alone |
| OfferReceipts.ReachableReceipts | apps/api/src/trading-service.ts:497-550 | After every run of calls, sweeps and inventory changes from empty tables, each accepted offer has one receipt, which holds every item of its last terms at the ownership agreed, and no two receipts share an (asset, generation) pair |
| OfferReceipts.SoldOnce | apps/api/src/trading-service.ts:497-550 | In every reachable state two accepted offers never name the same item at the same ownership generation |
| OfferTables.OfferService.Create | apps/api/src/trading-service.ts:391-412 | Creating an offer equals its specification |
| OfferTables.OfferService.Counter | apps/api/src/trading-service.ts:414-434 | Countering equals its specification |
| OfferTables.OfferService.Respond | apps/api/src/trading-service.ts:448-468 | Accepting, declining and cancelling equal their specification |
| OfferTables.OfferService.ExpireOffers | apps/api/src/trading-service.ts:328-340 | The sweep closes exactly the due pending offers it found and journals one event each |
| OfferTables.OfferService.CheckPending | apps/api/src/trading-service.ts:436-446 | A closed or expired offer is answered with a recorded error, a changed one stops the request |
| Journal.RunKeepsInv | apps/api/src/trading-service.ts:291-326 | However writers, rollbacks and readers interleave, each reader holds exactly the visible events between its start and its cursor, each once and in order |
| Journal.ReachableInv | apps/api/src/trading-service.ts:291-326 | So it is in every run from an empty journal |
| Journal.NothingAppearsBelow | apps/api/src/trading-service.ts:318-326 | In any run to come, no uncommitted id at or below a reader's cursor becomes visible, once the reader got an event or if it started from a settled id |
| Journal.SafeIffSettled | apps/api/src/trading-service.ts:318-326 | A cursor is safe in every run to come exactly when its id was handed out and no open transaction holds an id at or below it |
| Journal.PagingCatchesUp | apps/api/src/trading-service.ts:291-306 | Reading pages of 100 until nothing is left delivers every visible event after the start exactly once, in order |
| Journal.ReadTakesPage | apps/api/src/trading-service.ts:291-306 | Each read takes the next 100 unread events, or all that are left |
| Journal.EventLostWithoutLock | apps/api/src/trading-service.ts:318-326 | Why the lock is needed: with two writers of one offer and the later one committing first, a reader passes the earlier event and never gets it |
| LeaseRuns.RunKeepsInv | apps/api/src/node-control-service.ts:310-1088 | In every run no instance or match has two active leases, a non-null active lease id names an active lease on that instance, and that lease carries the largest token issued for the instance |
| LeaseRuns.ReachableInv | apps/api/src/node-control-service.ts:310-1088 | So it is in every state reached from empty tables |
| LeaseRuns.StepKeepsInv | apps/api/src/node-control-service.ts:310-1088 | Every transaction keeps those facts |
| LeaseRuns.AllocateKeepsLeases | packages/db/migrations/002_server_control_plane.sql:95-100 | A new lease allowed by the two unique indexes keeps active leases one per match and instance and its token the largest |
| LeaseRuns.FailureEndsMatch | apps/api/src/node-control-service.ts:973-1068 | Quarantining a failed lease leaves its instance and match without an active lease, cancels a pending match, disputes a live one unless its result is on the way, and touches no other match |
| LeaseResults.FreeBreaksOnlyByUnquarantine | apps/api/src/node-control-service.ts:518-524 | Free-looking instances (ready, starting, offline, draining) stay without active lease exactly when the step is not a successful unquarantine of an instance that has one |
| LeaseResults.GuardedRunsStayFree | apps/api/src/node-control-service.ts:310-1088 | In every run that never unquarantines a leased instance, every instance that looks free is free |
| LeaseResults.ReadyCanBeLeased | apps/api/src/node-control-service.ts:511-524 | A concrete run that leaves a ready instance with an active lease, so the guard is needed; allocating that instance to any other match then fails at the unique index and burns a fencing token |
| LeaseResults.AcknowledgedOnce | apps/api/src/node-control-service.ts:460-535 | After a claim was acknowledged, no later acknowledgement under it does anything, whatever happened since |
| ControlPlane.Service.LeaseReadyServerNow | apps/api/src/node-control-service.ts:671-757 | Allocation, row by row, equals its one-step specification |
| ControlPlane.Service.WakeServer | apps/api/src/node-control-service.ts:607-669 | Waking an offline instance, row by row, equals its one-step specification |
| ControlPlane.Service.ReleaseLease | apps/api/src/node-control-service.ts:942-971 | Releasing a lease, row by row, equals its one-step specification |
| ControlPlane.Service.QuarantineLeaseFailure | apps/api/src/node-control-service.ts:973-1080 | Quarantining a failed lease, row by row, equals its one-step specification |
| ControlPlane.Service.QuarantineExpiredLeases | apps/api/src/node-control-service.ts:1082-1105 | The loop over expired leases, row by row, equals its one-step specification |
| ControlPlane.Service.Heartbeat | apps/api/src/node-control-service.ts:310-434 | The heartbeat: instances, failures, reclaimed and claimed commands, row by row, equals its one-step specification |
| ControlPlane.Service.AcknowledgeCommand | apps/api/src/node-control-service.ts:460-535 | Acknowledging a command, with retries, terminal failure and its effect on the instance, row by row, equals its one-step specification |
| ControlPlane.Service.Backoff | apps/api/src/node-control-service.ts:489-489 | Doubling from 1 and capping at 30 gives the retry delay |
| CanonicalJson.PrintsSameIffSame | apps/api/src/match-ingestion-service.ts:166-174 | Two values print the same text exactly when they are equal up to the order of object members |
| CanonicalJson.PrintedParses | apps/node-agent/src/ingestion-signature.ts:3-11 | A parser reads the printed text back as the sorted value, with nothing left over, whatever punctuation follows |
| CanonicalJson.PrintIsPlainCanon | apps/api/src/node-control-service.ts:230-238 | Sorting while printing writes the text of the sorted value |
| JsonText.PlainParses | apps/api/src/match-ingestion-service.ts:166-174 | The parser inverts the printer on every well-formed value |
| JsonText.CharsParse | apps/api/src/match-ingestion-service.ts:167-167 | String escapes (section 7 of RFC 8259, lone surrogates as lower-case hexadecimal) are undone by the parser |
| StatTrak.CounterIsAttackersOwn | apps/api/src/match-ingestion-service.ts:92-133 | A kill only counts for an item on the attacker's own manifest entry that the event names, at the ownership generation it observed, and never for a kill of oneself |
| Ingestion.MatchStore.IngestEvents | apps/api/src/match-ingestion-service.ts:251-375 | The batch loop equals its specification, and a batch that fails changes nothing |
| Ingestion.MatchStore.Insert | apps/api/src/match-ingestion-service.ts:267-333 | Storing one event applies its effect |
| Ingestion.BatchAddsUp | apps/api/src/match-ingestion-service.ts:251-375 | Inserted, duplicates and conflicts add up to the batch, and exactly the inserted events are stored |
| Ingestion.EffectsExactlyOnce | apps/api/src/match-ingestion-service.ts:251-375 | Over any batches with any repetition, ids and sequences are stored at most once and every counter is its base value plus the stored qualifying kills, capped |
| Ingestion.CounterIsStoredKills | apps/api/src/match-ingestion-service.ts:303-324 | From a match without events, a counter is min(initial + stored qualifying kills, 2^32 - 1) |
| OwnershipCounts.RunExact | apps/api/src/match-ingestion-service.ts:303-324 | However batches of any matches and trades interleave, the history is what the matches stored, and every row is the row its present owner got, raised by the stored kills of that ownership, capped |
| OwnershipCounts.CountIsOwnersKills | apps/api/src/match-ingestion-service.ts:303-324 | A counter is the capped sum of the stored kills of the present ownership, on top of the first count for an item never traded and of zero for a traded one |
| OwnershipCounts.OlderKillsNeverCount | packages/db/migrations/032_player_trading.sql:59-89 | Once an item was traded, no batch under a manifest that lists an older ownership of it changes its row, at any later time |
| Ingestion.RetryChangesNothing | apps/api/src/match-ingestion-service.ts:334-375 | Sending a committed batch again at any later time inserts nothing and changes nothing |
| Ingestion.StatusMovesForward | apps/api/src/match-ingestion-service.ts:281-299 | The match status only moves forward: cancelled is final and disputed never becomes live |
| WeightedChoice.ChooseRarity | apps/api/src/inventory-service.ts:606-617 | The subtract-and-compare loop picks the entry on whose interval the roll falls, or the last one |
| WeightedChoice.CaseOdds | apps/api/src/inventory-service.ts:605-622 | Each rarity of a case is chosen by exactly its weight's many of the totalWeight rolls, and its reward pool is never empty |
| WeightedChoice.PackOdds | apps/api/src/inventory-service.ts:643-670 | Each rarity of a package is chosen by a number of the 10,000 rolls that differs from 10,000 w / T by less than one, and its reward pool is never empty |
| WeightedChoice.ScaledInside | apps/api/src/inventory-service.ts:656-656 | The scaled roll always lands inside the table |
| WeightedChoice.ExactOdds | apps/api/src/inventory-service.ts:609-617 | For any table of distinct rarities, exactly w rolls of the total choose a rarity of weight w |
| WeightedChoice.ScaledOdds | apps/api/src/inventory-service.ts:656-664 | For any table of distinct rarities and positive total, the scaled rolls choose a rarity w / T of 10,000 times to within less than one |
| WeightedChoice.ChooseCaseReward | apps/api/src/inventory-service.ts:586-629 | Below 500 of 10,000 a special; otherwise a reward of the chosen rarity from the case |
| WeightedChoice.ChoosePackReward | apps/api/src/inventory-service.ts:643-670 | None exactly for a package without a supported rarity, otherwise a reward of the chosen rarity from the package |

## Left out

- The read repair that deletes a player's pointer after two separate reads (apps/api/src/redis-queue-service.ts:896) and the non-atomic refresh of a deathmatch population (apps/api/src/redis-queue-service.ts:1092-1104): they are not scripts, and interleaved with scripts they can break the pointer facts. The queue results are about script steps.
- Removal of stale ids from the searching set while listing tickets: with exact indexes there are none.
- Published events, key prefixes, JSON encoding inside Lua, and time to live as a mechanism; a key that may expire is a step of its own, and a cooldown is the time it ends.
- The regions and maps a queue ticket asks for, estimated waits and display names: no script branches on them.
- The veto deadline shown to players is computed with a fixed 30 seconds while the stored deadline uses the seed's turn length; both are parameters here and no result relates them.
- MatchSearch.Match: compares ids and regions by code unit where the program uses localeCompare, and scores as reals where the program rounds.
- TeamSearch.NoImbalance: is about tickets with at least one player, which every ticket has.
- The choice of one map by the client before the ready check, profile resolution, and the loop that runs the matchmaker under a lock.
- The drop-in deathmatch session allocator, server allocation after the veto, and persisting the bans.
- Trade messages beyond their length, trade codes, player search, inventory pages, read markers, and views of an offer.
- Asset ids are numbers, ordered as their nineteen-digit texts are; names, stickers, wear and other cosmetic terms are one text.
- TradingRuns.RunKeepsEntitlements: has no step for unsealing graffiti, using sprays, renaming, kill counts or administrative grants, which touch neither cases nor keys.
- TradingTables.Tables.Settle: does not model the order in which rows are locked; the tables after the transaction do not depend on it.
- Journal.RunKeepsInv: treats a reader's offers as fixed, since an offer's participants never change.
- Which offers an expiry sweep locks, at most a hundred, is any list; which commands a heartbeat picks, of at most twenty and by age, is any choice of due commands; regions, node status and heartbeat freshness only narrow the instance an allocation picks, which is any ready one.
- The manifest, its signature and revisions, roster and inventory synchronisation, recovery incidents and audit rows.
- Numbers in JSON are their canonical text; undefined, functions and non-finite numbers do not occur in signed values.
- Hashes and signatures themselves, authorisation of a batch, roster presence, participation penalties, anti-cheat evidence beyond its being well formed, results and settlement of ratings.
- StatTrak receipts returned after a batch.
- The draws of the random generator are parameters of the choosers; wear and the StatTrak draw are not modelled.
