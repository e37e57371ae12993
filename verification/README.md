# A model of the conversation service's ledgers

The service keeps what users say and what characters answer in Redis, charges each request against a daily
quota, and moves every day's log into an archive at night. This project models that state and proves what it
keeps under concurrency, expiring leases, retries, lost replies and midnight.

* **Conversation store.** One scope (owner and conversation) has a lease, per Beijing day a counter, a log and a
  request ledger, and a cell per batch. `ConversationStore` defines each Lua script as a function on a value;
  `RedisStore.ScopeStore` is the store object, whose methods run the scripts command by command and are proved
  equal to those functions. `SendProtocol` is the state machine: any number of `Send` workers with their own
  copy of a batch, a passing clock, migrations, clears, legacy turns, faults before and after each script.
  Both halves of `ClearScopeToday` are separate: the machine's `Clear` step needs no free lease, so every
  interleaving of check and delete is covered. `Renewals` says how long a worker keeps its lease, `RequestOnce` what
  a retry is told. `SendDriver.Scope.Send` is the code of `Send` itself, with other workers' steps inserted at every
  call.
* **Quota.** `DailyQuota` and `QuotaManager` have the flat hash with its scripts, the windows and the manager;
  `QuotaSchedules` treats orders of calls.
* **Gateway.** `Gateway` composes both: handlers reserve, agents work, handlers settle, connections get lost, and
  requests are submitted as often as clients like. `Resubmission` says exactly what is on a quota ledger, and
  when a reply is free; `Charging` says it for requests submitted once; `FreeReply` and `FreeRetry` are runs over the
  identifiers of `Identifiers` and `Submissions`.
* **Discovery.** `HiddenDays`: which days the nightly job finds, and after which clears it misses one.
* **Readers of the log.** `MessageView` and `LegacyMerge` (what is shown), `History` and `WholeBatches` (what a
  character is given), `Personas` and `Planning` (who speaks), `Maintenance` and `NightlyJob` (the archive),
  `ArchiveReadBack` (what the archive tells), `LateMerges` (legacy turns that come too late), `ScopeKeys` and
  `BarredOwners` (how scopes are written into keys and read back).
* **Timed components.** `RateLimiter`, `AccessToken`, `Sessions`, `SessionRaces` and `PasswordResets`.

Time is an integer of milliseconds; a Beijing day is the number of a 24-hour interval shifted by eight hours. A
run is a sequence of states, each the result of an enabled step from the one before; a statement about a run
holds for every run.

## What the code does not keep

Seven properties one would like are false. Each is stated with its exact condition. The failures of the first six
are shown to be reachable by runs over arbitrary identifiers; the last one is shown for every accepted owner of its
form.

* A reply can be free. What is on a quota ledger is exactly what was accepted there and not released by an answer
  as failed (`Resubmission.HeldExactlyWhileItStands`, `Resubmission.ReplyIsFreeExactlyWhenReleased`). It happens in
  two ways. A lease lost after a message was appended is answered as a definitive failure
  (`FreeReply.AReplyCanBeFree`); for requests submitted once that is the only way
  (`Charging.RepliesAreChargedUnlessTheLeaseWasLost`). And a second submission that is refused, by a busy
  conversation or before it begins, releases the reservation it shares with the first one, which is then served
  (`FreeRetry.AResubmissionCanFreeAReply`, `FreeRetry.ARefusalCanFreeAReply`).
* A legacy turn added after a batch has started displaces stored sequence numbers when it is merged
  (`LogRuns.MergeKeepsPositionsIffNotLate`, `LateMerges.ALateMergeDisplaces`).
* A day can become one that is never processed again: it is refused exactly when a message that is not archived finds
  its number taken (`Maintenance.DayCanBeProcessedIff`, `Maintenance.RefusedForGood`). That happens when a legacy turn
  joins an archived day (`LateMerges.ADayCanGetStuck`), and when a batch goes on after its day was archived and
  cleared (`LateMerges.SpeechAfterTheNightIsRefused`).
* A clear can hide a day from the nightly job: it does exactly when it leaves a legacy list behind or a lease holder
  with something left to say (`HiddenDays.ClearedDayIsFoundIff`).
* A revocation can leave a session that no later revocation ends: it does exactly when a session issued between its
  two halves is live at the second (`SessionRaces.RevocationIsCompleteIff`, `SessionRaces.IndexStaysCompleteIff`,
  `Sessions.OrphansOutliveRevocations`).
* An old password can still open a session after a reset: a reset that reads a complete index shuts it out for good
  exactly when no session of a login that checked it before the change slipped through between the read and the
  erase, and no such login is still to issue its session (`PasswordResets.ResetShutsOutIff`, `PasswordResets.OldPasswordLivesIff`,
  `PasswordResets.AnOldPasswordCanLive`).
* A scope is not read back by the nightly job when its owner holds a bar, which the program accepts
  (`ScopeKeys.ServedIsReadBackIff`, `ScopeKeys.BarredOwnersAreServed`). The job is given another scope instead, of
  another owner and with the very same keys (`ScopeKeys.BarredOwnerIsReadAsAnother`): when it is processed, the log
  has been archived for that owner and cleared, and a legacy list stays where it is
  (`BarredOwners.DayIsArchivedForAnother`). An owner that begins with the bar is passed over.

## Model

| member | source | states |
|---|---|---|
| `RedisStore.ScopeStore.RunBegin` | internal/conversation/structured_store.go:12-54 | command by command, the begin script is one atomic transition: existing request of today or yesterday (converged when its lease is gone), busy, or started |
| `RedisStore.ScopeStore.RunAppend` | internal/conversation/structured_store.go:102-120 | a message is numbered, logged and snapshotted only under the caller's lease, which is renewed |
| `RedisStore.ScopeStore.RunSave` | internal/conversation/structured_store.go:159-166 | cell and ledger are rewritten only under the caller's lease, which is released or renewed |
| `RedisStore.ScopeStore.RunInterrupt` | internal/conversation/structured_store.go:190-215 | a generating batch becomes failed or partial, only under the lease, which is released |
| `RedisStore.ScopeStore.RunMigrate` | internal/conversation/structured_store.go:348-363 | the legacy list is put in front of the log and the counter is set to the total |
| `RedisStore.ScopeStore.AddTurn` | internal/conversation/redis_store.go:41-65 | a legacy turn joins its day's list and lists the owner |
| `RedisStore.ScopeStore.BeginBatch` | internal/conversation/structured_store.go:56-100 | migration, then the script on a generating batch without speakers; busy is an error, only a started batch comes with the token |
| `RedisStore.ScopeStore.AppendCharacter` | internal/conversation/structured_store.go:122-157 | the numbered message and the stored batch are returned; a lost lease is an error and writes nothing, but the message has joined the caller's batch |
| `RedisStore.ScopeStore.SaveBatch` | internal/conversation/structured_store.go:168-188 | the stamped batch is what is stored, or the lease is reported lost; the caller's batch is stamped in any case |
| `RedisStore.ScopeStore.InterruptBatch` | internal/conversation/structured_store.go:217-234 | the settled batch is returned, or the lease is reported lost |
| `RedisStore.ScopeStore.MessagesForDate` | internal/conversation/structured_store.go:249-288 | migrates, then returns the view of the whole log |
| `RedisStore.ScopeStore.ClearScopeDate` | internal/conversation/structured_store.go:301-316 | log and counter go, the request ledger stays |
| `RedisStore.ScopeStore.ClearScopeToday` | internal/conversation/structured_store.go:290-299 | when nothing intervenes, refused exactly while a lease is held |
| `SendDriver.Scope.Send` | internal/orchestration/application.go:68-187 | refusals in the order of the code, before anything is touched, the legacy list merged before the history is read and before the batch begins; then, with other workers acting at every call: every batch returned has the request id of the call, and a started one its batch id, turn id and trimmed content; it holds every text up to the first silence, each with its speaker, name, avatar, turn id and time, and is complete exactly when there was none; without a fault of its own a call fails only because the conversation is busy or, once started, because the lease time passed between two of its store calls and the lease is lost; a lease reported lost is lost for good; after a failure whose clean-up ran the lease is not the caller's |
| `SendDriver.Scope.CleanUp` | internal/orchestration/application.go:104-121 | only an unsettled call is interrupted; a clean-up that reaches the store leaves the caller without the lease |
| `LeaseInvariant.StepKeepsInv` | internal/conversation/structured_store.go:12-234 | every step of anyone keeps: who holds the lease owns a generating batch whose cell, ledger entry and local copy agree; no two workers share a token or batch; every snapshot well formed |
| `ConversationRuns.TerminalSnapshotsAreFrozen` | internal/conversation/structured_store.go:19-33 | complete, partial and failed are absorbing over every run; before that a snapshot only grows and keeps its id and user message |
| `ConversationRuns.SnapshotsAreWellFormed` | internal/orchestration/application.go:133-186 | speakers are a prefix of the plan; complete, partial and failed mean all, some and none; the interruption code is set exactly for partial and failed |
| `ConversationRuns.ReturnedBatchIsTheLedgerEntry` | internal/orchestration/application.go:154-186 | a started batch returned without error is the ledger's entry in every later state, settled, its lease gone |
| `ConversationRuns.ReachedCleanupsSettle` | internal/conversation/structured_store.go:190-215 | in every run, a clean-up of the lease holder that reaches the store leaves cell and ledger with the same batch, failed or partial by its messages and with the interruption code, the lease free, and nothing else changed |
| `ConversationRuns.FencedStepWritesNothing` | internal/conversation/structured_store.go:103-103 | a worker whose token is not in the lease cell changes no store state |
| `ConversationRuns.FencedForever` | internal/conversation/structured_store.go:159-165 | a token that has left the lease cell never returns, and its worker never writes again |
| `ConversationRuns.LeaseIsBounded` | internal/conversation/redis_store.go:23-31 | a held lease ends within the lease time of 45 seconds |
| `ConversationRuns.AbandonedScopeReopens` | internal/conversation/structured_store.go:19-35 | after the lease time without activity a begin starts if and only if the request is on neither day's ledger |
| `Renewals.ExtendedLeaseLasts` | internal/conversation/structured_store.go:118-118 | in every run, an applied begin, plan save or append of the lease holder keeps the lease its own for the next 45 seconds of the server's clock, unless it gives it up, whatever the others do |
| `Renewals.TimelyWorkersKeepTheirLease` | internal/conversation/structured_store.go:102-166 | in every run, a worker whose applied scripts are less than 45 seconds apart holds the lease until it gives it up, and is never told that it lost it |
| `LogContiguity.StepKeepsLogs` | internal/conversation/structured_store.go:12-120 | every step keeps: all a log has of a batch is one block, equal to the end of the batch's snapshot; only the lease holder's batch can still grow, and it is last; everything else logged is a legacy turn |
| `LogRuns.EveryBatchIsOneBlock` | internal/conversation/structured_store.go:36-53 | in every reachable state, whatever was cleared, what the log has of a batch is one block equal to the end of its snapshot; each logged message has a snapshot; the counter is the log's length, also across the two halves of a clear |
| `LogRuns.UnclearedBatchesAreContiguous` | internal/conversation/structured_store.go:104-119 | without a clear of the day in the run, each batch is one block of the log |
| `LogRuns.MergeKeepsPositionsIffNotLate` | internal/conversation/structured_store.go:348-363 | a merge keeps stored sequence numbers equal to positions if and only if no batch message is logged yet or there is nothing to merge |
| `LateMerges.ALateMergeDisplaces` | internal/conversation/structured_store.go:348-363 | for all identifiers, a run of begin, legacy turn and merge ends with a displaced message |
| `LogRuns.PositionsHoldAbsentLateMerges` | internal/conversation/structured_store.go:36-45 | absent late merges every batch message's stored sequence is its one-based position |
| `LogRuns.BlockStandsAtItsNumber` | internal/conversation/structured_store.go:104-113 | absent clears and late merges a batch stands exactly where its snapshot's sequence numbers say |
| `HiddenDays.UnclearedDaysAreListed` | internal/conversation/structured_store.go:318-331 | until it is cleared, a day with messages or requests is on a list that names the scope to the nightly job |
| `HiddenDays.HarmlesslyClearedDaysAreFound` | internal/conversation/structured_store.go:290-316 | in every run in which each clear of the day found nothing to merge and no lease holder with something left to say, and each legacy clear found an empty log or the day on the new list, the day is found whenever it has messages |
| `HiddenDays.ClearedDayIsFoundIff` | internal/conversation/structured_store.go:301-316 | after a clear, every continuation without another clear of the day keeps it found, if and only if the clear found nothing to merge and no lease holder with something left to say |
| `HiddenDays.ClearDuringGenerationHidesTheRest` | internal/conversation/structured_store.go:301-316 | a clear while a batch is generating leaves its next message alone on a day that no list mentions, in every conversation |
| `HiddenDays.StartedBatchIsHarmful` | internal/conversation/structured_store.go:290-299 | a reachable state of every conversation in which a lease holder can write |
| `HiddenDays.AddedTurnIsHarmful` | internal/conversation/redis_store.go:41-65 | a reachable state of the default conversation with a legacy list to merge |
| `RequestOnce.NoRequestOnAdjacentDays` | internal/conversation/structured_store.go:13-34 | when the day of begin never goes back, a request id is never on two adjacent days' ledgers |
| `RequestOnce.RetryReturnsTheFirstBatch` | internal/conversation/structured_store.go:13-34 | whatever is interleaved, a retry on the same or the next day starts nothing and gets the first batch id and message |
| `RequestOnce.RetriesAreToldTheEnd` | internal/conversation/structured_store.go:12-33 | in every run, a begin that finds its request on today's or yesterday's ledger is told what the ledger holds afterwards: the entry unchanged while a lease is held or once it is settled, otherwise the entry failed or partial by its messages, with the interruption code; nothing else in the store changes |
| `RequestOnce.EndsAreFinal` | internal/conversation/structured_store.go:19-33 | once a begin found its request while no lease was held, every later state has that batch settled and unchanged, and every later begin that finds it is told the same |
| `MessageView.ReadLog` | internal/conversation/structured_store.go:258-288 | the loop computes the view |
| `MessageView.ViewIsPrefixStable` | internal/conversation/structured_store.go:258-288 | the view of a prefix is the prefix of the view |
| `MessageView.ViewIsFaithful` | internal/conversation/structured_store.go:260-286 | each shown message has its position, keeps turn id, role, content, time and stored batch id, and is spoken by the user, by Haruhi if it is a legacy answer, and otherwise by the stored speaker under the stored name and avatar |
| `MessageView.ViewIsComplete` | internal/conversation/structured_store.go:269-284 | each message of a log the store keeps is shown in a batch |
| `MessageView.ViewIsIdempotent` | internal/conversation/structured_store.go:260-286 | viewing a view changes nothing |
| `MessageView.LegacyGroupsAreBlocks` | internal/conversation/structured_store.go:269-284 | a legacy turn is shown in a batch named after the turn its group starts with, and two share a batch if and only if no user turn stands between them or at the later one |
| `LegacyMerge.MigrationMovesEverythingOnce` | internal/conversation/structured_store.go:348-371 | the log becomes legacy ++ current, nothing lost or doubled; repeating it is a no-op; the counter stays exact |
| `LegacyMerge.LegacyTurnsComeFirst` | internal/conversation/structured_store.go:353-357 | in every reachable log the legacy turns precede all batch messages |
| `LegacyMerge.ReadersSeeStoredBatches` | internal/conversation/structured_store.go:260-286 | in every reachable log each message is shown numbered, in a batch, and in a stored batch if and only if it is stored in it |
| `LegacyMerge.TurnIdsAreDistinct` | internal/conversation/structured_store.go:348-363 | in every reachable state no two turns kept for a day share a turn id |
| `LegacyMerge.LegacyTurnsKeepTheirOrder` | internal/conversation/redis_store.go:58-58 | in every run, a legacy turn stands after those that were on its list and before what the log held already, wherever two of them are kept together later, merged or not |
| `DailyQuota.RequestFieldsAreNotCounters` | internal/quota/quota.go:161-162 | a request field never collides with a counter field |
| `DailyQuota.UsedCountsRequests` | internal/quota/quota.go:88-89 | the two counters add up to the number of requests on the hash, at most the limit |
| `DailyQuota.ReserveRefines` | internal/quota/quota.go:86-108 | the reserve script on the flat hash is the reservation on an abstract map of requests, and its reply reports that map |
| `DailyQuota.SettleRefines` | internal/quota/quota.go:110-130 | the settle script is the settlement on the map; the negative clamp never fires |
| `QuotaSchedules.EveryHistoryIsAccounted` | internal/quota/quota.go:86-130 | over every history: reserved and committed count the requests in those states, the ceiling holds, and revision = reserved + 2 committed + 2 releases |
| `QuotaSchedules.EqualRevisionsEqualLedgers` | internal/quota/quota.go:105-105 | revisions never go back and equal revisions of one ledger mean equal hashes |
| `QuotaSchedules.RaceFillsExactlyTheFreePlaces` | internal/quota/quota.go:100-107 | reservations of distinct new requests, in any order, accept exactly the smaller of their number and the free places |
| `QuotaSchedules.SettlementsCommute` | internal/quota/quota.go:115-124 | settlements of different requests commute on the whole hash |
| `QuotaSchedules.SecondSettlementIsANoOp` | internal/quota/quota.go:115-124 | after a settlement, another one of the same request changes nothing, whatever its outcome |
| `BeijingClock.DayIsInterval` | internal/quota/quota.go:261-267 | a day is the half-open interval between its midnight and the next |
| `QuotaManager.PreviousWindowIsAlive` | internal/quota/quota.go:159-160 | the window of a day ago is the preceding day's, and its ledger is never expired when consulted |
| `QuotaManager.ResetIsTheNextMidnight` | internal/quota/quota.go:261-267 | the reset is the first midnight of the zone eight hours ahead after the call, and the ledger expires a day later |
| `QuotaManager.EveryBookIsOk` | internal/quota/quota.go:86-130 | over every history of all users' calls at any instants, every stored ledger is consistent, within the limit and expires at the end of the following day |
| `QuotaManager.NeverChargedTwiceAcrossMidnight` | internal/quota/quota.go:94-99 | when the day never goes back, no request is on two adjacent days' ledgers |
| `QuotaManager.SnapshotBalances` | internal/quota/quota.go:269-278 | a snapshot counts the current ledger's requests, used + remaining = limit, and the reset is ahead |
| `QuotaManager.SettleReplyIsSnapshot` | internal/quota/quota.go:228-232 | the reply of a settlement on the current ledger is a snapshot of it |
| `QuotaManager.NewRedis` | internal/quota/quota.go:139-150 | a manager exists exactly with a client, a prefix that is not blank and a positive limit |
| `QuotaManager.Redis.RunReserve` | internal/quota/quota.go:86-108 | command by command, the script is the reservation, and renews the ledger that holds the request |
| `QuotaManager.Redis.RunSettle` | internal/quota/quota.go:110-130 | command by command, the script is the settlement, and never creates a ledger |
| `QuotaManager.Redis.Reserve` | internal/quota/quota.go:152-199 | admins pass, blank ids are invalid; otherwise the reservation names the live ledger that holds the request, or the error carries the current snapshot |
| `QuotaManager.Redis.Settle` | internal/quota/quota.go:201-233 | refuses an unknown outcome, settles the ledger of the reservation and reports the ledger of the current day |
| `Gateway.ScopedIdIsInjective` | internal/gateway/quota_handler.go:32-34 | the scoped id determines conversation and request id |
| `Gateway.MoveKeepsSound` | internal/gateway/api_handler.go:97-116 | every move of handlers and agents keeps both ledgers consistent, each worker tied to its handler, and every delivery earned |
| `Gateway.DeliveredMeansReplied` | internal/gateway/quota_handler.go:91-118 | in every run a request is delivered in quota only if its batch has a character message |
| `Charging.RunIsLedgered` | internal/gateway/quota_handler.go:46-118 | in runs that submit each request once: every request on a ledger has its handler, and an answered handler's request is kept exactly unless it was answered as failed |
| `Charging.AnswersAreSettled` | internal/gateway/quota_handler.go:108-128 | in runs that submit each request once, an answered request is delivered on its ledger exactly when its call came to a message, off it exactly when the call came to nothing, and reserved otherwise |
| `Charging.RepliesAreChargedUnlessTheLeaseWasLost` | internal/gateway/quota_handler.go:120-128 | in runs that submit each request once, a replied batch's request is charged if and only if its handler was not answered with a lost lease |
| `Charging.RepliesFitTheLimit` | internal/gateway/api_handler.go:97-116 | in runs that submit each request once, at most limit replied batches per quota ledger, those with a lost lease aside |
| `Gateway.RunAnswers` | internal/gateway/quota_handler.go:91-128 | in every run an answer is delivered exactly when the handler's call came to a message, and failed exactly when it came to nothing: no worker, a settled batch without a message, or one of the six definitive failures; a handler answered without a worker never gets one |
| `Resubmission.EveryTraceIsExplained` | internal/quota/quota.go:86-130 | for every sequence of acceptances and answers of one request on one ledger: it is held exactly while an acceptance stands, and delivered exactly when a standing one was answered so |
| `Resubmission.HeldExactlyWhileItStands` | internal/gateway/api_handler.go:97-116 | in every run, resubmissions included, a request is on a quota ledger if and only if it was accepted there and not released since by an answer as failed that no delivery preceded |
| `Resubmission.WhatAnAnswerMoves` | internal/gateway/quota_handler.go:91-128 | in every run, an answer moves its request from reserved to delivered if its call came to a message, off the ledger if the call came to nothing, and otherwise leaves it |
| `Resubmission.WhatAnAnswerReleases` | internal/gateway/quota_handler.go:91-128 | in every run, an answer releases an earlier acceptance of its request if and only if its call came to nothing and no delivery was answered in between |
| `Resubmission.ReplyIsFreeExactlyWhenReleased` | internal/gateway/quota_handler.go:91-118 | in every run, a reply was accepted on its handler's ledger, and is free if and only if every acceptance there was released |
| `Resubmission.FreeReplyNeedsAFailedAnswer` | internal/gateway/quota_handler.go:120-128 | a free reply has a handler of the same request and ledger answered as failed: not reached, failed for good, or given another day's batch |
| `Resubmission.UnfailedRepliesAreCharged` | internal/gateway/api_handler.go:97-116 | in every run, a reply whose request was never answered as failed is charged |
| `Resubmission.UnfailedRepliesFitTheLimit` | internal/gateway/api_handler.go:97-116 | in every run, at most limit different requests with a reply and without a failed answer per quota ledger |
| `Submissions.SuchDrawsExist` | internal/conversation/redis_store.go:143-149 | identifiers as the next two rows need them exist |
| `FreeReply.AReplyCanBeFree` | internal/gateway/quota_handler.go:120-128 | for any UUID, drawn identifiers, user, moment and positive limit: a run with one request submitted once, whose reply no ledger holds after its lease was lost |
| `FreeRetry.AResubmissionCanFreeAReply` | internal/gateway/quota_handler.go:91-106 | for any of these and a limit of at least two: a run without a lost lease in which the first submission is served and answered as delivered, and no ledger holds its request, because the second one was refused as busy |
| `FreeRetry.ARefusalCanFreeAReply` | internal/orchestration/application.go:81-84 | the same with one request only and any positive limit: the second submission fails to load the history |
| `History.EstimateTokens` | internal/orchestration/context.go:52-72 | one token per non-ASCII character, per ASCII word and per 16 bytes of the trimmed text |
| `History.EstimatesOfPlainTexts` | internal/orchestration/context.go:52-72 | n characters of three bytes are estimated at n + 3n / 16 tokens, one word of n ASCII letters and digits at 1 + n / 16 |
| `History.FindRun` | internal/orchestration/context.go:24-35 | a run ends at the first boundary between batches |
| `History.KeepNewest` | internal/orchestration/context.go:37-45 | from the runs, the longest suffix on a boundary that fits the budget |
| `History.SelectHistoryBatches` | internal/orchestration/context.go:10-46 | the result is the longest suffix that starts between runs and fits 6000 - 1200 - prompt - user - summaries - prefix; every longer one on a boundary overflows |
| `History.SelectionFitsTheWindow` | internal/orchestration/context.go:10-50 | as soon as any history is sent, the estimates of prompt, input, summaries, and of the text, speaker and name of every message sent fit 4800 tokens, and with any longer suffix on a boundary they would not |
| `History.SelectionIsUnique` | internal/orchestration/context.go:37-45 | history and budget determine the selection |
| `History.MoreBudgetMoreHistory` | internal/orchestration/context.go:37-45 | a larger budget never keeps less |
| `WholeBatches.BatchesAreKeptOrDroppedWhole` | internal/orchestration/context.go:24-45 | for every reachable log and any budget each stored batch, or what a clear has left of it, is kept whole or dropped whole |
| `Personas.FindFirst` | internal/persona/registry.go:61-67 | the first place in a text that uses any alias |
| `Personas.ResolveAliases` | internal/persona/registry.go:54-83 | exactly the addressed characters, by first mention, then registry order |
| `Planning.FirstOccurrencesAreExact` | internal/orchestration/planning.go:21-35 | the cleaned plan has exactly the allowed ids that occur, without repetition, by first occurrence |
| `Planning.CapDropsNone` | internal/orchestration/planning.go:23-26 | with at most five participants the cap of five never drops one |
| `Planning.TheGroupIsNeverCut` | internal/orchestration/planning.go:23-26 | in the space of all characters everyone the planner names speaks once, and all five can |
| `Planning.Clean` | internal/orchestration/planning.go:21-35 | the loop computes the first five allowed first occurrences |
| `Planning.PlanSpeakers` | internal/orchestration/planning.go:17-44 | nonempty, duplicate-free and at most five for any planner output: the first occurrences of participants, else the earliest addressed participant, else Haruhi |
| `Maintenance.ArchivingCompletes` | internal/memory/repo.go:115-171 | inserting a numbered view over any archived part of it raises no conflict on the sequence index and leaves one row per message, equal to it column by column |
| `Maintenance.ArchivingSucceedsIff` | internal/memory/repo.go:115-146 | over any rows at all, inserting a numbered view succeeds if and only if each message is archived already or finds its number free, and then adds exactly the missing rows |
| `Maintenance.DayCanBeProcessedIff` | internal/orchestration/maintenance.go:28-69 | some attempt processes a day if and only if nothing is kept or each message is archived already or finds its number free |
| `Maintenance.RefusedForGood` | internal/orchestration/maintenance.go:41-53 | no number of attempts processes or changes the refusal of a day that fails this |
| `Maintenance.LateMergeBlocksArchivingIffNotEmpty` | internal/memory/repo.go:140-145 | over a complete archive, archiving after a further merge succeeds if and only if the merged list was empty |
| `LateMerges.StuckForGood` | internal/orchestration/maintenance.go:41-53 | a day archived in full before legacy turns joined it is never processed by any number of further attempts, and stays as it is |
| `LateMerges.ADayCanGetStuck` | internal/orchestration/maintenance.go:48-58 | for all identifiers, a run, an attempt that gets no summary and a legacy turn leave such a day |
| `LateMerges.RewrittenDayIsRefused` | internal/conversation/structured_store.go:268-268 | a day archived in full, cleared and written again is refused |
| `LateMerges.SpeechAfterTheNightIsRefused` | internal/orchestration/maintenance.go:59-69 | a batch that still generates when its day is archived and cleared makes such a day with its next message |
| `Maintenance.AttemptIsSafe` | internal/orchestration/maintenance.go:28-69 | an attempt failing anywhere keeps every message in Redis or archives all of them, column by column, with a nonempty summary before clearing; a processed scope is archived in full, with the trimmed summary of the model |
| `Maintenance.NothingIsLostOverNights` | internal/orchestration/maintenance.go:23-73 | after any number of attempts nothing is lost, and a processed one leaves one row per turn in log order, a summary and an empty log |
| `Maintenance.ProcessedDaysAreCleaned` | internal/orchestration/maintenance.go:59-69 | a processed day, empty or not, is off both lists the job reads and has neither log nor counter nor legacy list; requests, cells, lease and other days stay |
| `ArchiveReadBack.TheDayReadsBack` | internal/memory/repo.go:115-146 | after any number of attempts and a processed one, the rows ordered by number recount the day: as many as turns were kept, the one at each place with that turn's id, role, content, time and place, the speaker shown and the batch |
| `NightlyJob.Repo.ArchiveDailyConversation` | internal/memory/repo.go:115-171 | all rows and the summary are committed together, or nothing is |
| `NightlyJob.Job.MaintainScope` | internal/orchestration/maintenance.go:28-72 | the steps with their early exits are one attempt |
| `NightlyJob.Job.MaintainDay` | internal/orchestration/maintenance.go:13-82 | a failed listing starts nothing; otherwise every listed scope is attempted and counted once as processed or failed, and a failed purge counts as one more failure |
| `NightlyJob.ScopesAreIndependent` | internal/orchestration/maintenance.go:23-33 | after scopes in turn each one is as if it had been the only one; unlisted ones are untouched |
| `NightlyJob.ProcessedAreCounted` | internal/orchestration/maintenance.go:65-69 | the number processed is the number of scopes whose own attempt succeeds |
| `NightlyJob.GreetsExactlyTheCleared` | internal/orchestration/maintenance.go:69-72 | exactly the owners of WeChat scopes whose nonempty day was cleared are greeted |
| `ScopeKeys.ParsedIsWritten` | internal/conversation/structured_store.go:333-343 | what is read from the active set is written back as the same member |
| `ScopeKeys.ReadBackIff` | internal/conversation/structured_store.go:402-404 | a scope is read back if and only if its parts are nonempty and channel and owner hold no bar |
| `ScopeKeys.ServedIsReadBackIff` | internal/agent/server.go:81-92 | of the scopes the program accepts, exactly those are read back whose owner holds no bar |
| `ScopeKeys.BarredOwnerIsReadAsAnother` | internal/conversation/structured_store.go:333-343 | an accepted owner with a bar: the job is given a scope the program does not accept, of another owner, with the same keys; or none when the bar comes first |
| `ScopeKeys.BarredOwnersAreServed` | internal/agent/server.go:81-92 | such an owner is accepted |
| `BarredOwners.DayIsArchivedForAnother` | internal/orchestration/maintenance.go:23-69 | an accepted owner with a bar: a processed night, over an archive that holds nothing else for that day, archives its log in full for the other owner and clears it, and leaves its legacy list |
| `ScopeKeys.LegacyIsReadBackIff` | internal/conversation/redis_store.go:131-141 | a legacy member is read back if and only if its parts are nonempty and the channel holds no bar |
| `ScopeKeys.ActiveScopes` | internal/conversation/structured_store.go:318-346 | each readable scope that is listed, or listed as an owner's default conversation, once, and no other |
| `ScopeKeys.MemberIsInjective` | internal/conversation/structured_store.go:374-376 | the tag determines the scope among scopes with bars in the owner only, all accepted ones included, and among readable ones |
| `ScopeKeys.KeysAreSeparate` | internal/conversation/structured_store.go:374-396 | messages, sequence, requests, lease and batch keys of all accepted scopes, and of all readable ones, never coincide, for all days and drawn batch ids |
| `RateLimiter.FixedWindowLimiter.Allow` | internal/redisstore/redis.go:67-88 | the empty id passes uncounted; otherwise one hit, allowed while the count is within the limit |
| `RateLimiter.TheKeyAlwaysExpires` | internal/redisstore/redis.go:67-73 | after any history the counter has an expiry, ahead of the last call and at most a window after it |
| `RateLimiter.LifetimeAllowsExactlyTheLimit` | internal/redisstore/redis.go:67-73 | of each key lifetime exactly the first limit calls are allowed |
| `RateLimiter.FewerThanTwoLimitsPerWindow` | internal/redisstore/redis.go:79-88 | any interval as long as the window holds at most 2 limit - 1 allowed calls |
| `RateLimiter.TheBoundIsReached` | internal/redisstore/redis.go:79-88 | that bound is reached |
| `AccessToken.CallsStayHonest` | internal/wechat/token.go:58-86 | every call of any manager keeps: a local copy ends with its token at the latest, the shared one a minute before |
| `AccessToken.NoStaleToken` | internal/wechat/token.go:58-86 | over every history of any number of managers, cache faults included, a returned token is still valid, unless this very call was issued a dead one |
| `AccessToken.RefreshReturnsTheIssued` | internal/wechat/token.go:76-86 | a refresh returns the token this very call was issued, or none, never a copy, and leaves the cache with it for its time less a minute, if any is left, and else with nothing, short of a fault |
| `AccessToken.NothingOlderAfterARefresh` | internal/wechat/token.go:76-86 | after a refresh whose delete reached the cache, over every further history, the cache, the manager that refreshed and all that it returns hold only tokens issued by the refresh or since |
| `AccessToken.DeductionPaysExactly` | internal/wechat/token.go:65-72 | a copy taken at the cache's last instant is served until just before its token ends, and not at its end |
| `AccessToken.TokenManager.GetToken` | internal/wechat/token.go:58-74 | local copy, then cache, then the endpoint |
| `AccessToken.TokenManager.Refresh` | internal/wechat/token.go:76-86 | forgets both copies before fetching |
| `AccessToken.TokenManager.FetchLocked` | internal/wechat/token.go:88-128 | a token is kept locally and shared only while the deducted time is positive |
| `Sessions.IndexIsComplete` | internal/auth/service.go:326-339 | however requests interleave, every live session of a user none of whose revocations was overtaken by a login is in the user's set, which expires no earlier |
| `Sessions.EraseKeepsCompleteIff` | internal/auth/service.go:255-266 | the delete of a revocation leaves a complete index if and only if no live session lies outside what was read |
| `Sessions.RevokedTokensStayDead` | internal/auth/service.go:255-266 | after a revocation no login overtook, a token authenticates its user only if a later login issued it |
| `Sessions.ResetLeavesOneSession` | internal/auth/service.go:198-223 | after a reset no other login overtook, the returned session is the user's only live one |
| `Sessions.OrphansOutliveRevocations` | internal/auth/service.go:255-266 | a live session outside every set survives all revocations until it expires or itself logs out |
| `Sessions.ALoginCanSlipThrough` | internal/auth/service.go:255-266 | a login between the halves of a revocation leaves such a session |
| `Sessions.LoggedOutTokensStayOut` | internal/auth/service.go:240-253 | after a logout's second half, whatever its lookup had found and whatever follows, a token authenticates only if a later login issued it |
| `Sessions.MembersAreNotLoggedOut` | internal/auth/service.go:240-253 | in every run a user's set holds only keys of that user's logins, none of them logged out since by a logout that found the owner |
| `Sessions.IndexExpiresAfterTheLastLogin` | internal/auth/service.go:326-339 | in every run a user's set expires exactly one session time after the user's last login |
| `SessionRaces.RevocationIsCompleteIff` | internal/auth/service.go:255-266 | a revocation of a complete index leaves it complete if and only if no session its user was issued between its halves is live at the second |
| `SessionRaces.IndexStaysCompleteIff` | internal/auth/service.go:255-266 | in every run the index of a user is complete after every step if and only if no revocation of the user erased while such a session was live |
| `PasswordResets.LiveExactlyWhileItSurvives` | internal/auth/service.go:240-266 | in every run a session is live if and only if it has not expired, been logged out, or been in what an erase had read |
| `PasswordResets.LiveWasIssuedAfterTheRead` | internal/auth/service.go:255-266 | after a revocation that read a complete index, whatever interleaves and follows, every live session of the user was issued after the read |
| `PasswordResets.OldPasswordLivesIff` | internal/auth/service.go:168-223 | over every interleaving of password checks, changes and session steps around a reset that reads a complete index: a password checked before a reset's change has a live session after the reset if and only if a login that passed its check before issued one after the read, before or after the erase, and it survives |
| `PasswordResets.ShutOutIff` | internal/auth/service.go:168-181 | at any moment, no continuation opens a session to a password checked before a given step if and only if none is live and no such login is still to issue its session |
| `PasswordResets.ResetShutsOutIff` | internal/auth/service.go:198-223 | when a reset that read a complete index has erased, it has shut the old passwords out for good if and only if none slipped through between its read and its erase and no login checked before its change is pending |
| `PasswordResets.AnOldPasswordCanLive` | internal/auth/service.go:177-214 | for all users, passwords and keys, both gaps: a login checks the old password, the reset changes, reads and erases, and the session issued before or after the erase is live although the stored password is another |
| `Sessions.Service.CreateSession` | internal/auth/service.go:326-339 | session, membership and expiry in one transaction, or nothing |
| `Sessions.Service.CurrentUser` | internal/auth/service.go:225-238 | a token stands for a known user exactly while its session lives |
| `Sessions.Service.Logout` | internal/auth/service.go:240-253 | with other requests between its lookup and its delete, removes the session and the membership of the owner it had found |
| `Sessions.Service.RevokeAllSessions` | internal/auth/service.go:255-266 | with a complete index no session of the user is left live, also when the delete's reply is lost |
| `Sessions.Service.ResetPassword` | internal/auth/service.go:198-223 | which step failed decides what is left: nothing changed, a new password with the old sessions, or no session; a success leaves exactly the new session live |

## Left out

- Charging.RunIsLedgered: for runs that submit each request once; Resubmission.HeldExactlyWhileItStands has no such restriction.
- Charging.RepliesAreChargedUnlessTheLeaseWasLost: for runs that submit each request once; with resubmissions the condition is the one of Resubmission.ReplyIsFreeExactlyWhenReleased.
- Charging.RepliesFitTheLimit: for runs that submit each request once; Resubmission.UnfailedRepliesFitTheLimit is the general bound.
- PasswordResets.OldPasswordLivesIff: the reset reads a complete index; when that is so is SessionRaces.IndexStaysCompleteIff, and PasswordResets.ShutOutIff has no such condition.
- HiddenDays.ClearedDayIsFoundIff: found means listed; which listed scopes are read back is ScopeKeys.ServedIsReadBackIff.
- Gateway.MoveKeepsSound: one ordinary user; a reservation that is made but whose reply is lost is an accepted handler lost before any worker begins, and one that never arrives is no move; a handler is answered before its ledger expires at the end of the following day, which holds for requests shorter than a day.
- AccessToken.NoStaleToken: the endpoint answers at once and honours a token for the announced time; a slow answer would shorten the real validity.
- NightlyJob.ScopesAreIndependent: scopes have stores and rows of their own in the model; that they share no Redis key is ScopeKeys.KeysAreSeparate.
- Maintenance.NothingIsLostOverNights: no turn is added or merged for the day between the attempts, since the nightly clear takes no lease.
- RequestOnce.RetryReturnsTheFirstBatch: the days of successive begins never go back, as with one clock.
- Sessions.IndexIsComplete: excludes logins between the halves of a revocation; SessionRaces.IndexStaysCompleteIff has the exact condition.
- Expiry of data keys after 72 hours: no modelled ledger or log is consulted that late. The lease, quota ledgers, sessions, tokens and limiter keys do expire.
- Redis faults inside a script: a script happens entirely or not at all; a lost reply is an error after a completed step.
- Random identifiers have the shape the program gives them but are assumed never drawn twice, SHA-256 and the session digest injective; the clock fallback for turn ids is not part of this model.
- JSON encoding, and with it the empty-array workarounds and decoding errors.
- Calendar formatting: days are numbered; every date text is taken to have ten characters.
- What the history and summaries that `Send` loads before it begins contain, and the cleaning of reply texts for the model, of which only the batch ids matter.
- The language model: plans, texts and summaries are arbitrary values or failures.
- The order of `ActiveScopes` and of the greeted owners.
- Deleting summaries older than seven days, the default creation time of archived turns, and the remaining columns of the archive tables.
- Verification codes, captchas and password hashing: their outcomes are parameters of a reset.
- Admin accounts in the gateway, which are not charged, and the gateway without a quota manager.
- The uuid library is not part of this model; its validation is taken to accept the canonical form, as a URN, in braces, or without dashes.
- HTTP, gRPC, message deduplication, the legacy reply path of the agent and the web interface.
