# Hazard alerts: a verified model of the ingest, the outbox and the notifications

The service ingests fires (EFFIS), earthquakes (IGN) and weather warnings (AEMET)
into Postgres, publishes an outbox event per batch, matches the batch with
subscriptions, and delivers what is new through ntfy and webhooks. This project
models the parts that are protocols or arithmetic and proves what they are for.
Every SQL transaction is one atomic step over maps and sets; every service or
repository class of the program is a class with methods proved against
specification functions, and the promises are lemmas about those functions, over
every input, every reachable state or every run.

| files | what they model |
|---|---|
| `EpisodeRule`, `Matching`, `EpisodeRepo`, `MatchBatch`, `MatchSoundness`, `MatchTransaction`, `MatchEffects` | the episode rule and the matcher transaction, concurrent commits, reruns, and what a batch does to each key |
| `DeliveryRepo`, `Deliver`, `DeliveryEffects`, `DeliveryRetries` | claim, send, record, purge, the admin orders, what each leaves for the next, and when a failing one is tried again |
| `NotificationTables`, `NotificationRuns`, `DeliveryGuarantees`, `Retention`, `SubscriptionHealth`, `DeliveryLeases` | the tables, every run of matchers, workers and admin, and what holds in all of them |
| `NotificationRaces`, `LoneSubscription` | when exactly the lease and the pause keep their promise, and the runs that break it |
| `Outbox`, `RetryEquivalence` | the outbox worker, and crashes and retries of a batch event |
| `Jobs` | the job scheduler: lease, recovery, fenced reschedule |
| `HazardTables`, `HazardEventRepo`, `SyncAemet`, `SupersededCounts`, `SyncEffis`, `SyncGuarantees`, `SyncRuns` | the upsert and the reconciliation of a table with a complete catalogue |
| `ListPage`, `Zones`, `CapUtf8` | keyset pages, yearly figures by zone, byte-bounded UTF-8 |

How runs are modelled: `NotificationRuns`, `Outbox`, `Jobs` and `SyncRuns` each
have a `World`, a `Step` with its `Enabled` condition, and `Next`; a run is any
sequence of enabled steps from the start. Deaths of workers, timeouts, late
retries and interleavings are steps. A matcher commits what it decided on an
earlier read, with only the rows it saw locked. Fields named `ledger`, `log`,
`accepted`, `dispatches`, `claims`, `recoveries`, `ticket`, `lastClaim`
and `aemetMark` are history variables that the program does not
store. Times are whole seconds. Database answers (a query result in some order,
which rows were locked) enter as parameters described by a predicate; so do
clocks, jitter, message ids and the success of a send.

## Promises that hold only under a condition

The model follows the code. Where a comment or a test promises more than the code
keeps, the condition is proved exact and a run or an input shows that it is needed.

- `app/notifications/use_cases/manage.py:126` wants nothing pending after a pause. A
  matcher that asked its query before the pause can still commit afterwards
  (`PauseRaceHappens`); a commit keeps the promise exactly under
  `CommitKeepsPausedEmptyIff`, and every run does in which no matched subscription
  is paused between query and commit (`FreshReadsKeepPausedEmpty`).
- `app/notifications/repos/delivery.py:40-43` calls retry_at a lease. By itself it
  keeps claims apart exactly if deliveries end within 60 s of their claim and no
  resume hits a claim in flight (`ExclusiveIff`, with the runs
  `LongDeliveriesOverlap` and `ResumeBreaksTheLease`). The program makes all
  deliveries in one job, `app/core/jobs/handlers/notifications_deliver.py`, so the
  lease of that job is what keeps them apart: as long as it covers the execution,
  no assumption on resumes or on the 60 s is needed (`OneJobKeepsClaimsApart`).
- `app/notifications/repos/delivery.py:143-147` does not look at the status: recording
  a message after a pause turns its failed rows into sent ones, exactly those the
  message carried (`FailedTurnsSentIff`, with the run `LateMessageIsRecorded`). The
  message was accepted, so `RunsAreTruthful` holds all the same.
- `app/hazards/use_cases/sync_aemet.py:80` lets every level but verde through, and
  `app/hazards/services/severity.py:48-53` knows four: a warning with any other level
  aborts the sync of its whole bulletin (`UnknownLevelAborts`; `ReadableIff` says
  exactly which bulletins can be ingested).
- `app/hazards/use_cases/sync_aemet.py:95-100` counts a row once per group that
  lowers it, so the reported count depends on the order of the messages, though the
  table does not (`CountDependsOnOrder`). It is the number of rows closed exactly
  when the first group that cuts a row is also its earliest
  (`SupersededCountIsExactIff`, `ReportedIsExactIff`).
- `app/core/events/worker.py:118-122` makes one dispatch even with max_retries = 0
  (`ZeroRetriesStillDispatch`): the bound is max(1, max_retries).
- An AEMET bulletin served twice is silent exactly under `RepeatIsSilentIff`; an
  alert still served with the update that replaces it is not (`ServedWithItsUpdate`).
- `app/core/config.py:140-152` compares budget plus one send with the job's timeout,
  which also covers the claim transaction before the loop: every attempt fits
  exactly if that transaction takes no longer than the difference
  (`CheckedSettingsFit`).

## Model

| member | source | states |
|---|---|---|
| `EpisodeRule.KeyTellsSource` | app/notifications/services/episodes.py:28-34 | Equal keys come from one source, and from one external id unless it is AEMET: sources never share an episode. |
| `EpisodeRule.UpdatesShareTheEpisode` | app/notifications/services/episodes.py:31-33 | Two AEMET messages of one phenomenon have the same key whatever their identifiers and whatever follows the semicolon. |
| `EpisodeRule.KeyIsReadFrom` | app/notifications/services/episodes.py:28-34 | The text of a key: for AEMET the phenomenon, or the event without one, or desconocido without both, before its semicolon and stripped; elsewhere source and external id. |
| `EpisodeRule.GraceIsExact` | app/notifications/services/episodes.py:37-52 | OPEN iff nothing is open or expires_at + grace <= batch_at, never when the open episode has no expiry; otherwise ESCALATE iff the severity exceeds the one notified, else TOUCH. |
| `EpisodeRule.RuleOfEpisodes` | app/notifications/services/episodes.py:37-52 | Currency, and with it ESCALATE, can only be lost as the batch mark grows, never regained; a TOUCH stays a TOUCH at any lower severity. |
| `Matching.MatchListIsGrounded` | app/notifications/repos/matching.py:30-40 | Whatever order the database picks: severities lie in 1-4, AEMET matches end after the mark, EFFIS matches are open burnt areas, and without active subscriptions there are none. |
| `Matching.SameMatches` | app/notifications/repos/matching.py:64-98 | Two answers to the same query hold the same matches. |
| `Matching.MatchedExactly` | app/notifications/repos/matching.py:30-98 | The list holds exactly the pairs of an active subscription and an event stamped by the batch that meet type, severity_min, area, and by source the end, the burnt area or the age of an earthquake; per subscription worst first, then by start. |
| `Matching.MatchedOnce` | app/notifications/repos/matching.py:64-98 | Nobody is told of an event twice in one batch. |
| `EpisodeStatements.EpisodeRepo.OpenEpisodes` | app/notifications/repos/episode.py:20-44 | Returns exactly the open episode of each wanted key that has one. |
| `EpisodeStatements.EpisodeRepo.Open` | app/notifications/repos/episode.py:55-85 | Inserts one row with a fresh id exactly when the subscription exists and the key has no open episode; otherwise raises and leaves the tables as they were. |
| `EpisodeStatements.EpisodeRepo.Refresh` | app/notifications/repos/episode.py:87-102 | Severity, last match and (if given) expiry become the greatest of stored and new; nothing else moves. |
| `EpisodeStatements.EpisodeRepo.Close` | app/notifications/repos/episode.py:46-53 | Closes the row only if it is open. |
| `EpisodeStatements.EpisodeRepo.AddDelivery` | app/notifications/repos/episode.py:104-128 | Inserts a pending row unless (episode, severity) exists, and tells which. |
| `MatchBatch.MatchBatchUseCase.Execute` | app/notifications/use_cases/match_batch.py:49-109 | The loops over dict and repositories compute the transaction `Matched`, in tables, returned count and raised error; with no active subscription that is no change. |
| `MatchBatch.MatchBatchUseCase.ApplyAll` | app/notifications/use_cases/match_batch.py:72-109 | The loop over groups is the fold of the group rule and raises with the first group that does. |
| `MatchBatch.MatchBatchUseCase.ApplyOne` | app/notifications/use_cases/match_batch.py:73-108 | The body of that loop, statement by statement, is one application of the group rule. |
| `MatchBatch.MatchBatchUseCase.Collect` | app/notifications/use_cases/match_batch.py:59-66 | The dict filled by the first loop has the keys in first-seen order, each with its group. |
| `MatchBatch.MatchBatchUseCase.AddToGroup` | app/notifications/use_cases/match_batch.py:60-66 | One match extends only the group of its own key, opening it if need be. |
| `MatchBatch.MatchBatchUseCase.Widen` | app/notifications/use_cases/match_batch.py:63-66 | The group takes the greater severity, the later AEMET expiry, and the match. |
| `MatchBatch.GroupsStopAtError` | app/notifications/use_cases/match_batch.py:94-100 | A group that raises decides the whole transaction. |
| `MatchSoundness.FirstSeenIsKeySet` | app/notifications/use_cases/match_batch.py:59-62 | The groups are exactly the distinct keys of the matches. |
| `MatchSoundness.GroupsComeFirstSeen` | app/notifications/use_cases/match_batch.py:59-62 | And they come in the order of their first matches. |
| `MatchSoundness.GroupSeverityIsExact` | app/notifications/use_cases/match_batch.py:62-64 | A group holds exactly the matches of its key and its severity is their maximum. |
| `MatchSoundness.GroupExpiryIsExact` | app/notifications/use_cases/match_batch.py:65-66 | A group expires at the latest end of its AEMET matches, and never without one. |
| `MatchSoundness.PhotoShowsTheWorst` | app/notifications/use_cases/match_batch.py:101-107 | The truncated items are never empty and begin with a match of the announced severity, because of the query order. |
| `MatchSoundness.GroupEffect` | app/notifications/use_cases/match_batch.py:72-108 | One turn keeps the tables sound, moves only its own key, leaves it covered by an open episode, and inserts a delivery exactly when the rule opens or escalates. |
| `MatchSoundness.RungIsFresh` | app/notifications/repos/episode.py:114-128 | A severity about to be announced never has a delivery of that episode yet: the conflict branch is never taken. |
| `MatchTransaction.LateCommitIsAtomic` | app/notifications/use_cases/match_batch.py:68-109 | A matcher that decided on an earlier read, with only the rows it saw locked, either raises or does exactly what it would do on the tables it commits to. |
| `MatchTransaction.MatchKeepsSound` | app/notifications/use_cases/match_batch.py:49-109 | A committed matcher keeps every table invariant, removes no row, and covers every group. |
| `MatchTransaction.CountsNotifyingGroups` | app/notifications/use_cases/match_batch.py:71-109 | The count returned is the number of groups that open or escalate, and as many delivery rows appear. |
| `MatchTransaction.CoveredBatchIsNoOp` | app/notifications/use_cases/match_batch.py:75-82 | A batch whose groups are covered by open episodes leaves the tables identical and counts 0. |
| `MatchTransaction.SubsetIsCovered` | app/notifications/use_cases/match_batch.py:59-66 | Fewer matches make weaker groups: covered stays covered. |
| `MatchTransaction.RerunIsNoOp` | app/notifications/use_cases/match_batch.py:59-109 | Rerunning a matched batch later is a complete no-op while its episodes are open, whatever else committed in between. |
| `MatchEffects.EachKeyByItself` | app/notifications/use_cases/match_batch.py:72-108 | For each key of a committed batch: an open episode with batch_at < expires_at + grace stays open, is widened, and gains a delivery iff the severity rises; else it is closed at the mark and a new one opens with its delivery, of at most 20 items. Other keys keep their rows. |
| `MatchEffects.LastingTurn` | app/notifications/use_cases/match_batch.py:73-90 | In one turn an episode that lasts keeps next id and closed_at, and the deliveries change iff the severity exceeds the one notified. |
| `MatchEffects.OpeningTurn` | app/notifications/use_cases/match_batch.py:83-108 | In one turn without an episode that lasts, the open one of the key is closed at the mark and one row and one delivery appear. |
| `NotificationTables.LadderIsShort` | app/notifications/repos/episode.py:55-128 | A ladder of strictly rising severities in 1-4 has at most four rungs and ends at its greatest. |
| `NotificationRuns.StepShrinks` | app/notifications/use_cases/deliver.py:61-84 | Claim, record, purge and the admin orders never add, reopen or alter episode rows, and touch only the status fields of deliveries. |
| `NotificationRuns.StepKeepsSound` | app/notifications/repos/episode.py:55-128 | Every committed step of matchers, delivery workers and admin keeps the invariants, and episodes only grow. |
| `NotificationRuns.RunsAreSound` | app/notifications/repos/episode.py:55-128 | In every state of every run: one open episode per (subscription, key); per episode one opened delivery, then escalated ones of strictly rising severity ending at notified_severity, at most four. |
| `NotificationRuns.RunsEvolve` | app/notifications/repos/episode.py:87-102 | Over any stretch of a run ids are not reused, keys do not change, closed stays closed, severity, expiry and last match never fall. |
| `NotificationRuns.LateRetryIsNoOp` | app/notifications/use_cases/match_batch.py:49-109 | A batch committed at one step and retried at any later one is a no-op while its episodes are open. |
| `DeliveryStatements.DeliveryRepo.Claim` | app/notifications/repos/delivery.py:37-133 | The three loops lease the chosen subscriptions, count an attempt on each of their pending rows, and return the claims with the previous retry_at; `ClaimWrites` says what that leaves. |
| `DeliveryStatements.DeliveryRepo.TakeLeases` | app/notifications/repos/delivery.py:74-75 | The loop leases exactly the chosen subscriptions, each once, and nothing else moves. |
| `DeliveryStatements.DeliveryRepo.CountAttempts` | app/notifications/repos/delivery.py:104-105 | Exactly the listed rows get one more attempt. |
| `DeliveryStatements.DeliveryRepo.GroupRows` | app/notifications/repos/delivery.py:108-119 | The dict maps each subscription that has rows to its rows, in query order. |
| `DeliveryEffects.SentRests` | app/notifications/repos/delivery.py:135-158 | Recording a message takes exactly its rows out of the queue; the subscription cannot be claimed before the minimum interval, and then exactly if it is active and other rows are pending. |
| `DeliveryStatements.DeliveryRepo.MarkFailed` | app/notifications/repos/delivery.py:160-179 | Counts the failure and pauses, failing what is pending, exactly when the streak is at least pause_after old; a removed subscription changes nothing. |
| `DeliveryEffects.FailPendingEmptiesTheQueue` | app/notifications/repos/delivery.py:181-189 | The subscription cannot be claimed until a new row appears; settled rows and the queues of others stay, and failing again changes nothing. |
| `DeliveryEffects.ReleaseUndoesClaim` | app/notifications/repos/delivery.py:191-198 | Claiming and then releasing every claim leaves the subscriptions exactly as before; only the attempts of the rows are counted. |
| `DeliveryEffects.PurgeIsExact` | app/notifications/repos/delivery.py:200-225 | An episode survives iff it was matched, closed or in force since the cutoff or has something pending, a delivery iff it is pending or as recent and its episode survives; survivors are untouched and purging again takes nothing. |
| `Retention.RecordLeavesRecent` | app/notifications/repos/delivery.py:200-225 | When a delivery run ends every episode was matched, closed or in force within the retention or has something pending, and every delivery is pending or was sent, or else created, within it. |
| `Retention.GoneEpisodeWasPast` | app/notifications/repos/delivery.py:200-225 | Over any stretch of any run, an episode that is gone went with its subscription, or more than the retention after it was closed or last matched and after its phenomenon. |
| `Retention.GoneDeliveryWasPast` | app/notifications/repos/delivery.py:200-225 | The same of a delivery, sent, or else created, before the retention, or of such an episode. |
| `DeliveryStatements.BackoffDoubles` | app/notifications/repos/delivery.py:22-26 | 60 s at first, doubled per failure under a cap of 3600 s reached exactly from the sixth on. |
| `DeliveryStatements.ClaimsAreExact` | app/notifications/repos/delivery.py:108-133 | A claim carries exactly the pending rows of its subscription, at least one: the lookup in the dict never fails. |
| `DeliveryRetries.ClaimWrites` | app/notifications/repos/delivery.py:73-106 | A claim puts retry_at of each chosen subscription to now + min(60 x 2^n, 3600) for its n consecutive failures and counts one attempt of each of its pending rows; every other field, subscription and row stays. |
| `DeliveryRetries.ClaimIsFair` | app/notifications/repos/delivery.py:49-103 | It takes only active subscriptions past their wait and interval with something pending, the longest without a message first, and leaves one out only if it is locked or the limit is reached; rows come worst first, then oldest. |
| `DeliveryRetries.FailingWaitsItsTurn` | app/notifications/repos/delivery.py:22-75 | In every run: after a claim of a subscription whose log ends in n failures no later claim takes it before min(60 x 2^n, 3600) s, unless it is released, recorded as sent or resumed. |
| `Deliver.DeliverNotificationsUseCase.SendAll` | app/notifications/use_cases/deliver.py:86-105 | One outcome per claim, in order; a claim is skipped exactly when it is not the first and the deadline has passed. |
| `Deliver.DeliverNotificationsUseCase.Record` | app/notifications/use_cases/deliver.py:125-151 | Applies every outcome in order; the report counts sent, failed and skipped outcomes and the pauses exactly. |
| `Deliver.DeliverNotificationsUseCase.RecordOne` | app/notifications/use_cases/deliver.py:128-151 | Each kind of outcome runs its own statement and its own counter; paused counts exactly the failures that pause. |
| `Deliver.SubscriptionAdmin.Pause` | app/notifications/use_cases/manage.py:121-128 | Not found, or paused with its pending rows failed. |
| `Deliver.SubscriptionAdmin.Resume` | app/notifications/use_cases/manage.py:130-139 | Not found, or active with streak and lease cleared. |
| `DeliveryEffects.RemovalIsFinal` | app/notifications/use_cases/manage.py:141-145 | Nothing of the subscription is left, nothing of another is touched, and a worker that still holds its claim changes nothing when it records. |
| `DeliveryEffects.ResumeFrees` | app/notifications/use_cases/manage.py:130-139 | A resumed subscription is active without streak and can be claimed at once, up to the minimum interval, iff it has something pending; the rest stays. |
| `DeliveryEffects.PauseStops` | app/notifications/use_cases/manage.py:121-128 | A paused subscription cannot be claimed and has nothing pending; the other queues stay. |
| `DeliveryEffects.OutcomesTell` | app/notifications/use_cases/deliver.py:86-105 | A claim is tried iff it is the first or the deadline has not passed, and is then sent iff the channel accepts it; no two claims share a message. |
| `Deliver.SkippedAreLast` | app/notifications/use_cases/deliver.py:86-105 | Skipped claims are a suffix and the first claim is always tried. |
| `Deliver.AttemptsFitIff` | app/notifications/use_cases/deliver.py:86-105 | Every attempt ends within the job timeout, whatever the claims and the clock, iff what precedes the loop, the budget and one last send fit in it. |
| `Deliver.CheckedSettingsFit` | app/core/config.py:140-152 | The checked settings leave the claim transaction exactly the difference between the timeout and budget plus send. |
| `DeliveryGuarantees.RunsAreTruthful` | app/notifications/repos/delivery.py:135-147 | In every reachable state a sent row names a message that the sender accepted, for its subscription, and that contained it. |
| `DeliveryGuarantees.PurgeSparesPending` | app/notifications/repos/delivery.py:200-225 | No purge removes a pending row or its episode. |
| `DeliveryGuarantees.PendingStaysOrLeaves` | app/notifications/use_cases/deliver.py:125-151 | In one step a pending row leaves pending only by an accepted message that carried it, a pause, or removal of its subscription. |
| `DeliveryGuarantees.ClaimsHoldOldRows` | app/notifications/repos/delivery.py:87-133 | A row that was not in the tables when a run claimed is never in the claims of that run. |
| `DeliveryGuarantees.LaterRowsAreSpared` | app/notifications/use_cases/deliver.py:125-151 | So recording that run does not send it, and leaves it pending unless a failure recorded there pauses its subscription. |
| `DeliveryGuarantees.FailedTurnsSentIff` | app/notifications/repos/delivery.py:143-147 | Recording turns a failed row into a sent one exactly when a message accepted in that run carried it; otherwise the row stays as it was. |
| `NotificationRaces.LateMessageIsRecorded` | app/notifications/repos/delivery.py:143-147 | A run of it: claim, accepted message, pause, record; the failed row ends as sent. |
| `DeliveryGuarantees.NothingIsLost` | app/notifications/use_cases/deliver.py:61-84 | The same over any stretch of any run with workers dying between claim, send and record. |
| `DeliveryGuarantees.OutcomesFate` | app/notifications/use_cases/deliver.py:128-151 | Recording leaves alone a pending row that is in no accepted message and whose subscription it does not pause. |
| `SubscriptionHealth.RunsTellStreaks` | app/notifications/repos/delivery.py:149-171 | In every reachable state consecutive_failures counts the failures since the last success or resume and failing_since is the time of the first; positive iff set. |
| `SubscriptionHealth.AutoPauseIsExact` | app/notifications/repos/delivery.py:167-179 | A recorded failure pauses iff the streak has lasted pause_after, and then nothing is pending; otherwise status and deliveries stay, also of a subscription paused meanwhile. |
| `SubscriptionHealth.StepKeepsPausedEmpty` | app/notifications/use_cases/manage.py:121-139 | Delivery and admin steps never leave a paused subscription with a pending row. |
| `SubscriptionHealth.CommitKeepsPausedEmptyIff` | app/notifications/use_cases/match_batch.py:51-108 | A matcher commit keeps that exactly when no group that opens or escalates belongs to a subscription paused by then. |
| `SubscriptionHealth.PausedStayEmpty` | app/notifications/use_cases/manage.py:126-127 | In every run whose matcher commits meet that condition, a paused subscription holds nothing pending. |
| `SubscriptionHealth.FreshReadsKeepPausedEmpty` | app/notifications/use_cases/manage.py:126-127 | In every run in which each commit answers a query of an earlier state, and none of the matched subscriptions is paused in between, a paused subscription holds nothing pending. |
| `NotificationRaces.PauseRaceHappens` | app/notifications/use_cases/manage.py:126-127 | A run that breaks it: the query is answered, a pause commits, the matcher commits that answer, and the paused subscription ends with a pending row. |
| `DeliveryLeases.RunsKeepLeases` | app/notifications/repos/delivery.py:40-75 | If runs end within 60 s of their claim and nobody resumes a subscription in flight, at most one claim per subscription is in flight across all workers, each with a live lease. |
| `DeliveryLeases.MessagesAreSpaced` | app/notifications/repos/delivery.py:56-59 | In such runs the claim behind a recorded message comes at least the minimum interval after every earlier recorded message. |
| `DeliveryLeases.RunsRetryWithinAnHour` | app/notifications/repos/delivery.py:74-75 | In every run, whatever the timing, retry_at is at most an hour after the last claim. |
| `DeliveryLeases.ReleasedIsClaimable` | app/notifications/repos/delivery.py:191-198 | A claim skipped by the budget leaves its subscription claimable at once, if still active and with pending rows. |
| `DeliveryLeases.ChosenAreFree` | app/notifications/repos/delivery.py:53-61 | A claim never takes a subscription whose claim is in flight. |
| `DeliveryLeases.OneRunIsExclusive` | app/notifications/repos/delivery.py:40-75 | With at most one delivery run live at a time, no subscription is in two claims at once, with no assumption on duration or resumes. |
| `DeliveryLeases.OneRunIsSpaced` | app/notifications/repos/delivery.py:56-59 | And its recorded messages keep the minimum interval. |
| `NotificationRaces.ExclusiveIff` | app/notifications/repos/delivery.py:40-75 | By retry_at alone: in all runs whose deliveries end within d of their claim, with or without resumes in flight, no subscription is in two claims at once iff d is within the 60 s lease and there are no such resumes. |
| `NotificationRaces.LongDeliveriesOverlap` | app/notifications/repos/delivery.py:53-75 | A run without resumes in which a delivery longer than 60 s is claimed again. |
| `NotificationRaces.ResumeBreaksTheLease` | app/notifications/use_cases/manage.py:130-139 | A run in which a resume frees a subscription whose claim is in flight. |
| `NotificationRaces.OneJobOneRun` | app/core/jobs/handlers/notifications_deliver.py:17-21 | All deliveries are made by one job, so while that job lease covers its executions at most one run is live. |
| `NotificationRaces.OneJobKeepsClaimsApart` | app/core/jobs/handlers/notifications_deliver.py:17-21 | Then claims are exclusive and messages spaced in the whole run, with no assumption on resumes nor on the 60 s. |
| `Outbox.EventDispatcher.Register` | app/core/events/dispatcher.py:46-54 | Appends the handler to its event type only. |
| `Outbox.EventDispatcher.Dispatch` | app/core/events/dispatcher.py:56-94 | One result per handler, in order: skipped if completed, else called and successful unless it raised; the calls are those handlers, in order. |
| `Outbox.OutboxWorker.HandleEvent` | app/core/events/worker.py:90-145 | The statements of the worker write the row that `RetryIsScheduled` and `DispatchGrows` describe, and exactly the handlers not completed are called. |
| `Outbox.CalledExactly` | app/core/events/dispatcher.py:76-92 | With distinct names, each handler not completed is called exactly once and no completed one is. |
| `Outbox.MergedTells` | app/core/events/worker.py:101-111 | A called handler gets the new outcome and time; every other entry stays. |
| `Outbox.DispatchGrows` | app/core/events/worker.py:90-143 | Completed handlers only grow, and by registered ones; PROCESSED iff there is a handler and all are completed; FAILED iff not and the retries are used up. |
| `Outbox.RetryIsScheduled` | app/core/events/worker.py:113-135 | A dispatch that leaves the event PENDING counts one retry and puts scheduled_at to now + min(2^k + jitter, 3600) for its new retry_count k; one that ends it leaves scheduled_at and marks the time iff PROCESSED. |
| `Outbox.StepKeepsLife` | app/core/events/worker.py:68-145 | Every step keeps the life invariant; PROCESSED and FAILED rows do not change. |
| `Outbox.RunsKeepLife` | app/core/events/worker.py:68-145 | In every run: no event is held by two workers, retry_count tells the committed dispatches, and these never exceed max(1, max_retries). |
| `Outbox.DispatchesAreSpaced` | app/core/events/worker.py:118-135 | In every run: between the k-th committed dispatch of an event and the next at least min(2^k, 3600) s pass. |
| `Outbox.OvertakenOnce` | app/core/events/worker.py:76-89 | In every run: while an event is due and undispatched, another event that was dispatched is not grabbed again unless the waiting one is in the hands of a worker: workers take what is due longest. |
| `Outbox.FirstPublishedFirst` | app/core/events/worker.py:76-89 | Among events never dispatched a worker takes the later one only while another holds the earlier. |
| `Outbox.DeadWorkersEventIsFree` | app/core/events/worker.py:68-89 | The event of a worker that died is as it was and no longer held; the other workers keep theirs. |
| `Outbox.EventsOnlyProgress` | app/core/events/worker.py:91-115 | Over any stretch of a run completed handlers stay completed and final rows stay as they are. |
| `Outbox.ZeroRetriesStillDispatch` | app/core/events/worker.py:118-122 | With max_retries = 0 one dispatch is still made, and fails the event. |
| `RetryEquivalence.AloneNeverRaises` | app/notifications/use_cases/match_batch.py:94-100 | Without another transaction in between a matcher always commits. |
| `RetryEquivalence.RetriesEqualOneRun` | app/core/events/worker.py:90-145 | Any sequence of failures, timeouts and crashes leaves the tables as they were or exactly as one clean run of the matcher would. |
| `RetryEquivalence.DoneMeansMatched` | app/core/events/worker.py:113-115 | The matcher is recorded as done, or the event PROCESSED, only after the matcher committed. |
| `RetryEquivalence.DoneNeverRunsAgain` | app/core/events/dispatcher.py:70-78 | Once the matcher is recorded as done, no attempt changes the tables any more, whatever it queries. |
| `RetryEquivalence.ProcessedMeansOneCleanRun` | app/core/events/worker.py:113-115 | A PROCESSED batch event means the tables of exactly one clean run. |
| `Jobs.JobWorker.RecoverStaleJobs` | app/core/jobs/worker.py:66-80 | No stale row is left, and the count is the number of rows that changed. |
| `Jobs.JobWorker.Claim` | app/core/jobs/worker.py:107-131 | Takes the row only if it is PENDING and due; returns its interval exactly then. |
| `Jobs.JobWorker.Reschedule` | app/core/jobs/worker.py:155-175 | Reschedules only a row this worker owns and tells whether it did. |
| `Jobs.RowsWritten` | app/core/jobs/worker.py:107-175 | What claim and reschedule leave in every field of the row, also of the row of a worker that lost it. |
| `Jobs.RunsStayConsistent` | app/core/jobs/worker.py:107-175 | In every run, whatever the timing: RUNNING iff claimed_by iff lease_until; claims == run_count + recoveries + running; claimed_by acts as an exact fencing token. |
| `Jobs.LateRescheduleChangesNothing` | app/core/jobs/worker.py:149-175 | A worker that lost its row changes no job; one that did not adds exactly one to run_count and touches only that job. |
| `Jobs.JobsWaitTheirInterval` | app/core/jobs/worker.py:107-167 | In every run of freshly seeded jobs, deaths and recoveries included, no job is claimed before a whole interval has passed since its last run ended. |
| `Jobs.DeadJobsComeBack` | app/core/jobs/worker.py:66-80 | A RUNNING job is made claimable at once by a recovery exactly when its lease is over. |
| `Jobs.RecoveryHeals` | app/core/jobs/worker.py:62-80 | After a recovery every RUNNING row has a live lease and is as before; recovering again changes nothing. |
| `Jobs.RunsAreExclusive` | app/core/jobs/worker.py:149-160 | With executions no longer than the lease no two workers run one job and every worker at work owns its row. |
| `Jobs.LongExecutionsOverlap` | app/core/jobs/worker.py:66-80 | With longer executions there is a run in which two workers run one job. |
| `Jobs.ExclusiveIffLeaseCovers` | app/core/jobs/worker.py:149-160 | Exclusion holds in all runs exactly when the lease covers the longest execution. |
| `Jobs.ValidSettingsAreSafe` | app/core/config.py:132-138 | The start-up check lease >= 2 x timeout suffices when the overhead fits in one timeout. |
| `HazardTables.SourceSyncStateRepo.RecordSuccess` | app/hazards/repos/sync_state.py:20-36 | A success resets error and streak and replaces the cursor only if one is given. |
| `HazardTables.SourceSyncStateRepo.RecordFailure` | app/hazards/repos/sync_state.py:38-55 | A failure counts one and never touches cursor or last success. |
| `HazardEvents.HazardEventRepo.Dedupe` | app/hazards/repos/hazard_event.py:92-102 | The dict keeps each key at its first place with its last row. |
| `HazardEvents.HazardEventRepo.UpsertBatch` | app/hazards/repos/hazard_event.py:79-126 | The chunks together leave the table of one statement over the last occurrence of each key, and count exactly the new keys and the keys whose hash or end differs. |
| `HazardEvents.HazardEventRepo.UpsertChunks` | app/hazards/repos/hazard_event.py:103-126 | Each statement has distinct keys and at most 32767 arguments; the chunks add up. |
| `HazardEvents.HazardEventRepo.Execute` | app/hazards/repos/hazard_event.py:108-125 | One statement; its requires are the limits of the driver and of ON CONFLICT. |
| `HazardEvents.HazardEventRepo.CloseEvents` | app/hazards/repos/hazard_event.py:138-160 | Every named row of the source ends at the earlier of its end and the given time, and the count is the number of rows that changed. |
| `HazardEvents.DedupeKeepsLast` | app/hazards/repos/hazard_event.py:92-102 | Keys distinct and the same as before, and for each its last occurrence. |
| `HazardEvents.NextChunk` | app/hazards/repos/hazard_event.py:105-126 | Two chunks without a common key are one statement, in rows and counts. |
| `HazardEvents.BatchIsOneByOne` | app/hazards/repos/hazard_event.py:79-126 | The whole upsert equals upserting the last occurrences one at a time, in rows and counts. |
| `HazardEvents.RepeatIsNoOp` | app/hazards/repos/hazard_event.py:82-84 | Repeating a batch changes nothing and counts (0, 0). |
| `HazardEvents.ServedIsStored` | app/hazards/repos/hazard_event.py:110-119 | A served key ends with the served window and content, keeping created_at; other keys do not move. |
| `HazardEvents.LoweredTwice` | app/hazards/repos/hazard_event.py:138-160 | Closings commute and add up to the earliest. |
| `HazardEvents.ClosedLowers` | app/hazards/repos/hazard_event.py:143-160 | A closing lowers each end to the given time or leaves it; the rows it reports are exactly those it changes. |
| `HazardEvents.UpsertStamps` | app/hazards/repos/hazard_event.py:110-119 | An upsert marks what it changes, and counts (0, 0) exactly when it changes nothing. |
| `HazardEvents.FreshMarkIsExact` | app/hazards/repos/hazard_event.py:128-136 | With a fresh mark the rows that bear it are exactly those that changed. |
| `SyncAemet.SyncAemetUseCase.Execute` | app/hazards/use_cases/sync_aemet.py:42-74 | Raises without writing exactly when the fetch failed or an ingestible warning has no row; otherwise table, cursor, counts and event are those of the specification. |
| `SyncAemet.SyncAemetUseCase.Reconcile` | app/hazards/use_cases/sync_aemet.py:46-66 | What follows once every row is made: upsert, both closings, cursor and event, as specified. |
| `SyncAemet.SyncAemetUseCase.Filter` | app/hazards/use_cases/sync_aemet.py:45 | Keeps, in order, the Alert and Update messages with onset, expiry, polygon and a level that is not empty and not verde. |
| `SyncAemet.SyncAemetUseCase.ToRows` | app/hazards/use_cases/sync_aemet.py:114-117 | Succeeds exactly when every warning has a row. |
| `SyncAemet.SyncAemetUseCase.CloseSuperseded` | app/hazards/use_cases/sync_aemet.py:88-100 | Grouping by sent and closing group by group cuts every row at its earliest superseding message; the count adds up the groups in dict order and is 0 iff nothing changed. |
| `SyncAemet.SyncAemetUseCase.GroupBySent` | app/hazards/use_cases/sync_aemet.py:91-94 | The loop fills the dict in first-seen order of sent. |
| `SyncAemet.SyncAemetUseCase.CloseVanished` | app/hazards/use_cases/sync_aemet.py:102-112 | Closes at the mark what the cursor had and the bulletin no longer ingests. |
| `SyncAemet.DictHoldsReferences` | app/hazards/use_cases/sync_aemet.py:91-94 | For every id the groups that name it are exactly the sent times of the Update and Cancel messages that reference it. |
| `SyncAemet.GroupsAreClosings` | app/hazards/use_cases/sync_aemet.py:91-99 | Groups closed in any order give the pointwise minimum. |
| `SyncAemet.OrderDoesNotMatter` | app/hazards/use_cases/sync_aemet.py:91-99 | The order of the groups does not change the table. |
| `SupersededCounts.CountDependsOnOrder` | app/hazards/use_cases/sync_aemet.py:95-100 | Two bulletins with the same two messages in different order leave one table but report two rows closed, or one. |
| `SupersededCounts.CountIsExactIff` | app/hazards/use_cases/sync_aemet.py:95-100 | The groups report each row they change at least once, and exactly once iff the first group that cuts a row is also its earliest. |
| `SupersededCounts.SupersededCountIsExactIff` | app/hazards/use_cases/sync_aemet.py:88-100 | The same of a bulletin, on the ids, sent times and stored ends before the closing. |
| `SupersededCounts.ReportedIsExactIff` | app/hazards/use_cases/sync_aemet.py:47-50 | The number a sync reports as closed is the number of rows its closing phase changes iff that holds and no vanished row was superseded at a later time than the mark. |
| `SyncAemet.CountsWhatChanged` | app/hazards/use_cases/sync_aemet.py:95-100 | It is 0 exactly when nothing changed. |
| `SyncAemet.ClosedCountZero` | app/hazards/use_cases/sync_aemet.py:49-50 | The closing phase reports 0 rows exactly when it changes none. |
| `SyncAemet.ClosingPhase` | app/hazards/use_cases/sync_aemet.py:49-50 | Both closings together cut each row once, at the earliest of its times. |
| `SyncGuarantees.ReadableIff` | app/hazards/use_cases/sync_aemet.py:76-117 | A bulletin can be ingested iff every ingestible warning has a usable polygon and the level amarillo, naranja or rojo. |
| `SyncGuarantees.IngestedExactly` | app/hazards/use_cases/sync_aemet.py:42-86 | Cursor and upserted keys hold an id iff the bulletin serves it in a complete Alert or Update whose level normalizes to amarillo, naranja or rojo. |
| `SyncGuarantees.StoredExactly` | app/hazards/use_cases/sync_aemet.py:42-86 | A sync inserts a key only if it was served so, and every key served so is in the table afterwards. |
| `SyncGuarantees.LevelIsRead` | app/hazards/services/severity.py:48-53 | The normalized level is the text without surrounding white space, letter by letter in lower case. |
| `SyncGuarantees.RowTellsTheWarning` | app/hazards/use_cases/sync_aemet.py:114-152 | The row starts at onset, ends at expires, has severity 4, 3 or 2 for rojo, naranja or amarillo, the polygon, and every attribute of the warning and its info. |
| `SyncGuarantees.SameWarningIff` | app/hazards/use_cases/sync_aemet.py:114-152 | Two warnings have one hash iff polygon, attributes, onset and expires agree. |
| `SyncGuarantees.UnknownLevelAborts` | app/hazards/services/severity.py:48-53 | One warning with a level outside the four passes the filter and aborts the whole bulletin. |
| `SyncGuarantees.RowAfterSync` | app/hazards/use_cases/sync_aemet.py:42-112 | Each row ends at the minimum of its served (or stored) end, every message superseding it, and the mark if it vanished; other sources do not move. |
| `SyncGuarantees.EndsAreExact` | app/hazards/use_cases/sync_aemet.py:88-112 | The end of a row is at most the sent time of every Update or Cancel that references it, and the mark if it vanished; and it is one of these or the served (or stored) end. |
| `SyncGuarantees.RepeatIsSilentIff` | app/hazards/use_cases/sync_aemet.py:42-74 | Serving the identical bulletin next counts (0, 0, 0) and publishes nothing iff no ingested warning is superseded in that bulletin before it expires; then the table is unchanged. |
| `SyncGuarantees.ServedWithItsUpdate` | app/hazards/use_cases/sync_aemet.py:88-100 | A bulletin that still serves an alert together with the update that replaces it is such a case. |
| `SyncGuarantees.SilentIsZero` | app/hazards/use_cases/sync_aemet.py:56-66 | The counts are (0, 0, 0) exactly when neither the upsert nor the closing phase changes a row. |
| `SyncGuarantees.AemetEventIff` | app/hazards/use_cases/sync_aemet.py:56-66 | With a fresh mark: stamped rows are exactly those inserted, updated or closed, and one event with the counts is published iff there is one. |
| `SyncGuarantees.EffisEventIff` | app/hazards/use_cases/sync_effis.py:53-63 | The same for an EFFIS batch. |
| `SyncEffis.SyncEffisUseCase.Execute` | app/hazards/use_cases/sync_effis.py:41-71 | Raises without writing exactly when the fetch failed or a record has no row; otherwise table, cursor, counts and event are those of the specification. |
| `SyncEffis.SyncEffisUseCase.ToRows` | app/hazards/use_cases/sync_effis.py:44 | Succeeds exactly when every record has a row. |
| `SyncEffis.RowTellsTheFire` | app/hazards/use_cases/sync_effis.py:85-112 | The row starts when observed, ends there iff it is a hotspot, and has severity 4 from 5000 ha of burnt area, 3 from 500, else 2. |
| `SyncEffis.SameFireIff` | app/hazards/use_cases/sync_effis.py:85-112 | Two fires have one hash iff geometry, attributes, area and observation time agree. |
| `SyncEffis.SyncEffisUseCase.CloseVanished` | app/hazards/use_cases/sync_effis.py:73-83 | Closes at the mark the burnt areas of the cursor that are no longer served. |
| `SyncEffis.OpenAreServed` | app/hazards/use_cases/sync_effis.py:41-83 | After a sync the open fires are exactly the burnt areas just served. |
| `SyncEffis.ReservedFireReopens` | app/hazards/repos/hazard_event.py:88-90 | A closed fire served again is open again even with unchanged content. |
| `SyncEffis.LastIsBurnt` | app/hazards/use_cases/sync_effis.py:42-44 | When an id comes in both layers the burnt area wins. |
| `SyncRuns.RunsStayReconciled` | app/hazards/use_cases/sync_aemet.py:42-112 | In every run of commits, recorded failures and rollbacks: no AEMET row outside the cursor ends after the last mark, the open fires are the EFFIS cursor, and the state of each source tells its recorded runs. |
| `SyncRuns.NothingOutsideTheBulletinIsAlive` | app/hazards/use_cases/sync_aemet.py:102-112 | After a committed AEMET sync and until the next, a stored warning that ends after its mark was ingested from that bulletin. |
| `SyncRuns.OpenFiresAreTheCatalogue` | app/hazards/use_cases/sync_effis.py:41-83 | After a committed EFFIS sync and until the next, a fire is open iff it was served as a burnt area. |
| `SyncRuns.CursorWaits` | app/hazards/repos/sync_state.py:20-55 | Failures, rollbacks, other sources and syncs that give no cursor never move a cursor. |
| `SyncRuns.StepTellsLog` | app/hazards/repos/sync_state.py:20-55 | The state of a source tells its log: the last run, the last success (kept by failures), the failures since it, and the first 500 characters of the last error, none after a success. |
| `ListPage.ListPage` | app/hazards/repos/hazard_event.py:197-212 | From the answer to a query for limit + 1 rows: a page of the first rows after the cursor, with a next cursor iff rows are left; a zero limit raises unless none is. |
| `ListPage.WholeWalkIsExact` | app/hazards/repos/hazard_event.py:162-212 | Whatever is inserted or deleted between pages: rows come newest first, then by id downwards, none twice, each row present throughout exactly once, and only rows that were there. |
| `ListPage.StillPagesAreTheList` | app/hazards/repos/hazard_event.py:162-212 | On unchanging rows the pages together are the full sorted list. |
| `ListPage.WalkEnds` | app/hazards/repos/hazard_event.py:205-212 | n full pages need n x limit rows: those at the start plus those inserted since bound the walk. |
| `ListPage.PageSplits` | app/hazards/repos/hazard_event.py:197-212 | A page takes the rows just below its cursor and leaves exactly those below the next. |
| `Zones.WarningDays` | app/analytics/queries/zones.py:90-93 | The nested dict gives, for every key and level, the number of cells of the query, 0 if absent. |
| `Zones.FilledTells` | app/analytics/queries/zones.py:90-93 | The dict filled from rows with distinct key and level holds the days of each row and nothing else. |
| `Zones.FilterKeepsLevel` | app/analytics/queries/zones.py:65-83 | The pre-filter on years and the grouping change no level of a day of the year. |
| `Zones.MonthsAreExact` | app/analytics/queries/zones.py:47-93 | By month, the query counts each day once, at the worst level of the warnings that cover it in the zone. |
| `Zones.ProvincesAreExact` | app/analytics/queries/zones.py:47-93 | By province, one query over all events counts the same days as the plain definition in that province. |
| `Zones.DominatedChangesNothing` | app/analytics/queries/zones.py:57-60 | A warning that is nowhere the worst changes no figure. |
| `Zones.TwelveMonthsAreTheYear` | app/analytics/queries/zones.py:176-251 | The twelve months of a province add up to its yearly row: days per level, earthquakes, strongest magnitude, burnt areas. |
| `Zones.ZoneMonthly` | app/analytics/queries/zones.py:191-221 | Twelve rows, zeros included; in each the counts are the numbers of earthquakes and burnt areas of that month in the zone, and the magnitude the greatest of those earthquakes. |
| `Zones.ProvincesSummary` | app/analytics/queries/zones.py:224-251 | One row per province, zeros included, with the counts and the greatest magnitude of its earthquakes and burnt areas of the year. |
| `Zones.FigureIsExact` | app/analytics/queries/zones.py:96-147 | A figure of a month or province counts the earthquakes, or burnt areas, with their first day in it; the magnitude is at least that of each, attained by one, and None iff none has one. |
| `Zones.DaysAreWorst` | app/analytics/queries/zones.py:57-87 | A day counts at a level iff a warning of that severity covers it in the zone and none of a higher one does. |
| `Zones.MonthDaysTell` | app/analytics/queries/zones.py:191-221 | The yellow, orange and red days of a month are those days. |
| `Zones.ProvinceDaysTell` | app/analytics/queries/zones.py:224-251 | And those of a province in the year. |
| `Zones.LevelIsWorst` | app/analytics/queries/zones.py:74-82 | The level of a day is 0 or the greatest severity, at least 2, of the warnings that cover it. |
| `CapUtf8.CutDecodesToLongest` | app/core/channels/drivers/http.py:29 | Cutting the bytes anywhere and decoding with ignore gives the longest prefix whose encoding fits. |
| `CapUtf8.CapIsLongestFitting` | app/core/channels/drivers/http.py:25-29 | The result is that prefix, the text itself iff it fits; only surrogates raise. |
| `CapUtf8.NoLongerPrefixFits` | app/core/channels/drivers/http.py:25-29 | Every prefix that fits is a prefix of the result. |
| `CapUtf8.DecodeInvertsEncode` | app/core/channels/drivers/http.py:26-29 | Decoding an uncut encoding gives the text back. |
| `CapUtf8.CutCharacterIsIgnored` | app/core/channels/drivers/http.py:29 | A character cut short decodes to nothing. |
| `CapUtf8.EncodedExample` | app/core/channels/drivers/http.py:26 | The encoding agrees with the examples of section 7 of RFC 3629. |

## Left out

- I/O: HTTP drivers, DNS guard, parsing, signing, rendering of messages, logging, routes, schemas and CLI. What `fetch_*` returns and whether a send is accepted are parameters.
- Geometry: containment of an event in an area, the province of an event, the conversion of a polygon and the circle filter are given with the data.
- Texts: paused_reason, last_error of subscriptions, errors of handlers, and the error summary of an event are not stored in the model.
- Row ids: episodes are numbered by a counter instead of uuids; deliveries are named by their unique index (episode, severity) and hazard events by (source, external_id). A delivery purged and created again would have a new id in the database; `RungIsFresh` shows that an announced severity never recurs in an episode.
- Postgres beyond atomic transactions, row locks with SKIP LOCKED, unique indexes and one now() per transaction; the lock wait of two updates on one row; the columns updated_at of jobs and of subscriptions.
- content_hash: taken to be a function of the hashed content, so equal content gives equal hashes; canonical JSON and sha256 are not modelled. Severity is not in the hash, so nothing is claimed of the stored severity of an unchanged row.
- `attrs` hold strings only; of the numbers in them only area_ha and magnitude are kept, as separate fields.
- `str.lower()` on warning levels covers the letters A to Z; white space is the set that `str.strip()` removes.
- The query filters of `list_page` and the encoding of its cursor: any fixed set of matching rows, and the position itself. A query with a negative limit is not modelled.
- max_bytes of `_cap_utf8` is a natural number, as its only caller passes.
- Civil time: the local dates of an event and the calendar's year and month are given, with years that do not go back and months from 1 to 12.
- Burnt hectares: they are rounded per group, so months need not add up to the year. history_since and the names of provinces are plain reads.
- The IGN sync appears only as a step of `SyncRuns`: it is the upsert alone, without a catalogue to close.
- The loop that picks candidate jobs and the polling loops: the claim checks again what they select. A job without a handler is rescheduled with an error like one that fails.
- A batch event without batch_at, written by an older version, is skipped by the handler; not modelled.
- RetriesEqualOneRun: assumes, as the property does, that the attempts query the same matches and that no other batch commits in between; `LateRetryIsNoOp` covers other commits in between while the episodes stay open.
- GoneEpisodeWasPast: assumes a retention that is not negative, as GoneDeliveryWasPast does.
- MessagesAreSpaced: assumes a minimum interval that is not negative, as OneRunIsSpaced and SentRests do.
- SubscriptionAdmin.add, the weekly statistics, the test message and the status of sources: settled by reading one function.
