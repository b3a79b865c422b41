# Verification model of the media-tracking core

This project models the stateful cores of the repository in Dafny and proves what they keep over whole runs.
`dafny verify dfyconfig.toml` checks everything.

* **Two job protocols.** `JobQueue` holds what both tables share: rows, leases, the claim order and the claim loop.
  `ModerationOutbox` is the moderation table with its enqueue, claim, expiry and fenced writes; `ModerationRuns`
  interleaves any number of workers, enqueues, detail writes, setting changes and clocks on it, one database statement
  or one end of a classifier call per step; `ModerationCalls` explains why a call is made and what every report means;
  `ModerationWorker` is `process_claim` itself, proved to be a run of those steps; `ModerationExamples` is a run that
  ends badly. `MetadataAdmission`, `MetadataRuns`, `MetadataReports`, `MetadataBatches`, `MetadataWorker` and
  `MetadataFairness` do the same for the preparation jobs. The two protocols choose opposite answers to an expired
  lease, unknown outcome against bounded retry, so different safety theorems hold of them.
* **Personal progress.** `TrackingService` states each operation on tracking rows, ratings, favourites and banner, and
  the joint invariant no single operation establishes; `ProgressReports` says what each operation changes, column by
  column; `ProgressStore` updates the rows in place and synchronises.
* **System lists.** `DynamicCollections` maintains ten lists that must equal ten filters.
* **List positions.** `ListOrdering` covers save, move, reorder and apply_sort under the uniqueness constraint.
* **Backfill.** `Backfill` is the pager, the accountant and the run over them.
* **Upstream client.** `HttpClient` is the retry loop with int64 durations, `CircuitBreaker` the shared breaker.
* **Moderation state.** `ModerationState` and `ModerationPayload` are the canonical form, `ModerationReadings` what it
  says and what it tells apart; `Text`, `Sorting` and
  `Canonical` carry white space, total orders and keep-and-sort lists.

Where a promise of the code or its documentation is false, the model keeps the code, shows an input or a run that fails,
and says exactly when the promise holds:

* `move` is documented as moving to a 1-based place (`core/content/views/list_item.py:565`); with gaps it does so only
  under the condition of `MoveLandsAtPlaceIff`, and `MoveMissesPlace` is a list of three where it does not.
* `reorder` accepts repeated ids: `ReorderIsExactIff`, and `RepeatedIdLeavesAGap`.
* A limited name list depends on the order of its entries unless the limit cannot cut: `NamesIgnoreOrderIff`, and
  `OneNameTooMany`.
* Both bulk admissions report how many rows they tried to insert: `ReportedEqualsInsertedIff` with
  `SecondAdmissionInsertsNothing`, and `AdmittedEqualsInsertedIff` with `OvertakenBulkEnqueue`.
* `_schedule_retry` reports a failure it may not have written: `FailedReportLandsIffHeld`, and
  `FailureReportedButNotWritten`.
* `ensure_tracking` with COMPLETED would leave a completed row without a date: `EnsureKeepsInvIff`, and
  `EnsureCompletedBreaksInv`.
* Doubling a wait or reading a Retry-After can overflow int64: `BackoffDoublesIff` with `LongBackoffStopsWaiting`, and
  `SecondsAreHonouredIff` with `OverflowingHintIsDropped`.

## Model

| member | source | states |
|---|---|---|
| `JobQueue.SelectReady` | core/content/services/moderation_job_worker.py:64-67 | the batch is the earliest available waiting rows not locked by another transaction, distinct, in (available_at, id) order, and as many as the limit and the table allow |
| `JobQueue.LeaseQueue` | core/content/services/moderation_job_worker.py:68-82 | the claim loop leases exactly the selected rows, each under its own fresh token with attempts + 1, and returns them with their tokens |
| `JobQueue.LeaseFirstAt` | core/content/services/moderation_job_worker.py:68-82 | row by row, a batch claim leases the i-th selected row under the i-th token and leaves every other row alone |
| `JobQueue.BackoffIsMonotone` | core/content/services/moderation_job_worker.py:315-317 | the retry delay never shrinks with the attempt number, starts at the smaller of base and cap and never passes the cap |
| `JobQueue.BackoffDoubles` | core/content/services/moderation_job_worker.py:315-317 | the delay is the base for the first attempt, doubles for each of the next thirty, stays at the base times 2 to the 30 from then on, and is capped |
| `JobQueue.InsertedIff` | core/content/services/metadata_preparation_enqueue.py:59-66 | an insert that ignores conflicts adds one row per key exactly when no key has one |
| `JobQueue.InsertedRow` | core/content/services/metadata_preparation_enqueue.py:59-66 | each inserted key gets a queued, untried row available now, with primary keys in insertion order |
| `ModerationOutbox.ModerationTable.ExpireAmbiguousLeases` | core/content/services/moderation_job_worker.py:120-132 | exactly the overdue leases become OUTCOME_UNKNOWN; the count returned is theirs |
| `ModerationOutbox.ModerationTable.ClaimModerationJobs` | core/content/services/moderation_job_worker.py:43-82 | bad options are refused with nothing changed; otherwise expiry, then the earliest ready rows leased in order |
| `ModerationOutbox.ClaimTakesTheEarliest` | core/content/services/moderation_job_worker.py:43-82 | in the columns: the due QUEUED and RETRY rows with the smallest (available_at, id), as many as the limit and the table allow, are leased with one more attempt; run-out leases become OUTCOME_UNKNOWN; nothing else changes |
| `ModerationOutbox.ModerationTable.Finish` | core/content/services/moderation_job_worker.py:265-284 | the write lands exactly while the row is leased under the token, and then gives the row the status and takes the lease away |
| `ModerationOutbox.ModerationTable.Retry` | core/content/services/moderation_job_worker.py:298-312 | the retry write lands exactly while the row is leased under the token |
| `ModerationOutbox.SuccessColumns` | core/content/services/moderation_job_worker.py:251-262 | a stored judgment answers for a job exactly with its item, hash, revision and complete status, and the requested model, a requested_model of it, or one of the two rule models |
| `ModerationOutbox.ModerationTable.EnqueueCurrentModerationJob` | core/content/services/moderation_job_enqueue.py:26-122 | the whole new table of an enqueue; a job is returned exactly for wanted work that no stored judgment answers for, judged by columns |
| `ModerationOutbox.EnqueueCoalesces` | core/content/services/moderation_job_enqueue.py:26-122 | in the columns: only the current hash of the item waits afterwards, leased, finished and foreign rows are untouched, and the wanted work waits, unless leased or finished, exactly when no stored judgment answers for it |
| `ModerationOutbox.EnqueueRowByRow` | core/content/services/moderation_job_enqueue.py:26-122 | what becomes of every row, by its columns |
| `ModerationOutbox.EnqueueAdds` | core/content/services/moderation_job_enqueue.py:93-104 | a row is added exactly for wanted work without a row and without a stored judgment, queued for now |
| `ModerationOutbox.EnqueueRowCases` | core/content/services/moderation_job_enqueue.py:26-122 | an enqueue can only leave a row, supersede it, settle it on a stored success or revive it, and never resets attempts |
| `ModerationOutbox.ModerationTable.FindMissing` | core/content/services/moderation_job_enqueue.py:144-187 | the reads find exactly the current identities without a row and without a stored success, each once |
| `ModerationOutbox.ItemHashIsTheLast` | core/content/services/moderation_job_enqueue.py:144-148 | the hash used for an item is that of the last given view of it that carries one |
| `ModerationOutbox.ModerationTable.EnqueueMissingModerationJobs` | core/content/services/moderation_job_enqueue.py:125-191 | whatever other transactions commit between its reads and its insert, every row there is stays, exactly the identities found missing are inserted where no row has appeared, and the count is of those found missing |
| `ModerationOutbox.AdmittedEqualsInsertedIff` | core/content/services/moderation_job_enqueue.py:187-191 | the count reported is the number of rows added exactly when nobody else admitted one of the identities in between |
| `ModerationOutbox.OvertakenBulkEnqueue` | core/content/services/moderation_job_enqueue.py:159-191 | a bulk enqueue that reports one job and adds none |
| `ModerationOutbox.ModerationTable.UpsertDetail` | core/content/services/moderation_source_hash.py:39-71 | the seasons the mapper writes, the item and the seasons depending on its name get detail, hash and enqueue one after the other in one transaction |
| `ModerationOutbox.DetailWriteMeans` | core/content/services/moderation_source_hash.py:26-36 | a detail write sets the item's materialised hash to what the state builder yields, or clears it, and enqueues for it |
| `ModerationWorker.ScheduleRetry` | core/content/services/moderation_job_worker.py:287-312 | without interference its effect and report are those of the read and write steps of the machine |
| `ModerationWorker.SettleAnswer` | core/content/services/moderation_job_worker.py:184-229 | the branches after the classifier call have the effect and report of the refresh, read and write steps |
| `ModerationWorker.ProcessClaim` | core/content/services/moderation_job_worker.py:135-229 | process_claim, branch by branch, has exactly the effect and the report of its seven steps in the interleaved machine |
| `ModerationRuns.TransitionKeepsInv` | core/content/services/moderation_job_worker.py:43-312 | every allowed change of the system keeps all ten parts of the invariant |
| `ModerationRuns.NextIsTransition` | core/content/services/moderation_job_worker.py:43-312 | every step of workers, enqueues, detail writes and clocks is an allowed change of the system |
| `ModerationRuns.RunKeepsInv` | core/content/services/moderation_job_worker.py:43-312 | the invariant holds after any interleaving of steps |
| `ModerationRuns.CallsNeverOverlap` | core/content/services/moderation_job_worker.py:135-229 | classifier calls of one job never overlap; a second call starts only after the earlier claim ended its call and landed its own write |
| `ModerationRuns.CallsAreBounded` | core/content/services/moderation_job_worker.py:287-312 | a job is sent at most attempts times; attempts stay within the allowance plus its revivals; RETRY means attempts are left |
| `ModerationRuns.DoneMeansJudged` | core/content/services/moderation_job_worker.py:158-222 | every DONE row has a stored complete judgment of its item and hash |
| `ModerationRuns.FinishedRowsStay` | core/content/services/moderation_job_worker.py:265-284 | DONE, FAILED and OUTCOME_UNKNOWN rows never change again, whatever runs afterwards |
| `ModerationRuns.ReportsAreHonest` | core/content/services/moderation_job_worker.py:135-229 | the report fits the classifier answer; fenced means the write did not land, and every report but fenced and failed means it did |
| `ModerationRuns.FailedReportLandsIffHeld` | core/content/services/moderation_job_worker.py:295-297 | an exhausted worker reports failed in any case, and the row becomes FAILED exactly while it still holds it |
| `ModerationExamples.FailureReportedButNotWritten` | core/content/services/moderation_job_worker.py:287-297 | a run from the empty table in which a worker reports failed for a row that is OUTCOME_UNKNOWN |
| `ModerationRuns.DetailWriteIsTransition` | core/content/services/moderation_source_hash.py:58-64 | the write of one detail with its new hash and its enqueue is an allowed change, so every theorem covers hashes changing in mid-call |
| `ModerationRuns.EnqueueIsTransition` | core/content/services/moderation_job_enqueue.py:26-122 | an enqueue at any moment is an allowed change |
| `ModerationCalls.CallsAreWarranted` | core/content/services/moderation_job_worker.py:145-173 | every call was preceded, in order, by finding the row leased under the token with the item's hash and the question revision equal to the job's, no stored judgment that answers for it, and no other rebuilt hash |
| `ModerationCalls.ReportsHaveReasons` | core/content/services/moderation_job_worker.py:135-312 | every report has its reason in a step of the run: which columns the worker found, and what the classifier answered |
| `ModerationCalls.NeedsWereFound` | core/content/services/moderation_job_worker.py:184-229 | a worker that reports done, retries or fails on an answer took a refresh at which the item's hash and the question revision were the job's; exhausted or spared by the attempts it read; reused on a stored judgment |
| `ModerationCalls.SupersededWasStale` | core/content/services/moderation_job_worker.py:153-189 | a worker that supersedes found the hash or revision changed at load or refresh, or another rebuilt hash |
| `ModerationCalls.StaleAnswerIsSuperseded` | core/content/services/moderation_job_worker.py:184-189 | an answer for a job whose hash or revision is out of date at the refresh is never written, whatever runs afterwards: the worker supersedes or is fenced out |
| `ModerationCalls.RetriesAreDelayed` | core/content/services/moderation_job_worker.py:191-208 | a retry waits the base delay when moderation is off and the doubled base otherwise, capped |
| `ModerationCalls.WriteLands` | core/content/services/moderation_job_worker.py:265-312 | the last write lands exactly while the row is leased under the token; which status and time it sets; no other row changes |
| `ModerationCalls.BatchClaimIsARun` | core/content/services/moderation_job_worker.py:43-82 | a batch claim has the effect of one expiry and one single claim per row, so theorems about runs cover it |
| `ModerationCalls.DetailTransactionIsARun` | core/content/services/moderation_source_hash.py:39-71 | a detail transaction over an item and its seasons has the effect of its single writes one after the other, so theorems about runs cover it |
| `MetadataAdmission.RotationIgnoresInputOrder` | core/content/services/metadata_preparation_enqueue.py:43-55 | the rotation does not depend on the arbitrary order in which candidates come out of a set |
| `MetadataAdmission.AdmittedAreNext` | core/content/services/metadata_preparation_enqueue.py:52-68 | admitted are the next candidates going up from the cursor and around, and the cursor moves to the last of them |
| `MetadataAdmission.CursorApproaches` | core/content/services/metadata_preparation_enqueue.py:52-68 | a call with a free slot that leaves an item out moves the cursor strictly closer to it |
| `MetadataAdmission.EveryItemGetsItsTurn` | core/content/services/metadata_preparation_enqueue.py:52-68 | an item asked for in every request is admitted within as many calls as its cyclic distance from the cursor |
| `MetadataAdmission.ReportedEqualsInsertedIff` | core/content/services/metadata_preparation_enqueue.py:59-69 | the number reported is the number inserted exactly when no admitted item had got a row in between |
| `MetadataAdmission.PreparationTable.EnqueueMetadataPreparation` | core/content/services/metadata_preparation_enqueue.py:19-69 | the whole new table and cursor of an admission; it admits exactly the lesser of the asked ids without a job and 1000 less the QUEUED, LEASED and RETRY rows, changes no existing row, and never passes the cap |
| `MetadataAdmission.InsertSlots` | core/content/services/metadata_preparation_enqueue.py:59-66 | inserting admitted items adds at most that many active rows |
| `MetadataAdmission.TwoUpdatesExpire` | core/content/services/metadata_preparation_worker.py:65-85 | the two expiry updates together fail exhausted leases and requeue the others, each overdue row once |
| `MetadataAdmission.PreparationTable.ClaimMetadataPreparationJobs` | core/content/services/metadata_preparation_worker.py:47-106 | bad options are refused with nothing changed; otherwise expiry, then the earliest due rows leased in order |
| `MetadataAdmission.ClaimTakesTheEarliest` | core/content/services/metadata_preparation_worker.py:63-106 | in the columns: the due and the run-out rows with the smallest (available_at, id), as many as the limit and the table allow, are leased with one more attempt; other run-out leases fail or are retried at once by their attempts; nothing else changes |
| `MetadataAdmission.PreparationTable.Finish` | core/content/services/metadata_preparation_worker.py:228-249 | the write lands exactly while the row is leased under the token and the lease has not run out |
| `MetadataAdmission.PreparationTable.RetryOrFail` | core/content/services/metadata_preparation_worker.py:290-318 | retry or failure by the attempts the worker read, landing exactly under an unexpired lease |
| `MetadataAdmission.PreparationTable.ActiveLease` | core/content/services/metadata_preparation_worker.py:252-266 | the guard permits a write exactly while the row is leased under the token and unexpired |
| `MetadataWorker.PrepareExisting` | core/content/services/metadata_preparation_worker.py:143-161 | a job with stored detail is reconciled under its lease and finished or retried, as in the machine |
| `MetadataWorker.PrepareMissing` | core/content/services/source_data_orchestrator.py:284-296 | a fetched payload is persisted only under the lease; done needs both payload and stored detail, as in the machine |
| `MetadataWorker.PrepareJob` | core/content/services/metadata_preparation_worker.py:109-225 | the treatment of one job of a batch has exactly the effect and report of its five steps in the interleaved machine |
| `MetadataRuns.NextIsTransition` | core/content/services/metadata_preparation_worker.py:47-318 | every step is an allowed change of the system |
| `MetadataRuns.RunKeepsInv` | core/content/services/metadata_preparation_worker.py:47-318 | the invariant holds after any interleaving of admissions, claims, expiries, fetches and writes |
| `MetadataRuns.PendingIsCapped` | core/content/services/metadata_preparation_enqueue.py:43-69 | at most 1000 jobs are QUEUED, LEASED or RETRY in every reachable state |
| `MetadataRuns.RowsTerminate` | core/content/services/metadata_preparation_worker.py:63-106 | attempts never pass the allowance, RETRY means attempts are left, and a row changes at most twice per allowed attempt before it is finished |
| `MetadataRuns.RowSpends` | core/content/services/metadata_preparation_worker.py:63-106 | every change of a row uses up at least one unit of what is left of its life |
| `MetadataRuns.WritesPrecedeNextClaim` | core/content/services/metadata_preparation_worker.py:252-266 | all guarded writes of one claim come before the next claim of the job |
| `MetadataRuns.GuardedWritesAreFenced` | core/content/services/metadata_preparation_worker.py:252-266 | every guarded write happened while its job was leased under the writer's own unexpired token |
| `MetadataRuns.FinishedRowsStay` | core/content/services/metadata_preparation_worker.py:228-249 | DONE and FAILED rows never change again |
| `MetadataRuns.ReportsAreHonest` | core/content/services/metadata_preparation_worker.py:169-216 | a worker reports fenced exactly when its status write did not land |
| `MetadataBatches.BatchClaimIsARun` | core/content/services/metadata_preparation_worker.py:63-106 | after any history a batch claim has the effect of one expiry and one single claim per row |
| `MetadataBatches.AdmissionIsARun` | core/content/services/metadata_preparation_enqueue.py:43-69 | after any history an admission transaction is its two steps |
| `MetadataReports.AdmissionOpensIff` | core/content/services/metadata_preparation_enqueue.py:43-50 | an admission opens exactly when fewer than 1000 rows are QUEUED, LEASED or RETRY, with as many slots as are missing |
| `MetadataReports.DoneMeansDetail` | core/content/services/metadata_preparation_worker.py:195-216 | in every reachable state a DONE job has stored detail |
| `MetadataReports.ReportsHaveReasons` | core/content/services/metadata_preparation_worker.py:143-216 | done was reported on hashed detail reconciled under the lease, or on a payload with stored detail; retry or failure on one of them missing |
| `MetadataReports.FailuresAreSpent` | core/content/services/metadata_preparation_worker.py:290-299 | failure is reported when the attempts read are spent, retry when they are not |
| `MetadataReports.WriteLands` | core/content/services/metadata_preparation_worker.py:228-318 | the last write lands exactly while the lease is in force; which status and time it sets; no other row changes |
| `MetadataReports.FetchEndsInDoneIff` | core/content/services/metadata_preparation_worker.py:195-216 | a fetch written under its lease ends in DONE exactly when it brought a payload and detail is stored |
| `MetadataFairness.EveryItemGetsARow` | core/content/services/metadata_preparation_enqueue.py:43-69 | in a run after any history, with workers, expiries and clocks in between, an item every admission asks for has a row once as many admissions have ended as its cyclic distance from the cursor |
| `MetadataFairness.AdmissionsApproach` | core/content/services/metadata_preparation_enqueue.py:52-68 | either the item has its row or every ended admission has brought the cursor strictly closer |
| `MetadataFairness.SecondAdmissionInsertsNothing` | core/content/services/metadata_preparation_enqueue.py:59-69 | a run of two admissions of one item whose second one reports a row and inserts none |
| `TrackingService.TransitionMeans` | core/content/services/tracking_service.py:80-171 | on every reachable state the branches of a transition amount to: status set, rating active exactly when completed, favourite and banner kept only by a completed status |
| `TrackingService.TransitionKeepsInv` | core/content/services/tracking_service.py:80-171 | a transition keeps the joint invariant of rows, ratings, favourites and banner |
| `TrackingService.SaveRatingKeepsInv` | core/content/services/tracking_service.py:174-212 | saving a rating keeps the joint invariant |
| `TrackingService.SetFavoriteKeepsInv` | core/content/services/tracking_service.py:215-258 | setting a favourite keeps the joint invariant, including five per type |
| `TrackingService.DeleteKeepsInv` | core/content/services/tracking_service.py:261-307 | deleting a tracking row keeps the joint invariant |
| `TrackingService.BannerKeepsInv` | core/authentication/serializers/profile.py:102-154 | an accepted banner edit keeps the joint invariant |
| `TrackingService.EnsureKeepsInvIff` | core/content/services/tracking_service.py:25-48 | creating a row keeps the invariant exactly when the row exists already or the status is not COMPLETED |
| `TrackingService.EnsureCompletedBreaksInv` | core/content/services/tracking_service.py:25-48 | a new user, any item and COMPLETED: the invariant is broken |
| `TrackingService.EveryRunKeepsInv` | core/content/services/tracking_service.py:25-307 | the joint invariant holds after any sequence of operations |
| `TrackingService.TransitionReport` | core/content/services/tracking_service.py:113-170 | the effects reported are exactly the losses caused, a review being an active rating whose comment is more than white space, and only the item itself is touched |
| `TrackingService.DeleteReport` | core/content/services/tracking_service.py:261-307 | the effects found are exactly the losses caused, a review being an active rating whose comment is more than white space, and refusal happens exactly for unacknowledged effects |
| `TrackingService.UnacknowledgedLosesNothing` | core/content/services/tracking_service.py:120-170 | in every run an unacknowledged transition or deletion costs no active rating, no favourite and no banner |
| `TrackingService.GuaranteeNeedsInvariant` | core/content/services/tracking_service.py:113-148 | without the joint invariant the guarantee fails: a concrete state in which an unreported rating is archived |
| `ProgressReports.EnsureReport` | core/content/services/tracking_service.py:25-48 | creating a row is refused exactly for a status the type cannot have; a new row has the status and nothing else |
| `ProgressReports.TransitionRefusal` | core/content/services/tracking_service.py:100-140 | a transition is refused exactly for a status the type cannot have, or for unacknowledged costs, which it names |
| `ProgressReports.TransitionColumns` | core/content/services/tracking_service.py:80-171 | status, date, favourite, rating and banner after a transition, column by column; nothing of another item changes |
| `ProgressReports.SaveRatingReport` | core/content/services/tracking_service.py:174-212 | the saved rating is active with the submitted score, comment without outer white space, and a spoiler mark only with a comment; the item is completed, now unless it was; favourite, banner and everything else stay |
| `ProgressReports.SetFavoriteReport` | core/content/services/tracking_service.py:215-258 | when marking is refused, and what marking and unmarking change, column by column |
| `ProgressReports.DeleteRefusal` | core/content/services/tracking_service.py:276-290 | a deletion is refused exactly for unacknowledged costs, which it names |
| `ProgressReports.DeleteColumns` | core/content/services/tracking_service.py:261-307 | what a deletion takes and leaves, column by column |
| `ProgressReports.BannerReport` | core/authentication/serializers/profile.py:102-154 | which banner edits are refused and what an accepted one shows |
| `Text.StripMeans` | core/content/services/tracking_service.py:194-207 | stripping takes away white space at both ends, all of it and nothing else |
| `ProgressStore.ProgressTable.EnsureTracking` | core/content/serializers/list_item.py:326-330 | the update in place refines the operation and the lists mirror the rows afterwards |
| `ProgressStore.ProgressTable.TransitionTracking` | core/content/services/tracking_service.py:80-171 | the update in place refines the operation, keeps the invariant, leaves everything alone on refusal, and the lists mirror the rows afterwards |
| `ProgressStore.ProgressTable.SaveRating` | core/content/services/tracking_service.py:174-212 | the update in place refines the operation and the lists mirror the rows afterwards |
| `ProgressStore.ProgressTable.SetFavorite` | core/content/services/tracking_service.py:215-258 | the update in place refines the operation and keeps the invariant |
| `ProgressStore.ProgressTable.DeleteTracking` | core/content/services/tracking_service.py:261-307 | the update in place refines the operation and keeps the invariant; refusal changes nothing |
| `ProgressStore.ProgressTable.UpdateBanner` | core/authentication/serializers/profile.py:102-154 | validation and update in place refine the banner operation and keep the invariant |
| `DynamicCollections.KeysAreComplete` | core/content/services/dynamic_collections.py:35-107 | the definition table names every system list once |
| `DynamicCollections.SystemLists.EnsureDynamicCollections` | core/content/services/dynamic_collections.py:147-180 | afterwards all ten lists exist and the contents of those that did are unchanged |
| `DynamicCollections.SystemLists.SyncDynamicCollections` | core/content/services/dynamic_collections.py:197-253 | each list holds exactly what its filter selects, survivors keep id and position, new items are appended in id order, and positions stay positive and distinct |
| `DynamicCollections.SystemLists.ExpectedIds` | core/content/services/dynamic_collections.py:197-220 | the row-by-row collection of expected ids is the filter of every definition |
| `DynamicCollections.SystemLists.CollectionCounts` | core/content/services/dynamic_collections.py:297-313 | the grouped sums are the sizes of the filters |
| `DynamicCollections.SyncIsIdempotent` | core/content/services/dynamic_collections.py:197-253 | a second synchronisation changes nothing |
| `DynamicCollections.SurvivorsStay` | core/content/services/dynamic_collections.py:221-253 | a surviving item keeps its primary key and its position |
| `DynamicCollections.NewItemsAreNumbered` | core/content/services/dynamic_collections.py:236-253 | new items are numbered on from the largest position held before, in the order of their content ids |
| `DynamicCollections.NewItemsGoLast` | core/content/services/dynamic_collections.py:236-253 | a new item lies after everything the list held before, deleted rows included |
| `DynamicCollections.SurvivorsKeepOrder` | core/content/services/dynamic_collections.py:221-253 | the order a user gave surviving items is kept |
| `DynamicCollections.OneStatusListOneTypeList` | core/content/services/dynamic_collections.py:277-294 | a tracked item is in exactly its status list and its type list |
| `DynamicCollections.ListsHoldEverythingTwice` | core/content/services/dynamic_collections.py:197-253 | the ten lists together hold twice as many items as there are tracking rows |
| `DynamicCollections.CountsAgree` | core/content/services/dynamic_collections.py:297-313 | the counts shown are the sizes of the synchronised lists |
| `ListOrdering.LargestReachesCount` | core/content/models/list_item.py:97-103 | n distinct positive positions reach at least n, gaps allowed |
| `ListOrdering.SaveMeans` | core/content/models/list_item.py:97-103 | saving changes one position; one that is not positive becomes the largest plus one, or 1 in an empty list |
| `ListOrdering.ParkedIsOutside` | core/content/views/list_item.py:605-608 | the temporary position save really assigns lies beyond the requested position and every other item |
| `ListOrdering.MoveEffect` | core/content/views/list_item.py:600-631 | a move puts the item at the position and moves exactly those in between by one |
| `ListOrdering.MoveKeepsOrder` | core/content/views/list_item.py:593-631 | positions stay positive, and distinct after each of the three writes, and everyone else keeps their relative order |
| `ListOrdering.MoveLandsAtPlaceIff` | core/content/views/list_item.py:565-631 | the item becomes the position-th one exactly when the slots before it have no gap |
| `ListOrdering.MoveMissesPlace` | core/content/views/list_item.py:565-631 | a list of three items in which a move to place 3 leaves the first item first |
| `ListOrdering.MoveIsRemoveThenInsert` | core/content/views/list_item.py:593-631 | with positions 1..n a move is taking the item out and putting it back at the place |
| `ListOrdering.LastPositions` | core/content/views/list_item.py:546-554 | the id-to-position dictionary keeps the last place of every id |
| `ListOrdering.ReorderIsExactIff` | core/content/views/list_item.py:534-555 | the new positions are exactly 1..n if and only if the submitted order repeats no id |
| `ListOrdering.RepeatedIdLeavesAGap` | core/content/views/list_item.py:534-555 | a list of one item that a repeated id leaves at position 2 |
| `ListOrdering.Numbered` | core/content/views/list_item.py:491-492 | numbering from 1 gives every item of the sort its place |
| `ListOrdering.ListTable.SaveItem` | core/content/models/list_item.py:86-105 | a position that is not positive becomes one past the largest |
| `ListOrdering.ListTable.Create` | core/content/models/list_item.py:97-103 | a new item lands behind all others |
| `ListOrdering.ListTable.Delete` | core/content/views/list_item.py:397-413 | a deleted item leaves its gap; positions stay distinct |
| `ListOrdering.ListTable.Move` | core/content/views/list_item.py:570-631 | out-of-range positions are refused with nothing changed; otherwise the three writes give the moved list |
| `ListOrdering.ListTable.Park` | core/content/views/list_item.py:486-489 | the first phase keeps positions distinct at every single row |
| `ListOrdering.ListTable.Place` | core/content/views/list_item.py:491-493 | the second phase keeps positions distinct at every single row and ends at the target |
| `ListOrdering.ListTable.Reorder` | core/content/views/list_item.py:519-555 | orders that are not the set of items are refused with nothing changed; otherwise positions are the last occurrences |
| `ListOrdering.ListTable.ApplySort` | core/content/views/list_item.py:475-493 | the list is renumbered 1..n in sort order |
| `ListOrdering.EveryRunIsValid` | core/content/models/list_item.py:71-105 | positions are positive and distinct after any sequence of creates, deletes, moves, reorders and sorts |
| `Backfill.AfterIsFilter` | core/content/services/backfill_runner.py:52-71 | the rows a page is cut from are exactly those of the table with a key above the cursor, ascending |
| `Backfill.AfterAdvances` | core/content/services/backfill_runner.py:52-71 | moving the cursor to any remaining row leaves exactly the rows behind it |
| `Backfill.Pager.Next` | core/content/services/backfill_runner.py:52-71 | one pull of the generator: its result and its whole new state, for any fetcher |
| `Backfill.PullIsNextRow` | core/content/services/backfill_runner.py:52-71 | on an ordered table a pull yields exactly the next row and ends exactly when none is left |
| `Backfill.YieldsAreTheNextRows` | core/content/services/backfill_runner.py:52-71 | on an ordered table any number of pulls yields that many next rows, whatever the batch size |
| `Backfill.YieldsAscend` | core/content/services/backfill_runner.py:52-71 | whatever the fetcher returns, the ids ascend from the cursor, and an error names the last of them and an id that does not exceed it |
| `Backfill.BackfillMetrics.AccountItem` | core/content/services/backfill_metrics.py:135-201 | each outcome changes exactly its own counters; a bad token count raises after the outcome was counted |
| `Backfill.RetryIds.Add` | core/content/services/backfill_metrics.py:101-105 | ids are kept up to the bound and counted beyond it |
| `Backfill.RunBackfill` | core/content/services/backfill_runner.py:103-149 | for any fetcher the run processes exactly what the generator yields within the limit and reports that or the generator's own page error; on an ordered table that is exactly the filtered rows cut to the limit; it pauses between items only and reports progress once per full group |
| `Backfill.RunSelectsTheFilter` | core/content/services/backfill_runner.py:103-149 | the selection is the rows above the cursor, ascending, cut to the limit |
| `Backfill.ResumeEqualsOneRun` | core/content/services/backfill_runner.py:103-149 | a limited run and a resume from its last id select what one run would |
| `Backfill.CountersAreConserved` | core/content/services/backfill_metrics.py:116-201 | scanned is the sum of created, reused, skipped, unavailable and error; retained plus dropped ids are the failures, the first ones kept in order |
| `Backfill.CountersMean` | core/content/services/backfill_metrics.py:135-201 | each counter of a completed run is the total, over the scanned items, of what it is named for: created, reused, overrides, tokens, missing usage, buckets |
| `Backfill.RunRaisesIff` | core/content/services/backfill_metrics.py:82-88 | accounting raises exactly at an unknown kind or a called item with a token count that is no natural number |
| `Backfill.SplitRunsAdd` | core/content/services/backfill_metrics.py:116-201 | all counters of a run and its resume add up to those of one run |
| `HttpClient.SecondsAreHonouredIff` | proxy/internal/clients/httpclient.go:373-385 | a Retry-After in seconds means min(hint, cap) exactly when it does not overflow to something below the cap |
| `HttpClient.OverflowingHintIsDropped` | proxy/internal/clients/httpclient.go:377-382 | the smallest hint that overflows turns negative instead of meaning the cap |
| `HttpClient.HintColumns` | proxy/internal/clients/httpclient.go:373-395 | what every kind of Retry-After value comes to |
| `HttpClient.WaitColumns` | proxy/internal/clients/httpclient.go:217-239 | a wait is the positive hint of a 429 or 5xx, else any draw below the bound, else nothing |
| `HttpClient.WaitsFit` | proxy/internal/clients/httpclient.go:215-240 | with a positive cap the waits of a request stay within retries times the larger of initial and maximal backoff, hints included |
| `HttpClient.BackoffDoublesIff` | proxy/internal/clients/httpclient.go:237-239 | the wait bounds double up to the cap for ever exactly when neither duration reaches half of int64 |
| `HttpClient.LongBackoffStopsWaiting` | proxy/internal/clients/httpclient.go:237-239 | an initial wait of half of int64, after which the bound is negative |
| `HttpClient.Perform` | proxy/internal/clients/httpclient.go:250-293 | one attempt ends the request or asks for a retry exactly as its reply decides, with its class and hint |
| `HttpClient.Send` | proxy/internal/clients/httpclient.go:207-317 | at most MaxRetries + 1 attempts, none after the first that ends the request, whose outcome is returned; else exhaustion with the class of the last; every attempt offers the whole body |
| `HttpClient.RequestReport` | proxy/internal/clients/httpclient.go:207-317 | by status: which attempts are tried again, when a request responds, times out, is not JSON or is exhausted, and how the exhaustion error tells 429, 5xx and connection failures apart |
| `CircuitBreaker.EndingsCount` | proxy/internal/clients/httpclient.go:147-158 | which endings count as failures: timeouts and every exhaustion, but not a response that is no JSON |
| `CircuitBreaker.BaseClient.CircuitError` | proxy/internal/clients/httpclient.go:319-331 | the breaker refuses exactly until its deadline and forgets an expired opening |
| `CircuitBreaker.BaseClient.Request` | proxy/internal/clients/httpclient.go:144-317 | an open breaker refuses without an attempt and is left as it was; otherwise the outcome of the retry loop is recorded; attempts and waiting are bounded |
| `CircuitBreaker.EveryRunKeepsInv` | proxy/internal/clients/httpclient.go:319-347 | over any interleaving the breaker is open exactly with three failures on its count |
| `CircuitBreaker.AdmittedIff` | proxy/internal/clients/httpclient.go:319-331 | a request is let through exactly while no deadline stands or once the clock has passed it, which clears the count |
| `CircuitBreaker.RecordedColumns` | proxy/internal/clients/httpclient.go:147-158 | what each outcome does to the count and the deadline |
| `CircuitBreaker.OpenCircuitAdmitsNothing` | proxy/internal/clients/httpclient.go:319-347 | while it is open nothing new reaches the transport unless a request already in flight succeeds first |
| `CircuitBreaker.CountMeansFailures` | proxy/internal/clients/httpclient.go:333-347 | the count is the transient failures since it was last cleared, and the deadline a cooldown after the latest |
| `CircuitBreaker.OpeningNeedsThreeFailures` | proxy/internal/clients/httpclient.go:340-347 | an opening is the work of three transient failures with no success between them |
| `Text.NormalizedIsStable` | core/content/moderation/state.py:29-34 | collapsing white space twice is collapsing it once, and only white space collapses to nothing |
| `Text.NormalizedKeepsWords` | core/content/moderation/state.py:29-34 | two texts normalise alike exactly when they have the same words in order |
| `ModerationState.NormalizeNames` | core/content/moderation/state.py:45-56 | the loop computes the sorted distinct names, cut to the limit in provider order, or refuses |
| `ModerationState.NormalizePeopleNames` | core/content/moderation/state.py:59-71 | the loop computes the sorted distinct people, or refuses |
| `ModerationState.NormalizeCredits` | core/content/moderation/state.py:74-88 | the loop computes the sorted credits, repeats kept, or refuses |
| `ModerationState.NormalizeEpisodes` | core/content/moderation/state.py:91-104 | the loop computes the sorted episodes, or refuses |
| `ModerationState.NormalizeTracks` | core/content/moderation/state.py:107-127 | the loop computes the sorted tracks with their own sorted credits, or refuses |
| `ModerationState.NamesIgnoreOrderIff` | core/content/moderation/state.py:45-56 | names come out the same for every order of the entries exactly when an entry is refused or the limit cannot cut |
| `ModerationState.OneNameTooMany` | core/content/moderation/state.py:45-56 | for every limit a list of one distinct name too many and a shuffle of it that gives other names |
| `ModerationState.PeopleAgreeIff` | core/content/moderation/state.py:59-71 | people lists agree exactly when the same normalised names occur |
| `ModerationState.CollectedIff` | core/content/moderation/state.py:74-127 | credit, episode and track lists agree exactly when their entries say the same things equally often |
| `ModerationState.CreditsAndEpisodesIgnoreOrder` | core/content/moderation/state.py:74-104 | credits and episodes do not depend on the order of the entries |
| `ModerationState.NamesAreStable` | core/content/moderation/state.py:45-56 | normalised names, with or without a limit, normalise to themselves |
| `ModerationState.PeopleAreStable` | core/content/moderation/state.py:59-71 | normalised people normalise to themselves |
| `ModerationState.CreditsAndEpisodesAreStable` | core/content/moderation/state.py:74-104 | normalised credits and episodes normalise to themselves |
| `ModerationReadings.NormalizedMeans` | core/content/moderation/state.py:29-34 | a normalised text has the same words, separated by single blanks |
| `ModerationReadings.NamesMean` | core/content/moderation/state.py:45-56 | names: refused exactly for an entry that is no text; otherwise every name some entry says, once, in ascending order |
| `ModerationReadings.LimitedNamesMean` | core/content/moderation/state.py:45-56 | with a limit n: exactly the names before whose first mention fewer than n others were said |
| `ModerationReadings.PersonMeans` | core/content/moderation/state.py:59-71 | which entries are people, and whom they name |
| `ModerationReadings.PeopleMean` | core/content/moderation/state.py:59-71 | people: every name some entry has, once, in ascending order |
| `ModerationReadings.CreditMeans` | core/content/moderation/state.py:74-88 | which entries are credits, and their name and role, the type standing in for a missing role |
| `ModerationReadings.EpisodeMeans` | core/content/moderation/state.py:91-104 | which entries are episodes, and their title and description |
| `ModerationReadings.TrackMeans` | core/content/moderation/state.py:107-127 | which entries are tracks, their title and credits, and the advisory for the value true alone |
| `ModerationReadings.CollectedMeans` | core/content/moderation/state.py:74-127 | credits, episodes and tracks: refused exactly when an entry is, otherwise what the entries say, as often, in order |
| `ModerationReadings.PairsAreOrdered` | core/content/moderation/state.py:88-104 | credits and episodes are ordered by the first text and then by the second |
| `ModerationReadings.TracksAreOrdered` | core/content/moderation/state.py:119-127 | tracks are ordered by title, credits and advisory |
| `ModerationReadings.ListsMean` | core/content/moderation/state.py:37-42 | a missing list is empty, and nothing but a list is accepted |
| `Sorting.TextLeMeans` | core/content/moderation/state.py:56-71 | texts are ordered by code points, a prefix first |
| `ModerationReadings.StateMeans` | core/content/moderation/state.py:222-259 | when a state can be built, and its provider, type, title and description |
| `ModerationReadings.StateWithoutPayload` | core/content/moderation/state.py:243-249 | without a payload the given title and description count |
| `ModerationReadings.StatesAgreeIff` | core/content/moderation/state.py:130-259 | two payloads have the same state exactly when they share every allowlisted text, the names of every list within its limit, and the episodes, people and tracks |
| `ModerationPayload.TracksAlike` | core/content/moderation/state.py:107-127 | tracks do not depend on the order of tracks, on the order of authors within a track, or on any other field |
| `ModerationPayload.StateIgnoresOrderAndExtras` | core/content/moderation/state.py:222-265 | the whole state, and any hash of it, depends only on allowlisted fields and on no list order, as long as no limited list has more distinct names than its limit |

## Left out

- Backfill.RunBackfill: a run without a limit over a fetcher that does not answer from an ordered table need not end, so such runs are not stated.
- ModerationWorker.ProcessClaim: nothing else runs between its statements; interleaving is what `ModerationRuns` adds.
- MetadataWorker.PrepareJob: one job of a batch; the batch loop around it only adds up reports, and the moderation work a reconcile enqueues is the enqueue step of `ModerationRuns`.
- ListOrdering.ListTable.Move: one step, where the program reads the count and the old position before its transaction (`core/content/views/list_item.py:593-600`); a change of the list in between is not modelled. A range update shifts all its rows at once; whether an engine checks uniqueness row by row is not modelled.
- ListOrdering.ListTable.Reorder: one step, where the program reads the items before its transaction (`core/content/views/list_item.py:534-546`); a change of the list in between is not modelled.
- Lease tokens: fresh counters, where the program draws random uuid4 values.
- Environment: the wall clock, the database engine, the transport, contexts with the total budget, the provider fetch and the classifier are parameters or arbitrary steps; each statement or transaction is one step, and clock readings under the breaker's lock do not go backwards.
- Case folding and upper-casing are arbitrary functions, and the hash is any function of the state; SHA-256 and JSON encoding are not modelled.
- Payload values are JSON-like (null, flag, integer, text, list, object), and errors of the canonical form carry no text.
- The columns `last_error_code`, `completed_at` and `updated_at` of both job tables, which no branch reads.
- Which seasons a detail write touches: the mapper's seasons and those depending on the parent's name are parameters of `UpsertDetail`.
- `run_moderation_batch` claims, calls `process_claim` once per claim and counts reports.
- The refusal of a sort by position, sort parsing, list names and the conflict path of `bulk_create`.
- Source freshness, background refreshes and the single-flight set of the source data orchestrator; only its guard-then-persist step is modelled.
- Pricing, durations, throughput and event payloads of the backfill: floating point and output.
- Views, permissions, serialisation, pagination, settings, cover images and the web client.
