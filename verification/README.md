# File conversion service: the job protocol, verified

This project models the part of the file conversion service that decides what happens to a job
when several Celery workers, a reaper, cancelling users, retention sweeps and concurrent
submissions all write to the same rows. Celery delivers at least once, so safety rests on
conditional updates on `(pk, claim_generation, status = PROCESSING)`, on two row locks, and on
a claim that bumps a generation. The project also models the outbox relay, the periodic-task
mutex, the rate limiter, the slug search and the progress reporter.

`dafny verify dfyconfig.toml` checks everything.

## How it is built

* `Jobs`, `Database`: the job row and the tables, and every statement or transaction of the
  services as a function on them.
* `Store`: the same statements, transactions and sweeps as methods on a class whose fields are
  the tables; each method is proved to compute its function. `Progress` and `Attempt` add the
  reporter object and `run_conversion` as a program over that class.
* `Protocol`: the interleaved system. A state holds the tables, a program counter and held
  claim for every worker, the broker's messages, outstanding cancel requests, the snapshots of
  running sweeps, the submissions, and debts. A debt is what a process still has to write in
  statements of its own after it committed an update: the event of a scheduled retry, of a requeue
  or of a cancel request, and after it the task message or the outbox row. Each is written by an
  action of its own, at any later time, or never (`APay`, `ADefault`). `run_conversion` and
  `submit_conversion_job` are cut at their writes, transactions and checks, sweeps into snapshot
  and update, requests into refresh and update. Three steps still join statements that the code
  commits one by one: the lookups of a submission before its upload, the cache and row writes of a
  progress report, and the event and the outbox row of a worker's dead letter. A disabled action
  does nothing, so a list of actions is a run and every interleaving is a list.
* `DatabaseInvariant`, `ProtocolInvariant`, `WorkerSafety`, `SystemSafety`, `SubmitSafety`,
  `Runs`: an inductive invariant, kept by every action.
* `RowHistory`, `JobGuarantees`, `WorkerGuarantees`, `Heartbeats`, `BytesSafety`, `Retention`,
  `EventLog`, `Sweeps`, `Backlogs`, `Announcements`, `DeadLetters`, `Deliveries`, `Corners`: the properties, over all
  runs from the empty system unless a lemma says otherwise. `Witness` holds concrete runs that reach
  what they talk about.
* `Columns`: what the queries and checks mean, written on the columns with the numbers of the
  settings (3600 seconds an hour, 600 seconds without a heartbeat, 200 rows a batch), and apart from the
  predicates that the model runs. `JobGuarantees`, `Backlogs`, `Retention` and `Store` state their
  results in these terms.
* `OneOwner`, `OneOwnerRefinement`: a machine without generations, fences, heartbeats or
  messages, in which a job has at most one owner and only the owner acts, and the proof that
  every run of `Protocol` projects onto a run of it.
* `Outbox`, `OutboxGuarantees`: the relay. `JobOutbox` runs it beside `Protocol` and proves that
  the rows that jobs announce are the relay's rows.
* `Caching` with `RateLimit` and `SingleInstance`; `Slugs`.

## Where the documentation promises more than the code

The model follows the code.

* `docs/adr/0002-idempotent-fenced-job-processing.md` says that every write after the claim is
  guarded by the fence. The progress cache write is not (`apps/conversions/progress.py:49-53`): a
  superseded worker can replace its successor's percentage there, and only there
  (`Witness.OverwrittenProgressIsReachable`, `WorkerGuarantees.CacheShowsRowIff`). Nor is the event
  of a retry, which is written after the claim was given up (`WorkerGuarantees.PaymentIsOwn`). And
  the reaper and `request_cancel` do not test the generation, and are safe for other reasons
  (`RowHistory.SnapshotStillCurrent`, `JobGuarantees.Irrevocable`).
* `docs/adr/0003-transactional-outbox-for-webhooks.md` says that terminal transitions write an
  outbox row in their transaction. The reaper's cancel branch writes none, and a cancel request
  writes it in a statement of its own, after the update and the event: over all runs a CANCELLED job
  has its key exactly if no reaper cancelled it and the request that cancelled it, if one did, has
  got that far (`Announcements.CancelledKeyIffWritten`). `Witness.SilentCancelIsReachable` and
  `Witness.LostKeyIsReachable` show both ways to lose it.
* The same order of statements lets the event log differ from the rows. Claims and verdicts are
  logged in their transactions; the events of retries, requeues and cancel requests are not, and one
  of them can be lost, or overtaken by a claim (`Witness.OvertakenEventIsReachable`).
  `EventLog.LogReplaysIff` says exactly when the log still gives the row.
* The attempt budget does not bound `attempt_count`. A claim exceeds it exactly if it takes over a
  PROCESSING job that has none left (`Corners.ClaimExceedsBudgetIff`), and a job whose workers keep
  dying before the reaper looks is claimed any number of times (`Witness.AttemptsAreUnbounded`).
* A transient failure becomes a dead letter with budget left exactly if a cancellation was
  requested (`Corners.TransientFailure`, `Corners.GivesUpOnlySpentOrFlagged`).
* A cancel request does not stop a job that its worker has already promoted, and only such a job
  (`Deliveries.FlaggedEndsDoneIff`). One that saw a waiting job is dropped without a trace exactly if
  the job was claimed meanwhile and is neither waiting again nor flagged by somebody else
  (`Corners.RequestDroppedIffClaimed`).
* `submit_conversion_job` calls the upload unreferenced when anything after it fails. The dispatch
  runs after the commit and inside the handler that discards the upload: if it raises, the job is
  left without its input bytes (`BytesSafety.FilesAreThere`, `Witness.SpoiltJobIsReachable`).
* `single_instance` promises one instance across the fleet. It holds exactly if nobody calls
  while an instance has overstayed its time to live (`SingleInstance.ExclusiveIffOnTime`).
* The rate limiter calls its fixed windows rolling. For requests that come one at a time, an
  interval of a window's length admits up to `2 * limit - 1`, and never more
  (`RateLimit.AtMostTwiceLimitLessOne`, `RateLimit.TwiceLessOneIsReached`); the limit holds for all
  intervals exactly if the limit or the window is 1 (`RateLimit.RollingIff`). Of `k` overlapping
  requests `k - 1` can exceed the limit of a window (`RateLimit.RacersReachTheBound`), and an interval
  of its length admits fewer than `(k + 1) * (limit + k - 1)` (`RateLimit.AtMostInInterval`).

## Assumptions

* PostgreSQL semantics: row locks, atomic conditional updates, and a transaction that either
  commits or has no effect. A shared cache. One clock, read at the moment of the write.
* `Protocol` contains a crash between a commit and the statements or the dispatch that follow it
  (`ADefault`, `ALoseDispatch`), and an exception that the dispatch raises (`ASubmitFault`);
  `NoStrandedJob`, `CancelledKeyIffWritten`, `LogReplaysIff` and `FilesAreThere` state what remains
  true when they happen.
* The relay takes ordinary events in the order of `created_at`, which is stamped before the insert
  commits. `OutboxGuarantees.NextIsOldest` and `DeliveredInOrder` speak of the order of the inserts;
  a row that commits late with an early stamp can still be overtaken by a later one.
* Blobs are named by the order in which they were written, jobs by the order of insertion,
  workers by the order of delivery; public ids are unique, and appear in keys as numerals.
* Stored-bytes safety assumes that a blob is referenced within the collection window after it
  was written (`BytesSafety.Prompt`), and two lemmas show that this is exactly what it takes.

## Model

| member | source | states |
|---|---|---|
| Store.Tables.ClaimJob | apps/conversions/services.py:389-445 | Under the row lock: a flagged waiting job is cancelled, a waiting or stale job is claimed under the next generation, everything else is left alone; the new tables are exactly those of the interleaved model's claim. |
| Store.Tables.Heartbeat | apps/conversions/services.py:448-456 | Refreshes the heartbeat, and reports true, exactly if the fence selects the row. |
| Store.Tables.RequestCancel | apps/conversions/services.py:459-490 | Run alone, a waiting job is cancelled with its event and outbox row, any other is flagged with its event, whatever its status, unless it is flagged already; nothing happens if the caller's copy is terminal. |
| Store.RequestIsRun | apps/conversions/services.py:459-490 | A request that runs alone is, in the interleaved model, the run of its refresh, its update and its late event and outbox row, and has the same effect. |
| Store.Tables.CancelAtOnce | apps/conversions/services.py:493-523 | Conditional cancel of a waiting row with flag, times, event and outbox row in one step. |
| Store.Tables.RaiseIfCancelled | apps/conversions/services.py:526-531 | The generation is compared before the flag. |
| Store.Tables.RetryTransition | apps/conversions/services.py:687-734 | RETRYING, followed by its event, exactly if the fence selects the row and neither it nor the job object in memory is flagged; a job object that is flagged is cancelled through the fence instead. |
| Store.Tables.CoarseProgress | apps/conversions/services.py:737-740 | Writes percentage and heartbeat through the fence, and nothing otherwise. |
| Store.Tables.PromoteOutput | apps/conversions/services.py:760-784 | The pointer is written through the fence and only unflagged; a refusal is a cancellation exactly if the generation is current and the flag set. |
| Store.Tables.TerminalTransition | apps/conversions/services.py:787-845 | Verdict, event, ledger row, outbox row and immediate expiry in one transaction, or none of them; `Retention.OutputLivesItsHours` says when the output of this transaction expires, `EventLog.TerminalTold` and `JobGuarantees.ExactlyOnceBilling` what its other rows are for. |
| Store.Tables.PurgeExpired | apps/conversions/services.py:848-874 | DONE becomes EXPIRED, loses its pointer, and the blob's bytes go. |
| Store.Tables.EmitDeadLetter | apps/conversions/services.py:668-684 | One event and at most one outbox row per job. |
| Store.Tables.DiscardBlob | apps/conversions/services.py:350-360 | Bytes go; the row goes unless some job reads it as input; output pointers to it become null. |
| Store.Tables.ReserveQuota | apps/quotas/services.py:17-64 | Too large exactly if the size exceeds the limit; else too many exactly if the set of PENDING, PROCESSING and RETRYING jobs of the workspace has reached its limit; counted by a loop over the rows. |
| Columns.QuotaDecides | apps/quotas/services.py:30-56 | Each of the three answers of the quota check is given exactly when the upload's size and the set of unfinished jobs of the workspace call for it. |
| Store.Tables.AdmitUpload | apps/conversions/services.py:184-234 | A denial leaves no trace; otherwise the key's job or a new one, and the limit still holds after the insert. |
| Store.Tables.SettleUpload | apps/conversions/services.py:183-259 | From the stored upload on: denied exactly if the size or the set of unfinished jobs says so, a new row, given column by column, exactly if nobody holds the key, and otherwise the holder's job if source, target, options and a stored checksum agree, and a mismatch if one differs. At most one decision of the submission is left, DENIED for a denial, ALLOWED for a new job or a raced mismatch; a refused or raced upload is gone, and nobody else's decision changes. |
| Store.Tables.RequeueStaleJobs | apps/conversions/services.py:877-976 | The loop equals the fold of its body over the snapshot, and the count is the number of dispatches. |
| Store.Tables.ExpireDueOutputs | apps/conversions/services.py:979-1015 | The loop equals the fold over the due jobs, one event per expired output. |
| Store.Tables.PurgeTerminalInputFiles | apps/conversions/services.py:1018-1051 | The loop shreds the selected inputs and counts them; no row is removed. |
| Store.Tables.GarbageCollectBlobs | apps/conversions/services.py:1054-1084 | Removes what it selected, counts it, and changes no job row. |
| Sweeps.PassSettlesBatch | apps/conversions/services.py:885-973 | Whatever the backlog, a pass takes a full batch of the abandoned jobs, or all of them, newest first: each is cancelled if flagged, failed if out of attempts, requeued otherwise, and no longer stale; all other rows are untouched. |
| Sweeps.ReaperSettles | apps/conversions/services.py:892-973 | The same for any selection of abandoned jobs; the jobs dispatched are exactly the requeued ones, once each. |
| Backlogs.ReaperDrains | apps/conversions/services.py:885-973 | Undisturbed passes drain any backlog: after as many as it takes batches of 200 for all that is silent by the last one, every PROCESSING job silent for more than 600 seconds at the first is cancelled, failed or requeued, column by column, and no other row is touched, although each pass serves newer jobs first. |
| Backlogs.ExpiryDrains | apps/conversions/services.py:983-1013 | Likewise every DONE job whose `expires_at` had come at the first pass is EXPIRED with its file gone, and no output whose time is not over by the last. |
| Backlogs.PurgeDrains | apps/conversions/services.py:1025-1048 | Likewise no job that is DONE, FAILED, CANCELLED or EXPIRED, and was created and finished more than the input retention before the first pass, has an input file behind an unstamped row, and every other file is kept. |
| Backlogs.CollectorDrains | apps/conversions/services.py:1061-1081 | Likewise no blob that was unreferenced and past the collection window at the first pass is left, neither row nor bytes, and nothing else is gone. |
| Sweeps.ReaperPassIsRun | apps/conversions/services.py:885-973 | A whole pass equals a run of snapshots, updates and the events owed by these updates, all of which interleave with everything else. |
| Sweeps.ExpiryRetiresBatch | apps/conversions/services.py:979-1015 | Whatever the backlog, a full batch of the due outputs, or all of them, expires, the files are gone and stamped, no other row or file changes, and the backlog shrinks by as much. |
| Sweeps.PurgeClearsBatch | apps/conversions/services.py:1025-1048 | Whatever the backlog, no input of the batch stays due, its bytes are gone, every other file is kept, and the backlog shrinks by at least the batch. |
| Sweeps.CollectorRemovesBatch | apps/conversions/services.py:1061-1081 | Whatever the backlog, exactly a full batch of the collectable blobs goes, or all of them, rows and bytes. |
| Attempt.RunConversion | apps/conversions/services.py:534-622 | Every path through the program has the effect of a sequence of that worker's own actions, late events included, with exceptions only where the script raises them. Undisturbed after a granted claim: without an exception the job is DONE (EXPIRED at zero retention) with the blob it stored, one charge and one done notice; otherwise the kind of the first exception and the budget decide between RETRYING, FAILED, and FAILED with a dead letter. Row and cache then show the last percentage written: that of the claim, 5, 10 or the converter's last report, 96, 98 or 100, by the stage that raised. |
| Attempt.ReportAll | apps/conversions/services.py:567-573 | Every report of the converter reaches the reporter, in order and at its time: its memory is the fold of the throttle over these calls, and row, under the claim, and cache show the last report, unless all of them repeat the first call within its second. |
| Attempt.HandleException | apps/conversions/services.py:625-665 | The tables become those of the retry if it is transient, has budget and is scheduled; otherwise those of the FAILED transition, followed by the dead letter exactly if that committed and the failure was transient. |
| Attempt.Promote | apps/conversions/services.py:576-583 | Succeeds exactly if nothing raises and the conditional update selects the row; otherwise the blob is discarded, row pointers and bytes, before the handler sees the exception, and the exception says why. |
| DatabaseInvariant.TerminalTransitionKeeps | apps/conversions/services.py:787-845 | The verdict keeps the ledger, outbox, row and blob invariants, and is one legal move of that row and of no other. |
| DatabaseInvariant.ReapKeeps | apps/conversions/services.py:896-973 | So does each item of the reaper. |
| DatabaseInvariant.DeleteBlobKeeps | apps/conversions/services.py:350-360 | So does deleting any blob, whoever points at it. |
| ProtocolInvariant.WorkerKeeps | apps/conversions/services.py:389-531 | What a worker knows about its claim and its own blob survives every legal write of the others: claims, heartbeats, cancel requests, verdicts and sweeps. |
| ProtocolInvariant.ReapItemKeeps | apps/conversions/services.py:885-966 | Whatever is written between a reaper's snapshot and its update, the snapshot is still of the current claim, or its threshold no longer reaches the heartbeat. |
| WorkerSafety.WorkerStepKeeps | apps/conversions/services.py:534-622 | Every step of every worker keeps the invariant. |
| WorkerSafety.WorkerRaiseKeeps | apps/conversions/services.py:591-622 | So does an exception at any point. |
| SystemSafety.ReapActKeeps | apps/conversions/services.py:896-973 | So does every reaper update, however late after its snapshot. |
| SystemSafety.CancelActKeeps | apps/conversions/services.py:468-507 | So does every cancel request, however late after its refresh. |
| SubmitSafety.SubmitStepKeeps | apps/conversions/services.py:132-260 | So does every step of every submission. |
| Runs.Reachable | apps/conversions/services.py:382-1084 | The invariant holds after every run from the empty system. |
| RowHistory.ApplyMoves | apps/conversions/services.py:389-1015 | Every action moves every row by a legal edge, keeps or supersedes its claim, retries only within the budget, and links only the holder's own output. |
| RowHistory.SnapshotStillCurrent | apps/conversions/services.py:885-895 | When a reaper's conditional update selects the row, the attempt count it decided with is still the row's. |
| RowHistory.RowsLater | apps/conversions/services.py:389-1015 | The same over any number of actions. |
| JobGuarantees.ExactlyOnceBilling | apps/conversions/services.py:815-834 | One ledger row of the input size for a DONE or EXPIRED job, none for any other; the ledger total is the sum of their input sizes. |
| Announcements.OneAnnouncement | apps/conversions/services.py:835-840 | For all time, purges included: one done key exactly for a DONE or EXPIRED job, one failed key exactly for a FAILED one, one cancelled key exactly for a CANCELLED one that no reaper cancelled and whose request, if one cancelled it, has written its outbox row, at most one dead letter, only for a FAILED one. |
| Announcements.Announces | apps/conversions/services.py:493-976 | The outbox rows that each action creates, none of which was there before. |
| Announcements.KeySource | apps/conversions/services.py:493-523 | A cancelled key is created by the worker that cancels the job, in the same transaction, or by the late statement of a request, and by no other action. |
| Announcements.CancelledKeyIffWritten | apps/conversions/services.py:495-523 | Over every run, crashes included: a CANCELLED job has its one key if and only if no action of a reaper cancelled it and no request that cancelled it still owes the outbox row, or gave it up. |
| Announcements.OneDeadLetter | apps/conversions/services.py:654-684 | At most one dead letter per job ever, although finished outbox rows are purged and the worker's last write is not fenced. |
| DeadLetters.LettersAreTold | apps/conversions/services.py:668-684 | After every run, crashes and purges included: a job has as many dead-letter events as dead letters were ever created for it, one or none. |
| JobGuarantees.OutputOwnership | apps/conversions/services.py:760-784 | A DONE job points at the blob made by the holder of its current generation; an EXPIRED job points at nothing. |
| JobGuarantees.Irrevocable | apps/conversions/services.py:396-421 | FAILED, CANCELLED and EXPIRED are final and DONE can only expire, under the same generation and pointer; a cancel request freezes generation and output and bars re-entry into PROCESSING. |
| Deliveries.FlaggedDoneWasPromoted | apps/conversions/services.py:761-766 | A flagged job that is DONE or EXPIRED later was promoted, by the worker that held it then, before the flag was set, even if its output is gone by now. |
| Deliveries.FlaggedEndsDoneIff | apps/conversions/services.py:760-817 | In every reachable state, a flagged unfinished job can still end DONE if and only if its holder has already promoted. |
| Deliveries.DeliveryWasPromoted | apps/conversions/services.py:576-590 | A DONE or EXPIRED job was promoted by an action of the worker that holds it, and no later action of the run claimed the job; an output still there is the one promoted. |
| Deliveries.OwnersFinishWhatTheyPromoted | apps/conversions/services.py:576-590 | In the one-owner run: every finishing step comes after a promotion by the same owner, with no claim in between. |
| JobGuarantees.BoundedRetries | apps/conversions/services.py:630-641 | Entries to RETRYING have strictly increasing attempt counts below the maximum, so there are fewer than the maximum, and at most twice the maximum plus one status changes, despite unlimited takeovers. |
| JobGuarantees.AttemptsAreGenerations | apps/conversions/services.py:418-421 | `attempt_count` equals `claim_generation` in every reachable state. |
| JobGuarantees.QuotaHolds | apps/quotas/services.py:40-56 | The set of PENDING, PROCESSING and RETRYING jobs of a workspace never exceeds its limit in any interleaving. |
| JobGuarantees.UploadLimitHolds | apps/quotas/services.py:30-38 | No job, in any reachable state, is larger than the upload limit. |
| JobGuarantees.OneJobPerKey | apps/conversions/models.py:156-161 | At most one job per owner, workspace and key; no blob is shared between jobs, as input or output. |
| JobGuarantees.SubmissionAccounting | apps/conversions/services.py:137-260 | Net effect of a finished submission over every run: one job, upload and ALLOWED decision; nothing, and the job found has the same owner, workspace, key, source, target, options, and checksum if one was stored; a mismatch only if one of these differs; or exactly one DENIED decision; only a raced mismatch may leave an upload, and then no job points at it. |
| JobGuarantees.LookupDecides | apps/conversions/services.py:137-173 | With unique keys, on the columns: the check returns the key's holder exactly if formats, options and a stored checksum agree and the job is unfinished or its output downloadable, refuses for a mismatch exactly if one of these differs and for a spent key in the remaining case, and, exactly if there is no holder, reuses a servable job of the same owner, workspace, file and options within the hours, refuses for the rate, or continues. |
| JobGuarantees.AdmissionDecides | apps/conversions/services.py:184-220 | A stored upload that gets the quota's row lock is denied exactly if its size or the set of unfinished jobs of the workspace says so. |
| JobGuarantees.RaceDecides | apps/conversions/services.py:235-259 | A submission that lost the race for its key ends with the winner's job exactly if formats, options and a stored checksum agree, and as a mismatch exactly if one of them differs. |
| EventLog.LogReplaysIff | apps/conversions/services.py:439-523 | After every run, crashes included, the event log replays to each job's generation and holder, and shows a cancel flag only if there is one. It replays to the whole row if and only if a late retry or requeue event set it back to RETRYING, since the last claim and after the end it tells, exactly when the job is RETRYING, and the event that a CANCELLED or flagged job calls for is there. |
| EventLog.LogReplaysJob | apps/conversions/services.py:706-726 | So the log replays to the row if no event of the job is owed, lost, or was written after a later update had been told. |
| EventLog.LogTells | apps/conversions/services.py:389-976 | What the log says in every other case; percentage and times always agree with the status, and no output expires before its time. |
| EventLog.TerminalTold | apps/conversions/services.py:799-844 | A verdict and its events are one transaction: with immediate expiry or without, it leaves nothing untold. |
| WorkerGuarantees.SupersededIsHarmless | apps/conversions/services.py:448-456 | No step of a worker without the current claim changes a job, event, ledger row, outbox row or decision: at most its own unpromoted blob, its message and its own job's entry of the progress cache. Excepted are a worker about to write its dead letter, and the late event of a retry, for which the claim was given up. |
| WorkerGuarantees.LastLetterIsOwn | apps/conversions/services.py:654-665 | That worker adds only its own FAILED job's dead letter, to the event log and the outbox, and is superseded from then on. |
| WorkerGuarantees.PaymentIsOwn | apps/conversions/services.py:721-734 | Whatever became of the job since, a late statement adds only its own event, or the cancelled key of its CANCELLED job, and frees only its own message. |
| WorkerGuarantees.CacheWrites | apps/conversions/progress.py:49-53 | A worker's step changes the progress cache exactly if it reports, and then only at its own job, current claim or not. |
| WorkerGuarantees.CacheShowsRowIff | apps/conversions/progress.py:49-68 | After a report the cached percentage is the row's if and only if the fence selects the row, or the two coincide anyway. |
| WorkerGuarantees.SupersededForever | apps/conversions/services.py:416-421 | A superseded worker stays superseded for every continuation of the run. |
| WorkerGuarantees.LiveClaimIsKept | apps/conversions/services.py:405-416 | While a claim was never stale, only its holder's actions can end it, not even a reaper with an older snapshot. |
| WorkerGuarantees.PunctualWorkerKeepsClaim | apps/conversions/services.py:885-966 | Over a run: a worker keeps its claim until it gives it up itself, or its heartbeat has got older than the limit while it held it. |
| WorkerGuarantees.BeatBuysTime | apps/conversions/services.py:448-456 | After a fenced heartbeat or progress write the job can be claimed, or reaped, exactly when more than 600 seconds have passed. |
| Heartbeats.CallingKeepsClaim | apps/conversions/progress.py:42-61 | Over a run: a worker that calls its reporter at most 599 seconds after its last call keeps its claim until it gives it up itself, whatever everybody else does, although the reporter drops calls, and although its clock and the rows' whole seconds differ. |
| WorkerGuarantees.LapsedWasStale | apps/conversions/services.py:405-411 | The record of lapsed claims used above contains only claims that were once stale. |
| WorkerGuarantees.NoStrandedJob | apps/conversions/services.py:727-734 | Every PENDING or RETRYING job has an untried message, not lost unless a statement, a dispatch or a claim was, and backed by an event still to be written if it is not on its way; every PROCESSING job has a heartbeat. |
| WorkerGuarantees.DeliveryClaims | apps/conversions/services.py:389-445 | Delivering such a message claims the job or completes its cancellation. |
| WorkerGuarantees.ReaperReleases | apps/conversions/services.py:885-966 | Once a worker was silent for longer than the limit, one reaper pass cancels, requeues or fails its job. |
| BytesSafety.FilesAreThere | apps/conversions/services.py:979-1084 | After every prompt run, whatever the sweeps did: the output bytes of every DONE job exist, and the input bytes of every job that is unfinished or within the input retention exist exactly unless its own submission raised after the commit. |
| BytesSafety.SmoothRunsKeepFiles | apps/conversions/services.py:222-247 | If no dispatch raises, all those files exist. |
| Retention.OutputLivesItsHours | apps/conversions/services.py:810-811 | From every consistent state: an output delivered with a retention of `ttl` hours is served to a repeated submission, and an expiry pass leaves job and file alone, exactly until `3600 * ttl` seconds after the verdict; from then on the submission is refused, and the pass makes the job EXPIRED and removes the file. |
| Retention.NeverExpiresEarly | apps/conversions/services.py:848-874 | Over every run after the verdict, whatever acts: `expires_at` stays the verdict's time plus `3600 * ttl`, and the job is not EXPIRED before it. |
| Retention.InputsKeptIffRetained | apps/conversions/services.py:1018-1051 | After every prompt run and the undisturbed passes that its backlog takes: an input is there if its job is unfinished or was created or finished within the retention, and gone if its terminal job was past the retention when the passes began, unless its own submission discarded it. |
| BytesSafety.PromotionKeptIffPrompt | apps/conversions/services.py:576-583 | From every state of the invariant: a collector's pass around a successful promotion leaves the job DONE without its output if and only if the promotion is later than the collection window. |
| BytesSafety.InsertKeptIffPrompt | apps/conversions/services.py:177-220 | Likewise, a pass around the insert takes the stored input bytes from the PENDING job if and only if the insert is late; the row of the upload is protected either way. |
| OneOwnerRefinement.ApplySimulates | apps/conversions/services.py:389-1084 | Every action is one enabled step of the one-owner machine, or invisible to it. |
| OneOwnerRefinement.Refines | apps/conversions/services.py:389-1084 | Every interleaved run projects onto a run of the one-owner machine. |
| OneOwner.OutputWasPromoted | apps/conversions/services.py:760-784 | In the one-owner machine an output was promoted by the present owner during the present ownership. |
| OneOwner.ClaimsCountTakings | apps/conversions/services.py:418-421 | In the one-owner machine the claim count of a job is the number of times it was taken. |
| OneOwnerRefinement.OwnersActForThemselves | apps/conversions/services.py:534-622 | An owner's step in that run is always taken by the worker that owns the job. |
| Corners.WaitingWithinBudget | apps/conversions/services.py:630-641 | Over every run: PENDING and RETRYING jobs have fewer attempts than the maximum. |
| Corners.ClaimExceedsBudgetIff | apps/conversions/services.py:405-421 | Over every run: a claim takes the attempts beyond the maximum exactly if it takes over a PROCESSING job that has reached it. |
| Corners.RequestDroppedIffClaimed | apps/conversions/services.py:462-507 | Between the refresh that saw the job waiting and the update: the request takes effect exactly if the job is waiting or flagged, and is dropped exactly if it was claimed meanwhile and is neither. |
| Corners.GivesUpOnlySpentOrFlagged | apps/conversions/services.py:630-653 | Over every run: a worker that gives up on a transient failure has no budget left, or its job is flagged, or it lost the claim. |
| Corners.TransientFailure | apps/conversions/services.py:625-665 | A transient failure under a current claim ends RETRYING, with an event and then a message to come from the worker, both lost if it dies first, exactly if budget is left and nobody asked to cancel, and otherwise FAILED with one failed key and one dead letter. |
| Witness.UndisturbedAttemptDelivers | apps/conversions/services.py:551-590 | From every state of the invariant: the holder of an unflagged claim that is left alone for twelve steps delivers its own blob, with one charge and one done notice. |
| Witness.DeliveryIsReachable | apps/conversions/services.py:115-590 | A run from the empty system to a DONE job: submit, dispatch, deliver, convert. |
| Witness.AttemptsAreUnbounded | apps/conversions/services.py:405-421 | For every number there is a run that claims a job that often, whatever the maximum. |
| Witness.StrandedJobIsReachable | apps/conversions/tasks.py:43-45 | A run in which `claim_job` raises: the task fails, its message is dropped, and the job is PENDING with nothing on its way to it. |
| Witness.SilentCancelIsReachable | apps/conversions/services.py:896-919 | A run in which the reaper cancels a job and no outbox row is ever created. |
| Witness.DroppedRequestIsReachable | apps/conversions/services.py:462-471 | A run in which a claim comes between refresh and update, and the request leaves no trace. |
| Witness.FlaggedDeliveryIsReachable | apps/conversions/services.py:576-590 | A run in which a job is delivered although its cancellation was requested. |
| Witness.EmptyDeliveryIsReachable | apps/conversions/services.py:1054-1084 | A run to a late promotion, after which a job is DONE without output. |
| Witness.LostInputIsReachable | apps/conversions/services.py:1054-1084 | A run with a late insert: a PENDING job whose input bytes are gone. |
| Witness.SpoiltJobIsReachable | apps/conversions/services.py:222-247 | A run in which the dispatch raises: a PENDING job whose input row is protected and whose input bytes are gone. |
| Witness.OvertakenEventIsReachable | apps/conversions/services.py:706-726 | A run without any crash: a redelivered message claims the job between the retry's update and its event, and the log ends with RETRYING while the job is PROCESSING. |
| Witness.LostKeyIsReachable | apps/conversions/services.py:495-523 | A run without a reaper in which a request cancels a job and dies: CANCELLED, without event and without outbox row. |
| Witness.OverwrittenProgressIsReachable | apps/conversions/progress.py:49-68 | A run in which a superseded worker's report replaces its successor's percentage in the cache, and not in the row. |
| Outbox.Relay.EnqueueOutbox | apps/audit/services.py:56-66 | Existing row, new row, or a conflict on the unique key. |
| Outbox.Relay.DeliverOutboxEvents | apps/audit/services.py:96-164 | The loop equals the recursive pass; nothing happens while delivery is off. |
| Outbox.Relay.PurgeOutboxEvents | apps/audit/services.py:188-211 | A row goes exactly if it was delivered, or for the other purge failed, before the cutoff; the others keep their order, and the rest is counted. |
| OutboxGuarantees.RowsKeepInvariant | apps/audit/services.py:129-161 | No row is both delivered and failed; unstamped means attempts left, failed means none; attempts are the calls made; each failed ordinary row has exactly one dead letter and no other row has any. |
| OutboxGuarantees.FailShape | apps/audit/services.py:141-144 | The final failure of an ordinary event commits together with a fresh dead letter. |
| Outbox.SurvivorsOf | apps/audit/services.py:188-211 | The same of the function that the relay's runs use, on the columns. |
| OutboxGuarantees.KeptUntilPurged | apps/audit/services.py:188-211 | Over every run: a row delivered, or failed, at `t` is kept unchanged until a purge of its own kind with a cutoff after `t`, and is gone for good from then on. |
| OutboxGuarantees.BothPurges | apps/audit/services.py:188-211 | After both purges at one cutoff exactly the rows are left that are pending or were finished at the cutoff or later. |
| OutboxGuarantees.AttemptStamps | apps/audit/services.py:132-160 | A call counts, and stamps the row delivered if it succeeds, failed if it was the last allowed, and not at all otherwise. |
| OutboxGuarantees.EnqueueDecides | apps/audit/services.py:56-66 | A row is inserted exactly if nobody has the key, and the row that has it is returned exactly for the same organization and kind. |
| OutboxGuarantees.AttemptSpends | apps/audit/services.py:132-160 | Every call lowers the potential of whatever is ahead, even when it creates a dead letter. |
| OutboxGuarantees.DeliveryTerminates | apps/audit/services.py:113-161 | Whatever the webhook answers, `n` ordinary events cost at most twice the attempt limit times `n` calls in all. |
| OutboxGuarantees.PassStops | apps/audit/services.py:113-164 | A pass counts its deliveries and ends because the batch is full, a delivery failed, or nothing is pending. |
| OutboxGuarantees.NextIsOldest | apps/audit/services.py:115-131 | An ordinary event is served only when no dead letter and no earlier ordinary event is pending. |
| OutboxGuarantees.DeliveredInOrder | apps/audit/services.py:115-131 | Over every run all calls for an ordinary event precede every call for a later one. |
| OutboxGuarantees.NotStarved | apps/audit/services.py:115-161 | A waiting event is called after at most as many passes as the potential ahead of it, although dead letters jump the queue and new events arrive. |
| JobOutbox.AlwaysLinked | apps/audit/services.py:56-66 | Jobs, relay and purges together: over every run the outbox rows that the job system counts on are the relay's rows, present and past, key by key. |
| JobOutbox.Projects | apps/audit/services.py:56-211 | Every run of the whole is a run of the job system and a run of the relay, so the promises of both hold of it. |
| JobOutbox.OutboxOfJobs | apps/audit/services.py:96-164 | Over every run of the whole: each key of a job is inserted at most once, done and failed exactly if it ended so, and all webhook calls together are at most twice the attempt limit per announced row. |
| JobOutbox.KeysDiffer | apps/conversions/services.py:835-840 | The text of an idempotency key determines job and kind. |
| RateLimit.Counters.IncrementCount | fileconverter/ratelimit.py:7-15 | Number 1 and a full window if there is no live counter; one more under the old expiry if it is still live at the increment; otherwise number 1 and a full window from then on. |
| RateLimit.Counters.EnforceUploadRate | apps/conversions/services.py:70-74 | Refuses, and counts nothing, exactly if the running window is full; otherwise counts the request, whatever the counter is by then. |
| RateLimit.Counters.RateLimitExceeded | fileconverter/ratelimit.py:34-38 | Without a limit nothing is counted; otherwise the request is counted first and refused exactly if its number exceeds the limit. |
| RateLimit.AloneIsIncrement | fileconverter/ratelimit.py:7-15 | What the methods compute is what an undisturbed request of the interleaved model does. |
| RateLimit.AtMostLimitAndRacers | fileconverter/ratelimit.py:7-38 | Every cache operation interleaved, both helpers mixed, expiry at any point: if never more than `k` requests of a key are open, each window admits at most `limit + k - 1`. |
| RateLimit.RacersReachTheBound | fileconverter/ratelimit.py:22-31 | For every `k` some run admits that many. |
| RateLimit.AtMostLimitPerWindow | fileconverter/ratelimit.py:22-31 | Requests of a key that come one at a time: at most the limit per window, over all runs. |
| RateLimit.AtMostInInterval | fileconverter/ratelimit.py:7-38 | With never more than `k` requests of a key open: at most `(k + 1) * (limit + k - 1) - 1` in any half-open interval of a window's length, although a request that found the counter gone can restart it while it runs. |
| RateLimit.AtMostTwiceLimitLessOne | fileconverter/ratelimit.py:7-31 | Such requests: at most `2 * limit - 1` in any half-open interval of a window's length. |
| RateLimit.TwiceLessOneIsReached | fileconverter/ratelimit.py:7-31 | For every window longer than 1 some run admits that many. |
| RateLimit.RollingIff | fileconverter/ratelimit.py:7-8 | Every interval of a window's length keeps the limit, over all runs of such requests, if and only if the limit or the window is 1. |
| SingleInstance.BeatLock.Acquire | apps/conversions/tasks.py:27-32 | Takes the key if it is absent or expired. |
| SingleInstance.BeatLock.Release | apps/conversions/tasks.py:33-36 | Deletes the key, whoever set it. |
| SingleInstance.StartMeetsOverstayed | apps/conversions/tasks.py:27-36 | A start succeeds while an instance runs exactly if that instance overstayed its time to live. |
| SingleInstance.NextCall | apps/conversions/tasks.py:27-36 | After an instance has left the next call is served at once; after it died, exactly when the time to live is over. |
| SingleInstance.ExclusiveIffOnTime | apps/conversions/tasks.py:19-40 | Over every run at most one instance is inside exactly if nobody calls while an instance overstays. |
| SingleInstance.PunctualSweepsAreExclusive | apps/conversions/tasks.py:19-40 | In particular if every instance is out before its time to live is over. |
| SingleInstance.OverstayerFreesSuccessor | apps/conversions/tasks.py:35-36 | An overstaying instance frees the key of its punctual successor. |
| Slugs.UniqueSlug | apps/organizations/models.py:13-27 | The slug is fresh, is the first free candidate, and is found after at most one suffix more than there are slugs. It is the slugified name cut to 170 characters, or `item` for an empty one, followed by a dash and the counter if that was taken, and cut only as far as 170 characters require. |
| Slugs.CandidatesDiffer | apps/organizations/models.py:23-26 | Numbered candidates differ whatever truncation does to the base. |
| Slugs.DecimalValue | apps/organizations/models.py:25 | Counters can be read back from their decimal text. |
| Slugs.SuffixFits | apps/organizations/models.py:25-26 | Suffixes fit for counters of up to 169 digits. |
| Slugs.BaseMayReappear | apps/organizations/models.py:15-26 | A full-length base ending in `-2` is its own second candidate, so the extra try is real. |
| Progress.ProgressReporter.Report | apps/conversions/progress.py:37-81 | A call is written exactly if it is the first, reports 100 or more, comes the interval after the last write, or differs from it by the minimum; a write goes unfenced to the cache and through the fence to the row. |
| Progress.HeartbeatAge | apps/conversions/progress.py:42-48 | With calls at most `gap` apart the last write is never older than the throttle interval plus `gap`. |
| Progress.LatestIsWritten | apps/conversions/progress.py:42-48 | With the settings of `run_conversion` no change of the percentage is dropped: after every call the last write has the call's percentage. |
| Progress.SteadyReportIsDropped | apps/conversions/progress.py:42-48 | An unchanged report inside the interval is dropped. |

## Left out

- Converters, MIME sniffing, hashing, HTTP, signatures, webhooks: results are arbitrary successes or failures, checksums are opaque.
- Views, permissions, feature flags, health checks, metrics, audit rows, message texts and error fields: an outcome is modelled, its wording is not.
- Account deletion and export (`apps/organizations/lifecycle.py`): it removes ledger rows and input bytes of live jobs and would break the invariants by design.
- `ConversionBatch` and the UPLOADED, SCANNING and SCAN_FAILED statuses: unused by the services modelled here.
- SQLite and per-process caches: the assumptions above exclude them.
- Storage that fails or deletes a file in a transaction that later rolls back, and a file saved without its row: stored bytes follow the committed rows.
- Retention of quota decisions, and the management commands: no modelled property depends on them.
- The rate limit inside a submission is an arbitrary answer in `Protocol`; `RateLimit` models the counter itself.
- The choice of a reusable job among the newest five: any job that satisfies the filter may be returned.
- Two relays at once and a crash between a webhook call and its commit: the relay is one process, and an attempt is one step.
- A slug taken between the search and the insert: the unique constraint of the table then rejects the row.
- Store.Tables.RequeueStaleJobs: the method runs alone; interference between snapshot and update is modelled in `Protocol` and connected by `Sweeps.ReaperPassIsRun`.
- Attempt.RunConversion: the program runs without other processes in between; `Protocol` interleaves its steps.
- Protocol: the key check, the reuse search and the rate limit of a submission are one step, and so are the cache and row writes of a progress report, and the event and the outbox row of a worker's dead letter.
- Protocol: a debt may also be paid after its process has taken its next step, so the model has runs that the code has not; the theorems hold of them, too.
- RateLimit.AtMostInInterval: not shown to be reached for more than one open request.
- OutboxGuarantees.DeliveredInOrder: speaks of the order of the inserts, not of `created_at` (see above).
- The order of rows with equal `created_at`, and of unreferenced blobs, in a sweep's batch: any selection gives the same results (`Sweeps.ReaperSettles`, `Sweeps.ExpiryRetires`).
- A deletion interrupted between file and row: both go in one step, and only files that nobody references are deleted that way.
- A blob whose `deleted_at` is stamped twice keeps the first time stamp in the model.
