# A verified model of a crash-resumable download manager

The program schedules downloads on one thread, runs a bounded number of transfers at a time, pauses, resumes, retries and cancels them, and keeps every unfinished transfer resumable across crashes. This project models its two halves and joins them.

**The scheduler.** `SchedulerSpec` is a state machine on values: a job table, a FIFO ready queue, a bag of retry timers, a bag of worker futures, stop tokens and the record of everything sent out. Each of its functions is one arm of the scheduler's code. `SchedulerInvariant` holds the inductive invariant of the whole machine and its preservation by every step; `SchedulerEffects`, `SchedulerCancels` and `SchedulerReturns` write out what every single step does and leaves alone, in none of the machine's own terms. `SchedulerTheorems`, `SchedulerClients`, `SchedulerOrder`, `SchedulerPanic` and `SchedulerQueue` say what follows for clients over every run, and where promises fail. `Lifecycle` is a reference automaton that sees only a download's events. `Jobs.Job` and `SchedulerImplementation.Scheduler` are the objects that the program updates in place, each method proved to move the tables exactly as the machine's step does, up to the whole of `run` with its drain loop.

**The transfer.** `TransferSpec` is the machine of one destination: the disk (destination, partial file with its synced length, manifest), a server with a sequence of versions, and a worker whose every change of the disk is a step of its own, so that a crash may come between any two. `TransferAccounting` holds the invariant that needs nothing from the server: offsets, lengths and records agree with the disk. `TransferInvariant` adds the bytes. `TransferRequests` writes out what a worker asks for, what it makes of each answer, what it saves and why it ends. `TransferTheorems` proves on any server what requests ask for, what stops and crashes lose and when the record is durable, and on servers whose validators betray no worker that versions are never joined and publishing is atomic. `TransferBoundary` says exactly for which servers and after which losses of power this holds, by building, with the steps of `TransferRuns`, a run to the wrong file in every other case. `Worker.Store`, `Worker.PartFile`, `ProgressTracking.Progress` and `Worker.Run` are the imperative worker; a ghost world follows each of their changes, so they are proved to take only steps of the machine.

**The two together.** `Composition` runs one scheduler over many destinations: workers take transfer steps, cancellation cleans files up, a crash loses the scheduler and all workers. `CompositionTheorems.ResultsAreTrue` is the result for a download's owner. Only its last part, that a success is one whole version, asks anything of the validators, and only of that destination's own server.

Names: a *reachable* state of the scheduler is one that some legal sequence of steps leads to from a new scheduler. A legal sequence takes commands, worker returns, timers and root cancellation in any order. A transfer is *reached* by a legal sequence of worker steps, crashes, cleanups and version changes from a destination at rest with any files, any manifest and any server, and the whole system by a legal sequence from a new scheduler over such destinations. It is *reached safely* if the destination began with nothing a worker would resume from and no validator of its server betrays a worker.

## Assumptions

- Download ids and reply channels are never reused (ids are random UUIDs, each request makes its own channel).
- At most one live job has a given destination, and all attempts on one destination use one URL. The program does not check either. Both are conditions on enqueueing in `Composition.Enabled`.
- The server conforms to RFC 9110: it answers 206 only to a range whose If-Range validator names the current version (sections 13.1.5, 14.2, 15.3.7), its body starting at the requested byte; any other success carries the whole current version. A 416 (section 15.5.17), or any other status, may come at any time. Validators and lengths may be missing from any response. One response carries bytes of one version, and its end means that all of it was delivered.
- Only where whole versions are concerned, no validator betrays a worker (`TransferSpec.NeverMixesUp`): where one names two versions, any version served from the first to the second, too, agrees with the second on the bytes a worker could keep. Validators that never come back once the bytes have changed are enough (`TransferBoundary.RunsSuffice`), and for any other server there is a run to a spliced file (`TransferBoundary.NoSplicingExactly`).
- A crash of the process keeps the bytes already written; saving a manifest replaces it as a whole. A loss of power keeps only synced bytes of the partial file, undoes no publishing, and leaves the last manifest, an earlier one or none; it is treated separately (`TransferBoundary.PowerLossHarmlessExactly`, `TransferBoundary.ReturnHarmlessExactly`).
- Cleanups fail with input/output errors only, and every worker future completes.

## Where the program falls short of its own promise

- Conditional requests alone do not keep versions apart, even from a server that conforms to RFC 9110 and gives equal validators only to equal bytes (section 8.8.1). Restarting at 0 leaves the old manifest on disk until the first checkpoint, so if the resource is changed and then changed back, and the worker that met the change crashed early, the next one resumes the restored version over bytes of the changed one and reports success (`TransferBoundary.RollbackSplices`). `TransferBoundary.NoSplicingExactly` says exactly which servers are safe.
- The backoff multiplies before it caps, so computing the delay of any attempt from 64 to 2^31 - 1 panics and ends the scheduler thread. A run that does so exists for a request if and only if it allows more than 64 retries (`SchedulerPanic.PanicNeedsManyRetries`, `SchedulerPanic.PanicHappens`). Results about reachable states are stated for a scheduler that has not panicked.
- The comment on checkpoints says that the recorded ranges never exceed the durable bytes. Opening a session breaks this exactly when it starts below the offset the manifest on disk still records, and the next checkpoint restores it (`TransferTheorems.OpeningDurableExactly`, `TransferTheorems.CheckpointMakesDurable`). Every server with something to send can bring this about (`TransferBoundary.RestartUndoesDurability`).
- A clean stop loses nothing only if the server gave a validator; the exact condition is in `TransferTheorems.CleanStopKeepsAll`, a run that loses a byte in `TransferBoundary.StopWithoutValidatorForgets`.
- The dispatch loop takes an id off the queue before it looks at the root token, so after root cancellation a queued job may be in no queue (`SchedulerTheorems.Placement` states the queue's completeness only while the root token is uncancelled). A step drops a queued job from the queue if and only if it is such a round of the loop (`SchedulerQueue.UnlistsExactly`), and such rounds do come about (`SchedulerQueue.UnlistedHappens`). The job is still ended by the shutdown.

## Model

| member | source | states |
|---|---|---|
| SchedulerInvariant.StepKeeps | src/scheduler.rs:135-426 | every command, worker return, timer, dispatch, root cancellation and shutdown keeps the invariant of the whole machine |
| SchedulerInvariant.ReachableInv | src/scheduler.rs:135-184 | the invariant holds after every legal sequence of steps |
| SchedulerInvariant.WorkerKeeps | src/scheduler.rs:355-410 | all arms of a worker's return keep the tables, histories and replies in order, or the thread dies over a request above 64 retries |
| SchedulerInvariant.CancelAllKeeps | src/scheduler.rs:210-217 | after cancelling all, every remaining job waits for its worker, so clearing the queue and the timers drops no live job |
| SchedulerTheorems.Placement | src/scheduler.rs:119-425 | the queue lists exactly the queued jobs once each; exactly one worker per job that needs one and none besides; one timer, with the right number, per retrying job; stop tokens are cancelled exactly for pausing and cancelling jobs |
| SchedulerTheorems.ResultsAndReplies | src/scheduler.rs:270-409 | no result while a job lives and exactly one afterwards; at most one answer per request; an unanswered request is a pause waiting in a pausing job |
| SchedulerTheorems.RecordStaysInOrder | src/scheduler.rs:187-412 | in every reachable state, also after the thread has died: at most one result per download and one answer per request, legal logs, and a terminal event exactly with its result and announcing it |
| SchedulerTheorems.NothingIsLost | src/scheduler.rs:178-184 | once the drain loop is dry there are no jobs, every download has exactly one result and every request exactly one answer |
| SchedulerTheorems.DrainShrinks | src/scheduler.rs:181-183 | each turn of the drain loop removes one worker and starts none, so the loop ends |
| SchedulerTheorems.EventLog | src/scheduler.rs:225-412 | replaying a download's events gives its job's state; the log opens with Queued, nothing follows a terminal event, and that event is Completed if and only if the result is Ok, Cancelled if and only if it is that error, and otherwise Failed with the very error |
| SchedulerTheorems.RetrySchedule | src/scheduler.rs:384-403 | timers are the announced retries, never twice the same; attempts strictly increase; every delay is within 10 s and the delays add up to at most the budget; for up to 2^31 retries each is the capped power of two, so they never shrink |
| SchedulerTheorems.StaleTimersAreInert | src/scheduler.rs:257-269 | a timer requeues its download only if it is the last one started for it and the job still waits; otherwise it only disappears |
| SchedulerTheorems.AttemptsAddUp | src/scheduler.rs:367-403 | dispatches of a live job are its attempts plus clean pauses plus the worker in flight; the attempt stays within the limit; at most one failure beyond the retries |
| SchedulerTheorems.UnreachableArms | src/scheduler.rs:355-409 | a returning worker finds its job, never falls into the invalid-transition arm, and the general retry arm is only entered from Running |
| SchedulerTheorems.DispatchInOrder | src/scheduler.rs:415-425 | the dispatch loop starts exactly as many ids as there are free places, from the front and in order, and leaves no place free while an id waits |
| SchedulerTheorems.ConcurrencyBound | src/scheduler.rs:186-425 | no step raises the number of workers above the limit in force or above what it was |
| SchedulerClients.PauseAnswer | src/scheduler.rs:270-301 | a pause is answered at once unless a worker has to stop first; the immediate answer is Ok exactly if the job is now paused |
| SchedulerClients.ResumeAnswer | src/scheduler.rs:302-324 | a resume is answered once, Ok exactly if the job is now queued, running or waiting to retry |
| SchedulerClients.WaitersHearTheEnd | src/scheduler/job.rs:48-86 | all waiters of a pausing job are answered in the step its worker returns: Ok if it is paused, else what its owner is told |
| SchedulerClients.PauseConfirmedAtRest | src/scheduler.rs:270-409 | a pause is confirmed only in a step after which its download is paused or has completed |
| SchedulerClients.CancelIsFinal | src/scheduler.rs:325-366 | a cancelling job is changed by no step but its own worker's return, which ends it with Ok only if finished and otherwise with the cleanup's answer |
| SchedulerQueue.UnlistsExactly | src/scheduler.rs:415-425 | from a reachable state whose queued jobs are all in the queue, a step leaves one out if and only if it is a round of the dispatch loop after the root token was cancelled |
| SchedulerQueue.UnlistedHappens | src/scheduler.rs:417-422 | for any request there is a run to a queued job that is in no queue |
| SchedulerEffects.EnqueueEffect | src/scheduler.rs:119-126 | a new download enters with attempt 0 at the end of the queue and its log opens with Queued; nothing else changes |
| SchedulerEffects.PauseEffect | src/scheduler.rs:270-301 | for each state of the job: without a worker it is paused at once and out of the queue, running it is told to stop and the request waits, stopping it has one more to answer, otherwise only the answer is new; no other download, worker or timer changes |
| SchedulerEffects.ResumeEffect | src/scheduler.rs:302-324 | a paused job goes to the end of the queue; in every other state only the answer is new |
| SchedulerCancels.CancelEffect | src/scheduler.rs:325-354 | a job without a worker is gone, out of the queue, with one result, Cancelled or the cleanup's error; any other is cancelling, its stop token cancelled, its waiters told; every other download is as before |
| SchedulerCancels.CancelAllEffect | src/scheduler.rs:210-217 | cancels each job as if by itself and empties both waiting lists |
| SchedulerCancels.ShutdownEffect | src/scheduler.rs:178-180 | does the same to every job and leaves the main loop |
| SchedulerEffects.LimitEffect | src/scheduler.rs:218-221 | changing the limit changes nothing else |
| SchedulerEffects.TimerEffect | src/scheduler.rs:257-269 | the timer a job waits for puts it at the end of the queue; any other only disappears |
| SchedulerEffects.StartEffect | src/scheduler.rs:415-425 | a round of the loop starts the front of the queue with a fresh stop token, or after root cancellation only takes it off |
| SchedulerReturns.ReturnEffect | src/scheduler.rs:355-410 | a network failure or HTTP 5xx below the limit is tried again, with the next attempt, its timer and its announced delay, or the thread dies for attempts from 64 to 2^31 - 1; while pausing it rests with the failure counted; at the limit and for any other error that very error is the one result; a finished worker is Ok whatever was asked meanwhile |
| SchedulerOrder.StepMovesQueue | src/scheduler.rs:119-425 | every step only takes ids out of the queue, keeping the order of the rest, or puts newly queued ones behind all others, and starts none but the front |
| SchedulerOrder.FirstComeFirstServed | src/scheduler.rs:415-425 | over any run, while a download waits, none behind it or queued later is started |
| SchedulerPanic.PanicNeedsManyRetries | src/scheduler.rs:41-46 | the thread only dies if some request allows more than 64 retries |
| SchedulerPanic.PanicHappens | src/scheduler.rs:384-392 | for any request above 64 retries there is a run in which the thread dies and the download never gets a result |
| SchedulerImplementation.Scheduler.constructor | src/scheduler.rs:99-113 | a new scheduler is the machine's initial state |
| SchedulerImplementation.Scheduler.Schedule | src/scheduler.rs:119-126 | files the job, queues its id and emits Queued |
| SchedulerImplementation.Scheduler.OnDispatch | src/scheduler.rs:227-256 | updates the tables as the machine's dispatch does |
| SchedulerImplementation.Scheduler.OnRetryElapsed | src/scheduler.rs:257-269 | updates the tables as the machine's timer arm does |
| SchedulerImplementation.Scheduler.OnPause | src/scheduler.rs:270-301 | updates the tables as the machine's pause arm does |
| SchedulerImplementation.Scheduler.OnResume | src/scheduler.rs:302-324 | updates the tables as the machine's resume arm does |
| SchedulerImplementation.Scheduler.OnCancel | src/scheduler.rs:325-354 | updates the tables as the machine's cancel arm does |
| SchedulerImplementation.Scheduler.OnWorker | src/scheduler.rs:355-410 | updates the tables as the machine's worker arm does, in every case of state and result |
| SchedulerImplementation.Scheduler.TransitionJob | src/scheduler.rs:225-412 | every event moves the tables as the machine's transition does |
| SchedulerImplementation.Scheduler.CancelAll | src/scheduler.rs:210-217 | cancels each job once, in any order of the table, then clears both waiting lists |
| SchedulerImplementation.Scheduler.HandleCmd | src/scheduler.rs:187-223 | every command moves the tables as the machine's does |
| SchedulerImplementation.Scheduler.TryDispatch | src/scheduler.rs:415-425 | takes only legal steps while the root token may be cancelled under it, is the machine's whole loop if it is not, and stops only at an empty queue, the limit or the cancelled root |
| SchedulerImplementation.Scheduler.Turn | src/scheduler.rs:136-176 | one loop iteration takes legal steps and leaves no place free while an id waits |
| SchedulerImplementation.Scheduler.Drain | src/scheduler.rs:181-183 | ends, with no worker left |
| SchedulerImplementation.Scheduler.Run | src/scheduler.rs:136-184 | after any number of turns ends with empty tables, one result per download and one answer per request, or died over a request above 64 retries |
| SchedulerImplementation.Serve | src/manager.rs:50-54 | a new scheduler may be run, and ends with empty tables, one result per download and one answer per request, or died over a request above 64 retries |
| Jobs.Record.AnswerAllOnce | src/scheduler/job.rs:48-56 | answering a list of distinct requests gives each exactly one more reply and touches nothing else |
| Jobs.Job.ResolvePauseWaiters | src/scheduler/job.rs:48-56 | answers the waiters in turn and empties the list; does nothing in other states |
| Jobs.Job.Finalize | src/scheduler/job.rs:58-80 | waiters, terminal event and result, in that order; the event is Completed for Ok, Cancelled for that error and Failed with the very error otherwise |
| Jobs.Job.Pause | src/scheduler/job.rs:82-86 | confirms the waiters, parks the job and says so |
| Jobs.Job.Retry | src/scheduler/job.rs:88-100 | counts the attempt, waits for it and announces it with its delay |
| Lifecycle.LegalLogShape | src/events.rs:24-35 | logs the automaton accepts open with Queued and have a terminal event at most last |
| Lifecycle.RetriesIncrease | src/events.rs:24-35 | retry attempt numbers strictly increase along an accepted log |
| Lifecycle.EachDelay | src/scheduler.rs:41-51 | each announced delay, a first and only one too, is within 10 s, and is the capped power of two up to attempt 2^31 |
| Lifecycle.DelaysGrow | src/scheduler.rs:41-51 | announced delays never shrink up to attempt 2^31 |
| Backoff.DelayExactly | src/scheduler.rs:41-51 | for every 32-bit attempt: up to 63 the delay is min(2^attempt, 10) s, from 64 to 2^31 - 1 computing it panics, and from 2^31 on, where the exponent is negative, it is at most half a second |
| Backoff.DelayTable | src/scheduler.rs:41-51 | the delays are 1, 2, 4, 8 and then always 10 s |
| Backoff.DelayAtMostCapped | src/scheduler.rs:41-51 | whatever the attempt, a delay that is computed is within the cap |
| Manifests.ComputeResumeOffset | src/storage/manifest.rs:58-69 | the loop ends on every range list, at the end of the chain of ranges from 0 |
| Manifests.PrefixCovered | src/storage/manifest.rs:58-69 | everything below the resume offset is covered, for any list of ranges |
| Manifests.OffsetIsLargestPrefix | src/storage/manifest.rs:58-69 | for disjoint non-empty ranges it is the largest such number |
| Manifests.OffsetIgnoresOrder | src/storage/manifest.rs:58-69 | and does not depend on the order of the list |
| Manifests.ContiguousOffset | src/storage/manifest.rs:71-86 | recording a prefix of length w makes the offset w and keeps url and validator |
| TransferAccounting.StepCounts | src/worker.rs:25-135 | on any server every step keeps offsets, lengths, records and the disk in agreement: what a session has written is what is in the file, its manifest never runs ahead of it, and a success reports the published length |
| TransferRequests.FirstRequest | src/worker.rs:33-50 | an existing destination and no permission to overwrite end the worker at once; otherwise it asks for the bytes after those it keeps, with the recorded entity tag or else the date as If-Range, or for everything |
| TransferRequests.NeverReplaces | src/worker.rs:33-42 | without that permission no number of workers, crashes and cleanups changes an existing destination |
| TransferRequests.AnswerDecides | src/worker.rs:62-76 | a refused range is asked for again as a whole, once; other failures end with their status; a 206 continues at the byte asked for and any other success starts over |
| TransferRequests.SessionRemembers | src/worker.rs:76-87 | the file is cut to the session's start and the session records the answer's own validators and total |
| TransferRequests.SessionKeeps | src/worker.rs:92-134 | a session stays with its version, body, start and validators |
| TransferRequests.SaveRecords | src/storage/file.rs:61-74 | a saved manifest is the session's and records all that was written |
| TransferRequests.CadenceExactly | src/storage/file.rs:50-59 | a checkpoint is taken once 4 MiB are unrecorded and not before |
| TransferRequests.StableBytesStay | src/storage/file.rs:26-84 | only a sync makes bytes stable, and stable bytes are never rewritten |
| TransferRequests.PublishesSynced | src/storage/file.rs:76-84 | what is renamed over the destination is the complete file, all of it synced |
| TransferRequests.EndHasReason | src/worker.rs:25-135 | each way for a worker to end has its own reason: success only after publishing, stopped only when told to, a network error only from the connection, a status only from that answer, FileExists only from an existing destination |
| TransferRequests.StopStays | src/worker.rs:97-103 | a worker on its way out after a stop ends as stopped, or with the disk's error |
| TransferRequests.ReadFailureStays | src/worker.rs:113-118 | a failed read ends as a network error whatever becomes of the checkpoint after it |
| TransferInvariant.StepKeeps | src/worker.rs:25-135 | every step of worker, disk, server, cleanup or crash keeps the versions apart |
| TransferInvariant.SessionAgrees | src/storage/file.rs:29-74 | whichever version the manifest on disk, old or new, will be matched with, the session's bytes are that version's wherever a worker could keep them |
| TransferInvariant.SessionIsSafe | src/storage/file.rs:26-74 | so while the partial file is a prefix of the session's version, whatever manifest is on disk is safe to resume from |
| TransferInvariant.SaveKeeps | src/storage/file.rs:61-74 | a saved manifest names the version whose prefix it records |
| TransferTheorems.NoSplicing | src/worker.rs:44-134 | over any chain of attempts, crashes and version changes, from nothing to resume and on a server whose validators betray no worker, reported success means exactly one version's bytes at the destination, and their number |
| TransferTheorems.AtomicPublish | src/storage/file.rs:76-84 | at every moment the destination is what it was or one whole version |
| TransferTheorems.RangesAreConditional | src/worker.rs:137-167 | on any server, every range request carries the prior manifest's validator as If-Range and lies within the partial file |
| TransferTheorems.OpensWithinFile | src/storage/file.rs:26-48 | on any server, the partial file is only ever opened at an offset within it |
| TransferTheorems.HalfDoneRestarts | src/storage/mod.rs:20-32 | on any server, a crash between the two halves of publishing or discarding, where a manifest is left without a file, makes the next worker start at 0 |
| TransferTheorems.CleanStopKeepsAll | src/worker.rs:97-103 | on any server, after a clean stop the next worker resumes at the last byte if and only if there was a validator, nothing was downloaded, or this session wrote nothing |
| TransferTheorems.CrashLosesLittle | src/storage/file.rs:21-59 | on any server, after a successful write less than 4 MiB is unrecorded on disk, and a resumable record is where the next worker resumes |
| TransferTheorems.OnlyOpeningUndoesDurability | src/storage/file.rs:50-84 | on any server, no step but opening makes the manifest claim more than the synced bytes of the partial file; a manifest left without a file is HalfDoneRestarts' matter |
| TransferTheorems.OpeningDurableExactly | src/storage/file.rs:26-48 | on any server, opening keeps that claim if and only if the session starts no earlier than the manifest on disk records |
| TransferTheorems.CheckpointMakesDurable | src/storage/file.rs:61-74 | on any server, every checkpoint establishes the claim |
| TransferTheorems.StaysDurable | src/storage/file.rs:26-84 | on any server, the claim holds throughout any run whose sessions open at their record |
| TransferBoundary.NoSplicingExactly | src/worker.rs:44-134 | for every list of versions: over all runs workers publish only what they were being served if and only if no validator betrays them |
| TransferBoundary.MixUpSplices | src/worker.rs:76-87 | whenever one does, there is a run that publishes the first bytes of one version followed by the rest of another |
| TransferBoundary.RollbackSplices | src/storage/file.rs:29-48 | a resource changed and changed back, with strong validators: a run reports success over bytes of no version |
| TransferBoundary.RecurringValidatorSplices | src/worker.rs:157-166 | a tag kept over a change: a run reports success over bytes of no version |
| TransferBoundary.PowerLossHarmlessExactly | src/storage/file.rs:61-74 | whatever a loss of power that keeps the last manifest leaves after the synced bytes, all later workers publish only what they were served if and only if the manifest is unusable, claims only synced bytes, or names only versions with at most one byte beyond those; then every success is one whole version |
| TransferBoundary.ReturnHarmlessExactly | src/storage/manifest.rs:46-56 | the same for a loss of power that brings back any manifest taken from a version so far, or none: harmless if and only if every version it could be matched with has nothing beyond the kept synced bytes, or has exactly those bytes and no others could be kept |
| TransferBoundary.EarlierMayReturn | src/storage/manifest.rs:46-56 | every manifest that was ever on disk in the run is one of those |
| TransferBoundary.RestartUndoesDurability | src/storage/file.rs:29-48 | from every destination at rest, on any server with a byte to send, a run to a manifest that claims more than is synced |
| TransferBoundary.StopWithoutValidatorForgets | src/worker.rs:97-103 | from every such destination, a run in which a clean stop after one byte makes the next worker start at 0 |
| ProgressTracking.Progress.Add | src/events.rs:96-109 | counts bytes and publishes exactly after 64 KiB or the interval; less than one sample is ever held back |
| Worker.Store.DiscardPartial | src/storage/mod.rs:20-32 | removes partial file, then manifest; success means both are gone, and failure never leaves a manifest that resumes without its file; the world it leaves is the one the whole system's steps assume |
| Worker.Connect | src/worker.rs:33-76 | gives up on an existing destination it may not overwrite, and only then with FileExists; up to the response takes only legal steps, changes nothing on disk, and finds the byte where the body belongs |
| Worker.PartFile.Open | src/storage/file.rs:26-48 | creates and cuts the file as two legal steps, or ends the worker with an input/output error |
| Worker.PartFile.Write | src/storage/file.rs:50-59 | appends the buffer in any pieces and takes a checkpoint when due |
| Worker.PartFile.Checkpoint | src/storage/file.rs:61-74 | sync before manifest, both as legal steps; nothing if nothing was written |
| Worker.PartFile.Finalize | src/storage/file.rs:76-84 | on success the destination is the partial file's content and the partial file is gone |
| Worker.Transfer | src/worker.rs:92-134 | counter, file position and session agree after every chunk; on success the last published value is the reported and the actual length |
| Worker.Run | src/worker.rs:25-135 | on any server takes only legal steps, never ends as Cancelled, leaves an existing destination alone unless it may overwrite it, publishes counts in ascending steps below 128 KiB, and on success the destination's length is the reported and the last published one; where no validator betrays it, it is one whole version |
| Composition.StepKeeps | src/scheduler.rs:119-425 | scheduler, workers, servers and crashes together keep the invariant: files are written only where a worker is out, and workers stop only when told to |
| Composition.StepLeads | src/scheduler.rs:119-425 | each step of the whole system takes every destination along legal steps of its own, so what holds of one transfer holds of each |
| Composition.StepFrame | src/scheduler.rs:225-425 | a scheduler step keeps every other worker with its job, request and stop token, and starts only queued jobs |
| CompositionTheorems.SingleWriter | src/scheduler.rs:227-256 | on any servers, while a destination's files are written exactly one worker is out for it |
| CompositionTheorems.ResultsAreTrue | src/scheduler.rs:128-133 | over every run, on any servers: one result; Ok means the destination's length is the reported one, and Cancelled means that it was asked for and that partial file and manifest are gone; and where the destination was reached safely, Ok means one whole version |
| CompositionTheorems.OnlyCancelCleans | src/storage/mod.rs:20-32 | a scheduler step changes a destination's files only as a download leaves it whose cancellation somebody asked for: pauses, retries, failures and successes keep what there is to resume |
| CompositionTheorems.PublishesWhole | src/storage/file.rs:76-84 | on any servers a destination changes only through a worker that has its whole body, to the complete partial file, and an existing one only if the request says overwrite; and where it was reached safely, to one whole version |

## Left out

- The asynchronous runtime: threads, polling, wakers and panics caught around a worker's future. Which event comes next is chosen freely; a panicking worker is a step that ends it with an unknown error.
- HTTP, URL and header text, JSON and path suffixes. Validators, urls and destinations are opaque numbers, and a torn manifest counts as absent.
- The event bus drops events for slow readers and channels hold one message; here every event, result and answer sent is recorded.
- Commands still in the channel at shutdown, whose senders learn of it outside the scheduler.
- Rates, elapsed time, percentages and display text. Whether the publishing interval has passed is an arbitrary boolean.
- Request and configuration builders, and user-supplied headers.
- SchedulerSpec.HandleCmd: does not say what an enqueue under an id already in use does to the record of the earlier download, because ids never recur.
- Manifests.Manifest is a value, not an object: the program only ever replaces the ranges of the copy a session owns, and saves it as a whole.
- SchedulerImplementation.Scheduler.Run: makes a finite number of turns before shutting down, because nothing is promised about a scheduler that never stops beyond what holds after each turn.
- CompositionTheorems.ResultsAreTrue: says nothing about a download whose scheduler thread has died; its owner then learns of the shutdown from the dropped channel.
