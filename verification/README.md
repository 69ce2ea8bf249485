# Verified model of the grading platform

This project models the parts of the platform whose correctness cannot be read off one function:
the grading lifecycle that many workers drive concurrently, exercise publication, content-addressed
cache seeds, integrity manifests, source fetching and administrator operations. Everything is proved
for all inputs, all interleavings of transactions and all reachable states.

## How it is organised

* **Grading lifecycle.** `Database` holds the rows (tasks, runs, submissions, receipts,
  repositories) as one value `Db`; `Queue`, `Submissions` and `Grading` give each SQL transaction as
  a step function on it; `Lifecycle` collects the 29 transactions as operations `Op` with what the
  environment guarantees (`Enabled`) and runs of them (`Legal`, `Exec`). Functions of several
  transactions are several operations (`Examine` then `Commit`; `Close` then `SchedulePrivate`;
  `Select` then `EnqueueRun`; `Retain` then `EndSnapshot` then `Finish`), so a run may interleave
  anything between them. `Invariant` states what every reachable state satisfies;
  `Preservation`, `ControlSteps`, `GradeSteps` and `RunSteps` prove that every transaction keeps it;
  `Fate` and `Frames` say what one transaction can do to one task row, one repository row and each
  table. The theorems over runs are in `Theorems`, `Results`, `Selection`, `Budget`, `Fetching`,
  `RunQueue` and `Rollouts`; `Counterexamples` has a run that defeats a promise. What each transaction
  must answer is stated from the rows alone, without its step function: leasing in `Dispatch`, receipts
  in `Intake`, fetch slots in `Fetching`, public and private runs in `RunQueue`, results in
  `Acceptance`, closing and requests in `Closing`, review flags and sweeps in `Reviews`. `Store` is the imperative form: the class `GradingStore` updates its
  tables in place, with the ordered queries as loops in `Queries`, and every method is proved equal
  to the step function the theorems are about. `Drivers` proves that the multi-transaction functions
  are runs of the machine.
* **Exercise publication.** `Exercises` has the class `Catalog` with publication, rollout to existing
  repositories and atomic application of a prepared set; `Rollouts` shows that each of them is a run
  of rollout steps of the lifecycle. `Encoding` computes the length of a definition's JSON text, which
  its validation limits.
* **Caches.** `Seeds` validates cache configurations; `CacheSeal` defines what a capture of a
  directory tree records, sealing, and why a capture determines the tree; `Capture` scans, builds
  and verifies manifests; `Preparation` bounds temporary output, exports and publishes.
* **Manifests.** `Integrity` validates snapshots and generates and checks manifests.
* **Sources.** `Sources` has the hourly API budget, tree validation and fetching through a shared
  blob cache.
* **Administration.** `Admin` gives the transactions of the operation table, `AdminRuns` their
  properties over runs with crashes, restarts and stale workers, `AdminPortal` the class.

Conventions: a digest is modelled by its preimage (SHA-256 without collisions), base64 text by what it
decodes to, a UUID by a number that was not drawn before, the database and host clocks by one clock
that never runs back. Definitions of which the length is computed have timestamps of whole seconds in
four-digit years. Fields named `issued`, `grants`, `tickets`, `processed` and `trails` are history.

## Findings about the code

* Receipts out of order can defeat "the last eligible receipt wins": a repeated receipt of the
  current commit is not stored as a submission, so its older time stays, and a delayed receipt of
  another commit between the two times becomes the final one. `Counterexamples.DelayedReceiptWins` is
  such a run from the empty database through the closing; `Selection.RecordAgreesIff` gives the exact
  condition under which one more receipt keeps the law.
* `succeeded` can be overwritten: the failure update of administrator operations has no state guard.
  `AdminRuns.SuccessOverwritten` is a run in which it happens, with a stale worker and its successor;
  `AdminRuns.SettledUnlessFailed` says exactly when a settled operation changes.
* A merged revision can be refused although both parts are valid, but only for its serialized size
  (`Protocol.MergedSound`). `Encoding.MergedValidIff` gives the exact condition,
  `Encoding.MergeRefused` and `Rollouts.RolloutRefused` two such definitions;
  `Exercises.Catalog.ApplySet` then leaves everything as it was.
* The fetch of a cached blob does not compare the size stated by the tree.
  `Sources.CachedSizeUnchecked` has a tree that is fetched through the cache and refused without it;
  `Sources.CachedAgreesIff` says exactly when the two agree, and `Sources.Client.FetchSnapshot` exactly
  when the cached fetch succeeds.

## Model

| member | source | states |
|---|---|---|
| `Theorems.Step` | crates/store/src/grading.rs:29-383 | Every one of the 29 transactions keeps the whole invariant (foreign keys, fenced leases, exclusive grading, runs that follow tasks, scores, baselines, attempts, receipts, closure, captured sources) and never rewrites history: no row disappears, pinned columns and existing deadlines only move as allowed, time does not run back. |
| `Theorems.Safe` | crates/store/src/queue.rs:18-104 | The same over every legal run of any length. |
| `Theorems.Reachable` | migrations/0003_manual_private_grading.sql:7-29 | Every state reachable from an empty database satisfies the invariant, under any interleaving of the phases of multi-transaction functions. |
| `Theorems.LeaseHolds` | crates/store/src/queue.rs:30-104 | A holder that heartbeats in time keeps its task through every run: the lease stays live with the same owner and attempts, and expires exactly 120 seconds after the last heartbeat, whatever all others do. |
| `Theorems.StaleTokenInert` | crates/store/src/queue.rs:42-104 | Once a token is no longer on its task, it never returns there in any run, and afterwards every call that presents it (heartbeat, finish, fail, defer, postpone, poll, permanent failure, result commit) leaves the task row untouched. |
| `Dispatch.NothingWithheld` | crates/store/src/queue.rs:30-40 | Whenever a task of a wanted kind is unlocked, has fewer than eight attempts and is pending and available or leased with its lease run out, a lease call gets a task, and none that comes after it by priority and availability. |
| `Dispatch.HandedOut` | crates/store/src/queue.rs:30-40 | It gets only such a task, for 120 seconds, under the new token, with one attempt more; no other row moves. |
| `Dispatch.NeverLost` | crates/store/src/queue.rs:30-40 | No active task with attempts left is lost: once it is available or its holder's lease has run out, polling reaches it in a legal run, whatever comes first. |
| `Dispatch.GradingNotWithheld` | crates/store/src/grading.rs:29-67 | The same for grading: a worker without a live grade lease gets a task whenever there is one that suits its profiles and resources and whose student is not being graded; its run is then running. |
| `Dispatch.HandedToGrade` | crates/store/src/grading.rs:29-67 | A grading worker is handed only what suits it, and nothing while it or the student is busy. |
| `Dispatch.HolderMoves` | crates/store/src/queue.rs:42-104 | Heartbeat, finish, permanent failure and deferral move exactly the row of a live lease under the presented token, and move it so. |
| `Dispatch.PushedBack` | crates/cli/src/lifecycle.rs:137-139 | A rate limit pushes a waiting task of the token back, never forward. |
| `Dispatch.StartedOver` | crates/store/src/queue.rs:88-97 | An operator's retry restarts exactly a failed control task at once; an open invitation exactly a finished provisioning of the token, five minutes later. |
| `Dispatch.Repeated` | crates/cli/src/lifecycle.rs:425-476 | Provisioning again queues a missing task or restarts a failed one; locking again restarts a finished or failed one. |
| `Fate.FateOfAll` | crates/store/src/queue.rs:18-104 | What any transaction does to any task row: tokens change only to fresh ones, a live lease moves only for its holder, attempts are zero after a reset of this task and otherwise move only by its leases and deferrals, and finished work is revived exactly by a reset of its own (closing its repository, an operator, an invitation poll, a repeated provisioning or lock). |
| `Frames.FrameOf` | crates/store/src/submissions.rs:16-165 | Which tables each transaction can write: runs, repositories, receipts and submissions are untouched by all others. |
| `Frames.RepoFateOf` | crates/store/src/submissions.rs:105-165 | What any transaction does to any repository row: closing freezes the newest submission exactly when due and open; final choice, closure and grading revision change in no other way than by their own transaction. |
| `Results.OneLiveLease` | crates/store/src/grading.rs:37-67 | In every reachable state two live grade leases with the same worker or the same enrollment are the same lease. |
| `Results.WrittenOnce` | crates/store/src/grading.rs:129-200 | From the moment a run has a result, no run of transactions changes any column of its row. |
| `Results.Replay` | crates/store/src/grading.rs:140-150 | Once a result is stored, then after any further run the first phase of acceptance has no effect for any result presented for that run, by any worker and task: it is refused, or acknowledged, and then it is the stored one. |
| `Results.LateCommit` | crates/store/src/grading.rs:150-168 | The same for the second phase of an acceptance that was still under way: nothing changes, and every other result is a conflict. |
| `Results.Acknowledged` | crates/store/src/grading.rs:129-168 | A result that passed both phases is acknowledged whenever the same worker presents it again, in the first phase and in the second, after anything between the phases and any run afterwards. |
| `Acceptance.LeaseSays` | crates/store/src/grading.rs:71-127 | In every reachable state a worker can present a lease exactly if the task is its own under the token, live or done, with a sound definition that fits the worker; the lease names the run, the submission's commit, its source, the run's own definition and the points and deadline of its baseline. |
| `Acceptance.ExaminedIff` | crates/store/src/grading.rs:129-150 | In every reachable state the first phase refuses exactly the results that are not the worker's own lease truthfully reported within all limits, with a score that fits the status, or that come after another one; the points it carries on are the score's, the public points the baseline's. |
| `Acceptance.ForgedRefused` | crates/core/src/protocol.rs:168-184 | A result with another token, worker, run, commit or definition is refused. |
| `Acceptance.ValidIff` | crates/core/src/protocol.rs:168-231 | Validation accepts a result exactly if its provenance is the lease's, it is within the limits and its score fits its status, and then yields the score of a completed one. |
| `Acceptance.HonestStored` | crates/store/src/grading.rs:150-200 | Such a result of an unreported run passes both phases; status, points, public points, report, finished task, queued publication and, if it was invalidated, the review flag are stored, and nothing else. |
| `Acceptance.CommittedIff` | crates/store/src/grading.rs:150-200 | In every reachable state the second phase writes exactly if token, owner and live lease are still there, whatever happened since the first, and then writes what the first found. |
| `Results.ResultIffDone` | crates/store/src/grading.rs:170-200 | In every reachable state a run has a result exactly when its grade task is done and exactly when it is to be published, and a run that waits has a waiting task. |
| `Results.SettledKept` | crates/cli/src/lifecycle.rs:411-416 | A run that has ended with a finished or failed task keeps its whole row under every transaction, synchronization included. |
| `Results.AdjustmentEnds` | crates/store/src/grading.rs:251-383 | A private run that has ended keeps its row forever. |
| `Results.AdjustedOnce` | crates/store/src/grading.rs:251-383 | In every reachable state, of two runs with the same baseline and grader revision at most one is completed, invalidated or rejected, and the earlier ones have failed for infrastructure reasons or timed out. |
| `Results.TriggerAdmits` | migrations/0003_manual_private_grading.sql:7-29 | Whenever scheduling or retrying inserts a private run, the trigger's condition holds, so the guard never fires in a reachable state. |
| `Results.Provenance` | crates/core/src/protocol.rs:168-230 | In every reachable state completed runs have points within their own revision's maximum and no other run has any; public points of a public run equal its points; those of a private run equal the points of its completed public baseline of the same submission; only private runs are invalidated. |
| `Results.Frozen` | crates/store/src/submissions.rs:105-136 | A closed repository stays closed in every run, its deadline is constant and past, and without an instructor's selection for it the final submission never changes. |
| `Results.FinalKept` | crates/cli/src/main.rs:631-654 | Only a selection for the repository itself changes the final submission of a closed one. |
| `Results.DeadlineAdvances` | crates/store/src/submissions.rs:138-165 | An extension that takes effect strictly advances the deadline of an open repository, and no later run moves it back. |
| `Closing.LockQueued` | crates/store/src/submissions.rs:122-133 | Closing a repository that is due queues its lock at priority 100, gives a failed one another chance, and leaves any other alone. |
| `Closing.Chosen` | crates/store/src/submissions.rs:105-117 | It closes the repository with the newest submission, or none, as the final one, and never changes the choice of a closed one. |
| `Closing.FinalWorkFirst` | crates/store/src/submissions.rs:117-122 | Every fetch and grade task of the submission that becomes final is put in front, restarted if it had failed or been cancelled; no other task moves. |
| `Closing.ClosedIsLocked` | crates/store/src/submissions.rs:105-136 | In every reachable state a closed repository has its lock task and every repository its provisioning task. |
| `Closing.Requested` | crates/store/src/courses.rs:144-187 | A request succeeds exactly within the exercise's window and for a student without a repository for it; the repository starts open under its own definition and is provisioned. |
| `Closing.OneEach` | crates/store/src/courses.rs:144-187 | In every reachable state a student has at most one repository for an exercise. |
| `Reviews.FlagOf` | crates/store/src/submissions.rs:33-39 | For every transaction, exactly when it raises and clears a repository's review flag. |
| `Reviews.NoneExhausted` | crates/store/src/queue.rs:72-75 | After the sweep no lease of a task without attempts left has run out, and only such tasks failed. |
| `Reviews.NoneAbandoned` | crates/cli/src/lifecycle.rs:416 | After synchronization no queued or running run has a failed task, and only such runs ended. |
| `Intake.TakenIff` | crates/store/src/submissions.rs:16-60 | A receipt is kept exactly for a known repository, a well-formed commit and a new delivery; it becomes a submission exactly if it came in the window in force, both ends included, to an open repository and not by reconciliation, and the newest submission is of another commit. |
| `Results.PrivateStaysDue` | crates/store/src/grading.rs:90-98 | A scheduled private run passes the deadline test of its lease query in every later state. |
| `Selection.RecordAgreesIff` | crates/store/src/submissions.rs:25-60 | One more eligible receipt keeps the current choice on the commit of the newest eligible receipt if and only if it repeats the current commit, is newer than all, or sorts before the current submission. |
| `Selection.LastReceiptWins` | crates/store/src/submissions.rs:16-136 | Along every run whose receipts come in that order and without an override, the choice (newest while open, final once closed) has the commit of the most recent eligible receipt. |
| `Selection.FinalIsLastReceipt` | crates/store/src/submissions.rs:105-122 | From an empty database: if the receipts of a repository are recorded in strictly increasing receipt time, its frozen final submission has the commit of its last eligible receipt. |
| `Counterexamples.DelayedReceiptWins` | crates/store/src/submissions.rs:41-58 | A legal run from the empty database that ends with the closing: the frozen final submission is the delayed commit although the last eligible receipt is of another one. |
| `Selection.SubmittedInWindow` | crates/store/src/submissions.rs:25-40 | From an empty database: every submission was made at a step of the run, of a receipt that was eligible under the deadline in force at that step, or by a selection for the closed repository. |
| `Budget.BudgetConserved` | crates/store/src/queue.rs:30-104 | Between resets of this task, whatever happens to all others, its attempts equal those before plus its leases minus its deferrals, so at most eight leases net of deferrals. |
| `Budget.WithinBudget` | crates/store/src/grading.rs:51-65 | In every reachable state attempts stay within 0 to 8 and at least 1 while leased, and the attempts a worker was handed equal the stored ones while its lease lasts. |
| `Budget.BackoffBounds` | crates/store/src/queue.rs:57 | The backoff lies between 30 and 7680 seconds for every attempt count, so it fits the 32-bit type. |
| `Budget.FailureDelay` | crates/store/src/queue.rs:56-70 | A failing holder's task is available again exactly 30 times two to the attempts seconds later, or failed for good at the eighth attempt. |
| `Budget.LeaseThenDefer` | crates/store/src/queue.rs:100-104 | Leasing and then deferring restores the attempts. |
| `Fetching.SlotsFilled` | crates/store/src/submissions.rs:64-93 | Scheduling leaves at most eight active fetches of the enrollment, or as many as before if there were more. |
| `Fetching.OnlyWantedPending` | crates/store/src/submissions.rs:76-78 | Afterwards every pending fetch of the enrollment is for a newest or a final submission. |
| `Fetching.EightFetches` | crates/store/src/submissions.rs:64-103 | Runs without closures, operator retries and selections for an enrollment never take it above eight active fetches, whatever is done for others. |
| `Fetching.PicksExist` | crates/store/src/submissions.rs:80-81 | The ordered, limited query that fills the free slots has an answer in every state, so no receipt is ever blocked by it. |
| `Fetching.NoSlotIdle` | crates/store/src/submissions.rs:79-93 | After scheduling, every submission of the enrollment that is newest or final and lacks its source has its fetch queued, or eight are active. |
| `Fetching.MostUrgentFirst` | crates/store/src/submissions.rs:81-91 | Only such submissions are queued, at priority 100 if final and 20 if not, and none is left behind for a less urgent one. |
| `Fetching.FinalCaptured` | crates/store/src/submissions.rs:105-122 | In every reachable state, after the freezing close the final submission's source is retained, its fetch is active, or it was never queued and the next refill finds it. |
| `Fetching.DoneIsCaptured` | crates/cli/src/lifecycle.rs:273-329 | In every reachable state a finished fetch task means a retained source and an existing public run. |
| `RunQueue.AttemptsExact` | crates/store/src/grading.rs:224-232 | In every reachable state the attempts of a submission are exactly 1 to n, each used once. |
| `RunQueue.FeedbackCapped` | crates/store/src/grading.rs:218-232 | Automatic feedback of a submission that is not final never lifts the counted public runs of its repository above 200, or above what they were. |
| `RunQueue.PendingBelongs` | crates/store/src/grading.rs:233-245 | After a run is queued, no public grade task of the repository is pending for another submission. |
| `RunQueue.QueuedIff` | crates/store/src/grading.rs:202-248 | A new public run waits, with its task, exactly if it is a regrade, of the final submission, or of the newest one of an open repository with fewer than 200 feedback runs; otherwise it is superseded and has no task. Revision, priority and all columns are stated. |
| `RunQueue.NextInLine` | crates/store/src/grading.rs:224-228 | Its attempt is the next one of the submission. |
| `RunQueue.NothingQueued` | crates/store/src/grading.rs:202-216 | Without a source, or for feedback that was already queued, nothing happens. |
| `RunQueue.OnlyDisplacedChange` | crates/store/src/grading.rs:233-245 | Queueing changes no other task or run than the waiting feedback of other submissions of the repository, which is cancelled and superseded. |
| `RunQueue.ScheduledIff` | crates/store/src/grading.rs:266-333 | In every reachable state a private run is scheduled exactly if the repository is due with a final submission, its last public run is completed with points, its definition has a private command, and no run has this baseline and this grader revision; it waits at priority 100 with both pinned and the next attempt. |
| `RunQueue.NothingScheduled` | crates/store/src/grading.rs:266-291 | Without a final submission or a public run of it nothing is scheduled. |
| `RunQueue.RetriedIff` | crates/store/src/grading.rs:340-383 | A private run is repeated exactly if it is the last run of its submission and failed for infrastructure reasons or timed out. |
| `Rollouts.NeverCompounds` | crates/store/src/exercises.rs:100-119 | After any run, a repository is graded by its own provisioning revision merged with the last rolled-out one, however many rollouts came before. |
| `Rollouts.PublicationIsRun` | crates/store/src/exercises.rs:57-123 | An accepted publication is a legal run of one rollout step per repository that follows the exercise, and nothing else. |
| `Rollouts.SetIsRun` | crates/store/src/exercises.rs:143-199 | So is the application of a whole set, with at most one rollout per repository. |
| `Rollouts.RolloutRefused` | crates/store/src/exercises.rs:100-111 | A publication that is accepted without the rollout and refused with it, although it and the repository's definition are valid. |
| `Encoding.MergedValidIff` | crates/store/src/exercises.rs:104-111 | A merge of valid definitions is valid if and only if what it brings is no longer than what it replaces by more than the pinned definition leaves free of the limit. |
| `Encoding.MergeRefused` | crates/core/src/protocol.rs:42-96 | Two valid definitions whose merge is too long. |
| `Protocol.MergedSound` | crates/core/src/protocol.rs:42-96 | Merging two valid revisions is valid in everything but the size limit. |
| `Protocol.MergedFlat` | crates/store/src/exercises.rs:104-111 | Merging again forgets the first merge and keeps template, branch, dates, tests and manifest. |
| `Protocol.ValidateResult` | crates/core/src/protocol.rs:168-231 | An accepted result is the lease's own, has a score exactly when completed and within the maximum, and is invalidated only against a baseline. |
| `Store.GradingStore.Enqueue` | crates/store/src/queue.rs:18-28 | Inserts a task unless its key exists. |
| `Store.GradingStore.Lease` | crates/store/src/queue.rs:30-40 | Answers exactly if a task of a wanted kind is unlocked, has attempts left and is available or was abandoned, and then hands out a first one. |
| `Store.GradingStore.Heartbeat` | crates/store/src/queue.rs:42-47 | Extends a live lease of the owner and nothing else. |
| `Store.GradingStore.Finish` | crates/store/src/queue.rs:49-54 | Ends exactly a live lease with the token. |
| `Store.GradingStore.Fail` | crates/store/src/queue.rs:56-70 | Retries with backoff or fails for good. |
| `Store.GradingStore.ExpireExhausted` | crates/store/src/queue.rs:72-75 | Fails exactly the expired leases without attempts left. |
| `Store.GradingStore.FailPermanently` | crates/store/src/queue.rs:78-86 | Fails the task of a live lease and flags the repository in any case. |
| `Store.GradingStore.Retry` | crates/store/src/queue.rs:88-97 | Resets exactly a failed control task, given a reason. |
| `Store.GradingStore.Defer` | crates/store/src/queue.rs:100-104 | Returns a live lease without spending its attempt. |
| `Store.GradingStore.Postpone` | crates/cli/src/lifecycle.rs:137-139 | Pushes a pending task with the token back to the rate limit's time, never forward. |
| `Store.GradingStore.PollInvitation` | crates/cli/src/lifecycle.rs:107-116 | Queues a finished provisioning task with the token again. |
| `Store.GradingStore.Receive` | crates/store/src/submissions.rs:25-60 | Stores the receipt; makes a submission exactly of an eligible one that does not repeat the newest commit; answers with the submission that stands for the commit; flags late ones for review. |
| `Store.GradingStore.Record` | crates/store/src/submissions.rs:16-62 | Accepts exactly a known repository, a well-formed commit and a delivery not seen before; then the receipt, followed by scheduling if a submission was made. |
| `Store.GradingStore.ScheduleSnapshots` | crates/store/src/submissions.rs:64-93 | The cancelling update, the counting and the ordered, limited query answer as specified. |
| `Store.GradingStore.Close` | crates/store/src/submissions.rs:105-136 | The update that `Closing` describes, with the newest submission found by a loop over the rows. |
| `Store.GradingStore.Extend` | crates/store/src/submissions.rs:138-165 | Takes effect exactly on an open repository with a later, future deadline, given a reason. |
| `Store.GradingStore.Retain` | crates/cli/src/lifecycle.rs:288-326 | Sets a missing source digest once. |
| `Store.GradingStore.SelectSubmission` | crates/cli/src/main.rs:631-654 | Makes the receipt's only submission final, creating it if needed, exactly for closed repositories and a given reason; that a receipt has at most one is part of the invariant. |
| `Store.GradingStore.Request` | crates/store/src/courses.rs:144-187 | One repository per enrollment and assignment, only within the window. |
| `Store.GradingStore.LeaseGrade` | crates/store/src/grading.rs:29-69 | Hands a free worker a first suitable grade task of a student who is not being graded, and marks its run running. |
| `Store.GradingStore.Examine` | crates/store/src/grading.rs:71-150 | The read-only first phase: ownership, validation, replay test. |
| `Store.GradingStore.Commit` | crates/store/src/grading.rs:150-200 | The second phase re-checks token, owner and liveness under lock and writes result, task, publication and review flag together. |
| `Store.GradingStore.EnqueueRun` | crates/store/src/grading.rs:202-248 | The insert and the displacing updates that `RunQueue.QueuedIff` describes, row by row. |
| `Store.GradingStore.SchedulePrivate` | crates/store/src/grading.rs:266-333 | Schedules the private run of the last completed public one once, and refuses exactly when the command is missing. |
| `Store.GradingStore.RetryPrivate` | crates/store/src/grading.rs:340-383 | Repeats exactly the last, failed private run with its own revision and baseline, given a reason. |
| `Store.GradingStore.SyncFailed` | crates/cli/src/lifecycle.rs:416 | Ends exactly the waiting or running runs whose task failed. |
| `Drivers.EnqueuePrivate` | crates/store/src/grading.rs:251-337 | Without a reason or a repository nothing happens; otherwise every repository is closed and scheduled in turn, in exactly this run of steps, up to the first that could be graded but lacks a private command. |
| `Drivers.Accept` | crates/store/src/grading.rs:129-200 | Both phases are a legal run; the answer is positive exactly for an honest result of a run that has none or this one, a new one is stored with everything that follows, and in all other cases nothing changes. |
| `Drivers.SelectSubmission` | crates/cli/src/main.rs:631-663 | The choice and the run that follows it are a legal run; the chosen submission is final, is the receipt's own, is to be fetched, and has a queued run if its source is there. |
| `Drivers.Snapshot` | crates/cli/src/lifecycle.rs:273-329 | The work of a fetch task is a legal run of retaining, queueing and finishing; it succeeds exactly if a source was fetched or retained for the same commit before, which is then reused, and leaves a source, a public run and a finished task. |
| `Exercises.Catalog.PublishInTransaction` | crates/store/src/exercises.rs:57-123 | Succeeds exactly for a valid revision with a reason, the expected predecessor and valid merges; then only its exercise and the repositories that follow it change. |
| `Exercises.Catalog.Publish` | crates/store/src/exercises.rs:43-55 | The same, with refusals and dry runs leaving everything unchanged. |
| `Exercises.Catalog.ApplySet` | crates/store/src/exercises.rs:143-199 | Succeeds exactly when scope, preview and every publication are acceptable in the state before the first one; then the named courses' active exercises are exactly the published ones, other courses and unrelated repositories are untouched; otherwise, and for dry runs, nothing changes. |
| `Exercises.StillAdmissible` | crates/store/src/exercises.rs:178-180 | Earlier publications of a set do not bear on whether the next one is accepted. |
| `Exercises.NoLostUpdate` | crates/store/src/exercises.rs:71-84 | Of two publications that expect the same predecessor the second is refused, unless the first published that definition again. |
| `Exercises.AcceptedWithoutRollout` | crates/store/src/exercises.rs:57-84 | A publication without rollout is accepted exactly if its definition is valid, there is a reason and the exercise is as expected, archived or not. |
| `Exercises.AcceptedWithRollout` | crates/store/src/exercises.rs:100-113 | One with rollout exactly if moreover every repository's merge is valid. |
| `Exercises.StaleRefused` | crates/store/src/exercises.rs:155-175 | A set prepared against a preview is refused once any exercise of a named course is new, gone, changed, archived or back. |
| `Exercises.OnlyNamedCourses` | crates/store/src/exercises.rs:155-175 | A set never touches exercises of courses it does not name. |
| `Seeds.Validate` | crates/core/src/caching.rs:65-130 | The loops accept exactly the configurations whose artifacts are valid, pairwise apart in name, mount and output tree, and fit the storage. |
| `CacheSeal.ListingOrderIrrelevant` | crates/executor/src/caching.rs:73-80 | Any listing of a directory sorts to the same sequence. |
| `CacheSeal.SealInvisible` | crates/executor/src/caching.rs:81-125 | Sealing permissions changes neither the recorded entries nor acceptability. |
| `Preparation.AcceptableIff` | crates/executor/src/caching.rs:46-90 | A tree is acceptable exactly if everything in it, however deep, is a directory or a regular file without further hard links under a safe path of at most 32 names. |
| `Preparation.SealedReadOnly` | crates/executor/src/caching.rs:81-125 | In a sealed tree nothing is writable, all names and contents are there, and exactly the executable files stay executable. |
| `CacheSeal.EntriesInjective` | crates/executor/src/caching.rs:46-128 | The recorded entries determine the tree: paths, bytes and executability. |
| `Capture.Scanner.Scan` | crates/executor/src/caching.rs:46-128 | Whatever the listing order, the recursive scan appends the tree's entries and bytes and seals it, and it fails exactly for an unacceptable node or an exceeded limit. |
| `Capture.TakeManifest` | crates/executor/src/caching.rs:129-148 | A manifest exists exactly when every declared artifact is an acceptable directory within its limit. |
| `Capture.Verify` | crates/executor/src/caching.rs:150-165 | Succeeds exactly for a valid seed of this staging volume whose stored tree has the manifest of the digest. |
| `Capture.VerifyExact` | crates/executor/src/caching.rs:150-165 | A captured cache verifies later if and only if its declared trees are unchanged up to permissions other than executability. |
| `Capture.SealedVerifies` | crates/executor/src/caching.rs:450-473 | The sealed trees verify right after preparation. |
| `Preparation.Export` | crates/executor/src/caching.rs:438-449 | The rename loop succeeds exactly if every declared output is a real directory, and moves each intact, because outputs are pairwise disjoint. |
| `Preparation.Publish` | crates/executor/src/caching.rs:438-473 | A successful preparation has installed and verified the manifest of the exported trees and leaves other caches alone; it fails only for the listed reasons. |
| `Preparation.PublishedExact` | crates/executor/src/caching.rs:438-473 | A published cache verifies exactly as long as the stored trees are what the preparation left at the declared paths. |
| `Preparation.OutputBudget` | crates/executor/src/caching.rs:238-267 | The worklist accepts exactly the trees within the limits on entries, bytes and nesting. |
| `Integrity.ValidateStructure` | crates/core/src/integrity.rs:99-121 | Accepts exactly bounded snapshots of sound files in which no file is a directory of another, although it only walks parents and adds sizes as it goes. |
| `Integrity.Collides` | crates/core/src/integrity.rs:114-118 | The parent walk finds a collision exactly when some file is an ancestor of the path. |
| `Integrity.Generate` | crates/core/src/integrity.rs:125-146 | Records exactly the protected files of a valid template, and the manifest it makes is valid. |
| `Integrity.Check` | crates/core/src/integrity.rs:182-214 | Reports each objectionable path once with its reason, and nothing else, recorded paths first and each group in path order. |
| `Integrity.CheckExact` | crates/core/src/integrity.rs:182-214 | Against a generated manifest there is no finding if and only if presence, mode and bytes of every protected path agree with the template and editable files are regular. |
| `Integrity.ProtectedTrees` | crates/core/src/integrity.rs:157-167 | No path under the workflow or test tree is ever editable under a valid manifest. |
| `Sources.SourceBudget.Charge` | crates/github/src/repository.rs:41-63 | Keeps total equal to the sum over students within all limits; refuses exactly in an exhausted current window, unchanged, with a retry time strictly after its end. |
| `Sources.ValidateTree` | crates/github/src/repository.rs:334-369 | The running counters accept exactly the trees within the limits. |
| `Sources.StoredBounded` | crates/github/src/repository.rs:502-509 | Storing a blob leaves the cache within 512 entries and 16 MiB encoded, whatever it held. |
| `Sources.KeptIfFits` | crates/github/src/repository.rs:502-509 | Storing a blob adds it and forgets others only if the limits would be exceeded. |
| `Sources.OneWindow` | crates/github/src/repository.rs:41-63 | Within one window requests add up for the total and the student, and all are granted if and only if the three limits leave room for them. |
| `Sources.Client.ChargeSource` | crates/github/src/repository.rs:399-404 | A request of a student is granted exactly by the budget and then shows in it; one of nobody is free. |
| `Sources.Client.Obtain` | crates/github/src/repository.rs:476-509 | A blob is had exactly if it is cached, or paid for and of the stated size; it is paid for exactly if it is not cached, also if the service then fails. |
| `Sources.Client.FetchFiles` | crates/github/src/repository.rs:445-517 | From any cache states other fetches leave behind, the files are those of the tree, and on every exit the budget shows exactly the misses so far; it succeeds exactly if they can be had and paid. |
| `Sources.Client.FetchSnapshot` | crates/github/src/repository.rs:420-528 | A cached fetch builds the snapshot of the uncached one; it succeeds if and only if tree and structure are in order, every miss is of the stated size and all requests can be paid; on every exit the budget shows exactly the requests made, for commit, tree and misses; the cache stays true and bounded. |
| `Sources.BillWithinWindow` | crates/github/src/repository.rs:41-63 | Within one window the charges of a fetch are what the total and the student have spent more, all other students nothing, and a complete fetch costs two requests plus the misses. |
| `Sources.CachedAgreesIff` | crates/github/src/repository.rs:476-498 | The uncached fetch succeeds if and only if the cached one does and every cached object is also to be had at the stated size. |
| `Sources.CachedSizeUnchecked` | crates/github/src/repository.rs:476-498 | A tree with a wrong size that is fetched through a cache filled by an honest one and refused without it. |
| `AdminRuns.AppliedAtMostOnce` | crates/cli/src/admin_portal.rs:1047-1161 | Over every run, crashes and stale workers included, an operation enters `applying` at most once and applies at most its one validated plan for its own input, after one timely confirmation by its own actor and session with the plan's token. |
| `AdminRuns.NeverBack` | crates/cli/src/admin_portal.rs:1095-1161 | Stages never run backwards; an uncertain, expired or failed operation is never ready, queued or applied again. |
| `AdminRuns.InterruptedIsUncertain` | crates/cli/src/admin_portal.rs:1104 | An application found interrupted by a restart is uncertain from then on, or failed. |
| `AdminRuns.SettledUnlessFailed` | crates/cli/src/admin_portal.rs:1148 | A settled operation changes if and only if an execution of it reports a failure and it had not failed yet. |
| `AdminRuns.SuccessOverwritten` | crates/cli/src/admin_portal.rs:1148 | A legal run from the empty table in which an operation succeeds and a stale worker then makes it failed. |
| `AdminRuns.SixtyPerHour` | crates/store/src/admin.rs:19-41 | From the empty table, in every run, no actor has more than sixty submissions within any one-hour window. |
| `AdminRuns.MovesExactly` | crates/cli/src/admin_portal.rs:1095-1161 | The next state of every operation under every step, with its reason; only an offer changes anything else, and it can be confirmed for fifteen minutes. |
| `AdminRuns.AppliedIff` | crates/cli/src/admin_portal.rs:1055-1078 | A plan is applied exactly by the unstarted application that read it, of an actor that is an administrator at that moment, for the plan's own input. |
| `AdminRuns.AdmittedIff` | crates/store/src/admin.rs:19-41 | An operation is admitted exactly for an administrator with fewer than sixty submissions within the hour and fewer than four under way. |
| `AdminPortal.Table.Submit` | crates/store/src/admin.rs:19-41 | The counting admission accepts exactly administrators with fewer than sixty recent and four active operations. |
| `AdminPortal.Table.Confirm` | migrations/0008_admin_portal.sql:23-39 | Queues exactly an unexpired ready operation for its own actor, session and token. |
| `AdminPortal.Table.Restart` | crates/cli/src/admin_portal.rs:1104 | Interrupted validations are repeated, interrupted applications become uncertain, all else stays. |
| `AdminPortal.Table.Take` | crates/cli/src/admin_portal.rs:1110-1119 | Takes the first-come waiting operation that nobody has locked, moves it to its phase and remembers the row; finds nothing only if none waits. |
| `AdminPortal.Table.Offer` | crates/cli/src/admin_portal.rs:1064-1070 | A validation's plan is offered only while the row is validating. |
| `AdminPortal.Table.Begin` | crates/cli/src/admin_portal.rs:1055-1078 | An application starts only for a current administrator and a plan of the same input. |
| `AdminPortal.Table.Complete` | crates/cli/src/admin_portal.rs:1090-1091 | Success is recorded only while the row is applying. |
| `AdminPortal.Table.Fail` | crates/cli/src/admin_portal.rs:1148 | Failure is recorded in any state. |

## Left out

- PostgreSQL: each transaction is one atomic step with one time; isolation levels, advisory locks, `SKIP LOCKED` (modelled as an arbitrary set of locked rows) and SQL text are not modelled.
- Ties in queries that end in a random UUID: any candidate that is first by the other columns may be chosen.
- The two reads of the first acceptance phase are one step: a run without a result at the second read had none at the first, so the ticket is the same.
- Outbox rows, integrity finding rows, audit rows, error texts, `updated_at`, repository names, invitation and provisioning state, permission locking, and the review flags that daily synchronization sets.
- Store.GradingStore.Retain: the digest is arbitrary and set once; that one retained for the same commit is reused is in `Drivers.Snapshot`, the 128 MiB retention quota and the content of artifacts are not modelled.
- Store.GradingStore.Request: the enrollment, the exercise and its current revision are inputs, so archived exercises and unknown students are refused before the step.
- Webhook signatures, sessions, OAuth and HTTP.
- Store.GradingStore.Examine: revisions stored in runs are checked for validity but not for serialized size, and a stored digest is its preimage, so the digest comparison cannot fail.
- Worker authentication, Kubernetes Jobs, log collection and staging cleanup.
- GitHub calls: commits, trees and blobs are inputs; a blob of a repository has one content; timeouts are failures.
- Capture.Scanner.Scan: file names are Unicode text and files do not change while they are read.
- Preparation.Publish: file synchronization and the reference file written at the end are not modelled.
- Cache recipes and input keys: filtering and hashing of inputs would add only easy members.
- The per-action bodies of administrator validation and application, displayed tokens and report texts: a plan and its outcome are arbitrary, and the run theorems hold for any order of dispatching.
- Grade overrides, exports, TOML and CSV parsing, and the four-operations and eight-fetches limits as invariants, which the code does not keep.
