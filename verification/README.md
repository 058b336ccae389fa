# Verification of the durable execution core

This project models the parts of the job-hunting system that must stay right under crashes, lost
leases and concurrent workers, and proves what they promise.

- **Leased task queue** (`Queue*.dfy`): every operation is one immediate transaction on rows, a unique
  index and an append-only log. `QueueService` is the object with its updates in place, `Queue` says
  what each transaction does, `QueueRuns` interleaves any number of workers, `QueueLaws` has the results.
- **Fenced checkpoints** (`Checkpoints.dfy`): a second database that commits while the first one's
  writer reservation is held.
- **Submission** (`Submission*.dfy`): reviews, approvals and the action ledger. Every executor is a
  program counter over the separate transactions of `execute`; crashes, lost leases, recovery, edits of
  inputs and files, and arbitrary adapter outcomes may fall between any two of them. Ghost logs record
  what was authorised, clicked and recorded. `SubmissionReach` exhibits one whole run,
  `SubmissionDeadlines` says when a click can be late.
- **Budgets** (`Pricing`, `Router`, `Budgets`, `BudgetLedger`, `BudgetRuns`, `Gateway`,
  `BudgetedCalls`): admission under
  four overlapping ceilings, the price bound behind it, and the loop of reservations, calls and retries.
- **Other effect ledgers** (`Browser*`, `Outreach*`, `SlackOutbox*`, `SlackInbox*`).
- **Catalogs** (`Scanner`, `Catalog*`): incremental scans, compare-and-swap publication, derived lists.
- **Smaller cores** (`Latex`, `Ulid`, `Qualification`, `QualificationWorker`).
- **What each transaction means** (`QueueMeaning`, `QueueRecovery`, `SubmissionMeaning`,
  `SubmissionOutcomes`, `SubmissionExecution`, `BudgetMeaning`, `BrowserOutcomes`, `OutreachOutcomes`,
  `SlackDelivery`, `SlackEffects`, `CatalogMeaning`, `QualificationRules`): exactly when it goes through,
  and what it leaves for the operations that follow, in one step and over whole runs.

Digests are symbolic: `Hash(content)` is injective, which is how SHA-256 over canonical JSON is used.
Money is `real`; rounding to the stored float is any function that never rounds down. Time is an
integer or an ordered stamp that does not go back; the lemmas that need this say so. Claim and owner
tokens are fresh.

Where code and documentation differ, the model follows the code:

- `docs/submission.md:17` lists "unexpired" among the checks before a click. Only `_validated` looks at
  the deadline; `_start`, a later transaction, does not, and `adapter.submit`, which follows outside any
  transaction, is guarded by nothing. A late authorisation is possible if and only if the lease outlives
  the approval (`SubmissionDeadlines.AuthorisesLateIff`). A late click is always possible, because
  nothing bounds the time between the two (`LateClickIsPossible`, `AuthorisedMayClick`); under a bound
  on that time, `ClicksLateIff` says exactly when. `SubmissionReach.ExpiredClickExample` is a whole run
  with a late authorisation and a late click. What always holds is `SubmissionLaws.ClicksAreVetted`: the
  deadline was ahead when the execution was validated.
- `_approval` of the browser service sets EXPIRED and REVOKED, but the raise that follows rolls both
  back (`Browser.ExpiryIsNeverCommitted`).
- `agents/qualification.py:165` compares an internship's days with the two configured ones separately.
  With the configured period upside down no day lies in it, and yet a job passes that spans the gap
  (`QualificationRules.PeriodMeans`).
- A confirmed submission cannot be run again to return CONFIRMED (`SubmissionLaws.NeverReconfirmed`).
- The reserved maximum does not bound cache writes when caching is disabled
  (`Pricing.MaximumBoundsUncachedCallsIff`).

## Model

| member | source | states |
|---|---|---|
| QueueRuns.ApplyKeeps | src/job_hunting_machine/orchestration/queue.py:90-358 | Every legal operation of any worker keeps the whole queue invariant: row shape, unique keys, audit chain, attempt counts, distinct claim tokens, and that an ACTIVE row belongs to its latest claim. |
| QueueRuns.ClaimKeeps | src/job_hunting_machine/orchestration/queue.py:139-182 | A claim keeps the invariant with the new lease added: it is then its task's latest claim and owner, with the row's attempt number. |
| QueueRuns.RecoverKeeps | src/job_hunting_machine/orchestration/queue.py:301-324 | Recovery over any number of rows, in any order, keeps the invariant. |
| QueueRuns.ChangeKeepsCounts | src/job_hunting_machine/orchestration/queue.py:90-105 | One audited row change moves the counts of claims, continuations and attempts exactly as its event says. |
| QueueLaws.LeaseMutualExclusion | src/job_hunting_machine/orchestration/queue.py:184-201 | In every run at most one issued lease of a task passes the fence, even on two different clocks. |
| QueueLaws.OwnerIsLatest | src/job_hunting_machine/orchestration/queue.py:158-182 | A lease that owns its task is that task's latest claim and carries the row's attempt number. |
| QueueLaws.SupersededLeaseIsFenced | src/job_hunting_machine/orchestration/queue.py:184-201 | Once a later claim of the same task is committed, the earlier lease passes no fence at any time. |
| QueueLaws.LostOwnershipIsFinal | src/job_hunting_machine/orchestration/queue.py:184-201 | A lease that lost ownership never gets it back; no assumption about the clock is used. |
| QueueLaws.FencedOutStaysOut | src/job_hunting_machine/orchestration/queue.py:184-201 | Under a nondecreasing clock a lease that failed the fence once, by expiry or loss, fails it after every further run. |
| QueueLaws.ContinuationRepeatsAttempt | src/job_hunting_machine/orchestration/queue.py:158-170 | A released task's next claim hands out a second lease with the same attempt number, so attempt numbers cannot serve as fencing tokens. |
| QueueLaws.AttemptConservation | src/job_hunting_machine/orchestration/queue.py:278-346 | Claims = attempts + continuation claims; releases + effective resumes = continuation claims + the waiting marker; the marker only in READY or CANCELED; attempts never exceed the maximum. |
| QueueLaws.ClaimNeverExhausts | src/job_hunting_machine/orchestration/queue.py:158-163 | The attempts-exhausted branch is never taken in a run; a claim returns nothing exactly when no row is eligible. |
| QueueLaws.FirstIsUnique | src/job_hunting_machine/orchestration/queue.py:145-155 | Priority, creation time and id order the eligible rows so that exactly one of them is first. |
| QueueLaws.AuditReplay | src/job_hunting_machine/orchestration/queue.py:90-105 | For every run and task, following its log entries (each old state is the previous new state, versions grow by one) yields exactly the stored status and version. |
| QueueLaws.RecoveryIsExact | src/job_hunting_machine/orchestration/queue.py:301-324 | Recovery changes exactly the dead leases and due retries, whatever their order: ready again while attempts remain, else failed now, held by nobody and with nothing to wait for. |
| QueueLaws.RecoverySparesLiveLeases | src/job_hunting_machine/orchestration/queue.py:301-316 | Recovery touches no lease that still passes and no task that waits for a human. |
| QueueLaws.TerminalIsFinal | src/job_hunting_machine/orchestration/queue.py:237-246 | Rows are never deleted, their identity never changes, and a row that is SUCCEEDED, ABORTED, FAILED or CANCELED, as its completion time says, never changes again. |
| QueueLaws.ResumeIsIdempotent | src/job_hunting_machine/orchestration/queue.py:331-346 | Repeating the same human reply changes nothing, at any later time. |
| QueueLaws.ClaimGivesLease | src/job_hunting_machine/orchestration/queue.py:139-182 | A claimed lease is for the first eligible row and passes exactly until its expiry; no other row changes. |
| QueueLaws.OnlyHeartbeatsRenew | src/job_hunting_machine/orchestration/queue.py:203-209 | In every run the expiry of a held lease moves only by a heartbeat of that lease, made while it passes, and to now plus the lease length. |
| QueueLaws.EndedLeaseNeverReturns | src/job_hunting_machine/orchestration/queue.py:248-299 | In every run a lease that completed, failed, released or aborted its task passes no fence at any later moment. |
| QueueLaws.FailedAttemptComesBack | src/job_hunting_machine/orchestration/queue.py:278-290 | A failed attempt is retried exactly while attempts remain, and is claimable again exactly once its delay is over. |
| QueueLaws.ReleaseIsUndoneByClaim | src/job_hunting_machine/orchestration/queue.py:292-299 | Release and the next claim give back the same memory and attempt number. |
| QueueLaws.ReplyReachesWorker | src/job_hunting_machine/orchestration/queue.py:331-346 | The claim after a resume finds the reply and otherwise the same memory and attempts. |
| QueueLaws.EnqueueIsIdempotent | src/job_hunting_machine/orchestration/queue.py:107-117 | Enqueuing the same work again names the same task and changes nothing. |
| QueueRecovery.RecoveryBringsBack | src/job_hunting_machine/orchestration/queue.py:301-324 | A crashed task, or one whose retry is due, is claimable at once after recovery exactly while attempts remain, with its attempts and memory; otherwise it has failed; every other row is as it was. |
| QueueRecovery.CrashedTaskComesBack | src/job_hunting_machine/orchestration/queue.py:301-324 | In every run such a task stays claimable, unchanged, until it is claimed or cancelled, whatever everyone else does. |
| QueueRecovery.NextLeaseIsNextAttempt | src/job_hunting_machine/orchestration/queue.py:158-182 | In every run the first lease of it afterwards is for its next attempt, owns the task and finds its memory. |
| QueueRecovery.SpentTaskFails | src/job_hunting_machine/orchestration/queue.py:301-324 | In every run a task taken up without an attempt left has failed and stays so. |
| QueueRecovery.ReadyWaits | src/job_hunting_machine/orchestration/queue.py:139-182 | In every run a ready task stays exactly as it is until a lease of it is handed out, unless it is cancelled. |
| QueueMeaning.CreateInsertsIff | src/job_hunting_machine/database/repositories/tasks.py:72-131 | Unknown work is inserted untouched, under its id and key, unless it can have no attempt or its id is taken. |
| QueueMeaning.CreateReplays | src/job_hunting_machine/database/repositories/tasks.py:72-131 | Known work is returned unchanged if it is the very same, and refused otherwise. |
| QueueMeaning.EnqueuedIsClaimable | src/job_hunting_machine/orchestration/queue.py:107-117 | New work that is enqueued can be claimed at once by a worker of its type. |
| QueueMeaning.EnqueueSucceedsIff | src/job_hunting_machine/orchestration/queue.py:107-117 | Enqueuing goes through exactly where creation does, for a task that is to be NEW or READY. |
| QueueMeaning.WaitingCanBeAnswered | src/job_hunting_machine/orchestration/queue.py:119-137 | A task made to wait for a human holds its interrupts, and a reply to each of them is accepted. |
| QueueMeaning.WaitingReplays | src/job_hunting_machine/orchestration/queue.py:119-137 | Asked for again, it is returned while it waits with the same interrupts, and refused otherwise. |
| QueueMeaning.ClaimTakesFirst | src/job_hunting_machine/orchestration/queue.py:145-155 | No claimable task has a smaller priority number, or the same and is older, or both alike and a smaller id. |
| QueueMeaning.ClaimMeans | src/job_hunting_machine/orchestration/queue.py:158-182 | The claimed row: its holder, attempt, expiry and first start, the marker consumed and everything else kept. |
| QueueMeaning.SpentClaimFails | src/job_hunting_machine/orchestration/queue.py:158-163 | A first task with no attempt left and no marker is failed instead of handed out. |
| QueueMeaning.PassesIff | src/job_hunting_machine/orchestration/queue.py:184-201 | The fence passes for exactly the worker and attempt of the row, before its expiry. |
| QueueMeaning.HeartbeatMeans | src/job_hunting_machine/orchestration/queue.py:203-209 | A heartbeat succeeds exactly while the lease passes, and moves nothing but expiry and heartbeat. |
| QueueMeaning.SaveMeans | src/job_hunting_machine/orchestration/queue.py:231-235 | Memory is saved exactly by a passing lease and within the size limit. |
| QueueMeaning.CompleteMeans | src/job_hunting_machine/orchestration/queue.py:248-252 | A completed task is over with its memory, or waits for a human with it, and nobody holds it. |
| QueueMeaning.CompleteInTransactionIff | src/job_hunting_machine/orchestration/queue.py:254-276 | Inside the caller's fence ownership and attempt decide, and a passing lease does what complete does. |
| QueueMeaning.FailMeans | src/job_hunting_machine/orchestration/queue.py:278-290 | A failed attempt waits out its delay while attempts remain and it may be retried; otherwise the task is over. |
| QueueMeaning.ReleaseMeans | src/job_hunting_machine/orchestration/queue.py:292-299 | A released task is ready at once with the marker in its memory. |
| QueueMeaning.AbortMeans | src/job_hunting_machine/orchestration/queue.py:348-351 | An aborted task is over, exactly by a passing lease. |
| QueueMeaning.ResumeMeans | src/job_hunting_machine/orchestration/queue.py:331-346 | A reply is taken exactly for an interrupt that a waiting task has; a repeated one is accepted without change. |
| QueueMeaning.CancelMeans | src/job_hunting_machine/orchestration/queue.py:353-358 | A task is cancelled, for good, exactly while no worker has it and it is not over. |
| QueueMeaning.RecoveryIsLogged | src/job_hunting_machine/orchestration/queue.py:301-324 | Recovery leaves one log entry for each row that it takes. |
| QueueLaws.StampCutsOff | src/job_hunting_machine/orchestration/queue.py:190-197 | Time stamps are milliseconds, cut off and not rounded. |
| QueueService.QueueService.Insert | src/job_hunting_machine/database/repositories/tasks.py:72-131 | Creation inserts a fresh row, returns the identical earlier one by id or dedupe key, or refuses; ties the new tables to the specification. |
| QueueService.QueueService.Enqueue | src/job_hunting_machine/orchestration/queue.py:107-117 | A new task is created NEW and made READY in one commit; a replay changes nothing. |
| QueueService.QueueService.EnqueueWaiting | src/job_hunting_machine/orchestration/queue.py:119-137 | A human-waiting task with its interrupts, or a replay of the identical one. |
| QueueService.QueueService.Select | src/job_hunting_machine/orchestration/queue.py:145-155 | Returns the one eligible row that is first by priority, creation time and id. |
| QueueService.QueueService.Claim | src/job_hunting_machine/orchestration/queue.py:139-182 | The whole claim: selection, marker, attempt, lease and audit, or no change. |
| QueueService.QueueService.Heartbeat | src/job_hunting_machine/orchestration/queue.py:203-209 | Extends the lease of its holder only. |
| QueueService.QueueService.SaveMemory | src/job_hunting_machine/orchestration/queue.py:231-235 | Stores memory for the holder only, and not beyond the size limit. |
| QueueService.QueueService.Complete | src/job_hunting_machine/orchestration/queue.py:248-252 | Fenced completion to SUCCEEDED or WAITING_HUMAN. |
| QueueService.QueueService.CompleteInTransaction | src/job_hunting_machine/orchestration/queue.py:254-276 | The same inside a caller's fence: ownership is checked again, the clock is not. |
| QueueService.QueueService.Fail | src/job_hunting_machine/orchestration/queue.py:278-290 | A failed attempt becomes WAITING_RETRY while attempts remain, else FAILED. |
| QueueService.QueueService.Release | src/job_hunting_machine/orchestration/queue.py:292-299 | A shutdown release sets the marker and makes the task READY. |
| QueueService.QueueService.Abort | src/job_hunting_machine/orchestration/queue.py:348-351 | The holder aborts its task. |
| QueueService.QueueService.Recover | src/job_hunting_machine/orchestration/queue.py:301-324 | The recovery loop visits exactly the rows of the query and ends as the specification says. |
| QueueService.QueueService.Resume | src/job_hunting_machine/orchestration/queue.py:326-346 | A pending interrupt is answered once; the identical reply is accepted again without change. |
| QueueService.QueueService.Cancel | src/job_hunting_machine/orchestration/queue.py:353-358 | Only NEW, READY and WAITING_HUMAN tasks can be canceled. |
| QueueService.QueueService.OneHolder | src/job_hunting_machine/orchestration/queue.py:184-201 | Of the object itself: the methods keep the invariant of all runs, so two of its leases of one task never both pass. |
| QueueService.QueueService.Accounts | src/job_hunting_machine/orchestration/queue.py:90-105 | Of the object itself: attempt conservation and audit replay hold of its own rows and log. |
| Checkpoints.AdvanceKeeps | src/job_hunting_machine/orchestration/checkpoints.py:64-78 | Every move, including clock ticks and crashes while a fence is held, keeps: the holder owns its task, and saved writes of a task are ordered by claim. |
| Checkpoints.WritesFollowClaims | src/job_hunting_machine/orchestration/checkpoints.py:64-104 | In every run the checkpoint writes of one task are ordered by the claims of their leases. |
| Checkpoints.HolderKeepsOwnership | src/job_hunting_machine/orchestration/checkpoints.py:64-78 | While a fence is held its lease keeps the task, however far the clock moves. |
| Checkpoints.NoLateWrite | src/job_hunting_machine/orchestration/checkpoints.py:80-104 | Once a later claim is committed no write of the earlier lease is ever appended, and none is lost. |
| Checkpoints.FenceIsTakenIff | src/job_hunting_machine/orchestration/checkpoints.py:64-78 | The fence is taken exactly for the lease's own thread while the lease passes, and only its holder's writes are saved. |
| Checkpoints.FencedSaver.Fenced | src/job_hunting_machine/orchestration/checkpoints.py:64-78 | A write is saved exactly if the thread is the lease's task, the lease passes and the saver does not raise; the fence is always left. |
| SubmissionSteps.HappenKeeps | src/job_hunting_machine/submission/service.py:65-464 | Every event of every executor, of recovery, of reviews, decisions, edits and other queue users keeps the invariant of ledger, approvals, applications, executors and logs. |
| SubmissionSteps.StartKeeps | src/job_hunting_machine/submission/service.py:245-313 | The authorising commit consumes a fresh approval for a fresh action and leads to one click. |
| SubmissionSteps.RecordingKeeps | src/job_hunting_machine/submission/service.py:326-384 | Recording any outcome keeps the invariant, whoever recovered in between. |
| SubmissionSteps.SchedulingKeeps | src/job_hunting_machine/submission/service.py:444-464 | A new review is scheduled only when every action of the application has failed. |
| SubmissionLaws.AuthorisedOnce | src/job_hunting_machine/submission/service.py:176-315 | In every run authorisations, consumed approvals and actions that left PLANNED are in bijection; no action and no approval is used twice. |
| SubmissionLaws.ClicksMatchAuthorisations | src/job_hunting_machine/submission/service.py:395-408 | Every adapter.submit call has a distinct authorisation with the same key, executor and review. |
| SubmissionLaws.OneOpenAction | src/job_hunting_machine/submission/service.py:198-206 | An application never has two actions in EXECUTING, UNKNOWN_RESULT or SUCCEEDED. |
| SubmissionLaws.SecondAfterNotSubmitted | src/job_hunting_machine/submission/worker.py:41-71 | Of two authorised actions of an application the earlier was recorded FAILED by a NOT_SUBMITTED outcome. |
| SubmissionLaws.DecisionsAreFinal | src/job_hunting_machine/submission/service.py:326-371 | FAILED and SUCCEEDED rows never change again, under recovery, crashes and late executors. |
| SubmissionLaws.AuthorisationIsBound | src/job_hunting_machine/submission/service.py:260-302 | Whenever a click is authorised, the review handed to the adapter has the approved digest, is the canonical content of the review file, and equals the review recomputed from the database in that same transaction. |
| SubmissionLaws.ClicksAreVetted | src/job_hunting_machine/submission/service.py:101-121 | Every click is in live mode under an approval given by an authorised user, unexpired when its execution was validated. |
| SubmissionLaws.PreparedReviewIsReadable | src/job_hunting_machine/submission/review.py:222-304 | What prepare leaves is what validation and start look for: the review reads back from its file, approval and payload name it, and it counts as unchanged. |
| SubmissionLaws.UndisturbedExecutionClicks | src/job_hunting_machine/submission/service.py:386-409 | An execution that nothing disturbs authorises and clicks exactly once with the approved review, for every approved and unchanged case whose action is planned already or may be planned: after a crash, or after an outcome NOT_SUBMITTED, alike. |
| SubmissionLaws.ClicksIffReady | src/job_hunting_machine/submission/service.py:386-409 | And only then: an undisturbed execution makes a click if and only if its case is valid, approved, unchanged, ready for review, and its action planned or plannable. |
| SubmissionLaws.NeverReconfirmed | src/job_hunting_machine/submission/service.py:386-390 | The branch that returns CONFIRMED for a SUCCEEDED action is unreachable: recording the success moved current_task_id on. |
| SubmissionDeadlines.LateAuthorisationIff | src/job_hunting_machine/submission/service.py:245-302 | For every execution that is ready to click, and whatever happened to the queue since, an authorisation tried at any later moment succeeds if and only if the lease still passes the fence; the deadline plays no part. |
| SubmissionDeadlines.AuthorisesLateIff | src/job_hunting_machine/submission/service.py:245-302 | Such an execution can be authorised after the approval expired if and only if its lease, as last renewed, outlives the approval. |
| SubmissionDeadlines.AuthorisesLateUnrenewedIff | src/job_hunting_machine/submission/service.py:245-302 | Without renewal: if and only if, when the execution is ready, the approval's deadline comes before the lease's expiry. |
| SubmissionDeadlines.ClickIff | src/job_hunting_machine/submission/service.py:395-404 | The adapter call follows at any later moment if and only if the lease passed when the execution was authorised; neither deadline nor lease is looked at again. |
| SubmissionDeadlines.ReadyMayClickAnyTime | src/job_hunting_machine/submission/service.py:395-404 | Every ready execution that is authorised at once can click at every later moment, whatever its lease. |
| SubmissionDeadlines.ClicksLateIff | src/job_hunting_machine/submission/service.py:395-404 | If the click follows its authorisation within a given delay, it can come after the deadline if and only if the lease and the delay together reach the deadline. |
| SubmissionDeadlines.LateClickIsPossible | src/job_hunting_machine/submission/service.py:395-404 | For every ready execution there is a moment past the deadline at which, authorised at once, it clicks. |
| SubmissionDeadlines.AuthorisedMayClick | src/job_hunting_machine/submission/service.py:395-404 | In every state of every run an authorised click that was not made yet can be made at every later moment with the authorised review, whatever has become of lease, approval and tables. |
| SubmissionReach.ExpiredClickExample | src/job_hunting_machine/submission/service.py:245-302 | A run from the empty database that authorises a click of an expired approval and makes the click; `SomeExpiredClick` gives a configuration in which it exists. |
| SubmissionForms.FormsKeep | src/job_hunting_machine/browser/worker.py:100-118 | A form worker that still owns its task finds the application's current task to be its own, although the end of the form stage does not check it again. |
| SubmissionOutcomes.OutcomeStands | src/job_hunting_machine/submission/service.py:317-371 | CONFIRMED leaves SUCCEEDED, SUBMITTED and POST_SUBMISSION, UNKNOWN leaves UNKNOWN_RESULT, SUBMISSION_UNKNOWN and SUBMISSION, NOT_SUBMITTED leaves FAILED, READY_TO_REVIEW and REVIEW; no other row changes. |
| SubmissionOutcomes.ConfirmationHandsOn | src/job_hunting_machine/submission/service.py:332-361 | After CONFIRMED the connector's task is current and the monitor's exists, both ready where they are new, with the application, the job and the URL in them; the first submission time is kept. |
| SubmissionOutcomes.OutcomeCanBeRecorded | src/job_hunting_machine/submission/service.py:317-371 | A holder whose lease passes can record any outcome; a confirmation needs its tasks to be new. |
| SubmissionOutcomes.OutcomeCloses | src/job_hunting_machine/submission/service.py:317-464 | After CONFIRMED or UNKNOWN no form, review, click or restart of the application can begin. |
| SubmissionOutcomes.ConfirmedIsNotReopened | src/job_hunting_machine/submission/service.py:154-174 | After CONFIRMED not even a revocation reopens the application. |
| SubmissionOutcomes.NotSubmittedCanRestart | src/job_hunting_machine/submission/service.py:444-464 | After NOT_SUBMITTED the same holder can start a new review, whose ready task becomes the current one. |
| SubmissionOutcomes.RestartMeans | src/job_hunting_machine/submission/service.py:444-464 | A review starts anew exactly from a holder's lease while the application is ready for review. |
| SubmissionOutcomes.SubmittedStays | src/job_hunting_machine/submission/service.py:317-464 | In every run a confirmed application stays submitted and closed, through recovery, crashes, late executors and late form workers, while nobody outside moves it. |
| SubmissionOutcomes.RecoveryCloses | src/job_hunting_machine/submission/service.py:411-442 | Recovery leaves no action EXECUTING: each has an unknown result, its application is SUBMISSION_UNKNOWN and closed, and everything else is as it was. |
| SubmissionOutcomes.RecoveredIsReconciled | src/job_hunting_machine/submission/service.py:386-393 | The next try of a recovered action asks the adapter what happened instead of clicking. |
| SubmissionOutcomes.RevocationMeans | src/job_hunting_machine/submission/service.py:154-174 | A holder's revocation spends an open approval and sends an unsubmitted application back to its review; nothing else changes and nothing can be authorised by that approval. |
| SubmissionOutcomes.RevokedCanRestart | src/job_hunting_machine/submission/service.py:154-174 | After it the holder can start a new review. |
| SubmissionExecution.ReadingLeads | src/job_hunting_machine/submission/service.py:134-142 | An unreadable review leads to revocation, a readable one to the comparison. |
| SubmissionExecution.ComparingLeads | src/job_hunting_machine/submission/service.py:143-152 | A review that the database would not produce now leads to revocation, the same one to the plan. |
| SubmissionExecution.RevokingEnds | src/job_hunting_machine/submission/service.py:154-174 | A changed review costs the approval and ends the execution without a click. |
| SubmissionExecution.OpenIsReconciled | src/job_hunting_machine/submission/service.py:386-394 | An action in EXECUTING or UNKNOWN_RESULT is reconciled with the adapter and never clicked again. |
| SubmissionExecution.ClickingLeads | src/job_hunting_machine/submission/service.py:403-408 | The adapter is called once with the review, and its answer is what is recorded. |
| SubmissionExecution.RecordingEnds | src/job_hunting_machine/submission/service.py:317-384 | The recorded outcome stands and the execution ends, or goes on to a new review. |
| SubmissionExecution.NothingSubmittedStartsOver | src/job_hunting_machine/submission/worker.py:41-71 | Where nothing was submitted the same execution ends with a new review task that is current. |
| SubmissionMeaning.CaseIff | src/job_hunting_machine/submission/service.py:65-79 | A submission payload names application and approval by ids, path and digest by texts. |
| SubmissionMeaning.ValidatedIff | src/job_hunting_machine/submission/service.py:65-121 | An execution is let in exactly in live mode, by a holder, for rows that belong together, under an approval given by an authorised user and in time, or consumed; an expiry is all that is ever written. |
| SubmissionMeaning.UnchangedIff | src/job_hunting_machine/submission/review.py:191-206 | A review is unchanged exactly if the readable file with the approved digest and the database both say it. |
| SubmissionMeaning.PlanIff | src/job_hunting_machine/submission/service.py:176-233 | The row of the key is returned if it is this case's; without one it is planned while no action of the application is open. |
| SubmissionMeaning.StartIff | src/job_hunting_machine/submission/service.py:235-315 | A click is authorised exactly for an unchanged review with all three rows standing; a changed review costs the approval and only that. |
| SubmissionMeaning.FormIff | src/job_hunting_machine/browser/worker.py:99-118 | A form worker gets exactly the application whose current task it holds, in a stage that may still be filled in. |
| SubmissionMeaning.FormLeads | src/job_hunting_machine/browser/worker.py:596-629 | A finished form leaves the application ready for review, with the review's task current and its own over. |
| SubmissionMeaning.PrepareNeeds | src/job_hunting_machine/submission/review.py:222-262 | A review is prepared only for the current review task of an application that is ready for it. |
| SubmissionMeaning.ReviewFilesAreKept | src/job_hunting_machine/submission/review.py:243-256 | A review file that is there already is never overwritten: the same content is accepted, another one refused. |
| SubmissionMeaning.PrepareLeaves | src/job_hunting_machine/submission/review.py:262-322 | A prepared review leaves its file, a submission task that waits for the decision, a pending approval of exactly this file with its deadline, and that task current. |
| SubmissionService.SubmissionService.Validate | src/job_hunting_machine/submission/service.py:65-133 | The fenced checks; only an expiry is written, and it is committed although the call then fails. |
| SubmissionService.SubmissionService.RevokeApproval | src/job_hunting_machine/submission/service.py:154-174 | Revokes an open approval and reopens an application that was not submitted. |
| SubmissionService.SubmissionService.FindOrPlan | src/job_hunting_machine/submission/service.py:176-233 | Returns the row of the key, or plans it only while no action of the application is open. |
| SubmissionService.SubmissionService.Authorise | src/job_hunting_machine/submission/service.py:235-315 | Authorises only an unchanged review, moving approval, application and action together; otherwise revokes. |
| SubmissionService.SubmissionService.RecordOutcome | src/job_hunting_machine/submission/service.py:317-384 | Records the outcome with the application's status and, on success, the two follow-up tasks. |
| SubmissionService.SubmissionService.RecoverActions | src/job_hunting_machine/submission/service.py:411-442 | The loop leaves no action EXECUTING, counts them, and does not depend on their order. |
| SubmissionService.SubmissionService.ScheduleReview | src/job_hunting_machine/submission/service.py:444-464 | Queues a fresh review task and makes it the application's current task. |
| SubmissionService.SubmissionService.PrepareReview | src/job_hunting_machine/submission/review.py:222-304 | Writes the review file, queues the submission task, creates its approval, moves current_task_id and completes the review task; a failure leaves at most the file. |
| SubmissionService.SubmissionService.OneToOne | src/job_hunting_machine/submission/service.py:176-315 | Of the object itself: the methods follow a run of the pipeline, so authorisations, started actions and consumed approvals are one to one. |
| SubmissionService.SubmissionService.OneOpen | src/job_hunting_machine/submission/service.py:198-206 | Of the object itself: no application has two open actions. |
| Pricing.MaximumBoundsCachedCalls | src/job_hunting_machine/models/pricing.py:31-38 | With caching enabled the reserved maximum bounds the price of every usage within the admitted tokens. |
| Pricing.MaximumBoundsUncachedCallsIff | src/job_hunting_machine/models/gateway.py:127-135 | With caching disabled it bounds every such usage if and only if cache writes cost no more than input, or no input is admitted. |
| Pricing.MaximumBoundsCallsWithoutWrites | src/job_hunting_machine/models/gateway.py:127-135 | With caching disabled it still bounds every usage that reports no cache writes. |
| Pricing.CostNonnegative | src/job_hunting_machine/models/pricing.py:16-38 | A valid usage at valid prices never costs less than nothing. |
| Pricing.AcceptedIff | src/job_hunting_machine/models/router.py:46-60 | Accepted prices are not negative, reading from the cache is no dearer than fresh input and writing to it no cheaper. |
| Pricing.EveryTokenCosts | src/job_hunting_machine/models/pricing.py:31-38 | Every token more, of each kind, costs its price per million, and nothing costs nothing. |
| Router.CheckRoutes | src/job_hunting_machine/models/router.py:114-129 | Accepts exactly the registries with all tiers and ascending, supported routes, and turns Astra off unless it is mentioned. |
| Router.PairwiseIsAscending | src/job_hunting_machine/models/router.py:122-125 | Comparing neighbours is enough for strictly ascending tiers. |
| Router.SelectRoute | src/job_hunting_machine/models/router.py:131-148 | The selected steps are the longest usable beginning of the route: no disabled or too high tier is skipped, tiers strictly ascend. |
| Router.LongestIsUnique | src/job_hunting_machine/models/router.py:139-148 | There is exactly one longest usable beginning. |
| Router.StepsOfRoute | src/job_hunting_machine/models/router.py:74-90 | A route has its primary model or an allowed fallback first, then the escalation and the final step that there are. |
| Router.LowerCeilingBinds | src/job_hunting_machine/models/router.py:131-148 | A caller can lower the ceiling but not raise it; a usable step is below both and enabled. |
| Router.CheckedMeans | src/job_hunting_machine/models/router.py:114-129 | A checked route ascends strictly from step to step, each with an effort that its model has. |
| Router.TiersAreOrdered | src/job_hunting_machine/models/router.py:18-30 | The four tiers are ordered. |
| Budgets.QueryIsExact | src/job_hunting_machine/models/budgets.py:65-95 | The sums over the filtered query are the sums over the whole table, for task, application, day and month. |
| BudgetMeaning.ReserveIff | src/job_hunting_machine/models/budgets.py:53-137 | A reservation is granted exactly if its task is known and budgeted, no row that counts is unpriced, and it fits on top of everything of its task, application, day and month. |
| BudgetMeaning.SettleIff | src/job_hunting_machine/models/budgets.py:139-174 | A row is settled exactly once, while it is pending, at its tokens, stored cost and success. |
| BudgetLedger.BudgetLedger.Fetch | src/job_hunting_machine/models/budgets.py:66-77 | The four-way filter as one pass. |
| BudgetLedger.BudgetLedger.Reserve | src/job_hunting_machine/models/budgets.py:53-137 | Admission by the full-table sums under every ceiling; a refusal changes nothing. |
| BudgetLedger.BudgetLedger.Settle | src/job_hunting_machine/models/budgets.py:139-160 | Settles a pending row once, at the stored cost. |
| BudgetLedger.BudgetLedger.WithinCeilings | src/job_hunting_machine/models/budgets.py:96-104 | In a ledger whose calls are legal events of a run, no class exceeds its ceiling by more than settlements exceeded their reservations. |
| BudgetRuns.HappenKeeps | src/job_hunting_machine/models/budgets.py:53-174 | Reserving, settling and passing time keep what is held of every class below its ceiling. |
| BudgetRuns.CeilingsHold | src/job_hunting_machine/models/budgets.py:96-104 | In every run the exact cost counted against a task, an application, the current or a later day or month is at most its ceiling plus the overshoot of its settlements. |
| BudgetRuns.FourCeilings | src/job_hunting_machine/models/budgets.py:96-104 | In particular for today, this month, every application and every budgeted task. |
| BudgetRuns.CeilingsAreAbsolute | src/job_hunting_machine/models/budgets.py:96-104 | While settlements stay within their reservations the ceilings are absolute. |
| BudgetedCalls.CachedCallsKeepCeilings | src/job_hunting_machine/models/gateway.py:127-209 | In every run whose reservations are the cached maxima and whose settlements are free or priced within the admitted tokens, all four kinds of ceiling are absolute. |
| BudgetRuns.SettlingHoldsLess | src/job_hunting_machine/models/budgets.py:150-160 | Settling any row holds no more than before, in no class. |
| BudgetRuns.HistoryIsPriced | src/job_hunting_machine/models/budgets.py:80-85 | The ledger's own rows never trigger the unpriced-history refusal. |
| BudgetRuns.SettledOnce | src/job_hunting_machine/models/budgets.py:150-160 | A settled row never changes again and no row disappears. |
| Gateway.ModelGateway.Structured | src/job_hunting_machine/models/gateway.py:88-230 | At most max_requests calls over a usable beginning of the route, every step entered in turn and bounded, each reservation settled once as its reply demands or pending at its full maximum, no reservation beyond those of the returned requests, the ledger kept within its run, and the last reply decides the ending: a result is returned exactly for a metered, completed, unrefused and accepted answer within its reservation, and every error names its reply. The next request at a tier follows a retryable error or an unparsed answer; a tier is left by escalation or after as many unparsed answers as allowed. |
| Gateway.ModelGateway.TryStep | src/job_hunting_machine/models/gateway.py:122-229 | The inner retry loop of one tier. |
| Gateway.ReactMeans | src/job_hunting_machine/models/gateway.py:171-229 | What follows a reply: returned, retried on the tier, escalated, or which error. |
| Gateway.SettlementMeans | src/job_hunting_machine/models/gateway.py:155-209 | An answer is charged at its price, a surely unbilled error at nothing, and everything ambiguous stays reserved in full. |
| Gateway.ParsedMeans | src/job_hunting_machine/models/gateway.py:192-209 | The ledger row counts as a success exactly if an object was made of the answer. |
| Gateway.ModelGateway.Call | src/job_hunting_machine/models/gateway.py:147-209 | Reserve, call, settle, with other callers acting in between; exactly one reservation is opened, or none. |
| Gateway.CachedCallsStayWithin | src/job_hunting_machine/models/gateway.py:201-213 | With caching on and tokens within the admitted bounds no call overshoots. |
| BrowserRuns.MutationsAreBounded | src/job_hunting_machine/browser/actions.py:128-208 | Over any run an effect is applied at most once more often than its row entered SUCCEEDED. |
| BrowserReach.BoundIsTight | src/job_hunting_machine/browser/actions.py:128-208 | For every n there is a run in which an effect is confirmed n times and applied n + 1 times. |
| BrowserRuns.NeverAuthorisedUndecided | src/job_hunting_machine/browser/actions.py:156-180 | No effect is authorised out of EXECUTING or UNKNOWN_RESULT, and each approval is consumed at most once. |
| BrowserRuns.AuthorisationsAreSanctioned | src/job_hunting_machine/browser/actions.py:38-64 | Every authorisation happens under an unexpired, decided approval of this very plan whose file still has its digest. |
| BrowserRuns.HappenKeeps | src/job_hunting_machine/browser/actions.py:66-235 | Every step of every execution, and recovery at any time, keeps the balance of authorisations and successes. |
| BrowserOutcomes.FirstExecution | src/job_hunting_machine/browser/actions.py:156-208 | An effect seen for the first time is applied once and ends confirmed or unknown as the adapter says; its approval is spent. |
| BrowserOutcomes.OpenIsOnlyProbed | src/job_hunting_machine/browser/actions.py:156-169 | An effect whose outcome is open is never applied again: the adapter is only asked whether it shows. |
| BrowserOutcomes.ConfirmedIsLeft | src/job_hunting_machine/browser/actions.py:128-131 | A confirmed effect that still shows is left alone. |
| BrowserOutcomes.GoneIsReapplied | src/job_hunting_machine/browser/actions.py:132-155 | A confirmed effect that is gone is applied once more and ends confirmed or unknown. |
| BrowserOutcomes.AdmittedIff | src/job_hunting_machine/browser/actions.py:38-127 | An effect is admitted exactly for a holder under an approval of this plan, decided, in time and on disk, unless its key names another effect. |
| BrowserOutcomes.RefusalNames | src/job_hunting_machine/browser/actions.py:38-64 | The error of a refused effect names the first thing that is wrong with its approval. |
| BrowserOutcomes.AuthorisedIff | src/job_hunting_machine/browser/actions.py:170-180 | A planned effect is authorised exactly so, and its approval is spent. |
| BrowserOutcomes.ReappliedIff | src/job_hunting_machine/browser/actions.py:133-139 | A confirmed effect is authorised again exactly under the same approval. |
| BrowserOutcomes.RecordedIff | src/job_hunting_machine/browser/actions.py:191-196 | An outcome is recorded exactly by a holder. |
| BrowserOutcomes.RecoveryMeans | src/job_hunting_machine/browser/actions.py:210-235 | Recovery gives exactly the executing fills and uploads an unknown result. |
| Browser.ExpiryIsNeverCommitted | src/job_hunting_machine/browser/actions.py:50-64 | The EXPIRED and REVOKED writes of the approval check are rolled back; the service only ever consumes. |
| BrowserService.BrowserService.CheckApproval | src/job_hunting_machine/browser/actions.py:38-64 | The approval check and which error it raises. |
| BrowserService.BrowserService.FindOrPlan | src/job_hunting_machine/browser/actions.py:82-127 | Finds the identical row, refuses a different one, or plans it. |
| BrowserService.BrowserService.Start | src/job_hunting_machine/browser/actions.py:170-180 | Authorises a planned effect and consumes an unspent approval. |
| BrowserService.BrowserService.StartAgain | src/job_hunting_machine/browser/actions.py:133-139 | Authorises a confirmed effect again under its approval. |
| BrowserService.BrowserService.Finish | src/job_hunting_machine/browser/actions.py:191-196 | Records an outcome for the lease holder. |
| BrowserService.BrowserService.RecoverRows | src/job_hunting_machine/browser/actions.py:210-235 | Turns exactly the abandoned fills and uploads to UNKNOWN_RESULT. |
| BrowserService.BrowserService.Balanced | src/job_hunting_machine/browser/actions.py:128-208 | Of the object itself: an effect was applied at most once more often than it was confirmed. |
| Outreach.CalledAtMostOnce | src/job_hunting_machine/outreach/actions.py:63-135 | Over any run the provider is called at most once per draft or email row, and never without a row. |
| Outreach.ApprovalsSpentOnce | src/job_hunting_machine/outreach/actions.py:268-286 | Consumed approvals are those of authorised sends, no two sends share one. |
| Outreach.NothingIsRepeated | src/job_hunting_machine/outreach/actions.py:80-86 | A call is only made for a key that had no row: open or known results are never called for again. |
| Outreach.SendIsBound | src/job_hunting_machine/outreach/actions.py:204-286 | A send is authorised only for a well-formed payload in live mode under an unexpired approval by an authorised user whose digest, stored review and current email agree, with a confirmed Gmail draft of that content. |
| OutreachOutcomes.DraftStartsIff | src/job_hunting_machine/outreach/actions.py:63-108 | A draft is authorised exactly for a connector task of the application, in a mode that drafts, for content without a row; a confirmed one is answered from the ledger. |
| OutreachOutcomes.AnswerIsRecordedIff | src/job_hunting_machine/outreach/actions.py:112-135 | A holder's answer is recorded with its reference: confirmed or unknown, and a confirmed send marks its email. |
| OutreachOutcomes.DraftAgain | src/job_hunting_machine/outreach/actions.py:80-86 | The same draft asked for again is answered from the ledger if it was confirmed, and refused if it is unknown. |
| OutreachOutcomes.SendingIff | src/job_hunting_machine/outreach/actions.py:158-180 | A sending payload names an email, an approval, and a list of attachments that may be left out. |
| OutreachOutcomes.SendStartsIff | src/job_hunting_machine/outreach/actions.py:158-286 | A send is authorised exactly in live mode, by a holder, for an email that belongs, with an approval given and in time, the content as approved and a confirmed draft of it; row, approval and email move together. |
| OutreachOutcomes.SendsItsDraft | src/job_hunting_machine/outreach/actions.py:243-258 | What is sent is a confirmed Gmail draft of the application with the approved content; without one nothing is. |
| OutreachOutcomes.SentBeforeIsAnswered | src/job_hunting_machine/outreach/actions.py:258-268 | Content that was sent before is answered from the ledger and not sent again. |
| OutreachOutcomes.WithdrawnIff | src/job_hunting_machine/outreach/actions.py:223-262 | A given approval that ran out expires, one whose email changed is revoked and the email goes back for review; no other refusal writes anything. |
| OutreachOutcomes.SendAgain | src/job_hunting_machine/outreach/actions.py:188-203 | A recorded send is answered from the ledger when tried again and never called again. |
| OutreachOutcomes.RecoveryMeans | src/job_hunting_machine/outreach/actions.py:330-357 | Recovery gives exactly the executing rows an unknown result. |
| OutreachService.OutreachService.BeginDraft | src/job_hunting_machine/outreach/actions.py:63-111 | Starts a draft, answers from the ledger, or refuses. |
| OutreachService.OutreachService.FindDraft | src/job_hunting_machine/outreach/actions.py:251-258 | Finds a confirmed Gmail draft of the same content if there is one. |
| OutreachService.OutreachService.BeginSend | src/job_hunting_machine/outreach/actions.py:158-303 | Authorises, withdraws (expiry, changed email), answers from the ledger, or refuses. |
| OutreachService.OutreachService.FinishCall | src/job_hunting_machine/outreach/actions.py:304-328 | Records the provider's answer for the lease holder. |
| OutreachService.OutreachService.RecoverRows | src/job_hunting_machine/outreach/actions.py:330-357 | Turns exactly the executing rows to UNKNOWN_RESULT. |
| OutreachService.OutreachService.CalledOnce | src/job_hunting_machine/outreach/actions.py:63-135 | Of the object itself: the provider was called at most once per row. |
| SlackOutbox.PostedAtMostOnce | src/job_hunting_machine/slack/actions.py:86-158 | Over any run each notification is posted at most once; confirmed ones were posted, planned ones were not. |
| SlackOutbox.OutcomesAreFinal | src/job_hunting_machine/slack/actions.py:129-158 | Unknown, failed and confirmed rows never change again. |
| SlackOutbox.LateFinisherChangesNothing | src/job_hunting_machine/slack/actions.py:129-134 | A deliverer that returns after recovery took its row changes nothing. |
| SlackOutbox.PlanIsIdempotent | src/job_hunting_machine/slack/actions.py:39-46 | Planning the same message again returns the same row, another message under the key is refused. |
| SlackDelivery.PlanIff | src/job_hunting_machine/slack/actions.py:33-84 | A new message is planned exactly for an allowed channel and a matching task and approval. |
| SlackDelivery.PlanAgainIff | src/job_hunting_machine/slack/actions.py:39-46 | A key that is taken names the same message to the letter, or the plan is refused. |
| SlackDelivery.OldestMeans | src/job_hunting_machine/slack/actions.py:86-100 | The row delivered next is planned, and no planned row is older, or as old with a smaller number. |
| SlackDelivery.TakeIff | src/job_hunting_machine/slack/actions.py:86-128 | A row is taken, for sixty seconds, exactly if its message is untampered and its channel still allowed. |
| SlackDelivery.FinishMeans | src/job_hunting_machine/slack/actions.py:129-158 | The holder's outcome is written: confirmed on the message's own channel with its receipt, failed if surely not posted, else unknown. |
| SlackDelivery.DeliveryEnds | src/job_hunting_machine/slack/actions.py:33-158 | From plan to outcome the message is the planned one and its row ends as the adapter says. |
| SlackDelivery.RecoveryMeans | src/job_hunting_machine/slack/actions.py:160-186 | Recovery takes exactly the rows held for too long. |
| SlackOutboxService.SlackOutboxService.PlanMessage | src/job_hunting_machine/slack/actions.py:33-84 | Plans once per key. |
| SlackOutboxService.SlackOutboxService.TakeOldest | src/job_hunting_machine/slack/actions.py:87-120 | Takes the oldest planned row under a fresh owner, or reports why not. |
| SlackOutboxService.SlackOutboxService.FinishOne | src/job_hunting_machine/slack/actions.py:129-158 | Writes an outcome only for the row's current owner. |
| SlackOutboxService.SlackOutboxService.RecoverRows | src/job_hunting_machine/slack/actions.py:160-186 | Turns exactly the expired executing rows to UNKNOWN_RESULT. |
| SlackOutboxService.SlackOutboxService.PostedOnce | src/job_hunting_machine/slack/actions.py:86-158 | Of the object itself: each notification was posted at most once. |
| SlackInbox.EffectsCommitOnce | src/job_hunting_machine/slack/control.py:83-124 | Over redelivery, crash and retry each event's effect commits at most once, exactly if it is PROCESSED, and every stored event has its processing task. |
| SlackInbox.RedeliveryChangesNothing | src/job_hunting_machine/slack/control.py:40-58 | A redelivered callback stores nothing and returns the first event. |
| SlackInbox.SettledEventsAreFinal | src/job_hunting_machine/slack/control.py:88-106 | PROCESSED and REJECTED are final over any run. |
| SlackInbox.EffectsAreFenced | src/job_hunting_machine/slack/control.py:87-106 | In every run an effect is committed only under a lease that passes the fence at that moment. |
| SlackEffects.DecisionIsTheUsers | src/job_hunting_machine/slack/control.py:166-206 | A committed decision leaves the approval APPROVED exactly for an approval and REJECTED for a rejection, decided by this user, no other approval changed, and the waiting task told so. |
| SlackEffects.DecidedIsDecided | src/job_hunting_machine/slack/control.py:166-183 | An open approval can be decided; a decided one is refused to any other decision or user. |
| SlackEffects.DecisionsComeFromUsers | src/job_hunting_machine/slack/control.py:83-206 | In every run in which nothing else decides approvals, an approved or rejected one was decided so by a processed callback of the user it names. |
| SlackEffects.FirstDecisionStands | src/job_hunting_machine/slack/control.py:166-183 | In such a run no two processed callbacks decide an approval differently. |
| SlackEffects.AnswerReachesTask | src/job_hunting_machine/slack/control.py:156-165 | An answer reaches the task that asked, with the user and the event, and changes nothing else. |
| SlackEffects.AnswerIsRefusedIff | src/job_hunting_machine/slack/control.py:97-117 | An answer is refused as input exactly where the task no longer asks; a missing task is no such refusal. |
| SlackEffects.LinksBecomeOneTask | src/job_hunting_machine/slack/control.py:126-138 | Links become one ready task with exactly these links, however often the event is processed; no links become none. |
| SlackEffects.LinksAreNotRefused | src/job_hunting_machine/slack/control.py:126-138 | Links are never refused as input. |
| SlackEffects.CommitsIff | src/job_hunting_machine/slack/control.py:83-106 | An effect is committed exactly under a passing lease for a waiting event whose stored digest is that of the content the lease carries. |
| SlackEffects.MarkTellsOutcome | src/job_hunting_machine/slack/control.py:97-106 | A waiting event is marked as its effect went, with nothing else committed where the input was refused. |
| SlackEffects.SameEventIff | src/job_hunting_machine/slack/control.py:40-48 | Two callbacks are one event by the provider's number, or without one by their content. |
| SlackEffects.TakenForEarlierIff | src/job_hunting_machine/slack/control.py:49-58 | A callback is taken for an earlier one exactly by its id, or by channel, time stamp and kind together. |
| SlackEffects.ReceivedCanBeProcessed | src/job_hunting_machine/slack/control.py:59-81 | What is stored and what its task carries agree: the claimed lease finds its event and passes its check. |
| SlackInboxService.SlackInboxService.ReceiveOne | src/job_hunting_machine/slack/control.py:40-81 | Stores a callback and its processing task together, or finds the earlier event by id or identity. |
| SlackInboxService.SlackInboxService.ProcessOne | src/job_hunting_machine/slack/control.py:87-117 | The effect and its mark commit together; a refused input leaves only the rejection; any other error rolls back and leaves the event to a retry. |
| SlackInboxService.SlackInboxService.TookEffectOnce | src/job_hunting_machine/slack/control.py:83-124 | Of the object itself: each event took effect at most once, exactly if it is PROCESSED. |
| Scanner.IncrementalIsFull | src/job_hunting_machine/knowledge/scanner.py:117-130 | Reusing unchanged blobs gives the file map of fetching everything, and every file is the stored content of its blob. |
| Scanner.ChangesAreExact | src/job_hunting_machine/knowledge/scanner.py:131-139 | Added, removed and modified turn the previous file map into the new one and list nothing else. |
| CatalogMeaning.FilesAreListed | src/job_hunting_machine/knowledge/scanner.py:106-130 | The files of a scan are those of the listing and no others. |
| CatalogMeaning.FileIsItsLastEntry | src/job_hunting_machine/knowledge/scanner.py:117-130 | Each file has the content of its last entry, stored under that content's digest. |
| CatalogMeaning.ChosenAreTheFirst | src/job_hunting_machine/knowledge/scanner.py:117-121 | At most forty files are taken, the first of the listing. |
| CatalogMeaning.SnapshotReports | src/job_hunting_machine/knowledge/scanner.py:131-148 | A snapshot reports its base and head, the number of files, and what changed since the past. |
| Scanner.GitHubScanner.ScanFiles | src/job_hunting_machine/knowledge/scanner.py:119-130 | The loop yields the full scan's map with all evidence on disk, or fails for a named reason. |
| Scanner.GitHubScanner.BuildSnapshot | src/job_hunting_machine/knowledge/scanner.py:106-148 | The snapshot is that of a full scan. |
| CatalogRuns.ScansAreFull | src/job_hunting_machine/knowledge/scanner.py:106-148 | Along any sequence of scans and publications every manifest is what a full scan would have stored. |
| CatalogRuns.PublicationsAreLinear | src/job_hunting_machine/knowledge/scanner.py:168-196 | Publications of a repository form a chain: each base is the previously published commit, the last one is current. |
| CatalogRuns.VerifiedFactsAreCurrent | src/job_hunting_machine/knowledge/scanner.py:174-192 | In every reachable state a verified fact that names a project carries its published commit. |
| CatalogRuns.CatalogsFollow | src/job_hunting_machine/database/repositories/knowledge.py:126-170 | After every publication and every change of standing the catalogs equal a recomputation from scratch. |
| Catalog.RefreshIsExact | src/job_hunting_machine/database/repositories/knowledge.py:200-262 | Refreshing makes the catalogs agree with the facts; refreshing again changes nothing. |
| Catalog.RefreshKeepsDerived | src/job_hunting_machine/database/repositories/knowledge.py:214-246 | Catalogs that already agree are left alone. |
| CatalogMeaning.ProjectsSay | src/job_hunting_machine/database/repositories/knowledge.py:200-246 | A refresh rewrites the catalogs only; afterwards every project lists exactly its verified facts that hold. |
| CatalogMeaning.SkillsSay | src/job_hunting_machine/database/repositories/knowledge.py:214-262 | And every skill exactly its facts that hold; it is verified exactly if one of them is. |
| CatalogMeaning.DecideIff | src/job_hunting_machine/database/repositories/knowledge.py:126-172 | A standing changes exactly from the expected one, to VERIFIED only while the fact holds. |
| CatalogMeaning.ProposeIff | src/job_hunting_machine/database/repositories/knowledge.py:60-94 | A claim is new, or the very one that is there, or refused. |
| CatalogMeaning.AllProposedAreThere | src/job_hunting_machine/database/repositories/knowledge.py:60-94 | After proposals every claim is there, what was there is unchanged, and nothing is verified by itself. |
| CatalogMeaning.SameClaimIff | src/job_hunting_machine/knowledge/scanner.py:205-240 | Two observations are one claim exactly if they are the same statement of the same skill at the same line of the same file. |
| CatalogMeaning.ClaimCites | src/job_hunting_machine/knowledge/scanner.py:205-240 | A claim cites the line it was observed at, in the stored evidence, at the commit of the scan. |
| CatalogMeaning.EveryObservationIsClaimed | src/job_hunting_machine/knowledge/scanner.py:205-240 | Every observation in every listed file is claimed. |
| CatalogMeaning.PublishRefuses | src/job_hunting_machine/knowledge/scanner.py:161-173 | A publication is refused for a moved base exactly when the current commit is not the scan's base, and needs its evidence on disk. |
| CatalogMeaning.PublishLeaves | src/job_hunting_machine/knowledge/scanner.py:161-252 | A publication makes commit and manifest current, takes the standing of exactly the project's verified facts of other commits, and records every observation. |
| CatalogService.CatalogService.OneChain | src/job_hunting_machine/knowledge/scanner.py:168-196 | In a catalog whose calls follow a run, the publications of a repository form a chain that ends in its current commit. |
| CatalogService.CatalogService.FactsAreCurrent | src/job_hunting_machine/knowledge/scanner.py:174-192 | In such a catalog a verified fact that names a project carries its published commit. |
| CatalogService.CatalogService.IsCurrent | src/job_hunting_machine/database/repositories/knowledge.py:96-113 | A fact is current exactly at its project's commit with its evidence intact. |
| CatalogService.CatalogService.Gather | src/job_hunting_machine/database/repositories/knowledge.py:202-213 | One pass yields the verified facts and the facts of each project and skill. |
| CatalogService.CatalogService.Refresh | src/job_hunting_machine/database/repositories/knowledge.py:200-262 | The catalogs end as recomputed, and rows are written if and only if something differs. |
| CatalogService.CatalogService.DecideOne | src/job_hunting_machine/database/repositories/knowledge.py:126-170 | A decision needs the expected status, and current evidence to verify; a changed standing leaves the catalogs as recomputed. |
| CatalogService.CatalogService.Demote | src/job_hunting_machine/knowledge/scanner.py:174-192 | Exactly the verified facts of other commits of the project lose their standing. |
| CatalogService.CatalogService.PublishOne | src/job_hunting_machine/knowledge/scanner.py:161-252 | Compare-and-swap publication with all its claims, or no change; a change leaves the catalogs as recomputed. |
| Latex.EscapeIsReadable | src/job_hunting_machine/resume/latex.py:21-37 | The plain text can be read back from its escaped form, in which no character that TeX acts upon is left bare. |
| Latex.EscapeIsInjective | src/job_hunting_machine/resume/latex.py:21-37 | Escaping is injective on accepted text. |
| Latex.EscapeRefuses | src/job_hunting_machine/resume/latex.py:21-37 | Text is refused exactly for a control character other than a line feed or a tab. |
| Latex.AdjacentMeansDisjoint | src/job_hunting_machine/resume/latex.py:70-72 | Comparing neighbours is enough: no two regions overlap. |
| Latex.RegionIff | src/job_hunting_machine/resume/latex.py:57-69 | A region lies between its two markers, each of which occurs once, and is refused if nothing lies between them. |
| Latex.MarkersInvalidIff | src/job_hunting_machine/resume/latex.py:57-69 | Markers are refused exactly if one of them does not occur once. |
| Latex.LatexTemplate.Collect | src/job_hunting_machine/resume/latex.py:57-69 | One region per required name, or the error of a name whose markers are missing, repeated or misordered. |
| Latex.LatexTemplate.FindRegions | src/job_hunting_machine/resume/latex.py:57-73 | Accepts disjoint regions in order of their starts; when every region is found, an overlap is reported if and only if two different names have overlapping regions. |
| Latex.LatexTemplate.Render | src/job_hunting_machine/resume/latex.py:75-82 | Back-to-front replacement in place equals replacing all regions at once. |
| Latex.OutsideIsKept | src/job_hunting_machine/resume/latex.py:75-82 | Every character outside the contents is in the result. |
| Latex.OrderIsKept | src/job_hunting_machine/resume/latex.py:75-82 | Those characters keep their order. |
| Latex.ContentIsThere | src/job_hunting_machine/resume/latex.py:75-82 | The content of every region is in the result in full, after the text that precedes it. |
| Latex.ContentMeans | src/job_hunting_machine/resume/latex.py:75-82 | A content is its replacement on lines of its own: the newlines around it become one on each side. |
| Ulid.GenerateUlid | src/job_hunting_machine/ids.py:65-77 | The loop writes the 26-character encoding of time and random bits. |
| Ulid.GeneratedIsValid | src/job_hunting_machine/ids.py:34-77 | A generated identifier passes validation and decodes to its time and random bits. |
| Ulid.ValueOfEncoded | src/job_hunting_machine/ids.py:72-77 | Decoding inverts encoding on numbers that fit. |
| Ulid.ValidMeansEncoded | src/job_hunting_machine/ids.py:34-46 | The valid identifiers are exactly the encodings of 128-bit numbers. |
| Ulid.TextOrderIsNumericOrder | src/job_hunting_machine/ids.py:49-55 | Text order is numeric order. |
| Ulid.EarlierSortsFirst | src/job_hunting_machine/ids.py:49-55 | A smaller millisecond sorts first, whatever the random bits. |
| Ulid.ValidateId | src/job_hunting_machine/ids.py:34-46 | Accepts exactly a kind's prefix followed by a canonical ULID. |
| Ulid.KindsAreTold | src/job_hunting_machine/ids.py:22-34 | No identifier is valid for two kinds. |
| Qualification.Evaluate | src/job_hunting_machine/agents/qualification.py:98-263 | The loop computes the specified results; PASS means there are results and all of them pass, with company and title known. |
| QualificationRules.WhoSpeaks | src/job_hunting_machine/agents/qualification.py:134-140 | Exactly the rules about this kind of job report, the authorization rule only for its own country. |
| QualificationRules.Place | src/job_hunting_machine/agents/qualification.py:103-111 | Every rule that speaks has its own result, under its id and key, in the order of the policy. |
| QualificationRules.OutcomeMeans | src/job_hunting_machine/agents/qualification.py:255-263 | One FAIL fails the job; it passes exactly if there are results and all of them pass. |
| QualificationRules.OpenQuestionsAreReported | src/job_hunting_machine/agents/qualification.py:113-132 | What extraction left open is reported first, in review, and nothing else is. |
| QualificationRules.PeriodMeans | src/job_hunting_machine/agents/qualification.py:161-166 | An internship passes exactly if some day lies in its period and in the configured one; under a configured period that is upside down, exactly if it spans the gap. |
| QualificationRules.ExperienceMeans | src/job_hunting_machine/agents/qualification.py:212-218 | Exactly the jobs that ask for fewer years than the bound pass; the bound itself fails. |
| QualificationRules.LessExperienceKeepsPass | src/job_hunting_machine/agents/qualification.py:212-218 | Asking for fewer years never loses a PASS. |
| QualificationRules.SalaryMeans | src/job_hunting_machine/agents/qualification.py:179-211 | Pay is held against the first of the most specific salary rules for the place; it stays open where pay, currency, period or place are not known. |
| QualificationRules.ThresholdIsUnique | src/job_hunting_machine/agents/qualification.py:188-190 | There is at most one such rule. |
| QualificationRules.MorePayKeepsPass | src/job_hunting_machine/agents/qualification.py:179-211 | More pay never loses a PASS. |
| QualificationRules.OpenMeans | src/job_hunting_machine/agents/qualification.py:219-224 | A passed deadline fails whatever the page says, and an unreadable one leaves at most a failure. |
| QualificationRules.CountryMeans | src/job_hunting_machine/agents/qualification.py:167-175 | Country, country lists and the paid rule compare with what is configured; unknown stays open. |
| QualificationRules.PermissionMeans | src/job_hunting_machine/agents/qualification.py:246-254 | CPT must be supported, full-time work needs OPT or sponsorship, silence decides nothing. |
| QualificationRules.StartMeans | src/job_hunting_machine/agents/qualification.py:225-229 | A start passes exactly in a month after the reference month. |
| QualificationRules.RelevanceMeans | src/job_hunting_machine/agents/qualification.py:230-245 | Relevance is what was found out, or follows from a title that names a configured area; the title never fails a job. |
| QualificationRules.OthersAreReviewed | src/job_hunting_machine/agents/qualification.py:141-158 | Any other key or operator is left to a reader. |
| QualificationRules.AskedOnlyIf | src/job_hunting_machine/agents/qualification.py:277-283 | A model is asked only without a failure, with text, and for a question it may answer. |
| QualificationRules.ChangesAreEvidenced | src/job_hunting_machine/agents/qualification.py:329-365 | Evidence takes effect and every changed fact is the effect of its evidence: the one finding of its field, quoted, known, and confident enough. |
| QualificationRules.ContainsIff | src/job_hunting_machine/agents/qualification.py:335-338 | Quoted means: what lies between some beginning and some end of the text. |
| QualificationRules.DaysAreOrdered | src/job_hunting_machine/agents/qualification.py:78-96 | Days are ordered by month, then by day of the month. |
| QualificationRules.GivenIff | src/job_hunting_machine/agents/qualification.py:120-126 | An empty text counts as none. |
| Qualification.PassHasIdentity | src/job_hunting_machine/agents/qualification.py:120-126 | A job that passes has a company and a title. |
| Qualification.TimeOnlyFails | src/job_hunting_machine/agents/qualification.py:219-224 | Evaluating the same facts later gives the same result or FAIL, rule by rule and as a whole. |
| Qualification.SemanticCheck | src/job_hunting_machine/agents/qualification.py:329-365 | The model can change only relevance in review, unknown CPT and unknown authorization. |
| Qualification.SemanticOnlyResolves | src/job_hunting_machine/agents/qualification.py:286-365 | For any model output and policy with unique keys every rule already PASS or FAIL keeps its result. |
| Qualification.UniqueKeysMatter | src/job_hunting_machine/agents/qualification.py:341-346 | An example of what the unique key of the rules table prevents: with two rules of one key a negative finding turns a decided rule over. |
| Qualification.FailureIsFinal | src/job_hunting_machine/agents/worker.py:147-174 | A job that had failed is published as failed, after any semantic step and any later time. |
| QualificationWorker.QualificationWorker.Start | src/job_hunting_machine/agents/worker.py:109-146 | Takes the job and stores its snapshot once. |
| QualificationWorker.QualificationWorker.Semantic | src/job_hunting_machine/agents/worker.py:147-161 | The model is asked exactly once where it can help and was not asked, even across crashes, its evidence is stored, and decided rules are kept. |
| QualificationWorker.QualificationWorker.Publish | src/job_hunting_machine/agents/worker.py:163-232 | Publishes the re-evaluated outcome once: as decided before or ABORTED; an application exactly for a pass. |

## Left out

- Transactions are atomic and serial, and each reads the clock once; where the source reads it twice in one transaction the readings are taken to be equal.
- Columns that nothing reads back in the modelled code: `updated_at`, `last_error_code`, `checkpoint_key`, `memory_version`, receipts, result JSON, descriptions, topics, languages, frameworks, explanations.
- Activity-log entries of the submission, browser, outreach, Slack and catalog services; the queue's own audit log is modelled.
- HTTP, Playwright, Gmail, Slack, GitHub and model transports: adapters with arbitrary answers.
- Cancellation, signals and heartbeat timers: a crash or a release at any point.
- Path checks, file permissions and file sizes: a file is the bytes found at a path, and a predicate says which are readable.
- `review_payload` and `email_payload` as compositions of rows: the value they would produce now is an input that may change at any time.
- Pipeline stages before the form: an application enters with its form task; application statuses may otherwise change in any way.
- Approvals: each ledger keeps those of its own type; the correlation and payload checks made when a human decides are left to the environment.
- Interleaving: the run modules interleave transactions as values; the service classes show each transaction's updates in place and follow a run, but two methods of one object are not run at once.
- Slack callbacks: the checks of an interaction against its message and the current allowlist are an input of `SlackInbox.Process`; which effect follows is one of three kinds.
- Outreach: a sending payload with identifiers that are text but no ULIDs is refused as invalid instead of as uncorrelated.
- SlackOutbox.Plan: whether a message's task and approval match is an input, because those tables are not part of that model.
- Catalog.Propose: the checks of a claim's text and lengths, and the folding of skill names, come before it and are not modelled.
- Scanner: which tree entries are selected and in which order is an input; the limit of forty files is kept.
- Catalog: projects are named by repository instead of by ULID, and hand-edited fact rows whose columns contradict their provenance are not modelled.
- Fencing of scans and publications by the queue lease, which `QueueLaws` covers for every transaction.
- Latex: marker names are arbitrary; compilation and PDF checks are not modelled.
- Qualification: explanations, date parsing and the text of dates; unreadable dates are unknown. A missing experience bound raises in the source and is not modelled.
- Retry delays: any delay; the schedule of delays and its jitter are not modelled.
- The JSON text of memory, so an `interrupts` value that is a list or a string has no members here.
- URL canonicalisation, HTML extraction, contact upserts, monitors, resume compression, reports, configuration loading and backups: plumbing or easy members.
- General monotonicity of salary matching, which is false when the region is missing.
