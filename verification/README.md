# Orkoda: verified model of the daemon's durable core

Orkoda is a local daemon that drives a workflow through planning, execution, checks,
review, approval and publication. Everything it must not lose lives in SQLite rows and a
durable queue, and the daemon may stop at any moment. This project models that core in
Dafny 4.11 and proves what the rows guarantee over whole runs, whatever is interleaved and
whatever crashes.

Rows are maps, one SQL statement is one guarded update, and a crash is a run that stops and
continues with the startup steps. Operations that the daemon performs step by step are
classes and methods with loops; protocols that interleave are state machines over their
single writes. Check everything with `dafny verify dfyconfig.toml`.

## The modules

| module | models |
|---|---|
| `Wrappers`, `Clock`, `Text` | options and results, milliseconds of a clock reading, trimming as Go and SQL do it |
| `WorkflowTransition` | statuses, actions, the transition and dispatch tables |
| `JobQueue` | the durable queue: enqueue, claim, complete, fail, recover |
| `WorkflowLog` | the append-only log, what can be read off it, and a bound on its length |
| `WorkflowRepository` | `Create` and `Transition`: compare-and-swap, log entry and enqueue in one transaction |
| `Orchestrator` | all runs of workflows, log, queue and execution rows, and what holds in every reachable state |
| `ExecutionRecovery` | startup recovery, from any state a crash leaves |
| `ExecutionHandler` | the handler of `workflow.execute` jobs, what a call leaves for recovery, and why recovery then always succeeds |
| `Scheduler`, `QueueFairness` | the serial loop, backoff, queue conservation across crashes, bounded bypass |
| `WorkspaceLease` | leases fenced by token and expiry |
| `ApprovalService` | approval decisions: recorded, applied and marked in separate writes by concurrent calls |
| `Publication` | committing, verifying and recording an approved patch, one attempt after another, each git command a step |
| `Witnesses` | runs from the empty database to the states the theorems warn about |
| `LlmGateway`, `SafetyGateway` | retries, fallbacks and token budgets; redaction, validation and repair |
| `SchemaValidation` | the capped validator against an uncapped one and a declarative conformance predicate |
| `ExecutorLoop` | the turn loop and its three stop monitors against whole-history definitions |
| `CheckRuns` | resumable check runs |
| `Truncation` | UTF-8-safe cuts under a shared byte budget |

Each protocol module defines its steps (`Step`, `CallStep`, `Statement`), the predicate that
one step is possible (`Enabled`), its effect (`After`), and runs (`Leads`); the theorems are
about every run from the initial state. `Orchestrator.Act` allows any legal transition at any
time, so its theorems hold of every caller; `ApprovalService` runs on top of it and
`Publication` on top of both.

## What the proofs say about the code

- A RETRY back to EXECUTING, CHECKING, REVIEWING or PUBLISHING enqueues a payload that its
  handler rejects, and no other current dispatch is rejected (`Orchestrator.DispatchAcceptedIff`;
  a run that gets there is `Witnesses.RejectedDispatchExists`).
- Startup recovery would stop with an error exactly for an ended dispatch whose error text
  consists of white space that is not all spaces: SQL's TRIM keeps it, Go's TrimSpace then
  empties it and FAIL demands a message (`ExecutionRecovery.Startup`). The execute handler never
  leaves such a text: it joins its own sentence to a blank error of a last attempt
  (`ExecutionHandler.Process`), so over any run whose execute jobs end through it recovery
  succeeds (`ExecutionHandler.NothingBlocksStartup`, `ExecutionHandler.StartAgain`).
- A comment at internal/scheduler/scheduler.go:182-183 says an interrupted job is recovered after
  the stale threshold; startup requeues it at once (internal/jobqueue/startup_recovery.go:12-35),
  and the model follows the code.
- Recovery requeues without looking at the attempts, so a job interrupted in its last attempt is
  QUEUED again with its attempts used up, and its next claim passes the maximum. Nothing else
  leaves such a row (`Scheduler.SpentByRecoveryIff`, `Scheduler.ClaimPassesMaximumIff`,
  `Scheduler.AttemptsPassMaximumIff`; `Scheduler.AttemptsMayPassMaximum` says how far). Failures
  never pass it (`Scheduler.QueueIsConserved`).
- The backoff exceeds the plain capped doubling by one exactly when the doubling reaches the cap
  minus one (`Scheduler.BackoffIsCappedDoubling`).
- `Release` on a WRITE_LOCKED workspace, and no other call, leaves it without a lease and out of
  reach of every acquire until it is archived or found missing (`WorkspaceLease.StrandsIff`,
  `WorkspaceLease.StrandedIff`, `WorkspaceLease.StrandedUntil`; `WorkspaceLease.StrandedWorkspaceExists`).
- A publication commit whose diff does not have the approved checksum can never be published and
  blocks its workflow until it is cancelled (`Publication.CommitVerifiesOrWedges`,
  `Publication.WedgedForever`; `Witnesses.WedgedPublicationExists`).
- The head to publish and the diff to check are read by two git commands. A commit by somebody
  else between them can make the record name a commit nobody approved
  (`Witnesses.MisboundRecordExists`). Without one there the record is always right
  (`Publication.PublicationBinding`); over all runs it is right exactly if the head that was read
  had the approved diff then (`Publication.RecordIsRightIff`, `Publication.ForeignCommitInWindow`).
- Every recorded approval has passed checks, or failed ones overruled with a reason, in every
  run (`ApprovalService.DecisionWasLicensed`); publication asks the same again, and an approval is
  never stuck on it while its check run stands (`Publication.ApprovedMayPublish`,
  `Publication.RecordWasChecked`).
- `Decide` accepts notes of up to 8000 bytes, its store only up to 4000, so a longer note is
  refused behind all guards (`ApprovalService.NoteLimitsDisagree`, `ApprovalService.Service.Decide`).

## Model

| member | source | states |
|---|---|---|
| WorkflowTransition.DispatchMatchesStage | internal/workflowjob/transition.go:47-148 | The transition table, the dispatch table and the stage table agree: a legal action enters an active stage exactly when it enqueues that stage's job, or carries the current one over (EXECUTION_STARTED) |
| WorkflowTransition.StepsInto | internal/workflowjob/transition.go:47-131 | The whole table read backwards, status by status: what each action leads out of and into, for every current status, action and retry status |
| WorkflowTransition.TerminalIsAbsorbing | internal/workflowjob/transition.go:91-157 | No action leaves COMPLETED, REJECTED or CANCELLED |
| JobQueue.Queue.Enqueue | internal/jobqueue/transaction.go:81-119 | Either the input is refused for its type or its attempts and nothing changes, or one QUEUED row is added |
| JobQueue.Queue.First | internal/jobqueue/transaction.go:60-66 | ORDER BY run_after, created_at LIMIT 1: some due job whose key no other due job's key precedes |
| JobQueue.Queue.Claim | internal/jobqueue/sqlite.go:71-102 | Nothing due: nothing changes. Otherwise exactly one first due job becomes RUNNING with a lock and one more attempt; ClaimTypes restricts the choice to the handled types |
| JobQueue.Queue.Complete | internal/jobqueue/sqlite.go:104-114 | Only a RUNNING job is completed, and only its row changes |
| JobQueue.Queue.Fail | internal/jobqueue/sqlite.go:116-136 | Only a RUNNING job fails; it is DEAD once its attempts are used up and QUEUED for the retry time otherwise |
| JobQueue.Queue.RecoverStale | internal/jobqueue/sqlite.go:138-162 | Exactly the RUNNING jobs locked before the bound are QUEUED again and unlocked, keeping attempts, due time and last error; every other row is equal, and no stale job is left |
| JobQueue.Queue.RecoverInterrupted | internal/jobqueue/startup_recovery.go:12-35 | Exactly the RUNNING jobs, whatever their attempts, are QUEUED again and unlocked, keeping attempts, due time and last error; every other row is equal, and no job is left RUNNING |
| WorkflowLog.RunLength | internal/workflowjob/transition.go:47-131 | A log, plus the most steps that could still follow without a step back, is at most 11 + 9 (RETRY + RESTART) + 8 (CONTINUE_EXECUTION + QUEUE_REVISION) |
| WorkflowLog.EachStepIsPaidFor | internal/workflowjob/transition.go:47-131 | Every legal step lowers the steps left by one, or is a step back that buys eight or nine more |
| WorkflowLog.RevisionsArePaidFor | internal/workflowjob/repository.go:381-399 | With at most `limit` QUEUE_REVISIONs since each RESTART, a log holds at most limit (RESTARTs + 1) of them |
| WorkflowRepository.Repository.Create | internal/workflowjob/repository.go:126-249 | Refuses with the first failing check and changes nothing, or adds a READY row at version 1 with its CREATE entry and the caller's limits or their defaults |
| WorkflowRepository.CreatesIff | internal/workflowjob/repository.go:126-249 | On the input's own fields: created exactly if the names are not blank, the limits in bounds, the plan READY or APPROVED, the head known and no other unfinished workflow has the plan version and repository; which refusal otherwise |
| WorkflowRepository.DefaultLimits | internal/workflowjob/repository.go:561-584 | Limits without a zero are taken as they are; each zero stands for its default |
| WorkflowRepository.Repository.Check | internal/workflowjob/repository.go:297-336 | The guards of a transition in their order, and the next status when they pass |
| WorkflowRepository.LegalIff | internal/workflowjob/repository.go:280-358 | On the row's and the input's own fields: a transition is legal exactly if it names the current version, the table allows it, CONTINUE_EXECUTION follows a pause and fits in 64 and 128 turns, QUEUE_REVISION is below its limit and FAIL has a message; VersionConflict, InvalidTransition and RevisionLimit exactly when |
| WorkflowRepository.Repository.DeriveFailure | internal/workflowjob/repository.go:360-379 | FAIL stores where and why; RETRY, RESTART and CONTINUE_EXECUTION clear it; other actions keep it |
| WorkflowRepository.Repository.DeriveCounters | internal/workflowjob/repository.go:381-399 | Cancellation flag, revision count, execution version and turn limit after an action, as the row below states them |
| WorkflowRepository.Repository.Transition | internal/workflowjob/repository.go:280-439 | Compare-and-swap on the version: one atomic update of row, log and queue, or an error and no change at all; column by column, the turns grow by exactly those asked for on CONTINUE_EXECUTION and by nothing else, FAIL sets the failure columns, RETRY, RESTART and CONTINUE_EXECUTION clear them; exactly one log entry; a job of the stage it enters, due now, with the version it wrote, and none otherwise |
| WorkflowRepository.TransitionTells | internal/workflowjob/repository.go:338-428 | The same for every legal transition as a step of the state machines |
| WorkflowRepository.TransitionKeepsCache | internal/workflowjob/repository.go:360-428 | Every derived column of the row stays equal to what the log says |
| Orchestrator.RowIsCacheOfLog | internal/workflowjob/repository.go:360-428 | In every reachable state the log's versions are 1, 2, 3, ..., each entry starts where the last ended and the table allows it, and folding the log yields status, dispatch, execution version, revision count, retry status, cancellation flag and completion time of the row |
| Orchestrator.TurnsAreGranted | internal/workflowjob/repository.go:381-399 | In every run a workflow's turn limit is the one it was created with plus the sum of the turns its CONTINUE_EXECUTIONs asked for |
| Orchestrator.FailureIsUnanswered | internal/workflowjob/repository.go:360-379 | In every run the failure columns are the trimmed ones of the last FAIL that no RETRY, RESTART or CONTINUE_EXECUTION answered, and blank without one |
| Orchestrator.DispatchAgreement | internal/workflowjob/repository.go:328-358 | In every reachable state a current dispatch exists exactly in the six active stages, is an existing queue job of that stage's type for that workflow, and carries the row's version, or one less just after EXECUTION_STARTED |
| Orchestrator.NoJobFromTheFuture | internal/workflowjob/repository.go:328-358 | No queue job, finished or not, carries a version its workflow has not reached |
| Orchestrator.ActiveWorkflowIsUnique | internal/workflowjob/repository.go:126-249 | Over every run at most one unfinished workflow exists per plan version and repository |
| Orchestrator.RunLengthBounds | internal/workflowjob/repository.go:303-399 | In every reachable state the version is bounded by the step-back counts, the revision count by its limit, QUEUE_REVISIONs by the limit times RESTARTs + 1, CONTINUE_EXECUTIONs by 128 minus the initial turns |
| Orchestrator.RunsWithoutRestartEnd | internal/workflowjob/transition.go:47-131 | Without RETRY and RESTART a workflow takes a number of steps fixed when it is created |
| Orchestrator.DispatchAcceptedIff | internal/workflowjob/repository.go:328-358 | A handler accepts its workflow's current dispatch if and only if that was not written by a RETRY back to EXECUTING, CHECKING, REVIEWING or PUBLISHING |
| Orchestrator.AcceptsIff | internal/workflowjob/transition.go:47-148 | A handler accepts exactly the payloads bound for its own stage by a step of the table that leads there, RETRY only back to the start, and any payload bound for QUEUED |
| Witnesses.RejectedDispatchExists | internal/workflowjob/repository.go:328-358 | A reachable state in which a RETRY back to CHECKING has left the workflow with a current dispatch that its handler rejects |
| ExecutionRecovery.EndedMessageBlankIff | internal/execution/recovery.go:132-139 | SQL's TRIM and Go's TrimSpace differ: the recovery message is blank exactly for errors of white space that are not all spaces |
| ExecutionRecovery.ReconcileFailedWorkflows | internal/execution/recovery.go:28-110 | Fails exactly the EXECUTING workflows whose current execution is FAILED, each with that execution's own trimmed code and message, or the default of whichever is blank, and counts them |
| ExecutionRecovery.ReconcileDeadExecutionDispatches | internal/execution/recovery.go:123-264 | Fails exactly the QUEUED and EXECUTING workflows whose current execute job is DEAD or COMPLETED; reports an error if and only if one of them has an error text it cannot use, and has then failed only some of them |
| ExecutionRecovery.Startup | cmd/api/main.go:273-336 | From every reachable state: if recovery succeeds, every interrupted job is requeued and exactly the workflows with a failed execution or an ended dispatch are failed, in place, failure code and message stated on the execution's and the queue row's own columns, with nothing else changed; each workflow still QUEUED or EXECUTING has a QUEUED workflow.execute job; the result is reachable again; it stops with an error exactly when some workflow's ended dispatch hides its message and no failed execution explains it |
| ExecutionRecovery.RecoveredContinuesIff | internal/workflowjob/repository.go:303-326 | After recovery a failed execution can be continued exactly if its own code was one of the executor's pause codes |
| ExecutionHandler.GateOpensIff | internal/execution/handler.go:108-132 | In every reachable state the handler takes up a decodable dispatch exactly when it is its workflow's current one; the version and cancellation checks never decide, and a QUEUED workflow has the payload's version, so ensureExecuting's version comparison never keeps one QUEUED |
| ExecutionHandler.EnsureExecuting | internal/execution/handler.go:422-449 | A QUEUED workflow at the payload's version becomes EXECUTING with the same dispatch; one that is EXECUTING, or at another version, is left as it is |
| ExecutionHandler.MarkWorkflowFailed | internal/execution/handler.go:504-552 | Fails the workflow in place exactly when it is open, still holds this dispatch and the message is not blank; only a blank message is an error |
| ExecutionHandler.PauseWorkflow | internal/execution/handler.go:712-746 | An EXECUTING workflow is failed with the pause code; a blank message is the only error |
| ExecutionHandler.PauseCodesAre | internal/workflowjob/transition.go:163-172 | The guard of CONTINUE_EXECUTION knows exactly the five codes with which the turn loop pauses |
| ExecutionHandler.PausedContinuesIff | internal/workflowjob/repository.go:303-326 | A workflow failed in EXECUTING can be continued, within its turns, exactly if its code is that of one of the five ways the turn loop pauses |
| ExecutionHandler.FinishWorkflow | internal/execution/handler.go:451-479 | An EXECUTING workflow moves on to CHECKING; any other is left unchanged |
| ExecutionHandler.Settle | internal/execution/handler.go:133-148 | A last attempt's error, or a stall on any attempt, becomes the workflow's failure with its own code and the call returns no error, unless the message is blank; what a last attempt still returns is never blank |
| ExecutionHandler.Handle | internal/execution/handler.go:108-408 | What becomes of the workflow for every outcome of the work, on a last attempt and on others: it moves on to CHECKING, fails where it stood with the code and message the outcome names, or stays EXECUTING with this dispatch and a given error text; on a last attempt it stays only for a blank error or a cancellation, and the text is not blank |
| ExecutionHandler.DeliveryTells | internal/execution/handler.go:108-552 | The same outcome by outcome in the row's own columns: a failure with a message keeps that message and its own code, one without becomes an error of the call with the text the handler gives it |
| ExecutionHandler.Process | internal/scheduler/scheduler.go:173-244 | Handler and queue together, from any reachable state: the reply, the workflow's row and the queue row for every outcome; after a call that is not cut short, recovery would find an ended dispatch if and only if this was the last attempt and the payload did not decode or the error was blank or a cancellation, and it can always use that dispatch's error; a stale dispatch is completed and changes no workflow |
| ExecutionHandler.HandledRunHidesNothing | internal/execution/recovery.go:123-139 | Over every run whose execute jobs end only as the handler ends them, no open workflow waits for an ended dispatch whose error hides its message |
| ExecutionHandler.NothingBlocksStartup | internal/execution/recovery.go:123-264 | In every state such a run leads to, no workflow meets the condition under which startup recovery stops |
| ExecutionHandler.StartAgain | cmd/api/main.go:273-336 | So after such a run, cut off anywhere, startup recovery succeeds and every workflow still QUEUED or EXECUTING has a QUEUED dispatch |
| Scheduler.RetryDelay | internal/scheduler/scheduler.go:252-268 | The 64-bit doubling loop computes the closed form below without overflow |
| Scheduler.BackoffGrows | internal/scheduler/scheduler.go:252-268 | Delays are monotone in the attempt and stay between base and cap |
| Scheduler.BackoffIsCappedDoubling | internal/scheduler/scheduler.go:252-268 | The delay is min(base 2^(attempt-1), cap) for an even cap; otherwise it differs by one exactly when the doubling hits cap - 1 |
| Scheduler.QueueIsConserved | internal/jobqueue/sqlite.go:71-162 | Over every run with crashes and restarts: at most one job RUNNING, a lock exactly on it, attempts = failures + recoveries + (1 if RUNNING or COMPLETED), failures below MaxAttempts unless DEAD and never above it, and DEAD only once the attempts have reached it |
| Scheduler.AttemptsPassMaximumIff | internal/jobqueue/startup_recovery.go:12-35 | In every run and for every job the attempts exceed MaxAttempts if and only if more recoveries requeued it than MaxAttempts, less its failures and its open attempt, leaves; without a recovery they never do |
| Scheduler.ClaimPassesMaximumIff | internal/jobqueue/sqlite.go:71-102 | In every run a claim takes a job past MaxAttempts exactly when the QUEUED row it takes has its attempts used up |
| Scheduler.SpentByRecoveryIff | internal/jobqueue/startup_recovery.go:12-35 | Over every run such a row arises only where a start requeues a job interrupted in its last or a later attempt, and lasts until it is claimed; no failure leaves one |
| Scheduler.FinishedIsAbsorbing | internal/jobqueue/sqlite.go:71-162 | DEAD and COMPLETED rows are never written again |
| Scheduler.AttemptsMayPassMaximum | internal/jobqueue/startup_recovery.go:12-35 | For every n there is a run after which a job with one allowed attempt has been claimed n times and is QUEUED |
| Scheduler.Runner.Claim | internal/scheduler/scheduler.go:166-171 | Claims a first due job of the handled types, and nothing only when none is due |
| Scheduler.Runner.Process | internal/scheduler/scheduler.go:173-244 | Completes, fails or leaves RUNNING on interruption; a job that failed its k-th attempt and has more is due again min(base 2^(k-1), cap) after the failure, the first time exactly the base |
| Scheduler.FailureWaits | internal/scheduler/scheduler.go:201-268 | In every run a failed attempt that is not the last makes the job due after the delay of its attempt number, which without a recovery is the number of its failures; the first waits exactly the base |
| Scheduler.Runner.TakeTurn | internal/scheduler/scheduler.go:131-163 | One turn: with nothing due nothing happens; otherwise exactly a claim and the report of its outcome |
| Scheduler.Runner.Run | internal/scheduler/scheduler.go:109-164 | The loop over any handler outcomes takes the turns in order, all of them unless one is interrupted; each claims a first due job and reports its outcome, or claims nothing because nothing was due; these and the first recovery are all its steps, and they keep the queue invariant |
| QueueFairness.AheadShrinks | internal/jobqueue/transaction.go:52-69 | No step puts a job ahead of an overdue one, and each claim that passes it over removes one from ahead |
| QueueFairness.BoundedBypass | internal/jobqueue/transaction.go:52-69 | In a run without recovery an overdue handled job is passed over at most as often as there were waiting jobs not behind it |
| QueueFairness.ClaimedInTime | internal/scheduler/scheduler.go:109-164 | More claims than jobs ahead means the job itself was claimed |
| QueueFairness.NeverIdleWhileDue | internal/jobqueue/transaction.go:52-69 | While a handled job is due, an idle scheduler's claim takes some job |
| WorkspaceLease.Repository.Take | internal/workspace/repository.go:190-222 | Acquire, AcquireWrite, AcquireRestart and Archive: one guarded update, with a missing row told from a held lease |
| WorkspaceLease.Repository.Use | internal/workspace/repository.go:224-296 | Renew, Release, MarkReady, MarkFailed and ReleaseWrite: one guarded update, or ErrLeaseLost and no change |
| WorkspaceLease.Repository.RecoverDaemonLeases | internal/workspace/startup_recovery.go:11-37 | Clears exactly the leases of local daemons and unlocks their workspaces |
| WorkspaceLease.ColumnsMatchHolder | internal/workspace/repository.go:190-296 | After every run of calls the three lease columns are exactly the lease the history of successful calls leaves in force, so they are set together or not at all |
| WorkspaceLease.CallsSucceedIff | internal/workspace/repository.go:190-296 | After every run, which calls succeed, said of the lease the history leaves in force, the status and the clock alone |
| WorkspaceLease.CallWrites | internal/workspace/repository.go:190-296 | Status, head, dirty flag and error a successful call writes |
| WorkspaceLease.OnlyTheValidTokenWorks | internal/workspace/write_lease.go:52-79 | Renew, MarkReady and ReleaseWrite succeed if and only if their token is the last granted, unreleased, unrevoked and unexpired one (and, for ReleaseWrite, the workspace is WRITE_LOCKED) |
| WorkspaceLease.ValidLeaseExcludes | internal/workspace/restart_lease.go:14-59 | While a token is valid no restart and no archive succeeds, and no acquire but the holder's own |
| WorkspaceLease.HolderWasGranted | internal/workspace/repository.go:190-257 | The lease in force was granted by the last acquire that succeeded |
| WorkspaceLease.InvalidStaysInvalid | internal/workspace/repository.go:224-244 | Over all later runs with fresh tokens and a clock that never runs back, a token that is not valid never becomes valid again |
| WorkspaceLease.OlderTokenIsFenced | internal/workspace/repository.go:224-296 | Once a later lease has been granted, no call with the older token succeeds |
| WorkspaceLease.StrandedUntil | internal/workspace/repository.go:246-257 | A WRITE_LOCKED workspace without a lease, which Release leaves behind, refuses every call but Archive and markMissing |
| WorkspaceLease.StrandsIff | internal/workspace/repository.go:246-257 | One call strands a workspace if and only if it is a Release that succeeds while the workspace is WRITE_LOCKED |
| WorkspaceLease.StrandedIff | internal/workspace/repository.go:246-257 | After any run a workspace is stranded if and only if such a Release happened and no Archive or markMissing came after it |
| WorkspaceLease.StrandedWorkspaceExists | internal/workspace/repository.go:246-257 | Successful calls on a fresh workspace that end with AcquireWrite and Release strand it |
| WorkspaceLease.StrandedStays | internal/workspace/repository.go:246-257 | It stays so through any run of other calls |
| WorkspaceLease.TakeableUnlessStranded | internal/workspace/restart_lease.go:30-44 | With no valid lease, a restart succeeds if and only if the workspace is neither ARCHIVED nor stranded |
| ApprovalService.RoundBefore | internal/workflowjob/transition.go:47-131 | Each visit to WAITING_FOR_APPROVAL has an execution version of its own: earlier rows with it are still in the round, with the same revision count |
| ApprovalService.FinishedMeansEntries | internal/approval/service.go:231-314 | What apply takes for already done (an advanced or rejected status, a higher revision count) was done by this very decision |
| ApprovalService.CallStepKeeps | internal/approval/service.go:85-306 | Every write of every Decide call, and every other step of the daemon, keeps the decisions bound to the log; logs only grow, snapshots never change, APPLIED stays APPLIED |
| ApprovalService.ExactlyOnce | internal/approval/service.go:155-306 | Over all interleavings and crashes: whatever but CANCEL leaves WAITING_FOR_APPROVAL is the recorded decision of that execution version, of that kind, made at the version before; an APPLIED decision has its entry right behind, an APPLIED revision also QUEUE_REVISION right behind that |
| ApprovalService.OneDecisionPerVisit | internal/approval/repository.go:97-172 | Two decisions of a workflow are never made at the same version |
| ApprovalService.DecisionIsImmutable | internal/approval/repository.go:97-239 | A recorded decision keeps its kind, snapshot and APPLIED mark for the rest of every run |
| ApprovalService.Service.CreateOrGet | internal/approval/repository.go:97-172 | The recorded decision of the key if it is the same one, a new PENDING one if there is none, an error and no change otherwise |
| ApprovalService.Service.ApplyRevision | internal/approval/service.go:272-306 | REQUEST_REVISION and QUEUE_REVISION, each only if the re-read row calls for it, as steps of one thread |
| ApprovalService.Service.Apply | internal/approval/service.go:231-270 | Carries a decision out or recognises it as carried out, as steps of one thread |
| ApprovalService.Service.MarkApplied | internal/approval/repository.go:211-232 | Sets the mark and the version, and nothing else |
| ApprovalService.Service.Decide | internal/approval/service.go:85-221 | An uninterrupted call is a run of one thread, so the invariants hold of it; every refusal and an approval's conditions are stated on the request's and the evidence's own fields; past its guards it succeeds if and only if it finds a decision or the workflow waiting at the expected version, the snapshot can be stored or is the recorded one, and that is applied already or the row lets it be carried out or shows it was; success means an APPLIED decision of the requested kind, the recorded one unchanged if it was applied; a first decision takes the workflow where its kind says; a failing guard changes nothing |
| ApprovalService.GuardsAre | internal/approval/service.go:95-160 | On the request's and the evidence's own fields: the guards pass exactly if execution, review and check run are complete, request and review name the last checkpoint and, to approve, the checks passed or failed ones are overruled with a reason and a review that asked for a revision is overruled likewise; which refusal otherwise |
| ApprovalService.DecisionWasLicensed | internal/approval/service.go:95-190 | Over all interleavings and crashes every recorded decision copies a request of the run and the evidence it found, complete and about its last checkpoint; so every recorded approval has passed checks, or failed ones overruled with a reason, and overrules any review that asked for a revision |
| ApprovalService.SameDecisionIff | internal/approval/repository.go:310-328 | Decisions with known check statuses are the same exactly if every field agrees; an unknown status agrees with any |
| ApprovalService.NoteLimitsDisagree | internal/approval/repository.go:286-308 | Past the guards, a decision can be stored exactly when its note is at most 4000 long and its rows are named; any request that passes them still passes, and can no longer be stored, with a note of 4001 to 8000 |
| Publication.PublicationBinding | internal/publication/handler.go:94-237 | Over any attempts and crashes, and any foreign commits but those between the two git commands that read the head and compare its diff: a publication record names a commit whose diff from the base has the checksum that an APPLIED APPROVE decision of the same execution version approved |
| Publication.ForeignCommitInWindow | internal/publication/handler.go:175-220 | What a foreign commit inside that window does: after a recognition the record stays right exactly if its checksum is the approved one; after the head was read the attempt passes exactly if its checksum is the approved one, and the record is right exactly if the head before it had that checksum too |
| Publication.RecordIsRightIff | internal/publication/handler.go:175-220 | In every run, with any number of foreign commits anywhere, a record names a commit with the approved diff if and only if the head had that diff when it was last read to be published |
| Witnesses.MisboundRecordExists | internal/publication/handler.go:200-220 | A run from the empty database in which a foreign commit inside the window makes the record name a commit whose diff nobody approved |
| Publication.RecordIsApproved | internal/publication/handler.go:94-237 | In every run, whoever commits, a publication record is tied to an APPLIED APPROVE decision of its own execution version and carries the checksum that decision approved |
| Publication.RecordWasChecked | internal/publication/handler.go:116-132 | In every run a record comes from an attempt that began with passed checks, or with failed ones that its decision overrules with a reason |
| Publication.ApprovedMayPublish | internal/publication/handler.go:116-132 | Approval and publication agree: in every run an applied approval whose check run still stands as the decision saw it is never refused for its checks, whatever they said |
| Publication.RecognitionIs | internal/publication/handler.go:259-274 | On a worktree nobody touches the four tests together recognize exactly the commit with the publisher's subject, the base as parent and the approved diff |
| Publication.HoldsIff | internal/publication/handler.go:168-220 | A worktree holds the approved patch exactly if, on the base, its changes are the approved ones and are committed as they were, or its head passes the four tests |
| Publication.CompletedIsPublished | internal/publication/handler.go:276-299 | A COMPLETED workflow has a record of its own execution version |
| Publication.AtMostOneCommit | internal/publication/handler.go:94-237 | If nobody else commits, the worktree's head is the base or one commit of the publisher directly on it |
| Publication.StepKeeps | internal/publication/handler.go:94-299 | Every step of an attempt, each git command on its own, of the approval protocol and of the daemon keeps records, attempt and workflow consistent |
| Publication.CommitVerifiesOrWedges | internal/publication/handler.go:200-220 | The head read behind the attempt's commit is that commit, and its diff passes next if and only if its checksum is the approved one; otherwise the workflow is wedged |
| Publication.WedgedForever | internal/publication/handler.go:175-198 | A wedged workflow is never published or completed, however often the stage is attempted, until its worktree is recreated |
| Witnesses.WedgedPublicationExists | internal/publication/handler.go:200-220 | A run from the empty database that wedges a workflow: an edit lands between the capture and the commit |
| Publication.Handler.Handle | internal/publication/handler.go:94-237 | An uninterrupted attempt is a run of the steps; it publishes and completes the workflow if and only if the payload decodes and is not ahead, the workflow is PUBLISHING, not cancelled and executed, and either a record exists or an applied approval, with checks passed or failed ones overruled with a reason, covers what the worktree holds and the workspace is READY and leased to the end; all of it stated on the decision's, check run's and worktree's own fields, as is each refusal; if only the lease is lost at the end the record stays and the workflow does not move; otherwise records and tables are unchanged |
| Publication.Handler.Publish | internal/publication/handler.go:168-237 | Records the head exactly when the worktree holds the approved patch, uncommitted on the base or as the publisher's own commit, and completes the workflow exactly if it then still holds the lease |
| Publication.Handler.CommitAndVerify | internal/publication/handler.go:200-220 | One commit on the captured head, accepted exactly when its checksum is the approved one |
| Publication.Handler.FinishWorkflow | internal/publication/handler.go:276-299 | A PUBLISHING workflow with a record is completed; any other is left alone |
| LlmGateway.Estimate | internal/llm/policy.go:59-69 | One token per four characters of schema, messages and framing, rounded up |
| LlmGateway.EstimateIs | internal/llm/policy.go:59-69 | Four times the estimate covers the characters, and one token less does not |
| LlmGateway.BudgetIsApplied | internal/llm/gateway.go:275-294 | A request is refused exactly when its estimate breaks a bound; otherwise its output fits every bound, never exceeds what was asked, and the first attempt is affordable |
| LlmGateway.OutputIsLeast | internal/llm/gateway.go:275-294 | The allowed output is one of what was asked, the output bound and what the estimate leaves of the total, and only the output bound of the request changes |
| LlmGateway.Serve | internal/llm/gateway.go:133-234 | For any provider: every attempt is what its provider answered, was affordable, went to the right target and followed a retryable error; at most MaxAttempts of them; the result is the last response with the usage and estimates of all attempts, or the error that ends the request after them |
| LlmGateway.AttemptsTell | internal/llm/gateway.go:133-234 | Every attempt but the first followed a retryable rate limit, timeout or outage; it goes to the target that the timeouts and outages before it leave, and the bound covers it with all tokens reported and all silent failures' estimates before it |
| LlmGateway.FailuresTell | internal/llm/gateway.go:160-234 | Which error a served request ends with, on the last attempt's own failure: not retryable or the last one allowed, a failed wait, an interruption, or an answer over a bound; it succeeds exactly if the last attempt did within every bound |
| LlmGateway.NextAttemptTells | internal/llm/gateway.go:144-178 | Where another attempt was due and not made, the budget does not cover it on top of all tokens reported and all silent failures' estimates, or else its provider is unknown; with the error of each |
| LlmGateway.SuccessTells | internal/llm/gateway.go:184-210 | A success returns the last response's text and names, the usage of all attempts and the target, attempts, fallback and estimates behind it |
| LlmGateway.UsageCountsUp | internal/llm/types.go:141-156 | Reported counts below zero are taken as zero, others as they are, and the total is their sum |
| LlmGateway.Complete | internal/llm/gateway.go:81-254 | The same from the caller's request: the first refusal makes no call at all, otherwise it is served under the budget |
| LlmGateway.RefusalsAre | internal/llm/gateway.go:81-116 | Which request is refused before any call, in order: an unknown provider, a malformed request or a fallback on its own provider, too large an estimate; no other request is refused |
| LlmGateway.ValidateRequest | internal/llm/validate.go:9-36 | A request is accepted exactly if it has a model, messages with known roles and text, no negative output bound, and a schema that is JSON |
| LlmGateway.ServiceIsDetermined | internal/llm/gateway.go:133-234 | The providers' answers decide everything: any two results that meet the contract have the same attempts, response and error |
| LlmGateway.BudgetHolds | internal/llm/gateway.go:296-312 | With a total budget and providers that keep to the estimate and the allowed output, reported plus estimated tokens never pass the budget, through every retry and fallback |
| SafetyGateway.ValidateResponse | internal/llm/safety.go:191-201 | The issues of a response under a schema; none exactly means small enough, decodable and conforming |
| SafetyGateway.IssuesAre | internal/llm/safety.go:191-201 | Too large, or not decodable, or under a broken schema: that one issue alone; otherwise the first twenty the schema finds |
| SafetyGateway.BuildRepairRequest | internal/llm/safety.go:224-242 | The redacted original plus one message listing the issues |
| SafetyGateway.LinesAre | internal/llm/safety.go:224-242 | One line with path, code and message for each issue |
| SafetyGateway.RepairBudgetIs | internal/llm/safety.go:203-222 | A repair's budget is a first request's with what was used taken off the total; used up, it is refused |
| SafetyGateway.Complete | internal/llm/safety.go:90-189 | Every answer is what the gateway made of its request; success means the last answer has no issues under the original schema, after at most MaxRepairAttempts + 1 answers whose usage adds up to the reported one; failure is the gateway's own answer to the request that was due, or unrepaired issues with their code, or an unaffordable repair |
| SafetyGateway.ExchangeIsDetermined | internal/llm/safety.go:90-189 | The providers' answers decide the repairs, the result and the error |
| SafetyGateway.RepairIsValid | internal/llm/safety.go:224-242 | A repair of a valid request is itself valid, so the gateway never refuses one for its form |
| SafetyGateway.RepairRequestShape | internal/llm/safety.go:203-242 | Every repair request is the redacted original plus exactly one user message under the same schema, so its estimate grows by that message alone and not from one repair to the next; with a total budget, usage so far + estimate + output stays within it |
| SafetyGateway.ProviderCallsAreBounded | internal/llm/safety.go:119-189 | At most (repairs + 1) x MaxAttempts provider calls in all |
| SafetyGateway.UsageCountsAllCalls | internal/llm/safety.go:256-265 | The usage a caller is told is that of all provider calls of all repairs together |
| SchemaValidation.NoIssuesIffConforms | internal/llm/validation.go:97-185 | The uncapped walk finds nothing if and only if the value conforms, for values of any depth |
| SchemaValidation.TypesAre | internal/llm/validation.go:187-216 | A type name the validator knows admits exactly the values that go by it, integers being 64-bit literals; any other admits everything |
| SchemaValidation.IntegersAre | internal/llm/validation.go:187-230 | A literal is a 64-bit integer exactly if it is decimal digits, perhaps signed, of a value within the range |
| SchemaValidation.KeywordsAre | internal/llm/validation.go:97-172 | Which keywords are read, and which values they need to have an effect |
| SchemaValidation.BoundIs | internal/llm/validation.go:218-230 | A bound is a non-negative 64-bit literal |
| SchemaValidation.ValuesSay | internal/llm/validation.go:97-185 | A value's own issues: the wrong type alone, or each bound its text or items break, with path, code and message |
| SchemaValidation.ContainersSay | internal/llm/validation.go:97-172 | An object's issues are its missing names, its additional members where forbidden and its members' issues under `properties`, in this order; an array's are its size's and its items' under `items`; values of other types have none but their type's |
| SchemaValidation.PathsSay | internal/llm/validation.go:117-172 | Under which path members and items report, and what a required or an additional name says |
| SchemaValidation.IssueList.Append | internal/llm/validation.go:239-244 | Appends below twenty issues, does nothing from there on |
| SchemaValidation.ValidateNode | internal/llm/validation.go:97-115 | The pointer-accumulating validator leaves the first twenty of what was there plus the uncapped walk's issues |
| SchemaValidation.ValidateObject | internal/llm/validation.go:117-152 | The same for objects: required names, additional members, then members in order |
| SchemaValidation.ValidateArray | internal/llm/validation.go:154-172 | The same for arrays, whose early return loses nothing |
| SchemaValidation.ValidateString | internal/llm/validation.go:174-185 | The same for strings: the lower bound on the trimmed text, the upper on the whole |
| SchemaValidation.Validate | internal/llm/validation.go:23-58 | The first twenty issues, and none exactly for conforming values |
| ExecutorLoop.SuffixLengthIsMaximal | internal/execution/llm_runner.go:201-207 | The repeat counter's definition: the longest run of equal fingerprints at the end |
| ExecutorLoop.PausesAre | internal/execution/llm_runner.go:201-304 | When a run pauses, on its events: at the third equal fingerprint in a row, else at a tool's limit, so many failed tool calls in a row, or so many writes in a row that leave the checksum as it was |
| ExecutorLoop.SamplesAre | internal/execution/llm_runner.go:252-290 | The checksums compared are the first one and one after each write, in order |
| ExecutorLoop.BudgetDefaults | internal/execution/llm_runner.go:369-380 | A bound below its least value counts as its default, others as they are |
| ExecutorLoop.Run | internal/execution/llm_runner.go:122-367 | Pauses exactly when a monitor's whole-history definition first meets its bound, or when the final call asks for more work; completes exactly when an event finished or the final call did; fails exactly where a turn gave no reply or broke off, or the final call did; fewer than MaxTurns tool prompts and at most one final one, each the compacted history of the turns before it |
| ExecutorLoop.RunIsDetermined | internal/execution/llm_runner.go:122-367 | The turns decide the run: any two results that meet the loop's contract have the same events, the same number of prompts and the same end |
| ExecutorLoop.EndTells | internal/execution/llm_runner.go:122-367 | Why a run stopped: how the final call answered, a prompt without a reply, the bound just met, or a last event that finished or broke off |
| ExecutorLoop.EventTells | internal/execution/llm_runner.go:221-304 | Which event a turn is, outcome by outcome, and what its answer is |
| ExecutorLoop.HistoryTells | internal/execution/llm_runner.go:221-304 | A tool call, failed or not, adds its reply, its answer and a ledger line; nothing else does |
| ExecutorLoop.TakeTurn | internal/execution/llm_runner.go:221-304 | From a reply to its outcome: repeated, finished, failed, read, written or broken off |
| ExecutorLoop.PromptShape | internal/execution/llm_runner.go:382-393 | Every prompt is the base, at most one ledger message and whole assistant/user pairs, at most the latest eight messages |
| ExecutorLoop.LedgerSays | internal/execution/llm_runner.go:382-393 | The ledger message holds the latest 24 lines, cut to 8192 characters |
| ExecutorLoop.AnswerSays | internal/execution/llm_runner.go:221-304 | A tool's answer goes back between markers, cut to 16384 characters, an error to 2048 |
| ExecutorLoop.LineSays | internal/execution/llm_runner.go:221-304 | A ledger line numbers the turn and says how its tool call came out |
| ExecutorLoop.BoundedIs | internal/execution/llm_runner.go:221-304 | A cut text is its longest prefix within the limit |
| CheckRuns.DecidedForever | internal/checks/repository.go:213-256 | Over any statements, interruptions and re-entries a PASSED or FAILED step is never rerun and never changes |
| CheckRuns.FinishedAddsUp | internal/checks/repository.go:317-346 | A finished run has passed + failed = total = number of profiles, one decided step per profile, and is PASSED exactly when every step is |
| CheckRuns.FinishIff | internal/checks/repository.go:317-346 | Finish succeeds exactly when the run is RUNNING and every profile's step is decided |
| CheckRuns.StartKeeps | internal/checks/repository.go:167-211 | Start with the same distinct profiles lays the steps out once and changes none of them later |
| CheckRuns.Handler.Reenter | internal/checks/handler.go:201-215 | Re-entry keeps decided steps and makes all others PENDING; refused once the run was cancelled |
| CheckRuns.Handler.RunOpen | internal/checks/handler.go:222-302 | The loop over the profiles runs the open ones in order up to the first that is stopped or whose command does not end with a result; those before it all report their results and decided steps are untouched |
| CheckRuns.Handler.Handle | internal/checks/handler.go:201-305 | Runs only open profiles, each once and in order, and whatever ran to its end has its result on its step; it concludes only after all of them; an interrupted call has run every open profile before the one that broke it off, and is CANCELLED exactly if the user cancelled that one |
| Truncation.TruncateBytes | internal/reviewer/context.go:241-254 | When it cuts, the longest well-formed prefix of the first `limit` bytes |
| Truncation.EncodedIsCharacter | internal/reviewer/context.go:241-254 | The characters counted are those of the table in section 3 of RFC 3629: the encoding of a Unicode scalar value is one character |
| Truncation.CharacterIsEncoded | internal/reviewer/context.go:241-254 | and each character is the encoding of a scalar value |
| Truncation.EncodingIsWellFormed | internal/reviewer/context.go:241-254 | The encoding of any text is well-formed |
| Truncation.WellFormedIsEncoding | internal/reviewer/context.go:241-254 | Only encodings of texts are well-formed |
| Truncation.TruncationIsTight | internal/reviewer/context.go:241-254 | Cutting well-formed UTF-8 (section 4 of RFC 3629) leaves it well-formed and costs at most three bytes below the limit |
| Truncation.TruncationMayCostThree | internal/reviewer/context.go:241-254 | Three bytes are reached |
| Truncation.BuildCheckEvidence | internal/reviewer/context.go:208-229 | Each output is cut to 4096 bytes and to what the ones before it left; together they stay within the total, or are empty for a negative one; cuts are marked |
| Truncation.NothingIsCutThatFits | internal/reviewer/context.go:208-229 | Outputs that fit their own limit and the total are kept whole |
| Text.TrimSpaceEmpty | internal/execution/recovery.go:80-87 | Go's TrimSpace empties exactly the strings of Unicode white space |
| Text.SpacesAre | internal/execution/recovery.go:80-87 | Go's white space is Unicode's 25 White_Space characters |
| Text.SqlTrimEmpty | internal/execution/recovery.go:35-36 | SQL's TRIM empties exactly the strings of spaces |
| Text.SqlTrimKeeps | internal/execution/recovery.go:35-36 | What SQL's TRIM keeps is what lies between the first and the last character that is no space |

## Left out

- Git, Docker, the filesystem, HTTP routes, the terminal interface, keychain and SQL text: git is a head, commits and diff checksums; model providers, tools, JSON decoding and redaction are parameters; identifiers are fresh.
- Timers, heartbeats, the stall watchdog and the cancellation watcher: only their outcomes (cut short, cancelled, stalled, lease lost) appear.
- Activity events, metrics, artifacts, pagination, settings, plans and the provider registry: no state the core depends on.
- WorkflowRepository.Repository.Create: leaves out branch-name validation and agent selections, and takes the project, plan and repository lookups as one parameter.
- ExecutionRecovery.ReconcileDeadExecutionDispatches: does not cover EXECUTING rows without a dispatch identifier, because `Orchestrator.DispatchAgreement` shows no run from an empty database has any; both reconciliations run before anything else may write, so their re-checks of the status cannot fire.
- ExecutionHandler.Handle: runs without concurrent API calls, so its version-conflict retries cannot fire; settings, execution rows, workspace lease and checkpoints are inside the `Work` parameter, with errors already classified by code; a wrapped error that was saved earlier is taken as its message.
- ExecutionHandler.NothingBlocksStartup: allows API calls at any point of a run; that the handler's reports meet its condition `EndsAsHandled` is proved by `ExecutionHandler.Process` for calls without an API call inside them.
- Scheduler.Runner.Run: API calls that enqueue during a handler are steps of the state machine (`Arrive`) but not of this method.
- QueueFairness.ClaimedInTime: assumes a job arrives with a run_after no earlier than the clock at which the waiting job was seen to be overdue.
- WorkspaceLease.Repository.Use: cuts failure messages at 2048 characters where the source counts bytes.
- ApprovalService.Service.Decide: covers one uninterrupted call; interleavings and crashes are the thread steps, on which the theorems are stated. The evidence rows are one parameter read at the start.
- Publication.PublicationBinding: HEAD of the worktree may be moved by others only by committing, or by recreating the worktree between attempts, since the scheduler is serial; commits inside the window of two git commands are excluded there and treated by `Publication.ForeignCommitInWindow` and `Publication.RecordIsRightIff`. The workspace lease around an attempt is not a step; the theorem holds without it.
- Publication.Handler.Handle: covers one uninterrupted attempt on a worktree nobody else touches; crashes, retries and other commits are the steps, on which the theorems are stated. The workspace's status and lease are a parameter.
- Publication.CompletedIsPublished: rests on two facts about the callers, that only the publication handler issues PUBLICATION_COMPLETED and that nobody issues FAIL for a PUBLISHING workflow; they are the restriction `IsForeign` on other steps.
- LlmGateway.Complete: wall-clock limits, the temperature bound and the backoff's floating-point jitter are not modelled, JSON parsing is a parameter, and provider names are taken as normalized; cost and provider metadata of usage are left out.
- LlmGateway.BudgetHolds: needs providers that stay within the estimate and the allowed output, since no gateway can bound what an immodest one reports; `LlmGateway.Serve` covers any provider.
- SafetyGateway.Complete: claims no single total-token bound across repairs, because every repair starts a fresh gateway budget; only the repair request itself is bounded. JSON encoding is a parameter, so nothing bounds the canonical text that is returned; the source measures it only before normalization.
- SchemaValidation.Validate: objects keep one fixed member order, where Go's map iteration may pick any; code fences and JSON syntax are not modelled, and numbers are their literals.
- ExecutorLoop.Run: saved iterations, progress events and the tools themselves are parameters; strings are sequences of characters where the source bounds bytes.
- CheckRuns.Handler.Handle: one fixed profile list with distinct names; profile detection, the workspace lease, artifacts and the unchanged-worktree test are inside the `Outcome` and stop parameters; a stop between Start and RecoverInterrupted is a run of statements, but not of this method.
- Deletion of projects and the cascades it causes.
