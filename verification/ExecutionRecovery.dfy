/**
  Startup recovery (internal/jobqueue/startup_recovery.go, internal/execution/recovery.go,
  and their order in cmd/api/main.go): interrupted queue jobs are requeued, then
  workflows whose execution or execution dispatch is finished are failed.
 */
module ExecutionRecovery {
  import opened Wrappers
  import opened WorkflowTransition
  import opened JobQueue
  import opened WorkflowLog
  import opened WorkflowRepository
  import opened Orchestrator
  import Text

  const EXECUTOR_FAILED := "EXECUTOR_FAILED"
  // Split so that the first letter is a fact of its own: none of the texts is blank.
  const EXECUTION_FAILED_MESSAGE := "E" + "xecutor execution failed."
  const COMPLETED_MESSAGE := "E" + "xecutor dispatch completed without closing the workflow."
  const DEAD_MESSAGE := "E" + "xecutor dispatch exhausted all retries."

  type Executions = map<(WorkflowId, nat), Execution>

  /** COALESCE(NULLIF(TRIM(value), ''), fallback) */
  function SqlText(value: Option<string>, fallback: string): string {
    if value.None? || Text.SqlTrim(value.value) == "" then fallback else Text.SqlTrim(value.value)
  }

  function TrimmedOr(value: string, fallback: string): string {
    if Text.TrimSpace(value) == "" then fallback else Text.TrimSpace(value)
  }

  function FailInput(version: nat, code: string, message: string): TransitionInput {
    TransitionInput(version, Fail, code, message, 0, Some(256))
  }

  // ----- executions that failed -----

  /** A failed execution of the version the workflow is executing. */
  predicate ExecutionFailed(db: Db, executions: Executions, id: WorkflowId) {
    && id in db.workflows && db.workflows[id].status.Executing?
    && (id, db.workflows[id].executionVersion) in executions
    && executions[(id, db.workflows[id].executionVersion)].status.ExecFailed?
  }

  /** The failure a recovery query selects for a workflow. */
  datatype Failure = Failure(code: string, message: string)

  function FailureOf(e: Execution): Failure {
    Failure(TrimmedOr(SqlText(e.failureCode, EXECUTOR_FAILED), EXECUTOR_FAILED),
            TrimmedOr(SqlText(e.failureMessage, EXECUTION_FAILED_MESSAGE), EXECUTION_FAILED_MESSAGE))
  }

  function FailedExecutions(db: Db, executions: Executions): map<WorkflowId, Failure> {
    map id | id in db.workflows && ExecutionFailed(db, executions, id) ::
      FailureOf(executions[(id, db.workflows[id].executionVersion)])
  }

  // ----- dispatches that ended -----

  /** The current workflow.execute job exhausted its attempts, or completed without moving the workflow. */
  predicate DispatchEnded(db: Db, id: WorkflowId) {
    && id in db.workflows
    && (db.workflows[id].status.Queued? || db.workflows[id].status.Executing?)
    && db.workflows[id].currentDispatch.Some? && db.workflows[id].currentDispatch.value in db.queue
    && var queued := db.queue[db.workflows[id].currentDispatch.value];
       queued.jobType.Execute? && (queued.status.JobDead? || queued.status.JobCompleted?)
  }

  function EndedMessage(job: QueueJob): string {
    Text.TrimSpace(SqlText(job.lastError, if job.status.JobCompleted? then COMPLETED_MESSAGE else DEAD_MESSAGE))
  }

  function EndedDispatches(db: Db): map<WorkflowId, Failure> {
    map id | id in db.workflows && DispatchEnded(db, id) ::
      Failure(EXECUTOR_FAILED, EndedMessage(db.queue[db.workflows[id].currentDispatch.value]))
  }

  /** White space that SQL's TRIM keeps and Go's TrimSpace then removes to nothing. */
  predicate HidesItsMessage(lastError: Option<string>) {
    lastError.Some? && Text.IsBlank(lastError.value) && exists i :: 0 <= i < |lastError.value| && lastError.value[i] != ' '
  }

  /** An ended dispatch whose error recovery cannot turn into a failure message. */
  predicate Unrecoverable(db: Db, id: WorkflowId) {
    DispatchEnded(db, id) && HidesItsMessage(db.queue[db.workflows[id].currentDispatch.value].lastError)
  }

  lemma NotBlank(s: string)
    requires |s| > 0 && s[0] == 'E'
    ensures !Text.IsBlank(s)
  {
  }

  lemma MessagesNotBlank()
    ensures !Text.IsBlank(EXECUTION_FAILED_MESSAGE) && !Text.IsBlank(COMPLETED_MESSAGE) && !Text.IsBlank(DEAD_MESSAGE)
  {
    NotBlank(EXECUTION_FAILED_MESSAGE);
    NotBlank(COMPLETED_MESSAGE);
    NotBlank(DEAD_MESSAGE);
  }

  /** The message recovery would FAIL a workflow with is blank exactly for such errors. */
  lemma EndedMessageBlankIff(job: QueueJob)
    ensures Text.TrimSpace(EndedMessage(job)) == "" <==> HidesItsMessage(job.lastError)
  {
    MessagesNotBlank();
    var text := SqlText(job.lastError, if job.status.JobCompleted? then COMPLETED_MESSAGE else DEAD_MESSAGE);
    Text.TrimSpaceEmpty(EndedMessage(job));
    Text.TrimSpaceKeepsText(text);
    if job.lastError.Some? {
      Text.SqlTrimEmpty(job.lastError.value);
    }
  }

  lemma FailureMessageNotBlank(e: Execution)
    ensures Text.TrimSpace(FailureOf(e).message) != ""
  {
    MessagesNotBlank();
    var text := SqlText(e.failureMessage, EXECUTION_FAILED_MESSAGE);
    Text.TrimSpaceEmpty(FailureOf(e).message);
    Text.TrimSpaceEmpty(text);
    Text.TrimSpaceKeepsText(text);
  }

  // ----- the two loops -----

  /** Row and log of `id` failed with `input`, at whatever time the clock showed. */
  ghost predicate FailedWith(before: Db, after: Db, id: WorkflowId, input: TransitionInput) {
    && id in before.workflows && id in before.log && id in after.workflows && id in after.log
    && TransitionError(before.workflows[id], input).None?
    && after.workflows[id] == RowWith(before.workflows[id], input, None, after.workflows[id].updatedAt)
    && after.log[id] == before.log[id] + [EntryFor(before.workflows[id], after.workflows[id], input)]
  }

  ghost predicate Untouched(before: Db, after: Db, id: WorkflowId) {
    && id in before.workflows && id in before.log && id in after.workflows && id in after.log
    && after.workflows[id] == before.workflows[id] && after.log[id] == before.log[id]
  }

  /** Versions start at 1 (the version column's check constraint). */
  predicate Versioned(db: Db) {
    db.Logged() && forall id :: id in db.workflows ==> db.workflows[id].version >= 1
  }

  /** FAIL in an active stage can only be refused for its message. */
  lemma FailRefusedIff(job: Job, code: string, message: string)
    requires job.version >= 1 && IsActiveStage(job.status)
    ensures TransitionError(job, FailInput(job.version, code, message)).Some? <==> Text.TrimSpace(message) == ""
  {
  }

  /** Exactly the workflows in `done` have been failed, each for its reason; nothing else has changed. */
  ghost predicate Progress(before: Db, now: Db, done: set<WorkflowId>, failures: map<WorkflowId, Failure>) {
    && now.queue == before.queue && now.workflows.Keys == before.workflows.Keys && Versioned(now)
    && forall id :: id in before.workflows ==>
         if id in done && id in failures
         then FailedWith(before, now, id, FailInput(before.workflows[id].version, failures[id].code, failures[id].message))
         else Untouched(before, now, id)
  }

  /** What a FAIL transition does to the tables. */
  lemma FailRow(db: Db, id: WorkflowId, failure: Failure, freshId: JobId, now: int)
    requires Versioned(db) && id in db.workflows
    requires TransitionError(db.workflows[id], FailInput(db.workflows[id].version, failure.code, failure.message)).None?
    ensures var input := FailInput(db.workflows[id].version, failure.code, failure.message);
            var after := Transitioned(db, id, input, freshId, now, now);
            var row := RowWith(db.workflows[id], input, None, now);
            && after.queue == db.queue && row.version >= 1 && row.updatedAt == now
            && after.workflows == db.workflows[id := row]
            && after.log == db.log[id := db.log[id] + [EntryFor(db.workflows[id], row, input)]]
  {
  }

  /** Failing one more pending workflow is one more step of progress. */
  lemma ProgressStep(before: Db, mid: Db, done: set<WorkflowId>, failures: map<WorkflowId, Failure>,
                     id: WorkflowId, freshId: JobId, now: int)
    requires Progress(before, mid, done, failures) && id !in done && id in before.workflows && id in failures
    requires IsActiveStage(before.workflows[id].status) && Text.TrimSpace(failures[id].message) != ""
    ensures mid.Logged() && id in mid.workflows
    ensures var input := FailInput(mid.workflows[id].version, failures[id].code, failures[id].message);
            && TransitionError(mid.workflows[id], input).None?
            && Progress(before, Transitioned(mid, id, input, freshId, now, now), done + {id}, failures)
  {
    hide TransitionError, RowWith, EntryFor, Transitioned;
    assert Untouched(before, mid, id);
    FailRefusedIff(mid.workflows[id], failures[id].code, failures[id].message);
    FailRow(mid, id, failures[id], freshId, now);
  }

  lemma PendingRow(before: Db, mid: Db, done: set<WorkflowId>, failures: map<WorkflowId, Failure>, id: WorkflowId)
    requires Progress(before, mid, done, failures) && id !in done && id in before.workflows
    ensures mid.Logged() && id in mid.workflows && mid.queue == before.queue
    ensures mid.workflows[id] == before.workflows[id] && mid.workflows[id].version >= 1
  {
    assert Untouched(before, mid, id);
  }

  /** Whatever run led to the tables `before` can be continued to `now`. */
  ghost predicate Continues(before: Db, now: Db) {
    forall executions, born :: Reachable(System(before, executions, born)) ==> Reachable(System(now, executions, born))
  }

  lemma TransitionContinues(db: Db, id: WorkflowId, input: TransitionInput, freshId: JobId, now: int)
    requires db.Logged() && id in db.workflows && freshId !in db.queue && TransitionError(db.workflows[id], input).None?
    ensures Continues(db, Transitioned(db, id, input, freshId, now, now))
  {
    hide TransitionError, Transitioned, Reachable;
    forall executions, born | Reachable(System(db, executions, born))
      ensures Reachable(System(Transitioned(db, id, input, freshId, now, now), executions, born))
    {
      ReachableStep(System(db, executions, born), Act(id, input, freshId, now, now));
    }
  }

  lemma ContinuesTransitive(a: Db, b: Db, c: Db)
    requires Continues(a, b) && Continues(b, c)
    ensures Continues(a, c)
  {
    hide Reachable;
  }

  /** The next candidate's transition, against the row as it is now. */
  method FailOne(repo: Repository, id: WorkflowId, failure: Failure, freshId: JobId, now: int,
                 ghost before: Db, ghost done: set<WorkflowId>, ghost failures: map<WorkflowId, Failure>)
    returns (ok: bool)
    requires Progress(before, repo.Snapshot(), done, failures) && freshId !in repo.queue.rows
    requires id !in done && id in before.workflows && IsActiveStage(before.workflows[id].status)
    requires id in failures && failures[id] == failure
    requires Continues(before, repo.Snapshot())
    modifies repo, repo.queue
    ensures repo.queue.rows == old(repo.queue.rows)
    ensures ok <==> Text.TrimSpace(failure.message) != ""
    ensures Progress(before, repo.Snapshot(), if ok then done + {id} else done, failures)
    ensures Continues(before, repo.Snapshot())
  {
    hide Progress, Continues, TransitionError, Transitioned, Text.TrimSpace;
    PendingRow(before, repo.Snapshot(), done, failures, id);
    FailRefusedIff(repo.workflows[id], failure.code, failure.message);
    if Text.TrimSpace(failure.message) != "" {
      ProgressStep(before, repo.Snapshot(), done, failures, id, freshId, now);
    }
    ghost var mid := repo.Snapshot();
    var r := repo.Transition(id, FailInput(repo.workflows[id].version, failure.code, failure.message), freshId, now, now);
    ok := r.Ok?;
    if ok {
      FailKeepsQueue(mid, id, failure, freshId, now);
      TransitionContinues(mid, id, FailInput(mid.workflows[id].version, failure.code, failure.message), freshId, now);
      ContinuesTransitive(before, mid, repo.Snapshot());
    }
  }

  lemma FailKeepsQueue(db: Db, id: WorkflowId, failure: Failure, freshId: JobId, now: int)
    requires db.Logged() && id in db.workflows && db.workflows[id].version >= 1
    requires TransitionError(db.workflows[id], FailInput(db.workflows[id].version, failure.code, failure.message)).None?
    ensures Transitioned(db, id, FailInput(db.workflows[id].version, failure.code, failure.message), freshId, now, now).queue
            == db.queue
  {
  }

  lemma NoProgress(db: Db, failures: map<WorkflowId, Failure>)
    requires Versioned(db)
    ensures Progress(db, db, {}, failures) && Continues(db, db)
  {
  }

  lemma FailedCandidate(db: Db, executions: Executions, id: WorkflowId)
    requires id in FailedExecutions(db, executions)
    ensures id in db.workflows && IsActiveStage(db.workflows[id].status)
    ensures Text.TrimSpace(FailedExecutions(db, executions)[id].message) != ""
  {
    FailureMessageNotBlank(executions[(id, db.workflows[id].executionVersion)]);
  }

  /** Fails the workflows whose current execution has failed. */
  method ReconcileFailedWorkflows(repo: Repository, executions: Executions, freshId: JobId, clock: WorkflowId -> int)
    returns (recovered: nat)
    requires Versioned(repo.Snapshot()) && freshId !in repo.queue.rows
    modifies repo, repo.queue
    ensures var failures := FailedExecutions(old(repo.Snapshot()), executions);
            Progress(old(repo.Snapshot()), repo.Snapshot(), failures.Keys, failures) && recovered == |failures|
    ensures Continues(old(repo.Snapshot()), repo.Snapshot())
  {
    hide Progress, Continues, FailedExecutions, Versioned;
    ghost var before := repo.Snapshot();
    var candidates := FailedExecutions(repo.Snapshot(), executions);
    NoProgress(before, candidates);
    var pending := candidates.Keys;
    recovered := 0;
    assert candidates.Keys - pending == {};
    while pending != {}
      invariant pending <= candidates.Keys && recovered == |candidates.Keys| - |pending| && freshId !in repo.queue.rows
      invariant Progress(before, repo.Snapshot(), candidates.Keys - pending, candidates)
      invariant Continues(before, repo.Snapshot())
    {
      var id :| id in pending;
      FailedCandidate(before, executions, id);
      var ok := FailOne(repo, id, candidates[id], freshId, clock(id), before, candidates.Keys - pending, candidates);
      assert candidates.Keys - (pending - {id}) == candidates.Keys - pending + {id};
      pending := pending - {id};
      recovered := recovered + 1;
    }
    assert candidates.Keys - pending == candidates.Keys;
  }

  lemma EndedCandidate(db: Db, id: WorkflowId)
    requires id in EndedDispatches(db)
    ensures id in db.workflows && IsActiveStage(db.workflows[id].status)
    ensures Text.TrimSpace(EndedDispatches(db)[id].message) == "" <==> Unrecoverable(db, id)
  {
    EndedMessageBlankIff(db.queue[db.workflows[id].currentDispatch.value]);
  }

  lemma UnrecoverableIsCandidate(db: Db, id: WorkflowId)
    requires Unrecoverable(db, id)
    ensures id in EndedDispatches(db)
  {
  }

  /** Fails the workflows whose execution dispatch has ended; stops with an error at a message it cannot use. */
  method ReconcileDeadExecutionDispatches(repo: Repository, freshId: JobId, clock: WorkflowId -> int)
    returns (r: Result<nat, Error>)
    requires Versioned(repo.Snapshot()) && freshId !in repo.queue.rows
    modifies repo, repo.queue
    ensures r.Ok? ==> var failures := EndedDispatches(old(repo.Snapshot()));
                      Progress(old(repo.Snapshot()), repo.Snapshot(), failures.Keys, failures) && r.value == |failures|
    ensures exists done: set<WorkflowId> ::
              && done <= EndedDispatches(old(repo.Snapshot())).Keys
              && Progress(old(repo.Snapshot()), repo.Snapshot(), done, EndedDispatches(old(repo.Snapshot())))
    ensures Continues(old(repo.Snapshot()), repo.Snapshot())
    ensures r.Err? <==> (exists id :: id in old(repo.workflows) && Unrecoverable(old(repo.Snapshot()), id))
  {
    hide Progress, Continues, EndedDispatches, Versioned, Unrecoverable;
    ghost var before := repo.Snapshot();
    var candidates := EndedDispatches(repo.Snapshot());
    NoProgress(before, candidates);
    var pending := candidates.Keys;
    var recovered := 0;
    assert candidates.Keys - pending == {};
    while pending != {}
      invariant pending <= candidates.Keys && recovered == |candidates.Keys| - |pending| && freshId !in repo.queue.rows
      invariant Progress(before, repo.Snapshot(), candidates.Keys - pending, candidates)
      invariant Continues(before, repo.Snapshot())
      invariant forall id :: id in candidates.Keys - pending ==> !Unrecoverable(before, id)
    {
      var id :| id in pending;
      EndedCandidate(before, id);
      var ok := FailOne(repo, id, candidates[id], freshId, clock(id), before, candidates.Keys - pending, candidates);
      if !ok {
        return Err(InvalidJob);
      }
      assert candidates.Keys - (pending - {id}) == candidates.Keys - pending + {id};
      pending := pending - {id};
      recovered := recovered + 1;
    }
    assert candidates.Keys - pending == candidates.Keys;
    forall id | Unrecoverable(before, id)
      ensures id in candidates
    {
      UnrecoverableIsCandidate(before, id);
    }
    return Ok(recovered);
  }

  // ----- startup -----

  /** Waiting for its executor: the current dispatch is a queued workflow.execute job of this workflow. */
  predicate AwaitsExecutor(db: Db, id: WorkflowId) {
    && id in db.workflows && db.workflows[id].currentDispatch.Some? && db.workflows[id].currentDispatch.value in db.queue
    && var queued := db.queue[db.workflows[id].currentDispatch.value];
       queued.jobType.Execute? && queued.status.JobQueued? && queued.payload.workflow == id
  }

  /** Failed where it stood, so that RETRY leads back there. */
  predicate FailedInPlace(before: Job, after: Job) {
    after.status.Failed? && after.retryStatus == Some(before.status) && IsActiveStage(before.status)
  }

  /** An ended dispatch that startup must report: recovery cannot name the failure, and no failed execution does. */
  predicate BlocksStartup(db: Db, executions: Executions, id: WorkflowId) {
    Unrecoverable(db, id) && !ExecutionFailed(db, executions, id)
  }

  /** What startup fails a workflow for: its failed execution if there is one, its ended dispatch otherwise. */
  function RecoveredFailures(db: Db, executions: Executions): map<WorkflowId, Failure> {
    EndedDispatches(db) + FailedExecutions(db, executions)
  }

  /** A workflow failed by the first pass is none of the second's; the others reach it as they were. */
  lemma SecondPass(before: Db, failed: Db, executions: Executions, id: WorkflowId)
    requires Progress(before, failed, FailedExecutions(before, executions).Keys, FailedExecutions(before, executions))
    requires id in before.workflows
    ensures id in FailedExecutions(before, executions) ==> id !in EndedDispatches(failed)
    ensures id !in FailedExecutions(before, executions) ==>
              && Untouched(before, failed, id)
              && (id in EndedDispatches(failed) <==> id in EndedDispatches(before))
              && (id in EndedDispatches(before) ==> EndedDispatches(failed)[id] == EndedDispatches(before)[id])
  {
    hide TransitionError, EndedMessage, FailureOf;
  }

  /** Both passes together fail exactly the workflows they have a failure for, and change nothing else. */
  lemma TwoPasses(before: Db, failed: Db, after: Db, executions: Executions)
    requires Progress(before, failed, FailedExecutions(before, executions).Keys, FailedExecutions(before, executions))
    requires Progress(failed, after, EndedDispatches(failed).Keys, EndedDispatches(failed))
    ensures Progress(before, after, RecoveredFailures(before, executions).Keys, RecoveredFailures(before, executions))
  {
    var failures := RecoveredFailures(before, executions);
    hide TransitionError, RowWith, EntryFor, ExecutionFailed, DispatchEnded, EndedMessage, FailureOf, FailedExecutions, EndedDispatches;
    forall id | id in before.workflows
      ensures if id in failures
              then FailedWith(before, after, id, FailInput(before.workflows[id].version, failures[id].code, failures[id].message))
              else Untouched(before, after, id)
    {
      SecondPass(before, failed, executions, id);
    }
  }

  lemma RequeuedKeeps(db: Db, executions: Executions, now: int, id: WorkflowId)
    ensures var requeued := db.(queue := InterruptedRecovered(db.queue, now));
            && (ExecutionFailed(requeued, executions, id) <==> ExecutionFailed(db, executions, id))
            && (DispatchEnded(requeued, id) <==> DispatchEnded(db, id))
            && (DispatchEnded(db, id) ==>
                  requeued.queue[db.workflows[id].currentDispatch.value] == db.queue[db.workflows[id].currentDispatch.value])
  {
  }

  /** Requeueing decides none of the failures. */
  lemma RequeuedFailures(db: Db, executions: Executions, now: int)
    ensures var requeued := db.(queue := InterruptedRecovered(db.queue, now));
            && FailedExecutions(requeued, executions) == FailedExecutions(db, executions)
            && EndedDispatches(requeued) == EndedDispatches(db)
            && RecoveredFailures(requeued, executions) == RecoveredFailures(db, executions)
  {
    SameExecutions(db, db.(queue := InterruptedRecovered(db.queue, now)), executions);
    RequeuedDispatches(db, executions, now);
  }

  /** Executions are read off the workflows alone. */
  lemma SameExecutions(db: Db, other: Db, executions: Executions)
    requires other.workflows == db.workflows
    ensures FailedExecutions(other, executions) == FailedExecutions(db, executions)
  {
    hide FailureOf;
    assert forall id :: ExecutionFailed(other, executions, id) <==> ExecutionFailed(db, executions, id);
  }

  lemma RequeuedDispatches(db: Db, executions: Executions, now: int)
    ensures EndedDispatches(db.(queue := InterruptedRecovered(db.queue, now))) == EndedDispatches(db)
  {
    hide EndedMessage, DispatchEnded, InterruptedRecovered;
    var requeued := db.(queue := InterruptedRecovered(db.queue, now));
    forall id | id in db.workflows
      ensures id in EndedDispatches(requeued) <==> id in EndedDispatches(db)
      ensures id in EndedDispatches(db) ==> EndedDispatches(requeued)[id] == EndedDispatches(db)[id]
    {
      RequeuedKeeps(db, executions, now, id);
    }
    assert EndedDispatches(requeued).Keys == EndedDispatches(db).Keys;
  }

  // ----- what recovery writes, in the columns -----

  /** A nullable text column, trimmed; blank or NULL counts as the default. */
  function TextOr(value: Option<string>, default: string): string {
    if value.Some? && !Text.IsBlank(value.value) then Text.TrimSpace(value.value) else default
  }

  /** The row failed where it stood, one version on, without a dispatch, for this reason. */
  predicate FailedAs(before: Job, after: Job, code: string, message: string) {
    after == before.(status := Status.Failed, version := before.version + 1, currentDispatch := None, retryStatus := Some(before.status),
                     failureCode := code, failureMessage := message, updatedAt := after.updatedAt, completedAt := None)
  }

  /**
    What startup makes of a workflow: a failed execution gives it its own code and message, each
    in its own column; an ended dispatch EXECUTOR_FAILED and its last error; anything else stays.
   */
  predicate RecoveredAs(db: Db, executions: Executions, id: WorkflowId, after: Job)
    requires id in db.workflows
  {
    var job := db.workflows[id];
    var current := (id, job.executionVersion);
    if job.status.Executing? && current in executions && executions[current].status.ExecFailed? then
      FailedAs(job, after, TextOr(executions[current].failureCode, "EXECUTOR_FAILED"),
               TextOr(executions[current].failureMessage, "E" + "xecutor execution failed."))
    else if (job.status.Queued? || job.status.Executing?) && job.currentDispatch.Some? && job.currentDispatch.value in db.queue
            && db.queue[job.currentDispatch.value].jobType.Execute? && db.queue[job.currentDispatch.value].status.JobDead? then
      FailedAs(job, after, "EXECUTOR_FAILED",
               TextOr(db.queue[job.currentDispatch.value].lastError, "E" + "xecutor dispatch exhausted all retries."))
    else if (job.status.Queued? || job.status.Executing?) && job.currentDispatch.Some? && job.currentDispatch.value in db.queue
            && db.queue[job.currentDispatch.value].jobType.Execute? && db.queue[job.currentDispatch.value].status.JobCompleted? then
      FailedAs(job, after, "EXECUTOR_FAILED",
               TextOr(db.queue[job.currentDispatch.value].lastError, "E" + "xecutor dispatch completed without closing the workflow."))
    else after == job
  }

  /** SQL's cleaning of a column followed by Go's is trimming with a default, unless SQL leaves a blank. */
  lemma CleanedIs(value: Option<string>, default: string)
    requires !Text.IsBlank(default) && Text.TrimSpace(default) == default
    ensures TrimmedOr(SqlText(value, default), default) == TextOr(value, default)
    ensures !HidesItsMessage(value) ==> Text.TrimSpace(SqlText(value, default)) == TextOr(value, default)
    ensures Text.TrimSpace(TextOr(value, default)) == TextOr(value, default) != ""
  {
    Text.TrimSpaceEmpty(default);
    if value.Some? {
      Text.SqlTrimEmpty(value.value);
      Text.TrimSpaceAfterSql(value.value);
      Text.TrimSpaceEmpty(value.value);
    }
    hide Text.TrimSpace, Text.SqlTrim;
  }

  lemma DefaultsAreText()
    ensures Text.TrimSpace("EXECUTOR_FAILED") == "EXECUTOR_FAILED" && !Text.IsBlank("EXECUTOR_FAILED")
    ensures Text.TrimSpace(EXECUTION_FAILED_MESSAGE) == EXECUTION_FAILED_MESSAGE
    ensures Text.TrimSpace(COMPLETED_MESSAGE) == COMPLETED_MESSAGE && Text.TrimSpace(DEAD_MESSAGE) == DEAD_MESSAGE
  {
    MessagesNotBlank();
    Text.TrimSpaceKeeps("EXECUTOR_FAILED", 0, 15);
    Text.TrimSpaceKeeps(EXECUTION_FAILED_MESSAGE, 0, |EXECUTION_FAILED_MESSAGE|);
    Text.TrimSpaceKeeps(COMPLETED_MESSAGE, 0, |COMPLETED_MESSAGE|);
    Text.TrimSpaceKeeps(DEAD_MESSAGE, 0, |DEAD_MESSAGE|);
  }

  /** A FAIL in the columns. */
  lemma FailColumns(job: Job, code: string, message: string, now: int)
    requires TransitionError(job, FailInput(job.version, code, message)).None?
    ensures FailedAs(job, RowWith(job, FailInput(job.version, code, message), None, now),
                     if Text.TrimSpace(code) == "" then "STAGE_FAILED" else Text.TrimSpace(code), Text.TrimSpace(message))
  {
  }

  lemma FailedExecutionColumns(before: Db, after: Db, executions: Executions, id: WorkflowId)
    requires ExecutionFailed(before, executions, id)
    requires var failure := FailureOf(executions[(id, before.workflows[id].executionVersion)]);
             FailedWith(before, after, id, FailInput(before.workflows[id].version, failure.code, failure.message))
    ensures RecoveredAs(before, executions, id, after.workflows[id])
  {
    var e := executions[(id, before.workflows[id].executionVersion)];
    DefaultsAreText();
    MessagesNotBlank();
    CleanedIs(e.failureCode, "EXECUTOR_FAILED");
    CleanedIs(e.failureMessage, EXECUTION_FAILED_MESSAGE);
    hide TransitionError, RowWith, EntryFor, SqlText, TrimmedOr, TextOr, Text.TrimSpace, Text.IsBlank;
    FailColumns(before.workflows[id], FailureOf(e).code, FailureOf(e).message, after.workflows[id].updatedAt);
  }

  lemma EndedDispatchColumns(before: Db, after: Db, executions: Executions, id: WorkflowId)
    requires DispatchEnded(before, id) && !ExecutionFailed(before, executions, id)
    requires var message := EndedMessage(before.queue[before.workflows[id].currentDispatch.value]);
             FailedWith(before, after, id, FailInput(before.workflows[id].version, EXECUTOR_FAILED, message))
    ensures RecoveredAs(before, executions, id, after.workflows[id])
  {
    var queued := before.queue[before.workflows[id].currentDispatch.value];
    var default := if queued.status.JobCompleted? then COMPLETED_MESSAGE else DEAD_MESSAGE;
    DefaultsAreText();
    MessagesNotBlank();
    CleanedIs(queued.lastError, default);
    EndedMessageBlankIff(queued);
    FailRefusedFor(before.workflows[id], EXECUTOR_FAILED, EndedMessage(queued));
    hide TransitionError, RowWith, EntryFor, SqlText, TrimmedOr, TextOr, Text.TrimSpace, Text.IsBlank, HidesItsMessage;
    FailColumns(before.workflows[id], EXECUTOR_FAILED, EndedMessage(queued), after.workflows[id].updatedAt);
  }

  lemma FailRefusedFor(job: Job, code: string, message: string)
    requires TransitionError(job, FailInput(job.version, code, message)).None?
    ensures Text.TrimSpace(message) != ""
  {
  }

  /** Whatever a pass with these failures made of a workflow, in the columns. */
  lemma ProgressColumns(before: Db, after: Db, executions: Executions, id: WorkflowId)
    requires Progress(before, after, RecoveredFailures(before, executions).Keys, RecoveredFailures(before, executions))
    requires id in before.workflows
    ensures id in after.workflows && RecoveredAs(before, executions, id, after.workflows[id])
  {
    hide TransitionError, RowWith, EntryFor, EndedMessage, FailureOf, RecoveredAs, FailedWith;
    if ExecutionFailed(before, executions, id) {
      FailedExecutionColumns(before, after, executions, id);
    } else if DispatchEnded(before, id) {
      EndedDispatchColumns(before, after, executions, id);
    } else {
      NothingToRecover(before, executions, id);
      assert Untouched(before, after, id);
    }
  }

  lemma NothingToRecover(db: Db, executions: Executions, id: WorkflowId)
    requires id in db.workflows && !ExecutionFailed(db, executions, id) && !DispatchEnded(db, id)
    ensures RecoveredAs(db, executions, id, db.workflows[id])
  {
  }

  lemma RequeuedColumns(db: Db, executions: Executions, now: int, id: WorkflowId, after: Job)
    requires id in db.workflows && RecoveredAs(db.(queue := InterruptedRecovered(db.queue, now)), executions, id, after)
    ensures RecoveredAs(db, executions, id, after)
  {
    hide TextOr;
  }

  /** A recovered failed execution can be continued exactly if its own code was one of the executor's pauses. */
  lemma RecoveredContinuesIff(db: Db, executions: Executions, id: WorkflowId, after: Job, turns: int)
    requires ExecutionFailed(db, executions, id) && RecoveredAs(db, executions, id, after)
    requires 1 <= turns <= 64 && after.limits.maxExecutorTurns + turns <= 128 && after.limits.maxStageAttempts >= 1
    ensures var e := executions[(id, db.workflows[id].executionVersion)];
            TransitionError(after, TransitionInput(after.version, ContinueExecution, "", "", turns, Some(0))).None? <==>
              after.version >= 1 && e.failureCode.Some? && !Text.IsBlank(e.failureCode.value)
              && IsExecutorPauseCode(Text.TrimSpace(e.failureCode.value))
  {
    hide Text.TrimSpace, Text.IsBlank;
  }

  /** One finished pass over one workflow. */
  lemma PassedWorkflow(before: Db, after: Db, failures: map<WorkflowId, Failure>, id: WorkflowId)
    requires Progress(before, after, failures.Keys, failures) && id in before.workflows
    requires id in failures ==> IsActiveStage(before.workflows[id].status)
    ensures after.queue == before.queue && id in after.workflows
    ensures if id in failures then FailedInPlace(before.workflows[id], after.workflows[id])
            else after.workflows[id] == before.workflows[id]
  {
    hide TransitionError;
  }

  /** The three recovery passes over one workflow. */
  lemma RecoveredWorkflow(s: System, now: int, failed: Db, after: Db, id: WorkflowId)
    requires Reachable(s) && id in s.db.workflows
    requires var requeued := s.db.(queue := InterruptedRecovered(s.db.queue, now));
             Progress(requeued, failed, FailedExecutions(requeued, s.executions).Keys, FailedExecutions(requeued, s.executions))
    requires Progress(failed, after, EndedDispatches(failed).Keys, EndedDispatches(failed))
    ensures id in after.workflows
    ensures after.workflows[id].status.Queued? || after.workflows[id].status.Executing? ==> AwaitsExecutor(after, id)
    ensures after.workflows[id] == s.db.workflows[id] || FailedInPlace(s.db.workflows[id], after.workflows[id])
  {
    hide Reachable, TransitionError, Progress, FailedWith;
    DispatchAgreement(s, id);
    var requeued := s.db.(queue := InterruptedRecovered(s.db.queue, now));
    PassedWorkflow(requeued, failed, FailedExecutions(requeued, s.executions), id);
    PassedWorkflow(failed, after, EndedDispatches(failed), id);
  }

  lemma UnrecoverableLater(s: System, now: int, failed: Db, id: WorkflowId)
    requires id in s.db.workflows
    requires var requeued := s.db.(queue := InterruptedRecovered(s.db.queue, now));
             var failures := FailedExecutions(requeued, s.executions);
             Progress(requeued, failed, failures.Keys, failures)
    ensures Unrecoverable(failed, id) <==> BlocksStartup(s.db, s.executions, id)
  {
    hide TransitionError;
    var requeued := s.db.(queue := InterruptedRecovered(s.db.queue, now));
    assert failed.queue == requeued.queue;
  }

  lemma ReachableIsVersioned(s: System)
    requires Reachable(s)
    ensures Versioned(s.db)
  {
    ReachableInvariant(s);
    forall id | id in s.db.workflows
      ensures s.db.workflows[id].version >= 1
    {
      assert WorkflowInvariant(s, id);
    }
  }

  /**
    Recovery at daemon start, from any state a crash can leave behind. If it succeeds, it has
    requeued every interrupted job and failed exactly the workflows with a failed execution or an
    ended dispatch, each in place and for that reason; every workflow that is still QUEUED or
    EXECUTING then awaits its executor. It stops with an error exactly when some workflow blocks it.
   */
  method Startup(repo: Repository, executions: Executions, ghost born: map<WorkflowId, Limits>,
                 freshId: JobId, now: int, clock: WorkflowId -> int)
    returns (r: Result<(nat, nat), Error>)
    requires Reachable(System(repo.Snapshot(), executions, born)) && freshId !in repo.queue.rows
    modifies repo, repo.queue
    ensures r.Err? <==> exists id :: id in old(repo.workflows) && BlocksStartup(old(repo.Snapshot()), executions, id)
    ensures r.Ok? ==>
              var before := old(repo.Snapshot());
              var failures := RecoveredFailures(before, executions);
              && Progress(before.(queue := InterruptedRecovered(before.queue, now)), repo.Snapshot(), failures.Keys, failures)
              && r.value.0 == |FailedExecutions(before, executions)| && r.value.0 + r.value.1 == |failures|
    ensures r.Ok? ==> forall id :: id in old(repo.workflows) ==>
                        id in repo.workflows && RecoveredAs(old(repo.Snapshot()), executions, id, repo.workflows[id])
    ensures Reachable(System(repo.Snapshot(), executions, born))
    ensures r.Ok? ==> repo.workflows.Keys == old(repo.workflows.Keys)
    ensures r.Ok? ==> forall id :: id in repo.workflows && (repo.workflows[id].status.Queued? || repo.workflows[id].status.Executing?) ==>
                        AwaitsExecutor(repo.Snapshot(), id)
    ensures r.Ok? ==> forall id :: id in repo.workflows ==>
                        || repo.workflows[id] == old(repo.workflows)[id]
                        || FailedInPlace(old(repo.workflows)[id], repo.workflows[id])
  {
    hide Reachable, Progress, BlocksStartup, Unrecoverable, FailedExecutions, EndedDispatches, AwaitsExecutor, FailedInPlace, RequeuesExactly,
         RecoveredAs, RecoveredFailures;
    ghost var s := System(repo.Snapshot(), executions, born);
    ReachableIsVersioned(s);
    ReachableStep(s, Step.RecoverInterrupted(now));
    var ids := repo.queue.RecoverInterrupted(now);
    assert ids == RunningJobs(s.db.queue);
    InterruptedRequeues(s.db.queue, repo.queue.rows, now);
    ghost var requeued := repo.Snapshot();
    assert requeued == s.db.(queue := InterruptedRecovered(s.db.queue, now));
    var failedExecutions := ReconcileFailedWorkflows(repo, executions, freshId, clock);
    ghost var failed := repo.Snapshot();
    ProgressFacts(requeued, failed, FailedExecutions(requeued, executions).Keys, FailedExecutions(requeued, executions));
    forall id | id in s.db.workflows
      ensures Unrecoverable(failed, id) <==> BlocksStartup(s.db, executions, id)
    {
      UnrecoverableLater(s, now, failed, id);
    }
    var ended := ReconcileDeadExecutionDispatches(repo, freshId, clock);
    if ended.Err? {
      return Err(ended.error);
    }
    ghost var after := repo.Snapshot();
    RequeuedFailures(s.db, executions, now);
    TwoPasses(requeued, failed, after, executions);
    forall id | id in s.db.workflows
      ensures id in after.workflows && RecoveredAs(s.db, executions, id, after.workflows[id])
    {
      ProgressColumns(requeued, after, executions, id);
      RequeuedColumns(s.db, executions, now, id, after.workflows[id]);
    }
    CountsAdd(requeued, failed, executions);
    ProgressFacts(failed, after, EndedDispatches(failed).Keys, EndedDispatches(failed));
    forall id | id in s.db.workflows
      ensures id in after.workflows
      ensures after.workflows[id].status.Queued? || after.workflows[id].status.Executing? ==> AwaitsExecutor(after, id)
      ensures after.workflows[id] == s.db.workflows[id] || FailedInPlace(s.db.workflows[id], after.workflows[id])
    {
      RecoveredWorkflow(s, now, failed, after, id);
    }
    return Ok((failedExecutions, ended.value));
  }

  lemma SizesAdd(first: map<WorkflowId, Failure>, second: map<WorkflowId, Failure>, all: map<WorkflowId, Failure>)
    requires all.Keys == first.Keys + second.Keys && first.Keys !! second.Keys
    ensures |all| == |first| + |second|
  {
    assert |first.Keys + second.Keys| == |first.Keys| + |second.Keys|;
  }

  lemma CandidatesAreThere(db: Db, executions: Executions)
    ensures FailedExecutions(db, executions).Keys <= db.workflows.Keys && EndedDispatches(db).Keys <= db.workflows.Keys
  {
    hide ExecutionFailed, DispatchEnded, EndedMessage, FailureOf;
  }

  lemma InOnePass(before: Db, failed: Db, executions: Executions, id: WorkflowId)
    requires Progress(before, failed, FailedExecutions(before, executions).Keys, FailedExecutions(before, executions))
    ensures id in RecoveredFailures(before, executions).Keys <==>
              id in FailedExecutions(before, executions).Keys + EndedDispatches(failed).Keys
    ensures !(id in FailedExecutions(before, executions).Keys && id in EndedDispatches(failed).Keys)
  {
    ProgressFacts(before, failed, FailedExecutions(before, executions).Keys, FailedExecutions(before, executions));
    CandidatesAreThere(before, executions);
    CandidatesAreThere(failed, executions);
    hide FailedExecutions, EndedDispatches, Progress, Untouched, Versioned;
    if id in before.workflows {
      SecondPass(before, failed, executions, id);
    }
  }

  /** The two counts together are the number of failed workflows. */
  lemma CountsAdd(before: Db, failed: Db, executions: Executions)
    requires Progress(before, failed, FailedExecutions(before, executions).Keys, FailedExecutions(before, executions))
    ensures |FailedExecutions(before, executions)| + |EndedDispatches(failed)| == |RecoveredFailures(before, executions)|
  {
    hide *;
    forall id: WorkflowId
      ensures id in RecoveredFailures(before, executions).Keys <==>
                id in FailedExecutions(before, executions).Keys + EndedDispatches(failed).Keys
      ensures !(id in FailedExecutions(before, executions).Keys && id in EndedDispatches(failed).Keys)
    {
      InOnePass(before, failed, executions, id);
    }
    SizesAdd(FailedExecutions(before, executions), EndedDispatches(failed), RecoveredFailures(before, executions));
  }

  lemma ProgressFacts(before: Db, now: Db, done: set<WorkflowId>, failures: map<WorkflowId, Failure>)
    requires Progress(before, now, done, failures)
    ensures Versioned(now) && now.queue == before.queue && now.workflows.Keys == before.workflows.Keys
  {
  }
}
