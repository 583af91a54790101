/**
  The handler of workflow.execute jobs (internal/execution/handler.go): which dispatches it
  takes up, how it moves the workflow, and that a call which returns leaves nothing for
  startup recovery to repair. The executor's own work is a parameter.
 */
module ExecutionHandler {
  import opened Wrappers
  import opened WorkflowTransition
  import opened JobQueue
  import opened WorkflowLog
  import opened WorkflowRepository
  import opened Orchestrator
  import R = ExecutionRecovery
  import L = ExecutorLoop
  import Text

  const EXECUTOR_STALLED := "EXECUTOR_STALLED"

  // ----- which dispatches are taken up -----

  datatype Gate = Proceed | Stale | Ahead | BadPayload | UserCancelled

  /** decodeExecutionDispatch accepts the payload. */
  predicate Decodes(payload: Dispatch): (ok: bool)
    ensures ok <==> payload.target.Queued? && payload.version > 0
  {
    Accepts(Execute, payload) && payload.version >= 1
  }

  /** The checks HandleDurable makes before it touches anything, in its order. */
  function GateOf(payload: Dispatch, job: Job, dispatch: JobId): Gate {
    if !Decodes(payload) then BadPayload
    else if job.version < payload.version then Ahead
    else if !job.status.Queued? && !job.status.Executing? then Stale
    else if job.cancellationRequested then UserCancelled
    else if job.currentDispatch.Some? && job.currentDispatch != Some(dispatch) then Stale
    else Proceed
  }

  /**
    In every reachable state the gate opens exactly for the workflow's current dispatch, it is
    never the version or a cancellation that closes it, and a QUEUED workflow then has the
    payload's version: the version comparison of ensureExecuting never keeps it QUEUED.
   */
  lemma GateOpensIff(s: System, dispatch: JobId)
    requires Reachable(s) && dispatch in s.db.queue && s.db.queue[dispatch].jobType.Execute?
    requires Decodes(s.db.queue[dispatch].payload)
    ensures s.db.queue[dispatch].payload.workflow in s.db.workflows
    ensures var payload := s.db.queue[dispatch].payload;
            var job := s.db.workflows[payload.workflow];
            && (GateOf(payload, job, dispatch).Proceed? <==> job.currentDispatch == Some(dispatch))
            && (!GateOf(payload, job, dispatch).Proceed? ==> GateOf(payload, job, dispatch).Stale?)
            && (GateOf(payload, job, dispatch).Proceed? && job.status.Queued? ==> payload.version == job.version)
  {
    NoJobFromTheFuture(s, dispatch);
    var payload := s.db.queue[dispatch].payload;
    var id := payload.workflow;
    DispatchAgreement(s, id);
    RowIsCacheOfLog(s, id);
    hide Reachable, Justified;
    var log := s.db.log[id];
    if s.db.workflows[id].status.Queued? && Last(log).action.ExecutionStarted? {
      StartedIsExecuting(log);
    }
  }

  lemma StartedIsExecuting(log: Log)
    requires Justified(log) && Last(log).action.ExecutionStarted?
    ensures Last(log).to.Executing?
  {
    assert EntryJustified(log, |log| - 1);
  }

  // ----- what a call does -----

  /**
    How the executor's work ends: with a finished run, a pause, a failed run, any other error
    as classified, an error that wraps a cancellation while the daemon lives, or not at all.
   */
  datatype Work =
    | Completes
    | Pauses(code: string, message: string)
    | RunFails(code: string, message: string)
    | Errs(code: string, message: string)
    | Cancelled(context: string)
    | CutShort

  /** What HandleDurable returns: nil, an error's text, or the daemon's own cancellation. */
  datatype Reply = Returned | Errored(text: string) | Interrupted

  // Split so that the first letter is a fact of its own: none of the texts is blank.
  const MARK_FAILED_ERROR := "m" + "ark workflow failed after Executor failure"
  const INVALID_JOB := "i" + "nvalid workflow job"
  const INVALID_DISPATCH := "i" + "nvalid workflow execute dispatch"
  const CANCELED_ERROR := "c" + "ontext canceled"

  function Details(version: nat, action: Action, code: string, message: string): TransitionInput {
    TransitionInput(version, action, code, message, 0, Some(512))
  }

  predicate IsOpen(s: Status) {
    s.Queued? || s.Executing?
  }

  /** The code a FAIL stores. */
  function StoredCode(code: string): string {
    if Text.TrimSpace(code) == "" then "STAGE_FAILED" else Text.TrimSpace(code)
  }

  /** A FAIL in an open workflow goes through exactly when its message is not blank; then nothing but its row and log changes. */
  lemma FailGoesThrough(db: Db, id: WorkflowId, code: string, message: string, freshId: JobId, now: int)
    requires db.Logged() && id in db.workflows && IsOpen(db.workflows[id].status) && db.workflows[id].version >= 1
    ensures var input := Details(db.workflows[id].version, Fail, code, message);
            && (TransitionError(db.workflows[id], input).None? <==> Text.TrimSpace(message) != "")
            && (TransitionError(db.workflows[id], input).None? ==>
                  var after := Transitioned(db, id, input, freshId, now, now);
                  && after.queue == db.queue && after.workflows[id].status == Status.Failed
                  && after.workflows[id].retryStatus == Some(db.workflows[id].status)
                  && after.workflows[id].failureCode == StoredCode(code)
                  && after.workflows[id].failureMessage == Text.TrimSpace(message)
                  && after.workflows == db.workflows[id := after.workflows[id]]
                  && after.log == db.log[id := after.log[id]])
  {
  }

  /** EXECUTION_STARTED in a queued workflow keeps the dispatch and enqueues nothing. */
  lemma StartGoesThrough(db: Db, id: WorkflowId, freshId: JobId, now: int)
    requires db.Logged() && id in db.workflows && db.workflows[id].status.Queued? && db.workflows[id].version >= 1
    ensures var input := Details(db.workflows[id].version, ExecutionStarted, "", "");
            && TransitionError(db.workflows[id], input).None?
            && var after := Transitioned(db, id, input, freshId, now, now);
               && after.queue == db.queue && after.workflows[id].status.Executing?
               && after.workflows[id].currentDispatch == db.workflows[id].currentDispatch
               && after.workflows[id].version == db.workflows[id].version + 1
               && after.workflows[id].limits == db.workflows[id].limits
               && after.workflows == db.workflows[id := after.workflows[id]]
               && after.log == db.log[id := after.log[id]]
  {
  }

  /** EXECUTION_COMPLETED moves on to CHECKING and enqueues the check run. */
  lemma CompleteGoesThrough(db: Db, id: WorkflowId, freshId: JobId, now: int)
    requires db.Logged() && id in db.workflows && db.workflows[id].status.Executing? && db.workflows[id].version >= 1
    requires db.workflows[id].limits.maxStageAttempts >= 1
    ensures var input := Details(db.workflows[id].version, ExecutionCompleted, "", "");
            && TransitionError(db.workflows[id], input).None?
            && var after := Transitioned(db, id, input, freshId, now, now);
               && after.queue == db.queue[freshId := after.queue[freshId]] && after.workflows[id].status.Checking?
               && after.workflows == db.workflows[id := after.workflows[id]]
               && after.log == db.log[id := after.log[id]]
  {
  }

  // ----- runs in which execute jobs end as the handler ends them -----

  predicate IsLast(job: QueueJob): (last: bool)
    ensures !last <==> job.attempts < job.maxAttempts
  {
    job.attempts >= job.maxAttempts
  }

  /**
    What the handler guarantees of the report it makes to the queue: an execute job is completed
    only when its workflow has moved on or holds another dispatch, and failed for good only
    with a text that is not blank.
   */
  ghost predicate EndsAsHandled(db: Db, step: Step) {
    && (step.CompleteJob? && step.job in db.queue && db.queue[step.job].jobType.Execute? ==>
          var id := db.queue[step.job].payload.workflow;
          id in db.workflows ==> db.workflows[id].currentDispatch != Some(step.job) || !IsOpen(db.workflows[id].status))
    && (step.FailJob? && step.job in db.queue && db.queue[step.job].jobType.Execute? && IsLast(db.queue[step.job]) ==>
          !Text.IsBlank(step.failure))
  }

  ghost predicate HandledLeads(s: System, steps: seq<Step>, t: System)
    decreases |steps|
  {
    if steps == [] then s == t
    else Enabled(s, steps[0]) && EndsAsHandled(s.db, steps[0]) && HandledLeads(After(s, steps[0]), steps[1..], t)
  }

  /** A state some such run leads to. */
  ghost predicate HandledReachable(s: System) {
    exists steps :: HandledLeads(INITIAL, steps, s)
  }

  lemma {:induction false} HandledOneMore(s: System, steps: seq<Step>, t: System, step: Step)
    requires HandledLeads(s, steps, t) && Enabled(t, step) && EndsAsHandled(t.db, step)
    ensures HandledLeads(s, steps + [step], After(t, step))
    decreases |steps|
  {
    hide Enabled, After, EndsAsHandled;
    var longer := steps + [step];
    if steps == [] {
      assert longer[1..] == [];
    } else {
      HandledOneMore(After(s, steps[0]), steps[1..], t, step);
      assert longer[1..] == steps[1..] + [step];
    }
  }

  lemma HandledStep(s: System, step: Step)
    requires HandledReachable(s) && Enabled(s, step) && EndsAsHandled(s.db, step)
    ensures HandledReachable(After(s, step))
  {
    hide Enabled, After, EndsAsHandled;
    var steps :| HandledLeads(INITIAL, steps, s);
    HandledOneMore(INITIAL, steps, s, step);
  }

  /** Whatever such run led to the tables `before` can be continued to `after`. */
  ghost predicate Continues(before: Db, after: Db) {
    forall executions, born ::
      HandledReachable(System(before, executions, born)) ==> HandledReachable(System(after, executions, born))
  }

  lemma TransitionContinues(db: Db, id: WorkflowId, input: TransitionInput, freshId: JobId, now: int)
    requires db.Logged() && id in db.workflows && freshId !in db.queue && TransitionError(db.workflows[id], input).None?
    ensures Continues(db, Transitioned(db, id, input, freshId, now, now))
  {
    hide TransitionError, Transitioned, HandledReachable;
    forall executions, born | HandledReachable(System(db, executions, born))
      ensures HandledReachable(System(Transitioned(db, id, input, freshId, now, now), executions, born))
    {
      HandledStep(System(db, executions, born), Act(id, input, freshId, now, now));
    }
  }

  lemma QueueContinues(db: Db, step: Step)
    requires (step.CompleteJob? || step.FailJob?) && step.job in db.queue && db.queue[step.job].status.JobRunning?
    requires EndsAsHandled(db, step)
    ensures Continues(db, db.(queue := QueueAfter(db.queue, step)))
  {
    hide HandledReachable, EndsAsHandled;
    forall executions, born | HandledReachable(System(db, executions, born))
      ensures HandledReachable(System(db.(queue := QueueAfter(db.queue, step)), executions, born))
    {
      HandledStep(System(db, executions, born), step);
    }
  }

  lemma ContinuesTransitive(a: Db, b: Db, c: Db)
    requires Continues(a, b) && Continues(b, c)
    ensures Continues(a, c)
  {
    hide HandledReachable;
  }

  /** No open workflow waits for an ended dispatch whose error hides its message. */
  ghost predicate NothingHidden(db: Db) {
    forall id :: id in db.workflows ==> !R.Unrecoverable(db, id)
  }

  lemma ActHidesNothing(s: System, step: Step, id: WorkflowId)
    requires step.Act? && Enabled(s, step) && id in s.db.workflows && !R.Unrecoverable(s.db, id)
    ensures id in After(s, step).db.workflows && !R.Unrecoverable(After(s, step).db, id)
  {
    hide TransitionError, R.HidesItsMessage;
    if id == step.id && step.transition.action.ExecutionStarted? {
      StartsQueued(s.db.workflows[id], step.transition);
    }
  }

  /** EXECUTION_STARTED, the one action that keeps a dispatch, starts in QUEUED. */
  lemma StartsQueued(job: Job, input: TransitionInput)
    requires TransitionError(job, input).None? && input.action.ExecutionStarted?
    ensures job.status.Queued?
  {
  }

  lemma QueueHidesNothing(s: System, step: Step, id: WorkflowId)
    requires Reachable(s) && IsQueueStep(step) && Enabled(s, step) && EndsAsHandled(s.db, step)
    requires id in s.db.workflows && !R.Unrecoverable(s.db, id)
    ensures id in After(s, step).db.workflows && !R.Unrecoverable(After(s, step).db, id)
  {
    DispatchAgreement(s, id);
    hide Reachable, IsFirst, Runnable;
  }

  lemma HandledStepHidesNothing(s: System, step: Step)
    requires Reachable(s) && NothingHidden(s.db) && Enabled(s, step) && EndsAsHandled(s.db, step)
    ensures NothingHidden(After(s, step).db)
  {
    var t := After(s, step);
    forall id | id in t.db.workflows
      ensures !R.Unrecoverable(t.db, id)
    {
      hide Reachable, R.Unrecoverable, EndsAsHandled;
      if IsQueueStep(step) {
        QueueHidesNothing(s, step, id);
      } else if step.Act? {
        ActHidesNothing(s, step, id);
      } else {
        OtherHidesNothing(s, step, id);
      }
    }
  }

  lemma OtherHidesNothing(s: System, step: Step, id: WorkflowId)
    requires NothingHidden(s.db) && Enabled(s, step) && (step.CreateWorkflow? || step.WriteExecution?)
    requires id in After(s, step).db.workflows
    ensures !R.Unrecoverable(After(s, step).db, id)
  {
    hide CreateError, R.HidesItsMessage;
    if id in s.db.workflows {
      assert !R.Unrecoverable(s.db, id);
    }
  }

  lemma {:induction false} HandledRunHidesNothing(s: System, steps: seq<Step>, t: System)
    requires Reachable(s) && NothingHidden(s.db) && HandledLeads(s, steps, t)
    ensures Reachable(t) && NothingHidden(t.db)
    decreases |steps|
  {
    hide Reachable, NothingHidden, Enabled, After, EndsAsHandled;
    if steps != [] {
      HandledStepHidesNothing(s, steps[0]);
      ReachableStep(s, steps[0]);
      HandledRunHidesNothing(After(s, steps[0]), steps[1..], t);
    }
  }

  /** In every state such a run leads to, nothing blocks startup recovery. */
  lemma NothingBlocksStartup(s: System, id: WorkflowId)
    requires HandledReachable(s) && id in s.db.workflows
    ensures Reachable(s) && !R.BlocksStartup(s.db, s.executions, id)
  {
    var steps :| HandledLeads(INITIAL, steps, s);
    assert Leads(INITIAL, [], INITIAL);
    hide Reachable, R.Unrecoverable;
    HandledRunHidesNothing(INITIAL, steps, s);
  }

  /** So recovery succeeds at the next start, whenever the daemon went down. */
  method StartAgain(repo: Repository, executions: R.Executions, ghost born: map<WorkflowId, Limits>,
                    freshId: JobId, now: int, clock: WorkflowId -> int)
    returns (r: Result<(nat, nat), Error>)
    requires HandledReachable(System(repo.Snapshot(), executions, born)) && freshId !in repo.queue.rows
    modifies repo, repo.queue
    ensures r.Ok?
    ensures forall id :: id in repo.workflows && IsOpen(repo.workflows[id].status) ==> R.AwaitsExecutor(repo.Snapshot(), id)
  {
    hide HandledReachable, Reachable, R.BlocksStartup, R.AwaitsExecutor;
    ghost var s := System(repo.Snapshot(), executions, born);
    HandledIsReachable(s);
    forall id | id in s.db.workflows
      ensures !R.BlocksStartup(s.db, executions, id)
    {
      NothingBlocksStartup(s, id);
    }
    r := R.Startup(repo, executions, born, freshId, now, clock);
  }

  lemma HandledIsReachable(s: System)
    requires HandledReachable(s)
    ensures Reachable(s)
  {
    var steps :| HandledLeads(INITIAL, steps, s);
    assert Leads(INITIAL, [], INITIAL);
    assert Reachable(INITIAL) && NothingHidden(INITIAL.db);
    hide Reachable, NothingHidden;
    HandledRunHidesNothing(INITIAL, steps, s);
  }

  // ----- the handler's methods -----

  /** Only workflow `id` may differ; queue jobs are kept, and at most `freshId` is new. */
  ghost predicate OnlyMoves(before: Db, after: Db, id: WorkflowId, freshId: JobId) {
    && before.Logged() && after.Logged() && id in before.workflows && after.workflows.Keys == before.workflows.Keys
    && (forall other :: other in before.workflows && other != id ==> after.workflows[other] == before.workflows[other])
    && (forall job :: job in before.queue ==> job in after.queue && after.queue[job] == before.queue[job])
    && after.queue.Keys <= before.queue.Keys + {freshId}
    && Continues(before, after)
  }

  /** ensureExecuting */
  method EnsureExecuting(repo: Repository, id: WorkflowId, payloadVersion: nat, freshId: JobId, now: int)
    requires repo.Snapshot().Logged() && freshId !in repo.queue.rows
    requires id in repo.workflows && IsOpen(repo.workflows[id].status) && repo.workflows[id].version >= 1
    modifies repo, repo.queue
    ensures OnlyMoves(old(repo.Snapshot()), repo.Snapshot(), id, freshId) && repo.queue.rows == old(repo.queue.rows)
    ensures var before := old(repo.workflows)[id];
            && repo.workflows[id].version >= 1 && repo.workflows[id].currentDispatch == before.currentDispatch
            && repo.workflows[id].limits == before.limits
            && (if before.status.Queued? && before.version == payloadVersion
                then repo.workflows[id].status.Executing? && repo.workflows[id].version == before.version + 1
                else repo.Snapshot() == old(repo.Snapshot()))
  {
    hide TransitionError, Transitioned, Continues;
    MovesNothing(repo.Snapshot(), id, freshId);
    if repo.workflows[id].status.Executing? {
      return;
    }
    if repo.workflows[id].version != payloadVersion {
      return;
    }
    StartGoesThrough(repo.Snapshot(), id, freshId, now);
    TransitionContinues(repo.Snapshot(), id, Details(repo.workflows[id].version, ExecutionStarted, "", ""), freshId, now);
    var _ := repo.Transition(id, Details(repo.workflows[id].version, ExecutionStarted, "", ""), freshId, now, now);
  }

  /** Failed where it stood, with this failure. */
  predicate FailedFor(before: Job, after: Job, code: string, message: string) {
    && after.status == Status.Failed && after.retryStatus == Some(before.status)
    && after.failureCode == StoredCode(code) && after.failureMessage == Text.TrimSpace(message)
  }

  /** markWorkflowFailed, for an error that is no pause: settled, or the text of a new error. */
  method MarkWorkflowFailed(repo: Repository, id: WorkflowId, dispatch: JobId, code: string, message: string,
                            freshId: JobId, now: int)
    returns (settled: bool, error: Option<string>)
    requires repo.Snapshot().Logged() && freshId !in repo.queue.rows && id in repo.workflows
    requires IsOpen(repo.workflows[id].status) ==> repo.workflows[id].version >= 1
    modifies repo, repo.queue
    ensures OnlyMoves(old(repo.Snapshot()), repo.Snapshot(), id, freshId) && repo.queue.rows == old(repo.queue.rows)
    ensures settled ==> FailedFor(old(repo.workflows)[id], repo.workflows[id], code, message)
    ensures !settled ==> repo.Snapshot() == old(repo.Snapshot())
    ensures var mine := IsOpen(old(repo.workflows)[id].status)
                        && (old(repo.workflows)[id].currentDispatch.None? || old(repo.workflows)[id].currentDispatch == Some(dispatch));
            && (settled <==> mine && Text.TrimSpace(message) != "")
            && (error.Some? <==> mine && Text.TrimSpace(message) == "")
            && (error.Some? ==> error.value == MARK_FAILED_ERROR)
  {
    hide TransitionError, Transitioned, Text.TrimSpace, StoredCode, Continues;
    MovesNothing(repo.Snapshot(), id, freshId);
    var current := repo.workflows[id];
    if !IsOpen(current.status) {
      return false, None;
    }
    if current.currentDispatch.Some? && current.currentDispatch != Some(dispatch) {
      return false, None;
    }
    FailGoesThrough(repo.Snapshot(), id, code, message, freshId, now);
    if Text.TrimSpace(message) != "" {
      TransitionContinues(repo.Snapshot(), id, Details(current.version, Fail, code, message), freshId, now);
    }
    var r := repo.Transition(id, Details(current.version, Fail, code, message), freshId, now, now);
    if r.Err? {
      return false, Some(MARK_FAILED_ERROR);
    }
    return true, None;
  }

  /** pauseWorkflow: a pause is a FAIL that names its code. */
  method PauseWorkflow(repo: Repository, id: WorkflowId, code: string, message: string, freshId: JobId, now: int)
    returns (error: Option<string>)
    requires repo.Snapshot().Logged() && freshId !in repo.queue.rows && id in repo.workflows
    requires repo.workflows[id].version >= 1
    modifies repo, repo.queue
    ensures OnlyMoves(old(repo.Snapshot()), repo.Snapshot(), id, freshId) && repo.queue.rows == old(repo.queue.rows)
    ensures error.Some? <==> old(repo.workflows)[id].status.Executing? && Text.TrimSpace(message) == ""
    ensures error.None? && old(repo.workflows)[id].status.Executing? ==>
              FailedFor(old(repo.workflows)[id], repo.workflows[id], code, message)
    ensures error.Some? ==> repo.Snapshot() == old(repo.Snapshot()) && error.value == INVALID_JOB
  {
    hide TransitionError, Transitioned, Text.TrimSpace, StoredCode, Continues;
    MovesNothing(repo.Snapshot(), id, freshId);
    var current := repo.workflows[id];
    if !current.status.Executing? {
      return None;
    }
    FailGoesThrough(repo.Snapshot(), id, code, message, freshId, now);
    if Text.TrimSpace(message) != "" {
      TransitionContinues(repo.Snapshot(), id, Details(current.version, Fail, code, message), freshId, now);
    }
    var r := repo.Transition(id, Details(current.version, Fail, code, message), freshId, now, now);
    return if r.Err? then Some(INVALID_JOB) else None;
  }

  /** finishWorkflow */
  method FinishWorkflow(repo: Repository, id: WorkflowId, freshId: JobId, now: int)
    requires repo.Snapshot().Logged() && freshId !in repo.queue.rows && id in repo.workflows
    requires repo.workflows[id].version >= 1 && repo.workflows[id].limits.maxStageAttempts >= 1
    modifies repo, repo.queue
    ensures OnlyMoves(old(repo.Snapshot()), repo.Snapshot(), id, freshId)
    ensures old(repo.workflows)[id].status.Executing? ==> repo.workflows[id].status.Checking?
    ensures !old(repo.workflows)[id].status.Executing? ==> repo.Snapshot() == old(repo.Snapshot())
  {
    hide TransitionError, Transitioned, Continues;
    MovesNothing(repo.Snapshot(), id, freshId);
    if !repo.workflows[id].status.Executing? {
      return;
    }
    CompleteGoesThrough(repo.Snapshot(), id, freshId, now);
    TransitionContinues(repo.Snapshot(), id, Details(repo.workflows[id].version, ExecutionCompleted, "", ""), freshId, now);
    var _ := repo.Transition(id, Details(repo.workflows[id].version, ExecutionCompleted, "", ""), freshId, now, now);
  }

  /** The error texts the daemon writes itself are not blank, whatever stands before them. */
  lemma OwnTextsNotBlank(before: string)
    ensures Text.TrimSpace(MARK_FAILED_ERROR) != "" && Text.TrimSpace(INVALID_JOB) != ""
    ensures !Text.IsBlank(before + MARK_FAILED_ERROR) && !Text.IsBlank(before + CANCELED_ERROR) && !Text.IsBlank(INVALID_DISPATCH)
  {
    Text.TrimSpaceEmpty(MARK_FAILED_ERROR);
    Text.TrimSpaceEmpty(INVALID_JOB);
    assert MARK_FAILED_ERROR[0] == 'm' && INVALID_JOB[0] == 'i' && INVALID_DISPATCH[0] == 'i';
    assert (before + MARK_FAILED_ERROR)[|before|] == 'm' && (before + CANCELED_ERROR)[|before|] == 'c';
  }

  /**
    What a call makes of an EXECUTING workflow: it moves on, fails with a code and a message,
    or stays as it is, with an error for the queue or cut short.
   */
  datatype Verdict = MovesOn | Fails(code: string, message: string) | Leaves(text: string) | Stops

  /** An error of the call itself: the workflow's failure on a last attempt or a stall, the queue's otherwise. */
  function SettledAs(last: bool, code: string, message: string): Verdict {
    if !last && code != "EXECUTOR_STALLED" then Leaves(message)
    else if Text.TrimSpace(message) == "" then Leaves(message + "\n" + MARK_FAILED_ERROR)
    else Fails(code, message)
  }

  /** A pause or a failed run fails the workflow at once, on any attempt; a blank message makes it an error of the call. */
  function VerdictOf(work: Work, last: bool): Verdict {
    match work
    case Completes => MovesOn
    case Pauses(code, message) =>
      if Text.TrimSpace(message) != "" then Fails(code, message) else SettledAs(last, "EXECUTOR_FAILED", INVALID_JOB)
    case RunFails(code, message) =>
      if Text.TrimSpace(message) != "" then Fails(code, message) else SettledAs(last, "EXECUTOR_FAILED", MARK_FAILED_ERROR)
    case Errs(code, message) => SettledAs(last, code, message)
    case Cancelled(context) => Leaves(context + CANCELED_ERROR)
    case CutShort => Stops
  }

  /** The call's reply and the workflow's row are what the verdict says. */
  predicate Delivers(verdict: Verdict, reply: Reply, before: Job, after: Job) {
    match verdict
    case MovesOn => reply.Returned? && after.status.Checking?
    case Fails(code, message) => reply.Returned? && FailedFor(before, after, code, message)
    case Leaves(text) => reply == Errored(text) && after == before
    case Stops => reply.Interrupted? && after == before
  }

  /**
    The same without verdicts: what each end of the work leaves behind. A failure that has a
    message carries that message and its own code; one that has none is an error of the call.
   */
  lemma DeliveryTells(work: Work, last: bool, reply: Reply, before: Job, after: Job)
    requires Delivers(VerdictOf(work, last), reply, before, after)
    ensures work.Completes? ==> reply.Returned? && after.status.Checking?
    ensures work.CutShort? ==> reply.Interrupted? && after == before
    ensures work.Cancelled? ==> reply == Errored(work.context + ("c" + "ontext canceled")) && after == before
    ensures work.Pauses? || work.RunFails? || work.Errs? ==>
              var blank := Text.TrimSpace(work.message) == "";
              var own := "m" + "ark workflow failed after Executor failure";
              var text := if work.Pauses? then "i" + "nvalid workflow job" else own;
              if work.Errs? && !last && work.code != "EXECUTOR_STALLED" then reply == Errored(work.message) && after == before
              else if !blank then
                && reply.Returned? && after.status == Status.Failed && after.retryStatus == Some(before.status)
                && after.failureMessage == Text.TrimSpace(work.message)
                && after.failureCode == (if Text.TrimSpace(work.code) == "" then "STAGE_FAILED" else Text.TrimSpace(work.code))
              else if work.Errs? then reply == Errored(work.message + "\n" + own) && after == before
              else if !last then reply == Errored(text) && after == before
              else
                && reply.Returned? && after.status == Status.Failed && after.retryStatus == Some(before.status)
                && after.failureMessage == Text.TrimSpace(text) && after.failureCode == "EXECUTOR_FAILED"
  {
    OwnTextsNotBlank("");
    ExecutorFailedIsTrimmed();
    hide Text.TrimSpace;
  }

  lemma ExecutorFailedIsTrimmed()
    ensures Text.TrimSpace("EXECUTOR_FAILED") == "EXECUTOR_FAILED"
  {
    Text.TrimSpaceKeeps("EXECUTOR_FAILED", 0, 15);
  }

  /** The guard of CONTINUE_EXECUTION knows exactly the pauses of the executor's loop. */
  lemma PauseCodesAre(code: string)
    ensures IsExecutorPauseCode(code) <==> exists p: L.PauseCode :: L.CodeName(p) == code
    ensures L.CodeName(L.BudgetExhausted) == "EXECUTOR_BUDGET_EXHAUSTED" && L.CodeName(L.NoProgress) == "EXECUTOR_NO_PROGRESS"
    ensures L.CodeName(L.RepeatedToolFailure) == "EXECUTOR_REPEATED_TOOL_FAILURE"
    ensures L.CodeName(L.RepeatedAction) == "EXECUTOR_REPEATED_ACTION" && L.CodeName(L.ToolCallLimit) == "EXECUTOR_TOOL_CALL_LIMIT"
  {
    assert L.CodeName(L.BudgetExhausted) == "EXECUTOR_BUDGET_EXHAUSTED" && L.CodeName(L.NoProgress) == "EXECUTOR_NO_PROGRESS";
    assert L.CodeName(L.RepeatedToolFailure) == "EXECUTOR_REPEATED_TOOL_FAILURE";
    assert L.CodeName(L.RepeatedAction) == "EXECUTOR_REPEATED_ACTION" && L.CodeName(L.ToolCallLimit) == "EXECUTOR_TOOL_CALL_LIMIT";
  }

  /** A workflow that was paused, and no other that failed in EXECUTING, can be continued within its turns. */
  lemma PausedContinuesIff(before: Job, after: Job, code: string, message: string, turns: int)
    requires FailedFor(before, after, code, message) && before.status.Executing? && after.version >= 1
    requires after.limits.maxStageAttempts >= 1
    ensures TransitionError(after, TransitionInput(after.version, ContinueExecution, "", "", turns, Some(0))).None? <==>
              && (exists p: L.PauseCode :: L.CodeName(p) == Text.TrimSpace(code))
              && 1 <= turns <= 64 && after.limits.maxExecutorTurns + turns <= 128
  {
    PauseCodesAre(Text.TrimSpace(code));
    hide Text.TrimSpace, L.CodeName;
  }

  /** settleFinalDispatchFailure: a last attempt's error, or a stall, fails the workflow instead of the queue job. */
  method Settle(repo: Repository, id: WorkflowId, dispatch: JobId, last: bool, code: string, message: string, freshId: JobId, now: int)
    returns (reply: Reply)
    requires repo.Snapshot().Logged() && freshId !in repo.queue.rows && id in repo.workflows
    requires repo.workflows[id].status.Executing? && repo.workflows[id].version >= 1
    requires repo.workflows[id].currentDispatch == Some(dispatch)
    modifies repo, repo.queue
    ensures OnlyMoves(old(repo.Snapshot()), repo.Snapshot(), id, freshId) && repo.queue.rows == old(repo.queue.rows)
    ensures Delivers(SettledAs(last, code, message), reply, old(repo.workflows)[id], repo.workflows[id])
    ensures reply.Returned? <==> (last || code == EXECUTOR_STALLED) && Text.TrimSpace(message) != ""
    ensures !reply.Returned? ==> reply.Errored? && repo.Snapshot() == old(repo.Snapshot())
    ensures reply.Errored? && last ==> !Text.IsBlank(reply.text)
  {
    hide Text.TrimSpace, OnlyMoves, FailedFor;
    MovesNothing(repo.Snapshot(), id, freshId);
    if !last && code != EXECUTOR_STALLED {
      return Errored(message);
    }
    var settled, error := MarkWorkflowFailed(repo, id, dispatch, code, message, freshId, now);
    if error.Some? {
      OwnTextsNotBlank(message + "\n");
      return Errored(message + "\n" + error.value);
    }
    return Returned;
  }

  /** The executor's work on an EXECUTING workflow, and what becomes of the workflow. */
  method CarryOut(repo: Repository, id: WorkflowId, dispatch: JobId, last: bool, work: Work, freshId: JobId, now: int)
    returns (reply: Reply)
    requires repo.Snapshot().Logged() && freshId !in repo.queue.rows && id in repo.workflows
    requires repo.workflows[id].status.Executing? && repo.workflows[id].version >= 1
    requires repo.workflows[id].currentDispatch == Some(dispatch) && repo.workflows[id].limits.maxStageAttempts >= 1
    modifies repo, repo.queue
    ensures OnlyMoves(old(repo.Snapshot()), repo.Snapshot(), id, freshId)
    ensures Delivers(VerdictOf(work, last), reply, old(repo.workflows)[id], repo.workflows[id])
    ensures reply.Errored? && last ==> !Text.IsBlank(reply.text)
  {
    hide Text.TrimSpace, OnlyMoves, StoredCode;
    MovesNothing(repo.Snapshot(), id, freshId);
    OwnTextsNotBlank("");
    match work
    case CutShort => reply := Interrupted;
    case Cancelled(context) =>
      OwnTextsNotBlank(context);
      reply := Errored(context + CANCELED_ERROR);
    case Completes =>
      FinishWorkflow(repo, id, freshId, now);
      reply := Returned;
    case Pauses(code, message) =>
      var error := PauseWorkflow(repo, id, code, message, freshId, now);
      reply := Returned;
      if error.Some? {
        reply := Settle(repo, id, dispatch, last, R.EXECUTOR_FAILED, error.value, freshId, now);
      }
    case RunFails(code, message) =>
      var settled, error := MarkWorkflowFailed(repo, id, dispatch, code, message, freshId, now);
      reply := Returned;
      if error.Some? {
        reply := Settle(repo, id, dispatch, last, R.EXECUTOR_FAILED, error.value, freshId, now);
      }
    case Errs(code, message) =>
      reply := Settle(repo, id, dispatch, last, code, message, freshId, now);
  }

  /** The errors a last attempt cannot turn into the workflow's failure: blank ones, and cancellations. */
  predicate LeavesOpen(work: Work) {
    (work.Errs? && Text.TrimSpace(work.message) == "") || work.Cancelled?
  }

  lemma MovesNothing(db: Db, id: WorkflowId, freshId: JobId)
    requires db.Logged() && id in db.workflows
    ensures OnlyMoves(db, db, id, freshId)
  {
    hide HandledReachable;
  }

  /** The row the executor's work finds: EXECUTING with its dispatch, one version on if it was QUEUED. */
  predicate IsTakenUp(before: Job, executing: Job) {
    && executing.status.Executing? && executing.currentDispatch == before.currentDispatch && executing.limits == before.limits
    && executing.version == before.version + (if before.status.Queued? then 1 else 0)
    && (before.status.Executing? ==> executing == before)
  }

  /** HandleDurable for a dispatch the gate let through. */
  method Handle(repo: Repository, id: WorkflowId, dispatch: JobId, payloadVersion: nat, last: bool, work: Work,
                freshId: JobId, now: int)
    returns (reply: Reply)
    requires repo.Snapshot().Logged() && freshId !in repo.queue.rows && id in repo.workflows
    requires IsOpen(repo.workflows[id].status) && repo.workflows[id].version >= 1
    requires repo.workflows[id].currentDispatch == Some(dispatch) && repo.workflows[id].limits.maxStageAttempts >= 1
    requires repo.workflows[id].status.Queued? ==> repo.workflows[id].version == payloadVersion  // by GateOpensIff
    modifies repo, repo.queue
    ensures OnlyMoves(old(repo.Snapshot()), repo.Snapshot(), id, freshId)
    ensures exists executing: Job ::
              && IsTakenUp(old(repo.workflows)[id], executing)
              && Delivers(VerdictOf(work, last), reply, executing, repo.workflows[id])
    ensures reply.Interrupted? <==> work.CutShort?
    ensures reply.Returned? ==> !IsOpen(repo.workflows[id].status)
    ensures !reply.Returned? ==>
              repo.workflows[id].status.Executing? && repo.workflows[id].currentDispatch == Some(dispatch)
    ensures last && !work.CutShort? ==> (reply.Returned? <==> !LeavesOpen(work))
    ensures reply.Errored? && last ==> !Text.IsBlank(reply.text)
  {
    hide Text.TrimSpace, OnlyMoves, StoredCode;
    ghost var before := repo.Snapshot();
    EnsureExecuting(repo, id, payloadVersion, freshId, now);
    ghost var executing := repo.Snapshot();
    MovedIsLogged(before, executing, id, freshId);
    reply := CarryOut(repo, id, dispatch, last, work, freshId, now);
    MovesTransitive(before, executing, repo.Snapshot(), id, freshId);
    assert IsTakenUp(before.workflows[id], executing.workflows[id]);
    VerdictOnLast(work);
  }

  /** On a last attempt an error stays with the queue exactly for the two kinds of work that leave the workflow open. */
  lemma VerdictOnLast(work: Work)
    ensures !work.CutShort? ==> (VerdictOf(work, true).Leaves? <==> LeavesOpen(work))
    ensures forall last :: VerdictOf(work, last).Stops? <==> work.CutShort?
  {
    hide Text.TrimSpace;
    OwnTextsNotBlank("");
  }

  lemma MovedIsLogged(a: Db, b: Db, id: WorkflowId, freshId: JobId)
    requires OnlyMoves(a, b, id, freshId)
    ensures b.Logged() && id in b.workflows
  {
  }

  lemma MovesTransitive(a: Db, b: Db, c: Db, id: WorkflowId, freshId: JobId)
    requires OnlyMoves(a, b, id, freshId) && OnlyMoves(b, c, id, freshId)
    ensures OnlyMoves(a, c, id, freshId)
  {
    ContinuesTransitive(a, b, c);
    hide Continues;
  }

  // ----- the call and the queue -----

  /**
    A claimed dispatch, handled and reported to the queue: after a call that returns, the
    workflow either has left QUEUED and EXECUTING or its dispatch is queued again. Startup
    recovery would find nothing to repair, except after a last attempt whose payload does not
    decode or whose error is blank or a cancellation; and it could always repair that.
   */
  method Process(repo: Repository, ghost s: System, dispatch: JobId, work: Work, freshId: JobId, retryAt: int, now: int)
    returns (reply: Reply)
    requires Reachable(s) && s.db == repo.Snapshot() && freshId !in repo.queue.rows
    requires dispatch in repo.queue.rows && repo.queue.rows[dispatch].status.JobRunning?
    requires repo.queue.rows[dispatch].jobType.Execute?
    modifies repo, repo.queue
    ensures var queued := old(repo.queue.rows)[dispatch];
            var id := queued.payload.workflow;
            && id in old(repo.workflows) && id in repo.workflows
            && (old(repo.workflows)[id].currentDispatch != Some(dispatch) ==>
                  repo.workflows == old(repo.workflows) && repo.log == old(repo.log))
            && (old(repo.workflows)[id].currentDispatch == Some(dispatch) && !reply.Interrupted? ==>
                  && (R.DispatchEnded(repo.Snapshot(), id) <==>
                      IsLast(queued) && (!Decodes(queued.payload) || LeavesOpen(work)))
                  && !R.Unrecoverable(repo.Snapshot(), id))
    ensures Continues(old(repo.Snapshot()), repo.Snapshot())
    ensures var queued := old(repo.queue.rows)[dispatch];
            var id := queued.payload.workflow;
            if !Decodes(queued.payload) then reply == Errored(INVALID_DISPATCH) && repo.workflows == old(repo.workflows)
            else if old(repo.workflows)[id].currentDispatch != Some(dispatch) then reply.Returned?
            else exists executing: Job ::
                   && IsTakenUp(old(repo.workflows)[id], executing)
                   && Delivers(VerdictOf(work, IsLast(queued)), reply, executing, repo.workflows[id])
    ensures dispatch in repo.queue.rows && repo.queue.rows[dispatch] == ReportedRow(old(repo.queue.rows)[dispatch], reply, retryAt, now)
    ensures repo.queue.rows.Keys <= old(repo.queue.rows.Keys) + {freshId}
    ensures forall job :: job in old(repo.queue.rows) && job != dispatch ==>
              job in repo.queue.rows && repo.queue.rows[job] == old(repo.queue.rows)[job]
    ensures forall other :: other in repo.workflows && other != old(repo.queue.rows)[dispatch].payload.workflow ==>
              other in old(repo.workflows) && repo.workflows[other] == old(repo.workflows)[other]
  {
    hide Reachable, CompletedRow, Text.TrimSpace, FailedRow, Decodes, LeavesOpen, Continues, R.HidesItsMessage, Delivers, VerdictOf,
         IsTakenUp;
    ghost var before := repo.Snapshot();
    var queued := repo.queue.rows[dispatch];
    var id := queued.payload.workflow;
    NoJobFromTheFuture(s, dispatch);
    Readiness(s, id);
    if !Decodes(queued.payload) {
      OwnTextsNotBlank("");
      FailsClean(repo.Snapshot(), dispatch, INVALID_DISPATCH, retryAt, now);
      var _ := repo.queue.Fail(dispatch, INVALID_DISPATCH, retryAt, now);
      return Errored(INVALID_DISPATCH);
    }
    GateOpensIff(s, dispatch);
    if repo.workflows[id].currentDispatch != Some(dispatch) {
      QueueContinues(repo.Snapshot(), CompleteJob(dispatch, now));
      var _ := repo.queue.Complete(dispatch, now);
      return Returned;
    }
    reply := Handle(repo, id, dispatch, queued.payload.version, IsLast(queued), work, freshId, now);
    ghost var handled := repo.Snapshot();
    match reply
    case Interrupted =>
    case Returned =>
      QueueContinues(handled, CompleteJob(dispatch, now));
      var _ := repo.queue.Complete(dispatch, now);
      ContinuesTransitive(before, handled, repo.Snapshot());
    case Errored(text) =>
      FailsClean(handled, dispatch, text, retryAt, now);
      var _ := repo.queue.Fail(dispatch, text, retryAt, now);
      ContinuesTransitive(before, handled, repo.Snapshot());
  }

  /** The queue row after a reply: completed, failed with its text, or still RUNNING. */
  function ReportedRow(queued: QueueJob, reply: Reply, retryAt: int, now: int): QueueJob {
    match reply
    case Returned => CompletedRow(queued, now)
    case Errored(text) => FailedRow(queued, text, retryAt, now)
    case Interrupted => queued
  }

  /** A job failed with a text that is not blank if it was the last attempt: recovery can use its error. */
  lemma FailsClean(db: Db, dispatch: JobId, text: string, retryAt: int, now: int)
    requires dispatch in db.queue && db.queue[dispatch].status.JobRunning?
    requires IsLast(db.queue[dispatch]) ==> !Text.IsBlank(text)
    ensures var j := FailedRow(db.queue[dispatch], text, retryAt, now);
            && j.status == (if IsLast(db.queue[dispatch]) then JobDead else JobQueued)
            && j.jobType == db.queue[dispatch].jobType
            && (j.status.JobDead? ==> !R.HidesItsMessage(j.lastError))
    ensures Continues(db, db.(queue := db.queue[dispatch := FailedRow(db.queue[dispatch], text, retryAt, now)]))
  {
    hide Continues;
    QueueContinues(db, FailJob(dispatch, text, retryAt, now));
  }

  /** What every reachable row satisfies, as the handler relies on it. */
  lemma Readiness(s: System, id: WorkflowId)
    requires Reachable(s) && id in s.db.workflows
    ensures s.db.Logged() && s.db.workflows[id].version >= 1 && s.db.workflows[id].limits.maxStageAttempts >= 1
    ensures s.db.workflows[id].currentDispatch.Some? ==>
              && s.db.workflows[id].currentDispatch.value in s.db.queue
              && (s.db.queue[s.db.workflows[id].currentDispatch.value].jobType.Execute? ==> IsOpen(s.db.workflows[id].status))
  {
    hide Reachable;
    ReachableWorkflow(s, id);
    DispatchAgreement(s, id);
  }
}
