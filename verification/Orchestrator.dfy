/**
  Whole runs of the daemon's database: workflows, log, queue and execution rows,
  changed by API calls, by handlers, by the scheduler and by startup recovery in
  any order. A crash loses no committed row, so a run may stop after any step and
  continue with the startup steps.
 */
module Orchestrator {
  import opened Wrappers
  import opened WorkflowTransition
  import opened JobQueue
  import opened WorkflowLog
  import opened WorkflowRepository
  import Text

  datatype ExecutionStatus = ExecPending | ExecRunning | ExecCompleted | ExecFailed | ExecCancelled

  datatype Execution = Execution(status: ExecutionStatus, failureCode: Option<string>, failureMessage: Option<string>)

  /** `born` remembers the limits a workflow was created with; no statement reads it. */
  datatype System = System(db: Db, executions: map<(WorkflowId, nat), Execution>, born: map<WorkflowId, Limits>)

  const INITIAL := System(Db(map[], map[], map[]), map[], map[])

  datatype Step =
    | CreateWorkflow(id: WorkflowId, input: CreateInput, now: int)
    | Act(id: WorkflowId, transition: TransitionInput, freshId: JobId, now: int, enqueuedAt: int)
    | ClaimJob(job: JobId, worker: string, now: int, types: Option<set<JobType>>)
    | CompleteJob(job: JobId, now: int)
    | FailJob(job: JobId, failure: string, retryAt: int, now: int)
    | RecoverStale(before: int, now: int)
    | RecoverInterrupted(now: int)
    | WriteExecution(id: WorkflowId, version: nat, row: Execution)

  ghost predicate Enabled(s: System, step: Step) {
    match step
    case CreateWorkflow(id, input, _) => id !in s.db.workflows && CreateError(s.db.workflows, input).None?
    case Act(id, transition, freshId, _, _) =>
      && s.db.Logged() && id in s.db.workflows && freshId !in s.db.queue
      && TransitionError(s.db.workflows[id], transition).None?
    case ClaimJob(job, _, now, types) => IsFirst(s.db.queue, Runnable(s.db.queue, now, types), job)
    case CompleteJob(job, _) => job in s.db.queue && s.db.queue[job].status.JobRunning?
    case FailJob(job, _, _, _) => job in s.db.queue && s.db.queue[job].status.JobRunning?
    case RecoverStale(_, _) => true
    case RecoverInterrupted(_) => true
    case WriteExecution(id, _, _) => id in s.db.workflows
  }

  ghost function QueueAfter(rows: Rows, step: Step): Rows
    requires step.ClaimJob? || step.CompleteJob? || step.FailJob? ==> step.job in rows
  {
    match step
    case ClaimJob(job, worker, now, _) => rows[job := ClaimedRow(rows[job], worker, now)]
    case CompleteJob(job, now) => rows[job := CompletedRow(rows[job], now)]
    case FailJob(job, failure, retryAt, now) => rows[job := FailedRow(rows[job], failure, retryAt, now)]
    case RecoverStale(before, now) => StaleRecovered(rows, before, now)
    case RecoverInterrupted(now) => InterruptedRecovered(rows, now)
    case _ => rows
  }

  ghost function After(s: System, step: Step): System
    requires Enabled(s, step)
  {
    match step
    case CreateWorkflow(id, input, now) =>
      s.(db := s.db.(workflows := s.db.workflows[id := NewWorkflow(input, now)], log := s.db.log[id := [CreationEntry(now)]]),
         born := s.born[id := NormalizeLimits(input.limits)])
    case Act(id, transition, freshId, now, enqueuedAt) =>
      s.(db := Transitioned(s.db, id, transition, freshId, now, enqueuedAt))
    case WriteExecution(id, version, row) => s.(executions := s.executions[(id, version) := row])
    case _ => s.(db := s.db.(queue := QueueAfter(s.db.queue, step)))
  }

  // ----- what every run keeps -----

  /** The log entry that enqueued the current dispatch: EXECUTION_STARTED keeps its predecessor's. */
  function DispatchEntry(log: Log): Entry
    requires log != []
  {
    if Last(log).action.ExecutionStarted? && |log| > 1 then log[|log| - 2] else Last(log)
  }

  /** The current dispatch: present exactly in the active stages, of the stage's type, tagged by the entry that made it. */
  ghost predicate DispatchAgrees(db: Db, id: WorkflowId)
    requires db.Logged() && id in db.workflows && db.log[id] != []
  {
    var job, e := db.workflows[id], DispatchEntry(db.log[id]);
    && (job.currentDispatch.Some? <==> IsActiveStage(job.status))
    && (job.currentDispatch.Some? ==>
          && job.currentDispatch.value in db.queue
          && var queued := db.queue[job.currentDispatch.value];
             && Some(queued.jobType) == StageType(job.status)
             && queued.payload == Dispatch(id, e.version, e.action, e.to))
  }

  /** Limits only grow by CONTINUE_EXECUTION, and the revision budget pays for every QUEUE_REVISION. */
  ghost predicate WithinLimits(job: Job, log: Log, born: Limits) {
    && ValidLimits(born) && ValidLimits(job.limits)
    && job.limits.maxRevisions == born.maxRevisions
    && job.limits.maxExecutorTurns >= born.maxExecutorTurns + Count(log, ContinueExecution)
    && RevisionsWithin(log, born.maxRevisions)
  }

  ghost predicate WorkflowInvariant(s: System, id: WorkflowId)
    requires s.db.Logged() && id in s.db.workflows
  {
    && id in s.born
    && CachesLog(s.db.workflows[id], s.db.log[id])
    && WithinLimits(s.db.workflows[id], s.db.log[id], s.born[id])
    && DispatchAgrees(s.db, id)
  }

  /** No queued message comes from a workflow's future. */
  ghost predicate NotAhead(db: Db, job: JobId)
    requires job in db.queue
  {
    var payload := db.queue[job].payload;
    payload.workflow in db.workflows && payload.version <= db.workflows[payload.workflow].version
  }

  /** Two unfinished workflows never share a plan version and a repository. */
  ghost predicate OneActive(workflows: map<WorkflowId, Job>, a: WorkflowId, b: WorkflowId)
    requires a in workflows && b in workflows
  {
    a != b && workflows[a].origin.planVersion == workflows[b].origin.planVersion
           && workflows[a].origin.repository == workflows[b].origin.repository
    ==> IsTerminal(workflows[a].status) || IsTerminal(workflows[b].status)
  }

  ghost predicate WorkflowsHold(s: System) {
    s.db.Logged() && forall id :: id in s.db.workflows ==> WorkflowInvariant(s, id)
  }

  ghost predicate JobsHold(db: Db) {
    forall job :: job in db.queue ==> NotAhead(db, job)
  }

  ghost predicate ActiveHold(workflows: map<WorkflowId, Job>) {
    forall a, b :: a in workflows && b in workflows ==> OneActive(workflows, a, b)
  }

  // ----- each step keeps it -----

  predicate IsQueueStep(step: Step) {
    !step.CreateWorkflow? && !step.Act? && !step.WriteExecution?
  }

  /** Queue statements change neither which jobs exist nor what they say. */
  lemma QueueStepKeepsMessages(rows: Rows, step: Step)
    requires IsQueueStep(step)
    requires step.ClaimJob? || step.CompleteJob? || step.FailJob? ==> step.job in rows
    ensures QueueAfter(rows, step).Keys == rows.Keys
    ensures forall job :: job in rows ==> QueueAfter(rows, step)[job].jobType == rows[job].jobType
    ensures forall job :: job in rows ==> QueueAfter(rows, step)[job].payload == rows[job].payload
  {
  }

  lemma QueueStepKeepsWorkflow(s: System, step: Step, id: WorkflowId)
    requires IsQueueStep(step) && Enabled(s, step)
    requires s.db.Logged() && id in s.db.workflows && WorkflowInvariant(s, id)
    ensures WorkflowInvariant(After(s, step), id)
  {
    QueueStepKeepsMessages(s.db.queue, step);
  }

  lemma NewWorkflowHolds(s: System, step: Step)
    requires s.db.Logged() && step.CreateWorkflow? && Enabled(s, step)
    ensures WorkflowInvariant(After(s, step), step.id)
  {
    NewWorkflowCachesLog(step.input, step.now);
    var log := [CreationEntry(step.now)];
    assert log[..0] == [];
  }

  /** A transition keeps its own workflow's limits. */
  lemma TransitionKeepsLimits(job: Job, log: Log, born: Limits, input: TransitionInput, dispatch: Option<JobId>, now: int)
    requires CachesLog(job, log) && WithinLimits(job, log, born) && TransitionError(job, input).None?
    ensures var row := RowWith(job, input, dispatch, now);
            WithinLimits(row, log + [EntryFor(job, row, input)], born)
  {
    var row := RowWith(job, input, dispatch, now);
    var longer := log + [EntryFor(job, row, input)];
    assert longer[..|longer| - 1] == log;
    assert Count(longer, ContinueExecution) == Count(log, ContinueExecution) + if input.action.ContinueExecution? then 1 else 0;
  }

  /** A transition leaves its own workflow with the right dispatch. */
  lemma TransitionKeepsDispatch(db: Db, id: WorkflowId, input: TransitionInput, freshId: JobId, now: int, enqueuedAt: int)
    requires db.Logged() && id in db.workflows && TransitionError(db.workflows[id], input).None?
    requires CachesLog(db.workflows[id], db.log[id]) && DispatchAgrees(db, id)
    ensures DispatchAgrees(Transitioned(db, id, input, freshId, now, enqueuedAt), id)
  {
    var job, log := db.workflows[id], db.log[id];
    var row := RowAfter(id, job, input, freshId, now, enqueuedAt);
    var e := EntryFor(job, row, input);
    DispatchMatchesStage(job.status, input.action, job.retryStatus);
    assert Last(log + [e]) == e;
    assert (log + [e])[|log| - 1] == Last(log);
    if input.action.ExecutionStarted? && |log| > 1 {
      assert EntryJustified(log, |log| - 1);
    }
  }

  lemma TransitionKeepsOwn(s: System, step: Step)
    requires s.db.Logged() && step.Act? && Enabled(s, step) && WorkflowInvariant(s, step.id)
    ensures WorkflowInvariant(After(s, step), step.id)
  {
    var id, input := step.id, step.transition;
    var job, log := s.db.workflows[id], s.db.log[id];
    TransitionKeepsCache(s.db, id, input, step.freshId, step.now, step.enqueuedAt);
    TransitionKeepsLimits(job, log, s.born[id], input,
                          DispatchAfter(id, job, input, step.freshId, step.now, step.enqueuedAt), step.now);
    TransitionKeepsDispatch(s.db, id, input, step.freshId, step.now, step.enqueuedAt);
  }

  /** The enqueued job is a fresh row, so other workflows keep their dispatches. */
  lemma TransitionKeepsOther(s: System, step: Step, id: WorkflowId)
    requires s.db.Logged() && step.Act? && Enabled(s, step)
    requires id in s.db.workflows && id != step.id && WorkflowInvariant(s, id)
    ensures WorkflowInvariant(After(s, step), id)
  {
    var t := After(s, step);
    assert t.db.workflows[id] == s.db.workflows[id] && t.db.log[id] == s.db.log[id];
    assert forall job :: job in s.db.queue ==> job in t.db.queue && t.db.queue[job] == s.db.queue[job];
  }

  lemma StepKeepsWorkflow(s: System, step: Step, id: WorkflowId)
    requires s.db.Logged() && Enabled(s, step) && id in After(s, step).db.workflows
    requires id in s.db.workflows ==> WorkflowInvariant(s, id)
    ensures WorkflowInvariant(After(s, step), id)
  {
    if IsQueueStep(step) {
      QueueStepKeepsWorkflow(s, step, id);
    } else if step.Act? {
      if id == step.id {
        TransitionKeepsOwn(s, step);
      } else {
        TransitionKeepsOther(s, step, id);
      }
    } else if step.CreateWorkflow? && id == step.id {
      NewWorkflowHolds(s, step);
    }
  }

  lemma StepKeepsWorkflows(s: System, step: Step)
    requires WorkflowsHold(s) && Enabled(s, step)
    ensures WorkflowsHold(After(s, step))
  {
    var t := After(s, step);
    forall id | id in t.db.workflows
      ensures WorkflowInvariant(t, id)
    {
      StepKeepsWorkflow(s, step, id);
    }
  }

  lemma StepKeepsJobs(s: System, step: Step)
    requires s.db.Logged() && JobsHold(s.db) && Enabled(s, step)
    ensures JobsHold(After(s, step).db)
  {
    var t := After(s, step);
    if IsQueueStep(step) {
      QueueStepKeepsMessages(s.db.queue, step);
    }
    forall job | job in t.db.queue
      ensures NotAhead(t.db, job)
    {
      if job in s.db.queue {
        assert NotAhead(s.db, job);
      }
    }
  }

  lemma StepKeepsActive(s: System, step: Step)
    requires ActiveHold(s.db.workflows) && Enabled(s, step)
    ensures ActiveHold(After(s, step).db.workflows)
  {
    var workflows := After(s, step).db.workflows;
    if step.Act? {
      var job := s.db.workflows[step.id];
      if IsTerminal(job.status) {
        TerminalIsAbsorbing(job.status, step.transition.action, job.retryStatus);
      }
    }
    forall a, b | a in workflows && b in workflows
      ensures OneActive(workflows, a, b)
    {
      if a in s.db.workflows && b in s.db.workflows {
        assert OneActive(s.db.workflows, a, b);
      }
    }
  }

  ghost predicate Invariant(s: System) {
    WorkflowsHold(s) && JobsHold(s.db) && ActiveHold(s.db.workflows)
  }

  // ----- runs -----

  /** The state a sequence of steps leads to, if each is enabled when its turn comes. */
  ghost predicate Leads(s: System, steps: seq<Step>, t: System)
    decreases |steps|
  {
    if steps == [] then s == t
    else Enabled(s, steps[0]) && Leads(After(s, steps[0]), steps[1..], t)
  }

  ghost predicate Reachable(s: System) {
    exists steps :: Leads(INITIAL, steps, s)
  }

  /** Runs can be continued. */
  lemma {:induction false} LeadsOneMore(s: System, steps: seq<Step>, t: System, step: Step)
    requires Leads(s, steps, t) && Enabled(t, step)
    ensures Leads(s, steps + [step], After(t, step))
    decreases |steps|
  {
    var longer := steps + [step];
    if steps == [] {
      assert longer[1..] == [];
    } else {
      LeadsOneMore(After(s, steps[0]), steps[1..], t, step);
      assert longer[1..] == steps[1..] + [step];
    }
  }

  lemma ReachableStep(s: System, step: Step)
    requires Reachable(s) && Enabled(s, step)
    ensures Reachable(After(s, step))
  {
    var steps :| Leads(INITIAL, steps, s);
    LeadsOneMore(INITIAL, steps, s, step);
  }

  lemma {:induction false} RunKeeps(s: System, steps: seq<Step>, t: System)
    requires Invariant(s) && Leads(s, steps, t)
    ensures Invariant(t)
    decreases |steps|
  {
    if steps != [] {
      StepKeepsWorkflows(s, steps[0]);
      StepKeepsJobs(s, steps[0]);
      StepKeepsActive(s, steps[0]);
      RunKeeps(After(s, steps[0]), steps[1..], t);
    }
  }

  lemma ReachableInvariant(s: System)
    requires Reachable(s)
    ensures Invariant(s)
  {
    var steps :| Leads(INITIAL, steps, s);
    RunKeeps(INITIAL, steps, s);
  }

  lemma ReachableWorkflow(s: System, id: WorkflowId)
    requires Reachable(s) && id in s.db.workflows
    ensures s.db.Logged() && WorkflowInvariant(s, id)
  {
    ReachableInvariant(s);
  }

  // ----- the theorems -----

  /** In every reachable state each workflow row is exactly what its log says. */
  lemma RowIsCacheOfLog(s: System, id: WorkflowId)
    requires Reachable(s) && id in s.db.workflows
    ensures id in s.db.log && CachesLog(s.db.workflows[id], s.db.log[id])
  {
    ReachableWorkflow(s, id);
  }

  /**
    In every reachable state a workflow has a current dispatch exactly while a stage
    is active; it is a queue job of that stage carrying the row's version, or one
    less just after EXECUTION_STARTED.
   */
  lemma DispatchAgreement(s: System, id: WorkflowId)
    requires Reachable(s) && id in s.db.workflows
    ensures id in s.db.log && s.db.log[id] != []
    ensures var job := s.db.workflows[id];
            && (job.currentDispatch.Some? <==> IsActiveStage(job.status))
            && (job.currentDispatch.Some? ==>
                  && job.currentDispatch.value in s.db.queue
                  && var queued := s.db.queue[job.currentDispatch.value];
                     && Some(queued.jobType) == StageType(job.status)
                     && queued.payload.workflow == id
                     && queued.payload.version ==
                        job.version - (if Last(s.db.log[id]).action.ExecutionStarted? then 1 else 0))
  {
    ReachableWorkflow(s, id);
    var log := s.db.log[id];
    if |log| > 1 {
      assert EntryJustified(log, |log| - 1);
      if |log| > 2 {
        assert EntryJustified(log, |log| - 2);
      }
    }
  }

  /** In every reachable state no queue job, finished or not, carries a version its workflow has not reached. */
  lemma NoJobFromTheFuture(s: System, job: JobId)
    requires Reachable(s) && job in s.db.queue
    ensures var payload := s.db.queue[job].payload;
            payload.workflow in s.db.workflows && payload.version <= s.db.workflows[payload.workflow].version
  {
    ReachableInvariant(s);
    assert NotAhead(s.db, job);
  }

  /** At most one unfinished workflow per plan version and repository, in every reachable state. */
  lemma ActiveWorkflowIsUnique(s: System, a: WorkflowId, b: WorkflowId)
    requires Reachable(s) && a in s.db.workflows && b in s.db.workflows
    requires !IsTerminal(s.db.workflows[a].status) && !IsTerminal(s.db.workflows[b].status)
    requires s.db.workflows[a].origin.planVersion == s.db.workflows[b].origin.planVersion
    requires s.db.workflows[a].origin.repository == s.db.workflows[b].origin.repository
    ensures a == b
  {
    ReachableInvariant(s);
    assert OneActive(s.db.workflows, a, b);
  }

  /** The length of any run of one workflow is bounded by its steps back, and these by its limits. */
  lemma RunLengthBounds(s: System, id: WorkflowId)
    requires Reachable(s) && id in s.db.workflows
    ensures id in s.db.log && id in s.born
    ensures var job, log, born := s.db.workflows[id], s.db.log[id], s.born[id];
            && job.version <= 11 + 9 * (Count(log, Retry) + Count(log, Restart))
                                 + 8 * (Count(log, ContinueExecution) + Count(log, QueueRevision))
            && job.revisionCount <= born.maxRevisions
            && Count(log, QueueRevision) <= born.maxRevisions * (Count(log, Restart) + 1)
            && Count(log, ContinueExecution) <= MAX_TURNS - born.maxExecutorTurns
  {
    ReachableWorkflow(s, id);
    var job, log, born := s.db.workflows[id], s.db.log[id], s.born[id];
    RunLength(log);
    RevisionsArePaidFor(log, born.maxRevisions);
  }

  /** Without RETRY and RESTART a workflow takes a bounded number of steps, fixed when it is created. */
  lemma RunsWithoutRestartEnd(s: System, id: WorkflowId)
    requires Reachable(s) && id in s.db.workflows && id in s.db.log && id in s.born
    requires Count(s.db.log[id], Retry) == 0 && Count(s.db.log[id], Restart) == 0
    ensures s.db.workflows[id].version <= 11 + 8 * (MAX_TURNS - s.born[id].maxExecutorTurns + s.born[id].maxRevisions)
  {
    ReachableWorkflow(s, id);
    RunLength(s.db.log[id]);
    RevisionsArePaidFor(s.db.log[id], s.born[id].maxRevisions);
  }

  // ----- what a run has granted, and what it last failed for -----

  /** All turns CONTINUE_EXECUTION was asked for. */
  function Granted(steps: seq<Step>, id: WorkflowId): int {
    if steps == [] then 0
    else
      (if steps[0].Act? && steps[0].id == id && steps[0].transition.action.ContinueExecution?
       then steps[0].transition.additionalExecutorTurns else 0)
      + Granted(steps[1..], id)
  }

  /** Code and message of the last FAIL that nothing has answered; blank columns if there is none. */
  function Unanswered(steps: seq<Step>, id: WorkflowId, code: string, message: string): (string, string) {
    if steps == [] then (code, message)
    else if !steps[0].Act? || steps[0].id != id then Unanswered(steps[1..], id, code, message)
    else
      var input := steps[0].transition;
      match input.action
      case Fail =>
        var given := Text.TrimSpace(input.failureCode);
        Unanswered(steps[1..], id, if given == "" then "STAGE_FAILED" else given, Text.TrimSpace(input.failureMessage))
      case Retry | Restart | ContinueExecution => Unanswered(steps[1..], id, "", "")
      case _ => Unanswered(steps[1..], id, code, message)
  }

  lemma ActTells(s: System, step: Step)
    requires step.Act? && Enabled(s, step)
    ensures step.id in After(s, step).db.workflows
    ensures TellsAction(s.db.workflows[step.id], After(s, step).db.workflows[step.id], step.transition, step.now)
    ensures After(s, step).db.workflows == s.db.workflows[step.id := After(s, step).db.workflows[step.id]]
    ensures After(s, step).born == s.born
  {
    TransitionTells(s.db, step.id, step.transition, step.freshId, step.now, step.enqueuedAt);
    hide TransitionError, Transitioned;
  }

  /** Steps that are no transition of the workflow leave its row alone, unless they create it. */
  lemma OthersKeepRow(s: System, step: Step, id: WorkflowId)
    requires Enabled(s, step) && !(step.Act? && step.id == id)
    ensures id in s.db.workflows ==>
              && id in After(s, step).db.workflows && After(s, step).db.workflows[id] == s.db.workflows[id]
              && (id in s.born ==> id in After(s, step).born && After(s, step).born[id] == s.born[id])
    ensures id !in s.db.workflows && id in After(s, step).db.workflows ==>
              && id in After(s, step).born
              && var row := After(s, step).db.workflows[id];
                 row.limits == After(s, step).born[id] && row.failureCode == "" == row.failureMessage
  {
    hide TransitionError, CreateError, NormalizeLimits, IsFirst, Runnable;
  }

  lemma {:induction false} RunTells(s: System, steps: seq<Step>, t: System, id: WorkflowId)
    requires Leads(s, steps, t) && id in t.db.workflows && (id in s.db.workflows ==> id in s.born)
    ensures id in t.born
    ensures var turns := if id in s.db.workflows then s.db.workflows[id].limits.maxExecutorTurns - s.born[id].maxExecutorTurns else 0;
            t.db.workflows[id].limits.maxExecutorTurns == t.born[id].maxExecutorTurns + turns + Granted(steps, id)
    ensures var code, message := if id in s.db.workflows then s.db.workflows[id].failureCode else "",
                                 if id in s.db.workflows then s.db.workflows[id].failureMessage else "";
            (t.db.workflows[id].failureCode, t.db.workflows[id].failureMessage) == Unanswered(steps, id, code, message)
    decreases |steps|
  {
    hide Enabled, After, Text.TrimSpace, NextStatus;
    if steps != [] {
      var step := steps[0];
      var next := After(s, step);
      if step.Act? && step.id == id {
        ActTells(s, step);
        ActNeedsRow(s, step);
      } else {
        OthersKeepRow(s, step, id);
      }
      RunTells(next, steps[1..], t, id);
    }
  }

  lemma ActNeedsRow(s: System, step: Step)
    requires step.Act? && Enabled(s, step)
    ensures step.id in s.db.workflows
  {
  }

  /** In every run a workflow may take as many executor turns as it was created with and was granted since. */
  lemma TurnsAreGranted(steps: seq<Step>, s: System, id: WorkflowId)
    requires Leads(INITIAL, steps, s) && id in s.db.workflows
    ensures id in s.born
    ensures s.db.workflows[id].limits.maxExecutorTurns == s.born[id].maxExecutorTurns + Granted(steps, id)
  {
    RunTells(INITIAL, steps, s, id);
  }

  /** In every run the failure columns are those of the last FAIL that no RETRY, RESTART or CONTINUE_EXECUTION answered. */
  lemma FailureIsUnanswered(steps: seq<Step>, s: System, id: WorkflowId)
    requires Leads(INITIAL, steps, s) && id in s.db.workflows
    ensures (s.db.workflows[id].failureCode, s.db.workflows[id].failureMessage) == Unanswered(steps, id, "", "")
  {
    RunTells(INITIAL, steps, s, id);
  }

  // ----- which dispatches their handler accepts -----

  /** The check each handler makes on the decoded payload before it looks at the workflow. */
  predicate Accepts(handler: JobType, payload: Dispatch) {
    match handler
    case PrepareWorkspace =>
      payload.target.WorkspacePreparing? && (payload.action.Start? || payload.action.Retry? || payload.action.Restart?)
    case Execute => payload.target.Queued?
    case RunChecks => payload.action.ExecutionCompleted? && payload.target.Checking?
    case Review => payload.action.ChecksCompleted? && payload.target.Reviewing?
    case PublishPatch => payload.action.Publish? && payload.target.Publishing?
    case OtherType(_) => false
  }

  /** A handler takes what is bound for its own stage: QUEUED anyhow, another by a step that leads there, RETRY only to the start. */
  lemma AcceptsIff(handler: JobType, payload: Dispatch)
    ensures Accepts(handler, payload) <==>
              && StageType(payload.target) == Some(handler) && !payload.target.Executing?
              && (|| payload.target.Queued?
                  || exists current, retryStatus ::
                       && NextStatus(current, payload.action, retryStatus) == Some(payload.target)
                       && (payload.action.Retry? ==> payload.target.WorkspacePreparing?))
  {
    if Accepts(handler, payload) && !payload.target.Queued? {
      var current := match payload.action
                     case Start => Ready
                     case ExecutionCompleted => Executing
                     case ChecksCompleted => Checking
                     case Publish => Approved
                     case _ => Status.Failed;
      assert NextStatus(current, payload.action, Some(WorkspacePreparing)) == Some(payload.target);
    }
    forall current, retryStatus |
        && NextStatus(current, payload.action, retryStatus) == Some(payload.target)
        && StageType(payload.target) == Some(handler) && !payload.target.Executing? && !payload.target.Queued?
        && (payload.action.Retry? ==> payload.target.WorkspacePreparing?)
      ensures Accepts(handler, payload)
    {
      StepsInto(current, payload.action, retryStatus, payload.target);
      hide NextStatus;
    }
  }

  lemma AcceptedByStage(current: Status, action: Action, retryStatus: Option<Status>, id: WorkflowId, version: nat)
    requires NextStatus(current, action, retryStatus).Some?
    ensures var next := NextStatus(current, action, retryStatus).value;
            StageType(next).Some? && !action.ExecutionStarted? ==>
              (Accepts(StageType(next).value, Dispatch(id, version, action, next)) <==>
               !(action.Retry? && (next.Executing? || next.Checking? || next.Reviewing? || next.Publishing?)))
  {
  }

  /** The entry behind an active stage's dispatch is an ordinary step into a stage with the same handler. */
  lemma DispatchEntryStep(log: Log) returns (current: Status, retryStatus: Option<Status>)
    requires Justified(log) && IsActiveStage(Last(log).to)
    ensures var e := DispatchEntry(log);
            && NextStatus(current, e.action, retryStatus) == Some(e.to)
            && !e.action.ExecutionStarted?
            && StageType(e.to) == StageType(Last(log).to)
  {
    assert EntryJustified(log, |log| - 1);
    var k := if Last(log).action.ExecutionStarted? then |log| - 2 else |log| - 1;
    assert k > 0 && EntryJustified(log, k);
    current, retryStatus := log[k - 1].to, RetryStatusOf(log[..k]);
  }

  /**
    A stage's handler accepts the current dispatch except when RETRY went back to
    EXECUTING, CHECKING, REVIEWING or PUBLISHING: those handlers reject every payload
    a RETRY writes, so the stage cannot be resumed this way.
   */
  lemma DispatchAcceptedIff(s: System, id: WorkflowId)
    requires Reachable(s) && id in s.db.workflows && s.db.workflows[id].currentDispatch.Some?
    ensures id in s.db.log && s.db.log[id] != [] && s.db.workflows[id].currentDispatch.value in s.db.queue
    ensures var queued := s.db.queue[s.db.workflows[id].currentDispatch.value];
            var e := DispatchEntry(s.db.log[id]);
            Accepts(queued.jobType, queued.payload)
            <==> !(e.action.Retry? && (e.to.Executing? || e.to.Checking? || e.to.Reviewing? || e.to.Publishing?))
  {
    ReachableWorkflow(s, id);
    var current, retryStatus := DispatchEntryStep(s.db.log[id]);
    var e := DispatchEntry(s.db.log[id]);
    AcceptedByStage(current, e.action, retryStatus, id, e.version);
  }
}
