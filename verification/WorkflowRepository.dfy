/**
  The workflow rows and their transitions (internal/workflowjob/repository.go).
  A transition is one database transaction: a compare-and-swap on the row's
  version, the append to the log, and the enqueue of the stage's queue job.
 */
module WorkflowRepository {
  import opened Wrappers
  import opened WorkflowTransition
  import opened JobQueue
  import opened WorkflowLog
  import Text

  datatype Limits = Limits(
    maxRevisions: int, maxStageAttempts: int, maxExecutorTurns: int, maxToolCalls: int,
    maxConsecutiveToolErrors: int, maxNoProgressTurns: int, wallClockSeconds: int)

  const MAX_DETAILS_BYTES := 32 * 1024
  const MAX_TURNS := 128

  datatype Error =
    | NotFound | ProjectNotFound | PlanNotReady | InvalidJob | ActiveJob
    | VersionConflict | InvalidTransition | RevisionLimit

  /** What Create fixes for the lifetime of a workflow. */
  datatype Origin = Origin(planVersion: string, repository: string, baseBranch: string, baseCommit: string)

  datatype Job = Job(
    origin: Origin, status: Status, version: nat, currentDispatch: Option<JobId>, retryStatus: Option<Status>,
    executionVersion: nat, revisionCount: nat, limits: Limits, cancellationRequested: bool,
    failureCode: string, failureMessage: string, createdAt: int, updatedAt: int, completedAt: Option<int>)

  // ----- limits -----

  function OrDefault(value: int, default: int): int {
    if value == 0 then default else value
  }

  function NormalizeLimits(l: Limits): Limits {
    Limits(OrDefault(l.maxRevisions, 3), OrDefault(l.maxStageAttempts, 3), OrDefault(l.maxExecutorTurns, 32),
           OrDefault(l.maxToolCalls, 24), OrDefault(l.maxConsecutiveToolErrors, 3),
           OrDefault(l.maxNoProgressTurns, 4), OrDefault(l.wallClockSeconds, 3600))
  }

  predicate ValidLimits(l: Limits) {
    && 0 <= l.maxRevisions <= 20
    && 1 <= l.maxStageAttempts <= 10
    && 2 <= l.maxExecutorTurns <= MAX_TURNS
    && 1 <= l.maxToolCalls <= 1000
    && 1 <= l.maxConsecutiveToolErrors <= 10
    && 1 <= l.maxNoProgressTurns <= 20
    && 60 <= l.wallClockSeconds <= 86400
  }

  // ----- creation -----

  /** What the plan, plan version and repository tables say about the requested input. */
  datatype PlanLookup =
    | NoSuchProject
    | NotInProject
    | Found(planStatus: string, planVersion: string, currentBranch: string, headSha: string)

  datatype CreateInput = CreateInput(
    projectId: string, planId: string, repositoryId: string, baseBranch: string, limits: Limits, lookup: PlanLookup)

  /** An unfinished workflow for the same plan version and repository. */
  predicate HasActive(workflows: map<WorkflowId, Job>, planVersion: string, repository: string) {
    exists id :: id in workflows && !IsTerminal(workflows[id].status)
                 && workflows[id].origin.planVersion == planVersion && workflows[id].origin.repository == repository
  }

  function BranchOf(input: CreateInput): string
    requires input.lookup.Found?
  {
    if Text.TrimSpace(input.baseBranch) == "" then input.lookup.currentBranch else Text.TrimSpace(input.baseBranch)
  }

  /** The error Create reports, in the order it checks. */
  function CreateError(workflows: map<WorkflowId, Job>, input: CreateInput): Option<Error> {
    if Text.TrimSpace(input.projectId) == "" || Text.TrimSpace(input.planId) == "" || Text.TrimSpace(input.repositoryId) == "" then
      Some(InvalidJob)
    else if !ValidLimits(NormalizeLimits(input.limits)) then Some(InvalidJob)
    else match input.lookup
      case NoSuchProject => Some(ProjectNotFound)
      case NotInProject => Some(InvalidJob)
      case Found(planStatus, planVersion, _, headSha) =>
        if planStatus != "READY" && planStatus != "APPROVED" then Some(PlanNotReady)
        else if Text.TrimSpace(headSha) == "" then Some(InvalidJob)
        else if HasActive(workflows, planVersion, Text.TrimSpace(input.repositoryId)) then Some(ActiveJob)
        else None
  }

  function NewWorkflow(input: CreateInput, now: int): Job
    requires input.lookup.Found?
  {
    Job(Origin(input.lookup.planVersion, Text.TrimSpace(input.repositoryId), BranchOf(input), input.lookup.headSha),
        Ready, 1, None, None, 0, 0, NormalizeLimits(input.limits), false, "", "", now, now, None)
  }

  /** Zero limits take their defaults, others are taken as they are. */
  lemma DefaultLimits(l: Limits)
    ensures var given := {l.maxRevisions, l.maxStageAttempts, l.maxExecutorTurns, l.maxToolCalls, l.maxConsecutiveToolErrors,
                          l.maxNoProgressTurns, l.wallClockSeconds};
            0 !in given ==> NormalizeLimits(l) == l
    ensures l.maxExecutorTurns == 0 ==> NormalizeLimits(l) == NormalizeLimits(l.(maxExecutorTurns := 32))
    ensures l.maxRevisions == 0 ==> NormalizeLimits(l) == NormalizeLimits(l.(maxRevisions := 3))
    ensures l.maxStageAttempts == 0 ==> NormalizeLimits(l) == NormalizeLimits(l.(maxStageAttempts := 3))
    ensures l.maxToolCalls == 0 ==> NormalizeLimits(l) == NormalizeLimits(l.(maxToolCalls := 24))
    ensures l.maxConsecutiveToolErrors == 0 ==> NormalizeLimits(l) == NormalizeLimits(l.(maxConsecutiveToolErrors := 3))
    ensures l.maxNoProgressTurns == 0 ==> NormalizeLimits(l) == NormalizeLimits(l.(maxNoProgressTurns := 4))
    ensures l.wallClockSeconds == 0 ==> NormalizeLimits(l) == NormalizeLimits(l.(wallClockSeconds := 3600))
  {
  }

  /** Which workflows can be created, and what the others report. */
  lemma CreatesIff(workflows: map<WorkflowId, Job>, input: CreateInput)
    ensures var error := CreateError(workflows, input);
            var l := NormalizeLimits(input.limits);
            var named := Text.TrimSpace(input.projectId) != "" && Text.TrimSpace(input.planId) != ""
                         && Text.TrimSpace(input.repositoryId) != "";
            var bounded := 0 <= l.maxRevisions <= 20 && 1 <= l.maxStageAttempts <= 10 && 2 <= l.maxExecutorTurns <= 128
                           && 1 <= l.maxToolCalls <= 1000 && 1 <= l.maxConsecutiveToolErrors <= 10
                           && 1 <= l.maxNoProgressTurns <= 20 && 60 <= l.wallClockSeconds <= 86400;
            var ready := input.lookup.Found? && (input.lookup.planStatus == "READY" || input.lookup.planStatus == "APPROVED");
            var taken := input.lookup.Found? && (exists id ::
                && id in workflows
                && !workflows[id].status.Completed? && !workflows[id].status.Rejected? && !workflows[id].status.Cancelled?
                && workflows[id].origin.planVersion == input.lookup.planVersion
                && workflows[id].origin.repository == Text.TrimSpace(input.repositoryId));
            && (error.None? <==> named && bounded && ready && Text.TrimSpace(input.lookup.headSha) != "" && !taken)
            && (error == Some(ProjectNotFound) <==> named && bounded && input.lookup.NoSuchProject?)
            && (error == Some(PlanNotReady) <==> named && bounded && input.lookup.Found? && !ready)
            && (error == Some(ActiveJob) <==> named && bounded && ready && Text.TrimSpace(input.lookup.headSha) != "" && taken)
            && (error.Some? ==> error.value.InvalidJob? || error.value.ProjectNotFound? || error.value.PlanNotReady? || error.value.ActiveJob?)
  {
    hide NormalizeLimits, Text.TrimSpace;
  }

  function CreationEntry(now: int): Entry {
    Entry(None, Create, Ready, 1, None, now)
  }

  // ----- transitions -----

  /** `detailsBytes` is the size of the encoded details, None when they cannot be encoded. */
  datatype TransitionInput = TransitionInput(
    expectedVersion: int, action: Action, failureCode: string, failureMessage: string,
    additionalExecutorTurns: int, detailsBytes: Option<nat>)

  /** The error a transition reports, in the order Transition checks. */
  function TransitionError(job: Job, input: TransitionInput): Option<Error> {
    if input.expectedVersion < 1 || input.action.BlankAction? then Some(InvalidJob)
    else if job.version != input.expectedVersion then Some(VersionConflict)
    else if input.action.ContinueExecution?
            && (!IsExecutorPauseCode(job.failureCode)
                || (job.retryStatus != Some(Executing) && job.retryStatus != Some(Queued))) then Some(InvalidTransition)
    else if input.action.ContinueExecution?
            && (input.additionalExecutorTurns < 1 || input.additionalExecutorTurns > 64
                || job.limits.maxExecutorTurns + input.additionalExecutorTurns > MAX_TURNS) then Some(InvalidJob)
    else if NextStatus(job.status, input.action, job.retryStatus).None? then Some(InvalidTransition)
    else if input.action.QueueRevision? && job.revisionCount >= job.limits.maxRevisions then Some(RevisionLimit)
    else if input.action.Fail? && Text.TrimSpace(input.failureMessage) == "" then Some(InvalidJob)
    else if input.detailsBytes.None? || input.detailsBytes.value > MAX_DETAILS_BYTES then Some(InvalidJob)
    else if DispatchTypeFor(input.action, NextStatus(job.status, input.action, job.retryStatus).value).Some?
            && job.limits.maxStageAttempts < 1 then Some(InvalidJob)
    else None
  }

  /** The queue job a transition enqueues: due at once, tagged with the version the row is about to have. */
  function NewDispatch(id: WorkflowId, job: Job, input: TransitionInput, now: int, enqueuedAt: int): Option<QueueJob>
    requires TransitionError(job, input).None?
  {
    var next := NextStatus(job.status, input.action, job.retryStatus).value;
    match DispatchTypeFor(input.action, next)
    case None => None
    case Some(jobType) =>
      Some(NewJob(jobType, Dispatch(id, job.version + 1, input.action, next), job.limits.maxStageAttempts, now, enqueuedAt))
  }

  /** RETRY, RESTART and CONTINUE_EXECUTION answer the last failure. */
  predicate AnswersFailure(action: Action) {
    action.Retry? || action.Restart? || action.ContinueExecution?
  }

  function RetryStatusAfter(job: Job, action: Action): Option<Status> {
    if action.Fail? then Some(job.status) else if AnswersFailure(action) then None else job.retryStatus
  }

  function FailureCodeAfter(job: Job, input: TransitionInput): string {
    if AnswersFailure(input.action) then ""
    else if !input.action.Fail? then job.failureCode
    else if Text.TrimSpace(input.failureCode) == "" then "STAGE_FAILED" else Text.TrimSpace(input.failureCode)
  }

  function FailureMessageAfter(job: Job, input: TransitionInput): string {
    if AnswersFailure(input.action) then ""
    else if input.action.Fail? then Text.TrimSpace(input.failureMessage) else job.failureMessage
  }

  function ExecutionVersionAfter(job: Job, action: Action): nat {
    job.executionVersion + if action.ExecutionStarted? then 1 else 0
  }

  function RevisionCountAfter(job: Job, action: Action): nat {
    if action.Restart? then 0 else job.revisionCount + if action.QueueRevision? then 1 else 0
  }

  function MaxTurnsAfter(job: Job, input: TransitionInput): int {
    job.limits.maxExecutorTurns + if input.action.ContinueExecution? then input.additionalExecutorTurns else 0
  }

  function CancellationAfter(job: Job, action: Action): bool {
    action.Cancel? || (!action.Restart? && job.cancellationRequested)
  }

  function DispatchAfter(id: WorkflowId, job: Job, input: TransitionInput, freshId: JobId, now: int, enqueuedAt: int): Option<JobId>
    requires TransitionError(job, input).None?
  {
    if NewDispatch(id, job, input, now, enqueuedAt).Some? then Some(freshId)
    else if input.action.ExecutionStarted? then job.currentDispatch
    else None
  }

  /** The row after a legal transition, field by field. */
  function RowWith(job: Job, input: TransitionInput, dispatch: Option<JobId>, now: int): Job
    requires TransitionError(job, input).None?
  {
    var next := NextStatus(job.status, input.action, job.retryStatus).value;
    job.(status := next, version := job.version + 1, currentDispatch := dispatch,
         retryStatus := RetryStatusAfter(job, input.action),
         executionVersion := ExecutionVersionAfter(job, input.action),
         revisionCount := RevisionCountAfter(job, input.action),
         limits := job.limits.(maxExecutorTurns := MaxTurnsAfter(job, input)),
         cancellationRequested := CancellationAfter(job, input.action),
         failureCode := FailureCodeAfter(job, input),
         failureMessage := FailureMessageAfter(job, input),
         updatedAt := now,
         completedAt := if IsTerminal(next) then Some(now) else None)
  }

  function RowAfter(id: WorkflowId, job: Job, input: TransitionInput, freshId: JobId, now: int, enqueuedAt: int): Job
    requires TransitionError(job, input).None?
  {
    RowWith(job, input, DispatchAfter(id, job, input, freshId, now, enqueuedAt), now)
  }

  function EntryFor(job: Job, after: Job, input: TransitionInput): Entry {
    Entry(Some(job.status), input.action, after.status, after.version, after.currentDispatch, after.updatedAt)
  }

  /** The three tables a transition writes. */
  datatype Db = Db(workflows: map<WorkflowId, Job>, log: map<WorkflowId, Log>, queue: Rows) {
    predicate Logged() {
      workflows.Keys == log.Keys
    }
  }

  /** Transition as one atomic update of the database. */
  function Transitioned(db: Db, id: WorkflowId, input: TransitionInput, freshId: JobId, now: int, enqueuedAt: int): Db
    requires db.Logged() && id in db.workflows && TransitionError(db.workflows[id], input).None?
  {
    var job := db.workflows[id];
    var after := RowAfter(id, job, input, freshId, now, enqueuedAt);
    var dispatch := NewDispatch(id, job, input, now, enqueuedAt);
    Db(db.workflows[id := after],
       db.log[id := db.log[id] + [EntryFor(job, after, input)]],
       if dispatch.Some? then db.queue[freshId := dispatch.value] else db.queue)
  }

  // ----- the same, action by action -----

  /** What a transition makes of the row, told action by action instead of column by column. */
  ghost predicate TellsAction(before: Job, after: Job, input: TransitionInput, now: int) {
    && NextStatus(before.status, input.action, before.retryStatus) == Some(after.status)
    && var ended := after.status.Completed? || after.status.Rejected? || after.status.Cancelled?;
       var moved := before.(status := after.status, version := before.version + 1, currentDispatch := after.currentDispatch,
                            updatedAt := now, completedAt := if ended then Some(now) else None);
       var answered := moved.(retryStatus := None, failureCode := "", failureMessage := "");
       match input.action
       case Fail =>
         var code := Text.TrimSpace(input.failureCode);
         after == moved.(retryStatus := Some(before.status), failureCode := if code == "" then "STAGE_FAILED" else code,
                         failureMessage := Text.TrimSpace(input.failureMessage))
       case Retry => after == answered
       case Restart => after == answered.(cancellationRequested := false, revisionCount := 0)
       case ContinueExecution =>
         after == answered.(limits := before.limits.(maxExecutorTurns := before.limits.maxExecutorTurns + input.additionalExecutorTurns))
       case Cancel => after == moved.(cancellationRequested := true)
       case QueueRevision => after == moved.(revisionCount := before.revisionCount + 1)
       case ExecutionStarted => after == moved.(executionVersion := before.executionVersion + 1)
       case _ => after == moved
  }

  /** What else it writes: one log entry, and a fresh job exactly where a stage is entered that no job works on yet. */
  ghost predicate TellsTables(before: Db, after: Db, id: WorkflowId, input: TransitionInput, freshId: JobId, now: int, enqueuedAt: int) {
    && id in before.workflows && id in before.log && id in after.workflows && id in after.log
    && var job, row := before.workflows[id], after.workflows[id];
       && after.workflows == before.workflows[id := row]
       && after.log == before.log[id := before.log[id]
            + [Entry(Some(job.status), input.action, row.status, job.version + 1, row.currentDispatch, now)]]
       && if input.action.ExecutionStarted? then row.currentDispatch == job.currentDispatch && after.queue == before.queue
          else if IsIdle(row.status) then row.currentDispatch.None? && after.queue == before.queue
          else
            && row.currentDispatch == Some(freshId) && StageType(row.status).Some?
            && after.queue == before.queue[freshId :=
                 QueueJob(StageType(row.status).value, Dispatch(id, job.version + 1, input.action, row.status), JobQueued, 0,
                          job.limits.maxStageAttempts, now, None, None, None, enqueuedAt, enqueuedAt)]
  }

  /** A legal transition does what its action says. */
  lemma TransitionTells(db: Db, id: WorkflowId, input: TransitionInput, freshId: JobId, now: int, enqueuedAt: int)
    requires db.Logged() && id in db.workflows && TransitionError(db.workflows[id], input).None?
    ensures var after := Transitioned(db, id, input, freshId, now, enqueuedAt);
            && TellsAction(db.workflows[id], after.workflows[id], input, now)
            && TellsTables(db, after, id, input, freshId, now, enqueuedAt)
  {
    var job := db.workflows[id];
    DispatchMatchesStage(job.status, input.action, job.retryStatus);
    JobOfStage(NextStatus(job.status, input.action, job.retryStatus).value);
    hide NextStatus, DispatchTypeFor, StageType, IsExecutorPauseCode, Text.TrimSpace;
  }

  /** Which transitions are legal, and what the others report. */
  lemma LegalIff(job: Job, input: TransitionInput)
    ensures var error := TransitionError(job, input);
            var next := NextStatus(job.status, input.action, job.retryStatus);
            var asked := input.expectedVersion >= 1 && !input.action.BlankAction?;
            var current := asked && job.version == input.expectedVersion;
            var paused := IsExecutorPauseCode(job.failureCode) && (job.retryStatus == Some(Executing) || job.retryStatus == Some(Queued));
            var fits := 1 <= input.additionalExecutorTurns <= 64 && job.limits.maxExecutorTurns + input.additionalExecutorTurns <= 128;
            var resumes := input.action.ContinueExecution? ==> paused && fits;
            && (error.None? <==>
                  && current && resumes && next.Some?
                  && (input.action.QueueRevision? ==> job.revisionCount < job.limits.maxRevisions)
                  && (input.action.Fail? ==> Text.TrimSpace(input.failureMessage) != "")
                  && input.detailsBytes.Some? && input.detailsBytes.value <= 32768
                  && (!IsIdle(next.value) && !input.action.ExecutionStarted? ==> job.limits.maxStageAttempts >= 1))
            && (error == Some(VersionConflict) <==> asked && !current)
            && (error == Some(InvalidTransition) <==>
                  current && ((input.action.ContinueExecution? && !paused) || (resumes && next.None?)))
            && (error == Some(RevisionLimit) <==>
                  current && next.Some? && input.action.QueueRevision? && job.revisionCount >= job.limits.maxRevisions)
            && (error.Some? ==> error.value.InvalidJob? || error.value.VersionConflict? || error.value.InvalidTransition?
                                || error.value.RevisionLimit?)
  {
    var next := NextStatus(job.status, input.action, job.retryStatus);
    if next.Some? {
      DispatchMatchesStage(job.status, input.action, job.retryStatus);
      JobOfStage(next.value);
    }
    hide NextStatus, DispatchTypeFor, StageType, IsExecutorPauseCode, Text.TrimSpace;
  }

  /** The repository: rows and log, and the queue it enqueues into. */
  class Repository {
    var workflows: map<WorkflowId, Job>
    var log: map<WorkflowId, Log>
    const queue: Queue

    function Snapshot(): Db
      reads this, queue
    {
      Db(workflows, log, queue.rows)
    }

    constructor (queue: Queue)
      ensures this.queue == queue && workflows == map[] && log == map[]
    {
      this.queue := queue;
      workflows, log := map[], map[];
    }

    method Create(id: WorkflowId, input: CreateInput, now: int) returns (r: Result<Job, Error>)
      requires Snapshot().Logged() && id !in workflows
      modifies this
      ensures Snapshot().Logged() && Snapshot().queue == old(Snapshot().queue)
      ensures CreateError(old(workflows), input).Some? ==>
                r == Err(CreateError(old(workflows), input).value) && Snapshot() == old(Snapshot())
      ensures CreateError(old(workflows), input).None? ==>
                && r == Ok(NewWorkflow(input, now))
                && workflows == old(workflows)[id := NewWorkflow(input, now)]
                && log == old(log)[id := [CreationEntry(now)]]
      ensures r.Ok? ==>
                && id in workflows && id in log && log[id] == [Entry(None, Action.Create, Ready, 1, None, now)]
                && input.lookup.Found?
                && var branch := Text.TrimSpace(input.baseBranch);
                   workflows[id] == Job(Origin(input.lookup.planVersion, Text.TrimSpace(input.repositoryId),
                                               if branch == "" then input.lookup.currentBranch else branch, input.lookup.headSha),
                                        Ready, 1, None, None, 0, 0, NormalizeLimits(input.limits), false, "", "", now, now, None)
    {
      var limits := NormalizeLimits(input.limits);
      var repositoryId := Text.TrimSpace(input.repositoryId);
      if Text.TrimSpace(input.projectId) == "" || Text.TrimSpace(input.planId) == "" || repositoryId == "" {
        return Err(InvalidJob);
      }
      if !ValidLimits(limits) {
        return Err(InvalidJob);
      }
      if input.lookup.NoSuchProject? {
        return Err(ProjectNotFound);
      }
      if input.lookup.NotInProject? {
        return Err(InvalidJob);
      }
      if input.lookup.planStatus != "READY" && input.lookup.planStatus != "APPROVED" {
        return Err(PlanNotReady);
      }
      if Text.TrimSpace(input.lookup.headSha) == "" {
        return Err(InvalidJob);
      }
      if HasActive(workflows, input.lookup.planVersion, repositoryId) {
        return Err(ActiveJob);
      }
      var job := NewWorkflow(input, now);
      workflows := workflows[id := job];
      log := log[id := [CreationEntry(now)]];
      return Ok(job);
    }

    /** The guards between loading the row and writing it, in their order; yields the next status. */
    static method Check(job: Job, input: TransitionInput) returns (r: Result<Status, Error>)
      requires input.expectedVersion >= 1 && !input.action.BlankAction?
      ensures r.Err? ==> TransitionError(job, input) == Some(r.error)
      ensures r.Ok? ==>
                && NextStatus(job.status, input.action, job.retryStatus) == Some(r.value)
                && TransitionError(job, input) ==
                   if DispatchTypeFor(input.action, r.value).Some? && job.limits.maxStageAttempts < 1 then Some(InvalidJob) else None
    {
      if job.version != input.expectedVersion {
        return Err(VersionConflict);
      }
      if input.action.ContinueExecution? {
        if !IsExecutorPauseCode(job.failureCode) || (job.retryStatus != Some(Executing) && job.retryStatus != Some(Queued)) {
          return Err(InvalidTransition);
        }
        if input.additionalExecutorTurns < 1 || input.additionalExecutorTurns > 64
           || job.limits.maxExecutorTurns + input.additionalExecutorTurns > MAX_TURNS {
          return Err(InvalidJob);
        }
      }
      var allowed := NextStatus(job.status, input.action, job.retryStatus);
      if allowed.None? {
        return Err(InvalidTransition);
      }
      if input.action.QueueRevision? && job.revisionCount >= job.limits.maxRevisions {
        return Err(RevisionLimit);
      }
      if input.action.Fail? && Text.TrimSpace(input.failureMessage) == "" {
        return Err(InvalidJob);
      }
      if input.detailsBytes.None? || input.detailsBytes.value > MAX_DETAILS_BYTES {
        return Err(InvalidJob);
      }
      return Ok(allowed.value);
    }

    /** The failure columns of the new row, reassigned one after the other. */
    static method DeriveFailure(job: Job, input: TransitionInput)
      returns (retryStatus: Option<Status>, failureCode: string, failureMessage: string)
      ensures retryStatus == RetryStatusAfter(job, input.action)
      ensures failureCode == FailureCodeAfter(job, input)
      ensures failureMessage == FailureMessageAfter(job, input)
    {
      retryStatus, failureCode, failureMessage := job.retryStatus, job.failureCode, job.failureMessage;
      if input.action.Fail? {
        retryStatus := Some(job.status);
        failureCode := Text.TrimSpace(input.failureCode);
        if failureCode == "" {
          failureCode := "STAGE_FAILED";
        }
        failureMessage := Text.TrimSpace(input.failureMessage);
      }
      if AnswersFailure(input.action) {
        retryStatus, failureCode, failureMessage := None, "", "";
      }
    }

    /** The counters and flags of the new row, reassigned one after the other. */
    static method DeriveCounters(job: Job, input: TransitionInput)
      returns (cancellationRequested: bool, revisionCount: nat, executionVersion: nat, maxExecutorTurns: int)
      ensures cancellationRequested == CancellationAfter(job, input.action)
      ensures revisionCount == RevisionCountAfter(job, input.action)
      ensures executionVersion == ExecutionVersionAfter(job, input.action)
      ensures maxExecutorTurns == MaxTurnsAfter(job, input)
    {
      cancellationRequested, revisionCount := job.cancellationRequested, job.revisionCount;
      executionVersion, maxExecutorTurns := job.executionVersion, job.limits.maxExecutorTurns;
      if input.action.Restart? {
        cancellationRequested, revisionCount := false, 0;
      }
      if input.action.ContinueExecution? {
        maxExecutorTurns := maxExecutorTurns + input.additionalExecutorTurns;
      }
      if input.action.Cancel? {
        cancellationRequested := true;
      }
      if input.action.QueueRevision? {
        revisionCount := revisionCount + 1;
      }
      if input.action.ExecutionStarted? {
        executionVersion := executionVersion + 1;
      }
    }

    /** The new row. */
    static method Derive(job: Job, input: TransitionInput, next: Status, dispatchId: Option<JobId>, now: int) returns (after: Job)
      requires TransitionError(job, input).None? && NextStatus(job.status, input.action, job.retryStatus) == Some(next)
      ensures after == RowWith(job, input, dispatchId, now)
    {
      var retryStatus, failureCode, failureMessage := DeriveFailure(job, input);
      var cancellationRequested, revisionCount, executionVersion, maxExecutorTurns := DeriveCounters(job, input);
      var completedAt := if IsTerminal(next) then Some(now) else None;
      after := job.(status := next, version := job.version + 1, currentDispatch := dispatchId, retryStatus := retryStatus,
                        executionVersion := executionVersion, revisionCount := revisionCount,
                        limits := job.limits.(maxExecutorTurns := maxExecutorTurns),
                        cancellationRequested := cancellationRequested, failureCode := failureCode,
                        failureMessage := failureMessage, updatedAt := now, completedAt := completedAt);
    }

    /** Either the whole transaction commits or nothing changes. */
    method Transition(id: WorkflowId, input: TransitionInput, freshId: JobId, now: int, enqueuedAt: int)
      returns (r: Result<Job, Error>)
      requires Snapshot().Logged() && freshId !in queue.rows
      modifies this, queue
      ensures Snapshot().Logged()
      ensures input.expectedVersion >= 1 && !input.action.BlankAction? && id !in old(workflows) ==> r == Err(NotFound)
      ensures r.Err? ==> Snapshot() == old(Snapshot())
      ensures id in old(workflows) && TransitionError(old(workflows)[id], input).Some? ==>
                r == Err(TransitionError(old(workflows)[id], input).value)
      ensures id in old(workflows) && TransitionError(old(workflows)[id], input).None? ==>
                && Snapshot() == Transitioned(old(Snapshot()), id, input, freshId, now, enqueuedAt)
                && r == Ok(workflows[id])
      ensures r.Ok? ==>
                && id in old(workflows) && id in workflows
                && TellsAction(old(workflows)[id], workflows[id], input, now)
                && TellsTables(old(Snapshot()), Snapshot(), id, input, freshId, now, enqueuedAt)
    {
      if input.expectedVersion < 1 || input.action.BlankAction? {
        return Err(InvalidJob);
      }
      if id !in workflows {
        return Err(NotFound);
      }
      var job := workflows[id];
      var checked := Check(job, input);
      if checked.Err? {
        return Err(checked.error);
      }
      var next := checked.value;
      var nextVersion := job.version + 1;
      var dispatchId: Option<JobId> := None;
      var dispatchType := DispatchFor(input.action);
      if input.action.Retry? {
        dispatchType := StageType(next);
      }
      if dispatchType.Some? {
        var enqueued := queue.Enqueue(freshId, dispatchType.value, Dispatch(id, nextVersion, input.action, next),
                                      job.limits.maxStageAttempts, now, enqueuedAt);
        if enqueued.Err? {
          return Err(InvalidJob);
        }
        dispatchId := Some(enqueued.value);
      }
      if input.action.ExecutionStarted? && dispatchId.None? {
        dispatchId := job.currentDispatch;
      }

      TransitionTells(old(Snapshot()), id, input, freshId, now, enqueuedAt);
      hide TellsAction, TellsTables;
      var after := Derive(job, input, next, dispatchId, now);
      workflows := workflows[id := after];
      log := log[id := log[id] + [Entry(Some(job.status), input.action, next, nextVersion, dispatchId, now)]];
      return Ok(after);
    }
  }

  // ----- the row is a cache of the log -----

  /** Every derived column of the row equals what the log says. */
  ghost predicate CachesLog(job: Job, log: Log) {
    && Justified(log)
    && job.version == |log|
    && job.status == Last(log).to
    && job.currentDispatch == Last(log).dispatch
    && job.updatedAt == Last(log).at
    && job.executionVersion == Count(log, ExecutionStarted)
    && job.revisionCount == RevisionsSinceRestart(log)
    && job.retryStatus == RetryStatusOf(log)
    && (job.cancellationRequested <==> job.status.Cancelled?)
    && job.completedAt == (if IsTerminal(Last(log).to) then Some(Last(log).at) else None)
  }

  lemma NewWorkflowCachesLog(input: CreateInput, now: int)
    requires input.lookup.Found?
    ensures CachesLog(NewWorkflow(input, now), [CreationEntry(now)])
  {
    assert [CreationEntry(now)][..0] == [];
  }

  /** No transition lets the row and the log drift apart. */
  lemma TransitionKeepsCache(db: Db, id: WorkflowId, input: TransitionInput, freshId: JobId, now: int, enqueuedAt: int)
    requires db.Logged() && id in db.workflows && TransitionError(db.workflows[id], input).None?
    requires CachesLog(db.workflows[id], db.log[id])
    ensures var after := Transitioned(db, id, input, freshId, now, enqueuedAt);
            CachesLog(after.workflows[id], after.log[id])
  {
    var job := db.workflows[id];
    var row := RowAfter(id, job, input, freshId, now, enqueuedAt);
    var log := db.log[id];
    var e := EntryFor(job, row, input);
    ExtendJustified(log, e);
    assert Last(log + [e]) == e;
    assert (log + [e])[..|log + [e]| - 1] == log;
    RetryStatusIsActive(log);
  }
}
