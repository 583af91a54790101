/**
  The workflow state machine: statuses, actions, the transition table and the
  queue job each action dispatches (internal/workflowjob/transition.go).
 */
module WorkflowTransition {
  import opened Wrappers

  datatype Status =
    | Ready | WorkspacePreparing | Queued | Executing | Checking | Reviewing
    | WaitingApproval | RevisionRequired | Approved | Publishing
    | Completed | Failed | Rejected | Cancelled

  /** An action name as a caller sends it; BlankAction and UnknownAction stand for names outside the table. */
  datatype Action =
    | Create | Start | WorkspaceReady | ExecutionStarted | ExecutionCompleted
    | ChecksCompleted | ReviewCompleted | Approve | RequestRevision | QueueRevision
    | Reject | Publish | PublicationCompleted | Fail | Retry | Restart | Cancel
    | ContinueExecution | BlankAction | UnknownAction

  datatype JobType = PrepareWorkspace | Execute | RunChecks | Review | PublishPatch | OtherType(name: string)

  /** transitionTable: the step an ordinary action takes, if the current status allows it. */
  function TableLookup(current: Status, action: Action): Option<Status> {
    match (current, action)
    case (Ready, Start) => Some(WorkspacePreparing)
    case (WorkspacePreparing, WorkspaceReady) => Some(Queued)
    case (Queued, ExecutionStarted) => Some(Executing)
    case (Executing, ExecutionCompleted) => Some(Checking)
    case (Checking, ChecksCompleted) => Some(Reviewing)
    case (Reviewing, ReviewCompleted) => Some(WaitingApproval)
    case (WaitingApproval, Approve) => Some(Approved)
    case (WaitingApproval, RequestRevision) => Some(RevisionRequired)
    case (WaitingApproval, Reject) => Some(Rejected)
    case (RevisionRequired, QueueRevision) => Some(Queued)
    case (Approved, Publish) => Some(Publishing)
    case (Publishing, PublicationCompleted) => Some(Completed)
    case _ => None
  }

  /** failureStatuses: the active stages, which may FAIL and may be retried. */
  predicate IsActiveStage(s: Status) {
    s.WorkspacePreparing? || s.Queued? || s.Executing? || s.Checking? || s.Reviewing? || s.Publishing?
  }

  predicate IsTerminal(s: Status) {
    s.Completed? || s.Rejected? || s.Cancelled?
  }

  function NextStatus(current: Status, action: Action, retryStatus: Option<Status>): Option<Status> {
    match action
    case Cancel => if IsTerminal(current) then None else Some(Cancelled)
    case Fail => if IsActiveStage(current) then Some(Failed) else None
    case Restart => if current.Failed? then Some(WorkspacePreparing) else None
    case ContinueExecution =>
      if current.Failed? && (retryStatus == Some(Executing) || retryStatus == Some(Queued)) then Some(Queued) else None
    case Retry =>
      if current.Failed? && retryStatus.Some? && IsActiveStage(retryStatus.value) then retryStatus else None
    case _ => TableLookup(current, action)
  }

  /** dispatchFor: the queue job an action enqueues. */
  function DispatchFor(action: Action): Option<JobType> {
    match action
    case Start | Restart => Some(PrepareWorkspace)
    case WorkspaceReady | QueueRevision | ContinueExecution => Some(Execute)
    case ExecutionCompleted => Some(RunChecks)
    case ChecksCompleted => Some(Review)
    case Publish => Some(PublishPatch)
    case _ => None
  }

  /** dispatchForRetry: the queue job that serves a stage. */
  function StageType(s: Status): Option<JobType> {
    match s
    case WorkspacePreparing => Some(PrepareWorkspace)
    case Queued | Executing => Some(Execute)
    case Checking => Some(RunChecks)
    case Reviewing => Some(Review)
    case Publishing => Some(PublishPatch)
    case _ => None
  }

  predicate IsExecutorPauseCode(code: string) {
    code in {
      "EXECUTOR_BUDGET_EXHAUSTED", "EXECUTOR_NO_PROGRESS", "EXECUTOR_REPEATED_TOOL_FAILURE",
      "EXECUTOR_REPEATED_ACTION", "EXECUTOR_TOOL_CALL_LIMIT"
    }
  }

  /** The job type an action enqueues once it leads to `next`: RETRY takes the stage's own. */
  function DispatchTypeFor(action: Action, next: Status): Option<JobType> {
    if action.Retry? then StageType(next) else DispatchFor(action)
  }

  /**
    The three tables agree: a legal action enters an active stage exactly when it
    enqueues that stage's job or carries the current one over (EXECUTION_STARTED).
   */
  lemma DispatchMatchesStage(current: Status, action: Action, retryStatus: Option<Status>)
    requires NextStatus(current, action, retryStatus).Some?
    ensures var next := NextStatus(current, action, retryStatus).value;
            && (IsActiveStage(next) <==> StageType(next).Some?)
            && (!action.ExecutionStarted? ==> DispatchTypeFor(action, next) == StageType(next))
            && (action.ExecutionStarted? ==>
                  DispatchTypeFor(action, next).None? && StageType(current) == StageType(next) == Some(Execute))
  {
    var next := NextStatus(current, action, retryStatus).value;
    StepsInto(current, action, retryStatus, next);
    JobOfStage(next);
    JobOfStage(current);
    hide NextStatus, StageType;
  }

  /** Read from the other side: which ordinary steps lead into a status. */
  predicate LeadsInto(next: Status, current: Status, action: Action) {
    match next
    case Ready => false
    case WorkspacePreparing => current.Ready? && action.Start?
    case Queued => (current.WorkspacePreparing? && action.WorkspaceReady?) || (current.RevisionRequired? && action.QueueRevision?)
    case Executing => current.Queued? && action.ExecutionStarted?
    case Checking => current.Executing? && action.ExecutionCompleted?
    case Reviewing => current.Checking? && action.ChecksCompleted?
    case WaitingApproval => current.Reviewing? && action.ReviewCompleted?
    case RevisionRequired => current.WaitingApproval? && action.RequestRevision?
    case Approved => current.WaitingApproval? && action.Approve?
    case Publishing => current.Approved? && action.Publish?
    case Completed => current.Publishing? && action.PublicationCompleted?
    case Rejected => current.WaitingApproval? && action.Reject?
    case Failed | Cancelled => false
  }

  /** The stages no queue job works on. */
  predicate IsIdle(s: Status) {
    s.Ready? || s.WaitingApproval? || s.RevisionRequired? || s.Approved? || s.Failed? || s.Completed? || s.Rejected? || s.Cancelled?
  }

  /**
    Which steps lead where, read backwards: the ordinary ones; FAIL from the six stages a queue
    job works on, CANCEL from everything unfinished; and from FAILED back to where it failed by
    RETRY, to the start by RESTART, and to the queue by CONTINUE_EXECUTION if execution had failed.
   */
  lemma StepsInto(current: Status, action: Action, retryStatus: Option<Status>, next: Status)
    ensures NextStatus(current, action, retryStatus) == Some(next) <==>
              match action
              case Cancel => next.Cancelled? && !current.Completed? && !current.Rejected? && !current.Cancelled?
              case Fail => next.Failed? && !IsIdle(current)
              case Retry => current.Failed? && retryStatus == Some(next) && !IsIdle(next)
              case Restart => current.Failed? && next.WorkspacePreparing?
              case ContinueExecution =>
                current.Failed? && next.Queued? && (retryStatus == Some(Executing) || retryStatus == Some(Queued))
              case _ => LeadsInto(next, current, action)
  {
    if !action.Cancel? && !action.Fail? && !action.Retry? && !action.Restart? && !action.ContinueExecution? {
      OrdinaryInto(current, action, next);
      hide TableLookup, LeadsInto;
    }
  }

  lemma OrdinaryInto(current: Status, action: Action, next: Status)
    ensures TableLookup(current, action) == Some(next) <==> LeadsInto(next, current, action)
  {
    hide NextStatus;
    match next
    case _ =>
  }

  /** The job type that works on a stage. */
  lemma JobOfStage(s: Status)
    ensures StageType(s).Some? <==> !IsIdle(s)
    ensures s.WorkspacePreparing? ==> StageType(s) == Some(PrepareWorkspace)
    ensures s.Queued? || s.Executing? ==> StageType(s) == Some(Execute)
    ensures s.Checking? ==> StageType(s) == Some(RunChecks)
    ensures s.Reviewing? ==> StageType(s) == Some(Review)
    ensures s.Publishing? ==> StageType(s) == Some(PublishPatch)
  {
  }

  /** Terminal statuses are left by no action. */
  lemma TerminalIsAbsorbing(current: Status, action: Action, retryStatus: Option<Status>)
    requires IsTerminal(current)
    ensures NextStatus(current, action, retryStatus).None?
  {
  }
}
