/**
  Approval decisions (internal/approval). Decide records a decision, applies one or two
  workflow transitions, and marks the decision applied, each in its own transaction; any
  number of calls interleave with each other and with the rest of the daemon, and each may
  stop for good between two writes.
 */
module ApprovalService {
  import opened Wrappers
  import opened WorkflowTransition
  import opened JobQueue
  import opened WorkflowLog
  import opened WorkflowRepository
  import opened Orchestrator
  import Text

  datatype Kind = KindApprove | KindRequestRevision | KindReject | KindOther

  datatype DecideInput = DecideInput(
    expectedVersion: int, executionVersion: int, baseCommit: string, patchChecksum: string,
    note: string, reviewOverride: bool)

  // ----- the evidence a decision is bound to -----

  datatype ExecutionItem = ExecutionItem(id: string, completed: bool, baseCommit: string)
  datatype Verdict = VerdictApprove | VerdictRequestRevision | VerdictOther
  datatype ReviewRun = ReviewRun(id: string, completed: bool, executionId: string, checkpointId: string, verdict: Verdict)
  datatype CheckStatus = ChecksPassed | ChecksFailed | ChecksOther(name: string)
  datatype CheckRun = CheckRun(status: CheckStatus, failedSteps: int)
  datatype Checkpoint = Checkpoint(id: string, baseCommit: string, patchChecksum: string)

  /** The rows of the input's execution version, as the call finds them. */
  datatype Evidence = Evidence(
    execution: Option<ExecutionItem>, review: Option<ReviewRun>, check: Option<CheckRun>, checkpoints: seq<Checkpoint>)

  datatype DecideError =
    | Invalid | EvidenceMissing | BindingMismatch | ChecksNotPassed | ReviewOverrideRequired
    | NotAwaitingDecision | SnapshotConflict

  function Normalized(input: DecideInput): DecideInput {
    input.(baseCommit := Text.TrimSpace(input.baseCommit), patchChecksum := Text.TrimSpace(input.patchChecksum),
           note := Text.TrimSpace(input.note))
  }

  /** What Decide refuses before it looks at the decisions, in its order; `input` is normalized. */
  function GuardError(kind: Kind, input: DecideInput, evidence: Evidence, job: Job): Option<DecideError> {
    if input.expectedVersion < 1 || input.executionVersion < 1 || input.baseCommit == "" || input.patchChecksum == "" then
      Some(Invalid)
    else if kind.KindOther? || |input.note| > 8000 then Some(Invalid)
    else if (kind.KindRequestRevision? || kind.KindReject?) && input.note == "" then Some(Invalid)
    else if evidence.execution.None? then Some(EvidenceMissing)
    else if !evidence.execution.value.completed then Some(BindingMismatch)
    else if evidence.review.None? then Some(EvidenceMissing)
    else if !evidence.review.value.completed || evidence.check.None? then Some(BindingMismatch)
    else if kind.KindApprove? && !evidence.check.value.status.ChecksPassed?
            && (!evidence.check.value.status.ChecksFailed? || !input.reviewOverride || input.note == "") then
      Some(ChecksNotPassed)
    else if evidence.checkpoints == [] then Some(BindingMismatch)
    else
      var execution, review := evidence.execution.value, evidence.review.value;
      var checkpoint := evidence.checkpoints[|evidence.checkpoints| - 1];
      if execution.baseCommit != input.baseCommit || checkpoint.baseCommit != input.baseCommit
         || checkpoint.patchChecksum != input.patchChecksum
         || review.executionId != execution.id || review.checkpointId != checkpoint.id
         || job.executionVersion < input.executionVersion then Some(BindingMismatch)
      else if kind.KindApprove? && review.verdict.VerdictRequestRevision? && (!input.reviewOverride || input.note == "") then
        Some(ReviewOverrideRequired)
      else None
  }

  // ----- decisions -----

  /** What a decision is about; fixed when it is recorded. */
  datatype Snapshot = Snapshot(
    kind: Kind, reviewRunId: string, executionId: string, checkpointId: string, baseCommit: string, patchChecksum: string,
    note: string, reviewOverride: bool, verdict: Verdict, checkStatus: CheckStatus, failedSteps: int,
    workflowVersionBefore: int, revisionCountBefore: int)

  /** `applied` holds the workflow version MarkApplied stored; None while PENDING. */
  datatype Decision = Decision(snapshot: Snapshot, applied: Option<nat>)

  /** Workflow and execution version: UNIQUE in the table. */
  type Key = (WorkflowId, int)

  function SnapshotOf(kind: Kind, input: DecideInput, evidence: Evidence, revisionCountBefore: int): Snapshot
    requires evidence.execution.Some? && evidence.review.Some? && evidence.check.Some? && evidence.checkpoints != []
  {
    Snapshot(kind, evidence.review.value.id, evidence.execution.value.id,
             evidence.checkpoints[|evidence.checkpoints| - 1].id, input.baseCommit, input.patchChecksum, input.note,
             input.reviewOverride, evidence.review.value.verdict, evidence.check.value.status, evidence.check.value.failedSteps,
             input.expectedVersion, revisionCountBefore)
  }

  /** validateInput: shorter notes than Decide itself accepts. */
  predicate ValidSnapshot(s: Snapshot) {
    && s.reviewRunId != "" && s.executionId != "" && s.checkpointId != "" && s.baseCommit != "" && s.patchChecksum != ""
    && s.workflowVersionBefore >= 1 && s.revisionCountBefore >= 0
    && !s.kind.KindOther? && !s.verdict.VerdictOther? && |s.note| <= 4000
    && (s.kind.KindRequestRevision? ==> s.note != "")
  }

  /**
    Past the guards a decision can be stored exactly when its note has at most 4000 characters,
    the rows it names have identifiers, and the verdict is one of the two. So every request
    that passes the guards still passes them, and can no longer be stored, with a note of 4001
    to 8000 characters.
   */
  lemma NoteLimitsDisagree(kind: Kind, input: DecideInput, evidence: Evidence, job: Job, revisionCountBefore: nat, note: string)
    requires GuardError(kind, input, evidence, job).None?
    ensures var s := SnapshotOf(kind, input, evidence, revisionCountBefore);
            ValidSnapshot(s) <==>
              |input.note| <= 4000 && s.reviewRunId != "" && s.executionId != "" && s.checkpointId != "" && !s.verdict.VerdictOther?
    ensures 4000 < |note| <= 8000 ==>
              && GuardError(kind, input.(note := note), evidence, job).None?
              && !ValidSnapshot(SnapshotOf(kind, input.(note := note), evidence, revisionCountBefore))
  {
  }

  // ----- what licenses a decision, on the fields themselves -----

  /** The request says what it is about, and why unless it approves. */
  predicate IsAsked(kind: Kind, input: DecideInput) {
    var note := Text.TrimSpace(input.note);
    && input.expectedVersion >= 1 && input.executionVersion >= 1 && !kind.KindOther?
    && Text.TrimSpace(input.baseCommit) != "" && Text.TrimSpace(input.patchChecksum) != ""
    && |note| <= 8000 && (kind.KindApprove? || note != "")
  }

  /** Execution, review and checks of the version are there, and the first two are completed. */
  predicate IsComplete(evidence: Evidence) {
    && evidence.execution.Some? && evidence.execution.value.completed
    && evidence.review.Some? && evidence.review.value.completed && evidence.check.Some?
  }

  /** The reviewed execution ended in the last checkpoint, and that is the patch on the base the request names. */
  predicate IsAboutLastCheckpoint(input: DecideInput, evidence: Evidence)
    requires evidence.execution.Some? && evidence.review.Some?
  {
    var execution, review, n := evidence.execution.value, evidence.review.value, |evidence.checkpoints|;
    && n > 0 && review.executionId == execution.id && review.checkpointId == evidence.checkpoints[n - 1].id
    && Text.TrimSpace(input.baseCommit) == execution.baseCommit == evidence.checkpoints[n - 1].baseCommit
    && Text.TrimSpace(input.patchChecksum) == evidence.checkpoints[n - 1].patchChecksum
  }

  /** The approver overrules the evidence, with a reason. */
  predicate Overrules(input: DecideInput) {
    input.reviewOverride && Text.TrimSpace(input.note) != ""
  }

  /** Checks passed, or failed and are overruled. */
  predicate ChecksAllow(input: DecideInput, evidence: Evidence)
    requires evidence.check.Some?
  {
    evidence.check.value.status == ChecksPassed || (evidence.check.value.status == ChecksFailed && Overrules(input))
  }

  /** The reviewer did not ask for a revision, or is overruled. */
  predicate ReviewAllows(input: DecideInput, evidence: Evidence)
    requires evidence.review.Some?
  {
    evidence.review.value.verdict != VerdictRequestRevision || Overrules(input)
  }

  /**
    What Decide demands: complete evidence about the last checkpoint and, to approve, checks
    and a review that allow it. The refusals are told apart on the same fields.
   */
  lemma GuardsAre(kind: Kind, input: DecideInput, evidence: Evidence, job: Job)
    ensures var error := GuardError(kind, Normalized(input), evidence, job);
            var asked, complete := IsAsked(kind, input), IsComplete(evidence);
            var bound := complete && IsAboutLastCheckpoint(input, evidence) && job.executionVersion >= input.executionVersion;
            var allowed := complete && (kind.KindApprove? ==> ChecksAllow(input, evidence));
            var missing := evidence.execution.None? || (evidence.execution.value.completed && evidence.review.None?);
            var overruled := complete && (kind.KindApprove? ==> ReviewAllows(input, evidence));
            && (error.None? <==> asked && allowed && bound && overruled)
            && (error == Some(Invalid) <==> !asked)
            && (error == Some(EvidenceMissing) <==> asked && missing)
            && (error == Some(ChecksNotPassed) <==> asked && complete && !allowed)
            && (error == Some(BindingMismatch) <==> asked && !missing && (!complete || (allowed && !bound)))
            && (error == Some(ReviewOverrideRequired) <==> asked && allowed && bound && !overruled)
  {
    hide Text.TrimSpace;
  }

  lemma SnapshotKeeps(kind: Kind, input: DecideInput, evidence: Evidence, revisionCountBefore: int)
    requires evidence.execution.Some? && evidence.review.Some? && evidence.check.Some? && evidence.checkpoints != []
    ensures SnapshotOf(kind, input, evidence, revisionCountBefore).kind == kind
    ensures |input.note| > 4000 ==> !ValidSnapshot(SnapshotOf(kind, input, evidence, revisionCountBefore))
  {
  }

  /** Decisions with known check statuses are the same exactly if they agree in everything; an unknown status agrees with any. */
  lemma SameDecisionIff(a: Snapshot, b: Snapshot)
    ensures a.checkStatus != ChecksOther("") && b.checkStatus != ChecksOther("") ==> (SameDecision(a, b) <==> a == b)
    ensures a.checkStatus == ChecksOther("") || b.checkStatus == ChecksOther("") ==>
              (SameDecision(a, b) <==> a.(checkStatus := ChecksPassed, failedSteps := 0) == b.(checkStatus := ChecksPassed, failedSteps := 0))
  {
  }

  /** sameDecision: a blank check status on either side matches any. */
  predicate SameDecision(a: Snapshot, b: Snapshot) {
    && a == b.(checkStatus := a.checkStatus, failedSteps := a.failedSteps)
    && (a.checkStatus == ChecksOther("") || b.checkStatus == ChecksOther("")
        || (a.checkStatus == b.checkStatus && a.failedSteps == b.failedSteps))
  }

  function ActionOf(kind: Kind): Action {
    match kind
    case KindApprove => Approve
    case KindReject => Reject
    case KindRequestRevision => RequestRevision
    case KindOther => BlankAction
  }

  predicate AlreadyAdvanced(s: Status) {
    s.Approved? || s.Publishing? || s.Completed?
  }

  /** Where apply stands: before its first write, or after one and the re-read behind it. */
  datatype Stage = AtTop | AfterDecision | AfterRequest | AfterQueue

  /** What apply does next: it is finished, takes one more transition, or gives up. */
  datatype Move = Finish | Take(action: Action, next: Stage) | Refuse

  /** apply and applyRevision, from the row they last read. */
  function NextMove(s: Snapshot, job: Job, stage: Stage): Move {
    match stage
    case AfterDecision => Finish
    case AfterQueue => if job.revisionCount > s.revisionCountBefore then Finish else Refuse
    case AfterRequest =>
      if job.status.RevisionRequired? then Take(QueueRevision, AfterQueue)
      else if job.revisionCount > s.revisionCountBefore then Finish else Refuse
    case AtTop =>
      if job.status.WaitingApproval? && job.version != s.workflowVersionBefore then Refuse
      else match s.kind
        case KindApprove =>
          if AlreadyAdvanced(job.status) then Finish
          else if job.status.WaitingApproval? then Take(Approve, AfterDecision) else Refuse
        case KindReject =>
          if job.status.Rejected? then Finish
          else if job.status.WaitingApproval? then Take(Reject, AfterDecision) else Refuse
        case KindRequestRevision =>
          if job.revisionCount > s.revisionCountBefore then Finish
          else if job.status.WaitingApproval? then Take(RequestRevision, AfterRequest)
          else if job.status.RevisionRequired? then Take(QueueRevision, AfterQueue) else Refuse
        case KindOther => Refuse
  }

  // ----- the calls as threads -----

  datatype Thread =
    | Loaded(id: WorkflowId, kind: Kind, input: DecideInput, evidence: Evidence, job: Job)
    | Bound(key: Key, snapshot: Snapshot, job: Job)
    | Applying(key: Key, snapshot: Snapshot, job: Job, stage: Stage)
    | Moved(key: Key, snapshot: Snapshot, stage: Stage)
    | Done(key: Key, snapshot: Snapshot, job: Job)

  type ThreadId = nat

  datatype State = State(system: System, decisions: map<Key, Decision>, threads: map<ThreadId, Thread>)

  const START := State(INITIAL, map[], map[])

  datatype CallStep =
    | Elsewhere(step: Step)
    | Begin(thread: ThreadId, id: WorkflowId, kind: Kind, input: DecideInput, evidence: Evidence)
    | Lookup(thread: ThreadId)
    | Record(thread: ThreadId)
    | Advance(thread: ThreadId, freshId: JobId, now: int, enqueuedAt: int)
    | Reread(thread: ThreadId)
    | Mark(thread: ThreadId)
    | Vanish(thread: ThreadId)

  /** Only Decide issues these; the API and the handlers issue the others. */
  predicate IsDecisionAction(a: Action) {
    a.Approve? || a.Reject? || a.RequestRevision? || a.QueueRevision?
  }

  function TransitionOf(action: Action, version: nat): TransitionInput {
    TransitionInput(version, action, "", "", 0, Some(512))
  }

  ghost predicate CallEnabled(s: State, step: CallStep) {
    match step
    case Elsewhere(inner) => Enabled(s.system, inner) && (inner.Act? ==> !IsDecisionAction(inner.transition.action))
    case Begin(thread, id, kind, input, evidence) =>
      && thread !in s.threads && id in s.system.db.workflows
      && GuardError(kind, Normalized(input), evidence, s.system.db.workflows[id]).None?
    case Lookup(thread) =>
      && thread in s.threads && s.threads[thread].Loaded?
      && var t := s.threads[thread];
         (t.id, t.input.executionVersion) in s.decisions
         || (t.job.status.WaitingApproval? && t.job.version == t.input.expectedVersion
             && t.job.executionVersion == t.input.executionVersion)
    case Record(thread) =>
      && thread in s.threads && s.threads[thread].Bound?
      && var t := s.threads[thread];
         && ValidSnapshot(t.snapshot)
         && (t.key in s.decisions ==> SameDecision(s.decisions[t.key].snapshot, t.snapshot))
    case Advance(thread, freshId, now, enqueuedAt) =>
      && thread in s.threads && s.threads[thread].Applying?
      && var t := s.threads[thread];
         var move := NextMove(t.snapshot, t.job, t.stage);
         && !move.Refuse?
         && (move.Take? ==>
               Enabled(s.system, Act(t.key.0, TransitionOf(move.action, t.job.version), freshId, now, enqueuedAt)))
    case Reread(thread) =>
      thread in s.threads && s.threads[thread].Moved? && s.threads[thread].key.0 in s.system.db.workflows
    case Mark(thread) => thread in s.threads && s.threads[thread].Done? && s.threads[thread].key in s.decisions
    case Vanish(thread) => true
  }

  function Without(threads: map<ThreadId, Thread>, thread: ThreadId): map<ThreadId, Thread> {
    threads - {thread}
  }

  ghost function AfterCall(s: State, step: CallStep): State
    requires CallEnabled(s, step)
  {
    match step
    case Elsewhere(inner) => s.(system := After(s.system, inner))
    case Begin(thread, id, kind, input, evidence) =>
      s.(threads := s.threads[thread := Loaded(id, kind, Normalized(input), evidence, s.system.db.workflows[id])])
    case Lookup(thread) =>
      var t := s.threads[thread];
      var key := (t.id, t.input.executionVersion);
      var before: int := if key in s.decisions then s.decisions[key].snapshot.revisionCountBefore else t.job.revisionCount;
      if t.evidence.execution.Some? && t.evidence.review.Some? && t.evidence.check.Some? && t.evidence.checkpoints != [] then
        s.(threads := s.threads[thread := Bound(key, SnapshotOf(t.kind, t.input, t.evidence, before), t.job)])
      else s
    case Record(thread) =>
      var t := s.threads[thread];
      if t.key in s.decisions then
        if s.decisions[t.key].applied.Some? then s.(threads := Without(s.threads, thread))
        else s.(threads := s.threads[thread := Applying(t.key, s.decisions[t.key].snapshot, t.job, AtTop)])
      else
        s.(decisions := s.decisions[t.key := Decision(t.snapshot, None)],
           threads := s.threads[thread := Applying(t.key, t.snapshot, t.job, AtTop)])
    case Advance(thread, freshId, now, enqueuedAt) =>
      var t := s.threads[thread];
      (match NextMove(t.snapshot, t.job, t.stage)
       case Take(action, next) =>
         s.(system := After(s.system, Act(t.key.0, TransitionOf(action, t.job.version), freshId, now, enqueuedAt)),
            threads := s.threads[thread := Moved(t.key, t.snapshot, next)])
       case _ => s.(threads := s.threads[thread := Done(t.key, t.snapshot, t.job)]))
    case Reread(thread) =>
      var t := s.threads[thread];
      s.(threads := s.threads[thread := Applying(t.key, t.snapshot, s.system.db.workflows[t.key.0], t.stage)])
    case Mark(thread) =>
      var t := s.threads[thread];
      s.(decisions := s.decisions[t.key := s.decisions[t.key].(applied := Some(t.job.version))],
         threads := Without(s.threads, thread))
    case Vanish(thread) => s.(threads := Without(s.threads, thread))
  }

  // ----- reading the log -----

  /** The row `job` is what the log said when it had `job.version` entries. */
  ghost predicate WasRow(job: Job, log: Log) {
    && 1 <= job.version <= |log|
    && job.status == log[job.version - 1].to
    && job.executionVersion == Count(log[..job.version], ExecutionStarted)
    && job.revisionCount == RevisionsSinceRestart(log[..job.version])
  }

  /** The decision was made when the workflow was waiting with its execution version. */
  ghost predicate MadeWhileWaiting(log: Log, s: Snapshot, executionVersion: int) {
    var v := s.workflowVersionBefore;
    && !s.kind.KindOther?
    && 1 <= v <= |log| && log[v - 1].to.WaitingApproval?
    && Count(log[..v], ExecutionStarted) == executionVersion
    && RevisionsSinceRestart(log[..v]) == s.revisionCountBefore
  }

  /** The log holds the decision's entries, right after the version it was made at. */
  ghost predicate EntriesThere(log: Log, s: Snapshot) {
    var v := s.workflowVersionBefore;
    && 1 <= v < |log| && log[v].action == ActionOf(s.kind)
    && (s.kind.KindRequestRevision? ==> v + 1 < |log| && log[v + 1].action.QueueRevision?)
  }

  /** Whatever but CANCEL leaves WAITING_FOR_APPROVAL at version i + 1 is a recorded decision made at version i. */
  ghost predicate ExitDecided(log: Log, decisions: map<Key, Decision>, id: WorkflowId, i: nat)
    requires 0 < i < |log|
  {
    log[i - 1].to.WaitingApproval? && !log[i].action.Cancel? ==>
      var key := (id, Count(log[..i], ExecutionStarted));
      && key in decisions
      && decisions[key].snapshot.workflowVersionBefore == i
      && ActionOf(decisions[key].snapshot.kind) == log[i].action
  }

  ghost predicate ExitsDecided(log: Log, decisions: map<Key, Decision>, id: WorkflowId) {
    forall i :: 0 < i < |log| ==> ExitDecided(log, decisions, id, i)
  }

  /** Between EXECUTION_STARTED and the approval it leads to. */
  predicate InRound(s: Status, retryStatus: Option<Status>) {
    || s.Executing? || s.Checking? || s.Reviewing?
    || (s.Failed? && retryStatus.Some? && (retryStatus.value.Executing? || retryStatus.value.Checking? || retryStatus.value.Reviewing?))
  }

  /** One step back inside a round. */
  lemma RoundStep(current: Status, retryStatus: Option<Status>, action: Action, next: Status, nextRetry: Option<Status>)
    requires NextStatus(current, action, retryStatus) == Some(next) && !action.ExecutionStarted?
    requires nextRetry == if action.Fail? then Some(current)
                          else if action.Retry? || action.Restart? || action.ContinueExecution? then None else retryStatus
    requires InRound(next, nextRetry) || next.WaitingApproval?
    ensures InRound(current, retryStatus)
    ensures !action.Restart? && !action.QueueRevision?
  {
  }

  lemma {:induction false} CountGrows(log: Log, v: nat, w: nat, action: Action)
    requires v <= w <= |log|
    ensures Count(log[..v], action) <= Count(log[..w], action)
  {
    if v < w {
      CountGrows(log, v, w - 1, action);
      assert log[..w][..w - 1] == log[..w - 1];
    }
  }

  /** Each visit to WAITING_FOR_APPROVAL has its own execution version: earlier rows of it are still in the round. */
  lemma {:induction false} RoundBefore(log: Log, w: nat, v: nat)
    requires Justified(log) && 0 < w < v <= |log|
    requires log[v - 1].to.WaitingApproval? || InRound(log[v - 1].to, RetryStatusOf(log[..v]))
    requires Count(log[..w], ExecutionStarted) == Count(log[..v], ExecutionStarted)
    ensures InRound(log[w - 1].to, RetryStatusOf(log[..w]))
    ensures RevisionsSinceRestart(log[..w]) == RevisionsSinceRestart(log[..v])
    decreases v
  {
    var k := v - 1;
    assert EntryJustified(log, k);
    assert log[..v][..k] == log[..k] && Last(log[..v]) == log[k];
    CountGrows(log, w, k, ExecutionStarted);
    RoundStep(log[k - 1].to, RetryStatusOf(log[..k]), log[k].action, log[k].to, RetryStatusOf(log[..v]));
    if w < k {
      RoundBefore(log, w, k);
    }
  }

  /** A terminal entry is the last one. */
  lemma TerminalIsLast(log: Log, i: nat)
    requires Justified(log) && i < |log| && IsTerminal(log[i].to)
    ensures i == |log| - 1
  {
    if i + 1 < |log| {
      assert EntryJustified(log, i + 1);
      TerminalIsAbsorbing(log[i].to, log[i + 1].action, RetryStatusOf(log[..i + 1]));
    }
  }

  /** A row of a later round than the one a decision was made in, or past its approval, lies behind the decision's version. */
  lemma RowIsLater(log: Log, job: Job, s: Snapshot, executionVersion: int)
    requires Justified(log) && WasRow(job, log) && MadeWhileWaiting(log, s, executionVersion)
    requires job.executionVersion >= executionVersion
    requires AlreadyAdvanced(job.status) || job.status.Rejected? || job.revisionCount > s.revisionCountBefore
    ensures job.version > s.workflowVersionBefore
  {
    var v, w := s.workflowVersionBefore, job.version;
    if w <= v {
      CountGrows(log, w, v, ExecutionStarted);
      if w < v {
        RoundBefore(log, w, v);
      }
    }
  }

  /** The tests apply makes before it writes anything are sound: what they find done was done by this decision. */
  lemma FinishedMeansEntries(log: Log, job: Job, decisions: map<Key, Decision>, key: Key)
    requires Justified(log) && WasRow(job, log) && ExitsDecided(log, decisions, key.0)
    requires key in decisions && MadeWhileWaiting(log, decisions[key].snapshot, key.1)
    requires job.executionVersion >= key.1
    requires var s := decisions[key].snapshot;
             match s.kind
             case KindApprove => AlreadyAdvanced(job.status)
             case KindReject => job.status.Rejected?
             case _ => job.revisionCount > s.revisionCountBefore
    ensures EntriesThere(log, decisions[key].snapshot)
  {
    var s := decisions[key].snapshot;
    var v, w := s.workflowVersionBefore, job.version;
    RowIsLater(log, job, s, key.1);
    assert EntryJustified(log, v) && ExitDecided(log, decisions, key.0, v);
    assert log[..v + 1][..v] == log[..v] && Last(log[..v + 1]) == log[v];
    if log[v].action.Cancel? {
      TerminalIsLast(log, v);
    } else if s.kind.KindRequestRevision? {
      assert log[v].to.RevisionRequired?;
      assert RevisionsSinceRestart(log[..v + 1]) == s.revisionCountBefore;
      assert EntryJustified(log, v + 1);
      assert log[..v + 2][..v + 1] == log[..v + 1] && Last(log[..v + 2]) == log[v + 1];
      assert log[v + 1].action.QueueRevision? || log[v + 1].action.Cancel?;
      assert log[v + 1].action.Cancel? ==> RevisionsSinceRestart(log[..v + 2]) == s.revisionCountBefore;
      if log[v + 1].action.Cancel? {
        TerminalIsLast(log, v + 1);
      }
    }
  }

  // ----- what every run keeps -----

  ghost predicate RowKnown(s: State, id: WorkflowId, job: Job) {
    s.system.db.Logged() && id in s.system.db.workflows && WasRow(job, s.system.db.log[id])
  }

  /** A decision is bound to a visit of WAITING_FOR_APPROVAL, and APPLIED only once its entries are in the log. */
  ghost predicate DecisionHolds(s: State, key: Key)
    requires key in s.decisions
  {
    var d := s.decisions[key];
    && s.system.db.Logged() && key.0 in s.system.db.workflows
    && MadeWhileWaiting(s.system.db.log[key.0], d.snapshot, key.1)
    && (d.applied.Some? ==> EntriesThere(s.system.db.log[key.0], d.snapshot))
  }

  ghost predicate IsRecorded(s: State, key: Key, snapshot: Snapshot) {
    key in s.decisions && s.decisions[key].snapshot == snapshot
  }

  /** What a call knows when it has come this far. */
  ghost predicate ThreadHolds(s: State, t: Thread) {
    match t
    case Loaded(id, kind, input, evidence, job) =>
      RowKnown(s, id, job) && job.executionVersion >= input.executionVersion && GuardError(kind, input, evidence, job).None?
    case Bound(key, snapshot, job) =>
      && RowKnown(s, key.0, job) && job.executionVersion >= key.1
      && (key in s.decisions
          || (&& job.status.WaitingApproval? && job.version == snapshot.workflowVersionBefore
              && job.executionVersion == key.1 && job.revisionCount == snapshot.revisionCountBefore))
    case Applying(key, snapshot, job, stage) =>
      && IsRecorded(s, key, snapshot) && RowKnown(s, key.0, job) && job.executionVersion >= key.1
      && (stage.AfterDecision? ==> EntriesThere(s.system.db.log[key.0], snapshot))
      && (stage.AfterRequest? || stage.AfterQueue? ==> snapshot.kind.KindRequestRevision?)
    case Moved(key, snapshot, stage) =>
      && IsRecorded(s, key, snapshot) && key.0 in s.system.db.workflows && s.system.db.Logged()
      && (stage.AfterDecision? ==> EntriesThere(s.system.db.log[key.0], snapshot))
      && (stage.AfterRequest? || stage.AfterQueue? ==> snapshot.kind.KindRequestRevision?)
      && !stage.AtTop?
    case Done(key, snapshot, job) =>
      && IsRecorded(s, key, snapshot) && key.0 in s.system.db.workflows && s.system.db.Logged()
      && EntriesThere(s.system.db.log[key.0], snapshot)
  }

  ghost predicate CallInvariant(s: State) {
    && Reachable(s.system) && s.system.db.Logged()
    && (forall id :: id in s.system.db.workflows ==> ExitsDecided(s.system.db.log[id], s.decisions, id))
    && (forall key :: key in s.decisions ==> DecisionHolds(s, key))
    && (forall thread :: thread in s.threads ==> ThreadHolds(s, s.threads[thread]))
  }

  // ----- the log only grows, and decisions only gain their mark -----

  ghost predicate LogGrows(before: Log, after: Log) {
    |before| <= |after| && after[..|before|] == before
  }

  /** `t` may follow `s`: logs are extended, decisions keep their snapshots and their marks. */
  ghost predicate Follows(s: State, t: State) {
    && s.system.db.Logged() && t.system.db.Logged()
    && (forall id :: id in s.system.db.workflows ==>
          id in t.system.db.workflows && LogGrows(s.system.db.log[id], t.system.db.log[id]))
    && (forall key :: key in s.decisions ==>
          && key in t.decisions && t.decisions[key].snapshot == s.decisions[key].snapshot
          && (s.decisions[key].applied.Some? ==> t.decisions[key].applied.Some?))
  }

  lemma WasRowStays(job: Job, before: Log, after: Log)
    requires WasRow(job, before) && LogGrows(before, after)
    ensures WasRow(job, after)
  {
    assert after[..|before|][..job.version] == after[..job.version];
    assert before[job.version - 1] == after[job.version - 1];
  }

  lemma MadeStays(before: Log, after: Log, s: Snapshot, executionVersion: int)
    requires MadeWhileWaiting(before, s, executionVersion) && LogGrows(before, after)
    ensures MadeWhileWaiting(after, s, executionVersion)
  {
    var v := s.workflowVersionBefore;
    assert after[..|before|][..v] == after[..v];
    assert before[v - 1] == after[v - 1];
  }

  lemma EntriesStay(before: Log, after: Log, s: Snapshot)
    requires EntriesThere(before, s) && LogGrows(before, after)
    ensures EntriesThere(after, s)
  {
    var v := s.workflowVersionBefore;
    assert before[v] == after[v];
    assert s.kind.KindRequestRevision? ==> before[v + 1] == after[v + 1];
  }

  lemma DecisionStays(s: State, t: State, key: Key)
    requires Follows(s, t) && key in s.decisions && DecisionHolds(s, key)
    requires t.decisions[key].applied == s.decisions[key].applied
    ensures DecisionHolds(t, key)
  {
    hide MadeWhileWaiting, EntriesThere, LogGrows;
    var snapshot := s.decisions[key].snapshot;
    MadeStays(s.system.db.log[key.0], t.system.db.log[key.0], snapshot, key.1);
    if s.decisions[key].applied.Some? {
      EntriesStay(s.system.db.log[key.0], t.system.db.log[key.0], snapshot);
    }
  }

  lemma ThreadStays(s: State, t: State, thread: Thread)
    requires Follows(s, t) && ThreadHolds(s, thread)
    ensures ThreadHolds(t, thread)
  {
    hide MadeWhileWaiting, EntriesThere, LogGrows, WasRow, GuardError;
    var id := if thread.Loaded? then thread.id else thread.key.0;
    var before, after := s.system.db.log[id], t.system.db.log[id];
    if thread.Loaded? || thread.Bound? || thread.Applying? {
      WasRowStays(thread.job, before, after);
    }
    if thread.Done? || ((thread.Applying? || thread.Moved?) && thread.stage.AfterDecision?) {
      EntriesStay(before, after, thread.snapshot);
    }
  }

  /** All that a step has to establish: its own thread, its own decision, and the exit it may have logged. */
  lemma RestStays(s: State, t: State, thread: Option<ThreadId>, key: Option<Key>)
    requires CallInvariant(s) && Follows(s, t) && Reachable(t.system)
    requires forall id :: id in t.system.db.workflows ==> ExitsDecided(t.system.db.log[id], t.decisions, id)
    requires forall other :: other in t.threads && thread != Some(other) ==> other in s.threads && t.threads[other] == s.threads[other]
    requires thread.Some? && thread.value in t.threads ==> ThreadHolds(t, t.threads[thread.value])
    requires forall other :: other in t.decisions && key != Some(other) ==> other in s.decisions && t.decisions[other] == s.decisions[other]
    requires key.Some? && key.value in t.decisions ==> DecisionHolds(t, key.value)
    ensures CallInvariant(t)
  {
    hide Follows, ThreadHolds, DecisionHolds, ExitsDecided, Reachable;
    FollowsIsLogged(s, t);
    forall other | other in t.threads
      ensures ThreadHolds(t, t.threads[other])
    {
      if thread != Some(other) {
        ThreadStays(s, t, s.threads[other]);
      }
    }
    forall other | other in t.decisions
      ensures DecisionHolds(t, other)
    {
      if key != Some(other) {
        DecisionStays(s, t, other);
      }
    }
  }

  lemma FollowsIsLogged(s: State, t: State)
    requires Follows(s, t)
    ensures s.system.db.Logged() && t.system.db.Logged()
  {
  }

  /** The exits of a log survive one more entry, if that entry is decided, and any further decisions. */
  lemma ExitsStay(before: Log, after: Log, earlier: map<Key, Decision>, later: map<Key, Decision>, id: WorkflowId)
    requires ExitsDecided(before, earlier, id) && before != [] && LogGrows(before, after) && |after| <= |before| + 1
    requires forall key :: key in earlier ==> key in later && later[key].snapshot == earlier[key].snapshot
    requires |after| > |before| ==> ExitDecided(after, later, id, |before|)
    ensures ExitsDecided(after, later, id)
  {
    forall i | 0 < i < |after|
      ensures ExitDecided(after, later, id, i)
    {
      if i < |before| {
        assert ExitDecided(before, earlier, id, i);
        assert after[..|before|][..i] == after[..i] && after[..|before|][i - 1] == after[i - 1] && after[..|before|][i] == after[i];
      }
    }
  }

  lemma NoEntry(log: Log)
    ensures LogGrows(log, log)
  {
  }

  /** What one transition does to the logs. */
  lemma ActLogs(system: System, step: Step)
    requires step.Act? && Enabled(system, step) && Reachable(system)
    ensures var t := After(system, step);
            && t.db.Logged() && t.db.workflows.Keys == system.db.workflows.Keys
            && (forall id :: id in system.db.workflows && id != step.id ==> t.db.log[id] == system.db.log[id])
            && |t.db.log[step.id]| == |system.db.log[step.id]| + 1
            && t.db.log[step.id][..|system.db.log[step.id]|] == system.db.log[step.id]
            && Last(t.db.log[step.id]).action == step.transition.action
    ensures CachesLog(system.db.workflows[step.id], system.db.log[step.id])
    ensures NextStatus(system.db.workflows[step.id].status, step.transition.action, RetryStatusOf(system.db.log[step.id])).Some?
    ensures system.db.workflows[step.id].version == step.transition.expectedVersion
  {
    hide RowWith, NewDispatch, Reachable;
    ReachableWorkflow(system, step.id);
  }

  /** Steps that are not transitions leave existing logs alone. */
  lemma OtherLogs(system: System, step: Step)
    requires !step.Act? && Enabled(system, step) && system.db.Logged()
    ensures var t := After(system, step);
            && t.db.Logged() && system.db.workflows.Keys <= t.db.workflows.Keys
            && (forall id :: id in system.db.workflows ==> t.db.log[id] == system.db.log[id])
            && (forall id :: id in t.db.workflows && id !in system.db.workflows ==> |t.db.log[id]| == 1)
  {
  }

  /** Outside Decide only CANCEL leaves WAITING_FOR_APPROVAL. */
  lemma OnlyCancelElsewhere(action: Action, retryStatus: Option<Status>)
    requires NextStatus(WaitingApproval, action, retryStatus).Some? && !IsDecisionAction(action)
    ensures action.Cancel?
  {
  }

  ghost predicate LogsGrow(a: System, b: System) {
    && a.db.Logged() && b.db.Logged()
    && forall id :: id in a.db.workflows ==> id in b.db.workflows && LogGrows(a.db.log[id], b.db.log[id])
  }

  lemma SystemLogs(system: System, inner: Step)
    requires Reachable(system) && system.db.Logged() && Enabled(system, inner)
    ensures LogsGrow(system, After(system, inner)) && Reachable(After(system, inner))
  {
    hide Reachable, After, Enabled;
    ReachableStep(system, inner);
    if inner.Act? {
      ActIsEnabled(system, inner);
      ActLogs(system, inner);
    } else {
      OtherLogs(system, inner);
    }
    forall id | id in system.db.workflows
      ensures LogGrows(system.db.log[id], After(system, inner).db.log[id])
    {
      NoEntry(system.db.log[id]);
    }
  }

  lemma ActIsEnabled(system: System, inner: Step)
    requires inner.Act? && Enabled(system, inner)
    ensures system.db.Logged() && inner.id in system.db.workflows
  {
  }

  /** Any step of the daemon keeps the decisions' invariant, if the exit it may log is decided. */
  lemma SystemExits(s: State, inner: Step, id: WorkflowId)
    requires CallInvariant(s) && Enabled(s.system, inner) && id in After(s.system, inner).db.workflows
    requires After(s.system, inner).db.Logged()
    requires inner.Act? && inner.id == id ==>
               && |s.system.db.log[id]| < |After(s.system, inner).db.log[id]|
               && s.system.db.log[id] != []
               && ExitDecided(After(s.system, inner).db.log[id], s.decisions, id, |s.system.db.log[id]|)
    ensures ExitsDecided(After(s.system, inner).db.log[id], s.decisions, id)
  {
    hide Reachable, ThreadHolds, DecisionHolds, After, Enabled, ExitDecided;
    if inner.Act? {
      ActIsEnabled(s.system, inner);
      ActLogs(s.system, inner);
    } else {
      OtherLogs(s.system, inner);
    }
    if id in s.system.db.workflows {
      ReachableWorkflow(s.system, id);
      NoEntry(s.system.db.log[id]);
      ExitsStay(s.system.db.log[id], After(s.system, inner).db.log[id], s.decisions, s.decisions, id);
    }
  }

  lemma SystemKeeps(s: State, inner: Step)
    requires CallInvariant(s) && Enabled(s.system, inner)
    requires inner.Act? ==>
               && inner.id in s.system.db.workflows && s.system.db.log[inner.id] != []
               && inner.id in After(s.system, inner).db.log
               && |s.system.db.log[inner.id]| < |After(s.system, inner).db.log[inner.id]|
               && ExitDecided(After(s.system, inner).db.log[inner.id], s.decisions, inner.id, |s.system.db.log[inner.id]|)
    ensures var t := s.(system := After(s.system, inner)); CallInvariant(t) && Follows(s, t)
  {
    hide Reachable, ThreadHolds, DecisionHolds, After, Enabled, ExitDecided, ExitsDecided, LogGrows;
    var t := s.(system := After(s.system, inner));
    SystemLogs(s.system, inner);
    forall id | id in t.system.db.workflows
      ensures ExitsDecided(t.system.db.log[id], t.decisions, id)
    {
      SystemExits(s, inner, id);
    }
    RestStays(s, t, None, None);
  }

  lemma ElsewhereKeeps(s: State, step: CallStep)
    requires CallInvariant(s) && step.Elsewhere? && CallEnabled(s, step)
    ensures CallInvariant(AfterCall(s, step)) && Follows(s, AfterCall(s, step))
  {
    hide Reachable, ThreadHolds, DecisionHolds, After, Enabled, ExitDecided, ExitsDecided, LogGrows;
    var inner := step.step;
    if inner.Act? {
      ActIsEnabled(s.system, inner);
      ActLogs(s.system, inner);
      ElsewhereExit(s, inner, After(s.system, inner).db.log[inner.id]);
      ReachableWorkflow(s.system, inner.id);
    }
    SystemKeeps(s, inner);
  }

  lemma ElsewhereExit(s: State, inner: Step, after: Log)
    requires s.system.db.Logged() && inner.Act? && inner.id in s.system.db.workflows && !IsDecisionAction(inner.transition.action)
    requires var log := s.system.db.log[inner.id];
             && CachesLog(s.system.db.workflows[inner.id], log)
             && |after| == |log| + 1 && after[..|log|] == log && Last(after).action == inner.transition.action
             && NextStatus(s.system.db.workflows[inner.id].status, inner.transition.action, RetryStatusOf(log)).Some?
    ensures ExitDecided(after, s.decisions, inner.id, |s.system.db.log[inner.id]|)
  {
    var log := s.system.db.log[inner.id];
    assert after[|log| - 1] == after[..|log|][|log| - 1];
    if Last(log).to.WaitingApproval? {
      OnlyCancelElsewhere(inner.transition.action, RetryStatusOf(log));
    }
  }

  lemma CurrentRow(s: State, id: WorkflowId)
    requires CallInvariant(s) && id in s.system.db.workflows
    ensures RowKnown(s, id, s.system.db.workflows[id])
    ensures s.system.db.workflows[id].version == |s.system.db.log[id]| && Justified(s.system.db.log[id])
  {
    hide Reachable, ThreadHolds, DecisionHolds, ExitsDecided;
    ReachableWorkflow(s.system, id);
    assert s.system.db.log[id][..|s.system.db.log[id]|] == s.system.db.log[id];
  }

  lemma JustifiedLog(s: State, id: WorkflowId)
    requires CallInvariant(s) && id in s.system.db.workflows
    ensures Justified(s.system.db.log[id]) && ExitsDecided(s.system.db.log[id], s.decisions, id)
  {
    CurrentRow(s, id);
  }

  /** A step that writes nothing but its own thread. */
  lemma QuietKeeps(s: State, t: State, thread: ThreadId)
    requires CallInvariant(s) && t.system == s.system && t.decisions == s.decisions
    requires forall other :: other in t.threads && other != thread ==> other in s.threads && t.threads[other] == s.threads[other]
    requires thread in t.threads ==> ThreadHolds(t, t.threads[thread])
    ensures CallInvariant(t) && Follows(s, t)
  {
    hide Reachable, ThreadHolds, DecisionHolds, ExitsDecided;
    RestStays(s, t, Some(thread), None);
  }

  /** A step that writes one decision: a new one, or the mark of an old one. */
  lemma DecisionKeeps(s: State, t: State, thread: ThreadId, key: Key)
    requires CallInvariant(s) && t.system == s.system
    requires key in t.decisions && t.decisions == s.decisions[key := t.decisions[key]]
    requires key in s.decisions ==>
               && t.decisions[key].snapshot == s.decisions[key].snapshot
               && (s.decisions[key].applied.Some? ==> t.decisions[key].applied.Some?)
    requires forall other :: other in t.threads && other != thread ==> other in s.threads && t.threads[other] == s.threads[other]
    requires thread in t.threads ==> ThreadHolds(t, t.threads[thread])
    requires DecisionHolds(t, key)
    ensures CallInvariant(t) && Follows(s, t)
  {
    hide Reachable, ThreadHolds, DecisionHolds, ExitDecided;
    forall id | id in t.system.db.workflows
      ensures ExitsDecided(t.system.db.log[id], t.decisions, id)
    {
      JustifiedLog(s, id);
      NoEntry(s.system.db.log[id]);
      ExitsStay(s.system.db.log[id], t.system.db.log[id], s.decisions, t.decisions, id);
    }
    RestStays(s, t, Some(thread), Some(key));
  }

  lemma GuardsHold(kind: Kind, input: DecideInput, evidence: Evidence, job: Job)
    requires GuardError(kind, input, evidence, job).None?
    ensures evidence.execution.Some? && evidence.review.Some? && evidence.check.Some? && evidence.checkpoints != []
    ensures job.executionVersion >= input.executionVersion
  {
  }

  lemma BeginKeeps(s: State, step: CallStep)
    requires CallInvariant(s) && step.Begin? && CallEnabled(s, step)
    ensures CallInvariant(AfterCall(s, step)) && Follows(s, AfterCall(s, step))
  {
    hide CallInvariant, GuardError, Normalized, WasRow;
    CurrentRow(s, step.id);
    GuardsHold(step.kind, Normalized(step.input), step.evidence, s.system.db.workflows[step.id]);
    QuietKeeps(s, AfterCall(s, step), step.thread);
  }

  lemma ThreadOf(s: State, thread: ThreadId)
    requires CallInvariant(s) && thread in s.threads
    ensures ThreadHolds(s, s.threads[thread])
  {
  }

  lemma DecisionOf(s: State, key: Key)
    requires CallInvariant(s) && key in s.decisions
    ensures DecisionHolds(s, key)
  {
  }

  lemma LookupKeeps(s: State, step: CallStep)
    requires CallInvariant(s) && step.Lookup? && CallEnabled(s, step)
    ensures CallInvariant(AfterCall(s, step)) && Follows(s, AfterCall(s, step))
  {
    hide CallInvariant, GuardError, WasRow;
    ThreadOf(s, step.thread);
    var thread := s.threads[step.thread];
    GuardsHold(thread.kind, thread.input, thread.evidence, thread.job);
    QuietKeeps(s, AfterCall(s, step), step.thread);
  }

  lemma RecordKeeps(s: State, step: CallStep)
    requires CallInvariant(s) && step.Record? && CallEnabled(s, step)
    ensures CallInvariant(AfterCall(s, step)) && Follows(s, AfterCall(s, step))
  {
    hide CallInvariant, SameDecision;
    ThreadOf(s, step.thread);
    var thread := s.threads[step.thread];
    var t := AfterCall(s, step);
    if thread.key in s.decisions {
      QuietKeeps(s, t, step.thread);
    } else {
      DecisionKeeps(s, t, step.thread, thread.key);
    }
  }

  lemma RereadKeeps(s: State, step: CallStep)
    requires CallInvariant(s) && step.Reread? && CallEnabled(s, step)
    ensures CallInvariant(AfterCall(s, step)) && Follows(s, AfterCall(s, step))
  {
    hide CallInvariant, EntriesThere;
    ThreadOf(s, step.thread);
    var thread := s.threads[step.thread];
    var log := s.system.db.log[thread.key.0];
    DecisionOf(s, thread.key);
    CurrentRow(s, thread.key.0);
    CountGrows(log, thread.snapshot.workflowVersionBefore, |log|, ExecutionStarted);
    QuietKeeps(s, AfterCall(s, step), step.thread);
  }

  lemma MarkKeeps(s: State, step: CallStep)
    requires CallInvariant(s) && step.Mark? && CallEnabled(s, step)
    ensures CallInvariant(AfterCall(s, step)) && Follows(s, AfterCall(s, step))
  {
    hide CallInvariant, EntriesThere, MadeWhileWaiting;
    ThreadOf(s, step.thread);
    DecisionOf(s, s.threads[step.thread].key);
    DecisionKeeps(s, AfterCall(s, step), step.thread, s.threads[step.thread].key);
  }

  lemma VanishKeeps(s: State, step: CallStep)
    requires CallInvariant(s) && step.Vanish?
    ensures CallInvariant(AfterCall(s, step)) && Follows(s, AfterCall(s, step))
  {
    hide CallInvariant;
    QuietKeeps(s, AfterCall(s, step), step.thread);
  }

  /** The call that finds its decision carried out. */
  lemma FinishKeeps(s: State, step: CallStep)
    requires CallInvariant(s) && step.Advance? && CallEnabled(s, step)
    requires var t := s.threads[step.thread]; NextMove(t.snapshot, t.job, t.stage).Finish?
    ensures CallInvariant(AfterCall(s, step)) && Follows(s, AfterCall(s, step))
  {
    hide CallInvariant, EntriesThere, MadeWhileWaiting, WasRow, ExitsDecided;
    ThreadOf(s, step.thread);
    var thread := s.threads[step.thread];
    DecisionOf(s, thread.key);
    JustifiedLog(s, thread.key.0);
    if !thread.stage.AfterDecision? {
      KindIsKnown(s.system.db.log[thread.key.0], thread.snapshot, thread.key.1);
      FinishedMeansEntries(s.system.db.log[thread.key.0], thread.job, s.decisions, thread.key);
    }
    QuietKeeps(s, AfterCall(s, step), step.thread);
  }

  lemma KindIsKnown(log: Log, s: Snapshot, executionVersion: int)
    requires MadeWhileWaiting(log, s, executionVersion)
    ensures !s.kind.KindOther?
  {
  }

  /** The entry a call is about to append is its decision's, if it leaves WAITING_FOR_APPROVAL. */
  lemma TakenExit(s: State, thread: Thread, move: Move, after: Log)
    requires thread.Applying? && move == NextMove(thread.snapshot, thread.job, thread.stage) && move.Take?
    requires ThreadHolds(s, thread) && DecisionHolds(s, thread.key)
    requires var log := s.system.db.log[thread.key.0];
             && thread.job.version == |log| && |after| == |log| + 1 && after[..|log|] == log
             && Last(after).action == move.action
    ensures ExitDecided(after, s.decisions, thread.key.0, thread.job.version)
    ensures move.next.AfterDecision? ==> EntriesThere(after, thread.snapshot)
  {
    var log := s.system.db.log[thread.key.0];
    assert after[|log| - 1] == after[..|log|][|log| - 1];
    assert after[..|log|][..|log|] == log[..|log|] == log;
  }

  /** The transition of a call, before its thread moves on. */
  lemma TakeSystem(s: State, thread: Thread, move: Move, inner: Step)
    requires CallInvariant(s) && thread.Applying? && ThreadHolds(s, thread)
    requires move == NextMove(thread.snapshot, thread.job, thread.stage) && move.Take?
    requires inner.Act? && inner.id == thread.key.0 && inner.transition == TransitionOf(move.action, thread.job.version)
    requires Enabled(s.system, inner)
    ensures var mid := s.(system := After(s.system, inner));
            && CallInvariant(mid) && Follows(s, mid) && thread.key.0 in mid.system.db.log
            && (move.next.AfterDecision? ==> EntriesThere(mid.system.db.log[thread.key.0], thread.snapshot))
  {
    hide EntriesThere, MadeWhileWaiting, WasRow, Enabled, After, ExitDecided, Reachable, Follows, NextMove, ExitsDecided;
    DecisionOf(s, thread.key);
    CurrentRow(s, thread.key.0);
    hide CallInvariant;
    ReachableOf(s);
    ActLogs(s.system, inner);
    TakenExit(s, thread, move, After(s.system, inner).db.log[thread.key.0]);
    SystemKeeps(s, inner);
  }

  lemma TakeKeeps(s: State, step: CallStep)
    requires CallInvariant(s) && step.Advance? && CallEnabled(s, step)
    requires var t := s.threads[step.thread]; NextMove(t.snapshot, t.job, t.stage).Take?
    ensures CallInvariant(AfterCall(s, step)) && Follows(s, AfterCall(s, step))
  {
    hide CallInvariant, EntriesThere, Enabled, After, Reachable, Follows, NextMove, ThreadHolds;
    var thread := s.threads[step.thread];
    var move := NextMove(thread.snapshot, thread.job, thread.stage);
    var inner := Act(thread.key.0, TransitionOf(move.action, thread.job.version), step.freshId, step.now, step.enqueuedAt);
    var mid := s.(system := After(s.system, inner));
    ThreadOf(s, step.thread);
    TakeSystem(s, thread, move, inner);
    TakenThread(s, mid, thread, move, AfterCall(s, step));
    QuietKeeps(mid, AfterCall(s, step), step.thread);
    FollowsTransitive(s, mid, AfterCall(s, step));
  }

  lemma ReachableOf(s: State)
    requires CallInvariant(s)
    ensures Reachable(s.system) && s.system.db.Logged()
  {
  }

  lemma TakenThread(s: State, mid: State, thread: Thread, move: Move, t: State)
    requires thread.Applying? && move == NextMove(thread.snapshot, thread.job, thread.stage) && move.Take?
    requires ThreadHolds(s, thread) && Follows(s, mid)
    requires move.next.AfterDecision? ==>
               thread.key.0 in mid.system.db.log && EntriesThere(mid.system.db.log[thread.key.0], thread.snapshot)
    requires t.system == mid.system && t.decisions == mid.decisions
    ensures ThreadHolds(t, Moved(thread.key, thread.snapshot, move.next))
  {
    hide EntriesThere, WasRow, LogGrows;
  }

  lemma FollowsTransitive(a: State, b: State, c: State)
    requires Follows(a, b) && Follows(b, c)
    ensures Follows(a, c)
  {
    forall id | id in a.system.db.workflows
      ensures id in c.system.db.workflows && LogGrows(a.system.db.log[id], c.system.db.log[id])
    {
      var x, y, z := a.system.db.log[id], b.system.db.log[id], c.system.db.log[id];
      assert z[..|x|] == z[..|y|][..|x|];
    }
  }

  lemma CallStepKeeps(s: State, step: CallStep)
    requires CallInvariant(s) && CallEnabled(s, step)
    ensures CallInvariant(AfterCall(s, step)) && Follows(s, AfterCall(s, step))
  {
    hide CallInvariant, Follows, AfterCall;
    match step
    case Elsewhere(_) => ElsewhereKeeps(s, step);
    case Begin(_, _, _, _, _) => BeginKeeps(s, step);
    case Lookup(_) => LookupKeeps(s, step);
    case Record(_) => RecordKeeps(s, step);
    case Advance(thread, _, _, _) =>
      var t := s.threads[thread];
      if NextMove(t.snapshot, t.job, t.stage).Finish? {
        FinishKeeps(s, step);
      } else {
        TakeKeeps(s, step);
      }
    case Reread(_) => RereadKeeps(s, step);
    case Mark(_) => MarkKeeps(s, step);
    case Vanish(_) => VanishKeeps(s, step);
  }

  // ----- runs -----

  ghost predicate CallsLead(s: State, steps: seq<CallStep>, t: State)
    decreases |steps|
  {
    if steps == [] then s == t
    else CallEnabled(s, steps[0]) && CallsLead(AfterCall(s, steps[0]), steps[1..], t)
  }

  lemma {:induction false} CallRunKeeps(s: State, steps: seq<CallStep>, t: State)
    requires CallInvariant(s) && CallsLead(s, steps, t)
    ensures CallInvariant(t) && Follows(s, t)
    decreases |steps|
  {
    hide CallInvariant, AfterCall, CallEnabled;
    if steps == [] {
      ReachableOf(s);
    } else {
      CallStepKeeps(s, steps[0]);
      CallRunKeeps(AfterCall(s, steps[0]), steps[1..], t);
      FollowsTransitive(s, AfterCall(s, steps[0]), t);
    }
  }

  lemma StartHolds()
    ensures CallInvariant(START)
  {
    assert Orchestrator.Leads(INITIAL, [], INITIAL);
  }

  // ----- every decision was licensed -----

  /** The decision copies a request and the evidence its call found, and these license it. */
  predicate MadeFrom(step: CallStep, key: Key, s: Snapshot) {
    && step.Begin? && key == (step.id, step.input.executionVersion) && IsAsked(step.kind, step.input)
    && IsComplete(step.evidence) && IsAboutLastCheckpoint(step.input, step.evidence)
    && (step.kind.KindApprove? ==> ChecksAllow(step.input, step.evidence) && ReviewAllows(step.input, step.evidence))
    && var execution, review, check := step.evidence.execution.value, step.evidence.review.value, step.evidence.check.value;
       s == Snapshot(step.kind, review.id, execution.id, step.evidence.checkpoints[|step.evidence.checkpoints| - 1].id,
                     Text.TrimSpace(step.input.baseCommit), Text.TrimSpace(step.input.patchChecksum), Text.TrimSpace(step.input.note),
                     step.input.reviewOverride, review.verdict, check.status, check.failedSteps,
                     step.input.expectedVersion, s.revisionCountBefore)
  }

  ghost predicate WasMade(past: seq<CallStep>, key: Key, s: Snapshot) {
    exists i :: 0 <= i < |past| && MadeFrom(past[i], key, s)
  }

  /** The call was begun with this request and evidence, and passed its guards. */
  ghost predicate WasBegun(past: seq<CallStep>, t: Thread)
    requires t.Loaded?
  {
    exists i :: 0 <= i < |past| && IsBeginOf(past[i], t)
  }

  predicate IsBeginOf(step: CallStep, t: Thread)
    requires t.Loaded?
  {
    && step.Begin? && step.id == t.id && step.kind == t.kind && Normalized(step.input) == t.input && step.evidence == t.evidence
    && GuardError(t.kind, t.input, t.evidence, t.job).None?
  }

  ghost predicate ThreadLicensed(past: seq<CallStep>, t: Thread) {
    if t.Loaded? then WasBegun(past, t) else WasMade(past, t.key, t.snapshot)
  }

  ghost predicate Licensed(past: seq<CallStep>, s: State) {
    && (forall thread :: thread in s.threads ==> ThreadLicensed(past, s.threads[thread]))
    && (forall key :: key in s.decisions ==> WasMade(past, key, s.decisions[key].snapshot))
  }

  lemma PastGrows(past: seq<CallStep>, s: State, step: CallStep)
    requires Licensed(past, s)
    ensures Licensed(past + [step], s)
  {
    hide MadeFrom, IsBeginOf;
    var longer := past + [step];
    assert forall i :: 0 <= i < |past| ==> longer[i] == past[i];
    forall thread | thread in s.threads
      ensures ThreadLicensed(longer, s.threads[thread])
    {
      assert ThreadLicensed(past, s.threads[thread]);
    }
  }

  lemma BegunIsMade(past: seq<CallStep>, t: Thread, before: int)
    requires t.Loaded? && WasBegun(past, t)
    ensures t.evidence.execution.Some? && t.evidence.review.Some? && t.evidence.check.Some? && t.evidence.checkpoints != []
    ensures WasMade(past, (t.id, t.input.executionVersion), SnapshotOf(t.kind, t.input, t.evidence, before))
  {
    var i :| 0 <= i < |past| && IsBeginOf(past[i], t);
    GuardsAre(past[i].kind, past[i].input, past[i].evidence, t.job);
    GuardsHold(t.kind, t.input, t.evidence, t.job);
    hide GuardError, Text.TrimSpace;
    assert MadeFrom(past[i], (t.id, t.input.executionVersion), SnapshotOf(t.kind, t.input, t.evidence, before));
  }

  /** A call step adds only what its own thread was licensed for. */
  lemma CallStaysLicensed(past: seq<CallStep>, s: State, step: CallStep)
    requires Licensed(past, s) && CallEnabled(s, step) && !step.Elsewhere? && !step.Begin?
    ensures Licensed(past, AfterCall(s, step))
  {
    hide WasMade, WasBegun, GuardError, SameDecision, ValidSnapshot, NextMove, Enabled, After, SnapshotOf;
    if !step.Vanish? {
      var t := s.threads[step.thread];
      assert ThreadLicensed(past, t);
      if step.Lookup? {
        var key := (t.id, t.input.executionVersion);
        BegunIsMade(past, t, if key in s.decisions then s.decisions[key].snapshot.revisionCountBefore else t.job.revisionCount);
      }
    }
  }

  lemma StepStaysLicensed(past: seq<CallStep>, s: State, step: CallStep)
    requires Licensed(past, s) && CallEnabled(s, step)
    ensures Licensed(past + [step], AfterCall(s, step))
  {
    if step.Begin? {
      PastGrows(past, s, step);
      hide MadeFrom, GuardError, Normalized;
      var t := AfterCall(s, step).threads[step.thread];
      assert (past + [step])[|past|] == step && IsBeginOf(step, t);
      assert ThreadLicensed(past + [step], t);
    } else {
      if step.Elsewhere? {
        hide Enabled, After;
      } else {
        CallStaysLicensed(past, s, step);
      }
      hide CallEnabled, WasMade, WasBegun;
      PastGrows(past, AfterCall(s, step), step);
    }
  }

  lemma {:induction false} RunStaysLicensed(past: seq<CallStep>, s: State, steps: seq<CallStep>, t: State)
    requires Licensed(past, s) && CallsLead(s, steps, t)
    ensures Licensed(past + steps, t)
    decreases |steps|
  {
    hide Licensed, CallEnabled, AfterCall;
    if steps == [] {
      assert past + steps == past;
    } else {
      StepStaysLicensed(past, s, steps[0]);
      RunStaysLicensed(past + [steps[0]], AfterCall(s, steps[0]), steps[1..], t);
      assert past + [steps[0]] + steps[1..] == past + steps;
    }
  }

  /**
    Over all interleavings and crashes: every recorded decision copies a request made in the run and
    the evidence it found, complete and about the last checkpoint. So a recorded approval has passed
    checks, or failed ones overruled with a reason, and overrules a review that asked for a revision.
   */
  lemma DecisionWasLicensed(steps: seq<CallStep>, s: State, key: Key)
    requires CallsLead(START, steps, s) && key in s.decisions
    ensures exists i :: 0 <= i < |steps| && MadeFrom(steps[i], key, s.decisions[key].snapshot)
    ensures var d := s.decisions[key].snapshot;
            && d.baseCommit != "" && d.patchChecksum != ""
            && (d.kind.KindApprove? ==>
                  && (d.checkStatus == ChecksPassed || (d.checkStatus == ChecksFailed && d.reviewOverride && d.note != ""))
                  && (d.verdict == VerdictRequestRevision ==> d.reviewOverride && d.note != ""))
            && (!d.kind.KindApprove? ==> d.note != "")
  {
    assert [] + steps == steps;
    RunStaysLicensed([], START, steps, s);
    hide CallsLead, Text.TrimSpace;
    assert WasMade(steps, key, s.decisions[key].snapshot);
  }

  /**
    Exactly-once decisions, over every interleaving and every crash: whatever but CANCEL leaves
    WAITING_FOR_APPROVAL is the decision of that execution version, recorded before; an APPLIED
    decision has its entry right after the version it was made at; and an APPLIED revision
    has its QUEUE_REVISION right behind that.
   */
  lemma ExactlyOnce(steps: seq<CallStep>, s: State, key: Key)
    requires CallsLead(START, steps, s) && key.0 in s.system.db.workflows
    ensures key.0 in s.system.db.log
    ensures var log := s.system.db.log[key.0];
            forall i :: 0 < i < |log| && log[i - 1].to.WaitingApproval? && !log[i].action.Cancel? ==>
              var made := (key.0, Count(log[..i], ExecutionStarted));
              && made in s.decisions && s.decisions[made].snapshot.workflowVersionBefore == i
              && log[i].action == ActionOf(s.decisions[made].snapshot.kind)
    ensures var log := s.system.db.log[key.0];
            key in s.decisions && s.decisions[key].applied.Some? ==>
              var snapshot := s.decisions[key].snapshot;
              var v := snapshot.workflowVersionBefore;
              && 1 <= v < |log| && log[v - 1].to.WaitingApproval? && log[v].action == ActionOf(snapshot.kind)
              && Count(log[..v], ExecutionStarted) == key.1
              && (snapshot.kind.KindRequestRevision? ==> v + 1 < |log| && log[v + 1].action.QueueRevision?)
  {
    hide CallInvariant, CallEnabled, AfterCall, Follows, CallsLead, Reachable, Justified;
    StartHolds();
    CallRunKeeps(START, steps, s);
    ReachableOf(s);
    JustifiedLog(s, key.0);
    if key in s.decisions {
      DecisionOf(s, key);
    }
    var log := s.system.db.log[key.0];
    forall i | 0 < i < |log| && log[i - 1].to.WaitingApproval? && !log[i].action.Cancel?
      ensures var made := (key.0, Count(log[..i], ExecutionStarted));
              && made in s.decisions && s.decisions[made].snapshot.workflowVersionBefore == i
              && log[i].action == ActionOf(s.decisions[made].snapshot.kind)
    {
      assert ExitDecided(log, s.decisions, key.0, i);
    }
  }

  /** Two decisions are never made at the same version of a workflow. */
  lemma OneDecisionPerVisit(steps: seq<CallStep>, s: State, a: Key, b: Key)
    requires CallsLead(START, steps, s) && a in s.decisions && b in s.decisions && a.0 == b.0
    requires s.decisions[a].snapshot.workflowVersionBefore == s.decisions[b].snapshot.workflowVersionBefore
    ensures a == b
  {
    hide CallInvariant;
    StartHolds();
    CallRunKeeps(START, steps, s);
    DecisionOf(s, a);
    DecisionOf(s, b);
  }

  /** A recorded decision keeps its kind and everything it is bound to, for the rest of every run. */
  lemma DecisionIsImmutable(before: seq<CallStep>, s: State, steps: seq<CallStep>, t: State, key: Key)
    requires CallsLead(START, before, s) && CallsLead(s, steps, t) && key in s.decisions
    ensures key in t.decisions && t.decisions[key].snapshot == s.decisions[key].snapshot
    ensures s.decisions[key].applied.Some? ==> t.decisions[key].applied.Some?
  {
    hide CallInvariant;
    StartHolds();
    CallRunKeeps(START, before, s);
    CallRunKeeps(s, steps, t);
  }

  // ----- one call, uninterrupted -----

  lemma {:induction false} CallsLeadOneMore(s: State, steps: seq<CallStep>, t: State, step: CallStep)
    requires CallsLead(s, steps, t) && CallEnabled(t, step)
    ensures CallsLead(s, steps + [step], AfterCall(t, step))
    decreases |steps|
  {
    hide CallEnabled, AfterCall;
    var longer := steps + [step];
    if steps == [] {
      assert longer[1..] == [];
    } else {
      CallsLeadOneMore(AfterCall(s, steps[0]), steps[1..], t, step);
      assert longer[1..] == steps[1..] + [step];
    }
  }

  lemma RecordEffect(s: State, thread: ThreadId)
    requires thread in s.threads && s.threads[thread].Bound?
    ensures var t := s.threads[thread];
            && (CallEnabled(s, Record(thread)) <==>
                ValidSnapshot(t.snapshot) && (t.key in s.decisions ==> SameDecision(s.decisions[t.key].snapshot, t.snapshot)))
            && (CallEnabled(s, Record(thread)) ==>
                  var d := if t.key in s.decisions then s.decisions[t.key] else Decision(t.snapshot, None);
                  AfterCall(s, Record(thread)) ==
                  s.(decisions := s.decisions[t.key := d],
                     threads := if d.applied.Some? then Without(s.threads, thread)
                                else s.threads[thread := Applying(t.key, d.snapshot, t.job, AtTop)]))
  {
    var t := s.threads[thread];
    assert t.key in s.decisions ==> s.decisions[t.key := s.decisions[t.key]] == s.decisions;
  }

  lemma MarkEffect(s: State, thread: ThreadId)
    requires thread in s.threads && s.threads[thread].Done? && s.threads[thread].key in s.decisions
    ensures CallEnabled(s, Mark(thread))
    ensures var t := s.threads[thread];
            AfterCall(s, Mark(thread)) ==
            s.(decisions := s.decisions[t.key := s.decisions[t.key].(applied := Some(t.job.version))],
               threads := Without(s.threads, thread))
  {
  }

  lemma SameDecisionReflexive(s: Snapshot)
    ensures SameDecision(s, s)
  {
  }

  /** The workflow waits at the decision's version, and a revision still fits its limits. */
  predicate CanCarryOut(s: Snapshot, job: Job) {
    && job.status.WaitingApproval? && job.version == s.workflowVersionBefore && !s.kind.KindOther?
    && (s.kind.KindRequestRevision? ==>
          job.revisionCount == s.revisionCountBefore && job.revisionCount < job.limits.maxRevisions
          && job.limits.maxStageAttempts >= 1)
  }

  /**
    The row lets the decision be carried out, or shows that it was: one uninterrupted apply
    succeeds on exactly these rows.
   */
  predicate Settles(s: Snapshot, job: Job) {
    && (job.status.WaitingApproval? ==> job.version == s.workflowVersionBefore)
    && match s.kind
       case KindApprove =>
         job.status.WaitingApproval? || job.status.Approved? || job.status.Publishing? || job.status.Completed?
       case KindReject => job.status.WaitingApproval? || job.status.Rejected?
       case KindRequestRevision =>
         || job.revisionCount > s.revisionCountBefore
         || ((job.status.WaitingApproval? || job.status.RevisionRequired?) && job.revisionCount == s.revisionCountBefore
             && job.revisionCount < job.limits.maxRevisions && job.limits.maxStageAttempts >= 1)
       case KindOther => false
  }

  /** A call with this snapshot succeeds: the decision can be stored or is the recorded one, and that is applied or settles. */
  predicate CallSucceeds(decisions: map<Key, Decision>, key: Key, snapshot: Snapshot, job: Job) {
    && ValidSnapshot(snapshot)
    && if key in decisions
       then SameDecision(decisions[key].snapshot, snapshot)
            && (decisions[key].applied.Some? || Settles(decisions[key].snapshot, job))
       else Settles(snapshot, job)
  }

  /** What a call takes for the revision count before its decision. */
  function CountBefore(decisions: map<Key, Decision>, key: Key, job: Job): int {
    if key in decisions then decisions[key].snapshot.revisionCountBefore else job.revisionCount
  }

  /** A call that passed its guards finds a decision, or the workflow waiting for a first one at the version it expects. */
  predicate FindsDecision(decisions: map<Key, Decision>, key: Key, input: DecideInput, job: Job) {
    || key in decisions
    || (job.status.WaitingApproval? && job.version == input.expectedVersion && job.executionVersion == input.executionVersion)
  }

  /** Where a decision takes the workflow. */
  function Destination(kind: Kind): Status {
    match kind
    case KindApprove => Approved
    case KindReject => Rejected
    case _ => Queued
  }

  /** A first decision for the execution version the workflow waits with, at its current version, and within all limits. */
  predicate IsAwaited(kind: Kind, input: DecideInput, evidence: Evidence, job: Job) {
    && evidence.execution.Some? && evidence.review.Some? && evidence.check.Some? && evidence.checkpoints != []
    && job.version == input.expectedVersion && job.executionVersion == input.executionVersion
    && var snapshot := SnapshotOf(kind, input, evidence, job.revisionCount);
       ValidSnapshot(snapshot) && CanCarryOut(snapshot, job)
  }

  lemma AwaitedMeans(kind: Kind, input: DecideInput, evidence: Evidence, job: Job)
    requires IsAwaited(kind, input, evidence, job)
    ensures evidence.execution.Some? && evidence.review.Some? && evidence.check.Some? && evidence.checkpoints != []
    ensures job.status.WaitingApproval? && job.version == input.expectedVersion && job.executionVersion == input.executionVersion
    ensures var snapshot := SnapshotOf(kind, input, evidence, job.revisionCount);
            ValidSnapshot(snapshot) && CanCarryOut(snapshot, job)
  {
  }

  lemma DecisionMoves(s: Snapshot, job: Job, dispatch: Option<JobId>, now: int)
    requires CanCarryOut(s, job) && job.version >= 1
    ensures var input := TransitionOf(ActionOf(s.kind), job.version);
            && TransitionError(job, input).None?
            && var row := RowWith(job, input, dispatch, now);
               && row.status == (if s.kind.KindRequestRevision? then RevisionRequired else Destination(s.kind))
               && row.version == job.version + 1 && row.revisionCount == job.revisionCount && row.limits == job.limits
  {
  }

  /** From WAITING_FOR_APPROVAL at the decision's own version the first transition always goes through. */
  lemma FirstMove(s: Snapshot, job: Job, dispatch: Option<JobId>, now: int)
    requires job.status.WaitingApproval? && job.version >= 1 && !s.kind.KindOther?
    ensures var input := TransitionOf(ActionOf(s.kind), job.version);
            && TransitionError(job, input).None?
            && var row := RowWith(job, input, dispatch, now);
               && row.version == job.version + 1 && row.revisionCount == job.revisionCount && row.limits == job.limits
               && (s.kind.KindRequestRevision? ==> row.status.RevisionRequired?)
  {
  }

  /** A revision is queued exactly within its limits. */
  lemma RevisionQueuesIff(job: Job)
    requires job.status.RevisionRequired? && job.version >= 1
    ensures TransitionError(job, TransitionOf(QueueRevision, job.version)).None? <==>
              job.revisionCount < job.limits.maxRevisions && job.limits.maxStageAttempts >= 1
  {
  }

  lemma RevisionMoves(job: Job, dispatch: Option<JobId>, now: int)
    requires job.status.RevisionRequired? && job.version >= 1 && job.revisionCount < job.limits.maxRevisions
    requires job.limits.maxStageAttempts >= 1
    ensures var input := TransitionOf(QueueRevision, job.version);
            && TransitionError(job, input).None?
            && var row := RowWith(job, input, dispatch, now);
               row.status.Queued? && row.revisionCount == job.revisionCount + 1
  {
  }

  /** The service: the decision table beside the workflow repository. Each method's run is a run of the threads above. */
  class Service {
    const workflows: Repository
    var decisions: map<Key, Decision>
    ghost var start: State
    ghost var state: State
    ghost var steps: seq<CallStep>

    /** The ghost state is where the recorded steps lead, and agrees with the tables. */
    ghost predicate Valid()
      reads this, workflows, workflows.queue
    {
      && workflows.Snapshot().Logged()
      && state.system.db == workflows.Snapshot() && state.decisions == decisions
      && CallsLead(start, steps, state)
    }

    constructor (workflows: Repository, ghost state: State)
      requires workflows.Snapshot().Logged() && state.system.db == workflows.Snapshot() && state.decisions == map[]
      ensures Valid() && this.workflows == workflows && this.state == this.start == state
    {
      this.workflows, this.decisions := workflows, map[];
      this.start, this.state, this.steps := state, state, [];
    }

    ghost method Took(step: CallStep)
      requires CallsLead(start, steps, state) && CallEnabled(state, step)
      modifies `state, `steps
      ensures state == AfterCall(old(state), step) && CallsLead(start, steps, state)
    {
      hide CallEnabled, AfterCall;
      CallsLeadOneMore(start, steps, state, step);
      steps := steps + [step];
      state := AfterCall(state, step);
    }

    /** CreateOrGet: the one decision of its key, new or recorded earlier with the same snapshot. */
    method CreateOrGet(key: Key, snapshot: Snapshot) returns (r: Result<Decision, DecideError>)
      modifies `decisions
      ensures r.Ok? <==> ValidSnapshot(snapshot) && (key in old(decisions) ==> SameDecision(old(decisions)[key].snapshot, snapshot))
      ensures r.Err? ==> decisions == old(decisions) && r.error == if ValidSnapshot(snapshot) then SnapshotConflict else Invalid
      ensures r.Ok? ==> r.value == if key in old(decisions) then old(decisions)[key] else Decision(snapshot, None)
      ensures r.Ok? ==> decisions == old(decisions)[key := r.value]
    {
      if !ValidSnapshot(snapshot) {
        return Err(Invalid);
      }
      if key in decisions {
        if !SameDecision(decisions[key].snapshot, snapshot) {
          return Err(SnapshotConflict);
        }
        return Ok(decisions[key]);
      }
      decisions := decisions[key := Decision(snapshot, None)];
      return Ok(decisions[key]);
    }

    /** One transition of a decision, and the re-read behind it; None if it is refused. */
    method Transition(key: Key, snapshot: Snapshot, job: Job, ghost stage: Stage, move: Move, freshId: JobId, now: int,
                      enqueuedAt: int, ghost thread: ThreadId)
      returns (reread: Option<Job>)
      requires Valid() && freshId !in workflows.queue.rows && job.version >= 1
      requires move == NextMove(snapshot, job, stage) && move.Take? && !move.action.BlankAction?
      requires thread in state.threads && state.threads[thread] == Applying(key, snapshot, job, stage)
      modifies this, workflows, workflows.queue
      ensures Valid() && decisions == old(decisions) && start == old(start)
      ensures workflows.queue.rows.Keys <= old(workflows.queue.rows.Keys) + {freshId}
      ensures reread.Some? ==>
                && key.0 in workflows.workflows && workflows.workflows[key.0] == reread.value && reread.value.version >= 1
                && state.threads == old(state).threads[thread := Applying(key, snapshot, reread.value, move.next)]
      ensures reread.None? ==> state == old(state) && workflows.Snapshot() == old(workflows.Snapshot())
      ensures reread.Some? <==> key.0 in old(workflows.workflows)
                                && TransitionError(old(workflows.workflows)[key.0], TransitionOf(move.action, job.version)).None?
      ensures key.0 in old(workflows.workflows)
              && TransitionError(old(workflows.workflows)[key.0], TransitionOf(move.action, job.version)).None? ==>
                && reread.Some?
                && reread.value == RowWith(old(workflows.workflows)[key.0], TransitionOf(move.action, job.version),
                                           reread.value.currentDispatch, now)
    {
      hide TransitionError, NextMove, CallsLead, EntryFor, NewDispatch, DispatchAfter, CancellationAfter;
      var input := TransitionOf(move.action, job.version);
      ghost var inner := Act(key.0, input, freshId, now, enqueuedAt);
      var r := workflows.Transition(key.0, input, freshId, now, enqueuedAt);
      if r.Err? {
        return None;
      }
      assert Enabled(state.system, inner);
      Took(Advance(thread, freshId, now, enqueuedAt));
      Took(Reread(thread));
      reread := Some(workflows.workflows[key.0]);
    }

    /** A call that ends early leaves nothing but what it has written. */
    ghost method Gone(thread: ThreadId, others: map<ThreadId, Thread>)
      requires Valid() && thread !in others && state.threads.Keys == others.Keys + {thread}
      requires forall other :: other in others ==> state.threads[other] == others[other]
      modifies `state, `steps
      ensures Valid() && state == old(state).(threads := others)
    {
      hide CallsLead;
      Took(Vanish(thread));
      assert state.threads == others;
    }

    /** The last look: nothing is left to write. */
    ghost method Finished(key: Key, snapshot: Snapshot, job: Job, stage: Stage, thread: ThreadId)
      requires Valid() && NextMove(snapshot, job, stage).Finish?
      requires thread in state.threads && state.threads[thread] == Applying(key, snapshot, job, stage)
      modifies `state, `steps
      ensures Valid() && state == old(state).(threads := old(state).threads[thread := Done(key, snapshot, job)])
    {
      hide CallsLead, NextMove;
      Took(Advance(thread, 0, 0, 0));
    }

    /** applyRevision: REQUEST_REVISION and QUEUE_REVISION, each only if the row still calls for it. */
    method ApplyRevision(key: Key, snapshot: Snapshot, first: Job, freshIds: (JobId, JobId), now: int, enqueuedAt: int,
                         ghost thread: ThreadId)
      returns (r: Option<Job>)
      requires Valid() && freshIds.0 !in workflows.queue.rows && freshIds.1 !in workflows.queue.rows && freshIds.0 != freshIds.1
      requires first.version >= 1 && snapshot.kind.KindRequestRevision?
      requires first.status.WaitingApproval? ==> first.version == snapshot.workflowVersionBefore
      requires thread in state.threads && state.threads[thread] == Applying(key, snapshot, first, AtTop)
      modifies this, workflows, workflows.queue
      ensures Valid() && decisions == old(decisions) && start == old(start)
      ensures r.Some? ==> state.threads == old(state).threads[thread := Done(key, snapshot, r.value)]
      ensures r.None? ==> state.threads.Keys == old(state).threads.Keys
      ensures key.0 in old(workflows.workflows) && old(workflows.workflows)[key.0] == first ==> (r.Some? <==> Settles(snapshot, first))
      ensures CanCarryOut(snapshot, first) && key.0 in old(workflows.workflows) && old(workflows.workflows)[key.0] == first ==>
                r.Some? && key.0 in workflows.workflows && workflows.workflows[key.0].status.Queued?
      ensures forall other :: other in old(state).threads && other != thread ==>
                other in state.threads && state.threads[other] == old(state).threads[other]
    {
      hide CallsLead, TransitionError, RowWith;
      ghost var current := key.0 in workflows.workflows && workflows.workflows[key.0] == first;
      if first.revisionCount > snapshot.revisionCountBefore {
        Finished(key, snapshot, first, AtTop, thread);
        return Some(first);
      }
      var job := first;
      ghost var stage := AtTop;
      if job.status.WaitingApproval? {
        FirstMove(snapshot, first, None, now);
        var reread := Transition(key, snapshot, job, stage, Take(RequestRevision, AfterRequest), freshIds.0, now, enqueuedAt, thread);
        if reread.None? {
          return None;
        }
        FirstMove(snapshot, first, reread.value.currentDispatch, now);
        job, stage := reread.value, AfterRequest;
      }
      if job.status.RevisionRequired? {
        RevisionQueuesIff(job);
        var reread := Transition(key, snapshot, job, stage, Take(QueueRevision, AfterQueue), freshIds.1, now, enqueuedAt, thread);
        if reread.None? {
          return None;
        }
        if current {
          RevisionMoves(job, reread.value.currentDispatch, now);
        }
        job, stage := reread.value, AfterQueue;
      }
      if job.revisionCount <= snapshot.revisionCountBefore {
        return None;
      }
      Finished(key, snapshot, job, stage, thread);
      return Some(job);
    }

    /** apply: the row that shows the decision carried out, or None. */
    method Apply(key: Key, snapshot: Snapshot, job: Job, freshIds: (JobId, JobId), now: int, enqueuedAt: int,
                 ghost thread: ThreadId)
      returns (r: Option<Job>)
      requires Valid() && freshIds.0 !in workflows.queue.rows && freshIds.1 !in workflows.queue.rows && freshIds.0 != freshIds.1
      requires job.version >= 1 && thread in state.threads && state.threads[thread] == Applying(key, snapshot, job, AtTop)
      modifies this, workflows, workflows.queue
      ensures Valid() && decisions == old(decisions) && start == old(start)
      ensures r.Some? ==> state.threads == old(state).threads[thread := Done(key, snapshot, r.value)]
      ensures r.None? ==> state.threads.Keys == old(state).threads.Keys
      ensures key.0 in old(workflows.workflows) && old(workflows.workflows)[key.0] == job ==> (r.Some? <==> Settles(snapshot, job))
      ensures CanCarryOut(snapshot, job) && key.0 in old(workflows.workflows) && old(workflows.workflows)[key.0] == job ==>
                r.Some? && key.0 in workflows.workflows && workflows.workflows[key.0].status == Destination(snapshot.kind)
      ensures forall other :: other in old(state).threads && other != thread ==>
                other in state.threads && state.threads[other] == old(state).threads[other]
    {
      hide CallsLead, TransitionError, RowWith;
      ghost var fits := CanCarryOut(snapshot, job) && key.0 in workflows.workflows && workflows.workflows[key.0] == job;
      if job.status.WaitingApproval? && job.version != snapshot.workflowVersionBefore {
        return None;
      }
      if snapshot.kind.KindRequestRevision? {
        r := ApplyRevision(key, snapshot, job, freshIds, now, enqueuedAt, thread);
        return r;
      }
      if (snapshot.kind.KindApprove? && AlreadyAdvanced(job.status)) || (snapshot.kind.KindReject? && job.status.Rejected?) {
        Finished(key, snapshot, job, AtTop, thread);
        return Some(job);
      }
      if !job.status.WaitingApproval? || snapshot.kind.KindOther? {
        return None;
      }
      FirstMove(snapshot, job, None, now);
      var reread := Transition(key, snapshot, job, AtTop, Take(ActionOf(snapshot.kind), AfterDecision), freshIds.0, now, enqueuedAt,
                               thread);
      if reread.None? {
        return None;
      }
      if fits {
        DecisionMoves(snapshot, job, reread.value.currentDispatch, now);
      }
      Finished(key, snapshot, reread.value, AfterDecision, thread);
      return reread;
    }

    /** MarkApplied. */
    method MarkApplied(key: Key, version: nat) returns (marked: Decision)
      requires key in decisions
      modifies `decisions
      ensures decisions == old(decisions)[key := marked] && marked == old(decisions)[key].(applied := Some(version))
    {
      marked := decisions[key].(applied := Some(version));
      decisions := decisions[key := marked];
    }

    /** The last part of Decide: carry a pending decision out and mark it. */
    method CarryOut(key: Key, decision: Decision, job: Job, freshIds: (JobId, JobId), now: int, enqueuedAt: int,
                    ghost thread: ThreadId, ghost others: map<ThreadId, Thread>)
      returns (r: Result<Decision, DecideError>)
      requires Valid() && job.version >= 1 && key in decisions && decisions[key] == decision
      requires freshIds.0 !in workflows.queue.rows && freshIds.1 !in workflows.queue.rows && freshIds.0 != freshIds.1
      requires thread !in others && state.threads == others[thread := Applying(key, decision.snapshot, job, AtTop)]
      modifies this, workflows, workflows.queue
      ensures Valid() && start == old(start) && state.threads == others
      ensures r.Ok? ==> key in decisions && decisions[key] == r.value && r.value.applied.Some?
      ensures r.Ok? ==> r.value.snapshot == decision.snapshot
      ensures key.0 in old(workflows.workflows) && old(workflows.workflows)[key.0] == job ==>
                (r.Ok? <==> Settles(decision.snapshot, job))
      ensures r.Err? ==> r.error.NotAwaitingDecision?
      ensures decisions == if r.Ok? then old(decisions)[key := r.value] else old(decisions)
      ensures CanCarryOut(decision.snapshot, job) && key.0 in old(workflows.workflows) && old(workflows.workflows)[key.0] == job ==>
                r.Ok? && key.0 in workflows.workflows && workflows.workflows[key.0].status == Destination(decision.snapshot.kind)
    {
      hide CallsLead, CallEnabled, AfterCall, CanCarryOut, Destination, Settles;
      var applied := Apply(key, decision.snapshot, job, freshIds, now, enqueuedAt, thread);
      if applied.None? {
        Gone(thread, others);
        return Err(NotAwaitingDecision);
      }
      var marked := MarkApplied(key, applied.value.version);
      MarkEffect(state, thread);
      Took(Mark(thread));
      assert state.threads == others;
      return Ok(marked);
    }

    /** The second half of Decide: record the decision, carry it out, mark it. */
    method Settle(key: Key, snapshot: Snapshot, job: Job, freshIds: (JobId, JobId), now: int, enqueuedAt: int,
                  ghost thread: ThreadId, ghost others: map<ThreadId, Thread>)
      returns (r: Result<Decision, DecideError>)
      requires Valid() && job.version >= 1
      requires freshIds.0 !in workflows.queue.rows && freshIds.1 !in workflows.queue.rows && freshIds.0 != freshIds.1
      requires thread !in others && state.threads == others[thread := Bound(key, snapshot, job)]
      modifies this, workflows, workflows.queue
      ensures Valid() && start == old(start) && state.threads == others
      ensures r.Ok? ==> key in decisions && decisions[key] == r.value && r.value.applied.Some?
      ensures r.Ok? ==> SameDecision(r.value.snapshot, snapshot)
      ensures !ValidSnapshot(snapshot) ==> r == Err(Invalid) && decisions == old(decisions)
      ensures key.0 in old(workflows.workflows) && old(workflows.workflows)[key.0] == job ==>
                (r.Ok? <==> CallSucceeds(old(decisions), key, snapshot, job))
      ensures key in old(decisions) && old(decisions)[key].applied.Some? && r.Ok? ==>
                r.value == old(decisions)[key] && workflows.Snapshot() == old(workflows.Snapshot())
      ensures r.Ok? ==> decisions == old(decisions)[key := r.value]
      ensures r.Err? ==> decisions == old(decisions)
                         || (key !in old(decisions) && decisions == old(decisions)[key := Decision(snapshot, None)])
      ensures key !in old(decisions) && ValidSnapshot(snapshot) && CanCarryOut(snapshot, job)
              && key.0 in old(workflows.workflows) && old(workflows.workflows)[key.0] == job ==>
                r.Ok? && key.0 in workflows.workflows && workflows.workflows[key.0].status == Destination(snapshot.kind)
    {
      hide CallsLead, CallEnabled, AfterCall, SameDecision, ValidSnapshot, CanCarryOut, Destination, Settles;
      RecordEffect(state, thread);
      SameDecisionReflexive(snapshot);
      var created := CreateOrGet(key, snapshot);
      if created.Err? {
        Gone(thread, others);
        return Err(created.error);
      }
      Took(Record(thread));
      if created.value.applied.Some? {
        assert state.threads == others;
        return Ok(created.value);
      }
      r := CarryOut(key, created.value, job, freshIds, now, enqueuedAt, thread, others);
    }

    /** The rows are read and every guard has passed. */
    ghost method Loads(id: WorkflowId, kind: Kind, input: DecideInput, evidence: Evidence, thread: ThreadId)
      requires Valid() && id in workflows.workflows && thread !in state.threads
      requires GuardError(kind, Normalized(input), evidence, workflows.workflows[id]).None?
      modifies `state, `steps
      ensures Valid()
      ensures state.threads == old(state).threads[thread := Loaded(id, kind, Normalized(input), evidence, workflows.workflows[id])]
    {
      hide CallsLead, GuardError, Normalized;
      Took(Begin(thread, id, kind, input, evidence));
    }

    /** The decision, if there is one, is looked up, and the snapshot is fixed. */
    ghost method Binds(id: WorkflowId, kind: Kind, input: DecideInput, evidence: Evidence, job: Job, revisionCountBefore: int,
                       thread: ThreadId, others: map<ThreadId, Thread>)
      requires Valid() && thread !in others && state.threads == others[thread := Loaded(id, kind, input, evidence, job)]
      requires evidence.execution.Some? && evidence.review.Some? && evidence.check.Some? && evidence.checkpoints != []
      requires var key := (id, input.executionVersion);
               if key in decisions then revisionCountBefore == decisions[key].snapshot.revisionCountBefore
               else && job.status.WaitingApproval? && job.version == input.expectedVersion
                    && job.executionVersion == input.executionVersion && revisionCountBefore == job.revisionCount
      modifies `state, `steps
      ensures Valid()
      ensures var snapshot := SnapshotOf(kind, input, evidence, revisionCountBefore);
              state.threads == others[thread := Bound((id, input.executionVersion), snapshot, job)]
    {
      hide CallsLead, SnapshotOf;
      Took(Lookup(thread));
    }

    /** Decide behind its guards: look the decision up, then settle it. */
    method Proceed(id: WorkflowId, kind: Kind, input: DecideInput, evidence: Evidence, job: Job,
                   freshIds: (JobId, JobId), now: int, enqueuedAt: int, ghost thread: ThreadId, ghost others: map<ThreadId, Thread>)
      returns (r: Result<Decision, DecideError>)
      requires Valid() && id in workflows.workflows && workflows.workflows[id] == job && job.version >= 1
      requires freshIds.0 !in workflows.queue.rows && freshIds.1 !in workflows.queue.rows && freshIds.0 != freshIds.1
      requires evidence.execution.Some? && evidence.review.Some? && evidence.check.Some? && evidence.checkpoints != []
      requires thread !in others && state.threads == others[thread := Loaded(id, kind, input, evidence, job)]
      modifies this, workflows, workflows.queue
      ensures Valid() && start == old(start) && state.threads == others
      ensures var key := (id, input.executionVersion);
              r.Ok? ==> key in decisions && decisions[key] == r.value && r.value.applied.Some? && r.value.snapshot.kind == kind
      ensures var key := (id, input.executionVersion);
              var snapshot := SnapshotOf(kind, input, evidence, CountBefore(old(decisions), key, job));
              && (r.Ok? <==> FindsDecision(old(decisions), key, input, job) && CallSucceeds(old(decisions), key, snapshot, job))
              && (r.Ok? ==> decisions == old(decisions)[key := r.value])
              && (key in old(decisions) && old(decisions)[key].applied.Some? && r.Ok? ==>
                    r.value == old(decisions)[key] && workflows.Snapshot() == old(workflows.Snapshot()))
              && (r.Err? ==> decisions == old(decisions)
                             || (key !in old(decisions) && decisions == old(decisions)[key := Decision(snapshot, None)]))
      ensures |input.note| > 4000 ==> r.Err? && decisions == old(decisions)
      ensures (id, input.executionVersion) !in old(decisions) && IsAwaited(kind, input, evidence, job) ==>
                r.Ok? && id in workflows.workflows && workflows.workflows[id].status == Destination(kind)
    {
      hide CallsLead, CallEnabled, AfterCall, ValidSnapshot, Destination, CanCarryOut, IsAwaited, SnapshotOf, CallSucceeds;
      if IsAwaited(kind, input, evidence, job) {
        AwaitedMeans(kind, input, evidence, job);
      }
      var key := (id, input.executionVersion);
      var revisionCountBefore: int := job.revisionCount;
      if key in decisions {
        revisionCountBefore := decisions[key].snapshot.revisionCountBefore;
      } else if !job.status.WaitingApproval? || job.version != input.expectedVersion || job.executionVersion != input.executionVersion {
        Gone(thread, others);
        return Err(NotAwaitingDecision);
      }
      Binds(id, kind, input, evidence, job, revisionCountBefore, thread, others);
      SnapshotKeeps(kind, input, evidence, revisionCountBefore);
      r := Settle(key, SnapshotOf(kind, input, evidence, revisionCountBefore), job, freshIds, now, enqueuedAt, thread, others);
    }

    /** Decide, from the evidence it finds: its writes are a run of one thread. */
    method Decide(id: WorkflowId, kind: Kind, rawInput: DecideInput, evidence: Evidence,
                  freshIds: (JobId, JobId), now: int, enqueuedAt: int, ghost thread: ThreadId)
      returns (r: Result<Decision, DecideError>)
      requires Valid() && id in workflows.workflows && workflows.workflows[id].version >= 1
      requires freshIds.0 !in workflows.queue.rows && freshIds.1 !in workflows.queue.rows && freshIds.0 != freshIds.1
      requires thread !in state.threads
      modifies this, workflows, workflows.queue
      ensures Valid() && start == old(start) && state.threads == old(state).threads
      ensures var key := (id, rawInput.executionVersion);
              r.Ok? ==> key in decisions && decisions[key] == r.value && r.value.applied.Some? && r.value.snapshot.kind == kind
      ensures GuardError(kind, Normalized(rawInput), evidence, old(workflows.workflows)[id]).Some? ==>
                r == Err(GuardError(kind, Normalized(rawInput), evidence, old(workflows.workflows)[id]).value)
                && state == old(state)
      ensures var asked, complete := IsAsked(kind, rawInput), IsComplete(evidence);
              var allowed := complete && (kind.KindApprove? ==> ChecksAllow(rawInput, evidence));
              var bound := complete && IsAboutLastCheckpoint(rawInput, evidence)
                           && old(workflows.workflows)[id].executionVersion >= rawInput.executionVersion;
              var overruled := complete && (kind.KindApprove? ==> ReviewAllows(rawInput, evidence));
              && (r.Ok? ==> asked && allowed && bound && overruled)
              && (!(asked && allowed && bound && overruled) ==> r.Err? && state == old(state))
              && (!asked ==> r == Err(Invalid))
              && (asked && complete && !allowed ==> r == Err(ChecksNotPassed))
              && (asked && allowed && !bound ==> r == Err(BindingMismatch))
              && (asked && allowed && bound && !overruled ==> r == Err(ReviewOverrideRequired))
      ensures |Normalized(rawInput).note| > 4000 ==> r.Err? && decisions == old(decisions)
      ensures var job, input := old(workflows.workflows)[id], Normalized(rawInput);
              var key := (id, rawInput.executionVersion);
              GuardError(kind, input, evidence, job).None? ==>
                && evidence.execution.Some? && evidence.review.Some? && evidence.check.Some? && evidence.checkpoints != []
                && var snapshot := SnapshotOf(kind, input, evidence, CountBefore(old(decisions), key, job));
                   && (r.Ok? <==> FindsDecision(old(decisions), key, input, job) && CallSucceeds(old(decisions), key, snapshot, job))
                   && (r.Ok? ==> decisions == old(decisions)[key := r.value])
                   && (key in old(decisions) && old(decisions)[key].applied.Some? && r.Ok? ==>
                         r.value == old(decisions)[key] && workflows.Snapshot() == old(workflows.Snapshot()))
                   && (r.Err? ==> decisions == old(decisions)
                                  || (key !in old(decisions) && decisions == old(decisions)[key := Decision(snapshot, None)]))
      ensures var job, input := old(workflows.workflows)[id], Normalized(rawInput);
              var key := (id, rawInput.executionVersion);
              GuardError(kind, input, evidence, job).None? && key !in old(decisions) && IsAwaited(kind, input, evidence, job) ==>
                r.Ok? && id in workflows.workflows && workflows.workflows[id].status == Destination(kind)
    {
      GuardsAre(kind, rawInput, evidence, workflows.workflows[id]);
      hide CallsLead, GuardError, Destination, IsAwaited, CallSucceeds, FindsDecision, SnapshotOf, CountBefore,
           IsAsked, IsComplete, ChecksAllow, ReviewAllows, IsAboutLastCheckpoint;
      var input := Normalized(rawInput);
      var job := workflows.workflows[id];
      var refused := GuardError(kind, input, evidence, job);
      if refused.Some? {
        return Err(refused.value);
      }
      GuardsHold(kind, input, evidence, job);
      Loads(id, kind, rawInput, evidence, thread);
      r := Proceed(id, kind, input, evidence, job, freshIds, now, enqueuedAt, thread, old(state).threads);
    }
  }
}
