/**
  Runs from the empty database to the states the other modules warn about: a dispatch its
  handler rejects, a publication that is wedged, and a record that names the wrong commit.
 */
module Witnesses {
  import opened Wrappers
  import opened WorkflowTransition
  import opened JobQueue
  import opened WorkflowLog
  import opened WorkflowRepository
  import O = Orchestrator
  import A = ApprovalService
  import P = Publication
  import Text

  const W: WorkflowId := 0
  const BASE := "b"
  const APPROVED := "c"

  const REQUEST := CreateInput("p", "q", "r", "", Limits(0, 0, 0, 0, 0, 0, 0), Found("READY", "v", "m", BASE))

  function Input(version: nat, action: Action): TransitionInput {
    TransitionInput(version, action, "x", "y", 0, Some(0))
  }

  /** A run has led here, to one workflow with these columns; queue identifiers are below `unused`. */
  ghost predicate At(w: P.World, status: Status, version: nat, executionVersion: nat, unused: nat) {
    && (exists steps :: P.Leads(P.START, steps, w))
    && w.calls.system.db.Logged() && W in P.Workflows(w)
    && (forall j :: j in w.calls.system.db.queue ==> j < unused)
    && var job := P.Workflows(w)[W];
       && job.status == status && job.version == version && job.executionVersion == executionVersion
       && job.origin.baseCommit == BASE && !job.cancellationRequested && job.limits.maxStageAttempts >= 1
  }

  lemma Took(w: P.World, step: P.Step)
    requires (exists steps :: P.Leads(P.START, steps, w)) && P.Enabled(w, step)
    ensures exists steps :: P.Leads(P.START, steps, P.After(w, step))
  {
    hide P.Enabled, P.After;
    var steps :| P.Leads(P.START, steps, w);
    P.LeadsOneMore(P.START, steps, w, step);
  }

  lemma NamesAreNotBlank()
    ensures Text.TrimSpace("p") != "" && Text.TrimSpace("q") != "" && Text.TrimSpace("r") != ""
    ensures Text.TrimSpace(BASE) != "" && Text.TrimSpace("y") != ""
  {
    Text.TrimSpaceEmpty("p");
    Text.TrimSpaceEmpty("q");
    Text.TrimSpaceEmpty("r");
    Text.TrimSpaceEmpty(BASE);
    Text.TrimSpaceEmpty("y");
    assert "p"[0] == 'p' && "q"[0] == 'q' && "r"[0] == 'r' && BASE[0] == 'b' && "y"[0] == 'y';
  }

  lemma RequestIsAccepted()
    ensures CreateError(map[], REQUEST).None?
    ensures NewWorkflow(REQUEST, 0).limits.maxStageAttempts == 3
  {
    NamesAreNotBlank();
  }

  lemma Created() returns (w: P.World)
    ensures At(w, Ready, 1, 0, 0) && P.Workflows(w)[W].retryStatus.None?
    ensures w.calls.threads == map[] && w.calls.decisions == map[]
    ensures w.worktrees == map[] && w.records == map[] && w.attempt.NoAttempt?
  {
    RequestIsAccepted();
    hide CreateError, Text.TrimSpace, NormalizeLimits;
    var step := P.Elsewhere(A.Elsewhere(O.CreateWorkflow(W, REQUEST, 0)));
    assert P.Leads(P.START, [], P.START);
    Took(P.START, step);
    w := P.After(P.START, step);
  }

  /** One ordinary transition of the workflow, issued by the API or a handler. */
  lemma Acted(w: P.World, action: Action, next: Status, unused: nat) returns (t: P.World)
    requires W in P.Workflows(w)
    requires At(w, P.Workflows(w)[W].status, P.Workflows(w)[W].version, P.Workflows(w)[W].executionVersion, unused)
    requires var job := P.Workflows(w)[W]; NextStatus(job.status, action, job.retryStatus) == Some(next) && job.version >= 1
    requires !A.IsDecisionAction(action) && !action.ContinueExecution? && !action.BlankAction? && !action.Cancel?
    requires !action.PublicationCompleted? && (action.Fail? ==> !P.Workflows(w)[W].status.Publishing?)
    ensures var job := P.Workflows(w)[W];
            && At(t, next, job.version + 1, ExecutionVersionAfter(job, action), unused + 1)
            && P.Workflows(t)[W].retryStatus == RetryStatusAfter(job, action)
            && t == w.(calls := t.calls) && t.calls == w.calls.(system := t.calls.system)
            && t.calls.system.db.log[W] != [] && Last(t.calls.system.db.log[W]).action == action
  {
    var job := P.Workflows(w)[W];
    var input := Input(job.version, action);
    Legal(job, action, next);
    hide TransitionError, NextStatus, P.Leads;
    var inner := O.Act(W, input, unused, 0, 0);
    var step := P.Elsewhere(A.Elsewhere(inner));
    assert O.Enabled(w.calls.system, inner);
    Took(w, step);
    t := P.After(w, step);
  }

  lemma Legal(job: Job, action: Action, next: Status)
    requires NextStatus(job.status, action, job.retryStatus) == Some(next) && job.version >= 1
    requires !action.QueueRevision? && !action.ContinueExecution? && !action.BlankAction? && job.limits.maxStageAttempts >= 1
    ensures TransitionError(job, Input(job.version, action)).None?
  {
    NamesAreNotBlank();
  }

  // ----- the first stages -----

  lemma Waiting() returns (w: P.World)
    ensures At(w, Queued, 3, 0, 2) && P.Workflows(w)[W].retryStatus.None?
    ensures w.calls.threads == map[] && w.calls.decisions == map[]
    ensures w.worktrees == map[] && w.records == map[] && w.attempt.NoAttempt?
  {
    hide P.Leads;
    var created := Created();
    var preparing := Acted(created, Start, WorkspacePreparing, 0);
    w := Acted(preparing, WorkspaceReady, Queued, 1);
  }

  /** The workflow walks through its stages to CHECKING. */
  lemma Checking() returns (w: P.World)
    ensures At(w, Status.Checking, 5, 1, 4) && P.Workflows(w)[W].retryStatus.None?
    ensures w.calls.threads == map[] && w.calls.decisions == map[]
    ensures w.worktrees == map[] && w.records == map[] && w.attempt.NoAttempt?
  {
    hide P.Leads;
    var queued := Waiting();
    var executing := Acted(queued, ExecutionStarted, Executing, 2);
    w := Acted(executing, ExecutionCompleted, Status.Checking, 3);
  }

  // ----- a dispatch its handler rejects -----

  /** The daemon's tables of any run of the whole world are reachable. */
  lemma SystemIsReachable(steps: seq<P.Step>, w: P.World)
    requires P.Leads(P.START, steps, w)
    ensures O.Reachable(w.calls.system)
  {
    hide P.Invariant, A.CallInvariant;
    P.StartInvariant();
    P.RunKeeps(P.START, steps, w);
    P.CallsOf(w);
    A.ReachableOf(w.calls);
  }

  /** RETRY back to CHECKING leaves the workflow with a dispatch that the check handler rejects. */
  lemma RejectedDispatchExists() returns (s: O.System)
    ensures O.Reachable(s) && W in s.db.workflows && s.db.workflows[W].status.Checking?
    ensures s.db.workflows[W].currentDispatch.Some? && s.db.workflows[W].currentDispatch.value in s.db.queue
    ensures var queued := s.db.queue[s.db.workflows[W].currentDispatch.value];
            queued.jobType.RunChecks? && queued.payload.action.Retry? && !O.Accepts(queued.jobType, queued.payload)
  {
    hide P.Leads, O.Reachable;
    var w := Checking();
    var failed := Acted(w, Fail, Status.Failed, 4);
    var retried := Acted(failed, Retry, Status.Checking, 5);
    s := retried.calls.system;
    var steps :| P.Leads(P.START, steps, retried);
    SystemIsReachable(steps, retried);
    RetriedIsRejected(s);
  }

  lemma RetriedIsRejected(s: O.System)
    requires O.Reachable(s) && W in s.db.workflows && s.db.workflows[W].status.Checking?
    requires W in s.db.log && s.db.log[W] != [] && Last(s.db.log[W]).action.Retry?
    ensures s.db.workflows[W].currentDispatch.Some? && s.db.workflows[W].currentDispatch.value in s.db.queue
    ensures var queued := s.db.queue[s.db.workflows[W].currentDispatch.value];
            queued.jobType.RunChecks? && queued.payload.action.Retry? && !O.Accepts(queued.jobType, queued.payload)
  {
    O.ReachableWorkflow(s, W);
    hide O.Reachable, Justified;
    O.DispatchAcceptedIff(s, W);
  }

  // ----- an approved workflow that is publishing -----

  const EVIDENCE := A.Evidence(
    Some(A.ExecutionItem("e", true, BASE)), Some(A.ReviewRun("r", true, "e", "k", A.VerdictApprove)),
    Some(A.CheckRun(A.ChecksPassed, 0)), [A.Checkpoint("k", BASE, APPROVED)])

  function Decision(version: nat): A.DecideInput {
    A.DecideInput(version, 1, BASE, APPROVED, "", false)
  }

  function Snapshot(version: nat, revisions: int): A.Snapshot {
    A.SnapshotOf(A.KindApprove, Decision(version), EVIDENCE, revisions)
  }

  lemma DecisionIsNormal(version: nat)
    ensures A.Normalized(Decision(version)) == Decision(version)
  {
    assert Text.TrimLeft(BASE, Text.IsSpace) == BASE && Text.TrimRight(BASE, Text.IsSpace) == BASE;
    assert Text.TrimLeft(APPROVED, Text.IsSpace) == APPROVED && Text.TrimRight(APPROVED, Text.IsSpace) == APPROVED;
    assert Text.TrimLeft("", Text.IsSpace) == "" && Text.TrimRight("", Text.IsSpace) == "";
  }

  /** One write of a Decide call. */
  lemma Called(w: P.World, call: A.CallStep) returns (t: P.World)
    requires (exists steps :: P.Leads(P.START, steps, w)) && A.CallEnabled(w.calls, call) && !call.Elsewhere?
    ensures (exists steps :: P.Leads(P.START, steps, t)) && t == w.(calls := A.AfterCall(w.calls, call))
  {
    hide P.Leads, A.CallEnabled, A.AfterCall;
    Took(w, P.Elsewhere(call));
    t := P.After(w, P.Elsewhere(call));
  }

  /** The decision is recorded: PENDING, with its call about to carry it out. */
  lemma Recorded(w: P.World, version: nat, unused: nat) returns (t: P.World)
    requires At(w, WaitingApproval, version, 1, unused) && version >= 1
    requires w.calls.threads == map[] && w.calls.decisions == map[]
    ensures At(t, WaitingApproval, version, 1, unused) && t == w.(calls := t.calls) && t.calls.system == w.calls.system
    ensures var s := Snapshot(version, P.Workflows(w)[W].revisionCount);
            && t.calls.decisions == map[(W, 1) := A.Decision(s, None)]
            && t.calls.threads == map[0 := A.Applying((W, 1), s, P.Workflows(w)[W], A.AtTop)]
  {
    hide P.Leads;
    var job := P.Workflows(w)[W];
    DecisionIsNormal(version);
    hide A.Normalized;
    assert A.GuardError(A.KindApprove, Decision(version), EVIDENCE, job).None?;
    var begun := Called(w, A.Begin(0, W, A.KindApprove, Decision(version), EVIDENCE));
    var bound := Called(begun, A.Lookup(0));
    t := Called(bound, A.Record(0));
  }

  /** The decision is carried out and marked. */
  lemma Carried(w: P.World, version: nat, unused: nat, s: A.Snapshot) returns (t: P.World)
    requires At(w, WaitingApproval, version, 1, unused) && version >= 1
    requires s.kind.KindApprove? && s.workflowVersionBefore == version
    requires w.calls.decisions == map[(W, 1) := A.Decision(s, None)]
    requires w.calls.threads == map[0 := A.Applying((W, 1), s, P.Workflows(w)[W], A.AtTop)]
    ensures At(t, Status.Approved, version + 1, 1, unused) && P.Workflows(t)[W].retryStatus == P.Workflows(w)[W].retryStatus
    ensures t == w.(calls := t.calls)
    ensures (W, 1) in t.calls.decisions && t.calls.decisions[(W, 1)].snapshot == s && t.calls.decisions[(W, 1)].applied.Some?
  {
    hide P.Leads;
    var moved := Moving(w, version, unused, s);
    var reread := Called(moved, A.Reread(0));
    var done := Called(reread, A.Advance(0, 0, 0, 0));
    t := Called(done, A.Mark(0));
  }

  lemma Moving(w: P.World, version: nat, unused: nat, s: A.Snapshot) returns (t: P.World)
    requires At(w, WaitingApproval, version, 1, unused) && version >= 1
    requires s.kind.KindApprove? && s.workflowVersionBefore == version
    requires w.calls.threads == map[0 := A.Applying((W, 1), s, P.Workflows(w)[W], A.AtTop)]
    ensures At(t, Status.Approved, version + 1, 1, unused) && P.Workflows(t)[W].retryStatus == P.Workflows(w)[W].retryStatus
    ensures t == w.(calls := t.calls) && t.calls.decisions == w.calls.decisions
    ensures t.calls.threads == map[0 := A.Moved((W, 1), s, A.AfterDecision)]
  {
    var job := P.Workflows(w)[W];
    A.DecisionMoves(s, job, None, 0);
    hide P.Leads, TransitionError;
    assert O.Enabled(w.calls.system, O.Act(W, A.TransitionOf(Approve, version), unused, 0, 0));
    t := Called(w, A.Advance(0, unused, 0, 0));
    A.DecisionMoves(s, job, P.Workflows(t)[W].currentDispatch, 0);
  }

  /** From the empty database to a first decision about to be carried out. */
  lemma AwaitingApproval() returns (w: P.World, approved: A.Snapshot)
    ensures At(w, WaitingApproval, 7, 1, 6) && w.worktrees == map[] && w.records == map[] && w.attempt.NoAttempt?
    ensures P.Workflows(w)[W].retryStatus.None? && approved == Snapshot(7, P.Workflows(w)[W].revisionCount)
    ensures w.calls.decisions == map[(W, 1) := A.Decision(approved, None)]
    ensures w.calls.threads == map[0 := A.Applying((W, 1), approved, P.Workflows(w)[W], A.AtTop)]
  {
    hide P.Leads;
    var checking := Checking();
    var reviewing := Acted(checking, ChecksCompleted, Status.Reviewing, 4);
    var waiting := Acted(reviewing, ReviewCompleted, WaitingApproval, 5);
    approved := Snapshot(7, P.Workflows(waiting)[W].revisionCount);
    w := Recorded(waiting, 7, 6);
  }

  /** From there to a PUBLISHING workflow with an applied approval and no attempt yet. */
  lemma ApprovedAndPublishing() returns (w: P.World, approved: A.Snapshot)
    ensures At(w, Status.Publishing, 9, 1, 7) && w.worktrees == map[] && w.records == map[] && w.attempt.NoAttempt?
    ensures (W, 1) in w.calls.decisions && w.calls.decisions[(W, 1)].snapshot == approved && w.calls.decisions[(W, 1)].applied.Some?
    ensures approved.kind.KindApprove? && approved.baseCommit == BASE && approved.patchChecksum == APPROVED
  {
    hide P.Leads;
    var recorded, s := AwaitingApproval();
    approved := s;
    var carried := Carried(recorded, 7, 6, approved);
    w := Acted(carried, Publish, Status.Publishing, 6);
  }

  /** The attempt has captured the approved patch on the base. */
  lemma CapturedApproved() returns (w: P.World, job: Job, approved: A.Snapshot)
    ensures (exists steps :: P.Leads(P.START, steps, w)) && w.records == map[] && W in P.Workflows(w)
    ensures P.Workflows(w)[W] == job && job.status.Publishing? && job.executionVersion == 1 && job.origin.baseCommit == BASE
    ensures w.worktrees == map[W := P.Worktree(BASE, map[], APPROVED)]
    ensures w.attempt == P.Captured(W, job, approved, BASE, APPROVED)
    ensures (W, 1) in w.calls.decisions && w.calls.decisions[(W, 1)].snapshot == approved
    ensures approved.baseCommit == BASE && approved.patchChecksum == APPROVED
  {
    hide P.Leads, A.CallEnabled, O.Enabled;
    var w0, s := ApprovedAndPublishing();
    approved, job := s, P.Workflows(w0)[W];
    Took(w0, P.Prepare(W, APPROVED));
    var w1 := P.After(w0, P.Prepare(W, APPROVED));
    Took(w1, P.Begin(W, A.ChecksPassed));
    var w2 := P.After(w1, P.Begin(W, A.ChecksPassed));
    Took(w2, P.CaptureHead);
    var w3 := P.After(w2, P.CaptureHead);
    Took(w3, P.CaptureChanges);
    w := P.After(w3, P.CaptureChanges);
  }

  /** An edit between the capture and the commit: the commit's diff is another one. */
  lemma CommittedWrong() returns (w: P.World, job: Job, approved: A.Snapshot)
    ensures (exists steps :: P.Leads(P.START, steps, w)) && w.records == map[] && W in P.Workflows(w)
    ensures P.Workflows(w)[W] == job && job.status.Publishing? && job.executionVersion == 1 && job.origin.baseCommit == BASE
    ensures w.worktrees.Keys == {W} && w.worktrees[W].head == "h"
    ensures w.worktrees[W].commits == map["h" := P.Commit(BASE, P.Subject(Text.Decimal(W)), "x")]
    ensures w.attempt == P.Committed(W, job, approved)
    ensures (W, 1) in w.calls.decisions && w.calls.decisions[(W, 1)].snapshot == approved && approved.patchChecksum == APPROVED
  {
    hide P.Leads, A.CallEnabled, O.Enabled, Text.Decimal;
    var w0, j, s := CapturedApproved();
    job, approved := j, s;
    Took(w0, P.Edit(W, "x"));
    var w1 := P.After(w0, P.Edit(W, "x"));
    Took(w1, P.MakeCommit("h", "x", ""));
    w := P.After(w1, P.MakeCommit("h", "x", ""));
  }

  // ----- a publication that is wedged -----

  /** A run of one attempt and one edit wedges a workflow. */
  lemma WedgedPublicationExists() returns (steps: seq<P.Step>, w: P.World)
    ensures P.Leads(P.START, steps, w) && P.Wedged(w, W, 1, BASE)
  {
    var w1, job, approved := CommittedWrong();
    w := w1;
    steps :| P.Leads(P.START, steps, w);
  }

  // ----- a record that names the wrong commit -----

  /** The head is read, somebody commits what was approved, and the diff passes. */
  lemma VerifiedWrong() returns (w: P.World, job: Job, approved: A.Snapshot)
    ensures (exists steps :: P.Leads(P.START, steps, w)) && W in w.worktrees && "h" in w.worktrees[W].commits
    ensures w.worktrees[W].commits["h"].patch == "x"
    ensures w.attempt == P.Verified(W, job, approved, "h") && approved.patchChecksum == APPROVED
  {
    hide P.Leads, A.CallEnabled, O.Enabled, Text.Decimal;
    var w0, j, s := CommittedWrong();
    job, approved := j, s;
    Took(w0, P.ReadHead);
    var w1 := P.After(w0, P.ReadHead);
    var foreign := P.ForeignCommit(W, "f", P.Commit("", "", APPROVED));
    Took(w1, foreign);
    var w2 := P.After(w1, foreign);
    Took(w2, P.Verify);
    w := P.After(w2, P.Verify);
  }

  /**
    The attempt reads the head, then somebody commits what was approved, then the diff of the
    new head passes: the record names the commit before, whose diff nobody approved.
   */
  lemma MisboundRecordExists() returns (steps: seq<P.Step>, w: P.World)
    ensures P.Leads(P.START, steps, w) && W in w.records && W in w.worktrees
    ensures var r := w.records[W];
            && r.patchChecksum == APPROVED && r.publishedCommit in w.worktrees[W].commits
            && w.worktrees[W].commits[r.publishedCommit].patch != APPROVED
  {
    hide P.Leads, A.CallEnabled, O.Enabled, Text.Decimal;
    var verified, job, approved := VerifiedWrong();
    Took(verified, P.Save);
    w := P.After(verified, P.Save);
    steps :| P.Leads(P.START, steps, w);
  }
}
