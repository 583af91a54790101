/**
  Publication (internal/publication): the approved patch is committed in the workflow's
  worktree, the commit is recorded, and the workflow completed, each step of an attempt on
  its own, with a crash possible between any two. Git is its head, its commits, and the
  checksum of the worktree's diff; every git command is a step of its own.
 */
module Publication {
  import opened Wrappers
  import opened WorkflowTransition
  import opened JobQueue
  import opened WorkflowLog
  import opened WorkflowRepository
  import Orchestrator
  import A = ApprovalService
  import Text

  type CommitId = string
  type Checksum = string

  /** `patch` is the checksum of the diff from the workflow's base to the commit. */
  datatype Commit = Commit(parent: CommitId, subject: string, patch: Checksum)

  /** `changes` is the checksum of the worktree's diff against its head. */
  datatype Worktree = Worktree(head: CommitId, commits: map<CommitId, Commit>, changes: Checksum)

  /** A row of publications; only COMPLETED rows are ever written. */
  datatype Record = Record(executionVersion: nat, decision: A.Key, baseCommit: CommitId, patchChecksum: Checksum,
                           publishedCommit: CommitId)

  function Subject(workflowId: string): string {
    "Orkoda publish: " + workflowId
  }

  /** isPublishedCommit: the head is this workflow's own commit, directly on the base, holding the approved patch. */
  predicate IsPublishedCommit(w: Worktree, base: CommitId, name: string, expected: Checksum) {
    && w.head != base && w.head in w.commits
    && w.commits[w.head].parent == base
    && w.commits[w.head].subject == Subject(name)
    && w.commits[w.head].patch == expected
  }

  /** Its four tests, each a git command that looks at the head of that moment. */
  predicate PassesTest(w: Worktree, base: CommitId, name: string, expected: Checksum, test: nat) {
    match test
    case 0 => w.head != base
    case 1 => w.head in w.commits && w.commits[w.head].parent == base
    case 2 => w.head in w.commits && w.commits[w.head].subject == Subject(name)
    case _ => w.head in w.commits && w.commits[w.head].patch == expected
  }

  /** On a worktree nobody touches the four tests together recognize exactly the publisher's own commit of the patch. */
  lemma RecognitionIs(w: Worktree, base: CommitId, id: WorkflowId, expected: Checksum)
    ensures IsPublishedCommit(w, base, Text.Decimal(id), expected) <==>
              && w.head != base && w.head in w.commits
              && w.commits[w.head] == Commit(base, "Orkoda publish: " + Text.Decimal(id), expected)
    ensures var name := Text.Decimal(id);
            IsPublishedCommit(w, base, name, expected) <==>
              && PassesTest(w, base, name, expected, 0) && PassesTest(w, base, name, expected, 1)
              && PassesTest(w, base, name, expected, 2) && PassesTest(w, base, name, expected, 3)
  {
    hide Text.Decimal;
  }

  // ----- attempts -----

  /**
    How far the running attempt has come; at most one runs, the scheduler being serial.
    Recognizing has passed so many of the four tests. HeadRead has read the head it would
    publish and not yet compared a diff; Recognized has compared the diff and not yet read the head.
   */
  datatype Attempt =
    | NoAttempt
    | Leased(id: WorkflowId, job: Job, approved: A.Snapshot)
    | Capturing(id: WorkflowId, job: Job, approved: A.Snapshot, head: CommitId)
    | Captured(id: WorkflowId, job: Job, approved: A.Snapshot, head: CommitId, changes: Checksum)
    | Recognizing(id: WorkflowId, job: Job, approved: A.Snapshot, passed: nat)
    | Recognized(id: WorkflowId, job: Job, approved: A.Snapshot)
    | Committed(id: WorkflowId, job: Job, approved: A.Snapshot)
    | HeadRead(id: WorkflowId, job: Job, approved: A.Snapshot, published: CommitId)
    | Verified(id: WorkflowId, job: Job, approved: A.Snapshot, published: CommitId)
    | Finishing(id: WorkflowId)
  {
    predicate Binds() {
      !NoAttempt? && !Finishing?
    }
  }

  /** The daemon's tables beside one worktree per workflow, and the running attempt. */
  datatype World = World(
    calls: A.State, worktrees: map<WorkflowId, Worktree>, records: map<WorkflowId, Record>, attempt: Attempt)

  const START := World(A.START, map[], map[], NoAttempt)

  datatype Step =
    | Elsewhere(call: A.CallStep)
    | Prepare(id: WorkflowId, changes: Checksum)
    | Edit(id: WorkflowId, changes: Checksum)
    | ForeignCommit(id: WorkflowId, newId: CommitId, commit: Commit)
    | Begin(id: WorkflowId, check: A.CheckStatus)
    | CaptureHead
    | CaptureChanges
    | Recognize
    | MakeCommit(newId: CommitId, patch: Checksum, changes: Checksum)
    | ReadHead
    | Verify
    | Save
    | Finish(freshId: JobId, now: int, enqueuedAt: int)
    | Abandon

  function Workflows(w: World): map<WorkflowId, Job> {
    w.calls.system.db.workflows
  }

  function DecisionKey(id: WorkflowId, job: Job): A.Key {
    (id, job.executionVersion)
  }

  /** The daemon's transition inside a step outside publication, if any. */
  function InnerAct(call: A.CallStep): Option<(WorkflowId, Action)> {
    if call.Elsewhere? && call.step.Act? then Some((call.step.id, call.step.transition.action)) else None
  }

  /** Nobody else completes a publication, and no handler fails a workflow that is publishing. */
  predicate IsForeign(w: World, call: A.CallStep) {
    var act := InnerAct(call);
    act.Some? ==>
      && !act.value.1.PublicationCompleted?
      && (act.value.1.Fail? ==> act.value.0 in Workflows(w) && !Workflows(w)[act.value.0].status.Publishing?)
  }

  predicate IsApproval(w: World, key: A.Key, approved: A.Snapshot) {
    && key in w.calls.decisions && w.calls.decisions[key].snapshot == approved
    && w.calls.decisions[key].applied.Some? && approved.kind.KindApprove?
  }

  function FinishInput(version: nat): TransitionInput {
    TransitionInput(version, PublicationCompleted, "", "", 0, Some(512))
  }

  function TestsPassed(a: Attempt): nat {
    if a.Recognizing? then a.passed else 0
  }

  ghost predicate Enabled(w: World, step: Step) {
    match step
    case Elsewhere(call) => A.CallEnabled(w.calls, call) && IsForeign(w, call)
    case Prepare(id, _) => w.attempt.NoAttempt? && id in Workflows(w)  // another handler's, so not during an attempt
    case Edit(id, _) => id in w.worktrees
    case ForeignCommit(id, newId, commit) =>
      && id in w.worktrees && id in Workflows(w)
      && newId !in w.worktrees[id].commits && newId != w.worktrees[id].head && newId != Workflows(w)[id].origin.baseCommit
    case Begin(id, check) =>
      && w.attempt.NoAttempt? && id in Workflows(w)
      && var job := Workflows(w)[id];
         && job.status.Publishing? && !job.cancellationRequested && job.executionVersion >= 1
         && (id in w.records
             || (&& DecisionKey(id, job) in w.calls.decisions
                 && var approved := w.calls.decisions[DecisionKey(id, job)].snapshot;
                    && IsApproval(w, DecisionKey(id, job), approved)
                    && (check.ChecksPassed? || (check.ChecksFailed? && approved.reviewOverride && approved.note != ""))))
    case CaptureHead => w.attempt.Leased? && w.attempt.id in w.worktrees
    case CaptureChanges => w.attempt.Capturing? && w.attempt.id in w.worktrees
    case MakeCommit(newId, _, _) =>
      && w.attempt.Captured? && w.attempt.id in w.worktrees
      && newId !in w.worktrees[w.attempt.id].commits
      && var a := w.attempt;
         && newId != a.job.origin.baseCommit
         && a.head == a.job.origin.baseCommit == a.approved.baseCommit && a.changes == a.approved.patchChecksum
    case Recognize =>
      && (w.attempt.Recognizing? || (w.attempt.Captured? && w.attempt.head != w.attempt.job.origin.baseCommit))
      && w.attempt.id in w.worktrees
      && var a := w.attempt;
         PassesTest(w.worktrees[a.id], a.job.origin.baseCommit, Text.Decimal(a.id), a.approved.patchChecksum, TestsPassed(a))
    case ReadHead => (w.attempt.Committed? || w.attempt.Recognized?) && w.attempt.id in w.worktrees
    case Verify =>
      && w.attempt.HeadRead? && w.attempt.id in w.worktrees
      && var tree := w.worktrees[w.attempt.id];
         tree.head in tree.commits && tree.commits[tree.head].patch == w.attempt.approved.patchChecksum
    case Save => w.attempt.Verified?
    case Finish(freshId, now, enqueuedAt) =>
      && w.attempt.Finishing? && w.attempt.id in Workflows(w)
      && (Workflows(w)[w.attempt.id].status.Publishing? ==>
            Orchestrator.Enabled(w.calls.system,
              Orchestrator.Act(w.attempt.id, FinishInput(Workflows(w)[w.attempt.id].version), freshId, now, enqueuedAt)))
    case Abandon => true
  }

  /** A worktree freshly created at the workflow's base; the repository keeps its commits. */
  function PreparedTree(w: World, id: WorkflowId, changes: Checksum): Worktree
    requires id in Workflows(w)
  {
    Worktree(Workflows(w)[id].origin.baseCommit, if id in w.worktrees then w.worktrees[id].commits else map[], changes)
  }

  function WithCommit(tree: Worktree, newId: CommitId, commit: Commit, changes: Checksum): Worktree {
    tree.(head := newId, commits := tree.commits[newId := commit], changes := changes)
  }

  ghost function After(w: World, step: Step): World
    requires Enabled(w, step)
  {
    match step
    case Elsewhere(call) => w.(calls := A.AfterCall(w.calls, call))
    case Prepare(id, changes) => w.(worktrees := w.worktrees[id := PreparedTree(w, id, changes)])
    case Edit(id, changes) => w.(worktrees := w.worktrees[id := w.worktrees[id].(changes := changes)])
    case ForeignCommit(id, newId, commit) =>
      var tree := w.worktrees[id];
      w.(worktrees := w.worktrees[id := WithCommit(tree, newId, commit.(parent := tree.head), tree.changes)])
    case Begin(id, _) =>
      var job := Workflows(w)[id];
      w.(attempt := if id in w.records then Finishing(id) else Leased(id, job, w.calls.decisions[DecisionKey(id, job)].snapshot))
    case CaptureHead =>
      var a := w.attempt;
      w.(attempt := Capturing(a.id, a.job, a.approved, w.worktrees[a.id].head))
    case CaptureChanges =>
      var a := w.attempt;
      w.(attempt := Captured(a.id, a.job, a.approved, a.head, w.worktrees[a.id].changes))
    case MakeCommit(newId, patch, changes) =>
      var a := w.attempt;
      var tree := w.worktrees[a.id];
      w.(worktrees := w.worktrees[a.id := WithCommit(tree, newId, Commit(tree.head, Subject(Text.Decimal(a.id)), patch), changes)],
         attempt := Committed(a.id, a.job, a.approved))
    case Recognize =>
      var a := w.attempt;
      w.(attempt := if TestsPassed(a) >= 3 then Recognized(a.id, a.job, a.approved)
                    else Recognizing(a.id, a.job, a.approved, TestsPassed(a) + 1))
    case ReadHead =>
      var a := w.attempt;
      var head := w.worktrees[a.id].head;
      w.(attempt := if a.Recognized? then Verified(a.id, a.job, a.approved, head) else HeadRead(a.id, a.job, a.approved, head))
    case Verify =>
      var a := w.attempt;
      w.(attempt := Verified(a.id, a.job, a.approved, a.published))
    case Save =>
      var a := w.attempt;
      w.(records := w.records[a.id := Record(a.job.executionVersion, DecisionKey(a.id, a.job), a.job.origin.baseCommit,
                                             a.approved.patchChecksum, a.published)],
         attempt := Finishing(a.id))
    case Finish(freshId, now, enqueuedAt) =>
      var id := w.attempt.id;
      if Workflows(w)[id].status.Publishing? then
        w.(calls := w.calls.(system := Orchestrator.After(w.calls.system,
                                         Orchestrator.Act(id, FinishInput(Workflows(w)[id].version), freshId, now, enqueuedAt))),
           attempt := NoAttempt)
      else w.(attempt := NoAttempt)
    case Abandon => w.(attempt := NoAttempt)
  }

  // ----- what every run keeps -----

  /** PUBLISHING, or where only COMPLETED and CANCELLED can follow. */
  predicate PastApproval(s: Status) {
    s.Publishing? || s.Completed? || s.Cancelled?
  }

  /** The workflow still stands where the attempt or the record found it. */
  predicate StandsAt(w: World, id: WorkflowId, executionVersion: nat) {
    id in Workflows(w) && PastApproval(Workflows(w)[id].status) && Workflows(w)[id].executionVersion == executionVersion
  }

  predicate HasPatch(w: World, id: WorkflowId, commit: CommitId, patch: Checksum) {
    id in w.worktrees && commit in w.worktrees[id].commits && w.worktrees[id].commits[commit].patch == patch
  }

  /** The record is bound to an APPLIED APPROVE decision of the execution version the workflow stands at. */
  predicate RecordHolds(w: World, id: WorkflowId)
    requires id in w.records
  {
    var r := w.records[id];
    && r.decision == (id, r.executionVersion) && r.decision in w.calls.decisions
    && IsApproval(w, r.decision, w.calls.decisions[r.decision].snapshot)
    && w.calls.decisions[r.decision].snapshot.patchChecksum == r.patchChecksum
    && StandsAt(w, id, r.executionVersion)
  }

  predicate AttemptHolds(w: World) {
    var a := w.attempt;
    && (a.Binds() ==> StandsAt(w, a.id, a.job.executionVersion) && IsApproval(w, DecisionKey(a.id, a.job), a.approved))
    && (a.Finishing? ==> a.id in w.records)
  }

  ghost predicate Invariant(w: World) {
    && A.CallInvariant(w.calls)
    && (forall id :: id in w.records ==> RecordHolds(w, id))
    && AttemptHolds(w)
    && (forall id :: id in Workflows(w) && Workflows(w)[id].status.Completed? ==> id in w.records)
  }

  // ----- each step keeps it -----

  lemma LegalNext(job: Job, input: TransitionInput)
    requires TransitionError(job, input).None?
    ensures NextStatus(job.status, input.action, job.retryStatus).Some?
  {
  }

  /** What a call step does to one workflow row: nothing, or one transition. */
  lemma CallRow(s: A.State, call: A.CallStep, id: WorkflowId) returns (input: Option<TransitionInput>)
    requires A.CallEnabled(s, call) && id in s.system.db.workflows
    ensures id in A.AfterCall(s, call).system.db.workflows
    ensures var before, after := s.system.db.workflows[id], A.AfterCall(s, call).system.db.workflows[id];
            && after.origin == before.origin
            && (input.None? ==> after == before)
            && (input.Some? ==>
                  && NextStatus(before.status, input.value.action, before.retryStatus) == Some(after.status)
                  && after.executionVersion == ExecutionVersionAfter(before, input.value.action)
                  && (A.IsDecisionAction(input.value.action) || InnerAct(call) == Some((id, input.value.action))))
  {
    hide TransitionError, NewDispatch, DispatchAfter, A.GuardError, CreateError, NextStatus;
    input := None;
    if call.Elsewhere? && call.step.Act? && call.step.id == id {
      input := Some(call.step.transition);
      LegalNext(s.system.db.workflows[id], call.step.transition);
    } else if call.Advance? && s.threads[call.thread].key.0 == id {
      var t := s.threads[call.thread];
      var move := A.NextMove(t.snapshot, t.job, t.stage);
      if move.Take? {
        input := Some(A.TransitionOf(move.action, t.job.version));
        LegalNext(s.system.db.workflows[id], input.value);
      }
    }
  }

  /** Rows a call step adds are new workflows. */
  lemma CallAddsReady(s: A.State, call: A.CallStep, id: WorkflowId)
    requires A.CallEnabled(s, call) && id !in s.system.db.workflows && id in A.AfterCall(s, call).system.db.workflows
    ensures A.AfterCall(s, call).system.db.workflows[id].status.Ready?
  {
    hide TransitionError, RowWith, NewDispatch, DispatchAfter, A.GuardError, CreateError;
  }

  lemma PastApprovalStep(current: Status, action: Action, retryStatus: Option<Status>)
    requires NextStatus(current, action, retryStatus).Some? && !action.PublicationCompleted?
    ensures current.Publishing? && !action.Fail? ==> action.Cancel?
    ensures current.Completed? || current.Cancelled? ==> false
    ensures !NextStatus(current, action, retryStatus).value.Completed?
            || (action.Retry? && current.Failed? && retryStatus == Some(Completed))
  {
  }

  /** Outside publication a workflow past its approval can only be cancelled, and none is completed. */
  lemma ForeignKeepsStanding(w: World, call: A.CallStep, id: WorkflowId)
    requires A.CallEnabled(w.calls, call) && IsForeign(w, call) && id in Workflows(w)
    ensures var after := A.AfterCall(w.calls, call).system.db.workflows;
            && id in after
            && (PastApproval(Workflows(w)[id].status) ==>
                  PastApproval(after[id].status) && after[id].executionVersion == Workflows(w)[id].executionVersion)
            && (after[id].status.Completed? ==> Workflows(w)[id].status.Completed?)
  {
    var input := CallRow(w.calls, call, id);
    if input.Some? {
      var before := Workflows(w)[id];
      hide A.CallEnabled, A.AfterCall;
      PastApprovalStep(before.status, input.value.action, before.retryStatus);
    }
  }

  lemma ElsewhereKeeps(w: World, step: Step)
    requires Invariant(w) && step.Elsewhere? && Enabled(w, step)
    ensures Invariant(After(w, step))
  {
    hide A.CallInvariant, A.CallEnabled, A.AfterCall;
    var t := After(w, step);
    A.CallStepKeeps(w.calls, step.call);
    forall id | id in Workflows(w)
      ensures id in Workflows(t)
      ensures PastApproval(Workflows(w)[id].status) ==>
                PastApproval(Workflows(t)[id].status) && Workflows(t)[id].executionVersion == Workflows(w)[id].executionVersion
      ensures Workflows(t)[id].status.Completed? ==> Workflows(w)[id].status.Completed?
    {
      ForeignKeepsStanding(w, step.call, id);
    }
    forall id | id in Workflows(t) && id !in Workflows(w)
      ensures Workflows(t)[id].status.Ready?
    {
      CallAddsReady(w.calls, step.call, id);
    }
    FollowsDecisions(w.calls, t.calls);
    forall id | id in t.records
      ensures RecordHolds(t, id)
    {
      assert RecordHolds(w, id);
    }
  }

  lemma FollowsDecisions(s: A.State, t: A.State)
    requires A.Follows(s, t)
    ensures forall key :: key in s.decisions ==>
              && key in t.decisions && t.decisions[key].snapshot == s.decisions[key].snapshot
              && (s.decisions[key].applied.Some? ==> t.decisions[key].applied.Some?)
  {
  }

  /** A step that leaves the daemon's tables alone; records stay or are bound. */
  lemma LocalKeeps(w: World, t: World)
    requires Invariant(w) && t.calls == w.calls && AttemptHolds(t) && w.records.Keys <= t.records.Keys
    requires forall id :: id in t.records ==> (id in w.records && t.records[id] == w.records[id]) || RecordHolds(t, id)
    ensures Invariant(t)
  {
    hide A.CallInvariant, AttemptHolds;
    forall id | id in t.records
      ensures RecordHolds(t, id)
    {
      if id in w.records && t.records[id] == w.records[id] {
        assert RecordHolds(w, id);
      }
    }
  }

  lemma CallsOf(w: World)
    requires Invariant(w)
    ensures A.CallInvariant(w.calls)
  {
  }

  lemma AttemptOf(w: World)
    requires Invariant(w)
    ensures AttemptHolds(w)
    ensures forall id :: id in w.records ==> RecordHolds(w, id)
  {
  }

  lemma WorktreeKeeps(w: World, step: Step)
    requires Invariant(w) && Enabled(w, step)
    requires step.Prepare? || step.Edit? || step.ForeignCommit? || step.MakeCommit?
    ensures Invariant(After(w, step))
  {
    hide Invariant, PassesTest, RecordHolds, Text.Decimal;
    AttemptOf(w);
    LocalKeeps(w, After(w, step));
  }

  lemma AttemptKeeps(w: World, step: Step)
    requires Invariant(w) && Enabled(w, step)
    requires step.Begin? || step.CaptureHead? || step.CaptureChanges? || step.Recognize? || step.ReadHead? || step.Verify? || step.Abandon?
    ensures Invariant(After(w, step))
  {
    hide Invariant, RecordHolds, Text.Decimal;
    AttemptOf(w);
    LocalKeeps(w, After(w, step));
  }

  lemma SaveKeeps(w: World, step: Step)
    requires Invariant(w) && Enabled(w, step) && step.Save?
    ensures Invariant(After(w, step))
  {
    hide Invariant, Text.Decimal;
    AttemptOf(w);
    LocalKeeps(w, After(w, step));
  }

  /** PUBLICATION_COMPLETED, from an attempt that has found or written the record. */
  lemma FinishRow(system: Orchestrator.System, id: WorkflowId, step: Orchestrator.Step, other: WorkflowId)
    requires step.Act? && step.id == id && Orchestrator.Enabled(system, step) && other in system.db.workflows
    requires step.transition.action.PublicationCompleted?
    ensures var after := Orchestrator.After(system, step).db.workflows;
            && after.Keys == system.db.workflows.Keys
            && after[other].origin == system.db.workflows[other].origin
            && (other != id ==> after[other] == system.db.workflows[other])
            && (other == id ==> after[other].status.Completed? && after[other].executionVersion == system.db.workflows[id].executionVersion)
  {
    hide TransitionError, NewDispatch, DispatchAfter;
    LegalNext(system.db.workflows[id], step.transition);
  }

  lemma FinishKeeps(w: World, step: Step)
    requires Invariant(w) && Enabled(w, step) && step.Finish?
    ensures Invariant(After(w, step))
  {
    hide A.CallInvariant, Text.Decimal, Orchestrator.Enabled, Orchestrator.After;
    var t := After(w, step);
    var id := w.attempt.id;
    if Workflows(w)[id].status.Publishing? {
      var inner := Orchestrator.Act(id, FinishInput(Workflows(w)[id].version), step.freshId, step.now, step.enqueuedAt);
      FinishIsForeignToDecisions(w.calls, inner);
      forall other | other in Workflows(w)
        ensures other in Workflows(t)
        ensures other != id ==> Workflows(t)[other] == Workflows(w)[other]
        ensures other == id ==> Workflows(t)[id].status.Completed?
                                && Workflows(t)[id].executionVersion == Workflows(w)[id].executionVersion
      {
        FinishRow(w.calls.system, id, inner, other);
      }
      FinishRow(w.calls.system, id, inner, id);
      forall other | other in t.records
        ensures RecordHolds(t, other)
      {
        assert RecordHolds(w, other);
      }
    }
  }

  /** To the approval protocol it is one more step of somebody else. */
  lemma FinishIsForeignToDecisions(s: A.State, inner: Orchestrator.Step)
    requires A.CallInvariant(s) && Orchestrator.Enabled(s.system, inner)
    requires inner.Act? && inner.transition.action.PublicationCompleted?
    ensures A.CallInvariant(s.(system := Orchestrator.After(s.system, inner)))
  {
    hide A.CallInvariant, Orchestrator.Enabled, Orchestrator.After;
    A.CallStepKeeps(s, A.Elsewhere(inner));
  }

  lemma StepKeeps(w: World, step: Step)
    requires Invariant(w) && Enabled(w, step)
    ensures Invariant(After(w, step))
  {
    hide Invariant, Enabled, After;
    match step
    case Elsewhere(_) => ElsewhereKeeps(w, step);
    case Prepare(_, _) => WorktreeKeeps(w, step);
    case Edit(_, _) => WorktreeKeeps(w, step);
    case ForeignCommit(_, _, _) => WorktreeKeeps(w, step);
    case MakeCommit(_, _, _) => WorktreeKeeps(w, step);
    case Save => SaveKeeps(w, step);
    case Finish(_, _, _) => FinishKeeps(w, step);
    case _ => AttemptKeeps(w, step);
  }

  // ----- the head of the worktree -----

  /** The base, or one commit of the publisher's directly on it. */
  predicate HeadShape(w: World, id: WorkflowId) {
    id in w.worktrees && id in Workflows(w) ==>
      var tree, base := w.worktrees[id], Workflows(w)[id].origin.baseCommit;
      || tree.head == base
      || (&& tree.head in tree.commits && tree.commits[tree.head].parent == base
          && tree.commits[tree.head].subject == Subject(Text.Decimal(id)))
  }

  /** What a captured head at the base still says about the worktree. */
  predicate CaptureCurrent(w: World) {
    var a := w.attempt;
    && (a.Binds() ==> a.id in Workflows(w) && a.job.origin == Workflows(w)[a.id].origin)
    && ((a.Capturing? || a.Captured?) && a.head == a.job.origin.baseCommit ==> a.id in w.worktrees && w.worktrees[a.id].head == a.head)
  }

  ghost predicate HeadInvariant(w: World) {
    CaptureCurrent(w) && (forall id :: id in w.worktrees ==> id in Workflows(w)) && forall id :: id in w.worktrees ==> HeadShape(w, id)
  }

  /** Steps of this daemon: nobody else commits in the worktree. */
  predicate IsOwn(step: Step) {
    !step.ForeignCommit?
  }

  lemma OriginsStay(w: World, step: Step, id: WorkflowId)
    requires Enabled(w, step) && id in Workflows(w)
    ensures id in Workflows(After(w, step)) && Workflows(After(w, step))[id].origin == Workflows(w)[id].origin
  {
    hide Text.Decimal, PassesTest;
    match step
    case Elsewhere(call) => var _ := CallRow(w.calls, call, id);
    case Finish(_, _, _) =>
      if Workflows(w)[w.attempt.id].status.Publishing? {
        FinishRow(w.calls.system, w.attempt.id,
                  Orchestrator.Act(w.attempt.id, FinishInput(Workflows(w)[w.attempt.id].version), step.freshId, step.now, step.enqueuedAt), id);
      }
    case _ =>
  }

  /** A step on the daemon's tables does not touch a worktree. */
  lemma TablesOnly(w: World, step: Step)
    requires Enabled(w, step) && (step.Elsewhere? || step.Finish?)
    ensures var t := After(w, step);
            && t.worktrees == w.worktrees && t.records == w.records
            && (t.attempt == w.attempt || (step.Finish? && t.attempt.NoAttempt?))
  {
    hide A.CallEnabled, A.AfterCall, Orchestrator.Enabled, Orchestrator.After, IsForeign;
  }

  lemma TablesKeepHeads(w: World, step: Step)
    requires HeadInvariant(w) && Enabled(w, step) && (step.Elsewhere? || step.Finish?)
    ensures HeadInvariant(After(w, step))
  {
    hide Enabled, After, Text.Decimal;
    var t := After(w, step);
    TablesOnly(w, step);
    forall id | id in Workflows(w)
      ensures id in Workflows(t) && Workflows(t)[id].origin == Workflows(w)[id].origin
    {
      OriginsStay(w, step, id);
    }
    forall id | id in t.worktrees
      ensures id in Workflows(t) && HeadShape(t, id)
    {
      assert HeadShape(w, id);
    }
  }

  /** Recreating a worktree resets its head; the attempt's own commit is on the base it captured. */
  lemma TreesKeepHeads(w: World, step: Step)
    requires HeadInvariant(w) && Enabled(w, step) && (step.Prepare? || step.Edit? || step.MakeCommit?)
    ensures HeadInvariant(After(w, step))
  {
    hide Text.Decimal, PassesTest, IsApproval;
    var t := After(w, step);
    forall id | id in t.worktrees
      ensures id in Workflows(t) && HeadShape(t, id)
    {
      if id in w.worktrees {
        assert HeadShape(w, id);
      }
    }
  }

  lemma AttemptKeepsHeads(w: World, step: Step)
    requires HeadInvariant(w) && Enabled(w, step)
    requires !step.Elsewhere? && !step.Finish? && !step.Prepare? && !step.Edit? && !step.ForeignCommit? && !step.MakeCommit?
    ensures HeadInvariant(After(w, step))
  {
    hide Text.Decimal, PassesTest, IsApproval;
    var t := After(w, step);
    forall id | id in t.worktrees
      ensures id in Workflows(t) && HeadShape(t, id)
    {
      assert HeadShape(w, id);
    }
  }

  lemma HeadStays(w: World, step: Step)
    requires HeadInvariant(w) && Enabled(w, step) && IsOwn(step)
    ensures HeadInvariant(After(w, step))
  {
    hide HeadInvariant, Enabled, After;
    match step
    case Elsewhere(_) => TablesKeepHeads(w, step);
    case Finish(_, _, _) => TablesKeepHeads(w, step);
    case Prepare(_, _) => TreesKeepHeads(w, step);
    case Edit(_, _) => TreesKeepHeads(w, step);
    case MakeCommit(_, _, _) => TreesKeepHeads(w, step);
    case _ => AttemptKeepsHeads(w, step);
  }

  // ----- runs -----

  ghost predicate Leads(w: World, steps: seq<Step>, t: World)
    decreases |steps|
  {
    if steps == [] then w == t
    else Enabled(w, steps[0]) && Leads(After(w, steps[0]), steps[1..], t)
  }

  lemma {:induction false} RunKeeps(w: World, steps: seq<Step>, t: World)
    requires Invariant(w) && Leads(w, steps, t)
    ensures Invariant(t)
    decreases |steps|
  {
    hide Invariant, Enabled, After;
    if steps != [] {
      StepKeeps(w, steps[0]);
      RunKeeps(After(w, steps[0]), steps[1..], t);
    }
  }

  lemma {:induction false} HeadRun(w: World, steps: seq<Step>, t: World)
    requires HeadInvariant(w) && Leads(w, steps, t) && forall i :: 0 <= i < |steps| ==> IsOwn(steps[i])
    ensures HeadInvariant(t)
    decreases |steps|
  {
    hide HeadInvariant, Enabled, After;
    if steps != [] {
      HeadStays(w, steps[0]);
      HeadRun(After(w, steps[0]), steps[1..], t);
    }
  }

  lemma StartInvariant()
    ensures Invariant(START) && HeadInvariant(START)
  {
    A.StartHolds();
  }

  /** In every run a publication record is tied to an APPLIED APPROVE decision of its execution version, and to its checksum. */
  lemma RecordIsApproved(steps: seq<Step>, w: World, id: WorkflowId)
    requires Leads(START, steps, w) && id in w.records
    ensures var r := w.records[id];
            && r.decision == (id, r.executionVersion) && r.decision in w.calls.decisions
            && var d := w.calls.decisions[r.decision];
               d.applied.Some? && d.snapshot.kind.KindApprove? && d.snapshot.patchChecksum == r.patchChecksum
  {
    hide Invariant;
    StartInvariant();
    RunKeeps(START, steps, w);
    AttemptOf(w);
  }

  /** A completed workflow has such a record, for the execution version it completed with. */
  lemma CompletedIsPublished(steps: seq<Step>, w: World, id: WorkflowId)
    requires Leads(START, steps, w) && id in Workflows(w) && Workflows(w)[id].status.Completed?
    ensures id in w.records && w.records[id].executionVersion == Workflows(w)[id].executionVersion
  {
    StartInvariant();
    RunKeeps(START, steps, w);
    assert id in w.records && RecordHolds(w, id);
  }

  // ----- no record without checks, and no approval without publication -----

  /** An attempt for the workflow began, with checks that passed, or failed and are overruled by its approval. */
  predicate BeganChecked(step: Step, id: WorkflowId, approved: A.Snapshot) {
    && step.Begin? && step.id == id
    && (step.check == A.ChecksPassed || (step.check == A.ChecksFailed && approved.reviewOverride && approved.note != ""))
  }

  ghost predicate WasChecked(past: seq<Step>, id: WorkflowId, approved: A.Snapshot) {
    exists i :: 0 <= i < |past| && BeganChecked(past[i], id, approved)
  }

  ghost predicate RecordChecked(past: seq<Step>, w: World, id: WorkflowId)
    requires id in w.records
  {
    w.records[id].decision in w.calls.decisions && WasChecked(past, id, w.calls.decisions[w.records[id].decision].snapshot)
  }

  ghost predicate Checked(past: seq<Step>, w: World) {
    && (w.attempt.Binds() ==> WasChecked(past, w.attempt.id, w.attempt.approved))
    && (forall id :: id in w.records ==> RecordChecked(past, w, id))
  }

  lemma CheckedGrows(past: seq<Step>, step: Step, id: WorkflowId, approved: A.Snapshot)
    requires WasChecked(past, id, approved)
    ensures WasChecked(past + [step], id, approved)
  {
    var i :| 0 <= i < |past| && BeganChecked(past[i], id, approved);
    assert (past + [step])[i] == past[i];
  }

  lemma CheckedNow(past: seq<Step>, step: Step, id: WorkflowId, approved: A.Snapshot)
    requires BeganChecked(step, id, approved)
    ensures WasChecked(past + [step], id, approved)
  {
    assert (past + [step])[|past|] == step;
  }

  lemma StepKeepsDecisions(w: World, step: Step)
    requires Invariant(w) && Enabled(w, step)
    ensures forall key :: key in w.calls.decisions ==>
              && key in After(w, step).calls.decisions
              && After(w, step).calls.decisions[key].snapshot == w.calls.decisions[key].snapshot
  {
    CallsOf(w);
    hide Invariant, Text.Decimal, PassesTest, A.CallInvariant, A.CallEnabled, A.AfterCall, Orchestrator.Enabled, Orchestrator.After;
    if step.Elsewhere? {
      A.CallStepKeeps(w.calls, step.call);
      FollowsDecisions(w.calls, After(w, step).calls);
    }
  }

  /** An attempt's approval is the one it began with. */
  lemma StepKeepsApproval(w: World, step: Step)
    requires Enabled(w, step) && After(w, step).attempt.Binds()
    ensures var a, b := w.attempt, After(w, step).attempt;
            BeganChecked(step, b.id, b.approved) || (a.Binds() && b.id == a.id && b.approved == a.approved)
  {
    hide Text.Decimal, PassesTest, A.CallEnabled, A.AfterCall, Orchestrator.Enabled, Orchestrator.After;
  }

  /** A record is written for the attempt's approval, and stays. */
  lemma StepKeepsRecords(w: World, step: Step, id: WorkflowId)
    requires AttemptHolds(w) && Enabled(w, step) && id in After(w, step).records
    ensures var t := After(w, step);
            || (id in w.records && t.records[id] == w.records[id])
            || (&& w.attempt.Binds() && w.attempt.id == id && t.records[id].decision in w.calls.decisions
                && w.calls.decisions[t.records[id].decision].snapshot == w.attempt.approved)
  {
    hide Text.Decimal, PassesTest, StandsAt, A.CallEnabled, A.AfterCall, Orchestrator.Enabled, Orchestrator.After;
  }

  lemma AttemptStaysChecked(past: seq<Step>, w: World, step: Step)
    requires Checked(past, w) && Enabled(w, step) && After(w, step).attempt.Binds()
    ensures WasChecked(past + [step], After(w, step).attempt.id, After(w, step).attempt.approved)
  {
    var t := After(w, step);
    StepKeepsApproval(w, step);
    hide Enabled, After, BeganChecked, WasChecked;
    if BeganChecked(step, t.attempt.id, t.attempt.approved) {
      CheckedNow(past, step, t.attempt.id, t.attempt.approved);
    } else {
      CheckedGrows(past, step, w.attempt.id, w.attempt.approved);
    }
  }

  lemma RecordStaysChecked(past: seq<Step>, w: World, step: Step, id: WorkflowId)
    requires Invariant(w) && Checked(past, w) && Enabled(w, step) && id in After(w, step).records
    ensures RecordChecked(past + [step], After(w, step), id)
  {
    var t := After(w, step);
    AttemptOf(w);
    StepKeepsRecords(w, step, id);
    StepKeepsDecisions(w, step);
    hide Invariant, Enabled, After, WasChecked, AttemptHolds, RecordHolds;
    if id in w.records && t.records[id] == w.records[id] {
      assert RecordChecked(past, w, id);
      CheckedGrows(past, step, id, w.calls.decisions[w.records[id].decision].snapshot);
    } else {
      CheckedGrows(past, step, id, w.attempt.approved);
    }
  }

  lemma StepStaysChecked(past: seq<Step>, w: World, step: Step)
    requires Invariant(w) && Checked(past, w) && Enabled(w, step)
    ensures Checked(past + [step], After(w, step))
  {
    var t := After(w, step);
    hide Invariant, Enabled, After, WasChecked, RecordChecked;
    if t.attempt.Binds() {
      AttemptStaysChecked(past, w, step);
    }
    forall id | id in t.records
      ensures RecordChecked(past + [step], t, id)
    {
      RecordStaysChecked(past, w, step, id);
    }
  }

  lemma {:induction false} RunStaysChecked(past: seq<Step>, w: World, steps: seq<Step>, t: World)
    requires Invariant(w) && Checked(past, w) && Leads(w, steps, t)
    ensures Checked(past + steps, t)
    decreases |steps|
  {
    hide Invariant, Checked, Enabled, After;
    if steps == [] {
      assert past + steps == past;
    } else {
      StepKeeps(w, steps[0]);
      StepStaysChecked(past, w, steps[0]);
      RunStaysChecked(past + [steps[0]], After(w, steps[0]), steps[1..], t);
      assert past + [steps[0]] + steps[1..] == past + steps;
    }
  }

  /** In every run a record comes from an attempt that found passed checks, or failed ones its approval overrules with a reason. */
  lemma RecordWasChecked(steps: seq<Step>, w: World, id: WorkflowId)
    requires Leads(START, steps, w) && id in w.records
    ensures w.records[id].decision in w.calls.decisions
    ensures exists i :: 0 <= i < |steps| && BeganChecked(steps[i], id, w.calls.decisions[w.records[id].decision].snapshot)
  {
    StartInvariant();
    hide Invariant;
    RunStaysChecked([], START, steps, w);
    assert [] + steps == steps;
    assert RecordChecked(steps, w, id);
  }

  /** The calls a run of the whole world makes on the daemon's tables. */
  lemma {:induction false} CallsOfRun(past: seq<A.CallStep>, w: World, steps: seq<Step>, t: World) returns (calls: seq<A.CallStep>)
    requires A.CallsLead(A.START, past, w.calls) && Leads(w, steps, t)
    ensures A.CallsLead(A.START, calls, t.calls)
    decreases |steps|
  {
    hide A.CallsLead, Text.Decimal;
    if steps == [] {
      calls := past;
    } else {
      var more := OneMoreCall(past, w, steps[0]);
      hide Enabled, After;
      calls := CallsOfRun(more, After(w, steps[0]), steps[1..], t);
    }
  }

  lemma OneMoreCall(past: seq<A.CallStep>, w: World, step: Step) returns (more: seq<A.CallStep>)
    requires A.CallsLead(A.START, past, w.calls) && Enabled(w, step)
    ensures A.CallsLead(A.START, more, After(w, step).calls)
  {
    hide A.CallsLead, Text.Decimal, PassesTest, IsApproval, Orchestrator.Enabled, Orchestrator.After;
    more := past;
    if step.Elsewhere? {
      A.CallsLeadOneMore(A.START, past, w.calls, step.call);
      more := past + [step.call];
    } else if step.Finish? && Workflows(w)[w.attempt.id].status.Publishing? {
      var inner := Orchestrator.Act(w.attempt.id, FinishInput(Workflows(w)[w.attempt.id].version), step.freshId, step.now, step.enqueuedAt);
      A.CallsLeadOneMore(A.START, past, w.calls, A.Elsewhere(inner));
      more := past + [A.Elsewhere(inner)];
    }
  }

  /**
    Approval and publication agree: in every run, an applied approval whose check run still stands
    as the decision saw it lets an attempt begin, whatever the checks said then.
   */
  lemma ApprovedMayPublish(steps: seq<Step>, w: World, id: WorkflowId)
    requires Leads(START, steps, w) && id in Workflows(w)
    requires var key := (id, Workflows(w)[id].executionVersion);
             key in w.calls.decisions && w.calls.decisions[key].applied.Some? && w.calls.decisions[key].snapshot.kind.KindApprove?
    ensures var version := Workflows(w)[id].executionVersion;
            MayPublish(w.calls.decisions, id, version, w.calls.decisions[(id, version)].snapshot.checkStatus)
    ensures var job := Workflows(w)[id];
            w.attempt.NoAttempt? && job.status.Publishing? && !job.cancellationRequested && job.executionVersion >= 1 ==>
              Enabled(w, Begin(id, w.calls.decisions[(id, job.executionVersion)].snapshot.checkStatus))
  {
    assert A.CallsLead(A.START, [], A.START);
    var calls := CallsOfRun([], START, steps, w);
    A.DecisionWasLicensed(calls, w.calls, (id, Workflows(w)[id].executionVersion));
    hide Leads, A.CallsLead, A.MadeFrom;
  }

  // ----- binding the recorded commit -----

  /** Between the two git commands that read the head to publish and compare its diff. */
  predicate InWindow(w: World, id: WorkflowId) {
    (w.attempt.Recognized? || w.attempt.HeadRead?) && w.attempt.id == id
  }

  /** Somebody else commits in the worktree inside that window. */
  predicate Disturbs(w: World, step: Step, id: WorkflowId) {
    step.ForeignCommit? && step.id == id && InWindow(w, id)
  }

  /** A run in which that never happens. */
  ghost predicate QuietLeads(w: World, steps: seq<Step>, t: World, id: WorkflowId)
    decreases |steps|
  {
    if steps == [] then w == t
    else Enabled(w, steps[0]) && !Disturbs(w, steps[0], id) && QuietLeads(After(w, steps[0]), steps[1..], t, id)
  }

  /** The recorded commit has the recorded checksum, and so has the one the attempt is about to record. */
  predicate Bound(w: World, id: WorkflowId) {
    var a := w.attempt;
    && (id in w.records ==> HasPatch(w, id, w.records[id].publishedCommit, w.records[id].patchChecksum))
    && (a.Verified? && a.id == id ==> HasPatch(w, id, a.published, a.approved.patchChecksum))
    && (a.Recognized? && a.id == id ==> id in w.worktrees && HasPatch(w, id, w.worktrees[id].head, a.approved.patchChecksum))
    && (a.HeadRead? && a.id == id ==> id in w.worktrees && w.worktrees[id].head == a.published)
  }

  lemma TablesKeepBound(w: World, step: Step, id: WorkflowId)
    requires Bound(w, id) && Enabled(w, step) && (step.Elsewhere? || step.Finish?)
    ensures Bound(After(w, step), id)
  {
    hide Enabled, After;
    TablesOnly(w, step);
  }

  lemma TreesKeepBound(w: World, step: Step, id: WorkflowId)
    requires Bound(w, id) && Enabled(w, step) && !Disturbs(w, step, id)
    requires step.Prepare? || step.Edit? || step.ForeignCommit? || step.MakeCommit?
    ensures Bound(After(w, step), id)
  {
    hide Text.Decimal, IsApproval, PassesTest;
  }

  lemma AttemptKeepsBound(w: World, step: Step, id: WorkflowId)
    requires Bound(w, id) && Enabled(w, step)
    requires !step.Elsewhere? && !step.Finish? && !step.Prepare? && !step.Edit? && !step.ForeignCommit? && !step.MakeCommit?
    ensures Bound(After(w, step), id)
  {
    hide Text.Decimal, IsApproval;
  }

  lemma StepKeepsBound(w: World, step: Step, id: WorkflowId)
    requires Bound(w, id) && Enabled(w, step) && !Disturbs(w, step, id)
    ensures Bound(After(w, step), id)
  {
    hide Bound, Enabled, After, Disturbs;
    match step
    case Elsewhere(_) => TablesKeepBound(w, step, id);
    case Finish(_, _, _) => TablesKeepBound(w, step, id);
    case Prepare(_, _) => TreesKeepBound(w, step, id);
    case Edit(_, _) => TreesKeepBound(w, step, id);
    case ForeignCommit(_, _, _) => TreesKeepBound(w, step, id);
    case MakeCommit(_, _, _) => TreesKeepBound(w, step, id);
    case _ => AttemptKeepsBound(w, step, id);
  }

  lemma {:induction false} QuietRunKeeps(w: World, steps: seq<Step>, t: World, id: WorkflowId)
    requires Bound(w, id) && QuietLeads(w, steps, t, id)
    ensures Bound(t, id) && Leads(w, steps, t)
    decreases |steps|
  {
    hide Bound, Enabled, After, Disturbs;
    if steps != [] {
      StepKeepsBound(w, steps[0], id);
      QuietRunKeeps(After(w, steps[0]), steps[1..], t, id);
    }
  }

  /**
    Publication binding: over any attempts and crashes, and any foreign commits but those between
    the two git commands that read the head and compare its diff, a publication record names a
    commit whose diff from the base has the checksum an APPLIED APPROVE decision of that
    execution version approved.
   */
  lemma PublicationBinding(steps: seq<Step>, w: World, id: WorkflowId)
    requires QuietLeads(START, steps, w, id) && id in w.records
    ensures var r := w.records[id];
            && id in w.worktrees && r.publishedCommit in w.worktrees[id].commits
            && r.decision == (id, r.executionVersion) && r.decision in w.calls.decisions
            && var d := w.calls.decisions[r.decision];
               && d.applied.Some? && d.snapshot.kind.KindApprove?
               && w.worktrees[id].commits[r.publishedCommit].patch == r.patchChecksum == d.snapshot.patchChecksum
  {
    QuietRunKeeps(START, steps, w, id);
    RecordIsApproved(steps, w, id);
  }

  /**
    A foreign commit inside the window decides on its own. After a recognition it is what gets
    recorded, so its checksum must be right. After the head was read it must have the approved
    checksum to pass, and the record then names the head, whose checksum must be right as well.
   */
  lemma ForeignCommitInWindow(w: World, newId: CommitId, commit: Commit)
    requires (w.attempt.Recognized? || w.attempt.HeadRead?) && Bound(w, w.attempt.id)
    requires Enabled(w, ForeignCommit(w.attempt.id, newId, commit))
    ensures var a, t := w.attempt, After(w, ForeignCommit(w.attempt.id, newId, commit));
            && (a.Recognized? ==>
                  && Enabled(t, ReadHead)
                  && (Bound(After(t, ReadHead), a.id) <==> commit.patch == a.approved.patchChecksum))
            && (a.HeadRead? ==>
                  && (Enabled(t, Verify) <==> commit.patch == a.approved.patchChecksum)
                  && (Enabled(t, Verify) ==>
                        (Bound(After(t, Verify), a.id) <==> HasPatch(w, a.id, a.published, a.approved.patchChecksum))))
  {
    hide Text.Decimal, IsApproval, PassesTest;
  }

  // ----- over any number of foreign commits -----

  /** What a step says about the last head read to be published: a read compares that head's diff with the approval. */
  predicate RightAfter(w: World, step: Step, id: WorkflowId, right: bool) {
    if step.ReadHead? && w.attempt.Binds() && w.attempt.id == id && id in w.worktrees
    then HasPatch(w, id, w.worktrees[id].head, w.attempt.approved.patchChecksum) else right
  }

  /** Over a run: whether the head had the approved diff when it was last read to be published. */
  ghost predicate LastReadWasRight(w: World, steps: seq<Step>, id: WorkflowId, right: bool)
    decreases |steps|
  {
    if steps == [] || !Enabled(w, steps[0]) then right
    else LastReadWasRight(After(w, steps[0]), steps[1..], id, RightAfter(w, steps[0], id, right))
  }

  /** A commit of the worktree's, or the base it was created at: no later commit takes its name. */
  predicate IsKnown(w: World, id: WorkflowId, commit: CommitId) {
    && id in w.worktrees && id in Workflows(w)
    && (commit in w.worktrees[id].commits || commit == Workflows(w)[id].origin.baseCommit)
  }

  /** The head that was read, as the attempt or the record holds it, has the approved diff exactly if `right`. */
  predicate ReadHolds(w: World, id: WorkflowId, right: bool) {
    var a := w.attempt;
    && (id in w.worktrees ==> IsKnown(w, id, w.worktrees[id].head))
    && ((a.HeadRead? || a.Verified?) && a.id == id ==>
          IsKnown(w, id, a.published) && (HasPatch(w, id, a.published, a.approved.patchChecksum) <==> right))
    && (id in w.records ==>
          && !(a.Binds() && a.id == id) && IsKnown(w, id, w.records[id].publishedCommit)
          && (HasPatch(w, id, w.records[id].publishedCommit, w.records[id].patchChecksum) <==> right))
  }

  lemma TablesKeepRead(w: World, step: Step, id: WorkflowId, right: bool)
    requires ReadHolds(w, id, right) && Enabled(w, step) && (step.Elsewhere? || step.Finish?)
    ensures ReadHolds(After(w, step), id, right)
  {
    hide Enabled, After;
    TablesOnly(w, step);
    if id in Workflows(w) {
      OriginsStay(w, step, id);
    }
  }

  lemma TreesKeepRead(w: World, step: Step, id: WorkflowId, right: bool)
    requires ReadHolds(w, id, right) && Enabled(w, step)
    requires step.Prepare? || step.Edit? || step.ForeignCommit? || step.MakeCommit?
    ensures ReadHolds(After(w, step), id, right)
  {
    hide Text.Decimal, IsApproval, PassesTest;
  }

  lemma AttemptKeepsRead(w: World, step: Step, id: WorkflowId, right: bool)
    requires ReadHolds(w, id, right) && Enabled(w, step)
    requires !step.Elsewhere? && !step.Finish? && !step.Prepare? && !step.Edit? && !step.ForeignCommit? && !step.MakeCommit?
    ensures ReadHolds(After(w, step), id, RightAfter(w, step, id, right))
  {
    hide Text.Decimal, IsApproval, PassesTest;
  }

  lemma StepKeepsRead(w: World, step: Step, id: WorkflowId, right: bool)
    requires ReadHolds(w, id, right) && Enabled(w, step)
    ensures ReadHolds(After(w, step), id, RightAfter(w, step, id, right))
  {
    hide ReadHolds, Enabled, After;
    match step
    case Elsewhere(_) => TablesKeepRead(w, step, id, right);
    case Finish(_, _, _) => TablesKeepRead(w, step, id, right);
    case Prepare(_, _) => TreesKeepRead(w, step, id, right);
    case Edit(_, _) => TreesKeepRead(w, step, id, right);
    case ForeignCommit(_, _, _) => TreesKeepRead(w, step, id, right);
    case MakeCommit(_, _, _) => TreesKeepRead(w, step, id, right);
    case _ => AttemptKeepsRead(w, step, id, right);
  }

  lemma {:induction false} RunKeepsRead(w: World, steps: seq<Step>, t: World, id: WorkflowId, right: bool)
    requires ReadHolds(w, id, right) && Leads(w, steps, t)
    ensures ReadHolds(t, id, LastReadWasRight(w, steps, id, right))
    decreases |steps|
  {
    hide ReadHolds, Enabled, After, RightAfter;
    if steps != [] {
      StepKeepsRead(w, steps[0], id, right);
      RunKeepsRead(After(w, steps[0]), steps[1..], t, id, RightAfter(w, steps[0], id, right));
    }
  }

  /**
    In every run, with any number of foreign commits anywhere: the record names a commit whose
    diff was approved exactly if the head had that diff at the moment it was last read.
   */
  lemma RecordIsRightIff(steps: seq<Step>, w: World, id: WorkflowId)
    requires Leads(START, steps, w) && id in w.records
    ensures HasPatch(w, id, w.records[id].publishedCommit, w.records[id].patchChecksum) <==> LastReadWasRight(START, steps, id, true)
  {
    RunKeepsRead(START, steps, w, id, true);
  }

  /** If nobody else commits, any number of crashing attempts leave the head at the base or at one commit on it. */
  lemma AtMostOneCommit(steps: seq<Step>, w: World, id: WorkflowId)
    requires Leads(START, steps, w) && id in w.worktrees && forall i :: 0 <= i < |steps| ==> IsOwn(steps[i])
    ensures id in Workflows(w)
    ensures var tree, base := w.worktrees[id], Workflows(w)[id].origin.baseCommit;
            || tree.head == base
            || (&& tree.head in tree.commits && tree.commits[tree.head].parent == base
                && tree.commits[tree.head].subject == Subject(Text.Decimal(id)))
  {
    StartInvariant();
    HeadRun(START, steps, w);
    assert HeadShape(w, id);
  }

  // ----- a commit that cannot be published -----

  /**
    The attempt committed, but the commit's diff does not have the approved checksum: the
    attempt stops there, and no later one gets past the commit it finds.
   */
  predicate Wedged(w: World, id: WorkflowId, executionVersion: nat, base: CommitId) {
    && StandsAt(w, id, executionVersion) && Workflows(w)[id].origin.baseCommit == base
    && id in w.worktrees && id !in w.records
    && (id, executionVersion) in w.calls.decisions
    && w.worktrees[id].head != base
    && !HasPatch(w, id, w.worktrees[id].head, w.calls.decisions[(id, executionVersion)].snapshot.patchChecksum)
    && (w.attempt.Binds() && w.attempt.id == id ==>
          && w.attempt.job.origin.baseCommit == base && w.attempt.job.executionVersion == executionVersion
          && w.attempt.approved == w.calls.decisions[(id, executionVersion)].snapshot
          && (w.attempt.Capturing? || w.attempt.Captured? ==> w.attempt.head == w.worktrees[id].head)
          && !w.attempt.Recognized? && !w.attempt.Verified? && (w.attempt.Recognizing? ==> w.attempt.passed <= 3))
    && !(w.attempt.Finishing? && w.attempt.id == id)
  }

  /** The attempt's own commit is either verified next, or wedges the workflow: it depends on the checksum alone. */
  lemma CommitVerifiesOrWedges(w: World, newId: CommitId, patch: Checksum, changes: Checksum)
    requires AttemptHolds(w) && CaptureCurrent(w) && Enabled(w, MakeCommit(newId, patch, changes)) && w.attempt.id !in w.records
    ensures var a, t := w.attempt, After(w, MakeCommit(newId, patch, changes));
            && Enabled(t, ReadHead) && After(t, ReadHead).attempt == HeadRead(a.id, a.job, a.approved, newId)
            && (Enabled(After(t, ReadHead), Verify) <==> patch == a.approved.patchChecksum)
            && (Wedged(t, a.id, a.job.executionVersion, a.job.origin.baseCommit) <==> patch != a.approved.patchChecksum)
  {
    hide Text.Decimal;
  }

  lemma WedgeFrame(w: World, t: World, id: WorkflowId, executionVersion: nat, base: CommitId)
    requires Wedged(w, id, executionVersion, base) && StandsAt(t, id, executionVersion)
    requires Workflows(t)[id].origin == Workflows(w)[id].origin && t.worktrees == w.worktrees && t.records == w.records
    requires t.attempt == w.attempt || t.attempt.NoAttempt?
    requires (id, executionVersion) in t.calls.decisions
    requires t.calls.decisions[(id, executionVersion)].snapshot == w.calls.decisions[(id, executionVersion)].snapshot
    ensures Wedged(t, id, executionVersion, base)
  {
  }

  lemma ElsewhereKeepsWedge(w: World, step: Step, id: WorkflowId, executionVersion: nat, base: CommitId)
    requires Invariant(w) && Enabled(w, step) && Wedged(w, id, executionVersion, base) && step.Elsewhere?
    ensures Wedged(After(w, step), id, executionVersion, base)
  {
    OriginsStay(w, step, id);
    TablesOnly(w, step);
    hide A.CallInvariant, A.CallEnabled, A.AfterCall, IsForeign, HasPatch, PastApproval;
    A.CallStepKeeps(w.calls, step.call);
    FollowsDecisions(w.calls, A.AfterCall(w.calls, step.call));
    ForeignKeepsStanding(w, step.call, id);
    WedgeFrame(w, After(w, step), id, executionVersion, base);
  }

  lemma FinishKeepsWedge(w: World, step: Step, id: WorkflowId, executionVersion: nat, base: CommitId)
    requires Enabled(w, step) && Wedged(w, id, executionVersion, base) && step.Finish?
    ensures Wedged(After(w, step), id, executionVersion, base)
  {
    OriginsStay(w, step, id);
    TablesOnly(w, step);
    hide Orchestrator.Enabled, Orchestrator.After, HasPatch, PastApproval;
    if Workflows(w)[w.attempt.id].status.Publishing? {
      FinishRow(w.calls.system, w.attempt.id,
                Orchestrator.Act(w.attempt.id, FinishInput(Workflows(w)[w.attempt.id].version), step.freshId, step.now, step.enqueuedAt), id);
    }
    WedgeFrame(w, After(w, step), id, executionVersion, base);
  }

  lemma TreesKeepWedge(w: World, step: Step, id: WorkflowId, executionVersion: nat, base: CommitId)
    requires Enabled(w, step) && Wedged(w, id, executionVersion, base)
    requires step.Edit? || ((step.Prepare? || step.ForeignCommit?) && step.id != id)
    ensures Wedged(After(w, step), id, executionVersion, base)
  {
    hide Text.Decimal, PassesTest, IsApproval;
  }

  lemma AttemptKeepsWedge(w: World, step: Step, id: WorkflowId, executionVersion: nat, base: CommitId)
    requires Enabled(w, step) && Wedged(w, id, executionVersion, base)
    requires !step.Elsewhere? && !step.Finish? && !step.Prepare? && !step.Edit? && !step.ForeignCommit? && !step.MakeCommit?
    ensures Wedged(After(w, step), id, executionVersion, base)
  {
    hide Text.Decimal, PastApproval;
  }

  /** The attempt never commits on top of the commit it finds. */
  lemma CommitKeepsWedge(w: World, step: Step, id: WorkflowId, executionVersion: nat, base: CommitId)
    requires Enabled(w, step) && Wedged(w, id, executionVersion, base) && step.MakeCommit?
    ensures Wedged(After(w, step), id, executionVersion, base)
  {
    hide Text.Decimal, PastApproval, IsApproval;
    assert w.attempt.id != id;
  }

  lemma WedgedStays(w: World, step: Step, id: WorkflowId, executionVersion: nat, base: CommitId)
    requires Invariant(w) && Enabled(w, step) && Wedged(w, id, executionVersion, base)
    requires !(step.Prepare? && step.id == id) && !(step.ForeignCommit? && step.id == id)
    ensures Wedged(After(w, step), id, executionVersion, base)
  {
    hide Wedged, Invariant, Enabled, After;
    match step
    case Elsewhere(_) => ElsewhereKeepsWedge(w, step, id, executionVersion, base);
    case Finish(_, _, _) => FinishKeepsWedge(w, step, id, executionVersion, base);
    case MakeCommit(_, _, _) => CommitKeepsWedge(w, step, id, executionVersion, base);
    case Prepare(_, _) => TreesKeepWedge(w, step, id, executionVersion, base);
    case Edit(_, _) => TreesKeepWedge(w, step, id, executionVersion, base);
    case ForeignCommit(_, _, _) => TreesKeepWedge(w, step, id, executionVersion, base);
    case _ => AttemptKeepsWedge(w, step, id, executionVersion, base);
  }

  /** Such a workflow is never published and never completed, however often the stage is retried. */
  lemma {:induction false} WedgedForever(w: World, steps: seq<Step>, t: World, id: WorkflowId, executionVersion: nat, base: CommitId)
    requires Invariant(w) && Leads(w, steps, t) && Wedged(w, id, executionVersion, base)
    requires forall i :: 0 <= i < |steps| ==> !(steps[i].Prepare? && steps[i].id == id) && !(steps[i].ForeignCommit? && steps[i].id == id)
    ensures Wedged(t, id, executionVersion, base) && !Workflows(t)[id].status.Completed?
    decreases |steps|
  {
    if steps == [] {
    } else {
      hide Invariant, Enabled, After, Wedged;
      StepKeeps(w, steps[0]);
      WedgedStays(w, steps[0], id, executionVersion, base);
      WedgedForever(After(w, steps[0]), steps[1..], t, id, executionVersion, base);
    }
  }

  // ----- one attempt, uninterrupted -----

  lemma {:induction false} LeadsOneMore(w: World, steps: seq<Step>, t: World, step: Step)
    requires Leads(w, steps, t) && Enabled(t, step)
    ensures Leads(w, steps + [step], After(t, step))
    decreases |steps|
  {
    hide Enabled, After;
    var longer := steps + [step];
    if steps == [] {
      assert longer[1..] == [];
    } else {
      LeadsOneMore(After(w, steps[0]), steps[1..], t, step);
      assert longer[1..] == steps[1..] + [step];
    }
  }

  datatype PublishError =
    | InvalidDispatch | VersionAhead | WorkflowCancelled | NotInitialized | NotApproved | ChecksMissing | NotReady
    | LeaseUnavailable | SnapshotMismatch | CommitMismatch | LeaseLost

  /** What git answers to `commit`: the new head, its checksum against the base, and what stays uncommitted. */
  datatype GitCommit = GitCommit(newId: CommitId, patch: Checksum, changes: Checksum)

  /** The workspace: not READY, leased to somebody else, or leased to this attempt, which may lose the lease before it gives it back. */
  datatype Workspace = Unready | Held | Leasable(keepsLease: bool)

  /** An applied approval whose checks passed, or were overridden with a note. */
  predicate IsPublishable(decisions: map<A.Key, A.Decision>, key: A.Key, check: A.CheckStatus) {
    && key in decisions && decisions[key].applied.Some? && decisions[key].snapshot.kind.KindApprove?
    && (check.ChecksPassed? || (check.ChecksFailed? && decisions[key].snapshot.reviewOverride && decisions[key].snapshot.note != ""))
  }

  /** The worktree holds the approved patch, uncommitted or committed by an earlier attempt. */
  predicate HoldsApproved(tree: Worktree, id: WorkflowId, base: CommitId, approved: A.Snapshot, git: GitCommit) {
    || (tree.head == base == approved.baseCommit && tree.changes == approved.patchChecksum == git.patch)
    || (tree.head != base && tree.head in tree.commits
        && tree.commits[tree.head] == Commit(base, "Orkoda publish: " + Text.Decimal(id), approved.patchChecksum))
  }

  /** On the base that is the approved diff, captured and committed as it was; elsewhere the publisher's own commit of it. */
  lemma HoldsIff(tree: Worktree, id: WorkflowId, base: CommitId, approved: A.Snapshot, git: GitCommit)
    ensures tree.head == base ==>
              (HoldsApproved(tree, id, base, approved, git) <==>
               base == approved.baseCommit && tree.changes == approved.patchChecksum && git.patch == approved.patchChecksum)
    ensures tree.head != base ==>
              (HoldsApproved(tree, id, base, approved, git) <==> IsPublishedCommit(tree, base, Text.Decimal(id), approved.patchChecksum))
  {
    hide Text.Decimal;
  }

  lemma FinishIsLegal(job: Job)
    requires job.status.Publishing? && job.version >= 1
    ensures TransitionError(job, FinishInput(job.version)).None?
    ensures forall dispatch, now :: RowWith(job, FinishInput(job.version), dispatch, now).status.Completed?
  {
  }

  /** HandleDurable accepts the payload. */
  predicate Decodes(payload: Dispatch) {
    Orchestrator.Accepts(PublishPatch, payload) && payload.version >= 1
  }

  /** The dispatch is this handler's and its workflow has reached it. */
  predicate IsReached(payload: Dispatch, job: Job) {
    payload.action.Publish? && payload.target.Publishing? && 1 <= payload.version <= job.version
  }

  /** The version has an applied approval, and its checks passed, or failed and were overruled with a reason. */
  predicate MayPublish(decisions: map<A.Key, A.Decision>, id: WorkflowId, executionVersion: nat, check: A.CheckStatus) {
    && (id, executionVersion) in decisions
    && var decision := decisions[(id, executionVersion)];
       && decision.applied.Some? && decision.snapshot.kind == A.KindApprove
       && (check == A.ChecksPassed || (check == A.ChecksFailed && decision.snapshot.reviewOverride && decision.snapshot.note != ""))
  }

  lemma PublishableIs(decisions: map<A.Key, A.Decision>, id: WorkflowId, job: Job, check: A.CheckStatus)
    ensures IsPublishable(decisions, DecisionKey(id, job), check) <==> MayPublish(decisions, id, job.executionVersion, check)
    ensures DecisionKey(id, job) == (id, job.executionVersion)
  {
  }

  /** The first thing that keeps a PUBLISHING workflow's dispatch from touching its worktree. */
  function Obstacle(payload: Dispatch, job: Job, recorded: bool, decisions: map<A.Key, A.Decision>, check: A.CheckStatus,
                    hasTree: bool, workspace: Workspace): Option<PublishError>
  {
    var key := (payload.workflow, job.executionVersion);
    if !payload.action.Publish? || !payload.target.Publishing? || payload.version < 1 then Some(InvalidDispatch)
    else if job.version < payload.version then Some(VersionAhead)
    else if job.cancellationRequested then Some(WorkflowCancelled)
    else if job.executionVersion < 1 then Some(NotInitialized)
    else if recorded then None
    else if !(key in decisions && decisions[key].applied.Some? && decisions[key].snapshot.kind.KindApprove?) then Some(NotApproved)
    else if !MayPublish(decisions, payload.workflow, job.executionVersion, check) then Some(ChecksMissing)
    else if !hasTree || workspace.Unready? then Some(NotReady)
    else if workspace.Held? then Some(LeaseUnavailable)
    else None
  }

  /** The handler, with the tables and worktrees it changes. Its run is a run of the steps above. */
  class Handler {
    const workflows: Repository
    const decisions: map<A.Key, A.Decision>
    var worktrees: map<WorkflowId, Worktree>
    var records: map<WorkflowId, Record>
    ghost var start: World
    ghost var world: World
    ghost var steps: seq<Step>

    ghost predicate Valid()
      reads this, workflows, workflows.queue
    {
      && workflows.Snapshot().Logged()
      && world.calls.system.db == workflows.Snapshot() && world.calls.decisions == decisions
      && world.worktrees == worktrees && world.records == records
      && Leads(start, steps, world)
    }

    constructor (workflows: Repository, decisions: map<A.Key, A.Decision>, worktrees: map<WorkflowId, Worktree>,
                 records: map<WorkflowId, Record>, ghost world: World)
      requires workflows.Snapshot().Logged() && world.calls.system.db == workflows.Snapshot()
      requires world.calls.decisions == decisions && world.worktrees == worktrees && world.records == records
      ensures Valid() && this.workflows == workflows && this.decisions == decisions && this.world == this.start == world
    {
      this.workflows, this.decisions, this.worktrees, this.records := workflows, decisions, worktrees, records;
      this.start, this.world, this.steps := world, world, [];
    }

    ghost method Took(step: Step)
      requires Leads(start, steps, world) && Enabled(world, step)
      modifies `world, `steps
      ensures world == After(old(world), step) && Leads(start, steps, world)
    {
      hide Enabled, After;
      LeadsOneMore(start, steps, world, step);
      steps := steps + [step];
      world := After(world, step);
    }

    /** finishWorkflow, once a record is there; a workflow that is no longer PUBLISHING is left alone. */
    method FinishWorkflow(id: WorkflowId, freshId: JobId, now: int)
      requires Valid() && world.attempt == Finishing(id) && freshId !in workflows.queue.rows
      requires id in workflows.workflows && workflows.workflows[id].version >= 1
      modifies workflows, workflows.queue, `world, `steps
      ensures Valid() && start == old(start) && world.attempt.NoAttempt? && id in workflows.workflows
      ensures old(workflows.workflows)[id].status.Publishing? ==> workflows.workflows[id].status.Completed?
      ensures !old(workflows.workflows)[id].status.Publishing? ==> workflows.Snapshot() == old(workflows.Snapshot())
    {
      hide TransitionError, RowWith, EntryFor, NewDispatch, Leads;
      var current := workflows.workflows[id];
      if !current.status.Publishing? {
        Took(Finish(freshId, now, now));
        return;
      }
      FinishIsLegal(current);
      assert Enabled(world, Finish(freshId, now, now));
      var _ := workflows.Transition(id, FinishInput(current.version), freshId, now, now);
      Took(Finish(freshId, now, now));
    }

    /** Record the published head, give the workspace back, then complete the workflow. */
    method SaveAndFinish(id: WorkflowId, job: Job, approved: A.Snapshot, published: CommitId, keepsLease: bool, freshId: JobId, now: int)
      returns (error: Option<PublishError>)
      requires Valid() && world.attempt == Verified(id, job, approved, published) && freshId !in workflows.queue.rows
      requires id in workflows.workflows && workflows.workflows[id].status.Publishing? && workflows.workflows[id].version >= 1
      modifies this, workflows, workflows.queue
      ensures Valid() && start == old(start) && world.attempt.NoAttempt?
      ensures error == (if keepsLease then None else Some(LeaseLost)) && worktrees == old(worktrees)
      ensures keepsLease ==> id in workflows.workflows && workflows.workflows[id].status.Completed?
      ensures !keepsLease ==> workflows.Snapshot() == old(workflows.Snapshot())
      ensures records == old(records)[id := Record(job.executionVersion, DecisionKey(id, job), job.origin.baseCommit,
                                                   approved.patchChecksum, published)]
    {
      hide Leads, Orchestrator.Enabled, Orchestrator.After, A.CallEnabled, A.AfterCall;
      records := records[id := Record(job.executionVersion, DecisionKey(id, job), job.origin.baseCommit,
                                      approved.patchChecksum, published)];
      Took(Save);
      if !keepsLease {
        Took(Abandon);
        return Some(LeaseLost);
      }
      FinishWorkflow(id, freshId, now);
      return None;
    }

    /** Commit the captured patch, then compare the commit with what was approved. */
    method CommitAndVerify(id: WorkflowId, job: Job, approved: A.Snapshot, git: GitCommit) returns (ok: bool)
      requires Valid() && id in worktrees && job.origin.baseCommit == approved.baseCommit
      requires world.attempt == Captured(id, job, approved, job.origin.baseCommit, approved.patchChecksum)
      requires git.newId !in worktrees[id].commits && git.newId != job.origin.baseCommit
      modifies this
      ensures Valid() && start == old(start) && records == old(records)
      ensures ok <==> git.patch == approved.patchChecksum
      ensures world.attempt == if ok then Verified(id, job, approved, git.newId) else NoAttempt
      ensures var tree := old(worktrees)[id];
              var commit := Commit(tree.head, "Orkoda publish: " + Text.Decimal(id), git.patch);
              worktrees == old(worktrees)[id := Worktree(git.newId, tree.commits[git.newId := commit], git.changes)]
    {
      hide Leads, Orchestrator.Enabled, Orchestrator.After, A.CallEnabled, A.AfterCall, Text.Decimal;
      var tree := worktrees[id];
      tree := WithCommit(tree, git.newId, Commit(tree.head, Subject(Text.Decimal(id)), git.patch), git.changes);
      worktrees := worktrees[id := tree];
      Took(MakeCommit(git.newId, git.patch, git.changes));
      var publishedHead := tree.head;
      if tree.commits[publishedHead].patch != approved.patchChecksum {
        Took(Abandon);
        return false;
      }
      TookVerification(id, job, approved);
      return true;
    }

    /** The head and the uncommitted changes, on a worktree nobody touches meanwhile. */
    ghost method TookCapture(id: WorkflowId, job: Job, approved: A.Snapshot)
      requires Valid() && id in worktrees && world.attempt == Leased(id, job, approved)
      modifies `world, `steps
      ensures Valid() && world == old(world).(attempt := Captured(id, job, approved, worktrees[id].head, worktrees[id].changes))
    {
      hide Leads, A.CallEnabled, A.AfterCall, Orchestrator.Enabled, Orchestrator.After, Text.Decimal;
      Took(CaptureHead);
      Took(CaptureChanges);
    }

    /** The head is read and its diff compared. */
    ghost method TookVerification(id: WorkflowId, job: Job, approved: A.Snapshot)
      requires Valid() && id in worktrees && worktrees[id].head in worktrees[id].commits
      requires world.attempt == Committed(id, job, approved)
      requires worktrees[id].commits[worktrees[id].head].patch == approved.patchChecksum
      modifies `world, `steps
      ensures Valid() && world == old(world).(attempt := Verified(id, job, approved, worktrees[id].head))
    {
      hide Leads, A.CallEnabled, A.AfterCall, Orchestrator.Enabled, Orchestrator.After, Text.Decimal;
      Took(ReadHead);
      Took(Verify);
    }

    /** isPublishedCommit's four tests and the head behind them, on a worktree nobody touches meanwhile. */
    ghost method TookRecognition(id: WorkflowId, job: Job, approved: A.Snapshot)
      requires Valid() && id in worktrees && world.attempt.Captured? && worktrees[id].head != job.origin.baseCommit
      requires world.attempt == Captured(id, job, approved, worktrees[id].head, world.attempt.changes)
      requires IsPublishedCommit(worktrees[id], job.origin.baseCommit, Text.Decimal(id), approved.patchChecksum)
      modifies `world, `steps
      ensures Valid() && world == old(world).(attempt := Verified(id, job, approved, worktrees[id].head))
    {
      hide Leads, A.CallEnabled, A.AfterCall, Orchestrator.Enabled, Orchestrator.After, Text.Decimal;
      Took(Recognize);
      Took(Recognize);
      Took(Recognize);
      Took(Recognize);
      Took(ReadHead);
    }

    /** Capture, commit unless an earlier attempt did, verify, record and complete. */
    method Publish(id: WorkflowId, job: Job, approved: A.Snapshot, git: GitCommit, keepsLease: bool, freshId: JobId, now: int)
      returns (error: Option<PublishError>)
      requires Valid() && world.attempt == Leased(id, job, approved) && freshId !in workflows.queue.rows
      requires id in workflows.workflows && workflows.workflows[id].status.Publishing? && workflows.workflows[id].version >= 1
      requires id in worktrees && git.newId !in worktrees[id].commits && git.newId != job.origin.baseCommit
      modifies this, workflows, workflows.queue
      ensures Valid() && start == old(start) && world.attempt.NoAttempt?
      ensures error.None? || error == Some(LeaseLost) <==> HoldsApproved(old(worktrees)[id], id, job.origin.baseCommit, approved, git)
      ensures HoldsApproved(old(worktrees)[id], id, job.origin.baseCommit, approved, git) ==>
                && (error.None? <==> keepsLease) && id in worktrees
                && records == old(records)[id := Record(job.executionVersion, (id, job.executionVersion), job.origin.baseCommit,
                                                        approved.patchChecksum, worktrees[id].head)]
      ensures error.None? ==> id in workflows.workflows && workflows.workflows[id].status.Completed?
      ensures error.Some? ==> workflows.Snapshot() == old(workflows.Snapshot())
      ensures error.Some? && !error.value.LeaseLost? ==> records == old(records)
      ensures var tree := old(worktrees)[id];
              error == Some(CommitMismatch) <==>
                tree.head == job.origin.baseCommit == approved.baseCommit && tree.changes == approved.patchChecksum != git.patch
      ensures error == Some(CommitMismatch) ==> id in worktrees && worktrees[id].head == git.newId
      ensures error.Some? ==> error.value.CommitMismatch? || error.value.SnapshotMismatch? || error.value.LeaseLost?
      ensures error == Some(SnapshotMismatch) ==> worktrees == old(worktrees)
    {
      hide Leads, Orchestrator.Enabled, Orchestrator.After, A.CallEnabled, A.AfterCall, Text.Decimal;
      var tree := worktrees[id];
      var base := job.origin.baseCommit;
      TookCapture(id, job, approved);
      if tree.head != base || tree.head != approved.baseCommit || tree.changes != approved.patchChecksum {
        if tree.head != base && IsPublishedCommit(tree, base, Text.Decimal(id), approved.patchChecksum) {
          TookRecognition(id, job, approved);
          error := SaveAndFinish(id, job, approved, tree.head, keepsLease, freshId, now);
          return error;
        }
        Took(Abandon);
        return Some(SnapshotMismatch);
      }
      var ok := CommitAndVerify(id, job, approved, git);
      if !ok {
        return Some(CommitMismatch);
      }
      error := SaveAndFinish(id, job, approved, git.newId, keepsLease, freshId, now);
    }

    /** handle: publishes exactly what an applied approval covers, and only for a PUBLISHING workflow. */
    method Handle(payload: Dispatch, check: A.CheckStatus, workspace: Workspace, git: GitCommit, freshId: JobId, now: int)
      returns (r: Result<bool, PublishError>)
      requires Valid() && world.attempt.NoAttempt? && freshId !in workflows.queue.rows
      requires payload.workflow in workflows.workflows && workflows.workflows[payload.workflow].version >= 1
      requires payload.workflow in worktrees ==>
                 && git.newId !in worktrees[payload.workflow].commits
                 && git.newId != workflows.workflows[payload.workflow].origin.baseCommit
      modifies this, workflows, workflows.queue
      ensures Valid() && start == old(start) && world.attempt.NoAttempt?
      ensures r == Ok(false) <==> IsReached(payload, old(workflows.workflows)[payload.workflow])
                                  && !old(workflows.workflows)[payload.workflow].status.Publishing?
      ensures r == Ok(true) ==> && payload.workflow in records && payload.workflow in workflows.workflows
                                && workflows.workflows[payload.workflow].status.Completed?
      ensures var job := old(workflows.workflows)[payload.workflow];
              var obstacle := Obstacle(payload, job, payload.workflow in old(records), decisions, check,
                                       payload.workflow in old(worktrees), workspace);
              r != Ok(false) ==>
                && (obstacle.Some? ==> r == Err(obstacle.value))
                && (obstacle.None? && r.Err? ==> r.error.CommitMismatch? || r.error.SnapshotMismatch? || r.error.LeaseLost?)
      ensures r != Ok(true) ==> workflows.Snapshot() == old(workflows.Snapshot())
      ensures r != Ok(true) && r != Err(LeaseLost) ==> records == old(records)
      ensures r == Err(LeaseLost) ==> workspace == Leasable(false) && payload.workflow in records
      ensures r == Ok(true) ==> payload.workflow in old(records) || workspace == Leasable(true)
      ensures var id := payload.workflow;
              var job := old(workflows.workflows)[id];
              r == Ok(true) || r == Err(LeaseLost) <==>
                && IsReached(payload, job) && job.status.Publishing? && !job.cancellationRequested && job.executionVersion >= 1
                && (id in old(records)
                    || (&& MayPublish(decisions, id, job.executionVersion, check) && id in old(worktrees) && workspace.Leasable?
                        && HoldsApproved(old(worktrees)[id], id, job.origin.baseCommit,
                                         decisions[(id, job.executionVersion)].snapshot, git)))
    {
      hide Leads, Orchestrator.Enabled, Orchestrator.After, A.CallEnabled, A.AfterCall, HoldsApproved, Text.Decimal;
      PublishableIs(decisions, payload.workflow, workflows.workflows[payload.workflow], check);
      hide MayPublish;
      if !Decodes(payload) {
        return Err(InvalidDispatch);
      }
      var id := payload.workflow;
      var job := workflows.workflows[id];
      if job.version < payload.version {
        return Err(VersionAhead);
      }
      if !job.status.Publishing? {
        return Ok(false);
      }
      if job.cancellationRequested {
        return Err(WorkflowCancelled);
      }
      if job.executionVersion < 1 {
        return Err(NotInitialized);
      }
      if id in records {
        Took(Begin(id, check));
        FinishWorkflow(id, freshId, now);
        return Ok(true);
      }
      var key := DecisionKey(id, job);
      if key !in decisions || decisions[key].applied.None? || !decisions[key].snapshot.kind.KindApprove? {
        return Err(NotApproved);
      }
      if !IsPublishable(decisions, key, check) {
        return Err(ChecksMissing);
      }
      if id !in worktrees || workspace.Unready? {
        return Err(NotReady);
      }
      if workspace.Held? {
        return Err(LeaseUnavailable);
      }
      Took(Begin(id, check));
      var error := Publish(id, job, decisions[key].snapshot, git, workspace.keepsLease, freshId, now);
      return if error.Some? then Err(error.value) else Ok(true);
    }
  }
}
