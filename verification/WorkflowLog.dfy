/**
  The append-only transition log of one workflow, and what can be read off it:
  the facts the workflow row only caches, and a bound on its length.
 */
module WorkflowLog {
  import opened Wrappers
  import opened WorkflowTransition
  import opened JobQueue

  datatype Entry = Entry(
    from: Option<Status>, action: Action, to: Status, version: nat, dispatch: Option<JobId>, at: int)

  type Log = seq<Entry>

  function Last(log: Log): Entry
    requires log != []
  {
    log[|log| - 1]
  }

  function Count(log: Log, action: Action): nat {
    if log == [] then 0
    else Count(log[..|log| - 1], action) + if Last(log).action == action then 1 else 0
  }

  /** QUEUE_REVISION entries after the last RESTART. */
  function RevisionsSinceRestart(log: Log): nat {
    if log == [] || Last(log).action.Restart? then 0
    else RevisionsSinceRestart(log[..|log| - 1]) + if Last(log).action.QueueRevision? then 1 else 0
  }

  /** The status the last FAIL was raised in, until a RETRY, RESTART or CONTINUE_EXECUTION answers it. */
  function RetryStatusOf(log: Log): Option<Status> {
    if log == [] then None
    else match Last(log).action
      case Fail => Last(log).from
      case Retry | Restart | ContinueExecution => None
      case _ => RetryStatusOf(log[..|log| - 1])
  }

  predicate EntryJustified(log: Log, i: nat)
    requires 0 < i < |log|
  {
    && log[i].version == i + 1
    && log[i].from == Some(log[i - 1].to)
    && NextStatus(log[i - 1].to, log[i].action, RetryStatusOf(log[..i])) == Some(log[i].to)
  }

  /** Versions are 1, 2, 3, ..., each entry starts where the previous one ended, and the table allows it. */
  ghost predicate Justified(log: Log) {
    && log != []
    && log[0].action.Create? && log[0].from.None? && log[0].to.Ready? && log[0].version == 1 && log[0].dispatch.None?
    && forall i :: 0 < i < |log| ==> EntryJustified(log, i)
  }

  lemma PrefixJustified(log: Log, k: nat)
    requires Justified(log) && 0 < k <= |log|
    ensures Justified(log[..k])
  {
    forall i | 0 < i < k
      ensures EntryJustified(log[..k], i)
    {
      assert EntryJustified(log, i);
      assert log[..k][..i] == log[..i];
    }
  }

  lemma ExtendJustified(log: Log, e: Entry)
    requires Justified(log)
    requires e.version == |log| + 1 && e.from == Some(Last(log).to)
    requires NextStatus(Last(log).to, e.action, RetryStatusOf(log)) == Some(e.to)
    ensures Justified(log + [e])
    ensures (log + [e])[..|log|] == log
  {
    var longer := log + [e];
    assert longer[..|log|] == log;
    forall i | 0 < i < |longer|
      ensures EntryJustified(longer, i)
    {
      if i < |log| {
        assert EntryJustified(log, i);
        assert longer[..i] == log[..i];
      }
    }
  }

  // ----- run length -----

  /** The most steps a workflow can take from a status without RETRY, RESTART, CONTINUE_EXECUTION or QUEUE_REVISION. */
  function StepsLeft(s: Status): nat {
    match s
    case Ready => 10
    case WorkspacePreparing => 9
    case Queued => 8
    case Executing => 7
    case Checking => 6
    case Reviewing => 5
    case WaitingApproval => 4
    case Approved => 3
    case Publishing => 2
    case RevisionRequired | Failed => 1
    case Completed | Rejected | Cancelled => 0
  }

  /** Steps back: what a log may do to take more than eleven entries. */
  function Allowance(log: Log): nat {
    9 * (Count(log, Retry) + Count(log, Restart)) + 8 * (Count(log, ContinueExecution) + Count(log, QueueRevision))
  }

  function StepBack(action: Action): nat {
    if action.Retry? || action.Restart? then 9 else if action.ContinueExecution? || action.QueueRevision? then 8 else 0
  }

  lemma EachStepIsPaidFor(current: Status, action: Action, retryStatus: Option<Status>)
    requires retryStatus.Some? ==> IsActiveStage(retryStatus.value)
    requires NextStatus(current, action, retryStatus).Some?
    ensures StepsLeft(NextStatus(current, action, retryStatus).value) + 1 <= StepsLeft(current) + StepBack(action)
  {
  }

  /** A log, and everything that may still be appended without a step back, is bounded by its steps back. */
  lemma {:induction false} RunLength(log: Log)
    requires Justified(log)
    ensures |log| + StepsLeft(Last(log).to) <= 11 + Allowance(log)
  {
    var n := |log| - 1;
    if n > 0 {
      PrefixJustified(log, n);
      RunLength(log[..n]);
      assert EntryJustified(log, n);
      RetryStatusIsActive(log[..n]);
      EachStepIsPaidFor(log[n - 1].to, log[n].action, RetryStatusOf(log[..n]));
      assert Allowance(log) == Allowance(log[..n]) + StepBack(log[n].action);
    } else {
      assert log[..0] == [];
    }
  }

  lemma {:induction false} RetryStatusIsActive(log: Log)
    requires Justified(log)
    ensures RetryStatusOf(log).Some? ==> IsActiveStage(RetryStatusOf(log).value)
    ensures Last(log).to.Failed? ==> RetryStatusOf(log).Some?
  {
    var n := |log| - 1;
    if n > 0 {
      PrefixJustified(log, n);
      RetryStatusIsActive(log[..n]);
      assert EntryJustified(log, n);
    }
  }

  // ----- revisions -----

  /** No prefix of the log holds more than `limit` QUEUE_REVISION entries since its last RESTART. */
  predicate RevisionsWithin(log: Log, limit: int) {
    log != [] ==> RevisionsSinceRestart(log) <= limit && RevisionsWithin(log[..|log| - 1], limit)
  }

  /** Each RESTART buys one more revision budget. */
  lemma {:induction false} RevisionsArePaidFor(log: Log, limit: nat)
    requires RevisionsWithin(log, limit)
    ensures Count(log, QueueRevision) <= limit * Count(log, Restart) + RevisionsSinceRestart(log)
    ensures Count(log, QueueRevision) <= limit * (Count(log, Restart) + 1)
    ensures Count(log, Restart) == 0 ==> Count(log, QueueRevision) <= limit
  {
    if log != [] {
      var before := log[..|log| - 1];
      RevisionsArePaidFor(before, limit);
      assert limit * (Count(before, Restart) + 1) == limit * Count(before, Restart) + limit;
    }
    assert limit * (Count(log, Restart) + 1) == limit * Count(log, Restart) + limit;
  }
}
