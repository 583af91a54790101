/**
  The durable queue (internal/jobqueue). Each SQL statement is one guarded row
  update: a function of the row, applied by a method of Queue to the table.
 */
module JobQueue {
  import opened Wrappers
  import opened WorkflowTransition

  type WorkflowId = nat
  type JobId = nat

  /** The payload a workflow transition stores in the job it enqueues. */
  datatype Dispatch = Dispatch(workflow: WorkflowId, version: nat, action: Action, target: Status)

  datatype QueueStatus = JobQueued | JobRunning | JobCompleted | JobDead

  datatype QueueJob = QueueJob(
    jobType: JobType, payload: Dispatch, status: QueueStatus,
    attempts: nat, maxAttempts: int, runAfter: int,
    lockedBy: Option<string>, lockedAt: Option<int>, lastError: Option<string>,
    createdAt: int, updatedAt: int)

  type Rows = map<JobId, QueueJob>

  datatype QueueError = TypeRequired | MaxAttemptsRequired | WorkerRequired | JobNotRunning

  // ----- row functions: what each statement writes -----

  function NewJob(jobType: JobType, payload: Dispatch, maxAttempts: int, runAfter: int, at: int): QueueJob {
    QueueJob(jobType, payload, JobQueued, 0, maxAttempts, runAfter, None, None, None, at, at)
  }

  /** Validation shared by Enqueue and EnqueueTx. */
  function EnqueueError(jobType: JobType, maxAttempts: int): Option<QueueError> {
    if jobType == OtherType("") then Some(TypeRequired)
    else if maxAttempts < 1 then Some(MaxAttemptsRequired)
    else None
  }

  function ClaimedRow(j: QueueJob, worker: string, now: int): QueueJob {
    j.(status := JobRunning, attempts := j.attempts + 1, lockedBy := Some(worker), lockedAt := Some(now), updatedAt := now)
  }

  function CompletedRow(j: QueueJob, now: int): QueueJob {
    j.(status := JobCompleted, lockedBy := None, lockedAt := None, updatedAt := now)
  }

  function FailedRow(j: QueueJob, failure: string, retryAt: int, now: int): QueueJob {
    j.(status := if j.attempts >= j.maxAttempts then JobDead else JobQueued,
       runAfter := if j.attempts >= j.maxAttempts then j.runAfter else retryAt,
       lastError := Some(failure), lockedBy := None, lockedAt := None, updatedAt := now)
  }

  function RequeuedRow(j: QueueJob, now: int): QueueJob {
    j.(status := JobQueued, lockedBy := None, lockedAt := None, updatedAt := now)
  }

  /** `locked_at < before`; a NULL lock time compares to nothing. */
  predicate IsStale(j: QueueJob, before: int) {
    j.status.JobRunning? && j.lockedAt.Some? && j.lockedAt.value < before
  }

  function StaleRecovered(rows: Rows, before: int, now: int): Rows {
    map id | id in rows :: if IsStale(rows[id], before) then RequeuedRow(rows[id], now) else rows[id]
  }

  function InterruptedRecovered(rows: Rows, now: int): Rows {
    map id | id in rows :: if rows[id].status.JobRunning? then RequeuedRow(rows[id], now) else rows[id]
  }

  function RunningJobs(rows: Rows): set<JobId> {
    set id | id in rows && rows[id].status.JobRunning?
  }

  function StaleJobs(rows: Rows, before: int): set<JobId> {
    set id | id in rows && IsStale(rows[id], before)
  }

  // ----- claim order: ORDER BY run_after, created_at LIMIT 1 -----

  predicate KeyAtMost(a: QueueJob, b: QueueJob) {
    a.runAfter < b.runAfter || (a.runAfter == b.runAfter && a.createdAt <= b.createdAt)
  }

  /** QUEUED jobs that are due; `types` limits them to the registered handlers when given. */
  function Runnable(rows: Rows, now: int, types: Option<set<JobType>>): set<JobId> {
    set id | id in rows && rows[id].status.JobQueued? && rows[id].runAfter <= now
             && (types.Some? ==> rows[id].jobType in types.value)
  }

  /** Ties on the key are left to the database. */
  predicate IsFirst(rows: Rows, ids: set<JobId>, id: JobId)
    requires ids <= rows.Keys
  {
    id in ids && forall other :: other in ids ==> KeyAtMost(rows[id], rows[other])
  }

  /** The table. */
  class Queue {
    var rows: Rows

    constructor ()
      ensures rows == map[]
    {
      rows := map[];
    }

    method Enqueue(id: JobId, jobType: JobType, payload: Dispatch, maxAttempts: int, runAfter: int, at: int)
      returns (r: Result<JobId, QueueError>)
      requires id !in rows  // newID draws 128 random bits
      modifies this
      ensures EnqueueError(jobType, maxAttempts).Some? ==>
                r == Err(EnqueueError(jobType, maxAttempts).value) && rows == old(rows)
      ensures EnqueueError(jobType, maxAttempts).None? ==>
                r == Ok(id) && rows == old(rows)[id := NewJob(jobType, payload, maxAttempts, runAfter, at)]
      ensures r.Err? <==> jobType == OtherType("") || maxAttempts < 1
      ensures r.Ok? ==>
                rows[id] == QueueJob(jobType, payload, JobQueued, 0, maxAttempts, runAfter, None, None, None, at, at)
    {
      if jobType == OtherType("") {
        return Err(TypeRequired);
      }
      if maxAttempts < 1 {
        return Err(MaxAttemptsRequired);
      }
      rows := rows[id := NewJob(jobType, payload, maxAttempts, runAfter, at)];
      return Ok(id);
    }

    method First(ids: set<JobId>) returns (id: JobId)
      requires ids != {} && ids <= rows.Keys
      ensures IsFirst(rows, ids, id)
    {
      id :| id in ids;
      var rest := ids - {id};
      while rest != {}
        invariant rest <= ids && id in ids
        invariant forall other :: other in ids - rest ==> KeyAtMost(rows[id], rows[other])
      {
        var next :| next in rest;
        if !KeyAtMost(rows[id], rows[next]) {
          id := next;
        }
        rest := rest - {next};
      }
    }

    /** Claim takes any due job, ClaimTypes only jobs of the given types. */
    method Claim(worker: string, now: int, types: Option<set<JobType>>) returns (r: Result<Option<JobId>, QueueError>)
      modifies this
      ensures worker == "" ==> r == Err(WorkerRequired) && rows == old(rows)
      ensures worker != "" && Runnable(old(rows), now, types) == {} ==> r == Ok(None) && rows == old(rows)
      ensures worker != "" && Runnable(old(rows), now, types) != {} ==>
                && r.Ok? && r.value.Some?
                && IsFirst(old(rows), Runnable(old(rows), now, types), r.value.value)
                && rows == old(rows)[r.value.value := ClaimedRow(old(rows)[r.value.value], worker, now)]
      ensures r == Ok(None) ==>
                forall id :: id in old(rows) && old(rows)[id].status.JobQueued? && old(rows)[id].runAfter <= now ==>
                  types.Some? && old(rows)[id].jobType !in types.value
      ensures r.Ok? && r.value.Some? ==>
                && r.value.value in old(rows) && r.value.value in rows
                && var before, after := old(rows)[r.value.value], rows[r.value.value];
                   && before.status.JobQueued? && before.runAfter <= now && (types.Some? ==> before.jobType in types.value)
                   && after == before.(status := JobRunning, attempts := before.attempts + 1,
                                       lockedBy := Some(worker), lockedAt := Some(now), updatedAt := now)
                   && forall id :: id in old(rows) && old(rows)[id].status.JobQueued? && old(rows)[id].runAfter <= now
                                   && (types.Some? ==> old(rows)[id].jobType in types.value) ==>
                        || before.runAfter < old(rows)[id].runAfter
                        || (before.runAfter == old(rows)[id].runAfter && before.createdAt <= old(rows)[id].createdAt)
    {
      if worker == "" {
        return Err(WorkerRequired);
      }
      var due := Runnable(rows, now, types);
      if due == {} {
        assert forall id :: id in rows ==> id !in due;
        return Ok(None);
      }
      var id := First(due);
      rows := rows[id := ClaimedRow(rows[id], worker, now)];
      return Ok(Some(id));
    }

    method Complete(id: JobId, now: int) returns (r: Result<(), QueueError>)
      modifies this
      ensures id in old(rows) && old(rows)[id].status.JobRunning? ==>
                && r == Ok(()) && rows == old(rows)[id := CompletedRow(old(rows)[id], now)]
                && rows[id] == old(rows)[id].(status := JobCompleted, lockedBy := None, lockedAt := None, updatedAt := now)
      ensures !(id in old(rows) && old(rows)[id].status.JobRunning?) ==> r == Err(JobNotRunning) && rows == old(rows)
    {
      if id !in rows || !rows[id].status.JobRunning? {
        return Err(JobNotRunning);
      }
      rows := rows[id := CompletedRow(rows[id], now)];
      return Ok(());
    }

    method Fail(id: JobId, failure: string, retryAt: int, now: int) returns (r: Result<QueueStatus, QueueError>)
      modifies this
      ensures id in old(rows) && old(rows)[id].status.JobRunning? ==>
                && rows == old(rows)[id := FailedRow(old(rows)[id], failure, retryAt, now)]
                && r == Ok(rows[id].status)
                && var before := old(rows)[id];
                   rows[id] == before.(status := if before.attempts < before.maxAttempts then JobQueued else JobDead,
                                       runAfter := if before.attempts < before.maxAttempts then retryAt else before.runAfter,
                                       lastError := Some(failure), lockedBy := None, lockedAt := None, updatedAt := now)
      ensures !(id in old(rows) && old(rows)[id].status.JobRunning?) ==> r == Err(JobNotRunning) && rows == old(rows)
    {
      if id !in rows || !rows[id].status.JobRunning? {
        return Err(JobNotRunning);
      }
      rows := rows[id := FailedRow(rows[id], failure, retryAt, now)];
      return Ok(rows[id].status);
    }

    /** Requeues the jobs locked before the bound; none is left. */
    method RecoverStale(before: int, now: int) returns (ids: set<JobId>)
      modifies this
      ensures forall id :: id in ids <==> id in old(rows) && IsStale(old(rows)[id], before)
      ensures forall id :: id in ids <==>
                && id in old(rows) && old(rows)[id].status.JobRunning?
                && old(rows)[id].lockedAt.Some? && old(rows)[id].lockedAt.value < before
      ensures RequeuesExactly(old(rows), rows, ids, now)
      ensures forall id :: id in rows ==> !IsStale(rows[id], before)
    {
      ids := set id | id in rows && IsStale(rows[id], before);
      rows := map id | id in rows :: if IsStale(rows[id], before) then RequeuedRow(rows[id], now) else rows[id];
    }

    /** Requeues every RUNNING job; none is left. */
    method RecoverInterrupted(now: int) returns (ids: set<JobId>)
      modifies this
      ensures forall id :: id in ids <==> id in old(rows) && old(rows)[id].status.JobRunning?
      ensures RequeuesExactly(old(rows), rows, ids, now)
      ensures forall id :: id in rows ==> !rows[id].status.JobRunning?
    {
      ids := set id | id in rows && rows[id].status.JobRunning?;
      rows := map id | id in rows :: if rows[id].status.JobRunning? then RequeuedRow(rows[id], now) else rows[id];
    }
  }

  /**
    Every job in `ids` is QUEUED again and unlocked, with its attempts, its due time, its last
    error and its message as they were; every other row is equal, and no row comes or goes.
   */
  ghost predicate RequeuesExactly(before: Rows, after: Rows, ids: set<JobId>, now: int) {
    && after.Keys == before.Keys
    && forall id :: id in before ==>
         var b, a := before[id], after[id];
         if id !in ids then a == b
         else
           && a.status.JobQueued? && a.lockedBy.None? && a.lockedAt.None? && a.updatedAt == now
           && a.attempts == b.attempts && a.maxAttempts == b.maxAttempts && a.lastError == b.lastError
           && a.runAfter == b.runAfter && a.createdAt == b.createdAt && a.jobType == b.jobType && a.payload == b.payload
  }

  /** What requeues exactly the RUNNING, or the stale, jobs is the recovery that the run theorems speak of. */
  lemma InterruptedRequeues(before: Rows, after: Rows, now: int)
    ensures RequeuesExactly(before, after, RunningJobs(before), now) <==>
            after == InterruptedRecovered(before, now)
  {
    if RequeuesExactly(before, after, RunningJobs(before), now) {
      forall id | id in before
        ensures after[id] == InterruptedRecovered(before, now)[id]
      {
      }
      assert after == InterruptedRecovered(before, now);
    }
  }

  lemma StaleRequeues(before: Rows, after: Rows, bound: int, now: int)
    ensures RequeuesExactly(before, after, StaleJobs(before, bound), now) <==>
            after == StaleRecovered(before, bound, now)
  {
    if RequeuesExactly(before, after, StaleJobs(before, bound), now) {
      forall id | id in before
        ensures after[id] == StaleRecovered(before, bound, now)[id]
      {
      }
      assert after == StaleRecovered(before, bound, now);
    }
  }
}
