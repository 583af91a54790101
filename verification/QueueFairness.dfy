/**
  Bounded bypass: how long a due job can be passed over by the serial scheduler
  while nothing crashes. Claim order is (run_after, created_at); a job that fails
  or arrives is keyed by the clock, so it never moves ahead of one already overdue.
 */
module QueueFairness {
  import opened Clock
  import opened Wrappers
  import opened WorkflowTransition
  import opened JobQueue
  import opened Scheduler

  /** Steps of a run without recovery, with the clock each one reads. */
  predicate IsOrdinary(step: Step) {
    step.Arrive? || step.ClaimNext? || step.Succeed? || step.Error?
  }

  /** No step reads a clock before `now`; a job arrives due no earlier than the clock of its transition. */
  predicate Timely(steps: seq<Step>, now: int) {
    forall i :: 0 <= i < |steps| ==>
      && IsOrdinary(steps[i])
      && now <= steps[i].now
      && (steps[i].Arrive? ==> Millis(now) <= steps[i].runAfter)
  }

  predicate Waiting(c: Config, s: State, id: JobId) {
    id in s.rows && s.rows[id].status.JobQueued? && s.rows[id].jobType in c.handled
  }

  /** The other waiting jobs whose key does not exceed that of `j`. */
  function Ahead(c: Config, s: State, j: JobId): set<JobId>
    requires j in s.rows
  {
    set id | id in s.rows && id != j && Waiting(c, s, id) && KeyAtMost(s.rows[id], s.rows[j])
  }

  /** A clock that has passed the job's run_after. */
  predicate Overdue(s: State, j: JobId, now: int)
    requires j in s.rows
  {
    s.rows[j].runAfter < Millis(now)
  }

  function Claims(steps: seq<Step>): nat {
    if steps == [] then 0 else (if steps[0].ClaimNext? then 1 else 0) + Claims(steps[1..])
  }

  /** No step puts a job ahead of an overdue one, and a claim that passes it over takes one away. */
  lemma AheadShrinks(c: Config, s: State, step: Step, j: JobId, now: int)
    requires ValidConfig(c) && Invariant(s) && Enabled(c, s, step) && IsOrdinary(step)
    requires now <= step.now && (step.Arrive? ==> Millis(now) <= step.runAfter)
    requires Waiting(c, s, j) && Overdue(s, j, now)
    requires step.ClaimNext? ==> step.id != j
    ensures var t := After(c, s, step);
            && Waiting(c, t, j) && t.rows[j] == s.rows[j]
            && Ahead(c, t, j) <= Ahead(c, s, j)
            && (step.ClaimNext? ==> step.id in Ahead(c, s, j) && step.id !in Ahead(c, t, j))
  {
    hide Invariant, Accounted;
    MillisMonotone(now, step.now);
    if step.Error? {
      var attempts := s.rows[s.daemon.job].attempts;
      BackoffGrows(c.retryBase as int, c.maxRetryDelay as int, attempts, attempts);
      MillisMonotone(step.now, step.now + Backoff(c.retryBase as int, c.maxRetryDelay as int, attempts));
    }
    if step.ClaimNext? {
      assert j in Runnable(s.rows, Millis(step.now), Some(c.handled));
    }
  }

  /**
    A job that is overdue and handled is claimed within n further claims and its own, n
    being the waiting jobs not behind it: a run in which it is still unclaimed has made
    at most n claims.
   */
  lemma {:induction false} BoundedBypass(c: Config, s: State, steps: seq<Step>, t: State, j: JobId, now: int)
    requires ValidConfig(c) && Invariant(s) && Leads(c, s, steps, t) && Timely(steps, now)
    requires Waiting(c, s, j) && Overdue(s, j, now)
    requires forall i :: 0 <= i < |steps| && steps[i].ClaimNext? ==> steps[i].id != j
    ensures Waiting(c, t, j) && t.rows[j] == s.rows[j]
    ensures Claims(steps) + |Ahead(c, t, j)| <= |Ahead(c, s, j)|
    decreases |steps|
  {
    hide Invariant, Enabled, After, Ahead, Overdue;
    if steps != [] {
      var step := steps[0];
      AheadShrinks(c, s, step, j, now);
      var next := After(c, s, step);
      StepKeeps(c, s, step);
      StillOverdue(s, next, j, now);
      assert forall i :: 0 <= i < |steps[1..]| ==> steps[1..][i] == steps[i + 1];
      BoundedBypass(c, next, steps[1..], t, j, now);
      SubsetSize(Ahead(c, next, j), Ahead(c, s, j));
      if step.ClaimNext? {
        SubsetSize(Ahead(c, next, j), Ahead(c, s, j) - {step.id});
      }
    }
  }

  lemma StillOverdue(s: State, t: State, j: JobId, now: int)
    requires j in s.rows && Overdue(s, j, now) && j in t.rows && t.rows[j] == s.rows[j]
    ensures Overdue(t, j, now)
  {
  }

  /** So a run with more claims than jobs ahead has claimed it. */
  lemma ClaimedInTime(c: Config, s: State, steps: seq<Step>, t: State, j: JobId, now: int)
    requires ValidConfig(c) && Invariant(s) && Leads(c, s, steps, t) && Timely(steps, now)
    requires Waiting(c, s, j) && Overdue(s, j, now)
    requires Claims(steps) > |Ahead(c, s, j)|
    ensures exists i :: 0 <= i < |steps| && steps[i].ClaimNext? && steps[i].id == j
  {
    if forall i :: 0 <= i < |steps| && steps[i].ClaimNext? ==> steps[i].id != j {
      BoundedBypass(c, s, steps, t, j, now);
    }
  }

  lemma {:induction false} SubsetSize<T>(a: set<T>, b: set<T>)
    requires a <= b
    ensures |a| <= |b|
    decreases a
  {
    if a != {} {
      var x :| x in a;
      SubsetSize(a - {x}, b - {x});
    }
  }

  /** While a job is due the scheduler never idles: an idle daemon's claim takes some job. */
  lemma NeverIdleWhileDue(c: Config, s: State, j: JobId, now: int)
    requires s.daemon.Idle? && Waiting(c, s, j) && s.rows[j].runAfter <= Millis(now)
    ensures exists id :: Enabled(c, s, ClaimNext(id, now))
  {
    var due := Runnable(s.rows, Millis(now), Some(c.handled));
    assert j in due;
    var id := SomeFirst(s.rows, due);
    assert Enabled(c, s, ClaimNext(id, now));
  }

  lemma {:induction false} SomeFirst(rows: Rows, ids: set<JobId>) returns (id: JobId)
    requires ids != {} && ids <= rows.Keys
    ensures IsFirst(rows, ids, id)
    decreases ids
  {
    id :| id in ids;
    if ids != {id} {
      var rest := ids - {id};
      var first := SomeFirst(rows, rest);
      id := if KeyAtMost(rows[id], rows[first]) then id else first;
    }
  }
}
