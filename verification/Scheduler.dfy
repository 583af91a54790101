/**
  The serial scheduler (internal/scheduler/scheduler.go) over the durable queue,
  across crashes and restarts. Clock readings are nanoseconds; rows hold milliseconds.
 */
module Scheduler {
  import opened Clock
  import opened Wrappers
  import opened WorkflowTransition
  import opened JobQueue

  // ----- backoff -----

  /** Go's time.Duration: a signed 64-bit count of nanoseconds. */
  newtype Duration = x: int | -0x8000_0000_0000_0000 <= x < 0x8000_0000_0000_0000

  datatype Config = Config(
    workerId: string, staleAfter: Duration, retryBase: Duration, maxRetryDelay: Duration, handled: set<JobType>)

  /** What New demands. */
  predicate ValidConfig(c: Config) {
    c.workerId != "" && c.staleAfter > 0 && 0 < c.retryBase <= c.maxRetryDelay
  }

  function Doubled(base: int, times: nat): int {
    if times == 0 then base else 2 * Doubled(base, times - 1)
  }

  /** base * 2^(attempt - 1), capped; one below the cap already counts as the cap once anything was doubled. */
  function Backoff(base: int, cap: int, attempt: int): int {
    var doublings := if attempt < 1 then 0 else attempt - 1;
    var delay := Doubled(base, doublings);
    if delay > cap || (doublings > 0 && delay == cap - 1) then cap else delay
  }

  lemma {:induction false} DoubledMonotone(base: int, m: nat, n: nat)
    requires base > 0 && m <= n
    ensures base <= Doubled(base, m) <= Doubled(base, n)
    ensures m < n ==> 2 * Doubled(base, m) <= Doubled(base, n)
    decreases n
  {
    if n > 0 {
      DoubledMonotone(base, 0, n - 1);
      if m < n {
        DoubledMonotone(base, m, n - 1);
      }
      if m > 0 {
        DoubledMonotone(base, 0, m - 1);
      }
    }
  }

  /** The doubling stays below the cap, so 64 bits never overflow. */
  method RetryDelay(config: Config, attempts: int) returns (delay: Duration)
    requires ValidConfig(config)
    ensures delay as int == Backoff(config.retryBase as int, config.maxRetryDelay as int, attempts)
  {
    ghost var base := config.retryBase as int;
    var attempt := attempts;
    if attempt < 1 {
      attempt := 1;
    }
    delay := config.retryBase;
    var current := 1;
    while current < attempt
      invariant 1 <= current <= attempt
      invariant delay as int == Doubled(base, current - 1) && 0 < delay <= config.maxRetryDelay
      invariant current > 1 ==> delay as int <= config.maxRetryDelay as int - 2
    {
      if delay >= config.maxRetryDelay / 2 {
        DoubledMonotone(base, current - 1, attempt - 1);
        return config.maxRetryDelay;
      }
      delay := delay * 2;
      current := current + 1;
    }
    if delay > config.maxRetryDelay {
      return config.maxRetryDelay;
    }
  }

  /** Delays grow with the attempt, from the base to the cap. */
  lemma BackoffGrows(base: int, cap: int, a: int, b: int)
    requires 0 < base <= cap && a <= b
    ensures base <= Backoff(base, cap, a) <= Backoff(base, cap, b) <= cap
  {
    DoubledMonotone(base, if a < 1 then 0 else a - 1, if b < 1 then 0 else b - 1);
    DoubledMonotone(base, 0, if a < 1 then 0 else a - 1);
  }

  /** With an even cap the delay is the plain minimum; with an odd one it may exceed that by one, never the cap. */
  lemma BackoffIsCappedDoubling(base: int, cap: int, attempt: int)
    requires 0 < base <= cap && attempt >= 1
    ensures var plain := if Doubled(base, attempt - 1) <= cap then Doubled(base, attempt - 1) else cap;
            && plain <= Backoff(base, cap, attempt) <= plain + 1
            && (cap % 2 == 0 ==> Backoff(base, cap, attempt) == plain)
            && (Backoff(base, cap, attempt) != plain <==> attempt > 1 && Doubled(base, attempt - 1) == cap - 1)
  {
  }

  function PowerOfTwo(n: nat): nat {
    if n == 0 then 1 else PowerOfTwo(n - 1) + PowerOfTwo(n - 1)
  }

  lemma {:induction false} DoubledIsPower(base: int, n: nat)
    ensures Doubled(base, n) == base * PowerOfTwo(n)
  {
    if n > 0 {
      DoubledIsPower(base, n - 1);
      assert base * (PowerOfTwo(n - 1) + PowerOfTwo(n - 1)) == base * PowerOfTwo(n - 1) + base * PowerOfTwo(n - 1);
    }
  }

  /** The delay is base * 2^(k-1) after k attempts, or the cap once that is reached; an odd cap already one below. */
  predicate WaitsFor(base: int, cap: int, k: nat, delay: int)
    requires k >= 1
  {
    var doubled := base * PowerOfTwo(k - 1);
    delay == if doubled >= cap || (k > 1 && doubled + 1 == cap) then cap else doubled
  }

  lemma BackoffWaits(base: int, cap: int, k: nat)
    requires k >= 1 && 0 < base <= cap
    ensures WaitsFor(base, cap, k, Backoff(base, cap, k))
  {
    DoubledIsPower(base, k - 1);
  }

  // ----- the queue across crashes -----

  /** Down until RecoverInterrupted has run; Booted until the scheduler's own RecoverStale has. */
  datatype Daemon = Down | Booted | Idle | Busy(job: JobId)

  /** The rows, what the daemon is doing, and how often each job was failed and recovered so far. */
  datatype State = State(rows: Rows, daemon: Daemon, failures: map<JobId, nat>, recoveries: map<JobId, nat>)

  const INITIAL := State(map[], Down, map[], map[])

  datatype Step =
    | Arrive(id: JobId, jobType: JobType, payload: Dispatch, maxAttempts: int, runAfter: int, now: int)
    | Boot(now: int)
    | StartScheduler(now: int)
    | ClaimNext(id: JobId, now: int)
    | Succeed(now: int)
    | Error(failure: string, now: int)
    | Crash

  ghost predicate Enabled(c: Config, s: State, step: Step) {
    match step
    case Arrive(id, jobType, _, maxAttempts, _, _) => id !in s.rows && EnqueueError(jobType, maxAttempts).None?
    case Boot(_) => s.daemon.Down?
    case StartScheduler(_) => s.daemon.Booted?
    case ClaimNext(id, now) => s.daemon.Idle? && IsFirst(s.rows, Runnable(s.rows, Millis(now), Some(c.handled)), id)
    case Succeed(_) => s.daemon.Busy? && s.daemon.job in s.rows && s.rows[s.daemon.job].status.JobRunning?
    case Error(_, _) => s.daemon.Busy? && s.daemon.job in s.rows && s.rows[s.daemon.job].status.JobRunning?
    case Crash => true
  }

  function Bumped(counts: map<JobId, nat>, ids: set<JobId>): map<JobId, nat> {
    map id | id in counts :: counts[id] + if id in ids then 1 else 0
  }

  function RetryAt(c: Config, j: QueueJob, now: int): int {
    Millis(now + Backoff(c.retryBase as int, c.maxRetryDelay as int, j.attempts))
  }

  ghost function After(c: Config, s: State, step: Step): State
    requires Enabled(c, s, step)
  {
    match step
    case Arrive(id, jobType, payload, maxAttempts, runAfter, now) =>
      s.(rows := s.rows[id := NewJob(jobType, payload, maxAttempts, runAfter, now)],
         failures := s.failures[id := 0], recoveries := s.recoveries[id := 0])
    case Boot(now) =>
      s.(rows := InterruptedRecovered(s.rows, Millis(now)), daemon := Booted,
         recoveries := Bumped(s.recoveries, RunningJobs(s.rows)))
    case StartScheduler(now) =>
      var before := Millis(now - c.staleAfter as int);
      s.(rows := StaleRecovered(s.rows, before, Millis(now)), daemon := Idle,
         recoveries := Bumped(s.recoveries, StaleJobs(s.rows, before)))
    case ClaimNext(id, now) =>
      s.(rows := s.rows[id := ClaimedRow(s.rows[id], c.workerId, Millis(now))], daemon := Busy(id))
    case Succeed(now) =>
      s.(rows := s.rows[s.daemon.job := CompletedRow(s.rows[s.daemon.job], Millis(now))], daemon := Idle)
    case Error(failure, now) =>
      var j := s.rows[s.daemon.job];
      s.(rows := s.rows[s.daemon.job := FailedRow(j, failure, RetryAt(c, j, now), Millis(now))], daemon := Idle,
         failures := Bumped(s.failures, {s.daemon.job}))
    case Crash => s.(daemon := Down)
  }

  // ----- what every run keeps -----

  /** The attempts are accounted for, and the lock is held exactly while the job runs. */
  ghost predicate Accounted(j: QueueJob, failures: nat, recoveries: nat) {
    && (j.lockedBy.Some? <==> j.status.JobRunning?) && (j.lockedAt.Some? <==> j.status.JobRunning?)
    && j.attempts == failures + recoveries + (if j.status.JobRunning? || j.status.JobCompleted? then 1 else 0)
    && failures <= j.maxAttempts
    && (j.status.JobDead? ==> j.attempts >= j.maxAttempts && failures > 0)
    && (!j.status.JobDead? ==> failures < j.maxAttempts)
    && (j.lastError.Some? <==> failures > 0)
  }

  /** Only the job the daemon is busy with runs; after a crash, only the one it was busy with. */
  ghost predicate Serial(s: State) {
    match s.daemon
    case Down => forall a, b :: a in s.rows && b in s.rows && s.rows[a].status.JobRunning? && s.rows[b].status.JobRunning? ==> a == b
    case Booted => forall id :: id in s.rows ==> !s.rows[id].status.JobRunning?
    case Idle => forall id :: id in s.rows ==> !s.rows[id].status.JobRunning?
    case Busy(job) => job in s.rows && forall id :: id in s.rows ==> (s.rows[id].status.JobRunning? <==> id == job)
  }

  ghost predicate Invariant(s: State) {
    && s.failures.Keys == s.rows.Keys && s.recoveries.Keys == s.rows.Keys
    && Serial(s)
    && forall id :: id in s.rows ==> Accounted(s.rows[id], s.failures[id], s.recoveries[id])
  }

  lemma StepKeepsAccount(c: Config, s: State, step: Step, id: JobId)
    requires Invariant(s) && Enabled(c, s, step) && id in After(c, s, step).rows
    ensures var t := After(c, s, step);
            id in t.failures && id in t.recoveries && Accounted(t.rows[id], t.failures[id], t.recoveries[id])
  {
    if id in s.rows {
      assert Accounted(s.rows[id], s.failures[id], s.recoveries[id]);
    }
  }

  lemma StepKeepsSerial(c: Config, s: State, step: Step)
    requires Serial(s) && Enabled(c, s, step)
    ensures Serial(After(c, s, step))
  {
  }

  lemma StepKeeps(c: Config, s: State, step: Step)
    requires Invariant(s) && Enabled(c, s, step)
    ensures Invariant(After(c, s, step))
  {
    hide Serial, Accounted, ClaimedRow, CompletedRow, FailedRow, NewJob, IsFirst, Runnable, Backoff, RetryAt;
    StepKeepsSerial(c, s, step);
    forall id | id in After(c, s, step).rows
      ensures var t := After(c, s, step);
              id in t.failures && id in t.recoveries && Accounted(t.rows[id], t.failures[id], t.recoveries[id])
    {
      StepKeepsAccount(c, s, step, id);
    }
  }

  /** DEAD and COMPLETED rows are never written again, and rows never disappear. */
  lemma StepKeepsFinished(c: Config, s: State, step: Step, id: JobId)
    requires Enabled(c, s, step) && id in s.rows
    ensures id in After(c, s, step).rows
    ensures s.rows[id].status.JobDead? || s.rows[id].status.JobCompleted? ==> After(c, s, step).rows[id] == s.rows[id]
  {
  }

  ghost predicate Leads(c: Config, s: State, steps: seq<Step>, t: State)
    decreases |steps|
  {
    if steps == [] then s == t
    else Enabled(c, s, steps[0]) && Leads(c, After(c, s, steps[0]), steps[1..], t)
  }

  lemma {:induction false} LeadsOneMore(c: Config, s: State, steps: seq<Step>, t: State, step: Step)
    requires Leads(c, s, steps, t) && Enabled(c, t, step)
    ensures Leads(c, s, steps + [step], After(c, t, step))
    decreases |steps|
  {
    var longer := steps + [step];
    if steps == [] {
      assert longer[1..] == [];
    } else {
      LeadsOneMore(c, After(c, s, steps[0]), steps[1..], t, step);
      assert longer[1..] == steps[1..] + [step];
    }
  }

  lemma {:induction false} RunKeeps(c: Config, s: State, steps: seq<Step>, t: State)
    requires Invariant(s) && Leads(c, s, steps, t)
    ensures Invariant(t)
    decreases |steps|
  {
    if steps != [] {
      StepKeeps(c, s, steps[0]);
      RunKeeps(c, After(c, s, steps[0]), steps[1..], t);
    }
  }

  /** However the daemon crashes and restarts, at most one job runs and every attempt is accounted for. */
  lemma QueueIsConserved(c: Config, steps: seq<Step>, s: State)
    requires Leads(c, INITIAL, steps, s)
    ensures forall a, b :: a in s.rows && b in s.rows && s.rows[a].status.JobRunning? && s.rows[b].status.JobRunning? ==> a == b
    ensures s.failures.Keys == s.rows.Keys && s.recoveries.Keys == s.rows.Keys
    ensures forall id :: id in s.rows ==>
        var j := s.rows[id];
        && (j.lockedBy.Some? <==> j.status.JobRunning?)
        && j.attempts == s.failures[id] + s.recoveries[id] + (if j.status.JobRunning? || j.status.JobCompleted? then 1 else 0)
        && s.failures[id] <= j.maxAttempts
        && (!j.status.JobDead? ==> s.failures[id] < j.maxAttempts)
        && (j.status.JobDead? ==> j.attempts >= j.maxAttempts && s.failures[id] > 0)
  {
    RunKeeps(c, INITIAL, steps, s);
    forall id | id in s.rows
      ensures Accounted(s.rows[id], s.failures[id], s.recoveries[id])
    {
    }
  }

  /** A job that is RUNNING or COMPLETED holds one attempt that neither failed nor was recovered. */
  function OpenAttempts(j: QueueJob): nat {
    if j.status.JobRunning? || j.status.JobCompleted? then 1 else 0
  }

  /**
    When the attempts pass the maximum, in every run and for every job: exactly when more
    recoveries have requeued it than failures and the open attempt have left; so never without one.
   */
  lemma AttemptsPassMaximumIff(c: Config, steps: seq<Step>, s: State, id: JobId)
    requires Leads(c, INITIAL, steps, s) && id in s.rows
    ensures id in s.failures && id in s.recoveries
    ensures var j := s.rows[id];
            && (j.attempts > j.maxAttempts <==> s.recoveries[id] > j.maxAttempts - s.failures[id] - OpenAttempts(j))
            && (s.recoveries[id] == 0 ==> j.attempts <= j.maxAttempts)
  {
    QueueIsConserved(c, steps, s);
  }

  /** Queued again although its attempts are used up. */
  predicate IsSpent(j: QueueJob) {
    j.status.JobQueued? && j.attempts >= j.maxAttempts
  }

  /** A claim takes a job past its maximum exactly when the row it takes is spent. */
  lemma ClaimPassesMaximumIff(c: Config, steps: seq<Step>, s: State, id: JobId, now: int)
    requires Leads(c, INITIAL, steps, s) && Enabled(c, s, ClaimNext(id, now))
    ensures id in s.rows && var claimed := After(c, s, ClaimNext(id, now)).rows[id];
            claimed.attempts > claimed.maxAttempts <==> IsSpent(s.rows[id])
  {
  }

  /**
    What leaves a spent row, over all runs: the recovery at a start that requeues a job interrupted
    in its last or a later attempt. A failure never does, nor does the scheduler's own recovery, and
    a spent row stays so until it is claimed.
   */
  lemma SpentByRecoveryIff(c: Config, steps: seq<Step>, s: State, step: Step, id: JobId)
    requires Leads(c, INITIAL, steps, s) && Enabled(c, s, step) && id in After(c, s, step).rows
    ensures IsSpent(After(c, s, step).rows[id]) <==>
              && id in s.rows
              && (if IsSpent(s.rows[id]) then !(step.ClaimNext? && step.id == id)
                  else && s.rows[id].status.JobRunning? && s.rows[id].attempts >= s.rows[id].maxAttempts
                       && step.Boot?)
  {
    RunKeeps(c, INITIAL, steps, s);
  }

  /**
    In every run: a failed attempt that is not the last puts the job back for the delay of its
    attempt number, which without a recovery is the number of its failures; the first waits the base.
   */
  lemma FailureWaits(c: Config, steps: seq<Step>, s: State, failure: string, now: int)
    requires c.workerId != "" && c.staleAfter > 0 && 0 < c.retryBase <= c.maxRetryDelay
    requires Leads(c, INITIAL, steps, s) && Enabled(c, s, Error(failure, now))
    ensures s.daemon.job in s.rows && s.daemon.job in s.failures && s.daemon.job in s.recoveries
    ensures var id, t := s.daemon.job, After(c, s, Error(failure, now));
            var j, base, cap := s.rows[id], c.retryBase as int, c.maxRetryDelay as int;
            && id in t.rows && id in t.failures && j.attempts >= 1
            && t.rows[id].status == (if j.attempts < j.maxAttempts then JobQueued else JobDead)
            && (j.attempts < j.maxAttempts ==>
                  exists delay ::
                    && WaitsFor(base, cap, j.attempts, delay) && t.rows[id].runAfter == Millis(now + delay))
            && t.failures[id] == s.failures[id] + 1
            && (s.recoveries[id] == 0 ==> j.attempts == t.failures[id])
            && (j.attempts == 1 < j.maxAttempts ==> t.rows[id].runAfter == Millis(now + base))
  {
    QueueIsConserved(c, steps, s);
    var id := s.daemon.job;
    var base, cap, k := c.retryBase as int, c.maxRetryDelay as int, s.rows[id].attempts;
    BackoffWaits(base, cap, k);
    assert WaitsFor(base, cap, k, Backoff(base, cap, k));
    hide Leads, Millis;
  }

  /** Once a job is DEAD or COMPLETED its row stays as it is for the rest of every run. */
  lemma {:induction false} FinishedIsAbsorbing(c: Config, s: State, steps: seq<Step>, t: State, id: JobId)
    requires Leads(c, s, steps, t) && id in s.rows
    requires s.rows[id].status.JobDead? || s.rows[id].status.JobCompleted?
    ensures id in t.rows && t.rows[id] == s.rows[id]
    decreases |steps|
  {
    if steps != [] {
      StepKeepsFinished(c, s, steps[0], id);
      FinishedIsAbsorbing(c, After(c, s, steps[0]), steps[1..], t, id);
    }
  }

  /**
    Recovery requeues without looking at the attempts, so they may pass the maximum:
    a job may be interrupted any number of times and still be QUEUED.
   */
  lemma {:induction false} AttemptsMayPassMaximum(c: Config, j: JobId, crashes: nat) returns (steps: seq<Step>, s: State)
    requires Execute in c.handled
    ensures Leads(c, INITIAL, steps, s) && s.daemon.Idle? && s.rows.Keys == {j}
    ensures s.rows[j].status.JobQueued? && s.rows[j].runAfter == 0 && s.rows[j].jobType.Execute?
    ensures s.rows[j].maxAttempts == 1 && s.rows[j].attempts == crashes
  {
    if crashes == 0 {
      var arrive := Arrive(j, Execute, Dispatch(0, 1, BlankAction, Queued), 1, 0, 0);
      steps := [Boot(0), StartScheduler(0), arrive];
      var s1 := After(c, INITIAL, steps[0]);
      var s2 := After(c, s1, steps[1]);
      s := After(c, s2, steps[2]);
      assert steps[2..][1..] == [];
      assert Leads(c, s, [], s) && Leads(c, s2, steps[2..], s);
      assert steps[1..][1..] == steps[2..];
      assert Leads(c, s1, steps[1..], s);
    } else {
      steps, s := AttemptsMayPassMaximum(c, j, crashes - 1);
      var more := [ClaimNext(j, 0), Crash, Boot(0), StartScheduler(0)];
      assert Runnable(s.rows, 0, Some(c.handled)) == {j};
      LeadsOneMore(c, INITIAL, steps, s, more[0]);
      steps, s := steps + [more[0]], After(c, s, more[0]);
      LeadsOneMore(c, INITIAL, steps, s, more[1]);
      steps, s := steps + [more[1]], After(c, s, more[1]);
      LeadsOneMore(c, INITIAL, steps, s, more[2]);
      steps, s := steps + [more[2]], After(c, s, more[2]);
      LeadsOneMore(c, INITIAL, steps, s, more[3]);
      steps, s := steps + [more[3]], After(c, s, more[3]);
    }
  }

  // ----- the scheduler itself -----

  /** What a handler call comes to: done, an error, or cut short with the daemon. */
  datatype Outcome = Done | Failed(message: string) | Interrupted

  /** One turn of the loop: the clock before the claim, the handler's outcome, and the clock after it. */
  datatype Turn = Turn(now: int, outcome: Outcome, finished: int)

  /** The step a claimed turn ends with. */
  function Report(turn: Turn): Step {
    match turn.outcome
    case Done => Succeed(turn.finished)
    case Failed(message) => Error(message, turn.finished)
    case Interrupted => Crash
  }

  /**
    The turns took the queue from s to t: each found the scheduler idle, and either no handled
    job was due, or a first due job was claimed and its outcome reported.
   */
  ghost predicate TakesTurns(c: Config, s: State, turns: seq<Turn>, claims: seq<Option<JobId>>, t: State)
    decreases |turns|
  {
    if turns == [] then claims == [] && s == t
    else
      && claims != [] && s.daemon.Idle?
      && match claims[0]
         case None =>
           && Runnable(s.rows, Millis(turns[0].now), Some(c.handled)) == {}
           && TakesTurns(c, s, turns[1..], claims[1..], t)
         case Some(id) =>
           && Enabled(c, s, ClaimNext(id, turns[0].now))
           && var busy := After(c, s, ClaimNext(id, turns[0].now));
              && Enabled(c, busy, Report(turns[0]))
              && TakesTurns(c, After(c, busy, Report(turns[0])), turns[1..], claims[1..], t)
  }

  /** The steps of the turns: none for a turn without a claim, two for one with. */
  function StepsOf(turns: seq<Turn>, claims: seq<Option<JobId>>): seq<Step>
    requires |turns| == |claims|
  {
    if turns == [] then []
    else
      var n := |turns| - 1;
      StepsOf(turns[..n], claims[..n])
      + if claims[n].Some? then [ClaimNext(claims[n].value, turns[n].now), Report(turns[n])] else []
  }

  lemma {:induction false} OneMoreTurn(c: Config, s: State, turns: seq<Turn>, claims: seq<Option<JobId>>, mid: State,
                                       turn: Turn, claim: Option<JobId>, t: State)
    requires TakesTurns(c, s, turns, claims, mid) && TakesTurns(c, mid, [turn], [claim], t)
    ensures |claims| == |turns| && TakesTurns(c, s, turns + [turn], claims + [claim], t)
    decreases |turns|
  {
    hide Enabled, After, Runnable;
    if turns == [] {
      assert turns + [turn] == [turn] && claims + [claim] == [claim];
    } else {
      var next := if claims[0].None? then s
                  else After(c, After(c, s, ClaimNext(claims[0].value, turns[0].now)), Report(turns[0]));
      OneMoreTurn(c, next, turns[1..], claims[1..], mid, turn, claim, t);
      assert (turns + [turn])[1..] == turns[1..] + [turn] && (claims + [claim])[1..] == claims[1..] + [claim];
    }
  }

  lemma OneTurn(c: Config, s: State, turn: Turn, claim: Option<JobId>, t: State)
    requires s.daemon.Idle?
    requires claim.None? ==> Runnable(s.rows, Millis(turn.now), Some(c.handled)) == {} && t == s
    requires claim.Some? ==>
               && Enabled(c, s, ClaimNext(claim.value, turn.now))
               && var busy := After(c, s, ClaimNext(claim.value, turn.now));
                  Enabled(c, busy, Report(turn)) && t == After(c, busy, Report(turn))
    ensures TakesTurns(c, s, [turn], [claim], t)
  {
    hide Enabled, After, Runnable;
    assert [turn][1..] == [] && [claim][1..] == [];
  }

  lemma StepsOfNext(turns: seq<Turn>, claims: seq<Option<JobId>>, turn: Turn, claim: Option<JobId>)
    requires |turns| == |claims|
    ensures StepsOf(turns + [turn], claims + [claim]) ==
            StepsOf(turns, claims) + if claim.Some? then [ClaimNext(claim.value, turn.now), Report(turn)] else []
  {
    assert (turns + [turn])[..|turns|] == turns && (claims + [claim])[..|turns|] == claims;
  }

  /** A failed attempt in the row's columns: back in the queue after the delay of its attempt, or DEAD after the last one. */
  predicate Delayed(c: Config, before: QueueJob, after: QueueJob, message: string, now: int, delay: int) {
    && before.attempts >= 1 && WaitsFor(c.retryBase as int, c.maxRetryDelay as int, before.attempts, delay)
    && after == before.(status := if before.attempts < before.maxAttempts then JobQueued else JobDead,
                        runAfter := if before.attempts < before.maxAttempts then Millis(now + delay) else before.runAfter,
                        lastError := Some(message), lockedBy := None, lockedAt := None, updatedAt := Millis(now))
  }

  class Runner {
    const config: Config
    const queue: Queue
    ghost var state: State

    ghost predicate Valid()
      reads this, queue
    {
      ValidConfig(config) && state.rows == queue.rows && Invariant(state)
    }

    constructor (config: Config, queue: Queue, ghost state: State)
      requires config.workerId != "" && config.staleAfter > 0 && 0 < config.retryBase <= config.maxRetryDelay
      requires state.rows == queue.rows && Invariant(state)
      ensures Valid() && this.config == config && this.queue == queue && this.state == state
    {
      this.config, this.queue, this.state := config, queue, state;
    }

    /** Claims the next due job; a step of the run if there is one, nothing otherwise. */
    method Claim(now: int) returns (claimed: Option<JobId>)
      requires Valid() && state.daemon.Idle?
      modifies this, queue
      ensures Valid()
      ensures claimed.None? <==> Runnable(old(state).rows, Millis(now), Some(config.handled)) == {}
      ensures claimed.None? ==> state == old(state)
      ensures claimed.Some? ==>
                && Enabled(config, old(state), ClaimNext(claimed.value, now))
                && state == After(config, old(state), ClaimNext(claimed.value, now))
      ensures claimed.Some? ==>
                && claimed.value in old(queue.rows) && state.daemon == Busy(claimed.value)
                && var before := old(queue.rows)[claimed.value];
                   && before.status.JobQueued? && before.runAfter <= Millis(now) && before.jobType in config.handled
                   && queue.rows == old(queue.rows)[claimed.value :=
                        before.(status := JobRunning, attempts := before.attempts + 1, lockedBy := Some(config.workerId),
                                lockedAt := Some(Millis(now)), updatedAt := Millis(now))]
    {
      hide Invariant, ClaimedRow;
      var r := queue.Claim(config.workerId, Millis(now), Some(config.handled));
      claimed := r.value;
      if claimed.Some? {
        StepKeeps(config, state, ClaimNext(claimed.value, now));
        state := After(config, state, ClaimNext(claimed.value, now));
      }
    }

    /** A handler error: back to the queue after the backoff, or DEAD. */
    method Reschedule(id: JobId, message: string, now: int)
      requires Valid() && state.daemon == Busy(id)
      modifies this, queue
      ensures Valid()
      ensures Enabled(config, old(state), Error(message, now)) && state == After(config, old(state), Error(message, now))
      ensures id in old(queue.rows) && id in queue.rows && queue.rows == old(queue.rows)[id := queue.rows[id]]
      ensures exists delay :: Delayed(config, old(queue.rows)[id], queue.rows[id], message, now, delay)
      ensures state.daemon.Idle?
    {
      BusyIsRunning(state, id);
      BackoffWaits(config.retryBase as int, config.maxRetryDelay as int, state.rows[id].attempts);
      hide WaitsFor;
      hide Invariant, FailedRow, Backoff, Accounted, Serial, Millis, Bumped;
      StepKeeps(config, state, Error(message, now));
      var delay := RetryDelay(config, queue.rows[id].attempts);
      var _ := queue.Fail(id, message, Millis(now + delay as int), Millis(now));
      assert Delayed(config, old(queue.rows)[id], queue.rows[id], message, now, delay as int);
      state := After(config, state, Error(message, now));
    }

    /** Records what the handler came to; an interrupted job is left RUNNING for the next start. */
    method Process(id: JobId, outcome: Outcome, now: int)
      requires Valid() && state.daemon == Busy(id)
      modifies this, queue
      ensures Valid()
      ensures outcome.Done? ==> Enabled(config, old(state), Succeed(now)) && state == After(config, old(state), Succeed(now))
      ensures outcome.Failed? ==>
                && Enabled(config, old(state), Error(outcome.message, now))
                && state == After(config, old(state), Error(outcome.message, now))
      ensures outcome.Interrupted? ==> state == After(config, old(state), Crash)
      ensures id in old(queue.rows) && id in queue.rows && queue.rows == old(queue.rows)[id := queue.rows[id]]
      ensures outcome.Interrupted? ==> queue.rows[id] == old(queue.rows)[id] && state.daemon.Down?
      ensures !outcome.Interrupted? ==> state.daemon.Idle?
      ensures outcome.Done? ==>
                queue.rows[id] == old(queue.rows)[id].(status := JobCompleted, lockedBy := None, lockedAt := None, updatedAt := Millis(now))
      ensures outcome.Failed? ==>
                exists delay :: Delayed(config, old(queue.rows)[id], queue.rows[id], outcome.message, now, delay)
    {
      BusyIsRunning(state, id);
      hide Invariant, CompletedRow, FailedRow, RetryAt, Accounted, Serial, Millis, Bumped;
      match outcome
      case Interrupted =>
        StepKeeps(config, state, Crash);
        state := After(config, state, Crash);
      case Done =>
        StepKeeps(config, state, Succeed(now));
        var _ := queue.Complete(id, Millis(now));
        state := After(config, state, Succeed(now));
      case Failed(message) => Reschedule(id, message, now);
    }

    /** One turn: a claimed job is handled and reported; with nothing due nothing happens. */
    method TakeTurn(turn: Turn, ghost first: State, ghost before: seq<Step>)
      returns (claimed: Option<JobId>, ghost steps: seq<Step>)
      requires Valid() && state.daemon.Idle? && Leads(config, first, before, state)
      modifies this, queue
      ensures Valid() && Leads(config, first, steps, state)
      ensures claimed.None? <==> Runnable(old(state).rows, Millis(turn.now), Some(config.handled)) == {}
      ensures claimed.None? ==> state == old(state) && steps == before
      ensures claimed.Some? ==>
                && steps == before + [ClaimNext(claimed.value, turn.now), Report(turn)]
                && Enabled(config, old(state), ClaimNext(claimed.value, turn.now))
                && var busy := After(config, old(state), ClaimNext(claimed.value, turn.now));
                   Enabled(config, busy, Report(turn)) && state == After(config, busy, Report(turn))
      ensures state.daemon == if claimed.Some? && turn.outcome.Interrupted? then Down else Idle
    {
      hide Invariant, Enabled, After, ClaimedRow, StaleRecovered, Leads;
      ghost var start := state;
      claimed := Claim(turn.now);
      if claimed.None? {
        return None, before;
      }
      ghost var step := ClaimNext(claimed.value, turn.now);
      LeadsOneMore(config, first, before, start, step);
      ghost var busy := state;
      ClaimIsBusy(config, start, step);
      Process(claimed.value, turn.outcome, turn.finished);
      EndsIdle(config, busy, Report(turn));
      LeadsOneMore(config, first, before + [step], busy, Report(turn));
      steps := before + [step] + [Report(turn)];
      assert steps == before + [step, Report(turn)];
    }

    /**
      Run: recover stale locks, then claim and process until the daemon is told to stop. The
      turns taken, one claim or none each, are all the steps there are; they are all turns
      unless one is interrupted.
     */
    method Run(start: int, turns: seq<Turn>) returns (taken: nat, claims: seq<Option<JobId>>, ghost steps: seq<Step>)
      requires Valid() && state.daemon.Booted?
      modifies this, queue
      ensures Valid() && Leads(config, old(state), steps, state)
      ensures taken <= |turns| && (state.daemon.Idle? ==> taken == |turns|)
      ensures state.daemon.Idle? || (state.daemon.Down? && taken > 0 && turns[taken - 1].outcome.Interrupted?)
      ensures Enabled(config, old(state), StartScheduler(start))
      ensures TakesTurns(config, After(config, old(state), StartScheduler(start)), turns[..taken], claims, state)
      ensures |claims| == taken && steps == [StartScheduler(start)] + StepsOf(turns[..taken], claims)
    {
      hide Invariant, Enabled, After, ClaimedRow, StaleRecovered;
      ghost var first := state;
      var _ := Recover(start);
      LeadsOneMore(config, first, [], first, StartScheduler(start));
      steps := [] + [StartScheduler(start)];
      ghost var recovered := state;
      taken, claims := 0, [];
      assert turns[..0] == [] && steps == [StartScheduler(start)] + [];
      hide Leads, Runnable, StepsOf;
      while taken < |turns|
        invariant taken == |claims| <= |turns| && Valid() && state.daemon.Idle?
        invariant Leads(config, first, steps, state)
        invariant TakesTurns(config, recovered, turns[..taken], claims, state)
        invariant steps == [StartScheduler(start)] + StepsOf(turns[..taken], claims)
      {
        ghost var before := state;
        hide TakesTurns;
        var claimed;
        claimed, steps := TakeTurn(turns[taken], first, steps);
        OneTurn(config, before, turns[taken], claimed, state);
        OneMoreTurn(config, recovered, turns[..taken], claims, before, turns[taken], claimed, state);
        StepsOfNext(turns[..taken], claims, turns[taken], claimed);
        assert turns[..taken + 1] == turns[..taken] + [turns[taken]];
        taken, claims := taken + 1, claims + [claimed];
        if claimed.Some? && turns[taken - 1].outcome.Interrupted? {
          return;
        }
      }
    }

    method Recover(now: int) returns (ids: set<JobId>)
      requires Valid() && state.daemon.Booted?
      modifies this, queue
      ensures Valid() && state.daemon.Idle?
      ensures Enabled(config, old(state), StartScheduler(now)) && state == After(config, old(state), StartScheduler(now))
      ensures forall id :: id in ids <==>
                && id in old(queue.rows) && old(queue.rows)[id].status.JobRunning? && old(queue.rows)[id].lockedAt.Some?
                && old(queue.rows)[id].lockedAt.value < Millis(now - config.staleAfter as int)
      ensures RequeuesExactly(old(queue.rows), queue.rows, ids, Millis(now))
    {
      hide Invariant, RequeuedRow, RequeuesExactly;
      StepKeeps(config, state, StartScheduler(now));
      ids := queue.RecoverStale(Millis(now - config.staleAfter as int), Millis(now));
      assert ids == StaleJobs(state.rows, Millis(now - config.staleAfter as int));
      StaleRequeues(state.rows, queue.rows, Millis(now - config.staleAfter as int), Millis(now));
      state := After(config, state, StartScheduler(now));
    }
  }

  lemma BusyIsRunning(s: State, id: JobId)
    requires Invariant(s) && s.daemon == Busy(id)
    ensures id in s.rows && s.rows[id].status.JobRunning? && s.rows[id].attempts >= 1
  {
    assert Accounted(s.rows[id], s.failures[id], s.recoveries[id]);
  }

  lemma ClaimIsBusy(c: Config, s: State, step: Step)
    requires step.ClaimNext? && Enabled(c, s, step)
    ensures After(c, s, step).daemon == Busy(step.id)
  {
  }

  lemma EndsIdle(c: Config, s: State, step: Step)
    requires (step.Succeed? || step.Error? || step.Crash?) && (Enabled(c, s, step) || step.Crash?)
    ensures Enabled(c, s, step)
    ensures After(c, s, step).daemon == if step.Crash? then Down else Idle
  {
  }
}
