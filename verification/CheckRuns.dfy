/**
  Check runs (internal/checks): one run per execution version, one step per profile, and a
  handler that resumes after any interruption. Each repository method is one statement on
  the rows of a run.
 */
module CheckRuns {
  import opened Wrappers

  datatype Status = Pending | Running | Passed | Failed | Cancelled

  /** What the runner reports for a profile. */
  datatype StepResult = StepResult(passed: bool, exitCode: int, output: string, errorMessage: string)

  datatype Step = Step(profile: string, status: Status, result: Option<StepResult>)

  /** The row of a run and its steps by sequence number. */
  datatype Run = Run(status: Status, total: nat, passed: nat, failed: nat, steps: map<nat, Step>)

  const CREATED := Run(Pending, 0, 0, 0, map[])

  predicate IsDecided(s: Status) {
    s.Passed? || s.Failed?
  }

  function CountOf(steps: map<nat, Step>, status: Status): nat {
    |set i | i in steps && steps[i].status == status|
  }

  // ----- the statements -----

  /** INSERT OR IGNORE: neither the sequence number nor the profile may be taken. */
  function Inserted(steps: map<nat, Step>, sequence: nat, profile: string): map<nat, Step> {
    if sequence in steps || exists i :: i in steps && steps[i].profile == profile then steps
    else steps[sequence := Step(profile, Pending, None)]
  }

  function AllInserted(steps: map<nat, Step>, profiles: seq<string>): map<nat, Step> {
    if profiles == [] then steps
    else Inserted(AllInserted(steps, profiles[..|profiles| - 1]), |profiles|, profiles[|profiles| - 1])
  }

  /** Start: refused for no profiles, and once the run is over. */
  predicate CanStart(r: Run, profiles: seq<string>) {
    profiles != [] && (r.status.Pending? || r.status.Running?)
  }

  function Started(r: Run, profiles: seq<string>): Run {
    r.(status := Running, total := |profiles|, steps := AllInserted(r.steps, profiles))
  }

  /** RecoverInterrupted: steps cut short go back to PENDING. */
  function Recovered(r: Run): Run {
    r.(steps := map i | i in r.steps ::
                  if r.steps[i].status.Running? || r.steps[i].status.Cancelled?
                  then Step(r.steps[i].profile, Pending, None) else r.steps[i])
  }

  predicate CanStartStep(r: Run, sequence: nat) {
    sequence in r.steps && r.steps[sequence].status.Pending?
  }

  predicate IsRunning(r: Run, sequence: nat) {
    sequence in r.steps && r.steps[sequence].status.Running?
  }

  function WithStep(r: Run, sequence: nat, step: Step): Run {
    r.(steps := r.steps[sequence := step])
  }

  function StepStarted(r: Run, sequence: nat): Run
    requires sequence in r.steps
  {
    WithStep(r, sequence, r.steps[sequence].(status := Running))
  }

  function StepCompleted(r: Run, sequence: nat, result: StepResult): Run
    requires sequence in r.steps
  {
    WithStep(r, sequence, Step(r.steps[sequence].profile, if result.passed then Passed else Failed, Some(result)))
  }

  function StepCancelled(r: Run, sequence: nat): Run
    requires sequence in r.steps
  {
    WithStep(r, sequence, r.steps[sequence].(status := Cancelled))
  }

  /** Cancel: undecided steps and an unfinished run are cancelled. */
  function RunCancelled(r: Run): Run {
    var steps := map i | i in r.steps ::
      if r.steps[i].status.Pending? || r.steps[i].status.Running? then r.steps[i].(status := Cancelled) else r.steps[i];
    if IsDecided(r.status) then r.(steps := steps)
    else r.(status := Cancelled, passed := CountOf(steps, Passed), failed := CountOf(steps, Failed), steps := steps)
  }

  predicate CanFinish(r: Run) {
    r.status.Running? && forall i :: i in r.steps ==> IsDecided(r.steps[i].status)
  }

  function Finished(r: Run): Run {
    r.(status := if exists i :: i in r.steps && !r.steps[i].status.Passed? then Failed else Passed,
       passed := CountOf(r.steps, Passed), failed := CountOf(r.steps, Failed))
  }

  datatype Statement =
    | Start
    | RecoverInterrupted
    | StartStep(sequence: nat)
    | CompleteStep(sequence: nat, result: StepResult)
    | CancelStep(sequence: nat)
    | Cancel
    | Finish

  predicate Enabled(r: Run, profiles: seq<string>, s: Statement) {
    match s
    case Start => CanStart(r, profiles)
    case RecoverInterrupted => true
    case StartStep(sequence) => CanStartStep(r, sequence)
    case CompleteStep(sequence, _) => IsRunning(r, sequence)
    case CancelStep(sequence) => IsRunning(r, sequence)
    case Cancel => true
    case Finish => CanFinish(r)
  }

  function After(r: Run, profiles: seq<string>, s: Statement): Run
    requires Enabled(r, profiles, s)
  {
    match s
    case Start => Started(r, profiles)
    case RecoverInterrupted => Recovered(r)
    case StartStep(sequence) => StepStarted(r, sequence)
    case CompleteStep(sequence, result) => StepCompleted(r, sequence, result)
    case CancelStep(sequence) => StepCancelled(r, sequence)
    case Cancel => RunCancelled(r)
    case Finish => Finished(r)
  }

  // ----- what every run of statements keeps -----

  ghost predicate Distinct(profiles: seq<string>) {
    forall i, k :: 0 <= i < k < |profiles| ==> profiles[i] != profiles[k]
  }

  /** The steps are those of the first n profiles. */
  ghost predicate LaidOut(steps: map<nat, Step>, profiles: seq<string>, n: nat) {
    && n <= |profiles|
    && (forall i :: i in steps <==> 1 <= i <= n)
    && (forall i :: i in steps ==> steps[i].profile == profiles[i - 1])
  }

  /** Before the first Start there are no steps; afterwards exactly one for each profile. */
  ghost predicate Holds(r: Run, profiles: seq<string>) {
    && (r.steps == map[] || LaidOut(r.steps, profiles, |profiles|))
    && (r.status.Running? || IsDecided(r.status) ==> LaidOut(r.steps, profiles, |profiles|) && r.total == |profiles|)
    && (IsDecided(r.status) ==>
          && (forall i :: i in r.steps ==> IsDecided(r.steps[i].status))
          && r.passed == CountOf(r.steps, Passed) && r.failed == CountOf(r.steps, Failed)
          && (r.status.Passed? <==> forall i :: i in r.steps ==> r.steps[i].status.Passed?))
  }

  lemma NoneLaidOut(profiles: seq<string>)
    ensures LaidOut(map[], profiles, 0)
  {
  }

  lemma InsertNext(steps: map<nat, Step>, profiles: seq<string>, n: nat)
    requires Distinct(profiles) && n < |profiles| && LaidOut(steps, profiles, n)
    ensures LaidOut(Inserted(steps, n + 1, profiles[n]), profiles, n + 1)
    ensures Inserted(steps, n + 1, profiles[n]) == steps[n + 1 := Step(profiles[n], Pending, None)]
  {
  }

  lemma InsertKnown(steps: map<nat, Step>, profiles: seq<string>, n: nat)
    requires n < |profiles| && LaidOut(steps, profiles, |profiles|)
    ensures Inserted(steps, n + 1, profiles[n]) == steps
  {
  }

  /** Inserting the profiles is idempotent: into no rows it lays them out, into their own rows it changes nothing. */
  lemma {:induction false} InsertLaysOut(steps: map<nat, Step>, profiles: seq<string>, n: nat)
    requires Distinct(profiles) && n <= |profiles|
    requires steps == map[] || LaidOut(steps, profiles, |profiles|)
    ensures LaidOut(AllInserted(steps, profiles[..n]), profiles, if steps == map[] then n else |profiles|)
    ensures steps != map[] ==> AllInserted(steps, profiles[..n]) == steps
    ensures forall i :: i in AllInserted(steps, profiles[..n]) && i !in steps ==>
              AllInserted(steps, profiles[..n])[i].status.Pending?
  {
    hide LaidOut, Inserted, Distinct;
    if n == 0 {
      NoneLaidOut(profiles);
    } else {
      InsertLaysOut(steps, profiles, n - 1);
      assert profiles[..n][..n - 1] == profiles[..n - 1];
      if steps == map[] {
        InsertNext(AllInserted(steps, profiles[..n - 1]), profiles, n - 1);
      } else {
        InsertKnown(steps, profiles, n - 1);
      }
    }
  }

  lemma StartKeeps(r: Run, profiles: seq<string>)
    requires Distinct(profiles) && Holds(r, profiles) && CanStart(r, profiles)
    ensures Holds(Started(r, profiles), profiles) && LaidOut(Started(r, profiles).steps, profiles, |profiles|)
    ensures forall i :: i in r.steps ==> i in Started(r, profiles).steps && Started(r, profiles).steps[i] == r.steps[i]
    ensures forall i :: i in Started(r, profiles).steps && i !in r.steps ==> Started(r, profiles).steps[i].status.Pending?
  {
    assert profiles[..|profiles|] == profiles;
    InsertLaysOut(r.steps, profiles, |profiles|);
  }

  /** Start and RecoverInterrupted together keep what is decided and make the rest PENDING. */
  lemma ReentryKeeps(r: Run, profiles: seq<string>)
    requires Distinct(profiles) && Holds(r, profiles) && CanStart(r, profiles)
    ensures var entered := Recovered(Started(r, profiles));
            && entered.status.Running? && entered.total == |profiles| && LaidOut(entered.steps, profiles, |profiles|)
            && (forall i :: i in entered.steps ==> IsDecided(entered.steps[i].status) || entered.steps[i].status.Pending?)
            && (forall i :: i in r.steps && IsDecided(r.steps[i].status) ==> i in entered.steps && entered.steps[i] == r.steps[i])
            && (forall i :: i in entered.steps && IsDecided(entered.steps[i].status) ==>
                  i in r.steps && IsDecided(r.steps[i].status))
  {
    hide AllInserted, Holds;
    StartKeeps(r, profiles);
  }

  lemma OneStepKeeps(r: Run, profiles: seq<string>, s: Statement)
    requires Holds(r, profiles) && Enabled(r, profiles, s) && (s.StartStep? || s.CompleteStep? || s.CancelStep?)
    ensures Holds(After(r, profiles, s), profiles)
  {
    hide CountOf;
  }

  lemma StatementKeeps(r: Run, profiles: seq<string>, s: Statement)
    requires Distinct(profiles) && Holds(r, profiles) && Enabled(r, profiles, s)
    ensures Holds(After(r, profiles, s), profiles)
  {
    match s
    case Start =>
      StartKeeps(r, profiles);
      hide Holds;
    case RecoverInterrupted =>
      if IsDecided(r.status) {
        assert Recovered(r).steps == r.steps;
      }
    case Cancel =>
      if IsDecided(r.status) {
        assert RunCancelled(r).steps == r.steps;
      }
    case Finish =>
    case _ => OneStepKeeps(r, profiles, s);
  }

  /** A PASSED or FAILED step is never started, changed or removed, and a finished run stays finished. */
  lemma DecidedStays(r: Run, profiles: seq<string>, s: Statement, i: nat)
    requires Distinct(profiles) && Holds(r, profiles) && Enabled(r, profiles, s)
    requires i in r.steps && IsDecided(r.steps[i].status)
    ensures i in After(r, profiles, s).steps && After(r, profiles, s).steps[i] == r.steps[i]
    ensures s != StartStep(i)
    ensures IsDecided(r.status) ==> After(r, profiles, s).status == r.status
  {
    if s.Start? {
      StartKeeps(r, profiles);
    }
  }

  predicate Leads(r: Run, profiles: seq<string>, statements: seq<Statement>, t: Run)
    decreases |statements|
  {
    if statements == [] then r == t
    else Enabled(r, profiles, statements[0]) && Leads(After(r, profiles, statements[0]), profiles, statements[1..], t)
  }

  lemma {:induction false} RunKeeps(r: Run, profiles: seq<string>, statements: seq<Statement>, t: Run)
    requires Distinct(profiles) && Holds(r, profiles) && Leads(r, profiles, statements, t)
    ensures Holds(t, profiles)
    ensures forall i :: i in r.steps && IsDecided(r.steps[i].status) ==> i in t.steps && t.steps[i] == r.steps[i]
    ensures forall i, k :: i in r.steps && IsDecided(r.steps[i].status) && 0 <= k < |statements| ==> statements[k] != StartStep(i)
    decreases |statements|
  {
    hide Holds, Enabled, After;
    if statements != [] {
      var next := After(r, profiles, statements[0]);
      StatementKeeps(r, profiles, statements[0]);
      forall i | i in r.steps && IsDecided(r.steps[i].status)
        ensures i in next.steps && next.steps[i] == r.steps[i] && statements[0] != StartStep(i)
      {
        DecidedStays(r, profiles, statements[0], i);
      }
      RunKeeps(next, profiles, statements[1..], t);
      assert forall k :: 0 < k < |statements| ==> statements[k] == statements[1..][k - 1];
    }
  }

  /**
    Over any sequence of statements, whatever was interrupted where: a decided step is never
    rerun and never changes.
   */
  lemma DecidedForever(profiles: seq<string>, before: seq<Statement>, r: Run, statements: seq<Statement>, t: Run, i: nat)
    requires Distinct(profiles) && Leads(CREATED, profiles, before, r) && Leads(r, profiles, statements, t)
    requires i in r.steps && IsDecided(r.steps[i].status)
    ensures i in t.steps && t.steps[i] == r.steps[i]
    ensures StartStep(i) !in statements
  {
    RunKeeps(CREATED, profiles, before, r);
    RunKeeps(r, profiles, statements, t);
  }

  lemma {:induction false} KeysCount(keys: set<nat>, n: nat)
    requires forall i :: i in keys <==> 1 <= i <= n
    ensures |keys| == n
  {
    if n == 0 {
      assert keys == {};
    } else {
      KeysCount(keys - {n}, n - 1);
    }
  }

  /** With every step decided, passed and failed ones are all of them. */
  lemma CountsAddUp(steps: map<nat, Step>)
    requires forall i :: i in steps ==> IsDecided(steps[i].status)
    ensures CountOf(steps, Passed) + CountOf(steps, Failed) == |steps.Keys|
    ensures (forall i :: i in steps ==> steps[i].status.Passed?) <==> CountOf(steps, Failed) == 0
  {
    var passed := set i | i in steps && steps[i].status == Passed;
    var failed := set i | i in steps && steps[i].status == Failed;
    assert steps.Keys == passed + failed && passed !! failed;
    if failed != {} {
      var f :| f in failed;
      assert |failed| > 0;
    }
  }

  /** A finished run accounts for every profile, and is PASSED exactly when every step is. */
  lemma FinishedAddsUp(profiles: seq<string>, statements: seq<Statement>, r: Run)
    requires Distinct(profiles) && Leads(CREATED, profiles, statements, r) && IsDecided(r.status)
    ensures r.passed + r.failed == r.total == |profiles|
    ensures forall i :: 1 <= i <= |profiles| ==>
              i in r.steps && r.steps[i].profile == profiles[i - 1] && IsDecided(r.steps[i].status)
    ensures r.status.Passed? <==> r.passed == |profiles|
    ensures r.status.Passed? <==> forall i :: i in r.steps ==> r.steps[i].status.Passed?
  {
    RunKeeps(CREATED, profiles, statements, r);
    hide Leads, CountOf;
    KeysCount(r.steps.Keys, |profiles|);
    CountsAddUp(r.steps);
  }

  /** Finish succeeds exactly when a running run has every step decided. */
  lemma FinishIff(profiles: seq<string>, statements: seq<Statement>, r: Run)
    requires Distinct(profiles) && Leads(CREATED, profiles, statements, r)
    ensures Enabled(r, profiles, Finish) <==>
            r.status.Running? && forall i :: 1 <= i <= |profiles| ==> i in r.steps && IsDecided(r.steps[i].status)
  {
    RunKeeps(CREATED, profiles, statements, r);
  }

  lemma {:induction false} LeadsOneMore(r: Run, profiles: seq<string>, statements: seq<Statement>, t: Run, s: Statement)
    requires Leads(r, profiles, statements, t) && Enabled(t, profiles, s)
    ensures Leads(r, profiles, statements + [s], After(t, profiles, s))
    decreases |statements|
  {
    hide Enabled, After;
    var longer := statements + [s];
    if statements == [] {
      assert longer[1..] == [];
    } else {
      LeadsOneMore(After(r, profiles, statements[0]), profiles, statements[1..], t, s);
      assert longer[1..] == statements[1..] + [s];
    }
  }

  // ----- the handler -----

  /** How one profile's command ends: with a result, cut short, cancelled by the user, or with the daemon gone. */
  datatype Outcome = Done(result: StepResult) | CutShort | UserCancelled | Lost

  datatype End = Concluded | Interrupted | Refused

  /** The rows of one run, as the handler's statements change them. */
  class Handler {
    var run: Run
    const profiles: seq<string>
    ghost var statements: seq<Statement>

    /** The rows are what some sequence of statements made of a new run. */
    ghost predicate Valid()
      reads this
    {
      Distinct(profiles) && Leads(CREATED, profiles, statements, run)
    }

    constructor (profiles: seq<string>)
      requires Distinct(profiles)
      ensures Valid() && this.profiles == profiles && run == Run(Pending, 0, 0, 0, map[])
    {
      this.profiles, run, statements := profiles, CREATED, [];
    }

    /** One statement. */
    method Execute(s: Statement)
      requires Valid() && Enabled(run, profiles, s)
      modifies this
      ensures Valid() && run == After(old(run), profiles, s) && statements == old(statements) + [s]
    {
      LeadsOneMore(CREATED, profiles, statements, run, s);
      statements := statements + [s];
      match s
      case Start => run := Started(run, profiles);
      case RecoverInterrupted => run := Recovered(run);
      case StartStep(sequence) => run := StepStarted(run, sequence);
      case CompleteStep(sequence, result) => run := StepCompleted(run, sequence, result);
      case CancelStep(sequence) => run := StepCancelled(run, sequence);
      case Cancel => run := RunCancelled(run);
      case Finish => run := Finished(run);
    }

    /** Enter the run again: its rows, with interrupted steps pending once more. */
    method Reenter() returns (ok: bool)
      requires Valid() && !IsDecided(run.status)
      modifies this
      ensures Valid() && old(statements) <= statements
      ensures ok <==> profiles != [] && !old(run).status.Cancelled?
      ensures !ok ==> run == old(run)
      ensures ok ==> && run.status.Running? && run.total == |profiles| && LaidOut(run.steps, profiles, |profiles|)
                     && forall i :: i in run.steps ==> IsDecided(run.steps[i].status) || run.steps[i].status.Pending?
      ensures ok ==> forall i :: i in old(run).steps && IsDecided(old(run).steps[i].status) ==>
                       i in run.steps && run.steps[i] == old(run).steps[i]
      ensures ok ==> forall i :: i in run.steps && IsDecided(run.steps[i].status) ==>
                       i in old(run).steps && IsDecided(old(run).steps[i].status)
    {
      if !CanStart(run, profiles) {
        return false;
      }
      RunKeeps(CREATED, profiles, statements, run);
      ReentryKeeps(run, profiles);
      hide Leads, Started, Recovered, AllInserted, Holds, RunCancelled, CountOf, LaidOut;
      Execute(Start);
      Execute(RecoverInterrupted);
      return true;
    }

    /** One pending profile: start its step, run its command, and record how that ended. */
    method RunStep(sequence: nat, outcome: Outcome) returns (decided: bool)
      requires Valid() && run.status.Running? && CanStartStep(run, sequence)
      modifies this
      ensures Valid() && old(statements) + [StartStep(sequence)] <= statements
      ensures run.steps.Keys == old(run).steps.Keys
      ensures decided <==> outcome.Done?
      ensures decided ==>
                && run.status.Running?
                && run.steps == old(run).steps[sequence := Step(old(run).steps[sequence].profile,
                                                               if outcome.result.passed then Passed else Failed, Some(outcome.result))]
      ensures !decided ==> run.status == if outcome.UserCancelled? then Cancelled else Running
      ensures !decided && !outcome.UserCancelled? ==>
                run == old(run).(steps := old(run).steps[sequence :=
                  old(run).steps[sequence].(status := if outcome.CutShort? then Cancelled else Running)])
      ensures outcome.UserCancelled? ==>
                forall i :: i in old(run).steps && !IsDecided(old(run).steps[i].status) ==>
                  i in run.steps && run.steps[i] == old(run).steps[i].(status := Cancelled)
      ensures forall i :: i in old(run).steps && IsDecided(old(run).steps[i].status) ==>
                i in run.steps && run.steps[i] == old(run).steps[i]
    {
      hide Leads, CountOf;
      Execute(StartStep(sequence));
      match outcome
      case Lost => return false;
      case CutShort =>
        Execute(CancelStep(sequence));
        return false;
      case UserCancelled =>
        Execute(Cancel);
        return false;
      case Done(result) =>
        Execute(CompleteStep(sequence, result));
        return true;
    }

    /**
      The loop over the profiles: every open one is run once, in order, until one is interrupted
      or the handler is stopped, before a profile or before Finish.
     */
    method RunOpen(outcomes: nat -> Outcome, stops: nat -> bool) returns (finished: bool, ran: seq<nat>)
      requires Valid() && run.status.Running? && LaidOut(run.steps, profiles, |profiles|)
      requires forall i :: i in run.steps ==> IsDecided(run.steps[i].status) || run.steps[i].status.Pending?
      modifies this
      ensures Valid() && old(statements) <= statements && !IsDecided(run.status)
      ensures OnlyOpen(old(run).steps, ran, |profiles|) && ReportsWhatRan(run.steps, ran, outcomes)
      ensures finished ==> run.status.Running? && !stops(|profiles| + 1)
      ensures finished ==> Progress(old(run).steps, run.steps, |profiles|, ran, outcomes, stops)
      ensures !finished ==>
                run.status == if ran != [] && outcomes(ran[|ran| - 1]).UserCancelled? then Cancelled else Running
      ensures !finished ==> exists i :: BreaksAt(old(run).steps, ran, |profiles|, outcomes, stops, i)
    {
      hide Leads, CountOf, Progress, OnlyOpen, Reports, BreaksAt, ReportsWhatRan;
      ran := [];
      NothingRan(run.steps, |profiles|, outcomes, stops);
      for i := 0 to |profiles|
        invariant Valid() && old(statements) <= statements && run.status.Running?
        invariant Progress(old(run).steps, run.steps, i, ran, outcomes, stops)
        invariant OnlyOpen(old(run).steps, ran, |profiles|) && ReportsWhatRan(run.steps, ran, outcomes)
      {
        var sequence := i + 1;
        ghost var before := run.steps;
        ProgressAt(old(run).steps, before, i, ran, outcomes, stops, sequence);
        if !IsDecided(run.steps[sequence].status) {
          if stops(sequence) {
            StoppedAt(old(run).steps, before, i, ran, |profiles|, outcomes, stops);
            return false, ran;
          }
          var decided := RunStep(sequence, outcomes(sequence));
          OneMoreRan(old(run).steps, before, run.steps, i, ran, |profiles|, outcomes, stops);
          ran := ran + [sequence];
          if !decided {
            BrokeAt(old(run).steps, before, i, ran[..|ran| - 1], |profiles|, outcomes, stops);
            return false, ran;
          }
          ProgressRan(old(run).steps, before, run.steps, i, ran[..|ran| - 1], outcomes, stops);
        } else {
          ProgressSkipped(old(run).steps, before, i, ran, outcomes, stops);
        }
      }
      if stops(|profiles| + 1) {
        StoppedAt(old(run).steps, run.steps, |profiles|, ran, |profiles|, outcomes, stops);
        return false, ran;
      }
      return true, ran;
    }

    /**
      handle: a concluded run is left alone; otherwise it is entered again, its open profiles
      are run, and it is finished. `ran` lists the profiles that were started.
     */
    method Handle(outcomes: nat -> Outcome, stops: nat -> bool) returns (end: End, ran: seq<nat>)
      requires Valid()
      modifies this
      ensures Valid() && old(statements) <= statements
      ensures end.Concluded? <==> IsDecided(run.status)
      ensures IsDecided(old(run).status) ==> ran == [] && run == old(run)
      ensures OnlyOpen(old(run).steps, ran, |profiles|) && ReportsWhatRan(run.steps, ran, outcomes)
      ensures end.Concluded? && !IsDecided(old(run).status) ==>
                && !stops(|profiles| + 1)
                && (forall i :: 1 <= i <= |profiles| && IsOpen(old(run).steps, i) ==>
                      i in ran && !stops(i) && i in run.steps && Reports(run.steps[i], outcomes(i)))
      ensures end.Interrupted? ==>
                run.status == if ran != [] && outcomes(ran[|ran| - 1]).UserCancelled? then Cancelled else Running
      ensures end.Interrupted? ==> exists i :: BreaksAt(old(run).steps, ran, |profiles|, outcomes, stops, i)
      ensures end.Refused? <==> !IsDecided(old(run).status) && (profiles == [] || old(run).status.Cancelled?)
    {
      hide Leads, Started, RunCancelled, Recovered, AllInserted, CountOf, Holds, Progress, OnlyOpen, Reports, BreaksAt,
           ReportsWhatRan;
      NothingRan(run.steps, |profiles|, outcomes, stops);
      if IsDecided(run.status) {
        return Concluded, [];
      }
      var entered := Reenter();
      if !entered {
        return Refused, [];
      }
      ghost var resumed := run.steps;
      var finished;
      finished, ran := RunOpen(outcomes, stops);
      SameOpen(old(run).steps, resumed, ran, |profiles|, outcomes, stops);
      if !finished {
        return Interrupted, ran;
      }
      AllRan(resumed, run.steps, |profiles|, ran, outcomes, stops);
      Execute(Finish);
      return Concluded, ran;
    }
  }

  /** No decided step is there for the profile. */
  predicate IsOpen(steps: map<nat, Step>, i: nat) {
    !(i in steps && IsDecided(steps[i].status))
  }

  /** Every command that ran to its end has its result on its step. */
  ghost predicate ReportsWhatRan(steps: map<nat, Step>, ran: seq<nat>, outcomes: nat -> Outcome) {
    forall k :: 0 <= k < |ran| && outcomes(ran[k]).Done? ==> ran[k] in steps && Reports(steps[ran[k]], outcomes(ran[k]))
  }

  /**
    The loop ended at open profile i, or before Finish: every earlier open profile ran to its end,
    and then the handler was stopped, or the command of profile i did not end with a result.
   */
  ghost predicate BreaksAt(steps: map<nat, Step>, ran: seq<nat>, n: nat, outcomes: nat -> Outcome, stops: nat -> bool, i: nat) {
    && 1 <= i <= n + 1 && (i <= n ==> IsOpen(steps, i))
    && (forall k :: 1 <= k < i && IsOpen(steps, k) ==> k in ran && outcomes(k).Done? && !stops(k))
    && if stops(i) then forall k :: 0 <= k < |ran| ==> ran[k] < i
       else i <= n && !outcomes(i).Done? && ran != [] && ran[|ran| - 1] == i
  }

  /** `ran` holds only open profiles, each once and in order. */
  ghost predicate OnlyOpen(steps: map<nat, Step>, ran: seq<nat>, n: nat) {
    && (forall k :: 0 <= k < |ran| ==> 1 <= ran[k] <= n && IsOpen(steps, ran[k]))
    && (forall k, m :: 0 <= k < m < |ran| ==> ran[k] < ran[m])
  }

  /** The step is decided by the result its command reported. */
  predicate Reports(step: Step, outcome: Outcome) {
    outcome.Done? && step.result == Some(outcome.result) && step.status == if outcome.result.passed then Passed else Failed
  }

  /** After the first n profiles: those are decided, the open ones among them ran and report their results, the others are untouched. */
  ghost predicate Progress(resumed: map<nat, Step>, now: map<nat, Step>, n: nat, ran: seq<nat>, outcomes: nat -> Outcome,
                           stops: nat -> bool)
  {
    && now.Keys == resumed.Keys
    && (forall k :: k in now && k <= n ==> IsDecided(now[k].status))
    && (forall k :: k in now && (k > n || IsDecided(resumed[k].status)) ==> now[k] == resumed[k])
    && OnlyOpen(resumed, ran, n)
    && (forall k :: k in now && 1 <= k <= n && IsOpen(resumed, k) ==> k in ran && !stops(k) && Reports(now[k], outcomes(k)))
  }

  lemma NothingRan(steps: map<nat, Step>, n: nat, outcomes: nat -> Outcome, stops: nat -> bool)
    ensures OnlyOpen(steps, [], n) && ReportsWhatRan(steps, [], outcomes)
    ensures 0 !in steps ==> Progress(steps, steps, 0, [], outcomes, stops)
  {
  }

  lemma ProgressAt(resumed: map<nat, Step>, now: map<nat, Step>, n: nat, ran: seq<nat>, outcomes: nat -> Outcome,
                   stops: nat -> bool, k: nat)
    requires Progress(resumed, now, n, ran, outcomes, stops) && k > n
    ensures k in now <==> k in resumed
    ensures k in now ==> now[k] == resumed[k]
  {
  }

  /** A stop before the next open profile, or before Finish. */
  lemma StoppedAt(resumed: map<nat, Step>, now: map<nat, Step>, m: nat, ran: seq<nat>, n: nat, outcomes: nat -> Outcome,
                  stops: nat -> bool)
    requires Progress(resumed, now, m, ran, outcomes, stops) && m <= n && (forall k :: 1 <= k <= n ==> k in resumed)
    requires stops(m + 1) && (m < n ==> IsOpen(resumed, m + 1))
    ensures BreaksAt(resumed, ran, n, outcomes, stops, m + 1)
    ensures ran != [] ==> outcomes(ran[|ran| - 1]).Done?
  {
  }

  /** A command that did not end with a result. */
  lemma BrokeAt(resumed: map<nat, Step>, before: map<nat, Step>, m: nat, ran: seq<nat>, n: nat, outcomes: nat -> Outcome,
                stops: nat -> bool)
    requires Progress(resumed, before, m, ran, outcomes, stops) && m < n && (forall k :: 1 <= k <= n ==> k in resumed)
    requires IsOpen(resumed, m + 1) && !stops(m + 1) && !outcomes(m + 1).Done?
    ensures BreaksAt(resumed, ran + [m + 1], n, outcomes, stops, m + 1)
  {
  }

  lemma OneMoreRan(resumed: map<nat, Step>, before: map<nat, Step>, now: map<nat, Step>, m: nat, ran: seq<nat>, n: nat,
                   outcomes: nat -> Outcome, stops: nat -> bool)
    requires Progress(resumed, before, m, ran, outcomes, stops) && m < n && IsOpen(resumed, m + 1)
    requires ReportsWhatRan(before, ran, outcomes)
    requires forall k :: k in before && IsDecided(before[k].status) ==> k in now && now[k] == before[k]
    requires outcomes(m + 1).Done? ==>
               m + 1 in now && now[m + 1] == Step(now[m + 1].profile, if outcomes(m + 1).result.passed then Passed else Failed,
                                                  Some(outcomes(m + 1).result))
    ensures OnlyOpen(resumed, ran + [m + 1], n) && ReportsWhatRan(now, ran + [m + 1], outcomes)
  {
  }

  lemma ProgressRan(resumed: map<nat, Step>, before: map<nat, Step>, now: map<nat, Step>, n: nat, ran: seq<nat>,
                    outcomes: nat -> Outcome, stops: nat -> bool)
    requires Progress(resumed, before, n, ran, outcomes, stops) && IsOpen(resumed, n + 1) && !stops(n + 1)
    requires outcomes(n + 1).Done? && n + 1 in before
    requires now == before[n + 1 := Step(before[n + 1].profile, if outcomes(n + 1).result.passed then Passed else Failed,
                                         Some(outcomes(n + 1).result))]
    ensures Progress(resumed, now, n + 1, ran + [n + 1], outcomes, stops)
  {
  }

  lemma ProgressSkipped(resumed: map<nat, Step>, before: map<nat, Step>, n: nat, ran: seq<nat>, outcomes: nat -> Outcome,
                        stops: nat -> bool)
    requires Progress(resumed, before, n, ran, outcomes, stops) && !IsOpen(resumed, n + 1)
    ensures Progress(resumed, before, n + 1, ran, outcomes, stops)
  {
  }

  lemma AllRan(resumed: map<nat, Step>, now: map<nat, Step>, n: nat, ran: seq<nat>, outcomes: nat -> Outcome, stops: nat -> bool)
    requires Progress(resumed, now, n, ran, outcomes, stops) && forall k :: k in resumed <==> 1 <= k <= n
    ensures forall k :: k in now ==> IsDecided(now[k].status)
    ensures forall k :: 1 <= k <= n && IsOpen(resumed, k) ==> k in ran && !stops(k) && k in now && Reports(now[k], outcomes(k))
  {
  }

  /** Re-entry decides nothing and undoes nothing, so what was open stays open. */
  lemma SameOpen(before: map<nat, Step>, resumed: map<nat, Step>, ran: seq<nat>, n: nat, outcomes: nat -> Outcome,
                 stops: nat -> bool)
    requires OnlyOpen(resumed, ran, n)
    requires forall k :: k in before && IsDecided(before[k].status) ==> k in resumed && resumed[k] == before[k]
    requires forall k :: k in resumed && IsDecided(resumed[k].status) ==> k in before && IsDecided(before[k].status)
    ensures OnlyOpen(before, ran, n)
    ensures forall i :: IsOpen(before, i) <==> IsOpen(resumed, i)
    ensures forall i :: BreaksAt(resumed, ran, n, outcomes, stops, i) ==> BreaksAt(before, ran, n, outcomes, stops, i)
  {
    forall i | BreaksAt(resumed, ran, n, outcomes, stops, i)
      ensures BreaksAt(before, ran, n, outcomes, stops, i)
    {
    }
  }
}
