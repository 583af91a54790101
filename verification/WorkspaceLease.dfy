/**
  Workspace leases (internal/workspace): rows fenced by a token and an expiry.
  Each SQL statement is a guarded update of one row; a NULL column compares to nothing.
 */
module WorkspaceLease {
  import opened Clock
  import opened Wrappers
  import Text

  datatype Status = Requested | Preparing | Ready | WriteLocked | Archived | Failed

  /** The columns the statements read and write. */
  datatype Workspace = Workspace(
    status: Status, headSha: string, dirty: bool,
    leaseOwner: Option<string>, leaseToken: Option<string>, leaseExpiresAt: Option<int>,
    failureMessage: Option<string>, updatedAt: int)
  {
    function Granted(owner: string, token: string, expiresAt: int): Workspace {
      this.(leaseOwner := Some(owner), leaseToken := Some(token), leaseExpiresAt := Some(expiresAt))
    }

    function Cleared(): Workspace {
      this.(leaseOwner := None, leaseToken := None, leaseExpiresAt := None)
    }

    /** lease_expires_at <= now */
    predicate Expired(now: int) {
      leaseExpiresAt.Some? && leaseExpiresAt.value <= now
    }

    /** lease_expires_at > now */
    predicate Unexpired(now: int) {
      leaseExpiresAt.Some? && leaseExpiresAt.value > now
    }
  }

  datatype LeaseError = InvalidWorkspace | NotFound | LeaseUnavailable | LeaseLost

  /** A call on one workspace. `token` of an acquire is the fresh identifier it draws. */
  datatype Request =
    | Acquire(owner: string, token: string, ttl: int)
    | AcquireWrite(owner: string, token: string, ttl: int)
    | AcquireRestart(owner: string, token: string, ttl: int)
    | Renew(token: string, ttl: int)
    | Release(token: string)
    | MarkReady(token: string, headSha: string, isDirty: bool)
    | MarkFailed(token: string, message: string)
    | ReleaseWrite(token: string, headSha: string, isDirty: bool)
    | Archive
    | MarkMissing
    | RecoverDaemon
  {
    predicate IsAcquire() {
      Acquire? || AcquireWrite? || AcquireRestart?
    }
  }

  const MISSING_MESSAGE := "workspace path is missing from managed root"
  const MAX_FAILURE_MESSAGE := 2048

  // ----- the guards, one per statement -----

  predicate IsValid(request: Request) {
    match request
    case Acquire(owner, _, ttl) => Text.TrimSpace(owner) != "" && ttl > 0
    case AcquireWrite(owner, _, ttl) => Text.TrimSpace(owner) != "" && ttl > 0
    case AcquireRestart(owner, _, ttl) => Text.TrimSpace(owner) != "" && ttl > 0
    case Renew(token, ttl) => Text.TrimSpace(token) != "" && ttl > 0
    case MarkReady(_, headSha, _) => Text.TrimSpace(headSha) != ""
    case ReleaseWrite(token, headSha, _) => Text.TrimSpace(token) != "" && Text.TrimSpace(headSha) != ""
    case _ => true
  }

  /** LIKE 'local-daemon-%', which ignores the case of ASCII letters. */
  predicate IsDaemonOwner(owner: string) {
    |owner| >= 13 && forall i :: 0 <= i < 13 ==> AsciiLower(owner[i]) == "local-daemon-"[i]
  }

  function AsciiLower(c: char): char {
    if 'A' <= c <= 'Z' then c + 32 as char else c
  }

  /** The WHERE clause of each statement at `now` milliseconds. */
  predicate Admits(w: Workspace, request: Request, now: int) {
    match request
    case Acquire(owner, _, _) =>
      && (w.status.Requested? || w.status.Preparing? || w.status.Failed?)
      && (w.leaseToken.None? || w.Expired(now) || w.leaseOwner == Some(Text.TrimSpace(owner)))
    case AcquireWrite(owner, _, _) =>
      || (w.status.Ready? && w.leaseToken.None?)
      || (w.status.WriteLocked? && w.Expired(now))
      || (w.status.WriteLocked? && w.leaseOwner == Some(Text.TrimSpace(owner)))
    case AcquireRestart(_, _, _) =>
      || ((w.status.Requested? || w.status.Preparing? || w.status.Ready? || w.status.Failed?)
          && (w.leaseToken.None? || w.Expired(now)))
      || (w.status.WriteLocked? && w.Expired(now))
    case Renew(token, _) => w.leaseToken == Some(token) && w.Unexpired(now)
    case Release(token) => w.leaseToken == Some(Text.TrimSpace(token))
    case MarkReady(token, _, _) => w.leaseToken == Some(token) && w.Unexpired(now)
    case MarkFailed(token, _) => w.leaseToken == Some(token)
    case ReleaseWrite(token, _, _) => w.status.WriteLocked? && w.leaseToken == Some(token) && w.Unexpired(now)
    case Archive => w.leaseToken.None? || w.leaseExpiresAt.None? || w.Expired(now)
    case MarkMissing => true
    case RecoverDaemon => w.leaseToken.Some? && w.leaseOwner.Some? && IsDaemonOwner(w.leaseOwner.value)
  }

  function FailureText(message: string): Option<string> {
    var trimmed := Text.TrimSpace(message);
    var cut := if |trimmed| > MAX_FAILURE_MESSAGE then trimmed[..MAX_FAILURE_MESSAGE] else trimmed;
    if cut == "" then None else Some(cut)
  }

  /** The SET clause of each statement, at `t` nanoseconds. */
  function Updated(w: Workspace, request: Request, t: int): Workspace {
    var row := w.(updatedAt := Millis(t));
    match request
    case Acquire(owner, token, ttl) =>
      row.Granted(Text.TrimSpace(owner), token, Millis(t + ttl))
         .(status := if w.status.Requested? || w.status.Failed? then Preparing else w.status,
           failureMessage := if w.status.Failed? then None else w.failureMessage)
    case AcquireWrite(owner, token, ttl) =>
      row.Granted(Text.TrimSpace(owner), token, Millis(t + ttl)).(status := WriteLocked)
    case AcquireRestart(owner, token, ttl) =>
      row.Granted(Text.TrimSpace(owner), token, Millis(t + ttl))
         .(status := Preparing, headSha := "", dirty := false, failureMessage := None)
    case Renew(_, ttl) => row.(leaseExpiresAt := Some(Millis(t + ttl)))
    case Release(_) => row.Cleared()
    case MarkReady(_, headSha, isDirty) =>
      row.(status := Ready, headSha := Text.TrimSpace(headSha), dirty := isDirty, failureMessage := None)
    case MarkFailed(_, message) => row.(status := Failed, failureMessage := FailureText(message))
    case ReleaseWrite(_, headSha, isDirty) =>
      row.Cleared().(status := Ready, headSha := Text.TrimSpace(headSha), dirty := isDirty, failureMessage := None)
    case Archive => row.Cleared().(status := Archived)
    case MarkMissing =>
      row.Cleared().(status := if w.status.Archived? || w.status.Failed? then w.status else Failed,
                     failureMessage := if w.status.Archived? || w.status.Failed? then w.failureMessage else Some(MISSING_MESSAGE))
    case RecoverDaemon => row.Cleared().(status := if w.status.WriteLocked? then Ready else w.status)
  }

  predicate Succeeds(w: Workspace, request: Request, t: int) {
    IsValid(request) && Admits(w, request, Millis(t))
  }

  /** What a call leaves behind: the update if the guards hold, the old row otherwise. */
  function Outcome(w: Workspace, request: Request, t: int): Workspace {
    if Succeeds(w, request, t) then Updated(w, request, t) else w
  }

  /** What each call reports when it changes nothing. */
  function ErrorOf(request: Request): LeaseError {
    if !IsValid(request) then InvalidWorkspace
    else if request.IsAcquire() || request.Archive? then LeaseUnavailable else LeaseLost
  }

  // ----- the repository -----

  type WorkspaceId = nat

  class Repository {
    var rows: map<WorkspaceId, Workspace>

    constructor (rows: map<WorkspaceId, Workspace>)
      ensures this.rows == rows
    {
      this.rows := rows;
    }

    /** UPDATE ... WHERE id = ? AND guard RETURNING: the updated row, or no row. */
    method Update(id: WorkspaceId, request: Request, t: int) returns (updated: Option<Workspace>)
      modifies this
      ensures id in old(rows) && Admits(old(rows)[id], request, Millis(t)) ==>
                updated == Some(Updated(old(rows)[id], request, t)) && rows == old(rows)[id := updated.value]
      ensures !(id in old(rows) && Admits(old(rows)[id], request, Millis(t))) ==> updated == None && rows == old(rows)
    {
      if id !in rows || !Admits(rows[id], request, Millis(t)) {
        return None;
      }
      rows := rows[id := Updated(rows[id], request, t)];
      return Some(rows[id]);
    }

    /** Acquire, AcquireWrite, AcquireRestart and Archive: a missing row is told from a held lease. */
    method Take(id: WorkspaceId, request: Request, t: int) returns (r: Result<Workspace, LeaseError>)
      requires request.IsAcquire() || request.Archive?
      modifies this
      ensures id in old(rows) ==> rows == old(rows)[id := Outcome(old(rows)[id], request, t)]
      ensures id !in old(rows) ==> rows == old(rows)
      ensures r.Ok? <==> id in old(rows) && Succeeds(old(rows)[id], request, t)
      ensures r.Ok? ==> r.value == rows[id]
      ensures r.Err? ==> r.error == if IsValid(request) && id !in old(rows) then NotFound else ErrorOf(request)
    {
      if !IsValid(request) {
        return Err(InvalidWorkspace);
      }
      var updated := Update(id, request, t);
      if updated.Some? {
        return Ok(updated.value);
      }
      return Err(if id in rows then LeaseUnavailable else NotFound);
    }

    /** Renew, Release, MarkReady, MarkFailed and ReleaseWrite: the holder's calls. */
    method Use(id: WorkspaceId, request: Request, t: int) returns (r: Result<Workspace, LeaseError>)
      requires !request.IsAcquire() && !request.Archive? && !request.MarkMissing? && !request.RecoverDaemon?
      modifies this
      ensures id in old(rows) ==> rows == old(rows)[id := Outcome(old(rows)[id], request, t)]
      ensures id !in old(rows) ==> rows == old(rows)
      ensures r.Ok? <==> id in old(rows) && Succeeds(old(rows)[id], request, t)
      ensures r.Ok? ==> r.value == rows[id]
      ensures r.Err? ==> r.error == ErrorOf(request)
    {
      if !IsValid(request) {
        return Err(InvalidWorkspace);
      }
      var updated := Update(id, request, t);
      if updated.None? {
        return Err(LeaseLost);
      }
      return Ok(updated.value);
    }

    /** The daemon's bulk release at startup. */
    method RecoverDaemonLeases(t: int) returns (ids: set<WorkspaceId>)
      modifies this
      ensures rows == map id | id in old(rows) :: Outcome(old(rows)[id], RecoverDaemon, t)
      ensures ids == set id | id in old(rows) && Succeeds(old(rows)[id], RecoverDaemon, t)
    {
      ids := set id | id in rows && Succeeds(rows[id], RecoverDaemon, t);
      rows := map id | id in rows :: if id in ids then Updated(rows[id], RecoverDaemon, t) else rows[id];
    }
  }

  /** The row EnsureForWorkflow inserts. */
  function FreshRow(t: int): Workspace {
    Workspace(Requested, "", false, None, None, None, None, Millis(t))
  }

  // ----- runs of one workspace, and who holds it -----

  /** One call and the clock it read. */
  datatype Call = Call(request: Request, at: int)

  /** The row after a run of calls. */
  function After(calls: seq<Call>, w: Workspace): Workspace {
    if calls == [] then w
    else var before := After(calls[..|calls| - 1], w); Outcome(before, calls[|calls| - 1].request, calls[|calls| - 1].at)
  }

  predicate SucceededAt(calls: seq<Call>, w: Workspace, i: nat)
    requires i < |calls|
  {
    Succeeds(After(calls[..i], w), calls[i].request, calls[i].at)
  }

  /** The clock never runs backwards, and each acquire draws a token no earlier acquire drew. */
  ghost predicate Orderly(calls: seq<Call>) {
    && (forall i, k :: 0 <= i < k < |calls| ==> calls[i].at <= calls[k].at)
    && (forall i, k :: 0 <= i < k < |calls| && calls[i].request.IsAcquire() && calls[k].request.IsAcquire() ==>
          calls[i].request.token != calls[k].request.token)
    && (forall i :: 0 <= i < |calls| && calls[i].request.IsAcquire() ==>
          Text.TrimSpace(calls[i].request.token) == calls[i].request.token)
  }

  /** A lease, as told by the history alone. */
  datatype Lease = Lease(owner: string, token: string, expiresAt: int)

  /** The last lease granted and neither released, archived nor revoked since, as renewed since. */
  function Holder(calls: seq<Call>, w: Workspace): Option<Lease> {
    if calls == [] then None
    else
      var n := |calls| - 1;
      var before, last := Holder(calls[..n], w), calls[n];
      if !SucceededAt(calls, w, n) then before
      else match last.request
        case Acquire(owner, token, ttl) => Some(Lease(Text.TrimSpace(owner), token, Millis(last.at + ttl)))
        case AcquireWrite(owner, token, ttl) => Some(Lease(Text.TrimSpace(owner), token, Millis(last.at + ttl)))
        case AcquireRestart(owner, token, ttl) => Some(Lease(Text.TrimSpace(owner), token, Millis(last.at + ttl)))
        case Renew(_, ttl) => if before.Some? then Some(before.value.(expiresAt := Millis(last.at + ttl))) else None
        case MarkReady(_, _, _) => before
        case MarkFailed(_, _) => before
        case _ => None
  }

  /** The token is the holder's and has not expired at `t`. */
  predicate ValidAt(calls: seq<Call>, w: Workspace, token: string, t: int) {
    var holder := Holder(calls, w);
    holder.Some? && holder.value.token == token && holder.value.expiresAt > Millis(t)
  }

  /** The lease columns are set together and are the holder's. */
  predicate Matches(w: Workspace, holder: Option<Lease>) {
    match holder
    case None => w.leaseOwner.None? && w.leaseToken.None? && w.leaseExpiresAt.None?
    case Some(lease) =>
      w.leaseOwner == Some(lease.owner) && w.leaseToken == Some(lease.token) && w.leaseExpiresAt == Some(lease.expiresAt)
  }

  predicate Unleased(w: Workspace) {
    Matches(w, None)
  }

  /** In every run the columns agree with the history, so the table's CHECK constraint always holds. */
  lemma {:induction false} ColumnsMatchHolder(calls: seq<Call>, w: Workspace)
    requires Unleased(w)
    ensures Matches(After(calls, w), Holder(calls, w))
  {
    if calls != [] {
      ColumnsMatchHolder(calls[..|calls| - 1], w);
    }
  }

  /** Renew, MarkReady and ReleaseWrite succeed for the valid token only; Renew and MarkReady always do. */
  lemma OnlyTheValidTokenWorks(calls: seq<Call>, w: Workspace, request: Request, t: int)
    requires Unleased(w) && (request.Renew? || request.MarkReady? || request.ReleaseWrite?)
    ensures Succeeds(After(calls, w), request, t) <==>
            && IsValid(request) && ValidAt(calls, w, request.token, t)
            && (request.ReleaseWrite? ==> After(calls, w).status.WriteLocked?)
  {
    ColumnsMatchHolder(calls, w);
  }

  /** While a token is valid nobody else acquires the workspace, nobody restarts it and nobody archives it. */
  lemma ValidLeaseExcludes(calls: seq<Call>, w: Workspace, token: string, request: Request, t: int)
    requires Unleased(w) && ValidAt(calls, w, token, t)
    requires Succeeds(After(calls, w), request, t)
    ensures !request.AcquireRestart? && !request.Archive?
    ensures request.Acquire? || request.AcquireWrite? ==> Text.TrimSpace(request.owner) == Holder(calls, w).value.owner
  {
    ColumnsMatchHolder(calls, w);
  }

  /** The holder's token is that of the last acquire that succeeded. */
  lemma {:induction false} HolderWasGranted(calls: seq<Call>, w: Workspace) returns (i: nat)
    requires Holder(calls, w).Some?
    ensures i < |calls| && calls[i].request.IsAcquire() && calls[i].request.token == Holder(calls, w).value.token
    ensures SucceededAt(calls, w, i)
    ensures forall k :: i < k < |calls| && calls[k].request.IsAcquire() ==> !SucceededAt(calls, w, k)
  {
    hide Admits, Updated, IsValid;
    var n := |calls| - 1;
    if SucceededAt(calls, w, n) && calls[n].request.IsAcquire() {
      i := n;
    } else {
      i := HolderWasGranted(calls[..n], w);
      assert calls[..n][..i] == calls[..i];
      forall k | i < k < |calls| && calls[k].request.IsAcquire()
        ensures !SucceededAt(calls, w, k)
      {
        if k < n {
          assert calls[..n][..k] == calls[..k];
          assert !SucceededAt(calls[..n], w, k);
        }
      }
    }
  }

  /** Equal, but for the case of an ASCII letter. */
  predicate SameLetter(c: char, lower: char) {
    c == lower || ('A' <= c <= 'Z' && c as int + 32 == lower as int)
  }

  /** Every call in terms of the lease in force: when the guards let it through. */
  lemma CallsSucceedIff(calls: seq<Call>, w: Workspace, request: Request, t: int)
    requires Unleased(w)
    ensures var row, lease, ms := After(calls, w), Holder(calls, w), Millis(t);
            var expired := lease.Some? && lease.value.expiresAt <= ms;
            Succeeds(row, request, t) <==>
              match request
              case Acquire(owner, _, ttl) =>
                && Text.TrimSpace(owner) != "" && ttl > 0 && row.status in {Requested, Preparing, Failed}
                && (lease.None? || expired || lease.value.owner == Text.TrimSpace(owner))
              case AcquireWrite(owner, _, ttl) =>
                && Text.TrimSpace(owner) != "" && ttl > 0
                && ((row.status == Ready && lease.None?)
                    || (row.status == WriteLocked && lease.Some? && (expired || lease.value.owner == Text.TrimSpace(owner))))
              case AcquireRestart(owner, _, ttl) =>
                && Text.TrimSpace(owner) != "" && ttl > 0 && row.status != Archived
                && (expired || (lease.None? && row.status != WriteLocked))
              case Renew(token, ttl) =>
                Text.TrimSpace(token) != "" && ttl > 0 && lease.Some? && lease.value.token == token && !expired
              case Release(token) => lease.Some? && lease.value.token == Text.TrimSpace(token)
              case MarkReady(token, headSha, _) =>
                Text.TrimSpace(headSha) != "" && lease.Some? && lease.value.token == token && !expired
              case MarkFailed(token, _) => lease.Some? && lease.value.token == token
              case ReleaseWrite(token, headSha, _) =>
                && Text.TrimSpace(token) != "" && Text.TrimSpace(headSha) != ""
                && row.status == WriteLocked && lease.Some? && lease.value.token == token && !expired
              case Archive => lease.None? || expired
              case MarkMissing => true
              case RecoverDaemon =>
                lease.Some? && |lease.value.owner| >= 13
                && forall i :: 0 <= i < 13 ==> SameLetter(lease.value.owner[i], "local-daemon-"[i])
  {
    ColumnsMatchHolder(calls, w);
    hide Holder, After, Text.TrimSpace;
  }

  /** What a call that goes through writes, column by column; the lease columns are `ColumnsMatchHolder`'s. */
  lemma CallWrites(w: Workspace, request: Request, t: int)
    requires Succeeds(w, request, t)
    ensures var row := Outcome(w, request, t);
            && row.updatedAt == Millis(t)
            && row.status == (match request
                              case Acquire(_, _, _) => Preparing
                              case AcquireWrite(_, _, _) => WriteLocked
                              case AcquireRestart(_, _, _) => Preparing
                              case MarkReady(_, _, _) => Ready
                              case MarkFailed(_, _) => Failed
                              case ReleaseWrite(_, _, _) => Ready
                              case Archive => Archived
                              case MarkMissing => if w.status == Archived then Archived else Failed
                              case RecoverDaemon => if w.status == WriteLocked then Ready else w.status
                              case _ => w.status)
            && row.headSha == (if request.MarkReady? || request.ReleaseWrite? then Text.TrimSpace(request.headSha)
                               else if request.AcquireRestart? then "" else w.headSha)
            && row.dirty == (if request.MarkReady? || request.ReleaseWrite? then request.isDirty
                             else w.dirty && !request.AcquireRestart?)
    ensures var row := Outcome(w, request, t);
            && (request.AcquireRestart? || request.MarkReady? || request.ReleaseWrite? || (request.Acquire? && w.status == Failed) ==>
                  row.failureMessage.None?)
            && (request.MarkFailed? ==>
                  var text := Text.TrimSpace(request.message);
                  && (row.failureMessage.None? <==> text == "")
                  && (text != "" ==> row.failureMessage.Some? && row.failureMessage.value <= text
                                     && |row.failureMessage.value| == if |text| <= 2048 then |text| else 2048))
            && (request.MarkMissing? && w.status != Archived && w.status != Failed ==>
                  row.failureMessage == Some("workspace path is missing from managed root"))
            && (request.AcquireWrite? || request.Renew? || request.Release? || request.Archive? || request.RecoverDaemon?
                || (request.Acquire? && w.status != Failed) || (request.MarkMissing? && w.status in {Archived, Failed}) ==>
                  row.failureMessage == w.failureMessage)
  {
    hide Text.TrimSpace;
  }

  lemma PrefixOrderly(calls: seq<Call>, n: nat)
    requires Orderly(calls) && n <= |calls|
    ensures Orderly(calls[..n])
  {
  }

  /** A token that was issued and is not valid never becomes valid again. */
  lemma {:induction false} InvalidStaysInvalid(calls: seq<Call>, w: Workspace, i: nat, n: nat, token: string, t: int, later: int)
    requires Unleased(w) && Orderly(calls) && i < n <= |calls|
    requires calls[i].request.IsAcquire() && calls[i].request.token == token
    requires calls[n - 1].at <= t && (n < |calls| ==> t <= calls[n].at) && !ValidAt(calls[..n], w, token, t)
    requires t <= later && calls[|calls| - 1].at <= later
    ensures !ValidAt(calls, w, token, later)
  {
    var last := |calls| - 1;
    MillisMonotone(t, later);
    if n == |calls| {
      assert calls[..n] == calls;
    } else {
      var call := calls[last];
      assert calls[n].at <= call.at || n == last;
      PrefixOrderly(calls, last);
      assert calls[..last][..n] == calls[..n];
      InvalidStaysInvalid(calls[..last], w, i, n, token, t, call.at);
      ColumnsMatchHolder(calls[..last], w);
      MillisMonotone(call.at, later);
      if call.request.IsAcquire() {
        assert call.request.token != token;
      }
    }
  }

  /** Fencing: once another lease has been granted, no call with the older token succeeds. */
  lemma OlderTokenIsFenced(calls: seq<Call>, w: Workspace, i: nat, k: nat, request: Request, t: int)
    requires Unleased(w) && Orderly(calls) && i < k < |calls|
    requires calls[i].request.IsAcquire() && calls[k].request.IsAcquire() && SucceededAt(calls, w, k)
    requires request.Renew? || request.Release? || request.MarkReady? || request.MarkFailed? || request.ReleaseWrite?
    requires Text.TrimSpace(request.token) == request.token == calls[i].request.token
    ensures !Succeeds(After(calls, w), request, t)
  {
    ColumnsMatchHolder(calls, w);
    if Holder(calls, w).Some? {
      var granted := HolderWasGranted(calls, w);
      assert k <= granted;
    }
  }

  // ----- a workspace nobody can take -----

  /**
    Release clears the lease and leaves the status, so a WRITE_LOCKED workspace can end up
    without a lease. It then fails every acquire and every holder's call, and stays so
    until it is archived or found missing.
   */
  predicate Stranded(w: Workspace) {
    w.status.WriteLocked? && Unleased(w)
  }

  lemma StrandedUntil(w: Workspace, request: Request, t: int)
    requires Stranded(w)
    ensures Succeeds(w, request, t) <==> request.Archive? || request.MarkMissing?
  {
  }

  /** One call strands a workspace: a Release that succeeds while it is WRITE_LOCKED. */
  lemma StrandsIff(w: Workspace, request: Request, t: int)
    requires !Stranded(w)
    ensures Stranded(Outcome(w, request, t)) <==> request.Release? && Succeeds(w, request, t) && w.status.WriteLocked?
  {
  }

  /** A Release of a WRITE_LOCKED workspace succeeded at i, and nothing freed it since. */
  predicate StrandedSince(calls: seq<Call>, w: Workspace, i: nat)
    requires i < |calls|
  {
    && calls[i].request.Release? && SucceededAt(calls, w, i) && After(calls[..i], w).status.WriteLocked?
    && forall k :: i < k < |calls| ==> !calls[k].request.Archive? && !calls[k].request.MarkMissing?
  }

  lemma SinceInPrefix(calls: seq<Call>, w: Workspace, i: nat)
    requires i + 1 < |calls|
    ensures var last := calls[|calls| - 1].request;
            StrandedSince(calls, w, i) <==>
              StrandedSince(calls[..|calls| - 1], w, i) && !last.Archive? && !last.MarkMissing?
  {
    hide Succeeds, After;
    assert calls[..|calls| - 1][..i] == calls[..i];
  }

  /** Over whole runs: a workspace is stranded exactly when it was stranded by one call and nothing has freed it since. */
  lemma {:induction false} StrandedIff(calls: seq<Call>, w: Workspace)
    requires !Stranded(w)
    ensures Stranded(After(calls, w)) <==> exists i :: 0 <= i < |calls| && StrandedSince(calls, w, i)
  {
    if calls != [] {
      var n := |calls| - 1;
      var before, last := After(calls[..n], w), calls[n];
      StrandedIff(calls[..n], w);
      forall i | 0 <= i < n
        ensures StrandedSince(calls, w, i) <==>
                  StrandedSince(calls[..n], w, i) && !last.request.Archive? && !last.request.MarkMissing?
      {
        SinceInPrefix(calls, w, i);
      }
      if Stranded(before) {
        StrandedUntil(before, last.request, last.at);
        assert Stranded(After(calls, w)) <==> !last.request.Archive? && !last.request.MarkMissing?;
        assert !StrandedSince(calls, w, n);
      } else {
        StrandsIff(before, last.request, last.at);
        assert Stranded(After(calls, w)) <==> StrandedSince(calls, w, n);
      }
    }
  }

  lemma {:induction false} StrandedStays(calls: seq<Call>, w: Workspace)
    requires Stranded(w)
    requires forall i :: 0 <= i < |calls| ==> !calls[i].request.Archive? && !calls[i].request.MarkMissing?
    ensures After(calls, w) == w
  {
    if calls != [] {
      StrandedStays(calls[..|calls| - 1], w);
    }
  }

  /** Calls at the start of the clock that all succeed; and draw distinct tokens. */
  ghost predicate AllSucceed(calls: seq<Call>, w: Workspace) {
    && Orderly(calls)
    && forall i :: 0 <= i < |calls| ==> calls[i].at == 0 && SucceededAt(calls, w, i)
  }

  lemma OneMoreSucceeds(calls: seq<Call>, w: Workspace, request: Request) returns (longer: seq<Call>)
    requires AllSucceed(calls, w) && Succeeds(After(calls, w), request, 0)
    requires request.IsAcquire() ==> Text.TrimSpace(request.token) == request.token
    requires request.IsAcquire() ==>
               forall i :: 0 <= i < |calls| && calls[i].request.IsAcquire() ==> calls[i].request.token != request.token
    ensures longer == calls + [Call(request, 0)] && AllSucceed(longer, w)
    ensures After(longer, w) == Updated(After(calls, w), request, 0)
  {
    hide Succeeds, Updated;
    longer := calls + [Call(request, 0)];
    assert longer[..|calls|] == calls;
    forall i | 0 <= i < |longer|
      ensures longer[i].at == 0 && SucceededAt(longer, w, i)
    {
      assert i < |calls| ==> SucceededAt(calls, w, i);
      assert longer[..i] == calls[..i];
    }
  }

  /** A new workspace is prepared and given back. */
  lemma PreparedWorkspace(w: Workspace) returns (calls: seq<Call>)
    requires w == FreshRow(0)
    ensures |calls| == 3 && AllSucceed(calls, w) && After(calls, w).status.Ready? && Unleased(After(calls, w))
    ensures forall i :: 0 <= i < |calls| && calls[i].request.IsAcquire() ==> calls[i].request.token == "1"
  {
    hide Text.TrimSpace, Text.TrimLeft, Text.TrimRight, AllSucceed, After;
    OneLetter("o");
    OneLetter("1");
    OneLetter("h");
    var none := NothingCalled(w);
    var prepared := OneMoreSucceeds(none, w, Acquire("o", "1", 1_000_000_000));
    var ready := OneMoreSucceeds(prepared, w, MarkReady("1", "h", false));
    calls := OneMoreSucceeds(ready, w, Release("1"));
  }

  /** Two more calls strand it: write-locked, and released without ReleaseWrite. */
  lemma StrandedWorkspaceExists() returns (calls: seq<Call>)
    ensures Unleased(FreshRow(0)) && Orderly(calls) && Stranded(After(calls, FreshRow(0)))
    ensures forall i :: 0 <= i < |calls| ==> SucceededAt(calls, FreshRow(0), i)
  {
    var free := PreparedWorkspace(FreshRow(0));
    hide Text.TrimSpace, Text.TrimLeft, Text.TrimRight, After;
    OneLetter("o");
    OneLetter("2");
    var locked := OneMoreSucceeds(free, FreshRow(0), AcquireWrite("o", "2", 1_000_000_000));
    calls := OneMoreSucceeds(locked, FreshRow(0), Release("2"));
  }

  lemma NothingCalled(w: Workspace) returns (calls: seq<Call>)
    ensures calls == [] && AllSucceed(calls, w) && After(calls, w) == w
  {
    calls := [];
  }

  lemma OneLetter(s: string)
    requires |s| == 1 && !Text.IsSpace(s[0])
    ensures Text.TrimSpace(s) == s
  {
    assert Text.TrimLeft(s, Text.IsSpace) == s;
    assert Text.TrimRight(s, Text.IsSpace) == s;
  }

  /** Otherwise somebody can take it: an unarchived workspace is takeable by a restart once no lease is valid. */
  lemma TakeableUnlessStranded(calls: seq<Call>, w: Workspace, owner: string, token: string, ttl: int, t: int)
    requires Unleased(w) && IsValid(AcquireRestart(owner, token, ttl))
    requires Holder(calls, w).Some? ==> !ValidAt(calls, w, Holder(calls, w).value.token, t)
    ensures Succeeds(After(calls, w), AcquireRestart(owner, token, ttl), t)
            <==> !After(calls, w).status.Archived? && !Stranded(After(calls, w))
  {
    ColumnsMatchHolder(calls, w);
  }
}
