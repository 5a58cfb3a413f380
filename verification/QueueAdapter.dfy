/** The queue adapter's operations, each run as one transaction over the outbox table. */
module QueueAdapter {
  import opened Counting
  import opened Integers
  import opened Wrappers
  import opened LeaseBudget
  import opened Poller
  import opened TaskQueue

  datatype QueueError = InvalidLeaseDuration | InvalidLimit | InvalidRetryDelay | UndecodableRow | StorageFailure

  /** A statement or the commit may fail, and the reply to a commit that succeeded may be lost. */
  datatype Storage = Answers | Fails | LosesReply

  datatype FailureCause = AttemptLimitReached | PermanentRejection | LeaseExpired

  datatype Failure = Failure(id: RowId, format: Format, attempt: nat, cause: FailureCause)

  datatype SettlementResult = TaskCompleted | RetryScheduled | TaskFailed(failure: Failure) | OwnershipLost

  datatype RecoveryReport = RecoveryReport(retried: nat, failures: seq<Failure>)

  // ---------- Settlement parameters and result ----------

  datatype Parameters = Parameters(status: Status, delay: nat, cause: Option<FailureCause>)

  function SettlementParameters(request: SettlementRequest): Parameters {
    match request
    case Complete => Parameters(Completed, 0, None)
    case Retry(delay) => Parameters(Pending, delay, Some(AttemptLimitReached))
    case Fail => Parameters(Failed, 0, Some(PermanentRejection))
  }

  /** The UPDATE as written, over the requested status. */
  function SettleUpdate(row: Row, parameters: Parameters, started: Time): Row {
    var requested := parameters.status;
    row.(
      status := if requested == Pending && row.attempts >= row.maxAttempts then Failed else requested,
      availableAt := if requested == Pending && row.attempts < row.maxAttempts then started + parameters.delay else row.availableAt,
      finishedAt := if requested != Pending || row.attempts >= row.maxAttempts then Some(started) else None,
      lockedBy := None, lockToken := None, lockedUntil := None)
  }

  /** The statement settles every field as the request asks. */
  lemma UpdateSettles(row: Row, request: SettlementRequest, started: Time)
    ensures SettledAs(row, SettleUpdate(row, SettlementParameters(request), started), request, started)
    ensures SettleUpdate(row, SettlementParameters(request), started) == SettledRow(row, request, started)
  {
  }

  function ResultOf(id: RowId, row: Row, status: Option<Status>, cause: Option<FailureCause>)
    : Result<SettlementResult, QueueError>
  {
    match status
    case None => Ok(OwnershipLost)
    case Some(Completed) => Ok(TaskCompleted)
    case Some(Pending) => Ok(RetryScheduled)
    case Some(Failed) =>
      if cause.None? then Err(UndecodableRow) else Ok(TaskFailed(Failure(id, row.format, row.attempts, cause.value)))
    case Some(Processing) => Err(UndecodableRow)
  }

  /** The retry delay, if any, fits the statement's parameter. */
  predicate Convertible(request: SettlementRequest) {
    request.Retry? ==> request.delay / MILLISECOND <= I64_MAX
  }

  /** The row is leased under this token and the lease has not expired at the time of the check. */
  predicate Owned(rows: map<RowId, Row>, id: RowId, token: Token, checkedAt: Time) {
    && id in rows
    && rows[id].lockToken == Some(token)
    && rows[id].lockedUntil.Some?
    && checkedAt < rows[id].lockedUntil.value
  }

  /** One legal change of one row. */
  predicate SettledOnly(before: map<RowId, Row>, after: map<RowId, Row>, id: RowId, cause: Cause) {
    && after.Keys == before.Keys
    && id in before
    && (forall other :: other in before && other != id ==> after[other] == before[other])
    && Legal(Change(cause, before[id], after[id]))
  }

  /** The result by request and row: a retry without attempts left is a failure, and a failure says which task failed and why. */
  function Reported(id: RowId, before: Row, request: SettlementRequest): SettlementResult {
    match request
    case Complete => TaskCompleted
    case Retry(_) =>
      if before.attempts < before.maxAttempts then RetryScheduled
      else TaskFailed(Failure(id, before.format, before.attempts, AttemptLimitReached))
    case Fail => TaskFailed(Failure(id, before.format, before.attempts, PermanentRejection))
  }

  // ---------- Selections made by the two SELECTs ----------

  ghost predicate Ready(rows: map<RowId, Row>, selected: seq<RowId>, format: Format, limit: nat, now: Time) {
    && |selected| <= limit
    && Unique(selected)
    && (forall i :: 0 <= i < |selected| ==>
          && selected[i] in rows
          && rows[selected[i]].status == Pending
          && rows[selected[i]].format == format
          && rows[selected[i]].availableAt <= now)
  }

  ghost predicate Expired(rows: map<RowId, Row>, selected: seq<RowId>, limit: nat, selectedAt: Time) {
    && |selected| <= limit
    && Unique(selected)
    && (forall i :: 0 <= i < |selected| ==>
          && selected[i] in rows
          && rows[selected[i]].status == Processing
          && rows[selected[i]].lockedUntil.Some?
          && rows[selected[i]].lockedUntil.value <= selectedAt)
  }

  // ---------- The recovery report ----------

  /** The failure names this failed row, its format and its attempts. */
  predicate Names(failure: Failure, rows: map<RowId, Row>, id: RowId) {
    id in rows && rows[id].status == Failed && failure == Failure(id, rows[id].format, rows[id].attempts, LeaseExpired)
  }

  /** `picks` are the places, in order, of the failed rows among the first `n` selected ones; each has its failure. */
  ghost predicate Picked(rows: map<RowId, Row>, selected: seq<RowId>, n: nat, failures: seq<Failure>, picks: seq<nat>)
    requires n <= |selected|
  {
    && |picks| == |failures|
    && (forall k :: 0 <= k < |picks| ==> picks[k] < n && Names(failures[k], rows, selected[picks[k]]))
    && (forall j, k :: 0 <= j < k < |picks| ==> picks[j] < picks[k])
    && (forall i :: 0 <= i < n && selected[i] in rows && rows[selected[i]].status == Failed ==> i in picks)
  }

  /** The failures are those of the failed rows among the first `n` selected ones, one each, in selection order. */
  ghost predicate FailuresListed(rows: map<RowId, Row>, selected: seq<RowId>, n: nat, failures: seq<Failure>)
    requires n <= |selected|
  {
    exists picks :: Picked(rows, selected, n, failures, picks)
  }

  ghost function PendingAmong(rows: map<RowId, Row>, selected: seq<RowId>, n: nat): set<RowId>
    requires n <= |selected|
  {
    set i | 0 <= i < n && selected[i] in rows && rows[selected[i]].status == Pending :: selected[i]
  }

  lemma PickedStill(rows: map<RowId, Row>, selected: seq<RowId>, n: nat, failures: seq<Failure>, picks: seq<nat>, row: Row)
    requires n < |selected| && Unique(selected) && Picked(rows, selected, n, failures, picks)
    ensures Picked(rows[selected[n] := row], selected, n, failures, picks)
  {
    forall k | 0 <= k < |picks|
      ensures Names(failures[k], rows[selected[n] := row], selected[picks[k]])
    {
      assert Names(failures[k], rows, selected[picks[k]]) && selected[picks[k]] != selected[n];
    }
  }

  lemma PickNext(rows: map<RowId, Row>, selected: seq<RowId>, n: nat, failures: seq<Failure>, picks: seq<nat>, failure: Failure)
    requires n < |selected| && Picked(rows, selected, n, failures, picks) && Names(failure, rows, selected[n])
    ensures Picked(rows, selected, n + 1, failures + [failure], picks + [n])
  {
  }

  lemma PickNone(rows: map<RowId, Row>, selected: seq<RowId>, n: nat, failures: seq<Failure>, picks: seq<nat>)
    requires n < |selected| && Picked(rows, selected, n, failures, picks)
    requires selected[n] in rows && rows[selected[n]].status != Failed
    ensures Picked(rows, selected, n + 1, failures, picks)
  {
  }

  lemma OneMorePicked(rows: map<RowId, Row>, selected: seq<RowId>, n: nat, failures: seq<Failure>, row: Row)
    requires n < |selected| && Unique(selected) && FailuresListed(rows, selected, n, failures)
    ensures var id := selected[n];
      FailuresListed(rows[id := row], selected, n + 1,
                     if row.status == Failed then failures + [Failure(id, row.format, row.attempts, LeaseExpired)] else failures)
  {
    var id := selected[n];
    var picks :| Picked(rows, selected, n, failures, picks);
    PickedStill(rows, selected, n, failures, picks, row);
    if row.status == Failed {
      PickNext(rows[id := row], selected, n, failures, picks, Failure(id, row.format, row.attempts, LeaseExpired));
    } else {
      PickNone(rows[id := row], selected, n, failures, picks);
    }
  }

  lemma OneMorePending(rows: map<RowId, Row>, selected: seq<RowId>, n: nat, row: Row)
    requires n < |selected| && Unique(selected)
    ensures PendingAmong(rows[selected[n] := row], selected, n + 1) ==
      PendingAmong(rows, selected, n) + if row.status == Pending then {selected[n]} else {}
    ensures selected[n] !in PendingAmong(rows, selected, n)
  {
    var rows' := rows[selected[n] := row];
    forall i | 0 <= i < n
      ensures selected[i] != selected[n]
    {
    }
    assert PendingAmong(rows', selected, n + 1) ==
      PendingAmong(rows, selected, n) + if row.status == Pending then {selected[n]} else {};
  }

  /** The tables agree except on the first `n` selected rows. */
  ghost predicate ChangedOnly(before: map<RowId, Row>, after: map<RowId, Row>, selected: seq<RowId>, n: nat)
    requires n <= |selected|
  {
    && after.Keys == before.Keys
    && (forall id :: id in before && id !in selected[..n] ==> after[id] == before[id])
  }

  /** The first `n` selected rows have been recovered, and the exhausted ones among them could be decoded. */
  ghost predicate RecoveredUpTo(before: map<RowId, Row>, after: map<RowId, Row>, selected: seq<RowId>, at: seq<Time>,
                                delays: seq<nat>, decodable: set<RowId>, n: nat)
    requires n <= |selected| == |at| == |delays|
  {
    forall j :: 0 <= j < n ==>
      && selected[j] in before
      && selected[j] in after
      && (Exhausted(before[selected[j]]) ==> selected[j] in decodable)
      && RecoveredAs(before[selected[j]], after[selected[j]], at[j], delays[j])
  }

  lemma RecoverOneMore(before: map<RowId, Row>, after: map<RowId, Row>, selected: seq<RowId>, at: seq<Time>,
                       delays: seq<nat>, decodable: set<RowId>, n: nat)
    requires n < |selected| == |at| == |delays| && Unique(selected) && selected[n] in before
    requires RecoveredUpTo(before, after, selected, at, delays, decodable, n) && ChangedOnly(before, after, selected, n)
    ensures selected[n] in after && after[selected[n]] == before[selected[n]]
    ensures var after' := after[selected[n] := RecoveredRow(before[selected[n]], at[n], delays[n])];
      && ((Exhausted(before[selected[n]]) ==> selected[n] in decodable) ==>
            RecoveredUpTo(before, after', selected, at, delays, decodable, n + 1))
      && ChangedOnly(before, after', selected, n + 1)
  {
    assert selected[n] !in selected[..n];
    assert selected[..n + 1] == selected[..n] + [selected[n]];
  }

  /** Every selected row went through exactly one legal recovery. */
  ghost predicate AllRecovered(before: map<RowId, Row>, after: map<RowId, Row>, selected: seq<RowId>, at: seq<Time>,
                               delays: seq<nat>, selectedAt: Time)
    requires |selected| == |at| == |delays|
  {
    forall i :: 0 <= i < |selected| ==>
      && selected[i] in before
      && selected[i] in after
      && Legal(Change(ByRecovery(selectedAt, at[i], delays[i]), before[selected[i]], after[selected[i]]))
  }

  lemma RecoveredAreLegal(before: map<RowId, Row>, after: map<RowId, Row>, selected: seq<RowId>, at: seq<Time>,
                          delays: seq<nat>, decodable: set<RowId>, limit: nat, selectedAt: Time)
    requires |selected| == |at| == |delays| && Expired(before, selected, limit, selectedAt)
    requires RecoveredUpTo(before, after, selected, at, delays, decodable, |selected|)
    requires forall i :: 0 <= i < |selected| ==> selectedAt <= at[i]
    ensures AllRecovered(before, after, selected, at, delays, selectedAt)
  {
  }

  /** Every selected row is reported as failed or is pending again. */
  ghost predicate Accounted(rows: map<RowId, Row>, selected: seq<RowId>, n: nat, failures: seq<Failure>)
    requires n <= |selected|
  {
    FailuresListed(rows, selected, n, failures) && |PendingAmong(rows, selected, n)| + |failures| == n
  }

  lemma NothingReported(rows: map<RowId, Row>, selected: seq<RowId>)
    ensures Accounted(rows, selected, 0, [])
  {
    assert Picked(rows, selected, 0, [], []);
  }

  lemma OneMoreAccounted(rows: map<RowId, Row>, selected: seq<RowId>, n: nat, failures: seq<Failure>, row: Row, at: Time, delay: nat)
    requires n < |selected| && Unique(selected) && Accounted(rows, selected, n, failures)
    ensures var rows' := rows[selected[n] := RecoveredRow(row, at, delay)];
      if Exhausted(row)
      then Accounted(rows', selected, n + 1, failures + [Failure(selected[n], row.format, row.attempts, LeaseExpired)])
      else Accounted(rows', selected, n + 1, failures)
  {
    OneMorePicked(rows, selected, n, failures, RecoveredRow(row, at, delay));
    OneMorePending(rows, selected, n, RecoveredRow(row, at, delay));
  }

  /**
   * The recovery loop inside its transaction; `None` when a failed row cannot be reported. The report
   * lists exactly the rows that failed, and the rest is pending again.
   */
  method RecoverRows(before: map<RowId, Row>, selected: seq<RowId>, at: seq<Time>, delays: seq<nat>, decodable: set<RowId>)
    returns (r: Option<map<RowId, Row>>, failed: seq<Failure>)
    requires |selected| == |at| == |delays| && Unique(selected) && forall i :: 0 <= i < |selected| ==> selected[i] in before
    ensures r.None? <==> exists i :: 0 <= i < |selected| && Exhausted(before[selected[i]]) && selected[i] !in decodable
    ensures r.Some? ==>
      && ChangedOnly(before, r.value, selected, |selected|)
      && RecoveredUpTo(before, r.value, selected, at, delays, decodable, |selected|)
      && Accounted(r.value, selected, |selected|, failed)
  {
    var updated := before;
    failed := [];
    NothingReported(before, selected);
    for i := 0 to |selected|
      invariant ChangedOnly(before, updated, selected, i)
      invariant RecoveredUpTo(before, updated, selected, at, delays, decodable, i)
      invariant Accounted(updated, selected, i, failed)
    {
      var id := selected[i];
      RecoverOneMore(before, updated, selected, at, delays, decodable, i);
      OneMoreAccounted(updated, selected, i, failed, updated[id], at[i], delays[i]);
      if before[id].attempts >= before[id].maxAttempts {
        if id !in decodable {
          assert Exhausted(before[selected[i]]);
          return None, failed;
        }
        failed := failed + [Failure(id, before[id].format, before[id].attempts, LeaseExpired)];
      }
      updated := updated[id := RecoveredRow(updated[id], at[i], delays[i])];
    }
    return Some(updated), failed;
  }

  /** The row went through one legal claim. */
  predicate ClaimedOnce(before: map<RowId, Row>, after: map<RowId, Row>, id: RowId, token: Token, owner: string, now: Time,
                        stored: nat)
  {
    id in before && id in after && Legal(Change(ByClaim(owner, token, now, stored), before[id], after[id]))
  }

  /** The first `n` selected rows went through one legal claim each, with its own token, and no other row changed. */
  ghost predicate AllClaimed(before: map<RowId, Row>, after: map<RowId, Row>, selected: seq<RowId>, tokens: seq<Token>,
                             owner: string, now: Time, stored: nat, n: nat)
    requires n <= |selected| == |tokens|
  {
    && ChangedOnly(before, after, selected, n)
    && (forall i :: 0 <= i < n ==> ClaimedOnce(before, after, selected[i], tokens[i], owner, now, stored))
  }

  lemma ClaimOneMore(before: map<RowId, Row>, after: map<RowId, Row>, selected: seq<RowId>, tokens: seq<Token>,
                     owner: string, now: Time, stored: nat, n: nat)
    requires n < |selected| == |tokens| && Unique(selected) && AllClaimed(before, after, selected, tokens, owner, now, stored, n)
    requires stored > 0 && selected[n] in before && before[selected[n]].status == Pending && before[selected[n]].availableAt <= now
    ensures AllClaimed(before, after[selected[n] := ClaimedRow(before[selected[n]], owner, tokens[n], now + stored)], selected,
                       tokens, owner, now, stored, n + 1)
  {
    var after' := after[selected[n] := ClaimedRow(before[selected[n]], owner, tokens[n], now + stored)];
    assert selected[..n + 1] == selected[..n] + [selected[n]];
    forall i | 0 <= i < n + 1
      ensures ClaimedOnce(before, after', selected[i], tokens[i], owner, now, stored)
    {
      if i < n {
        assert ClaimedOnce(before, after, selected[i], tokens[i], owner, now, stored) && selected[i] != selected[n];
      }
    }
  }

  /** The claimed rows converted to deliveries; `None` when one of them cannot be decoded. */
  method ClaimRows(before: map<RowId, Row>, format: Format, owner: string, limit: nat, deadline: Instant, anchor: Instant,
                   now: Time, stored: nat, selected: seq<RowId>, tokens: seq<Token>, decodable: set<RowId>)
    returns (r: Option<map<RowId, Row>>, tasks: seq<LeasedTask>)
    requires Ready(before, selected, format, limit, now) && |tokens| == |selected| && stored > 0
    ensures r.Some? <==> forall i :: 0 <= i < |selected| ==> selected[i] in decodable
    ensures r.Some? ==> AllClaimed(before, r.value, selected, tokens, owner, now, stored, |selected|)
    ensures r.Some? ==>
      |tasks| == |selected| && forall i :: 0 <= i < |tasks| ==> tasks[i] == LeasedTask(selected[i], tokens[i], anchor, deadline)
  {
    var updated := before;
    tasks := [];
    for i := 0 to |selected|
      invariant AllClaimed(before, updated, selected, tokens, owner, now, stored, i)
      invariant forall j :: 0 <= j < i ==> selected[j] in decodable
      invariant |tasks| == i && forall j :: 0 <= j < i ==> tasks[j] == LeasedTask(selected[j], tokens[j], anchor, deadline)
    {
      var id := selected[i];
      if id !in decodable {
        return None, tasks;
      }
      ClaimOneMore(before, updated, selected, tokens, owner, now, stored, i);
      updated := updated[id := ClaimedRow(before[id], owner, tokens[i], now + stored)];
      tasks := tasks + [LeasedTask(id, tokens[i], anchor, deadline)];
    }
    return Some(updated), tasks;
  }

  /** What a claim demands of its arguments. */
  predicate Claimable(limit: nat, lease: Duration, localNow: Instant, maxInstant: Instant) {
    && MILLISECOND <= lease
    && lease / MILLISECOND <= I64_MAX
    && localNow + lease <= maxInstant
    && limit <= I64_MAX
  }

  lemma LeaseIsPositive(lease: Duration, stored: nat)
    requires StoredLease(lease, stored) && lease >= MILLISECOND
    ensures stored > 0
  {
  }

  class TaskTable {
    var rows: map<RowId, Row>

    constructor ()
      ensures rows == map[]
    {
      rows := map[];
    }

    /**
     * `selected` is what the ready query picked, `tokens` what the database generated, `decodable` the
     * rows whose stored payload and metadata are JSON objects. After a lost reply the rows are claimed
     * although the caller sees a failure.
     */
    method Claim(format: Format, owner: string, limit: nat, lease: Duration, localNow: Instant, maxInstant: Instant,
                 now: Time, stored: nat, selected: seq<RowId>, tokens: seq<Token>, decodable: set<RowId>, storage: Storage)
      returns (r: Result<seq<LeasedTask>, QueueError>)
      requires Ready(rows, selected, format, limit, now) && |tokens| == |selected| && StoredLease(lease, stored)
      modifies this
      ensures var fine := Claimable(limit, lease, localNow, maxInstant) && forall i :: 0 <= i < |selected| ==> selected[i] in decodable;
        && (r.Ok? <==> fine && storage.Answers?)
        && (if fine && !storage.Fails? then AllClaimed(old(rows), rows, selected, tokens, owner, now, stored, |selected|)
            else rows == old(rows))
      ensures r == Err(InvalidLimit) <==> MILLISECOND <= lease && localNow + lease <= maxInstant && limit > I64_MAX
      ensures r == Err(QueueError.InvalidLeaseDuration) <==>
        || lease < MILLISECOND
        || localNow + lease > maxInstant
        || (limit <= I64_MAX && lease / MILLISECOND > I64_MAX)
      ensures r.Ok? ==>
        && |r.value| == |selected|
        && forall i :: 0 <= i < |selected| ==> r.value[i] == LeasedTask(selected[i], tokens[i], localNow, localNow + lease)
    {
      if lease / MILLISECOND == 0 || localNow + lease > maxInstant {
        return Err(QueueError.InvalidLeaseDuration);
      }
      if limit > I64_MAX {
        return Err(InvalidLimit);
      }
      if lease / MILLISECOND > I64_MAX {
        return Err(QueueError.InvalidLeaseDuration);
      }
      LeaseIsPositive(lease, stored);
      var updated, tasks := ClaimRows(rows, format, owner, limit, localNow + lease, localNow, now, stored, selected, tokens, decodable);
      if storage.Fails? {
        return Err(StorageFailure);
      }
      if updated.None? {
        return Err(UndecodableRow);
      }
      rows := updated.value;
      return if storage.LosesReply? then Err(StorageFailure) else Ok(tasks);
    }

    /** The row lock is taken first; `checkedAt` is the clock read after it. */
    method Settle(id: RowId, token: Token, request: SettlementRequest, started: Time, lockedAt: Time, checkedAt: Time,
                  storage: Storage)
      returns (r: Result<SettlementResult, QueueError>)
      requires started <= lockedAt <= checkedAt && forall id :: id in rows ==> Valid(rows[id])
      modifies this
      ensures r.Ok? <==> Convertible(request) && storage.Answers?
      ensures if Convertible(request) && !storage.Fails? && Owned(old(rows), id, token, checkedAt)
              then SettledOnly(old(rows), rows, id, BySettlement(token, request, started, lockedAt, checkedAt))
              else rows == old(rows)
      ensures r.Ok? ==>
        r.value == if Owned(old(rows), id, token, checkedAt) then Reported(id, old(rows)[id], request) else OwnershipLost
      ensures r == Err(InvalidRetryDelay) <==> !Convertible(request)
    {
      var parameters := SettlementParameters(request);
      if parameters.delay / MILLISECOND > I64_MAX {
        return Err(InvalidRetryDelay);
      }
      if storage.Fails? {
        return Err(StorageFailure);
      }
      var status := None;
      var before := if id in rows then rows[id] else NewRow(Format("", 0), 1, 0);
      if id in rows && before.lockToken == Some(token) && before.status == Processing {
        if before.lockedUntil.Some? && before.lockedUntil.value > checkedAt {
          UpdateSettles(before, request, started);
          rows := rows[id := SettleUpdate(before, parameters, started)];
          status := Some(rows[id].status);
        }
      }
      r := if storage.LosesReply? then Err(StorageFailure) else ResultOf(id, before, status, parameters.cause);
    }

    /**
     * `selected` is what the expiry query picked; row `i` is updated at `at[i]` with the redelivery
     * backoff `delays[i]`, which is always small enough to convert. `decodable` are the rows whose
     * stored format is valid.
     */
    method RecoverExpired(limit: nat, selectedAt: Time, selected: seq<RowId>, at: seq<Time>, delays: seq<nat>,
                          decodable: set<RowId>, storage: Storage)
      returns (r: Result<RecoveryReport, QueueError>)
      requires Expired(rows, selected, limit, selectedAt) && |at| == |delays| == |selected|
      requires forall i :: 0 <= i < |selected| ==> selectedAt <= at[i]
      modifies this
      ensures var fine := limit <= I64_MAX &&
                forall i :: 0 <= i < |selected| && Exhausted(old(rows)[selected[i]]) ==> selected[i] in decodable;
        && (r.Ok? <==> fine && storage.Answers?)
        && (if fine && !storage.Fails?
            then ChangedOnly(old(rows), rows, selected, |selected|) && AllRecovered(old(rows), rows, selected, at, delays, selectedAt)
            else rows == old(rows))
      ensures r.Ok? ==>
        && FailuresListed(rows, selected, |selected|, r.value.failures)
        && r.value.retried == |PendingAmong(rows, selected, |selected|)|
      ensures r == Err(InvalidLimit) <==> limit > I64_MAX
    {
      if limit > I64_MAX {
        return Err(InvalidLimit);
      }
      var updated, failed := RecoverRows(rows, selected, at, delays, decodable);
      if storage.Fails? {
        return Err(StorageFailure);
      }
      if updated.None? {
        return Err(UndecodableRow);
      }
      RecoveredAreLegal(rows, updated.value, selected, at, delays, decodable, limit, selectedAt);
      rows := updated.value;
      return if storage.LosesReply? then Err(StorageFailure) else Ok(RecoveryReport(|selected| - |failed|, failed));
    }
  }
}
