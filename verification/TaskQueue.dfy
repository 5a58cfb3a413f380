/**
 * The durable task queue: outbox rows, the changes that claim, settlement, recovery and manual
 * requeue make to them, and the interleavings of their transactions.
 */
module TaskQueue {
  import opened Wrappers

  type RowId = nat
  type Token = nat
  type TxId = nat
  /** The database clock; every SQL time function reads it. */
  type Time = nat

  datatype Format = Format(taskType: string, taskVersion: nat)

  datatype Status = Pending | Processing | Completed | Failed

  datatype Row = Row(
    format: Format,
    status: Status,
    attempts: nat,
    maxAttempts: nat,
    availableAt: Time,
    finishedAt: Option<Time>,
    lockedBy: Option<string>,
    lockToken: Option<Token>,
    lockedUntil: Option<Time>
  )

  /** The CHECK constraints of the outbox table. */
  predicate Valid(row: Row) {
    && row.maxAttempts > 0
    && row.attempts <= row.maxAttempts
    && (row.status == Processing <==> row.lockedBy.Some?)
    && (row.status == Processing <==> row.lockToken.Some?)
    && (row.status == Processing <==> row.lockedUntil.Some?)
    && (row.finishedAt.Some? <==> row.status == Completed || row.status == Failed)
    && (row.status == Pending ==> row.attempts < row.maxAttempts)
  }

  datatype SettlementRequest = Complete | Retry(delay: nat) | Fail

  // ---------- Row updates ----------

  function NewRow(format: Format, maxAttempts: nat, availableAt: Time): Row {
    Row(format, Pending, 0, maxAttempts, availableAt, None, None, None, None)
  }

  function ClaimedRow(row: Row, owner: string, token: Token, until: Time): Row {
    row.(status := Processing, attempts := row.attempts + 1, lockedBy := Some(owner), lockToken := Some(token),
         lockedUntil := Some(until))
  }

  function Released(row: Row): Row {
    row.(lockedBy := None, lockToken := None, lockedUntil := None)
  }

  predicate Exhausted(row: Row) {
    row.attempts >= row.maxAttempts
  }

  /** `started` is the statement timestamp, which precedes any wait for the row lock. */
  function SettledRow(row: Row, request: SettlementRequest, started: Time): Row {
    var retries := request.Retry? && !Exhausted(row);
    Released(row).(
      status := if request.Complete? then Completed else if retries then Pending else Failed,
      availableAt := if retries then started + request.delay else row.availableAt,
      finishedAt := if retries then None else Some(started))
  }

  function RecoveredRow(row: Row, now: Time, delay: nat): Row {
    Released(row).(
      status := if Exhausted(row) then Failed else Pending,
      availableAt := now + delay,
      finishedAt := if Exhausted(row) then Some(now) else None)
  }

  function RequeuedRow(row: Row, now: Time): Row {
    Released(row).(status := Pending, attempts := 0, availableAt := now, finishedAt := None)
  }

  // ---------- What an update does, field by field ----------

  predicate SameTask(before: Row, after: Row) {
    after.format == before.format && after.maxAttempts == before.maxAttempts
  }

  predicate Unleased(row: Row) {
    row.lockedBy == None && row.lockToken == None && row.lockedUntil == None
  }

  predicate ClaimedAs(before: Row, after: Row, owner: string, token: Token, until: Time) {
    && SameTask(before, after)
    && after.status == Processing
    && after.attempts == before.attempts + 1
    && after.availableAt == before.availableAt
    && after.finishedAt == before.finishedAt
    && after.lockedBy == Some(owner)
    && after.lockToken == Some(token)
    && after.lockedUntil == Some(until)
  }

  /** A retry with attempts left makes the row pending again after its delay; without, it fails the task. */
  predicate SettledAs(before: Row, after: Row, request: SettlementRequest, started: Time) {
    && SameTask(before, after)
    && Unleased(after)
    && after.attempts == before.attempts
    && (after.status == Completed <==> request.Complete?)
    && (after.status == Pending <==> request.Retry? && before.attempts < before.maxAttempts)
    && (after.status == Failed <==> request.Fail? || (request.Retry? && before.attempts >= before.maxAttempts))
    && after.availableAt == (if request.Retry? && after.status == Pending then started + request.delay else before.availableAt)
    && after.finishedAt == (if after.status == Pending then None else Some(started))
  }

  /** A lost lease makes the row pending again after the delay, or fails the task when no attempt is left. */
  predicate RecoveredAs(before: Row, after: Row, now: Time, delay: nat) {
    && SameTask(before, after)
    && Unleased(after)
    && after.attempts == before.attempts
    && after.status == (if before.attempts < before.maxAttempts then Pending else Failed)
    && after.availableAt == now + delay
    && after.finishedAt == (if before.attempts < before.maxAttempts then None else Some(now))
  }

  /** A requeued task starts over with all its attempts. */
  predicate RequeuedAs(before: Row, after: Row, now: Time) {
    && SameTask(before, after)
    && Unleased(after)
    && after.attempts == 0
    && after.status == Pending
    && after.availableAt == now
    && after.finishedAt == None
  }

  // ---------- Changes ----------

  datatype Cause =
    | ByClaim(owner: string, token: Token, at: Time, lease: nat)
    | BySettlement(token: Token, request: SettlementRequest, started: Time, lockedAt: Time, checkedAt: Time)
    | ByRecovery(selectedAt: Time, updatedAt: Time, delay: nat)
    | ByRequeue(at: Time)

  datatype Change = Change(cause: Cause, before: Row, after: Row)

  /**
   * The only ways a row ever changes. A settlement needs the row's current token and an expiry later
   * than a clock reading taken after the row lock; a recovery needs an expiry already passed.
   */
  predicate Legal(change: Change) {
    var before, after := change.before, change.after;
    match change.cause
    case ByClaim(owner, token, at, lease) =>
      && before.status == Pending
      && before.availableAt <= at
      && lease > 0
      && ClaimedAs(before, after, owner, token, at + lease)
    case BySettlement(token, request, started, lockedAt, checkedAt) =>
      && before.status == Processing
      && before.lockToken == Some(token)
      && started <= lockedAt <= checkedAt
      && before.lockedUntil.Some?
      && checkedAt < before.lockedUntil.value
      && SettledAs(before, after, request, started)
    case ByRecovery(selectedAt, updatedAt, delay) =>
      && before.status == Processing
      && before.lockedUntil.Some?
      && before.lockedUntil.value <= selectedAt <= updatedAt
      && RecoveredAs(before, after, updatedAt, delay)
    case ByRequeue(at) =>
      && before.status == Failed
      && RequeuedAs(before, after, at)
  }

  /** Decreases on every change except a manual requeue. */
  function Measure(row: Row): nat
    requires row.attempts <= row.maxAttempts
  {
    match row.status
    case Pending => 2 * (row.maxAttempts - row.attempts)
    case Processing => 2 * (row.maxAttempts - row.attempts) + 1
    case _ => 0
  }

  // ---------- Transactions ----------

  datatype Stage =
    | Claiming
    | Waiting(id: RowId, token: Token, request: SettlementRequest, started: Time)
    | Locked(id: RowId, token: Token, request: SettlementRequest, started: Time, lockedAt: Time)
    | Settled
    | Recovering(selectedAt: Time)

  /** Row locks held and changes made, both until commit or rollback. */
  datatype Tx = Tx(locks: set<RowId>, changes: map<RowId, Change>, stage: Stage)

  /** `granted` remembers which row each generated token was for; `log` is every committed change. */
  datatype Queue = Queue(
    rows: map<RowId, Row>,
    clock: Time,
    txs: map<TxId, Tx>,
    granted: map<Token, RowId>,
    log: seq<map<RowId, Change>>
  )

  predicate Unlocked(q: Queue, id: RowId) {
    forall tx :: tx in q.txs ==> id !in q.txs[tx].locks
  }

  datatype Step =
    | Tick(elapsed: nat)
    | Publish(id: RowId, format: Format, maxAttempts: nat, availableAt: Time)
    | Claim(tx: TxId, format: Format, owner: string, limit: nat, lease: nat, tokens: map<RowId, Token>, grants: map<Token, RowId>)
    | SettleBegin(tx: TxId, id: RowId, token: Token, request: SettlementRequest)
    | SettleLock(tx: TxId)
    | SettleCheck(tx: TxId)
    | RecoverSelect(tx: TxId, ids: set<RowId>)
    | RecoverUpdate(tx: TxId, id: RowId, delay: nat)
    | Commit(tx: TxId)
    | Rollback(tx: TxId)
    | Requeue(id: RowId)

  /** The same pairs by row and by token, so that no two rows share a token. */
  predicate Paired(tokens: map<RowId, Token>, grants: map<Token, RowId>) {
    && (forall id :: id in tokens ==> tokens[id] in grants && grants[tokens[id]] == id)
    && (forall token :: token in grants ==> grants[token] in tokens && tokens[grants[token]] == token)
  }

  /** `SKIP LOCKED` over ready rows, with a fresh random token for each row taken. */
  predicate CanClaim(q: Queue, format: Format, limit: nat, lease: nat, tokens: map<RowId, Token>, grants: map<Token, RowId>) {
    && |tokens| <= limit
    && lease > 0
    && (forall id :: id in tokens ==>
          && id in q.rows
          && Unlocked(q, id)
          && q.rows[id].status == Pending
          && q.rows[id].format == format
          && q.rows[id].availableAt <= q.clock
          && tokens[id] !in q.granted)
    && Paired(tokens, grants)
  }

  predicate CanSelect(q: Queue, ids: set<RowId>) {
    forall id :: id in ids ==>
      && id in q.rows
      && Unlocked(q, id)
      && q.rows[id].status == Processing
      && q.rows[id].lockedUntil.Some?
      && q.rows[id].lockedUntil.value <= q.clock
  }

  function ClaimChange(row: Row, owner: string, token: Token, now: Time, lease: nat): Change {
    Change(ByClaim(owner, token, now, lease), row, ClaimedRow(row, owner, token, now + lease))
  }

  /** One claim for each of the rows. */
  function ClaimChanges(rows: map<RowId, Row>, tokens: map<RowId, Token>, owner: string, now: Time, lease: nat)
    : (changes: map<RowId, Change>)
    requires forall id :: id in tokens ==> id in rows
    ensures changes.Keys == tokens.Keys
    ensures forall id :: id in tokens ==> changes[id] == ClaimChange(rows[id], owner, tokens[id], now, lease)
  {
    map id | id in tokens :: ClaimChange(rows[id], owner, tokens[id], now, lease)
  }

  /** After the lock, the clock decides: an expired lease changes nothing. */
  function AfterCheck(q: Queue, t: Tx): Tx
    requires t.stage.Locked?
  {
    var Locked(id, token, request, started, lockedAt) := t.stage;
    if id in q.rows && q.rows[id].lockedUntil.Some? && q.rows[id].lockedUntil.value > q.clock
    then Tx(t.locks,
            map[id := Change(BySettlement(token, request, started, lockedAt, q.clock), q.rows[id],
                             SettledRow(q.rows[id], request, started))],
            Settled)
    else Tx(t.locks, map[], Settled)
  }

  function Apply(rows: map<RowId, Row>, changes: map<RowId, Change>): map<RowId, Row> {
    rows + map id | id in changes :: changes[id].after
  }

  /** Committing publishes all changes of a transaction at once. */
  function AfterCommit(q: Queue, tx: TxId): Queue
    requires tx in q.txs
  {
    q.(rows := Apply(q.rows, q.txs[tx].changes), txs := q.txs - {tx}, log := q.log + [q.txs[tx].changes])
  }

  /** A recovery commits only after its loop has updated every selected row. */
  predicate CanCommit(t: Tx) {
    match t.stage
    case Claiming => true
    case Settled => true
    case Recovering(_) => t.locks == t.changes.Keys
    case _ => false
  }

  /** A step that is not enabled leaves the queue unchanged. */
  function Next(q: Queue, step: Step): Queue {
    match step
    case Tick(elapsed) => q.(clock := q.clock + elapsed)
    case Publish(id, format, maxAttempts, availableAt) =>
      if id in q.rows || maxAttempts == 0 then q
      else q.(rows := q.rows[id := NewRow(format, maxAttempts, availableAt)])
    case Claim(tx, format, owner, limit, lease, tokens, grants) =>
      if tx in q.txs || !CanClaim(q, format, limit, lease, tokens, grants) then q
      else
        var changes := ClaimChanges(q.rows, tokens, owner, q.clock, lease);
        q.(txs := q.txs[tx := Tx(tokens.Keys, changes, Claiming)], granted := q.granted + grants)
    case SettleBegin(tx, id, token, request) =>
      if tx in q.txs then q else q.(txs := q.txs[tx := Tx({}, map[], Waiting(id, token, request, q.clock))])
    case SettleLock(tx) =>
      if !(tx in q.txs && q.txs[tx].stage.Waiting?) then q
      else
        var Waiting(id, token, request, started) := q.txs[tx].stage;
        if id in q.rows && q.rows[id].status == Processing && q.rows[id].lockToken == Some(token) then
          if Unlocked(q, id) then q.(txs := q.txs[tx := Tx({id}, map[], Locked(id, token, request, started, q.clock))]) else q
        else q.(txs := q.txs[tx := Tx({}, map[], Settled)])
    case SettleCheck(tx) =>
      if tx in q.txs && q.txs[tx].stage.Locked? then q.(txs := q.txs[tx := AfterCheck(q, q.txs[tx])]) else q
    case RecoverSelect(tx, ids) =>
      if tx in q.txs || !CanSelect(q, ids) then q
      else q.(txs := q.txs[tx := Tx(ids, map[], Recovering(q.clock))])
    case RecoverUpdate(tx, id, delay) =>
      if !(tx in q.txs && q.txs[tx].stage.Recovering? && id in q.txs[tx].locks && id in q.rows) then q
      else
        var change := Change(ByRecovery(q.txs[tx].stage.selectedAt, q.clock, delay), q.rows[id],
                             RecoveredRow(q.rows[id], q.clock, delay));
        q.(txs := q.txs[tx := q.txs[tx].(changes := q.txs[tx].changes[id := change])])
    case Commit(tx) => if tx in q.txs && CanCommit(q.txs[tx]) then AfterCommit(q, tx) else q
    case Rollback(tx) => if tx in q.txs then q.(txs := q.txs - {tx}) else q
    case Requeue(id) =>
      if id in q.rows && Unlocked(q, id) && q.rows[id].status == Failed then
        var change := Change(ByRequeue(q.clock), q.rows[id], RequeuedRow(q.rows[id], q.clock));
        q.(rows := q.rows[id := change.after], log := q.log + [map[id := change]])
      else q
  }

  function RunFrom(q: Queue, steps: seq<Step>): Queue {
    if steps == [] then q else Next(RunFrom(q, steps[..|steps| - 1]), steps[|steps| - 1])
  }

  function Run(steps: seq<Step>): Queue {
    RunFrom(Queue(map[], 0, map[], map[], []), steps)
  }
}
