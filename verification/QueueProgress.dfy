/**
 * What the queue can always do, from every reachable state and whatever transactions are open: recover a
 * lease, settle a live one, and deliver a task that waits, also after a retry.
 */
module QueueProgress {
  import opened Identifiers
  import opened Wrappers
  import opened TaskQueue
  import opened QueueSafety
  import opened QueueGuarantees

  // ---------- Reaching a state in which the row is unlocked ----------

  lemma RunStep(steps: seq<Step>, step: Step)
    ensures Run(steps + [step]) == Next(Run(steps), step)
  {
    assert (steps + [step])[..|steps|] == steps;
  }

  /** Some transaction whose rollback leaves the row unlocked. */
  lemma LockHolder(q: Queue, id: RowId) returns (tx: TxId)
    requires LocksDisjoint(q.txs)
    ensures Unlocked(Next(q, Rollback(tx)), id)
  {
    if tx' :| tx' in q.txs && id in q.txs[tx'].locks {
      tx := tx';
    } else {
      FreshId(q.txs.Keys);
      tx :| tx !in q.txs.Keys;
    }
  }

  lemma RowReleased(steps: seq<Step>, id: RowId) returns (holder: TxId)
    ensures Unlocked(Next(Run(steps), Rollback(holder)), id)
  {
    RunsKeepInvariant(steps);
    holder := LockHolder(Run(steps), id);
  }

  lemma CommitShows(q: Queue, tx: TxId, id: RowId)
    requires tx in q.txs && CanCommit(q.txs[tx]) && id in q.txs[tx].changes
    ensures var q' := Next(q, Commit(tx));
      q'.clock == q.clock && id in q'.rows && q'.rows[id] == q.txs[tx].changes[id].after
  {
  }

  // ---------- Recovering a lease ----------

  /** The row is leased and unlocked, and the transaction has not been used. */
  ghost predicate Lapses(q: Queue, row: Row, id: RowId, tx: TxId) {
    && id in q.rows
    && q.rows[id] == row
    && row.status == Processing
    && row.lockedUntil.Some?
    && Unlocked(q, id)
    && tx !in q.txs
  }

  /** A recovery has selected this row alone. */
  ghost predicate Selected(q: Queue, row: Row, id: RowId, tx: TxId) {
    && id in q.rows
    && q.rows[id] == row
    && tx in q.txs
    && q.txs[tx].locks == {id}
    && q.txs[tx].changes == map[]
    && q.txs[tx].stage.Recovering?
  }

  /** It has updated the row and is ready to commit. */
  ghost predicate Updated(q: Queue, row: Row, id: RowId, tx: TxId, delay: nat) {
    && tx in q.txs
    && CanCommit(q.txs[tx])
    && id in q.txs[tx].changes
    && q.txs[tx].changes[id].after == RecoveredRow(row, q.clock, delay)
  }

  /** The row left its lease. */
  ghost predicate Recovered(q: Queue, row: Row, id: RowId, delay: nat) {
    id in q.rows && RecoveredAs(row, q.rows[id], q.clock, delay)
  }

  lemma ExpirySelects(steps: seq<Step>, row: Row, id: RowId, tx: TxId) returns (more: seq<Step>)
    requires Lapses(Run(steps), row, id, tx)
    ensures Selected(Run(steps + more), row, id, tx)
  {
    var tick, select := Tick(row.lockedUntil.value), RecoverSelect(tx, {id});
    RunStep(steps, tick);
    RunStep(steps + [tick], select);
    more := [tick, select];
    assert steps + more == steps + [tick] + [select];
  }

  lemma UpdateReady(q: Queue, row: Row, id: RowId, tx: TxId, delay: nat)
    requires Selected(q, row, id, tx)
    ensures Updated(Next(q, RecoverUpdate(tx, id, delay)), row, id, tx, delay)
  {
    assert Next(q, RecoverUpdate(tx, id, delay)).txs[tx].changes.Keys == {id};
  }

  lemma UpdateCommits(q: Queue, row: Row, id: RowId, tx: TxId, delay: nat)
    requires Updated(q, row, id, tx, delay)
    ensures Recovered(Next(q, Commit(tx)), row, id, delay)
  {
    CommitShows(q, tx, id);
  }

  lemma SelectedRecovers(steps: seq<Step>, row: Row, id: RowId, tx: TxId, delay: nat) returns (more: seq<Step>)
    requires Selected(Run(steps), row, id, tx)
    ensures Recovered(Run(steps + more), row, id, delay)
  {
    var update := RecoverUpdate(tx, id, delay);
    RunStep(steps, update);
    UpdateReady(Run(steps), row, id, tx, delay);
    RunStep(steps + [update], Commit(tx));
    UpdateCommits(Run(steps + [update]), row, id, tx, delay);
    more := [update, Commit(tx)];
    assert steps + more == steps + [update] + [Commit(tx)];
  }

  lemma CanLapse(steps: seq<Step>, id: RowId) returns (holder: TxId, tx: TxId)
    requires id in Run(steps).rows && Run(steps).rows[id].status == Processing
    ensures Lapses(Run(steps + [Rollback(holder)]), Run(steps).rows[id], id, tx)
  {
    NoTaskIsLost(steps, id);
    holder := RowReleased(steps, id);
    RunStep(steps, Rollback(holder));
    FreshId(Run(steps + [Rollback(holder)]).txs.Keys);
    tx :| tx !in Run(steps + [Rollback(holder)]).txs.Keys;
  }

  lemma LapseRecovers(steps: seq<Step>, row: Row, id: RowId, tx: TxId, delay: nat) returns (more: seq<Step>)
    requires Lapses(Run(steps), row, id, tx)
    ensures Recovered(Run(steps + more), row, id, delay)
  {
    var selecting := ExpirySelects(steps, row, id, tx);
    var rest := SelectedRecovers(steps + selecting, row, id, tx, delay);
    more := selecting + rest;
    assert steps + more == steps + selecting + rest;
  }

  /**
   * From every reachable state in which a task is processing, dropping the lock holder (if any), waiting
   * for the expiry and running one recovery takes the row out of `processing`.
   */
  lemma EveryLeaseCanBeRecovered(steps: seq<Step>, id: RowId, delay: nat) returns (more: seq<Step>)
    requires id in Run(steps).rows && Run(steps).rows[id].status == Processing
    ensures Recovered(Run(steps + more), Run(steps).rows[id], id, delay)
  {
    var holder, tx := CanLapse(steps, id);
    var rest := LapseRecovers(steps + [Rollback(holder)], Run(steps).rows[id], id, tx, delay);
    more := [Rollback(holder)] + rest;
    assert steps + more == steps + [Rollback(holder)] + rest;
  }

  // ---------- Settling a live lease ----------

  /** The row is leased under this token, the lease has time left, and nobody has locked the row. */
  ghost predicate Live(q: Queue, row: Row, id: RowId, token: Token) {
    && id in q.rows
    && q.rows[id] == row
    && row.status == Processing
    && row.lockToken == Some(token)
    && row.lockedUntil.Some?
    && q.clock < row.lockedUntil.value
    && Unlocked(q, id)
  }

  /** The settlement has the row lock. */
  ghost predicate Holding(q: Queue, row: Row, id: RowId, token: Token, tx: TxId, request: SettlementRequest, started: Time) {
    && id in q.rows
    && q.rows[id] == row
    && row.lockedUntil.Some?
    && q.clock < row.lockedUntil.value
    && tx in q.txs
    && q.txs[tx].stage == Locked(id, token, request, started, q.clock)
  }

  /** It has found the lease in time and is ready to commit. */
  ghost predicate InTime(q: Queue, row: Row, id: RowId, tx: TxId, request: SettlementRequest, started: Time) {
    && tx in q.txs
    && q.txs[tx].stage == Settled
    && id in q.txs[tx].changes
    && q.txs[tx].changes[id].after == SettledRow(row, request, started)
  }

  ghost predicate SettledNow(q: Queue, row: Row, id: RowId, request: SettlementRequest, started: Time) {
    id in q.rows && SettledAs(row, q.rows[id], request, started)
  }

  lemma LockFollows(q: Queue, row: Row, id: RowId, token: Token, tx: TxId, request: SettlementRequest)
    requires Live(q, row, id, token) && tx !in q.txs
    ensures Holding(Next(Next(q, SettleBegin(tx, id, token, request)), SettleLock(tx)), row, id, token, tx, request, q.clock)
  {
  }

  lemma CheckFollows(q: Queue, row: Row, id: RowId, token: Token, tx: TxId, request: SettlementRequest, started: Time)
    requires Holding(q, row, id, token, tx, request, started)
    ensures InTime(Next(q, SettleCheck(tx)), row, id, tx, request, started)
  {
  }

  lemma CommitFollows(q: Queue, row: Row, id: RowId, tx: TxId, request: SettlementRequest, started: Time)
    requires InTime(q, row, id, tx, request, started)
    ensures SettledNow(Next(q, Commit(tx)), row, id, request, started)
  {
    CommitShows(q, tx, id);
  }

  lemma HoldingSettles(steps: seq<Step>, row: Row, id: RowId, token: Token, tx: TxId, request: SettlementRequest, started: Time)
    returns (more: seq<Step>)
    requires Holding(Run(steps), row, id, token, tx, request, started)
    ensures SettledNow(Run(steps + more), row, id, request, started)
  {
    RunStep(steps, SettleCheck(tx));
    CheckFollows(Run(steps), row, id, token, tx, request, started);
    RunStep(steps + [SettleCheck(tx)], Commit(tx));
    CommitFollows(Run(steps + [SettleCheck(tx)]), row, id, tx, request, started);
    more := [SettleCheck(tx), Commit(tx)];
    assert steps + more == steps + [SettleCheck(tx)] + [Commit(tx)];
  }

  lemma LiveSettles(steps: seq<Step>, row: Row, id: RowId, token: Token, request: SettlementRequest) returns (more: seq<Step>)
    requires Live(Run(steps), row, id, token)
    ensures SettledNow(Run(steps + more), row, id, request, Run(steps).clock)
  {
    FreshId(Run(steps).txs.Keys);
    var tx: TxId :| tx !in Run(steps).txs.Keys;
    var begin := SettleBegin(tx, id, token, request);
    RunStep(steps, begin);
    RunStep(steps + [begin], SettleLock(tx));
    LockFollows(Run(steps), row, id, token, tx, request);
    var rest := HoldingSettles(steps + [begin] + [SettleLock(tx)], row, id, token, tx, request, Run(steps).clock);
    more := [begin, SettleLock(tx)] + rest;
    assert steps + more == steps + [begin] + [SettleLock(tx)] + rest;
  }

  /**
   * From every reachable state in which a lease has time left, dropping the lock holder (if any), its
   * owner can settle the task as it likes, counted from the moment it asks.
   */
  lemma EveryLiveLeaseCanBeSettled(steps: seq<Step>, id: RowId, token: Token, until: Time, request: SettlementRequest)
    returns (more: seq<Step>)
    requires Leased(Run(steps), id, token, until) && Run(steps).clock < until
    ensures SettledNow(Run(steps + more), Run(steps).rows[id], id, request, Run(steps).clock)
  {
    var holder := RowReleased(steps, id);
    RunStep(steps, Rollback(holder));
    var rest := LiveSettles(steps + [Rollback(holder)], Run(steps).rows[id], id, token, request);
    more := [Rollback(holder)] + rest;
    assert steps + more == steps + [Rollback(holder)] + rest;
  }

  // ---------- One claim ----------

  /** The claim of one row under one token. */
  function ClaimOne(tx: TxId, row: Row, id: RowId, owner: string, lease: nat, token: Token): Step {
    Claim(tx, row.format, owner, 1, lease, map[id := token], map[token := id])
  }

  lemma OneCanBeClaimed(q: Queue, tx: TxId, id: RowId, owner: string, lease: nat, token: Token)
    returns (t: Tx, granted: map<Token, RowId>)
    requires id in q.rows && Waits(q, q.rows[id], id, tx, token) && q.rows[id].availableAt <= q.clock && lease > 0
    ensures Next(q, ClaimOne(tx, q.rows[id], id, owner, lease, token)) == q.(txs := q.txs[tx := t], granted := granted)
    ensures t.stage == Claiming && id in t.changes && t.changes[id] == ClaimChange(q.rows[id], owner, token, q.clock, lease)
  {
    assert CanClaim(q, q.rows[id].format, 1, lease, map[id := token], map[token := id]);
    t, granted := ClaimNext(q, tx, q.rows[id].format, owner, 1, lease, map[id := token], map[token := id]);
  }

  /** The row waits unlocked, and neither the transaction nor the token has been used. */
  ghost predicate Waits(q: Queue, row: Row, id: RowId, tx: TxId, token: Token) {
    && id in q.rows
    && q.rows[id] == row
    && row.status == Pending
    && Unlocked(q, id)
    && tx !in q.txs
    && token !in q.granted
  }

  /** An open claim of this row, at a time when it was due. */
  ghost predicate Open(q: Queue, row: Row, id: RowId, tx: TxId, token: Token, owner: string, lease: nat) {
    && tx in q.txs
    && q.txs[tx].stage == Claiming
    && id in q.txs[tx].changes
    && q.txs[tx].changes[id] == ClaimChange(row, owner, token, q.clock, lease)
    && row.availableAt <= q.clock
  }

  /** The row was claimed when it was due. */
  ghost predicate Delivered(q: Queue, row: Row, id: RowId, token: Token, owner: string, lease: nat) {
    row.availableAt <= q.clock && id in q.rows && ClaimedAs(row, q.rows[id], owner, token, q.clock + lease)
  }

  lemma TickWaits(q: Queue, row: Row, id: RowId, tx: TxId, token: Token)
    requires Waits(q, row, id, tx, token)
    ensures var q' := Next(q, Tick(row.availableAt)); Waits(q', row, id, tx, token) && row.availableAt <= q'.clock
  {
  }

  lemma ClaimOpens(q: Queue, row: Row, id: RowId, tx: TxId, token: Token, owner: string, lease: nat)
    requires Waits(q, row, id, tx, token) && row.availableAt <= q.clock && lease > 0
    ensures Open(Next(q, ClaimOne(tx, row, id, owner, lease, token)), row, id, tx, token, owner, lease)
  {
    var t, granted := OneCanBeClaimed(q, tx, id, owner, lease, token);
  }

  lemma ClaimCommits(q: Queue, row: Row, id: RowId, tx: TxId, token: Token, owner: string, lease: nat)
    requires Open(q, row, id, tx, token, owner, lease)
    ensures Delivered(Next(q, Commit(tx)), row, id, token, owner, lease)
  {
    CommitShows(q, tx, id);
  }

  // ---------- Delivering a task that waits ----------

  /** Dropping the lock holder, if any, leaves the row waiting for a fresh transaction and token. */
  lemma CanWait(steps: seq<Step>, id: RowId) returns (holder: TxId, tx: TxId, token: Token)
    requires id in Run(steps).rows && Run(steps).rows[id].status == Pending
    ensures Waits(Run(steps + [Rollback(holder)]), Run(steps).rows[id], id, tx, token) && token !in Run(steps).granted
  {
    holder := RowReleased(steps, id);
    RunStep(steps, Rollback(holder));
    FreshId(Run(steps + [Rollback(holder)]).txs.Keys);
    tx :| tx !in Run(steps + [Rollback(holder)]).txs.Keys;
    FreshId(Run(steps).granted.Keys);
    token :| token !in Run(steps).granted.Keys;
  }

  lemma DueWaits(steps: seq<Step>, row: Row, id: RowId, tx: TxId, token: Token)
    requires Waits(Run(steps), row, id, tx, token)
    ensures var q := Run(steps + [Tick(row.availableAt)]); Waits(q, row, id, tx, token) && row.availableAt <= q.clock
  {
    RunStep(steps, Tick(row.availableAt));
    TickWaits(Run(steps), row, id, tx, token);
  }

  lemma DueOpens(steps: seq<Step>, row: Row, id: RowId, tx: TxId, token: Token, owner: string, lease: nat)
    requires Waits(Run(steps), row, id, tx, token) && row.availableAt <= Run(steps).clock && lease > 0
    ensures Open(Run(steps + [ClaimOne(tx, row, id, owner, lease, token)]), row, id, tx, token, owner, lease)
  {
    RunStep(steps, ClaimOne(tx, row, id, owner, lease, token));
    ClaimOpens(Run(steps), row, id, tx, token, owner, lease);
  }

  lemma OpenCommits(steps: seq<Step>, row: Row, id: RowId, tx: TxId, token: Token, owner: string, lease: nat)
    requires Open(Run(steps), row, id, tx, token, owner, lease)
    ensures Delivered(Run(steps + [Commit(tx)]), row, id, token, owner, lease)
  {
    RunStep(steps, Commit(tx));
    ClaimCommits(Run(steps), row, id, tx, token, owner, lease);
  }

  lemma DueDelivers(steps: seq<Step>, row: Row, id: RowId, tx: TxId, token: Token, owner: string, lease: nat)
    returns (more: seq<Step>)
    requires Waits(Run(steps), row, id, tx, token) && row.availableAt <= Run(steps).clock && lease > 0
    ensures Delivered(Run(steps + more), row, id, token, owner, lease)
  {
    var claim := [ClaimOne(tx, row, id, owner, lease, token)];
    DueOpens(steps, row, id, tx, token, owner, lease);
    OpenCommits(steps + claim, row, id, tx, token, owner, lease);
    more := claim + [Commit(tx)];
    assert steps + more == steps + claim + [Commit(tx)];
  }

  lemma WaitDelivers(steps: seq<Step>, row: Row, id: RowId, tx: TxId, token: Token, owner: string, lease: nat)
    returns (more: seq<Step>)
    requires Waits(Run(steps), row, id, tx, token) && lease > 0
    ensures Delivered(Run(steps + more), row, id, token, owner, lease)
  {
    var tick := [Tick(row.availableAt)];
    DueWaits(steps, row, id, tx, token);
    var rest := DueDelivers(steps + tick, row, id, tx, token, owner, lease);
    more := tick + rest;
    assert steps + more == steps + tick + rest;
  }

  /** The continuation claims the row once more, when it is due, under a token never granted before. */
  ghost predicate Redelivered(steps: seq<Step>, more: seq<Step>, id: RowId, owner: string, token: Token, lease: nat) {
    && id in Run(steps).rows
    && token !in Run(steps).granted
    && Delivered(Run(steps + more), Run(steps).rows[id], id, token, owner, lease)
  }

  /**
   * From every reachable state in which a task is pending, dropping the lock holder (if any), waiting
   * until the task is due and running one claim delivers it.
   */
  lemma EveryPendingTaskCanBeClaimed(steps: seq<Step>, id: RowId, owner: string, lease: nat) returns (more: seq<Step>, token: Token)
    requires id in Run(steps).rows && Run(steps).rows[id].status == Pending && lease > 0
    ensures Redelivered(steps, more, id, owner, token, lease)
  {
    var holder, tx;
    holder, tx, token := CanWait(steps, id);
    var rest := WaitDelivers(steps + [Rollback(holder)], Run(steps).rows[id], id, tx, token, owner, lease);
    more := [Rollback(holder)] + rest;
    assert steps + more == steps + [Rollback(holder)] + rest;
  }

  /** A task that is pending, or leased with attempts left, is claimed once more by some continuation. */
  lemma UnfinishedTasksReturn(steps: seq<Step>, id: RowId, owner: string, lease: nat, delay: nat) returns (more: seq<Step>)
    requires id in Run(steps).rows && lease > 0
    requires var row := Run(steps).rows[id];
      row.status == Pending || (row.status == Processing && row.attempts < row.maxAttempts)
    ensures id in Run(steps + more).rows
    ensures var row, row' := Run(steps).rows[id], Run(steps + more).rows[id];
      SameTask(row, row') && row'.status == Processing && row'.attempts == row.attempts + 1 && row'.lockedBy == Some(owner)
  {
    var recovering := [];
    assert steps + [] == steps;
    if Run(steps).rows[id].status == Processing {
      recovering := EveryLeaseCanBeRecovered(steps, id, delay);
    }
    var claiming, token := EveryPendingTaskCanBeClaimed(steps + recovering, id, owner, lease);
    more := recovering + claiming;
    assert steps + more == steps + recovering + claiming;
  }

  /**
   * A settlement that asks for a retry before the expiry, with attempts left, makes its task pending for
   * the time it asked for, and some continuation delivers the task again.
   */
  lemma RetriedTasksReturn(steps: seq<Step>, a: seq<Step>, b: seq<Step>, tx: TxId, owner: string, lease: nat)
    returns (more: seq<Step>, token: Token)
    requires tx in Run(steps).txs && Run(steps).txs[tx].stage.Locked? && NoneOf(a, tx) && NoneOf(b, tx) && lease > 0
    requires var stage := Run(steps).txs[tx].stage;
      && stage.request.Retry?
      && stage.id in Run(steps).rows
      && Run(steps).rows[stage.id].attempts < Run(steps).rows[stage.id].maxAttempts
      && Run(steps).rows[stage.id].lockedUntil.Some?
      && Run(steps + a).clock < Run(steps).rows[stage.id].lockedUntil.value
    ensures var stage, settled := Run(steps).txs[tx].stage, steps + a + [SettleCheck(tx)] + b + [Commit(tx)];
      && Redelivered(settled, more, stage.id, owner, token, lease)
      && Run(settled).rows[stage.id].status == Pending
      && Run(settled).rows[stage.id].availableAt == stage.started + stage.request.delay
      && Run(settled).rows[stage.id].attempts == Run(steps).rows[stage.id].attempts
  {
    SettlementDecidedByClock(steps, a, b, tx);
    more, token := EveryPendingTaskCanBeClaimed(steps + a + [SettleCheck(tx)] + b + [Commit(tx)], Run(steps).txs[tx].stage.id,
                                                owner, lease);
  }
}
