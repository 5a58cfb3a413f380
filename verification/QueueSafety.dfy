/** What every interleaving of queue transactions keeps: fencing, conservation, no loss, bounded claims. */
module QueueSafety {
  import opened Wrappers
  import opened TaskQueue

  // ---------- Counting committed changes ----------

  predicate Claims?(changes: map<RowId, Change>, id: RowId, token: Token) {
    id in changes && changes[id].cause.ByClaim? && changes[id].cause.token == token
  }

  /** The change takes the row out of `processing` while it holds this token. */
  predicate Leaves?(changes: map<RowId, Change>, id: RowId, token: Token) {
    && id in changes
    && (changes[id].cause.BySettlement? || changes[id].cause.ByRecovery?)
    && changes[id].before.lockToken == Some(token)
  }

  function Claims(log: seq<map<RowId, Change>>, id: RowId, token: Token): nat {
    if log == [] then 0
    else Claims(log[..|log| - 1], id, token) + if Claims?(log[|log| - 1], id, token) then 1 else 0
  }

  function Leaves(log: seq<map<RowId, Change>>, id: RowId, token: Token): nat {
    if log == [] then 0
    else Leaves(log[..|log| - 1], id, token) + if Leaves?(log[|log| - 1], id, token) then 1 else 0
  }

  /** Committed changes of a row since it was published or last requeued by hand. */
  function Changes(log: seq<map<RowId, Change>>, id: RowId): nat {
    if log == [] then 0
    else
      var last := log[|log| - 1];
      if id !in last then Changes(log[..|log| - 1], id)
      else if last[id].cause.ByRequeue? then 0
      else Changes(log[..|log| - 1], id) + 1
  }

  /** Committed claims of a row since it was published or last requeued by hand. */
  function Attempts(log: seq<map<RowId, Change>>, id: RowId): nat {
    if log == [] then 0
    else
      var last := log[|log| - 1];
      if id !in last then Attempts(log[..|log| - 1], id)
      else if last[id].cause.ByRequeue? then 0
      else Attempts(log[..|log| - 1], id) + if last[id].cause.ByClaim? then 1 else 0
  }

  lemma CountsStep(log: seq<map<RowId, Change>>, changes: map<RowId, Change>, id: RowId, token: Token)
    ensures Claims(log + [changes], id, token) == Claims(log, id, token) + if Claims?(changes, id, token) then 1 else 0
    ensures Leaves(log + [changes], id, token) == Leaves(log, id, token) + if Leaves?(changes, id, token) then 1 else 0
    ensures Changes(log + [changes], id) ==
      if id !in changes then Changes(log, id) else if changes[id].cause.ByRequeue? then 0 else Changes(log, id) + 1
    ensures Attempts(log + [changes], id) ==
      if id !in changes then Attempts(log, id) else if changes[id].cause.ByRequeue? then 0
      else Attempts(log, id) + if changes[id].cause.ByClaim? then 1 else 0
  {
    assert (log + [changes])[..|log|] == log;
  }

  // ---------- Invariant ----------

  function Holds(rows: map<RowId, Row>, id: RowId, token: Token): nat {
    if id in rows && rows[id].lockToken == Some(token) then 1 else 0
  }

  ghost predicate RowsValid(rows: map<RowId, Row>) {
    forall id :: id in rows ==> Valid(rows[id])
  }

  ghost predicate LogLegal(log: seq<map<RowId, Change>>) {
    forall i, id :: 0 <= i < |log| && id in log[i] ==> Legal(log[i][id])
  }

  /** Tokens are conserved: every claim is either still held or has left exactly once. */
  ghost predicate TokensConserved(rows: map<RowId, Row>, granted: map<Token, RowId>, log: seq<map<RowId, Change>>) {
    && (forall id, token :: Claims(log, id, token) == Leaves(log, id, token) + Holds(rows, id, token))
    && (forall id, token :: Claims(log, id, token) <= 1)
    && (forall id, token :: Claims(log, id, token) > 0 ==> token in granted && granted[token] == id)
  }

  predicate Counted(rows: map<RowId, Row>, log: seq<map<RowId, Change>>, id: RowId) {
    if id in rows
    then Attempts(log, id) == rows[id].attempts &&
         Changes(log, id) == 2 * rows[id].attempts - (if rows[id].status == Processing then 1 else 0)
    else Attempts(log, id) == 0 && Changes(log, id) == 0
  }

  /** Attempts count claims; each claim is followed by one leave, so changes are twice that, less the one outstanding. */
  ghost predicate AttemptsCounted(rows: map<RowId, Row>, log: seq<map<RowId, Change>>) {
    forall id :: Counted(rows, log, id)
  }

  /** The pending changes of one transaction start from the committed rows and are legal. */
  ghost predicate PendingOk(rows: map<RowId, Row>, changes: map<RowId, Change>) {
    forall id :: id in changes ==> id in rows && changes[id].before == rows[id] && Legal(changes[id])
  }

  predicate FreshClaim(granted: map<Token, RowId>, log: seq<map<RowId, Change>>, id: RowId, change: Change) {
    change.cause.ByClaim? ==>
      change.cause.token in granted && granted[change.cause.token] == id && Claims(log, id, change.cause.token) == 0
  }

  predicate Past(clock: Time, cause: Cause) {
    match cause
    case ByClaim(_, _, at, _) => at <= clock
    case BySettlement(_, _, _, _, checkedAt) => checkedAt <= clock
    case ByRecovery(_, updatedAt, _) => updatedAt <= clock
    case ByRequeue(at) => at <= clock
  }

  ghost predicate StageOk(rows: map<RowId, Row>, clock: Time, t: Tx) {
    match t.stage
    case Claiming => forall id :: id in t.locks ==> id in rows && rows[id].status == Pending
    case Waiting(_, _, _, started) => started <= clock && t.locks == {}
    case Locked(id, token, _, started, lockedAt) =>
      && t.locks == {id}
      && id in rows
      && rows[id].status == Processing
      && rows[id].lockToken == Some(token)
      && started <= lockedAt <= clock
    case Settled =>
      forall id :: id in t.locks ==>
        && id in rows
        && rows[id].lockedUntil.Some?
        && (rows[id].lockedUntil.value <= clock || (id in t.changes && t.changes[id].cause.BySettlement?))
    case Recovering(selectedAt) =>
      && selectedAt <= clock
      && (forall id :: id in t.changes ==> t.changes[id].cause.ByRecovery?)
      && (forall id :: id in t.locks ==>
            id in rows && rows[id].status == Processing && rows[id].lockedUntil.Some? && rows[id].lockedUntil.value <= selectedAt)
  }

  ghost predicate TxOk(rows: map<RowId, Row>, clock: Time, granted: map<Token, RowId>, log: seq<map<RowId, Change>>, t: Tx) {
    && t.changes.Keys <= t.locks
    && PendingOk(rows, t.changes)
    && (forall id :: id in t.changes ==>
          && !t.changes[id].cause.ByRequeue?
          && Past(clock, t.changes[id].cause)
          && FreshClaim(granted, log, id, t.changes[id]))
    && StageOk(rows, clock, t)
  }

  ghost predicate TxsOk(q: Queue) {
    forall tx :: tx in q.txs ==> TxOk(q.rows, q.clock, q.granted, q.log, q.txs[tx])
  }

  ghost predicate LocksDisjoint(txs: map<TxId, Tx>) {
    forall tx, tx' :: tx in txs && tx' in txs && tx != tx' ==> txs[tx].locks !! txs[tx'].locks
  }

  ghost predicate Invariant(q: Queue) {
    && RowsValid(q.rows)
    && LogLegal(q.log)
    && TokensConserved(q.rows, q.granted, q.log)
    && AttemptsCounted(q.rows, q.log)
    && TxsOk(q)
    && LocksDisjoint(q.txs)
  }

  // ---------- One change ----------

  /** Every legal change of a valid row gives a valid row. */
  lemma LegalKeepsValid(change: Change)
    requires Valid(change.before) && Legal(change)
    ensures Valid(change.after)
  {
  }

  /** Without manual requeue every change strictly decreases the measure. */
  lemma LegalDecreases(change: Change)
    requires Valid(change.before) && Legal(change) && !change.cause.ByRequeue?
    ensures change.after.attempts <= change.after.maxAttempts
    ensures Measure(change.after) < Measure(change.before)
  {
  }

  // ---------- Committing ----------

  lemma ApplyValid(rows: map<RowId, Row>, changes: map<RowId, Change>)
    requires RowsValid(rows) && PendingOk(rows, changes)
    ensures RowsValid(Apply(rows, changes))
  {
    forall id | id in Apply(rows, changes)
      ensures Valid(Apply(rows, changes)[id])
    {
      if id in changes {
        LegalKeepsValid(changes[id]);
      }
    }
  }

  lemma ApplyLog(rows: map<RowId, Row>, changes: map<RowId, Change>, log: seq<map<RowId, Change>>)
    requires LogLegal(log) && PendingOk(rows, changes)
    ensures LogLegal(log + [changes])
  {
  }

  lemma ApplyTokens(rows: map<RowId, Row>, changes: map<RowId, Change>, granted: map<Token, RowId>, log: seq<map<RowId, Change>>)
    requires RowsValid(rows) && PendingOk(rows, changes) && TokensConserved(rows, granted, log)
    requires forall id :: id in changes ==> FreshClaim(granted, log, id, changes[id])
    ensures TokensConserved(Apply(rows, changes), granted, log + [changes])
  {
    forall id, token
      ensures Claims(log + [changes], id, token) == Leaves(log + [changes], id, token) + Holds(Apply(rows, changes), id, token)
      ensures Claims(log + [changes], id, token) <= 1
      ensures Claims(log + [changes], id, token) > 0 ==> token in granted && granted[token] == id
    {
      CountsStep(log, changes, id, token);
      assert Claims(log, id, token) == Leaves(log, id, token) + Holds(rows, id, token);
    }
  }

  lemma ApplyAttempts(rows: map<RowId, Row>, changes: map<RowId, Change>, log: seq<map<RowId, Change>>)
    requires RowsValid(rows) && PendingOk(rows, changes) && AttemptsCounted(rows, log)
    ensures AttemptsCounted(Apply(rows, changes), log + [changes])
  {
    forall id
      ensures Counted(Apply(rows, changes), log + [changes], id)
    {
      CountsStep(log, changes, id, 0);
      assert Counted(rows, log, id);
    }
  }

  /** A transaction that shares no lock with the committed changes stays as it was. */
  lemma ApplyOther(rows: map<RowId, Row>, clock: Time, granted: map<Token, RowId>, log: seq<map<RowId, Change>>,
                   t: Tx, changes: map<RowId, Change>)
    requires TxOk(rows, clock, granted, log, t) && changes.Keys !! t.locks
    ensures TxOk(Apply(rows, changes), clock, granted, log + [changes], t)
  {
    forall id | id in t.changes
      ensures FreshClaim(granted, log + [changes], id, t.changes[id])
    {
      if t.changes[id].cause.ByClaim? {
        CountsStep(log, changes, id, t.changes[id].cause.token);
      }
    }
  }

  /** Publishing the changes of a transaction that no other transaction has locked. */
  lemma ApplyInvariant(q: Queue, txs: map<TxId, Tx>, changes: map<RowId, Change>)
    requires Invariant(q) && PendingOk(q.rows, changes) && txs.Keys <= q.txs.Keys
    requires forall id :: id in changes ==> FreshClaim(q.granted, q.log, id, changes[id])
    requires forall tx :: tx in txs ==> txs[tx] == q.txs[tx] && changes.Keys !! txs[tx].locks
    ensures Invariant(q.(rows := Apply(q.rows, changes), txs := txs, log := q.log + [changes]))
  {
    ApplyValid(q.rows, changes);
    ApplyLog(q.rows, changes, q.log);
    ApplyTokens(q.rows, changes, q.granted, q.log);
    ApplyAttempts(q.rows, changes, q.log);
    forall tx | tx in txs
      ensures TxOk(Apply(q.rows, changes), q.clock, q.granted, q.log + [changes], txs[tx])
    {
      ApplyOther(q.rows, q.clock, q.granted, q.log, txs[tx], changes);
    }
  }

  // ---------- Opening or advancing a transaction ----------

  /** More granted tokens and a later clock keep a transaction well formed. */
  lemma TxKeeps(rows: map<RowId, Row>, clock: Time, clock': Time, granted: map<Token, RowId>, granted': map<Token, RowId>,
                log: seq<map<RowId, Change>>, t: Tx)
    requires TxOk(rows, clock, granted, log, t) && clock <= clock'
    requires forall token :: token in granted ==> token in granted' && granted'[token] == granted[token]
    ensures TxOk(rows, clock', granted', log, t)
  {
  }

  /** Replacing or adding one transaction, when no other one holds its locks. */
  lemma TxPlaced(q: Queue, tx: TxId, t: Tx, granted: map<Token, RowId>)
    requires Invariant(q) && TxOk(q.rows, q.clock, granted, q.log, t)
    requires forall token :: token in q.granted ==> token in granted && granted[token] == q.granted[token]
    requires forall tx' :: tx' in q.txs && tx' != tx ==> t.locks !! q.txs[tx'].locks
    ensures Invariant(q.(txs := q.txs[tx := t], granted := granted))
  {
    forall tx' | tx' in q.txs && tx' != tx
      ensures TxOk(q.rows, q.clock, granted, q.log, q.txs[tx'])
    {
      TxKeeps(q.rows, q.clock, q.clock, q.granted, granted, q.log, q.txs[tx']);
    }
    forall id, token | Claims(q.log, id, token) > 0
      ensures token in granted && granted[token] == id
    {
    }
  }

  /** A token never granted before has never been claimed. */
  lemma FreshTokenUnclaimed(q: Queue, id: RowId, token: Token)
    requires TokensConserved(q.rows, q.granted, q.log) && token !in q.granted
    ensures Claims(q.log, id, token) == 0
  {
  }

  lemma GrantedExtends(granted: map<Token, RowId>, tokens: map<RowId, Token>, grants: map<Token, RowId>)
    requires Paired(tokens, grants) && forall id :: id in tokens ==> tokens[id] !in granted
    ensures forall token :: token in granted ==> token in granted + grants && (granted + grants)[token] == granted[token]
    ensures forall id :: id in tokens ==> tokens[id] in granted + grants && (granted + grants)[tokens[id]] == id
  {
  }

  lemma ClaimIsLegal(row: Row, owner: string, token: Token, now: Time, lease: nat)
    requires row.status == Pending && row.availableAt <= now && lease > 0
    ensures Legal(ClaimChange(row, owner, token, now, lease))
  {
  }

  /** A claim opens a well-formed transaction whose tokens have never been claimed. */
  lemma ClaimedTxOk(q: Queue, format: Format, owner: string, limit: nat, lease: nat, tokens: map<RowId, Token>,
                    grants: map<Token, RowId>, granted: map<Token, RowId>, t: Tx)
    requires CanClaim(q, format, limit, lease, tokens, grants) && TokensConserved(q.rows, q.granted, q.log)
    requires forall id :: id in tokens ==> tokens[id] in granted && granted[tokens[id]] == id
    requires t.locks == tokens.Keys && t.changes.Keys == tokens.Keys && t.stage == Claiming
    requires forall id :: id in tokens ==> t.changes[id] == ClaimChange(q.rows[id], owner, tokens[id], q.clock, lease)
    ensures TxOk(q.rows, q.clock, granted, q.log, t)
  {
    forall id | id in t.changes
      ensures FreshClaim(granted, q.log, id, t.changes[id])
    {
      FreshTokenUnclaimed(q, id, tokens[id]);
    }
    forall id | id in t.changes
      ensures id in q.rows && t.changes[id].before == q.rows[id] && Legal(t.changes[id]) && Past(q.clock, t.changes[id].cause)
    {
      ClaimIsLegal(q.rows[id], owner, tokens[id], q.clock, lease);
    }
  }

  lemma ClaimNext(q: Queue, tx: TxId, format: Format, owner: string, limit: nat, lease: nat,
                  tokens: map<RowId, Token>, grants: map<Token, RowId>)
    returns (t: Tx, granted: map<Token, RowId>)
    requires tx !in q.txs && CanClaim(q, format, limit, lease, tokens, grants)
    ensures Next(q, Claim(tx, format, owner, limit, lease, tokens, grants)) == q.(txs := q.txs[tx := t], granted := granted)
    ensures granted == q.granted + grants
    ensures t.locks == tokens.Keys && t.changes.Keys == tokens.Keys && t.stage == Claiming
    ensures forall id :: id in tokens ==> t.changes[id] == ClaimChange(q.rows[id], owner, tokens[id], q.clock, lease)
  {
    var q' := Next(q, Claim(tx, format, owner, limit, lease, tokens, grants));
    t, granted := q'.txs[tx], q'.granted;
  }

  lemma ClaimOpens(q: Queue, tx: TxId, format: Format, owner: string, limit: nat, lease: nat,
                   tokens: map<RowId, Token>, grants: map<Token, RowId>)
    returns (t: Tx, granted: map<Token, RowId>)
    requires tx !in q.txs && CanClaim(q, format, limit, lease, tokens, grants) && TokensConserved(q.rows, q.granted, q.log)
    ensures Next(q, Claim(tx, format, owner, limit, lease, tokens, grants)) == q.(txs := q.txs[tx := t], granted := granted)
    ensures TxOk(q.rows, q.clock, granted, q.log, t) && t.locks == tokens.Keys
    ensures forall token :: token in q.granted ==> token in granted && granted[token] == q.granted[token]
  {
    t, granted := ClaimNext(q, tx, format, owner, limit, lease, tokens, grants);
    GrantedExtends(q.granted, tokens, grants);
    ClaimedTxOk(q, format, owner, limit, lease, tokens, grants, granted, t);
  }

  lemma ClaimStep(q: Queue, tx: TxId, format: Format, owner: string, limit: nat, lease: nat,
                  tokens: map<RowId, Token>, grants: map<Token, RowId>)
    requires Invariant(q) && tx !in q.txs && CanClaim(q, format, limit, lease, tokens, grants)
    ensures Invariant(Next(q, Claim(tx, format, owner, limit, lease, tokens, grants)))
  {
    var t, granted := ClaimOpens(q, tx, format, owner, limit, lease, tokens, grants);
    TxPlaced(q, tx, t, granted);
  }

  lemma LockStep(q: Queue, tx: TxId)
    requires Invariant(q) && tx in q.txs && q.txs[tx].stage.Waiting?
    ensures Invariant(Next(q, SettleLock(tx)))
  {
    var Waiting(id, token, request, started) := q.txs[tx].stage;
    if id in q.rows && q.rows[id].status == Processing && q.rows[id].lockToken == Some(token) {
      if Unlocked(q, id) {
        TxPlaced(q, tx, Tx({id}, map[], Locked(id, token, request, started, q.clock)), q.granted);
      }
    } else {
      TxPlaced(q, tx, Tx({}, map[], Settled), q.granted);
    }
  }

  lemma CheckedTxOk(q: Queue, t: Tx)
    requires TxOk(q.rows, q.clock, q.granted, q.log, t) && t.stage.Locked? && RowsValid(q.rows)
    ensures TxOk(q.rows, q.clock, q.granted, q.log, AfterCheck(q, t)) && AfterCheck(q, t).locks == t.locks
  {
  }

  lemma CheckStep(q: Queue, tx: TxId)
    requires Invariant(q) && tx in q.txs && q.txs[tx].stage.Locked?
    ensures Invariant(Next(q, SettleCheck(tx)))
  {
    CheckedTxOk(q, q.txs[tx]);
    TxPlaced(q, tx, AfterCheck(q, q.txs[tx]), q.granted);
  }

  lemma RecoveredTxOk(q: Queue, t: Tx, id: RowId, delay: nat) returns (t': Tx)
    requires TxOk(q.rows, q.clock, q.granted, q.log, t) && t.stage.Recovering? && id in t.locks && id in q.rows
    ensures TxOk(q.rows, q.clock, q.granted, q.log, t') && t'.locks == t.locks
    ensures t' == t.(changes := t.changes[id :=
      Change(ByRecovery(t.stage.selectedAt, q.clock, delay), q.rows[id], RecoveredRow(q.rows[id], q.clock, delay))])
  {
    var change := Change(ByRecovery(t.stage.selectedAt, q.clock, delay), q.rows[id], RecoveredRow(q.rows[id], q.clock, delay));
    t' := t.(changes := t.changes[id := change]);
  }

  lemma RecoverStep(q: Queue, tx: TxId, id: RowId, delay: nat)
    requires Invariant(q) && tx in q.txs && q.txs[tx].stage.Recovering? && id in q.txs[tx].locks && id in q.rows
    ensures Invariant(Next(q, RecoverUpdate(tx, id, delay)))
  {
    var t := RecoveredTxOk(q, q.txs[tx], id, delay);
    TxPlaced(q, tx, t, q.granted);
  }

  /** A manual requeue is one committed change of one unlocked row. */
  lemma RequeueCommits(q: Queue, id: RowId) returns (changes: map<RowId, Change>)
    requires id in q.rows && q.rows[id].status == Failed && Unlocked(q, id)
    ensures changes.Keys == {id} && changes[id].cause == ByRequeue(q.clock) && PendingOk(q.rows, changes)
    ensures Next(q, Requeue(id)) == q.(rows := Apply(q.rows, changes), log := q.log + [changes])
  {
    changes := map[id := Change(ByRequeue(q.clock), q.rows[id], RequeuedRow(q.rows[id], q.clock))];
    assert Apply(q.rows, changes) == q.rows[id := changes[id].after];
  }

  lemma RequeueStep(q: Queue, id: RowId)
    requires Invariant(q) && id in q.rows && Unlocked(q, id) && q.rows[id].status == Failed
    ensures Invariant(Next(q, Requeue(id)))
  {
    var changes := RequeueCommits(q, id);
    ApplyInvariant(q, q.txs, changes);
  }

  lemma PublishCounts(rows: map<RowId, Row>, granted: map<Token, RowId>, log: seq<map<RowId, Change>>, id: RowId, row: Row)
    requires TokensConserved(rows, granted, log) && AttemptsCounted(rows, log) && id !in rows
    requires row.lockToken == None && row.status == Pending && row.attempts == 0
    ensures TokensConserved(rows[id := row], granted, log) && AttemptsCounted(rows[id := row], log)
  {
    var rows' := rows[id := row];
    forall id'
      ensures Counted(rows', log, id')
    {
      assert Counted(rows, log, id');
    }
    forall id', token
      ensures Claims(log, id', token) == Leaves(log, id', token) + Holds(rows', id', token)
    {
      assert Claims(log, id', token) == Leaves(log, id', token) + Holds(rows, id', token);
    }
  }

  lemma PublishTx(rows: map<RowId, Row>, clock: Time, granted: map<Token, RowId>, log: seq<map<RowId, Change>>, t: Tx,
                  id: RowId, row: Row)
    requires TxOk(rows, clock, granted, log, t) && id !in rows
    ensures TxOk(rows[id := row], clock, granted, log, t)
  {
  }

  lemma PublishStep(q: Queue, id: RowId, row: Row)
    requires Invariant(q) && id !in q.rows && Valid(row) && row.status == Pending && row.attempts == 0
    ensures Invariant(q.(rows := q.rows[id := row]))
  {
    PublishCounts(q.rows, q.granted, q.log, id, row);
    forall tx | tx in q.txs
      ensures TxOk(q.rows[id := row], q.clock, q.granted, q.log, q.txs[tx])
    {
      PublishTx(q.rows, q.clock, q.granted, q.log, q.txs[tx], id, row);
    }
  }

  lemma TickStep(q: Queue, elapsed: nat)
    requires Invariant(q)
    ensures Invariant(q.(clock := q.clock + elapsed))
  {
    forall tx | tx in q.txs
      ensures TxOk(q.rows, q.clock + elapsed, q.granted, q.log, q.txs[tx])
    {
      TxKeeps(q.rows, q.clock, q.clock + elapsed, q.granted, q.granted, q.log, q.txs[tx]);
    }
  }

  lemma OpenStep(q: Queue, step: Step)
    requires Invariant(q) && (step.SettleBegin? || step.RecoverSelect?) && Next(q, step) != q
    ensures Invariant(Next(q, step))
  {
    TxPlaced(q, step.tx, Next(q, step).txs[step.tx], q.granted);
  }

  lemma CommitStep(q: Queue, tx: TxId)
    requires Invariant(q) && tx in q.txs
    ensures Invariant(AfterCommit(q, tx))
  {
    ApplyInvariant(q, q.txs - {tx}, q.txs[tx].changes);
  }

  lemma RollbackStep(q: Queue, tx: TxId)
    requires Invariant(q)
    ensures Invariant(q.(txs := q.txs - {tx}))
  {
  }

  // ---------- Whole runs ----------

  lemma ArrivalStep(q: Queue, step: Step)
    requires Invariant(q) && (step.Tick? || step.Publish? || step.Claim?)
    ensures Invariant(Next(q, step))
  {
    match step
    case Tick(elapsed) => TickStep(q, elapsed);
    case Publish(id, format, maxAttempts, availableAt) =>
      if id !in q.rows && maxAttempts > 0 {
        PublishStep(q, id, NewRow(format, maxAttempts, availableAt));
      }
    case Claim(tx, format, owner, limit, lease, tokens, grants) =>
      if tx !in q.txs && CanClaim(q, format, limit, lease, tokens, grants) {
        ClaimStep(q, tx, format, owner, limit, lease, tokens, grants);
      }
  }

  lemma SettlementStep(q: Queue, step: Step)
    requires Invariant(q) && (step.SettleBegin? || step.SettleLock? || step.SettleCheck?)
    ensures Invariant(Next(q, step))
  {
    if Next(q, step) != q {
      match step
      case SettleBegin(_, _, _, _) => OpenStep(q, step);
      case SettleLock(tx) => LockStep(q, tx);
      case SettleCheck(tx) => CheckStep(q, tx);
    }
  }

  lemma RecoveryStep(q: Queue, step: Step)
    requires Invariant(q) && (step.RecoverSelect? || step.RecoverUpdate?)
    ensures Invariant(Next(q, step))
  {
    if Next(q, step) != q {
      match step
      case RecoverSelect(_, _) => OpenStep(q, step);
      case RecoverUpdate(tx, id, delay) => RecoverStep(q, tx, id, delay);
    }
  }

  lemma FinalStep(q: Queue, step: Step)
    requires Invariant(q) && (step.Commit? || step.Rollback? || step.Requeue?)
    ensures Invariant(Next(q, step))
  {
    if Next(q, step) != q {
      match step
      case Commit(tx) => CommitStep(q, tx);
      case Rollback(tx) => RollbackStep(q, tx);
      case Requeue(id) => RequeueStep(q, id);
    }
  }

  lemma NextKeepsInvariant(q: Queue, step: Step)
    requires Invariant(q)
    ensures Invariant(Next(q, step))
  {
    if step.Tick? || step.Publish? || step.Claim? {
      ArrivalStep(q, step);
    } else if step.SettleBegin? || step.SettleLock? || step.SettleCheck? {
      SettlementStep(q, step);
    } else if step.RecoverSelect? || step.RecoverUpdate? {
      RecoveryStep(q, step);
    } else {
      FinalStep(q, step);
    }
  }

  lemma {:induction false} RunsKeepInvariant(steps: seq<Step>)
    ensures Invariant(Run(steps))
  {
    if steps != [] {
      RunsKeepInvariant(steps[..|steps| - 1]);
      NextKeepsInvariant(Run(steps[..|steps| - 1]), steps[|steps| - 1]);
    }
  }
}
