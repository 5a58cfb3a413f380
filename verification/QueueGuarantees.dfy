/** What holds of every run of the queue, stated for any schedule of transactions, crashes and clock ticks. */
module QueueGuarantees {
  import opened Identifiers
  import opened Wrappers
  import opened TaskQueue
  import opened QueueSafety

  // ---------- Effect of one step ----------

  /** Nothing was committed to an existing row; at most a new pending row appeared. */
  ghost predicate Quiet(q: Queue, q': Queue) {
    && q'.log == q.log
    && q.rows.Keys <= q'.rows.Keys
    && (forall id :: id in q.rows ==> q'.rows[id] == q.rows[id])
    && (forall id :: id in q'.rows && id !in q.rows ==> q'.rows[id].status == Pending)
  }

  /** One batch of legal changes, all based on the committed rows and on clock readings already made, was committed. */
  ghost predicate Commits(q: Queue, q': Queue, changes: map<RowId, Change>) {
    && q'.log == q.log + [changes]
    && PendingOk(q.rows, changes)
    && q'.rows == Apply(q.rows, changes)
    && (forall id :: id in changes ==> Past(q.clock, changes[id].cause))
  }

  /** Only a manual requeue of that row commits a requeue. */
  ghost predicate CommitsBy(step: Step, changes: map<RowId, Change>) {
    forall id :: id in changes ==> (changes[id].cause.ByRequeue? <==> step == Requeue(id))
  }

  lemma QuietStep(q: Queue, step: Step)
    requires !step.Commit? && !step.Requeue?
    ensures Quiet(q, Next(q, step))
  {
  }

  lemma CommitEffect(q: Queue, tx: TxId)
    requires tx in q.txs && TxOk(q.rows, q.clock, q.granted, q.log, q.txs[tx]) && CanCommit(q.txs[tx])
    ensures Commits(q, Next(q, Commit(tx)), q.txs[tx].changes) && CommitsBy(Commit(tx), q.txs[tx].changes)
  {
  }

  lemma RequeueEffect(q: Queue, id: RowId) returns (changes: map<RowId, Change>)
    requires id in q.rows && Unlocked(q, id) && q.rows[id].status == Failed
    ensures Commits(q, Next(q, Requeue(id)), changes) && CommitsBy(Requeue(id), changes)
  {
    changes := RequeueCommits(q, id);
  }

  lemma StepEffect(q: Queue, step: Step) returns (changes: map<RowId, Change>)
    requires TxsOk(q)
    ensures Quiet(q, Next(q, step)) || (Commits(q, Next(q, step), changes) && CommitsBy(step, changes))
  {
    changes := map[];
    if step.Commit? {
      if step.tx in q.txs && CanCommit(q.txs[step.tx]) {
        changes := q.txs[step.tx].changes;
        CommitEffect(q, step.tx);
      }
    } else if step.Requeue? {
      if step.id in q.rows && Unlocked(q, step.id) && q.rows[step.id].status == Failed {
        changes := RequeueEffect(q, step.id);
      }
    } else {
      QuietStep(q, step);
    }
  }

  /** How one step may change one row: the change is legal, committed last in the log, and made by this step. */
  ghost predicate Moves(q: Queue, step: Step, id: RowId, change: Change) {
    var q' := Next(q, step);
    && id in q.rows
    && id in q'.rows
    && q'.rows[id] == change.after
    && q.rows[id] == change.before
    && Legal(change)
    && Past(q.clock, change.cause)
    && (change.cause.ByRequeue? <==> step == Requeue(id))
    && |q'.log| == |q.log| + 1
    && id in q'.log[|q.log|]
    && q'.log[|q.log|][id] == change
  }

  lemma RowStep(q: Queue, step: Step, id: RowId) returns (change: Change)
    requires TxsOk(q) && id in q.rows
    ensures q.log <= Next(q, step).log
    ensures id in Next(q, step).rows
    ensures Next(q, step).rows[id] == q.rows[id] || Moves(q, step, id, change)
  {
    var changes := StepEffect(q, step);
    if !Quiet(q, Next(q, step)) && id in changes {
      change := changes[id];
    } else {
      change := Change(ByRequeue(0), q.rows[id], q.rows[id]);
    }
  }

  // ---------- History of one row ----------

  /** Index of the last committed batch that changed the row, or -1. */
  function Prior(log: seq<map<RowId, Change>>, id: RowId): (i: int)
    ensures -1 <= i < |log|
    ensures i >= 0 ==> id in log[i]
    ensures forall k :: i < k < |log| ==> id !in log[k]
  {
    if log == [] then -1 else if id in log[|log| - 1] then |log| - 1 else Prior(log[..|log| - 1], id)
  }

  /** The row is what its last change left, and was pending before its first. */
  predicate Continues(log: seq<map<RowId, Change>>, id: RowId, row: Row) {
    var i := Prior(log, id);
    if i >= 0 then row == log[i][id].after else row.status == Pending
  }

  ghost predicate LogChained(log: seq<map<RowId, Change>>) {
    forall j, id :: 0 <= j < |log| && id in log[j] ==> Continues(log[..j], id, log[j][id].before)
  }

  ghost predicate RowsCurrent(q: Queue) {
    && (forall id :: id in q.rows ==> Continues(q.log, id, q.rows[id]))
    && (forall id :: id !in q.rows ==> Prior(q.log, id) == -1)
  }

  lemma PriorStep(log: seq<map<RowId, Change>>, changes: map<RowId, Change>, id: RowId)
    ensures Prior(log + [changes], id) == if id in changes then |log| else Prior(log, id)
  {
    assert (log + [changes])[..|log|] == log;
  }

  lemma ChainCommit(q: Queue, q': Queue, changes: map<RowId, Change>)
    requires LogChained(q.log) && RowsCurrent(q) && Commits(q, q', changes)
    ensures LogChained(q'.log) && RowsCurrent(q')
  {
    forall j, id | 0 <= j < |q'.log| && id in q'.log[j]
      ensures Continues(q'.log[..j], id, q'.log[j][id].before)
    {
      if j < |q.log| {
        assert q'.log[..j] == q.log[..j];
      } else {
        assert q'.log[..j] == q.log;
        assert Continues(q.log, id, q.rows[id]);
      }
    }
    forall id
      ensures id in q'.rows ==> Continues(q'.log, id, q'.rows[id])
      ensures id !in q'.rows ==> Prior(q'.log, id) == -1
    {
      PriorStep(q.log, changes, id);
    }
  }

  lemma {:induction false} RunsAreChained(steps: seq<Step>)
    ensures LogChained(Run(steps).log) && RowsCurrent(Run(steps))
  {
    if steps != [] {
      var q := Run(steps[..|steps| - 1]);
      RunsAreChained(steps[..|steps| - 1]);
      RunsKeepInvariant(steps[..|steps| - 1]);
      var changes := StepEffect(q, steps[|steps| - 1]);
      if !Quiet(q, Run(steps)) {
        ChainCommit(q, Run(steps), changes);
      }
    }
  }

  // ---------- Fencing ----------

  lemma {:induction false} LeavesCounts(log: seq<map<RowId, Change>>, id: RowId, token: Token, i: nat)
    requires i < |log| && Leaves?(log[i], id, token)
    ensures Leaves(log, id, token) >= 1
  {
    if i < |log| - 1 {
      LeavesCounts(log[..|log| - 1], id, token, i);
    }
  }

  lemma {:induction false} TwoLeavesCount(log: seq<map<RowId, Change>>, id: RowId, token: Token, i: nat, j: nat)
    requires i < j < |log| && Leaves?(log[i], id, token) && Leaves?(log[j], id, token)
    ensures Leaves(log, id, token) >= 2
  {
    if j < |log| - 1 {
      TwoLeavesCount(log[..|log| - 1], id, token, i, j);
    } else {
      LeavesCounts(log[..j], id, token, i);
    }
  }

  /** For every token, at most one committed change ever takes the row out of `processing` under it. */
  lemma AtMostOneLeave(steps: seq<Step>, id: RowId, token: Token, i: nat, j: nat)
    requires i < |Run(steps).log| && j < |Run(steps).log|
    requires Leaves?(Run(steps).log[i], id, token) && Leaves?(Run(steps).log[j], id, token)
    ensures i == j
  {
    RunsKeepInvariant(steps);
    var q := Run(steps);
    assert Claims(q.log, id, token) == Leaves(q.log, id, token) + Holds(q.rows, id, token);
    assert Claims(q.log, id, token) <= 1;
    if i < j {
      TwoLeavesCount(q.log, id, token, i, j);
    } else if j < i {
      TwoLeavesCount(q.log, id, token, j, i);
    }
  }

  /** A token belongs to one row and is claimed once; it is then either still held or has left once. */
  lemma TokenConservation(steps: seq<Step>, id: RowId, token: Token)
    ensures Claims(Run(steps).log, id, token) <= 1
    ensures Claims(Run(steps).log, id, token) == Leaves(Run(steps).log, id, token) + Holds(Run(steps).rows, id, token)
    ensures forall id' :: Claims(Run(steps).log, id, token) > 0 && Claims(Run(steps).log, id', token) > 0 ==> id == id'
  {
    RunsKeepInvariant(steps);
  }

  predicate EndsClaim(claim: Change, leave: Change) {
    && claim.cause.ByClaim?
    && claim.after == leave.before
    && match leave.cause
       case BySettlement(token, _, started, lockedAt, checkedAt) =>
         token == claim.cause.token && started <= lockedAt <= checkedAt < claim.cause.at + claim.cause.lease
       case ByRecovery(selectedAt, updatedAt, _) => claim.cause.at + claim.cause.lease <= selectedAt <= updatedAt
       case _ => false
  }

  lemma LeaveFollowsClaim(prior: Change, leave: Change)
    requires Legal(prior) && Legal(leave) && prior.after == leave.before
    requires leave.cause.BySettlement? || leave.cause.ByRecovery?
    ensures EndsClaim(prior, leave)
  {
  }

  /**
   * Whatever takes a row out of `processing` ends exactly the lease its claim granted, with nothing in
   * between: a settlement with the claim's token, checked before that lease expired at a time read
   * after the row lock was taken, or a recovery that saw it expired.
   */
  lemma LeavesEndTheirClaim(steps: seq<Step>, j: nat, id: RowId) returns (i: nat)
    requires j < |Run(steps).log| && id in Run(steps).log[j]
    requires Run(steps).log[j][id].cause.BySettlement? || Run(steps).log[j][id].cause.ByRecovery?
    ensures i < j && id in Run(steps).log[i] && (forall k :: i < k < j ==> id !in Run(steps).log[k])
    ensures EndsClaim(Run(steps).log[i][id], Run(steps).log[j][id])
  {
    RunsKeepInvariant(steps);
    RunsAreChained(steps);
    i := PriorOfLeave(Run(steps).log, j, id);
  }

  lemma PriorOfLeave(log: seq<map<RowId, Change>>, j: nat, id: RowId) returns (i: nat)
    requires LogLegal(log) && LogChained(log) && j < |log| && id in log[j]
    requires log[j][id].cause.BySettlement? || log[j][id].cause.ByRecovery?
    ensures i < j && id in log[i] && (forall k :: i < k < j ==> id !in log[k])
    ensures EndsClaim(log[i][id], log[j][id])
  {
    assert Continues(log[..j], id, log[j][id].before);
    assert Prior(log[..j], id) >= 0;
    i := Prior(log[..j], id);
    LeaveFollowsClaim(log[i][id], log[j][id]);
  }

  /** A claim follows only a change that made the row pending, and not before that change's delay is over. */
  predicate DueAfter(prior: Change, claim: Change) {
    && claim.cause.ByClaim?
    && match prior.cause
       case BySettlement(_, request, started, _, _) => request.Retry? && started + request.delay <= claim.cause.at
       case ByRecovery(_, updatedAt, delay) => updatedAt + delay <= claim.cause.at
       case ByRequeue(at) => at <= claim.cause.at
       case ByClaim(_, _, _, _) => false
  }

  lemma ClaimFollowsRelease(prior: Change, claim: Change)
    requires Legal(prior) && Legal(claim) && prior.after == claim.before && claim.cause.ByClaim?
    ensures DueAfter(prior, claim)
  {
  }

  /** No redelivery is early: every claim but a row's first waits out the delay the previous change set. */
  lemma NoEarlyRedelivery(steps: seq<Step>, j: nat, id: RowId)
    requires j < |Run(steps).log| && id in Run(steps).log[j] && Run(steps).log[j][id].cause.ByClaim?
    ensures var i := Prior(Run(steps).log[..j], id); i >= 0 ==> DueAfter(Run(steps).log[i][id], Run(steps).log[j][id])
  {
    RunsKeepInvariant(steps);
    RunsAreChained(steps);
    RedeliveryIsDue(Run(steps).log, j, id);
  }

  lemma RedeliveryIsDue(log: seq<map<RowId, Change>>, j: nat, id: RowId)
    requires LogLegal(log) && LogChained(log) && j < |log| && id in log[j] && log[j][id].cause.ByClaim?
    ensures Prior(log[..j], id) >= 0 ==> DueAfter(log[Prior(log[..j], id)][id], log[j][id])
  {
    assert Continues(log[..j], id, log[j][id].before);
    var i := Prior(log[..j], id);
    if i >= 0 {
      ClaimFollowsRelease(log[i][id], log[j][id]);
    }
  }

  // ---------- What a claim takes ----------

  /** The row is one the claim may take: pending, of the format asked for, due, and locked by nobody. */
  predicate Selectable(q: Queue, id: RowId, format: Format) {
    && id in q.rows
    && q.rows[id].status == Pending
    && q.rows[id].format == format
    && q.rows[id].availableAt <= q.clock
    && Unlocked(q, id)
  }

  /** A claim takes rows of its own format only, no more than its limit, and gives each a token of its own. */
  lemma ClaimsAreSelective(q: Queue, tx: TxId, format: Format, owner: string, limit: nat, lease: nat,
                           tokens: map<RowId, Token>, grants: map<Token, RowId>, id: RowId)
    requires tx !in q.txs && tx in Next(q, Claim(tx, format, owner, limit, lease, tokens, grants)).txs
    ensures var t := Next(q, Claim(tx, format, owner, limit, lease, tokens, grants)).txs[tx];
      && t.locks == t.changes.Keys
      && |t.changes.Keys| <= limit
      && (id in t.changes ==>
            && Selectable(q, id, format)
            && t.changes[id].cause.ByClaim?
            && t.changes[id].cause.token !in q.granted
            && (forall other :: other in t.changes && other != id ==> t.changes[other].cause.token != t.changes[id].cause.token))
  {
    var t, granted := ClaimNext(q, tx, format, owner, limit, lease, tokens, grants);
    assert |tokens| == |tokens.Keys|;
  }

  /** A recovery may lock any set of rows whose leases have expired and that nobody has locked, and no other. */
  lemma RecoveriesAreSelective(q: Queue, tx: TxId, ids: set<RowId>)
    requires tx !in q.txs
    ensures var q' := Next(q, RecoverSelect(tx, ids));
      && (tx in q'.txs <==>
            forall id :: id in ids ==>
              && Unlocked(q, id)
              && id in q.rows
              && q.rows[id].status == Processing
              && q.rows[id].lockedUntil.Some?
              && q.rows[id].lockedUntil.value <= q.clock)
      && (tx in q'.txs ==> q'.txs[tx].locks == ids && q'.txs[tx].changes == map[])
      && q'.rows == q.rows
  {
  }

  /** A recovery that commits has taken every row it selected out of `processing`. */
  lemma RecoveriesAreComplete(steps: seq<Step>, tx: TxId, id: RowId)
    requires tx in Run(steps).txs && Run(steps).txs[tx].stage.Recovering? && id in Run(steps).txs[tx].locks
    requires tx !in Next(Run(steps), Commit(tx)).txs
    ensures var q, q' := Run(steps), Next(Run(steps), Commit(tx));
      && id in q.rows
      && id in q'.rows
      && exists at, delay :: RecoveredAs(q.rows[id], q'.rows[id], at, delay)
  {
    RunsKeepInvariant(steps);
    var q := Run(steps);
    assert TxOk(q.rows, q.clock, q.granted, q.log, q.txs[tx]);
    RecoveryShows(q, tx, id);
  }

  lemma RecoveryShows(q: Queue, tx: TxId, id: RowId)
    requires tx in q.txs && q.txs[tx].stage.Recovering? && id in q.txs[tx].locks && tx !in Next(q, Commit(tx)).txs
    requires TxOk(q.rows, q.clock, q.granted, q.log, q.txs[tx])
    ensures id in q.rows && id in Next(q, Commit(tx)).rows
    ensures exists at, delay :: RecoveredAs(q.rows[id], Next(q, Commit(tx)).rows[id], at, delay)
  {
    var change := q.txs[tx].changes[id];
    assert Legal(change) && RecoveredAs(q.rows[id], change.after, change.cause.updatedAt, change.cause.delay);
  }

  // ---------- Continuing a run ----------

  lemma RunSplit(steps: seq<Step>, more: seq<Step>)
    requires more != []
    ensures Run(steps + more) == Next(Run(steps + more[..|more| - 1]), more[|more| - 1])
  {
    assert (steps + more)[..|steps + more| - 1] == steps + more[..|more| - 1];
  }

  lemma StepGrows(q: Queue, step: Step)
    ensures q.log <= Next(q, step).log && q.clock <= Next(q, step).clock
  {
  }

  lemma {:induction false} LogGrows(steps: seq<Step>, more: seq<Step>)
    ensures Run(steps).log <= Run(steps + more).log
    ensures Run(steps).clock <= Run(steps + more).clock
  {
    if more == [] {
      assert steps + more == steps;
    } else {
      var last := |more| - 1;
      LogGrows(steps, more[..last]);
      StepGrows(Run(steps + more[..last]), more[last]);
      RunSplit(steps, more);
    }
  }

  /** The change at this place of the log, if it is the first of the row, claims it when it is due. */
  predicate FirstIsDue(log: seq<map<RowId, Change>>, j: nat, id: RowId, row: Row)
    requires j < |log|
  {
    id in log[j] && Prior(log[..j], id) == -1 ==>
      log[j][id].before == row && log[j][id].cause.ByClaim? && row.availableAt <= log[j][id].cause.at
  }

  /** The task still waits as it was published, or its first change was a claim made when it was due. */
  ghost predicate WaitsOrClaimedWhenDue(log: seq<map<RowId, Change>>, rows: map<RowId, Row>, id: RowId, row: Row) {
    && id in rows
    && (Prior(log, id) == -1 ==> rows[id] == row)
    && (forall j :: 0 <= j < |log| ==> FirstIsDue(log, j, id, row))
  }

  predicate PublishedAs(row: Row, format: Format, maxAttempts: nat, availableAt: Time) {
    && row.format == format
    && row.status == Pending
    && row.attempts == 0
    && row.maxAttempts == maxAttempts
    && row.availableAt == availableAt
    && row.finishedAt == None
    && Unleased(row)
  }

  lemma FirstChangeClaims(row: Row, change: Change)
    requires Legal(change) && change.before == row && row.status == Pending
    ensures change.cause.ByClaim? && row.availableAt <= change.cause.at
  {
  }

  lemma WaitsCommit(q: Queue, q': Queue, changes: map<RowId, Change>, id: RowId, row: Row)
    requires Commits(q, q', changes) && row.status == Pending && WaitsOrClaimedWhenDue(q.log, q.rows, id, row)
    ensures WaitsOrClaimedWhenDue(q'.log, q'.rows, id, row)
  {
    PriorStep(q.log, changes, id);
    if id in changes && Prior(q.log, id) == -1 {
      FirstChangeClaims(row, changes[id]);
    }
    forall j | 0 <= j < |q'.log|
      ensures FirstIsDue(q'.log, j, id, row)
    {
      if j < |q.log| {
        assert FirstIsDue(q.log, j, id, row) && q'.log[..j] == q.log[..j];
      } else {
        assert q'.log[..j] == q.log;
      }
    }
  }

  lemma WaitsStep(q: Queue, step: Step, id: RowId, row: Row)
    requires TxsOk(q) && row.status == Pending && WaitsOrClaimedWhenDue(q.log, q.rows, id, row)
    ensures WaitsOrClaimedWhenDue(Next(q, step).log, Next(q, step).rows, id, row)
  {
    var changes := StepEffect(q, step);
    if !Quiet(q, Next(q, step)) {
      WaitsCommit(q, Next(q, step), changes, id, row);
    }
  }

  /** Publishing adds exactly this pending row; it then waits unchanged until a claim made when it is due. */
  lemma {:induction false} PublishedTasksWait(steps: seq<Step>, more: seq<Step>, id: RowId, format: Format, maxAttempts: nat,
                                              availableAt: Time)
    returns (row: Row)
    requires id !in Run(steps).rows && maxAttempts > 0
    ensures PublishedAs(row, format, maxAttempts, availableAt)
    ensures var published := steps + [Publish(id, format, maxAttempts, availableAt)];
      && Run(published).rows == Run(steps).rows[id := row]
      && WaitsOrClaimedWhenDue(Run(published + more).log, Run(published + more).rows, id, row)
  {
    row := NewRow(format, maxAttempts, availableAt);
    var publish := Publish(id, format, maxAttempts, availableAt);
    var published := steps + [publish];
    assert published[..|steps|] == steps;
    if more == [] {
      RunsAreChained(steps);
      NothingBeforePublication(Run(steps).log, id);
      assert published + more == published;
    } else {
      var last := |more| - 1;
      var _ := PublishedTasksWait(steps, more[..last], id, format, maxAttempts, availableAt);
      RunSplit(published, more);
      RunsKeepInvariant(published + more[..last]);
      WaitsStep(Run(published + more[..last]), more[last], id, row);
    }
  }

  lemma NothingBeforePublication(log: seq<map<RowId, Change>>, id: RowId)
    requires Prior(log, id) == -1
    ensures forall j :: 0 <= j < |log| ==> id !in log[j]
  {
  }

  /** A published task is never removed and keeps its format and its limit. */
  lemma {:induction false} TasksPersist(steps: seq<Step>, more: seq<Step>, id: RowId)
    requires id in Run(steps).rows
    ensures id in Run(steps + more).rows
    ensures Run(steps + more).rows[id].format == Run(steps).rows[id].format
    ensures Run(steps + more).rows[id].maxAttempts == Run(steps).rows[id].maxAttempts
  {
    if more == [] {
      assert steps + more == steps;
    } else {
      var last := |more| - 1;
      TasksPersist(steps, more[..last], id);
      RunSplit(steps, more);
      RunsKeepInvariant(steps + more[..last]);
      var _ := RowStep(Run(steps + more[..last]), more[last], id);
    }
  }

  /** A completed task never changes again; a failed one only by a manual requeue of that task. */
  lemma {:induction false} TerminalIsAbsorbing(steps: seq<Step>, more: seq<Step>, id: RowId)
    requires id in Run(steps).rows
    requires Run(steps).rows[id].status == Completed || (Run(steps).rows[id].status == Failed && Requeue(id) !in more)
    ensures id in Run(steps + more).rows && Run(steps + more).rows[id] == Run(steps).rows[id]
  {
    if more == [] {
      assert steps + more == steps;
    } else {
      var last := |more| - 1;
      TerminalIsAbsorbing(steps, more[..last], id);
      RunSplit(steps, more);
      RunsKeepInvariant(steps + more[..last]);
      var _ := RowStep(Run(steps + more[..last]), more[last], id);
    }
  }

  /**
   * Every task is in one of three situations: pending with attempts left, processing under a complete
   * lease, or terminal with its finish time and no lease.
   */
  lemma NoTaskIsLost(steps: seq<Step>, id: RowId)
    requires id in Run(steps).rows
    ensures var row := Run(steps).rows[id];
      match row.status
      case Pending => row.attempts < row.maxAttempts && row.lockToken == None && row.lockedUntil == None && row.finishedAt == None
      case Processing => row.lockedBy.Some? && row.lockToken.Some? && row.lockedUntil.Some? && row.finishedAt == None
      case _ => row.finishedAt.Some? && row.lockedBy == None && row.lockToken == None && row.lockedUntil == None
  {
    RunsKeepInvariant(steps);
  }

  /**
   * Claims and changes of a task since it was published or last requeued: the attempt counter is the
   * number of claims, every claim is matched by one leave except the outstanding one, and the limit
   * bounds both.
   */
  lemma ClaimsAreBounded(steps: seq<Step>, id: RowId)
    requires id in Run(steps).rows
    ensures var row, log := Run(steps).rows[id], Run(steps).log;
      && Attempts(log, id) == row.attempts <= row.maxAttempts
      && Changes(log, id) == 2 * row.attempts - (if row.status == Processing then 1 else 0)
      && Changes(log, id) + Measure(row) <= 2 * row.maxAttempts
  {
    RunsKeepInvariant(steps);
    assert Counted(Run(steps).rows, Run(steps).log, id);
  }

  // ---------- Stale tokens ----------

  lemma {:induction false} LeaveExists(log: seq<map<RowId, Change>>, id: RowId, token: Token) returns (i: nat)
    requires Leaves(log, id, token) > 0
    ensures i < |log| && Leaves?(log[i], id, token)
  {
    if Leaves?(log[|log| - 1], id, token) {
      i := |log| - 1;
    } else {
      i := LeaveExists(log[..|log| - 1], id, token);
    }
  }

  /** Once a claimed token is no longer the row's token, no later commit changes the row under it. */
  lemma StaleTokensChangeNothing(steps: seq<Step>, more: seq<Step>, id: RowId, token: Token, j: nat)
    requires Claims(Run(steps).log, id, token) > 0 && Holds(Run(steps).rows, id, token) == 0
    requires |Run(steps).log| <= j < |Run(steps + more).log|
    ensures !Leaves?(Run(steps + more).log[j], id, token)
  {
    TokenConservation(steps, id, token);
    var i := LeaveExists(Run(steps).log, id, token);
    LogGrows(steps, more);
    assert Run(steps + more).log[i] == Run(steps).log[i];
    if Leaves?(Run(steps + more).log[j], id, token) {
      AtMostOneLeave(steps + more, id, token, i, j);
    }
  }

  /** Presenting a token the row does not hold locks nothing and prepares no change. */
  lemma StaleSettlementIsEmpty(q: Queue, tx: TxId)
    requires tx in q.txs && q.txs[tx].stage.Waiting?
    requires q.txs[tx].stage.id in q.rows ==> q.rows[q.txs[tx].stage.id].lockToken != Some(q.txs[tx].stage.token)
    ensures Next(q, SettleLock(tx)).txs[tx] == Tx({}, map[], Settled)
    ensures Next(Next(q, SettleLock(tx)), Commit(tx)).rows == q.rows
  {
    var q' := Next(q, SettleLock(tx));
    assert Apply(q.rows, map[]) == q.rows;
  }

  // ---------- Live leases ----------

  ghost predicate Leased(q: Queue, id: RowId, token: Token, until: Time) {
    && id in q.rows
    && q.rows[id].status == Processing
    && q.rows[id].lockToken == Some(token)
    && q.rows[id].lockedUntil == Some(until)
  }

  ghost predicate SettledSince(log: seq<map<RowId, Change>>, start: nat, id: RowId, token: Token) {
    exists j :: start <= j < |log| && id in log[j] && log[j][id].cause.BySettlement? && log[j][id].cause.token == token
  }

  lemma SettledSinceGrows(log: seq<map<RowId, Change>>, log': seq<map<RowId, Change>>, start: nat, id: RowId, token: Token)
    requires log <= log' && SettledSince(log, start, id, token)
    ensures SettledSince(log', start, id, token)
  {
    var j :| start <= j < |log| && id in log[j] && log[j][id].cause.BySettlement? && log[j][id].cause.token == token;
    assert log'[j] == log[j];
  }

  lemma LeaseStep(q: Queue, step: Step, id: RowId, token: Token, until: Time)
    requires TxsOk(q) && Leased(q, id, token, until) && q.clock < until
    ensures (id in Next(q, step).rows && Next(q, step).rows[id] == q.rows[id]) ||
            SettledSince(Next(q, step).log, |q.log|, id, token)
  {
    var change := RowStep(q, step, id);
  }

  /** Before its expiry, nothing but a settlement with its own token ends a lease. */
  lemma {:induction false} LeaseIsExclusive(steps: seq<Step>, more: seq<Step>, id: RowId, token: Token, until: Time)
    requires Leased(Run(steps), id, token, until) && Run(steps + more).clock < until
    requires !SettledSince(Run(steps + more).log, |Run(steps).log|, id, token)
    ensures Leased(Run(steps + more), id, token, until) && Run(steps + more).rows[id] == Run(steps).rows[id]
  {
    if more == [] {
      assert steps + more == steps;
    } else {
      var last := |more| - 1;
      var before := steps + more[..last];
      RunSplit(steps, more);
      RunsKeepInvariant(before);
      LogGrows(before, [more[last]]);
      assert before + [more[last]] == steps + more;
      LogGrows(steps, more[..last]);
      if SettledSince(Run(before).log, |Run(steps).log|, id, token) {
        SettledSinceGrows(Run(before).log, Run(steps + more).log, |Run(steps).log|, id, token);
      }
      LeaseIsExclusive(steps, more[..last], id, token, until);
      LeaseStep(Run(before), more[last], id, token, until);
    }
  }

  /** Only settlements that carry the lease's own token can hold the lock of a row whose lease is live. */
  lemma LiveLeaseContention(steps: seq<Step>, tx: TxId, id: RowId, token: Token, until: Time)
    requires Leased(Run(steps), id, token, until) && Run(steps).clock < until
    requires tx in Run(steps).txs && id in Run(steps).txs[tx].locks
    ensures var t := Run(steps).txs[tx];
      || (t.stage.Locked? && t.stage.token == token)
      || (t.stage.Settled? && id in t.changes && t.changes[id].cause.BySettlement? && t.changes[id].cause.token == token)
  {
    RunsKeepInvariant(steps);
    var q := Run(steps);
    assert TxOk(q.rows, q.clock, q.granted, q.log, q.txs[tx]);
  }

  lemma LockTaken(q: Queue, tx: TxId, id: RowId, token: Token, request: SettlementRequest, started: Time, until: Time)
    requires Leased(q, id, token, until) && Unlocked(q, id)
    requires tx in q.txs && q.txs[tx].stage == Waiting(id, token, request, started)
    ensures Next(q, SettleLock(tx)) == q.(txs := q.txs[tx := Tx({id}, map[], Locked(id, token, request, started, q.clock))])
  {
  }

  // ---------- The window between lock and commit ----------

  predicate Of(step: Step, tx: TxId) {
    !step.Tick? && !step.Publish? && !step.Requeue? && step.tx == tx
  }

  predicate NoneOf(steps: seq<Step>, tx: TxId) {
    forall i :: 0 <= i < |steps| ==> !Of(steps[i], tx)
  }

  /** A row locked by one transaction is not among the changes another one commits. */
  lemma OthersChangesMiss(q: Queue, tx: TxId, other: TxId, id: RowId)
    requires TxsOk(q) && LocksDisjoint(q.txs) && tx in q.txs && other in q.txs && tx != other && id in q.txs[tx].locks
    ensures id !in q.txs[other].changes
  {
    assert TxOk(q.rows, q.clock, q.granted, q.log, q.txs[other]);
    assert q.txs[tx].locks !! q.txs[other].locks;
  }

  lemma HolderCommit(q: Queue, other: TxId, tx: TxId, id: RowId)
    requires TxsOk(q) && LocksDisjoint(q.txs) && tx in q.txs && id in q.txs[tx].locks && id in q.rows && other != tx
    ensures var q' := Next(q, Commit(other));
      tx in q'.txs && q'.txs[tx] == q.txs[tx] && id in q'.rows && q'.rows[id] == q.rows[id]
  {
    if other in q.txs {
      OthersChangesMiss(q, tx, other, id);
    }
  }

  lemma HolderQuiet(q: Queue, step: Step, tx: TxId, id: RowId)
    requires tx in q.txs && id in q.txs[tx].locks && id in q.rows && !Of(step, tx) && !step.Commit?
    ensures var q' := Next(q, step);
      tx in q'.txs && q'.txs[tx] == q.txs[tx] && id in q'.rows && q'.rows[id] == q.rows[id]
  {
  }

  lemma HolderStep(q: Queue, step: Step, tx: TxId, id: RowId)
    requires TxsOk(q) && LocksDisjoint(q.txs) && tx in q.txs && id in q.txs[tx].locks && id in q.rows && !Of(step, tx)
    ensures var q' := Next(q, step);
      tx in q'.txs && q'.txs[tx] == q.txs[tx] && id in q'.rows && q'.rows[id] == q.rows[id]
  {
    if step.Commit? {
      HolderCommit(q, step.tx, tx, id);
    } else {
      HolderQuiet(q, step, tx, id);
    }
  }

  /** While only others step, a transaction that holds a row's lock keeps its own record and that row. */
  lemma {:induction false} HolderIsUndisturbed(steps: seq<Step>, others: seq<Step>, tx: TxId, id: RowId)
    requires tx in Run(steps).txs && id in Run(steps).txs[tx].locks && id in Run(steps).rows && NoneOf(others, tx)
    ensures var q, q' := Run(steps), Run(steps + others);
      tx in q'.txs && q'.txs[tx] == q.txs[tx] && id in q'.rows && q'.rows[id] == q.rows[id]
  {
    if others == [] {
      assert steps + others == steps;
    } else {
      var last := |others| - 1;
      HolderIsUndisturbed(steps, others[..last], tx, id);
      RunSplit(steps, others);
      RunsKeepInvariant(steps + others[..last]);
      HolderStep(Run(steps + others[..last]), others[last], tx, id);
    }
  }

  lemma LockedRow(steps: seq<Step>, tx: TxId)
    requires tx in Run(steps).txs && Run(steps).txs[tx].stage.Locked?
    ensures var q, t := Run(steps), Run(steps).txs[tx];
      && t.locks == {t.stage.id}
      && t.stage.id in q.rows
      && q.rows[t.stage.id].lockToken == Some(t.stage.token)
      && q.rows[t.stage.id].lockedUntil.Some?
  {
    RunsKeepInvariant(steps);
    assert TxOk(Run(steps).rows, Run(steps).clock, Run(steps).granted, Run(steps).log, Run(steps).txs[tx]);
    assert Valid(Run(steps).rows[Run(steps).txs[tx].stage.id]);
  }

  /** The prepared change of a checked settlement, by the clock it read. */
  lemma CheckPrepares(q: Queue, tx: TxId)
    requires tx in q.txs && q.txs[tx].stage.Locked? && q.txs[tx].stage.id in q.rows
    requires q.rows[q.txs[tx].stage.id].lockedUntil.Some?
    ensures var t, t' := q.txs[tx], Next(q, SettleCheck(tx)).txs[tx];
      var row := q.rows[t.stage.id];
      && Next(q, SettleCheck(tx)).rows == q.rows
      && t'.locks == t.locks
      && t'.stage == Settled
      && (if q.clock < row.lockedUntil.value
          then t.stage.id in t'.changes && SettledAs(row, t'.changes[t.stage.id].after, t.stage.request, t.stage.started)
          else t'.changes == map[])
  {
  }

  lemma CommitPublishes(q: Queue, tx: TxId, id: RowId)
    requires tx in q.txs && q.txs[tx].stage.Settled? && id in q.rows
    ensures var changes, rows := q.txs[tx].changes, Next(q, Commit(tx)).rows;
      id in rows && rows[id] == if id in changes then changes[id].after else q.rows[id]
  {
  }

  /**
   * Once a settlement has the row lock, the clock it reads decides, whatever other transactions, ticks
   * and publications fall between its lock, its check and its commit: before the expiry the row is
   * settled as requested, and at or after the expiry it stays as it was.
   */
  lemma SettlementDecidedByClock(steps: seq<Step>, a: seq<Step>, b: seq<Step>, tx: TxId)
    requires tx in Run(steps).txs && Run(steps).txs[tx].stage.Locked? && NoneOf(a, tx) && NoneOf(b, tx)
    ensures var stage := Run(steps).txs[tx].stage;
      var rows := Run(steps + a + [SettleCheck(tx)] + b + [Commit(tx)]).rows;
      && stage.id in Run(steps).rows
      && Run(steps).rows[stage.id].lockedUntil.Some?
      && stage.id in rows
      && if Run(steps + a).clock < Run(steps).rows[stage.id].lockedUntil.value
         then SettledAs(Run(steps).rows[stage.id], rows[stage.id], stage.request, stage.started)
         else rows[stage.id] == Run(steps).rows[stage.id]
  {
    var id := Run(steps).txs[tx].stage.id;
    LockedRow(steps, tx);
    HolderIsUndisturbed(steps, a, tx, id);
    CheckPrepares(Run(steps + a), tx);
    var checked := steps + a + [SettleCheck(tx)];
    RunSplit(steps + a, [SettleCheck(tx)]);
    assert steps + a + [SettleCheck(tx)][..0] == steps + a;
    HolderIsUndisturbed(checked, b, tx, id);
    CommitPublishes(Run(checked + b), tx, id);
    RunSplit(checked + b, [Commit(tx)]);
    assert checked + b + [Commit(tx)][..0] == checked + b;
  }
}
