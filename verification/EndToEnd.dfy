/** Local budget and database fencing together: a delivery executed by a healthy pool is never fenced. */
module EndToEnd {
  import opened Wrappers
  import opened LeaseBudget
  import Q = TaskQueue
  import G = QueueGuarantees
  import opened Poller
  import P = WorkerPool
  import H = HealthyPool

  /** How the local lease of a delivery and its database lease come from the same claim. */
  ghost predicate SameClaim(task: LeasedTask, lease: Duration, granted: Instant, skew: int, stored: nat, until: Q.Time) {
    && task.deadline == task.anchor + lease
    && task.anchor <= granted
    && StoredLease(lease, stored)
    && granted + skew + stored == until
  }

  /**
   * A handler that ends by its deadline leaves a settlement the full storage timeout, and a clock check
   * made within that time reads a database time before the expiry.
   */
  lemma CheckPrecedesExpiry(now: Instant, task: LeasedTask, handlerTimeout: Duration, storageTimeout: Duration,
                            maxInstant: Instant, finished: Instant, checked: Instant, lease: Duration, granted: Instant,
                            skew: int, stored: nat, until: Q.Time)
    requires H.RunsInFull(now, task.deadline, handlerTimeout, storageTimeout, maxInstant)
    requires task.deadline <= maxInstant && storageTimeout > 0
    requires SameClaim(task, lease, granted, skew, stored, until)
    requires now <= finished <= now + handlerTimeout && finished <= checked <= finished + storageTimeout
    ensures SettleBefore(finished, task.deadline - SAFETY_MARGIN, storageTimeout) == Ok(finished + storageTimeout)
    ensures checked + skew < until
  {
    PlanIsExact(now, task.deadline, handlerTimeout, storageTimeout, maxInstant);
    RunLeavesFullSettlement(now, task.deadline, handlerTimeout, storageTimeout, maxInstant, finished);
    LocalDeadlineIsConservative(task.anchor, granted, checked, skew, lease, stored);
  }

  /** A settlement's own steps from its lock to its commit, with any steps of others in between. */
  function Settling(tx: Q.TxId, a: seq<Q.Step>, b: seq<Q.Step>): seq<Q.Step> {
    [Q.SettleLock(tx)] + a + [Q.SettleCheck(tx)] + b + [Q.Commit(tx)]
  }

  /** The lock is granted on a row whose lease still holds. */
  lemma LockGranted(claimed: seq<Q.Step>, before: seq<Q.Step>, id: Q.RowId, token: Q.Token, until: Q.Time, tx: Q.TxId,
                    request: Q.SettlementRequest, started: Q.Time)
    requires G.Leased(Q.Run(claimed), id, token, until) && Q.Run(claimed + before).clock < until
    requires !G.SettledSince(Q.Run(claimed + before).log, |Q.Run(claimed).log|, id, token)
    requires tx in Q.Run(claimed + before).txs && Q.Run(claimed + before).txs[tx].stage == Q.Waiting(id, token, request, started)
    requires Q.Unlocked(Q.Run(claimed + before), id)
    ensures var q := Q.Run(claimed + before + [Q.SettleLock(tx)]);
      && tx in q.txs
      && q.txs[tx].stage == Q.Locked(id, token, request, started, q.clock)
      && q.rows == Q.Run(claimed + before).rows
      && id in q.rows
      && q.rows[id] == Q.Run(claimed).rows[id]
  {
    G.LeaseIsExclusive(claimed, before, id, token, until);
    G.LockTaken(Q.Run(claimed + before), tx, id, token, request, started, until);
    G.RunSplit(claimed + before, [Q.SettleLock(tx)]);
    assert claimed + before + [Q.SettleLock(tx)][..0] == claimed + before;
  }

  /**
   * Whatever other transactions do from the claim to the commit, a settlement that gets its lock and
   * reads the clock before the expiry settles its row as requested, unless its own token already did.
   */
  lemma LiveLeaseSettles(claimed: seq<Q.Step>, before: seq<Q.Step>, a: seq<Q.Step>, b: seq<Q.Step>, id: Q.RowId,
                         token: Q.Token, until: Q.Time, tx: Q.TxId, request: Q.SettlementRequest, started: Q.Time)
    requires G.Leased(Q.Run(claimed), id, token, until)
    requires !G.SettledSince(Q.Run(claimed + before).log, |Q.Run(claimed).log|, id, token)
    requires tx in Q.Run(claimed + before).txs && Q.Run(claimed + before).txs[tx].stage == Q.Waiting(id, token, request, started)
    requires Q.Unlocked(Q.Run(claimed + before), id) && G.NoneOf(a, tx) && G.NoneOf(b, tx)
    requires Q.Run(claimed + before + [Q.SettleLock(tx)] + a).clock < until
    ensures var rows := Q.Run(claimed + before + Settling(tx, a, b)).rows;
      id in rows && Q.SettledAs(Q.Run(claimed).rows[id], rows[id], request, started)
  {
    var locked := claimed + before + [Q.SettleLock(tx)];
    G.LogGrows(claimed + before, [Q.SettleLock(tx)] + a);
    assert claimed + before + ([Q.SettleLock(tx)] + a) == locked + a;
    LockGranted(claimed, before, id, token, until, tx, request, started);
    G.SettlementDecidedByClock(locked, a, b, tx);
    assert locked + a + [Q.SettleCheck(tx)] + b + [Q.Commit(tx)] == claimed + before + Settling(tx, a, b);
  }

  /**
   * In a healthy pool, an executed delivery whose handler and settlement keep their own timeouts is
   * settled exactly as requested, whatever else happens to the queue between its claim and its commit,
   * unless its own token already settled it.
   */
  lemma HealthyDeliveriesSettle(config: P.Config, steps: seq<P.Step>, i: nat, maxInstant: Instant,
                                finished: Instant, checked: Instant, granted: Instant, skew: int, stored: nat, until: Q.Time,
                                claimed: seq<Q.Step>, before: seq<Q.Step>, a: seq<Q.Step>, b: seq<Q.Step>, tx: Q.TxId,
                                request: Q.SettlementRequest, started: Q.Time)
    requires config.Valid() && H.Healthy(config, steps)
    requires i < |P.Run(config, steps).taken| && P.Run(config, steps).taken[i].executed
    requires P.Run(config, steps).taken[i].entry.task.deadline <= maxInstant
    requires SameClaim(P.Run(config, steps).taken[i].entry.task, config.pool.leaseDuration, granted, skew, stored, until)
    requires P.Run(config, steps).taken[i].at <= finished <= P.Run(config, steps).taken[i].at + config.pool.handlerTimeout
    requires finished <= checked <= finished + config.storageTimeout
    requires G.NoneOf(a, tx) && G.NoneOf(b, tx)
    requires var task := P.Run(config, steps).taken[i].entry.task;
      && G.Leased(Q.Run(claimed), task.id, task.token, until)
      && !G.SettledSince(Q.Run(claimed + before).log, |Q.Run(claimed).log|, task.id, task.token)
      && tx in Q.Run(claimed + before).txs
      && Q.Run(claimed + before).txs[tx].stage == Q.Waiting(task.id, task.token, request, started)
      && Q.Unlocked(Q.Run(claimed + before), task.id)
      && Q.Run(claimed + before + [Q.SettleLock(tx)] + a).clock == checked + skew
    ensures var rows, id := Q.Run(claimed + before + Settling(tx, a, b)).rows, P.Run(config, steps).taken[i].entry.task.id;
      id in rows && Q.SettledAs(Q.Run(claimed).rows[id], rows[id], request, started)
  {
    var take := P.Run(config, steps).taken[i];
    assert checked + skew < until by {
      H.EveryExecutionHadItsBudget(config, steps, i, maxInstant);
      CheckPrecedesExpiry(take.at, take.entry.task, config.pool.handlerTimeout, config.storageTimeout, maxInstant, finished,
                          checked, config.pool.leaseDuration, granted, skew, stored, until);
    }
    LiveLeaseSettles(claimed, before, a, b, take.entry.task.id, take.entry.task.token, until, tx, request, started);
  }
}
