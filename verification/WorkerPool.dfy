/**
 * The background runtime: one producer that claims into a bounded FIFO, and a fixed number of workers that
 * dequeue and execute, with crashes, restarts and shutdown at any point.
 */
module WorkerPool {
  import opened Wrappers
  import opened LeaseBudget
  import opened Poller

  datatype Entry = Entry(task: LeasedTask, enqueued: Instant)

  /** A crashed worker is down from its dequeue until the supervisor spawns its replacement. */
  datatype Worker = Idle | Busy(ticket: nat, since: Instant) | Down(since: Instant) | Exited

  datatype Producer = Watching | Claiming(limit: nat, started: Instant)

  datatype Phase = Running | Stopping | Panicked

  /** One dequeue: which worker took which entry, when, and whether it went on to execute it. */
  datatype Take = Take(entry: Entry, worker: nat, at: Instant, executed: bool)

  datatype Config = Config(pool: PoolConfig, storageTimeout: Duration) {
    predicate Valid() {
      ValidConfig(pool) && ValidateForStorageTimeout(pool, storageTimeout) == Ok(())
    }

    function Invocation(): nat {
      pool.handlerTimeout + storageTimeout
    }

    function Waves(): nat
      requires pool.concurrency > 0
    {
      DivCeil(pool.queueCapacity, pool.concurrency)
    }
  }

  /** `admitted` and `taken` remember every enqueue and dequeue in order. */
  datatype Pool = Pool(
    now: Instant,
    fifo: seq<Entry>,
    workers: seq<Worker>,
    producer: Producer,
    phase: Phase,
    admitted: seq<Entry>,
    taken: seq<Take>
  )

  datatype Step =
    | Tick(elapsed: nat)
    | StartClaim
    | FinishClaim(answers: seq<Answer>, n: nat)
    | FailClaim
    | Dequeue(w: nat)
    | Finish(w: nat)
    | Crash(w: nat)
    | Restart(w: nat)
    | Leave(w: nat)
    | Shutdown

  /** What one claim may return: each answer within its limit, each deadline anchored inside the claim. */
  predicate Returned(config: Config, p: Pool, answers: seq<Answer>, n: nat)
    requires p.producer.Claiming?
  {
    && n <= |answers|
    && HonoursLimit(answers, p.producer.limit)
    && (forall i :: 0 <= i < |Confirmed(answers, n)| ==>
          && p.producer.started <= Confirmed(answers, n)[i].anchor <= p.now
          && Confirmed(answers, n)[i].deadline == Confirmed(answers, n)[i].anchor + config.pool.leaseDuration)
  }

  function Entries(batch: seq<LeasedTask>, now: Instant): (entries: seq<Entry>)
    ensures |entries| == |batch|
    ensures forall i :: 0 <= i < |batch| ==> entries[i] == Entry(batch[i], now)
  {
    seq(|batch|, i requires 0 <= i < |batch| => Entry(batch[i], now))
  }

  /** The two assertions of the supervisor: the batch is within its limit and every send fits. */
  predicate AssertionsHold(config: Config, p: Pool, batch: seq<LeasedTask>)
    requires p.producer.Claiming?
  {
    |batch| <= p.producer.limit && |p.fifo| + |batch| <= config.pool.queueCapacity
  }

  function AfterClaim(config: Config, p: Pool, batch: seq<LeasedTask>): Pool
    requires p.producer.Claiming?
  {
    if p.phase != Running then p.(producer := Watching)
    else if !AssertionsHold(config, p, batch) then p.(phase := Panicked)
    else p.(producer := Watching, fifo := p.fifo + Entries(batch, p.now), admitted := p.admitted + Entries(batch, p.now))
  }

  /** A worker that dequeues while the pool is stopping drops the delivery and exits. */
  function AfterDequeue(p: Pool, w: nat): Pool
    requires w < |p.workers| && p.fifo != []
  {
    var executed := p.phase == Running;
    p.(fifo := p.fifo[1..],
       workers := p.workers[w := if executed then Busy(|p.taken|, p.now) else Exited],
       taken := p.taken + [Take(p.fifo[0], w, p.now, executed)])
  }

  /** A step that is not enabled leaves the pool unchanged. */
  function Next(config: Config, p: Pool, step: Step): Pool {
    if p.phase == Panicked then p
    else
      match step
      case Tick(elapsed) => p.(now := p.now + elapsed)
      case StartClaim =>
        if p.producer.Watching? && p.phase == Running && |p.fifo| < config.pool.queueCapacity
        then p.(producer := Claiming(config.pool.queueCapacity - |p.fifo|, p.now)) else p
      case FinishClaim(answers, n) =>
        if p.producer.Claiming? && Returned(config, p, answers, n) then AfterClaim(config, p, Confirmed(answers, n)) else p
      case FailClaim => if p.producer.Claiming? then p.(producer := Watching) else p
      case Dequeue(w) => if w < |p.workers| && p.workers[w].Idle? && p.fifo != [] then AfterDequeue(p, w) else p
      case Finish(w) => if w < |p.workers| && p.workers[w].Busy? then p.(workers := p.workers[w := Idle]) else p
      case Crash(w) =>
        if w < |p.workers| && p.workers[w].Busy? then p.(workers := p.workers[w := Down(p.workers[w].since)]) else p
      case Restart(w) =>
        if w < |p.workers| && p.workers[w].Down? && p.producer.Watching? && p.phase == Running
        then p.(workers := p.workers[w := Idle]) else p
      case Leave(w) => if w < |p.workers| && p.workers[w].Idle? && p.phase == Stopping then p.(workers := p.workers[w := Exited]) else p
      case Shutdown => p.(phase := Stopping)
  }

  function Start(config: Config): Pool {
    Pool(0, [], seq(config.pool.concurrency, _ => Idle), Watching, Running, [], [])
  }

  function Run(config: Config, steps: seq<Step>): Pool {
    if steps == [] then Start(config) else Next(config, Run(config, steps[..|steps| - 1]), steps[|steps| - 1])
  }

  // ---------- Bounded admission ----------

  lemma {:induction false} ConfirmedWithinLimit(answers: seq<Answer>, limit: nat, n: nat)
    requires HonoursLimit(answers, limit) && n <= |answers|
    ensures |Confirmed(answers, n)| <= limit
  {
    if n > 0 {
      ConfirmedWithinLimit(answers, limit, n - 1);
      assert Honours(answers, limit, n - 1);
    }
  }

  function Taken(taken: seq<Take>): (entries: seq<Entry>)
    ensures |entries| == |taken|
    ensures forall i :: 0 <= i < |taken| ==> entries[i] == taken[i].entry
  {
    seq(|taken|, i requires 0 <= i < |taken| => taken[i].entry)
  }

  ghost predicate WorkersOk(p: Pool) {
    forall w {:trigger p.workers[w]} :: 0 <= w < |p.workers| ==>
      match p.workers[w]
      case Busy(ticket, since) => ticket < |p.taken| && p.taken[ticket].worker == w && p.taken[ticket].executed && since <= p.now
      case Down(since) => since <= p.now
      case _ => true
  }

  ghost predicate Invariant(config: Config, p: Pool) {
    && p.phase != Panicked
    && |p.workers| == config.pool.concurrency
    && |p.fifo| <= config.pool.queueCapacity
    && (p.producer.Claiming? ==> |p.fifo| + p.producer.limit <= config.pool.queueCapacity && p.producer.started <= p.now)
    && p.admitted == Taken(p.taken) + p.fifo
    && WorkersOk(p)
  }

  lemma DequeueKeepsInvariant(config: Config, p: Pool, w: nat)
    requires Invariant(config, p) && w < |p.workers| && p.workers[w].Idle? && p.fifo != []
    ensures Invariant(config, AfterDequeue(p, w))
  {
    var p' := AfterDequeue(p, w);
    assert Taken(p'.taken) == Taken(p.taken) + [p.fifo[0]];
  }

  lemma ClaimKeepsInvariant(config: Config, p: Pool, answers: seq<Answer>, n: nat)
    requires Invariant(config, p) && p.producer.Claiming? && Returned(config, p, answers, n)
    ensures Invariant(config, AfterClaim(config, p, Confirmed(answers, n)))
  {
    ConfirmedWithinLimit(answers, p.producer.limit, n);
  }

  lemma NextKeepsInvariant(config: Config, p: Pool, step: Step)
    requires Invariant(config, p)
    ensures Invariant(config, Next(config, p, step))
  {
    match step
    case FinishClaim(answers, n) =>
      if p.producer.Claiming? && Returned(config, p, answers, n) {
        ClaimKeepsInvariant(config, p, answers, n);
      }
    case Dequeue(w) =>
      if w < |p.workers| && p.workers[w].Idle? && p.fifo != [] {
        DequeueKeepsInvariant(config, p, w);
      }
    case _ =>
  }

  lemma {:induction false} RunsKeepInvariant(config: Config, steps: seq<Step>)
    ensures Invariant(config, Run(config, steps))
  {
    if steps != [] {
      RunsKeepInvariant(config, steps[..|steps| - 1]);
      NextKeepsInvariant(config, Run(config, steps[..|steps| - 1]), steps[|steps| - 1]);
    }
  }

  /**
   * In every run the buffered deliveries and the batch being claimed fit the queue together, neither
   * supervisor assertion fails, and there are always exactly the configured workers.
   */
  lemma AdmissionIsBounded(config: Config, steps: seq<Step>)
    ensures var p := Run(config, steps);
      && |p.fifo| + (if p.producer.Claiming? then p.producer.limit else 0) <= config.pool.queueCapacity
      && p.phase != Panicked
      && |p.workers| == config.pool.concurrency
  {
    RunsKeepInvariant(config, steps);
  }

  /**
   * Deliveries leave in the order they were admitted, none is lost or duplicated on the way, and no two
   * workers ever execute the same one.
   */
  lemma DeliveriesAreConserved(config: Config, steps: seq<Step>, w: nat, w': nat)
    requires w < |Run(config, steps).workers| && w' < |Run(config, steps).workers|
    ensures var p := Run(config, steps); p.admitted == Taken(p.taken) + p.fifo
    ensures var p := Run(config, steps);
      p.workers[w].Busy? && p.workers[w'].Busy? && p.workers[w].ticket == p.workers[w'].ticket ==> w == w'
    ensures var p := Run(config, steps);
      p.workers[w].Busy? ==>
        p.workers[w].ticket < |p.taken| && p.taken[p.workers[w].ticket].worker == w && p.taken[p.workers[w].ticket].executed
  {
    RunsKeepInvariant(config, steps);
  }
}
