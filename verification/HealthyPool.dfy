/**
 * The healthy-pool theorem: when the configuration passes validation, claims answer within the storage
 * timeout and every invocation ends within handler plus storage timeout, every delivery is dequeued
 * with its whole execution budget left.
 */
module HealthyPool {
  import opened Wrappers
  import opened LeaseBudget
  import opened Modular
  import opened Poller
  import opened WorkerPool

  // ---------- Healthy runs ----------

  /** When the worker will be free at the latest. */
  function FreeBy(worker: Worker, now: Instant, invocation: nat): Instant {
    match worker
    case Busy(_, since) => since + invocation
    case Down(since) => since + invocation
    case _ => now
  }

  /**
   * What the environment and the scheduler owe while the pool runs: time does not pass the budget of an
   * invocation (a crashed worker is replaced within it) or of a claim, and does not pass at all while a
   * worker is idle and a delivery is waiting.
   */
  predicate Timely(config: Config, p: Pool, step: Step) {
    step.Tick? && step.elapsed > 0 && p.phase == Running ==>
      && (forall w :: 0 <= w < |p.workers| ==>
            if p.workers[w].Idle? then p.fifo == []
            else p.now + step.elapsed <= FreeBy(p.workers[w], p.now, config.Invocation()))
      && (p.producer.Claiming? ==> p.now + step.elapsed <= p.producer.started + config.storageTimeout)
  }

  /** Every step was timely when it was made. */
  predicate Healthy(config: Config, steps: seq<Step>) {
    steps == [] ||
    var before := steps[..|steps| - 1];
    Healthy(config, before) && Timely(config, Run(config, before), steps[|steps| - 1])
  }

  // ---------- Counting guaranteed dequeues ----------

  /** How many dequeues a worker free by `free` is sure to make by `limit`, each costing one invocation. */
  function Slots(limit: Instant, free: Instant, invocation: nat): nat
    requires invocation > 0
    decreases if limit < free then 0 else limit - free + 1
  {
    if limit < free then 0 else 1 + Slots(limit, free + invocation, invocation)
  }

  lemma {:induction false} SlotsEarlier(limit: Instant, free: Instant, free': Instant, invocation: nat)
    requires invocation > 0 && free' <= free
    ensures Slots(limit, free', invocation) >= Slots(limit, free, invocation)
    decreases if limit < free then 0 else limit - free + 1
  {
    if free <= limit {
      SlotsEarlier(limit, free + invocation, free' + invocation, invocation);
    }
  }

  lemma {:induction false} SlotsFull(limit: Instant, free: Instant, invocation: nat, waves: nat)
    requires invocation > 0 && free + waves * invocation <= limit + invocation
    ensures Slots(limit, free, invocation) >= waves
    decreases waves
  {
    if waves > 0 {
      assert waves * invocation == (waves - 1) * invocation + invocation;
      SlotsFull(limit, free + invocation, invocation, waves - 1);
    }
  }

  function Capacity(workers: seq<Worker>, now: Instant, limit: Instant, invocation: nat): nat
    requires invocation > 0
  {
    if workers == [] then 0
    else Slots(limit, FreeBy(workers[0], now, invocation), invocation) + Capacity(workers[1..], now, limit, invocation)
  }

  lemma {:induction false} CapacityUpdate(workers: seq<Worker>, w: nat, worker: Worker, now: Instant, limit: Instant,
                                          invocation: nat)
    requires invocation > 0 && w < |workers|
    ensures Capacity(workers[w := worker], now, limit, invocation) + Slots(limit, FreeBy(workers[w], now, invocation), invocation)
         == Capacity(workers, now, limit, invocation) + Slots(limit, FreeBy(worker, now, invocation), invocation)
  {
    if w == 0 {
      assert workers[0 := worker][1..] == workers[1..];
    } else {
      assert workers[w := worker][1..] == workers[1..][w - 1 := worker];
      CapacityUpdate(workers[1..], w - 1, worker, now, limit, invocation);
    }
  }

  /** A whole wave of free workers offers one slot each, and so on for every wave. */
  lemma {:induction false} CapacityFull(workers: seq<Worker>, now: Instant, limit: Instant, invocation: nat, waves: nat)
    requires invocation > 0 && now + waves * invocation <= limit
    requires forall w :: 0 <= w < |workers| ==> FreeBy(workers[w], now, invocation) <= now + invocation
    ensures Capacity(workers, now, limit, invocation) >= |workers| * waves
  {
    if workers != [] {
      SlotsFull(limit, FreeBy(workers[0], now, invocation), invocation, waves);
      CapacityFull(workers[1..], now, limit, invocation, waves);
      assert |workers| * waves == |workers[1..]| * waves + waves;
    }
  }

  lemma {:induction false} CapacityPositive(workers: seq<Worker>, now: Instant, limit: Instant, invocation: nat)
    requires invocation > 0 && Capacity(workers, now, limit, invocation) > 0
    requires forall w :: 0 <= w < |workers| ==> now <= FreeBy(workers[w], now, invocation)
    ensures now <= limit
  {
    if Slots(limit, FreeBy(workers[0], now, invocation), invocation) == 0 {
      CapacityPositive(workers[1..], now, limit, invocation);
    }
  }

  /** Time only moves for workers that are not idle, so it changes no capacity. */
  lemma {:induction false} CapacityTick(workers: seq<Worker>, now: Instant, now': Instant, limit: Instant, invocation: nat)
    requires invocation > 0
    requires forall w :: 0 <= w < |workers| ==> workers[w].Busy? || workers[w].Down?
    ensures Capacity(workers, now', limit, invocation) == Capacity(workers, now, limit, invocation)
  {
    if workers != [] {
      CapacityTick(workers[1..], now, now', limit, invocation);
    }
  }

  // ---------- Invariant of healthy runs ----------

  /** The latest time at which the entry can still be waiting. */
  function DueBy(config: Config, entry: Entry): Instant
    requires config.pool.concurrency > 0
  {
    entry.enqueued + config.Waves() * config.Invocation()
  }

  ghost predicate Served(config: Config, p: Pool)
    requires config.Valid()
  {
    forall i :: 0 <= i < |p.fifo| ==> Capacity(p.workers, p.now, DueBy(config, p.fifo[i]), config.Invocation()) > i
  }

  ghost predicate OnTime(config: Config, p: Pool) {
    && (p.producer.Claiming? ==> p.producer.started <= p.now <= p.producer.started + config.storageTimeout)
    && (forall w :: 0 <= w < |p.workers| ==>
          p.workers[w] != Exited && p.now <= FreeBy(p.workers[w], p.now, config.Invocation()) <= p.now + config.Invocation())
  }

  ghost predicate Anchored(config: Config, p: Pool) {
    forall i :: 0 <= i < |p.fifo| ==>
      && p.fifo[i].enqueued <= p.fifo[i].task.anchor + config.storageTimeout
      && p.fifo[i].task.deadline == p.fifo[i].task.anchor + config.pool.leaseDuration
  }

  ghost predicate HealthyState(config: Config, p: Pool)
    requires config.Valid()
  {
    Invariant(config, p) && (p.phase == Running ==> OnTime(config, p) && Anchored(config, p) && Served(config, p))
  }

  /** An update that frees a worker no later than before serves everything that was served. */
  lemma FreedWorkerServes(config: Config, p: Pool, w: nat)
    requires config.Valid() && w < |p.workers| && Served(config, p)
    requires p.now <= FreeBy(p.workers[w], p.now, config.Invocation())
    ensures Served(config, p.(workers := p.workers[w := Idle]))
  {
    forall i | 0 <= i < |p.fifo|
      ensures Capacity(p.workers[w := Idle], p.now, DueBy(config, p.fifo[i]), config.Invocation()) > i
    {
      var due := DueBy(config, p.fifo[i]);
      CapacityUpdate(p.workers, w, Idle, p.now, due, config.Invocation());
      SlotsEarlier(due, FreeBy(p.workers[w], p.now, config.Invocation()), p.now, config.Invocation());
    }
  }

  lemma CrashedWorkerServes(config: Config, p: Pool, w: nat)
    requires config.Valid() && w < |p.workers| && Served(config, p) && p.workers[w].Busy?
    ensures Served(config, p.(workers := p.workers[w := Down(p.workers[w].since)]))
  {
    forall i | 0 <= i < |p.fifo|
      ensures Capacity(p.workers[w := Down(p.workers[w].since)], p.now, DueBy(config, p.fifo[i]), config.Invocation()) > i
    {
      CapacityUpdate(p.workers, w, Down(p.workers[w].since), p.now, DueBy(config, p.fifo[i]), config.Invocation());
    }
  }

  /** A dequeue uses one slot, and every waiting entry moves up by one. */
  lemma DequeueServes(config: Config, p: Pool, w: nat)
    requires config.Valid() && w < |p.workers| && p.workers[w].Idle? && p.fifo != [] && p.phase == Running && Served(config, p)
    ensures Served(config, AfterDequeue(p, w))
  {
    var p' := AfterDequeue(p, w);
    forall i | 0 <= i < |p'.fifo|
      ensures Capacity(p'.workers, p'.now, DueBy(config, p'.fifo[i]), config.Invocation()) > i
    {
      assert p'.fifo[i] == p.fifo[i + 1];
      CapacityUpdate(p.workers, w, p'.workers[w], p.now, DueBy(config, p.fifo[i + 1]), config.Invocation());
    }
  }

  lemma TickServes(config: Config, p: Pool, elapsed: nat)
    requires config.Valid() && Served(config, p) && OnTime(config, p) && p.phase == Running && Timely(config, p, Tick(elapsed))
    ensures Served(config, p.(now := p.now + elapsed))
  {
    if elapsed > 0 && p.fifo != [] {
      forall i | 0 <= i < |p.fifo|
        ensures Capacity(p.workers, p.now + elapsed, DueBy(config, p.fifo[i]), config.Invocation()) > i
      {
        CapacityTick(p.workers, p.now, p.now + elapsed, DueBy(config, p.fifo[i]), config.Invocation());
      }
    }
  }

  /** A new entry's place is within the waves its due time allows for. */
  lemma AdmittedIsServed(config: Config, p: Pool, entry: Entry, i: nat)
    requires config.Valid() && OnTime(config, p) && |p.workers| == config.pool.concurrency
    requires entry.enqueued == p.now && i < config.pool.queueCapacity
    ensures Capacity(p.workers, p.now, DueBy(config, entry), config.Invocation()) > i
  {
    CapacityFull(p.workers, p.now, DueBy(config, entry), config.Invocation(), config.Waves());
    WaveAtLeastOne(config.pool.queueCapacity, config.pool.concurrency);
    assert config.Waves() * config.pool.concurrency == |p.workers| * config.Waves();
  }

  lemma ClaimServes(config: Config, p: Pool, batch: seq<LeasedTask>)
    requires config.Valid() && OnTime(config, p) && Served(config, p) && |p.workers| == config.pool.concurrency
    requires p.producer.Claiming? && p.phase == Running && AssertionsHold(config, p, batch)
    ensures Served(config, AfterClaim(config, p, batch))
  {
    var p' := AfterClaim(config, p, batch);
    forall i | 0 <= i < |p'.fifo|
      ensures Capacity(p'.workers, p'.now, DueBy(config, p'.fifo[i]), config.Invocation()) > i
    {
      if i >= |p.fifo| {
        AdmittedIsServed(config, p, p'.fifo[i], i);
      }
    }
  }

  lemma ClaimKeepsHealth(config: Config, p: Pool, answers: seq<Answer>, n: nat)
    requires config.Valid() && HealthyState(config, p) && p.phase == Running
    requires p.producer.Claiming? && Returned(config, p, answers, n)
    ensures HealthyState(config, AfterClaim(config, p, Confirmed(answers, n)))
  {
    ClaimKeepsInvariant(config, p, answers, n);
    ConfirmedWithinLimit(answers, p.producer.limit, n);
    ClaimServes(config, p, Confirmed(answers, n));
  }

  lemma WorkerKeepsHealth(config: Config, p: Pool, step: Step)
    requires config.Valid() && HealthyState(config, p) && p.phase == Running
    requires step.Dequeue? || step.Finish? || step.Crash? || step.Restart?
    ensures HealthyState(config, Next(config, p, step))
  {
    NextKeepsInvariant(config, p, step);
    if Next(config, p, step) != p {
      match step
      case Dequeue(w) => DequeueServes(config, p, w);
      case Finish(w) => FreedWorkerServes(config, p, w);
      case Crash(w) => CrashedWorkerServes(config, p, w);
      case Restart(w) => FreedWorkerServes(config, p, w);
    }
  }

  lemma TickKeepsHealth(config: Config, p: Pool, elapsed: nat)
    requires config.Valid() && HealthyState(config, p) && p.phase == Running && Timely(config, p, Tick(elapsed))
    ensures HealthyState(config, Next(config, p, Tick(elapsed)))
  {
    NextKeepsInvariant(config, p, Tick(elapsed));
    TickServes(config, p, elapsed);
  }

  lemma NextKeepsHealth(config: Config, p: Pool, step: Step)
    requires config.Valid() && HealthyState(config, p) && Timely(config, p, step)
    ensures HealthyState(config, Next(config, p, step))
  {
    NextKeepsInvariant(config, p, step);
    if p.phase == Running {
      match step
      case Tick(elapsed) => TickKeepsHealth(config, p, elapsed);
      case FinishClaim(answers, n) =>
        if p.producer.Claiming? && Returned(config, p, answers, n) {
          ClaimKeepsHealth(config, p, answers, n);
        }
      case StartClaim =>
      case FailClaim =>
      case Leave(_) =>
      case Shutdown =>
      case _ => WorkerKeepsHealth(config, p, step);
    }
  }

  lemma {:induction false} HealthyRunsAreServed(config: Config, steps: seq<Step>)
    requires config.Valid() && Healthy(config, steps)
    ensures HealthyState(config, Run(config, steps))
  {
    if steps != [] {
      var last := |steps| - 1;
      HealthyRunsAreServed(config, steps[..last]);
      NextKeepsHealth(config, Run(config, steps[..last]), steps[last]);
    }
  }

  // ---------- The theorem ----------

  /** No delivery of a running healthy pool waits longer than the configured waves of invocations. */
  lemma WaitingIsBounded(config: Config, steps: seq<Step>, i: nat)
    requires config.Valid() && Healthy(config, steps) && Run(config, steps).phase == Running && i < |Run(config, steps).fifo|
    ensures Run(config, steps).now <= DueBy(config, Run(config, steps).fifo[i])
  {
    HealthyRunsAreServed(config, steps);
    var p := Run(config, steps);
    CapacityPositive(p.workers, p.now, DueBy(config, p.fifo[i]), config.Invocation());
  }

  /** The plan runs the handler with its whole timeout and keeps only the margin back. */
  predicate RunsInFull(now: Instant, deadline: Instant, handlerTimeout: Duration, storageTimeout: Duration, maxInstant: Instant) {
    && deadline >= SAFETY_MARGIN
    && Plan(now, deadline, handlerTimeout, storageTimeout, maxInstant) ==
         Ok(RunHandler(now + handlerTimeout, deadline - SAFETY_MARGIN))
  }

  /** The validated inequality, spent on claim, waiting and invocation. */
  lemma BudgetCovers(config: Config, entry: Entry, now: Instant)
    requires config.Valid() && now <= DueBy(config, entry)
    requires entry.enqueued <= entry.task.anchor + config.storageTimeout
    requires entry.task.deadline == entry.task.anchor + config.pool.leaseDuration
    ensures now + config.Invocation() + SAFETY_MARGIN < entry.task.deadline
    ensures config.Invocation() <= MAX_DURATION && config.pool.handlerTimeout > 0
  {
    ValidatorIsExact(config.pool, config.storageTimeout);
    assert config.pool.leaseDuration > Budget(config.pool, config.storageTimeout);
  }

  /**
   * Whatever a worker dequeues in a running healthy pool still has its whole budget: the plan runs the
   * handler, and handler and settlement together end before the safety margin of the lease.
   */
  lemma DequeuedDeliveriesRun(config: Config, steps: seq<Step>, w: nat, maxInstant: Instant)
    requires config.Valid() && Healthy(config, steps) && Run(config, steps).phase == Running
    requires w < |Run(config, steps).workers| && Run(config, steps).workers[w].Idle? && Run(config, steps).fifo != []
    requires Run(config, steps).fifo[0].task.deadline <= maxInstant
    ensures var p, task := Run(config, steps), Run(config, steps).fifo[0].task;
      && p.now + config.Invocation() + SAFETY_MARGIN < task.deadline
      && RunsInFull(p.now, task.deadline, config.pool.handlerTimeout, config.storageTimeout, maxInstant)
  {
    HeadHasBudget(config, steps);
    PlanRuns(Run(config, steps).now, Run(config, steps).fifo[0].task.deadline, config.pool.handlerTimeout,
             config.storageTimeout, maxInstant);
  }

  lemma HeadHasBudget(config: Config, steps: seq<Step>)
    requires config.Valid() && Healthy(config, steps) && Run(config, steps).phase == Running && Run(config, steps).fifo != []
    ensures Run(config, steps).now + config.Invocation() + SAFETY_MARGIN < Run(config, steps).fifo[0].task.deadline
    ensures config.Invocation() <= MAX_DURATION && config.pool.handlerTimeout > 0
  {
    var p := Run(config, steps);
    HealthyRunsAreServed(config, steps);
    WaitingIsBounded(config, steps, 0);
    BudgetCovers(config, p.fifo[0], p.now);
  }

  lemma PlanRuns(now: Instant, deadline: Instant, handlerTimeout: Duration, storageTimeout: Duration, maxInstant: Instant)
    requires now + handlerTimeout + storageTimeout + SAFETY_MARGIN < deadline <= maxInstant
    requires 0 < handlerTimeout && handlerTimeout + storageTimeout <= MAX_DURATION
    ensures RunsInFull(now, deadline, handlerTimeout, storageTimeout, maxInstant)
  {
    PlanIsExact(now, deadline, handlerTimeout, storageTimeout, maxInstant);
  }

  /** The history of dequeues only grows, by the head of the FIFO. */
  lemma TakenGrows(config: Config, p: Pool, step: Step)
    ensures p.taken <= Next(config, p, step).taken
    ensures |Next(config, p, step).taken| > |p.taken| ==>
      && step.Dequeue?
      && step.w < |p.workers|
      && p.workers[step.w].Idle?
      && p.fifo != []
      && Next(config, p, step).taken == p.taken + [Take(p.fifo[0], step.w, p.now, p.phase == Running)]
  {
  }

  ghost predicate HadBudget(config: Config, take: Take, maxInstant: Instant) {
    take.executed && take.entry.task.deadline <= maxInstant ==>
      && take.at + config.Invocation() + SAFETY_MARGIN < take.entry.task.deadline
      && RunsInFull(take.at, take.entry.task.deadline, config.pool.handlerTimeout, config.storageTimeout, maxInstant)
  }

  /** The same over the whole history: every delivery ever executed was dequeued with its whole budget. */
  lemma {:induction false} EveryExecutionHadItsBudget(config: Config, steps: seq<Step>, i: nat, maxInstant: Instant)
    requires config.Valid() && Healthy(config, steps) && i < |Run(config, steps).taken|
    ensures HadBudget(config, Run(config, steps).taken[i], maxInstant)
  {
    var before := steps[..|steps| - 1];
    TakenGrows(config, Run(config, before), steps[|steps| - 1]);
    if i < |Run(config, before).taken| {
      EveryExecutionHadItsBudget(config, before, i, maxInstant);
    } else {
      NewTakeHadBudget(config, before, steps[|steps| - 1].w, maxInstant);
    }
  }

  lemma NewTakeHadBudget(config: Config, steps: seq<Step>, w: nat, maxInstant: Instant)
    requires config.Valid() && Healthy(config, steps)
    requires w < |Run(config, steps).workers| && Run(config, steps).workers[w].Idle? && Run(config, steps).fifo != []
    ensures var p := Run(config, steps); HadBudget(config, Take(p.fifo[0], w, p.now, p.phase == Running), maxInstant)
  {
    if Run(config, steps).phase == Running && Run(config, steps).fifo[0].task.deadline <= maxInstant {
      DequeuedDeliveriesRun(config, steps, w, maxInstant);
    }
  }

  // ---------- The bound is tight ----------

  lemma Extend(config: Config, steps: seq<Step>, step: Step)
    requires Healthy(config, steps) && Timely(config, Run(config, steps), step)
    ensures Healthy(config, steps + [step]) && Run(config, steps + [step]) == Next(config, Run(config, steps), step)
  {
    assert (steps + [step])[..|steps|] == steps;
  }

  /** Steps other than a tick are always timely. */
  lemma Extend2(config: Config, steps: seq<Step>, a: Step, b: Step)
    requires Healthy(config, steps) && !a.Tick? && !b.Tick?
    ensures Healthy(config, steps + [a, b])
    ensures Run(config, steps + [a, b]) == Next(config, Next(config, Run(config, steps), a), b)
  {
    Extend(config, steps, a);
    Extend(config, steps + [a], b);
    assert steps + [a] + [b] == steps + [a, b];
  }

  lemma OneAnswer(batch: seq<LeasedTask>, limit: nat)
    requires |batch| <= limit
    ensures var answers: seq<Answer> := [Ok(batch)]; Confirmed(answers, 1) == batch && HonoursLimit(answers, limit)
  {
    var answers: seq<Answer> := [Ok(batch)];
    assert Confirmed(answers, 0) == [];
  }

  /** An instant claim of a batch anchored now. */
  lemma InstantClaim(config: Config, p: Pool, batch: seq<LeasedTask>, answers: seq<Answer>)
    requires p.phase == Running && p.producer.Watching? && p.fifo == [] && 0 < |batch| <= config.pool.queueCapacity
    requires answers == [Ok(batch)]
    requires forall i :: 0 <= i < |batch| ==>
      batch[i].anchor == p.now && batch[i].deadline == p.now + config.pool.leaseDuration
    ensures var p' := Next(config, Next(config, p, StartClaim), FinishClaim(answers, 1));
      p' == p.(fifo := Entries(batch, p.now), admitted := p.admitted + Entries(batch, p.now))
  {
    OneAnswer(batch, config.pool.queueCapacity);
    var p1 := Next(config, p, StartClaim);
    assert p1.producer == Claiming(config.pool.queueCapacity, p.now);
    assert Returned(config, p1, answers, 1);
    assert p1.fifo + Entries(batch, p.now) == Entries(batch, p.now);
  }

  function Batch(config: Config, n: nat): (batch: seq<LeasedTask>)
    ensures |batch| == n
    ensures forall i :: 0 <= i < n ==> batch[i].anchor == 0 && batch[i].deadline == config.pool.leaseDuration
  {
    seq(n, i requires 0 <= i < n => LeasedTask(i, i, 0, config.pool.leaseDuration))
  }

  /** The first `j` workers took a delivery now; the others did so at `before`. */
  ghost predicate Turning(config: Config, p: Pool, before: Instant, j: nat) {
    && p.phase == Running
    && p.producer.Watching?
    && |p.workers| == config.pool.concurrency
    && j <= |p.workers|
    && (forall w :: 0 <= w < j ==> p.workers[w].Busy? && p.workers[w].since == p.now)
    && (forall w :: j <= w < |p.workers| ==> p.workers[w].Busy? && p.workers[w].since == before)
    && (forall i :: 0 <= i < |p.fifo| ==> p.fifo[i].enqueued == 0)
  }

  /** At time zero the first `j` workers are busy and nothing waits. */
  ghost predicate Filling(config: Config, p: Pool, j: nat) {
    && p.phase == Running
    && p.producer.Watching?
    && p.now == 0
    && p.fifo == []
    && |p.workers| == config.pool.concurrency
    && j <= |p.workers|
    && (forall w :: 0 <= w < j ==> p.workers[w].Busy? && p.workers[w].since == 0)
    && (forall w :: j <= w < |p.workers| ==> p.workers[w].Idle?)
  }

  lemma FillOne(config: Config, p: Pool, j: nat, answers: seq<Answer>)
    requires Filling(config, p, j) && j < |p.workers| && config.pool.queueCapacity > 0 && answers == [Ok(Batch(config, 1))]
    ensures Filling(config, Next(config, Next(config, Next(config, p, StartClaim), FinishClaim(answers, 1)), Dequeue(j)), j + 1)
  {
    InstantClaim(config, p, Batch(config, 1), answers);
    assert Entries(Batch(config, 1), p.now)[1..] == [];
  }

  lemma {:induction false} FillWorkers(config: Config, j: nat) returns (steps: seq<Step>)
    requires config.pool.queueCapacity > 0 && j <= config.pool.concurrency
    ensures Healthy(config, steps) && Filling(config, Run(config, steps), j)
  {
    if j == 0 {
      steps := [];
    } else {
      var before := FillWorkers(config, j - 1);
      var answers: seq<Answer> := [Ok(Batch(config, 1))];
      FillOne(config, Run(config, before), j - 1, answers);
      Extend2(config, before, StartClaim, FinishClaim(answers, 1));
      Extend(config, before + [StartClaim, FinishClaim(answers, 1)], Dequeue(j - 1));
      steps := before + [StartClaim, FinishClaim(answers, 1)] + [Dequeue(j - 1)];
    }
  }

  /** All workers start at time zero and a full queue is admitted behind them. */
  lemma FullHouse(config: Config) returns (steps: seq<Step>)
    requires config.pool.queueCapacity > 0 && config.pool.concurrency > 0
    ensures Healthy(config, steps) && Turning(config, Run(config, steps), 0, config.pool.concurrency)
    ensures Run(config, steps).now == 0 && |Run(config, steps).fifo| == config.pool.queueCapacity
  {
    var filled := FillWorkers(config, config.pool.concurrency);
    var batch := Batch(config, config.pool.queueCapacity);
    var answers: seq<Answer> := [Ok(batch)];
    InstantClaim(config, Run(config, filled), batch, answers);
    Extend2(config, filled, StartClaim, FinishClaim(answers, 1));
    steps := filled + [StartClaim, FinishClaim(answers, 1)];
  }

  /** One more worker of the round finishes and takes the next delivery. */
  lemma TurnOne(config: Config, p: Pool, before: Instant, j: nat)
    requires Turning(config, p, before, j) && j < |p.workers| && p.fifo != []
    ensures var p' := Next(config, Next(config, p, Finish(j)), Dequeue(j));
      && Turning(config, p', before, j + 1)
      && p'.now == p.now
      && |p'.fifo| == |p.fifo| - 1
      && p'.taken == p.taken + [Take(p.fifo[0], j, p.now, true)]
  {
  }

  lemma {:induction false} TurnMany(config: Config, steps: seq<Step>, before: Instant, n: nat) returns (longer: seq<Step>)
    requires Healthy(config, steps) && Turning(config, Run(config, steps), before, 0)
    requires n <= config.pool.concurrency && n <= |Run(config, steps).fifo|
    ensures Healthy(config, longer) && Turning(config, Run(config, longer), before, n)
    ensures Run(config, longer).now == Run(config, steps).now && |Run(config, longer).fifo| == |Run(config, steps).fifo| - n
    ensures n > 0 ==>
      var taken := Run(config, longer).taken;
      taken != [] && var last := taken[|taken| - 1]; last.executed && last.entry.enqueued == 0 && last.at == Run(config, steps).now
  {
    if n == 0 {
      longer := steps;
    } else {
      var shorter := TurnMany(config, steps, before, n - 1);
      TurnOne(config, Run(config, shorter), before, n - 1);
      Extend2(config, shorter, Finish(n - 1), Dequeue(n - 1));
      longer := shorter + [Finish(n - 1), Dequeue(n - 1)];
    }
  }

  /** A whole invocation passes while all workers are busy. */
  lemma PassInvocation(config: Config, steps: seq<Step>, before: Instant) returns (longer: seq<Step>)
    requires Healthy(config, steps) && Turning(config, Run(config, steps), before, config.pool.concurrency)
    ensures Healthy(config, longer) && Turning(config, Run(config, longer), Run(config, steps).now, 0)
    ensures Run(config, longer).now == Run(config, steps).now + config.Invocation()
    ensures Run(config, longer).fifo == Run(config, steps).fifo
  {
    Extend(config, steps, Tick(config.Invocation()));
    longer := steps + [Tick(config.Invocation())];
  }

  /** After `k` full rounds: `k` invocations have passed and `k` deliveries for each worker are gone. */
  lemma {:induction false} Rounds(config: Config, k: nat) returns (steps: seq<Step>, before: Instant)
    requires config.pool.queueCapacity > 0 && config.pool.concurrency > 0
    requires k * config.pool.concurrency <= config.pool.queueCapacity
    ensures Healthy(config, steps) && Turning(config, Run(config, steps), before, config.pool.concurrency)
    ensures Run(config, steps).now == k * config.Invocation()
    ensures |Run(config, steps).fifo| == config.pool.queueCapacity - k * config.pool.concurrency
  {
    if k == 0 {
      steps := FullHouse(config);
      before := 0;
    } else {
      assert k * config.pool.concurrency == (k - 1) * config.pool.concurrency + config.pool.concurrency;
      var earlier, since := Rounds(config, k - 1);
      var passed := PassInvocation(config, earlier, since);
      before := Run(config, earlier).now;
      steps := TurnMany(config, passed, before, config.pool.concurrency);
      assert k * config.Invocation() == (k - 1) * config.Invocation() + config.Invocation();
    }
  }

  /** The last wave holds between one delivery and one for each worker. */
  lemma LastWave(q: nat, c: nat) returns (k: nat)
    requires q > 0 && c > 0
    ensures k + 1 == DivCeil(q, c) && k * c < q <= k * c + c
  {
    assert q == q / c * c + q % c;
    WaveAtLeastOne(q, c);
    k := DivCeil(q, c) - 1;
    assert k * c + c == DivCeil(q, c) * c;
    if q % c == 0 {
      assert k * c == q / c * c - c;
    }
  }

  ghost predicate LastTaken(p: Pool, at: Instant) {
    p.taken != [] && var last := p.taken[|p.taken| - 1]; last.executed && last.entry.enqueued == 0 && last.at == at
  }

  lemma LastRound(config: Config, k: nat) returns (steps: seq<Step>)
    requires config.pool.concurrency > 0 && k * config.pool.concurrency < config.pool.queueCapacity
    requires config.pool.queueCapacity <= k * config.pool.concurrency + config.pool.concurrency
    ensures Healthy(config, steps) && LastTaken(Run(config, steps), k * config.Invocation() + config.Invocation())
  {
    var full, since := Rounds(config, k);
    var passed := PassInvocation(config, full, since);
    steps := TurnMany(config, passed, Run(config, full).now, |Run(config, full).fifo|);
  }

  lemma DueAfterWaves(config: Config, k: nat, entry: Entry)
    requires config.pool.concurrency > 0 && k + 1 == config.Waves() && entry.enqueued == 0
    ensures DueBy(config, entry) == k * config.Invocation() + config.Invocation()
  {
    assert (k + 1) * config.Invocation() == k * config.Invocation() + config.Invocation();
  }

  /**
   * The waiting bound cannot be improved: for every number of workers, queue capacity and timeouts some
   * healthy run executes a delivery that waited exactly as many invocations as there are waves.
   */
  lemma WaitingBoundIsTight(config: Config) returns (steps: seq<Step>)
    requires config.pool.queueCapacity > 0 && config.pool.concurrency > 0
    ensures Healthy(config, steps)
    ensures var taken := Run(config, steps).taken;
      taken != [] && taken[|taken| - 1].executed && taken[|taken| - 1].at == DueBy(config, taken[|taken| - 1].entry)
  {
    var k := LastWave(config.pool.queueCapacity, config.pool.concurrency);
    steps := LastRound(config, k);
    var taken := Run(config, steps).taken;
    DueAfterWaves(config, k, taken[|taken| - 1].entry);
  }

  // ---------- The premises can be met by a slow claim, too ----------

  /** A claim that takes the whole storage timeout and returns one delivery, from an empty pool. */
  lemma SlowClaim(config: Config, task: LeasedTask, answers: seq<Answer>) returns (steps: seq<Step>)
    requires config.pool.concurrency > 0 && config.pool.queueCapacity > 0
    requires task.anchor == 0 && task.deadline == config.pool.leaseDuration && answers == [Ok([task])]
    ensures Healthy(config, steps)
    ensures var p := Run(config, steps);
      && p.phase == Running && p.now == config.storageTimeout && p.taken == []
      && |p.workers| == config.pool.concurrency && p.workers[0].Idle?
      && p.fifo == [Entry(task, config.storageTimeout)]
  {
    Extend(config, [], StartClaim);
    Extend(config, [] + [StartClaim], Tick(config.storageTimeout));
    var claiming := [] + [StartClaim] + [Tick(config.storageTimeout)];
    OneReturned(config, Run(config, claiming), task, answers);
    Extend(config, claiming, FinishClaim(answers, 1));
    steps := claiming + [FinishClaim(answers, 1)];
  }

  lemma OneReturned(config: Config, p: Pool, task: LeasedTask, answers: seq<Answer>)
    requires p.producer == Claiming(config.pool.queueCapacity, 0) && p.phase == Running && p.fifo == []
    requires config.pool.queueCapacity > 0 && answers == [Ok([task])]
    requires task.anchor == 0 && task.deadline == config.pool.leaseDuration
    ensures var p' := Next(config, p, FinishClaim(answers, 1));
      && p'.phase == Running && p'.now == p.now && p'.taken == p.taken && p'.workers == p.workers
      && p'.fifo == [Entry(task, p.now)]
  {
    OneAnswer([task], config.pool.queueCapacity);
    assert Returned(config, p, answers, 1);
    assert p.fifo + Entries([task], p.now) == [Entry(task, p.now)];
  }

  /** Under every valid configuration some healthy run executes a delivery whose claim took the whole storage timeout. */
  lemma SlowestClaimExecutes(config: Config, id: nat, token: nat) returns (steps: seq<Step>)
    requires config.Valid()
    ensures Healthy(config, steps) && |Run(config, steps).taken| == 1
    ensures var take := Run(config, steps).taken[0];
      take.executed && take.entry.task.id == id && take.at == take.entry.task.anchor + config.storageTimeout
  {
    var task := LeasedTask(id, token, 0, config.pool.leaseDuration);
    var claimed := SlowClaim(config, task, [Ok([task])]);
    Extend(config, claimed, Dequeue(0));
    steps := claimed + [Dequeue(0)];
  }
}
