/**
 * What the pool can always do: execute every waiting delivery while it runs, replace a crashed worker,
 * and stop. After a shutdown nothing more is admitted or executed.
 */
module PoolProgress {
  import opened Wrappers
  import opened LeaseBudget
  import opened Poller
  import opened WorkerPool

  lemma RunStep(config: Config, steps: seq<Step>, step: Step)
    ensures Run(config, steps + [step]) == Next(config, Run(config, steps), step)
  {
    assert (steps + [step])[..|steps|] == steps;
  }

  lemma RunSplit(config: Config, steps: seq<Step>, more: seq<Step>)
    requires more != []
    ensures Run(config, steps + more) == Next(config, Run(config, steps + more[..|more| - 1]), more[|more| - 1])
  {
    assert (steps + more)[..|steps + more| - 1] == steps + more[..|more| - 1];
  }

  // ---------- Workers leave only when the pool stops ----------

  predicate Staffed(p: Pool) {
    p.phase == Running ==> forall w :: 0 <= w < |p.workers| ==> p.workers[w] != Exited
  }

  lemma {:induction false} RunsAreStaffed(config: Config, steps: seq<Step>)
    ensures Staffed(Run(config, steps))
  {
    if steps != [] {
      RunsAreStaffed(config, steps[..|steps| - 1]);
    }
  }

  // ---------- Serving what waits ----------

  /** Only the workers and the producer may differ. */
  predicate SameQueue(p: Pool, p': Pool) {
    p' == p.(workers := p'.workers, producer := p'.producer) && |p'.workers| == |p.workers|
  }

  /** A worker is free after its invocation ends, or after its replacement is spawned. */
  lemma WorkerFreed(config: Config, steps: seq<Step>, w: nat) returns (more: seq<Step>)
    requires Run(config, steps).phase == Running && w < |Run(config, steps).workers|
    ensures SameQueue(Run(config, steps), Run(config, steps + more)) && Run(config, steps + more).workers[w] == Idle
  {
    RunsAreStaffed(config, steps);
    match Run(config, steps).workers[w]
    case Idle =>
      more := [];
      assert steps + more == steps;
    case Busy(_, _) =>
      more := [Finish(w)];
      RunStep(config, steps, Finish(w));
    case Down(_) =>
      more := [FailClaim, Restart(w)];
      RunStep(config, steps, FailClaim);
      RunStep(config, steps + [FailClaim], Restart(w));
      assert steps + more == steps + [FailClaim] + [Restart(w)];
  }

  /** The entries were taken in order, each by a worker that executed it. */
  predicate Executed(taken: seq<Take>, taken': seq<Take>, entries: seq<Entry>) {
    && |taken'| == |taken| + |entries|
    && taken'[..|taken|] == taken
    && forall i :: 0 <= i < |entries| ==> taken'[|taken| + i].entry == entries[i] && taken'[|taken| + i].executed
  }

  /** The first delivery that waited was executed. */
  predicate HeadTaken(p: Pool, p': Pool) {
    p.fifo != [] && p'.phase == Running && p'.fifo == p.fifo[1..] && Executed(p.taken, p'.taken, [p.fifo[0]])
  }

  /** Everything that waited was executed. */
  predicate Drained(p: Pool, p': Pool) {
    p'.phase == Running && p'.fifo == [] && Executed(p.taken, p'.taken, p.fifo)
  }

  lemma HeadExecuted(config: Config, steps: seq<Step>) returns (more: seq<Step>)
    requires Run(config, steps).phase == Running && |Run(config, steps).workers| > 0 && Run(config, steps).fifo != []
    ensures HeadTaken(Run(config, steps), Run(config, steps + more))
  {
    var freeing := WorkerFreed(config, steps, 0);
    RunStep(config, steps + freeing, Dequeue(0));
    more := freeing + [Dequeue(0)];
    assert steps + more == steps + freeing + [Dequeue(0)];
  }

  lemma ExecutedThen(a: seq<Take>, b: seq<Take>, c: seq<Take>, first: Entry, rest: seq<Entry>)
    requires Executed(a, b, [first]) && Executed(b, c, rest)
    ensures Executed(a, c, [first] + rest)
  {
    forall i | 0 <= i < 1 + |rest|
      ensures c[|a| + i].entry == ([first] + rest)[i] && c[|a| + i].executed
    {
      if i == 0 {
        assert c[|a|] == c[..|b|][|a|];
      } else {
        assert c[|a| + i] == c[|b| + (i - 1)];
      }
    }
    assert c[..|a|] == c[..|b|][..|a|];
  }

  lemma DrainedThen(p: Pool, p1: Pool, p': Pool)
    requires HeadTaken(p, p1) && Drained(p1, p')
    ensures Drained(p, p')
  {
    ExecutedThen(p.taken, p1.taken, p'.taken, p.fifo[0], p.fifo[1..]);
    assert p.fifo == [p.fifo[0]] + p.fifo[1..];
  }

  lemma DrainedAfter(config: Config, steps: seq<Step>, head: seq<Step>, rest: seq<Step>)
    requires HeadTaken(Run(config, steps), Run(config, steps + head))
    requires Drained(Run(config, steps + head), Run(config, steps + head + rest))
    ensures Drained(Run(config, steps), Run(config, steps + (head + rest)))
  {
    DrainedThen(Run(config, steps), Run(config, steps + head), Run(config, steps + head + rest));
    assert steps + (head + rest) == steps + head + rest;
  }

  /** While the pool runs, some continuation executes every delivery that waits, in the order of admission. */
  lemma {:induction false} WaitingDeliveriesCanBeExecuted(config: Config, steps: seq<Step>) returns (more: seq<Step>)
    requires Run(config, steps).phase == Running && config.pool.concurrency > 0
    ensures Drained(Run(config, steps), Run(config, steps + more))
    decreases |Run(config, steps).fifo|
  {
    AdmissionIsBounded(config, steps);
    if Run(config, steps).fifo == [] {
      more := [];
      assert steps + more == steps;
    } else {
      var head := HeadExecuted(config, steps);
      var rest := WaitingDeliveriesCanBeExecuted(config, steps + head);
      more := head + rest;
      DrainedAfter(config, steps, head, rest);
    }
  }

  // ---------- Admitting more ----------

  lemma ClaimAdmits(config: Config, p: Pool, answers: seq<Answer>, n: nat)
    requires p.phase == Running && p.producer.Claiming? && Returned(config, p, answers, n)
    requires |p.fifo| + p.producer.limit <= config.pool.queueCapacity
    ensures var entries := Entries(Confirmed(answers, n), p.now);
      Next(config, p, FinishClaim(answers, n)) == p.(producer := Watching, fifo := p.fifo + entries, admitted := p.admitted + entries)
  {
    ConfirmedWithinLimit(answers, p.producer.limit, n);
  }

  /** An idle producer of a running pool claims exactly when there is room, for all of it, and what it gets is admitted whole. */
  lemma ClaimsFillTheQueue(config: Config, steps: seq<Step>, answers: seq<Answer>, n: nat)
    requires Run(config, steps).phase == Running && Run(config, steps).producer == Watching
    ensures var p, claiming := Run(config, steps), Run(config, steps + [StartClaim]);
      if |p.fifo| < config.pool.queueCapacity
      then && claiming == p.(producer := Claiming(config.pool.queueCapacity - |p.fifo|, p.now))
           && (Returned(config, claiming, answers, n) ==>
                 var entries := Entries(Confirmed(answers, n), p.now);
                 Run(config, steps + [StartClaim] + [FinishClaim(answers, n)])
                   == p.(fifo := p.fifo + entries, admitted := p.admitted + entries))
      else claiming == p
  {
    AdmissionIsBounded(config, steps);
    RunStep(config, steps, StartClaim);
    RunStep(config, steps + [StartClaim], FinishClaim(answers, n));
    var claiming := Run(config, steps + [StartClaim]);
    if claiming.producer.Claiming? && Returned(config, claiming, answers, n) {
      ClaimAdmits(config, claiming, answers, n);
    }
  }

  // ---------- Replacing a worker ----------

  lemma CrashAndRestart(config: Config, p: Pool, w: nat)
    requires p.phase == Running && w < |p.workers| && p.workers[w].Busy?
    ensures Next(config, p, Crash(w)) == p.(workers := p.workers[w := Down(p.workers[w].since)])
    ensures Next(config, Next(config, Next(config, p, Crash(w)), FailClaim), Restart(w))
      == p.(workers := p.workers[w := Idle], producer := Watching)
  {
    assert p.workers[w := Down(p.workers[w].since)][w := Idle] == p.workers[w := Idle];
  }

  /** A worker that crashes in the middle of an invocation is down until its slot is served again; nothing else changes. */
  lemma CrashedWorkersReturn(config: Config, steps: seq<Step>, w: nat)
    requires Run(config, steps).phase == Running && w < |Run(config, steps).workers| && Run(config, steps).workers[w].Busy?
    ensures var p := Run(config, steps);
      && Run(config, steps + [Crash(w)]) == p.(workers := p.workers[w := Down(p.workers[w].since)])
      && Run(config, steps + [Crash(w)] + [FailClaim] + [Restart(w)]) == p.(workers := p.workers[w := Idle], producer := Watching)
  {
    CrashAndRestart(config, Run(config, steps), w);
    RunStep(config, steps, Crash(w));
    RunStep(config, steps + [Crash(w)], FailClaim);
    RunStep(config, steps + [Crash(w)] + [FailClaim], Restart(w));
  }

  // ---------- Stopping ----------

  /** Since the shutdown nothing was admitted, and what was taken was dropped. */
  predicate Stopped(p: Pool, p': Pool) {
    && p'.phase == Stopping
    && p'.admitted == p.admitted
    && |p.taken| <= |p'.taken|
    && p'.taken[..|p.taken|] == p.taken
    && forall i :: |p.taken| <= i < |p'.taken| ==> !p'.taken[i].executed
  }

  lemma StoppedStep(config: Config, p: Pool, p': Pool, step: Step)
    requires Stopped(p, p') && p'.phase != Panicked
    ensures Stopped(p, Next(config, p', step))
  {
  }

  /** Once the pool stops it stays stopping, admits nothing and starts no handler. */
  lemma {:induction false} NothingRunsAfterShutdown(config: Config, steps: seq<Step>, more: seq<Step>)
    requires Run(config, steps).phase == Stopping
    ensures Stopped(Run(config, steps), Run(config, steps + more))
  {
    if more == [] {
      assert steps + more == steps;
    } else {
      NothingRunsAfterShutdown(config, steps, more[..|more| - 1]);
      RunSplit(config, steps, more);
      StoppedStep(config, Run(config, steps), Run(config, steps + more[..|more| - 1]), more[|more| - 1]);
    }
  }

  /** A claim that answers after the shutdown ends there: its deliveries are left to lease recovery. */
  lemma LateClaimsAreDropped(config: Config, steps: seq<Step>, answers: seq<Answer>, n: nat)
    requires Run(config, steps).phase == Stopping && Run(config, steps).producer.Claiming?
    requires Returned(config, Run(config, steps), answers, n)
    ensures Run(config, steps + [FinishClaim(answers, n)]) == Run(config, steps).(producer := Watching)
  {
    RunStep(config, steps, FinishClaim(answers, n));
  }

  /** A worker that dropped a delivery has left. */
  ghost predicate DroppersLeft(p: Pool) {
    && (forall i :: 0 <= i < |p.taken| && !p.taken[i].executed ==>
          p.taken[i].worker < |p.workers| && p.workers[p.taken[i].worker] == Exited)
    && (forall i, j :: 0 <= i < j < |p.taken| && !p.taken[i].executed && !p.taken[j].executed ==>
          p.taken[i].worker != p.taken[j].worker)
  }

  lemma DroppersStep(config: Config, p: Pool, step: Step)
    requires DroppersLeft(p)
    ensures DroppersLeft(Next(config, p, step))
  {
  }

  /** Every delivery that is taken and not executed is the last thing its worker does, so each worker drops at most one. */
  lemma {:induction false} EachWorkerDropsAtMostOne(config: Config, steps: seq<Step>)
    ensures DroppersLeft(Run(config, steps))
  {
    if steps != [] {
      EachWorkerDropsAtMostOne(config, steps[..|steps| - 1]);
      DroppersStep(config, Run(config, steps[..|steps| - 1]), steps[|steps| - 1]);
    }
  }

  predicate Gone(worker: Worker) {
    worker.Exited? || worker.Down?
  }

  /** The first `n` workers are gone, and the queue is as it was. */
  predicate FirstGone(p: Pool, p': Pool, n: nat) {
    SameQueue(p, p') && n <= |p'.workers| && forall w :: 0 <= w < n ==> Gone(p'.workers[w])
  }

  /** Of all workers, at most this one changed, and it is gone. */
  predicate OneGone(p: Pool, p': Pool, w: nat) {
    SameQueue(p, p') && w < |p.workers| && p'.workers == p.workers[w := p'.workers[w]] && Gone(p'.workers[w])
  }

  lemma WorkerLeaves(config: Config, steps: seq<Step>, w: nat) returns (more: seq<Step>)
    requires Run(config, steps).phase == Stopping && w < |Run(config, steps).workers|
    ensures OneGone(Run(config, steps), Run(config, steps + more), w)
  {
    match Run(config, steps).workers[w]
    case Idle =>
      more := [Leave(w)];
      RunStep(config, steps, Leave(w));
    case Busy(_, _) =>
      more := [Finish(w), Leave(w)];
      RunStep(config, steps, Finish(w));
      RunStep(config, steps + [Finish(w)], Leave(w));
      assert steps + more == steps + [Finish(w)] + [Leave(w)];
    case _ =>
      more := [];
      assert steps + more == steps;
  }

  lemma OneMoreGone(p: Pool, p1: Pool, p': Pool, n: nat)
    requires FirstGone(p, p1, n) && OneGone(p1, p', n)
    ensures FirstGone(p, p', n + 1)
  {
  }

  lemma {:induction false} WorkersLeave(config: Config, steps: seq<Step>, n: nat) returns (more: seq<Step>)
    requires Run(config, steps).phase == Stopping && n <= |Run(config, steps).workers|
    ensures FirstGone(Run(config, steps), Run(config, steps + more), n)
  {
    if n == 0 {
      more := [];
      assert steps + more == steps;
    } else {
      var before := WorkersLeave(config, steps, n - 1);
      more := NextLeaves(config, steps, before, n - 1);
    }
  }

  lemma NextLeaves(config: Config, steps: seq<Step>, before: seq<Step>, n: nat) returns (more: seq<Step>)
    requires Run(config, steps).phase == Stopping && n < |Run(config, steps).workers|
    requires FirstGone(Run(config, steps), Run(config, steps + before), n)
    ensures FirstGone(Run(config, steps), Run(config, steps + more), n + 1)
  {
    var last := WorkerLeaves(config, steps + before, n);
    OneMoreGone(Run(config, steps), Run(config, steps + before), Run(config, steps + before + last), n);
    more := before + last;
    assert steps + more == steps + before + last;
  }

  /** A stopping pool starts no claim. */
  lemma {:induction false} WatchingStays(config: Config, steps: seq<Step>, more: seq<Step>)
    requires Run(config, steps).phase == Stopping && Run(config, steps).producer == Watching
    ensures Run(config, steps + more).phase == Stopping && Run(config, steps + more).producer == Watching
  {
    if more == [] {
      assert steps + more == steps;
    } else {
      WatchingStays(config, steps, more[..|more| - 1]);
      RunSplit(config, steps, more);
    }
  }

  /** The shutdown ends an open claim and keeps what waits. */
  lemma ShutdownBegins(config: Config, steps: seq<Step>) returns (stopping: seq<Step>)
    ensures var p, p' := Run(config, steps), Run(config, steps + stopping);
      p'.phase == Stopping && p'.producer == Watching && SameQueue(p.(phase := Stopping), p')
  {
    AdmissionIsBounded(config, steps);
    RunStep(config, steps, Shutdown);
    RunStep(config, steps + [Shutdown], FailClaim);
    stopping := [Shutdown, FailClaim];
    assert steps + stopping == steps + [Shutdown] + [FailClaim];
  }

  /** Nobody works, nothing is being claimed, and the queue is as it was. */
  predicate AtRest(p: Pool, p': Pool) {
    && p'.phase == Stopping
    && p'.producer == Watching
    && p'.taken == p.taken
    && p'.fifo == p.fifo
    && forall w :: 0 <= w < |p'.workers| ==> Gone(p'.workers[w])
  }

  lemma StoppingComesToRest(config: Config, steps: seq<Step>) returns (more: seq<Step>)
    requires Run(config, steps).phase == Stopping && Run(config, steps).producer == Watching
    ensures AtRest(Run(config, steps), Run(config, steps + more))
  {
    more := WorkersLeave(config, steps, |Run(config, steps).workers|);
    WatchingStays(config, steps, more);
  }

  lemma RestAfterShutdown(p: Pool, p1: Pool, p': Pool)
    requires SameQueue(p.(phase := Stopping), p1) && AtRest(p1, p')
    ensures AtRest(p, p')
  {
  }

  lemma RestAfter(config: Config, steps: seq<Step>, stopping: seq<Step>, rest: seq<Step>)
    requires SameQueue(Run(config, steps).(phase := Stopping), Run(config, steps + stopping))
    requires AtRest(Run(config, steps + stopping), Run(config, steps + stopping + rest))
    ensures AtRest(Run(config, steps), Run(config, steps + (stopping + rest)))
  {
    RestAfterShutdown(Run(config, steps), Run(config, steps + stopping), Run(config, steps + stopping + rest));
    assert steps + (stopping + rest) == steps + stopping + rest;
  }

  /** From every reachable state a shutdown can end with no worker left and no further delivery taken. */
  lemma EveryRunCanStop(config: Config, steps: seq<Step>) returns (more: seq<Step>)
    ensures AtRest(Run(config, steps), Run(config, steps + more))
  {
    var stopping := ShutdownBegins(config, steps);
    var rest := StoppingComesToRest(config, steps + stopping);
    RestAfter(config, steps, stopping, rest);
    more := stopping + rest;
  }
}
