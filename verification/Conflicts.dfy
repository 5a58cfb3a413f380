/**
 * What becomes of a command whose write loses a race: the store reports an optimistic conflict exactly
 * then, the attempt starts over with the same command and tasks while its budget lasts, and a try that
 * is left alone has the serial effect on the stream as the winner left it.
 */
module Conflicts {
  import opened Wrappers
  import opened Registration
  import opened Streams
  import opened Saga
  import opened EventStore
  import opened Refinement
  import opened SoloExecution
  import R = EventRepository

  // ---------- The answer of the store ----------

  lemma FreshRest(outbox: Outbox, row: OutboxRow, tasks: seq<NewTask>)
    requires tasks != [] && tasks[0].id !in outbox
    ensures R.FreshTasks(outbox, tasks) <==> R.FreshTasks(outbox[tasks[0].id := row], tasks[1..])
  {
    var outbox', rest := outbox[tasks[0].id := row], tasks[1..];
    if R.FreshTasks(outbox', rest) {
      forall i, j | 0 <= i < j < |tasks|
        ensures tasks[i].id != tasks[j].id
      {
        assert rest[j - 1] == tasks[j];
        assert i > 0 ==> rest[i - 1] == tasks[i];
      }
      forall i | 0 <= i < |tasks|
        ensures tasks[i].id !in outbox
      {
        assert i > 0 ==> rest[i - 1].id !in outbox';
      }
    }
  }

  lemma {:induction false} PublishesFresh(outbox: Outbox, key: Key, sequence: nat, tasks: seq<NewTask>)
    ensures Publish(outbox, key, sequence, tasks).Some? <==> R.FreshTasks(outbox, tasks)
    decreases tasks
  {
    if tasks != [] && tasks[0].id !in outbox {
      var row := OutboxRow(key, sequence, tasks[0].task);
      FreshRest(outbox, row, tasks);
      PublishesFresh(outbox[tasks[0].id := row], key, sequence, tasks[1..]);
    }
  }

  predicate Lost(db: Db, a: Attempt)
    requires a.stage.Prepared?
  {
    R.LostRace(db, KeyOf(a.call.command), a.stage.sequence, a.stage.write)
  }

  /** A prepared write is answered by the tables alone: what it loses is a race, what it repeats is a task id. */
  lemma PersistAnswers(db: Db, a: Attempt)
    requires a.stage.Prepared?
    ensures var result := PersistAttempt(db, a);
      && (result == Err(OptimisticLockError) <==> Lost(db, a))
      && (result == Err(UnknownError) <==> !Lost(db, a) && !R.FreshTasks(db.outbox, a.call.tasks))
      && (result.Ok? <==> !Lost(db, a) && R.FreshTasks(db.outbox, a.call.tasks))
  {
    var key := KeyOf(a.call.command);
    R.SnapshotIsStored(db.snapshots, key, a.stage.sequence, a.stage.write);
    PublishesFresh(db.outbox, key, a.stage.sequence, a.call.tasks);
  }

  // ---------- The attempt after it ----------

  /** Where the attempt stands after its write, by the tables and its budget. */
  ghost function AfterReply(config: Config, db: Db, a: Attempt): Attempt
    requires a.stage.Prepared?
  {
    if Lost(db, a) then
      if a.tries < config.maxAttempts then Attempt(a.request, a.newId, a.call, a.tries + 1, Starting)
      else Attempt(a.request, a.newId, a.call, a.tries, Finished(Conflict))
    else Attempt(a.request, a.newId, a.call, a.tries,
                 Finished(if R.FreshTasks(db.outbox, a.call.tasks) then Accepted else Unavailable))
  }

  /**
   * A write whose reply arrives leaves its attempt back at the start with one try more exactly when it
   * lost a race within its budget, and without its reply always finished as unavailable. A lost race
   * changes no table.
   */
  lemma PersistMoves(config: Config, w: World, id: nat, replied: bool)
    requires config.Valid() && id in w.attempts && w.attempts[id].stage.Prepared?
    ensures var a, w' := w.attempts[id], Next(config, w, Persist(id, replied));
      && w'.attempts == w.attempts[id :=
           if replied then AfterReply(config, w.db, a) else Attempt(a.request, a.newId, a.call, a.tries, Finished(Unavailable))]
      && (Lost(w.db, a) ==> w'.db == w.db)
  {
    PersistAnswers(w.db, w.attempts[id]);
  }

  /** A lost connection ends an unfinished attempt as unavailable, wherever it stands, and changes no table. */
  lemma DisconnectEnds(config: Config, w: World, id: nat)
    requires config.Valid() && id in w.attempts && !w.attempts[id].stage.Finished?
    ensures var a := w.attempts[id];
      Next(config, w, Disconnect(id)) ==
      World(w.db, w.attempts[id := Attempt(a.request, a.newId, a.call, a.tries, Finished(Unavailable))])
  {
  }

  // ---------- The next try ----------

  /** The attempt has a prepared write that would lose a race now, and budget for another try. */
  predicate Loser(config: Config, w: World, id: nat) {
    id in w.attempts && w.attempts[id].stage.Prepared? && Lost(w.db, w.attempts[id]) && w.attempts[id].tries < config.maxAttempts
  }

  lemma LoserDrives(config: Config, w: World, l: Ledger, id: nat)
    requires config.Valid() && Sim(config, w, l) && SagaInvariant(l) && Loser(config, w, id)
    ensures var a, again := w.attempts[id], Next(config, w, Persist(id, true));
      && Driving(config, again, l, id, a.call)
      && again == World(w.db, w.attempts[id := a.(tries := a.tries + 1, stage := Starting)])
  {
    PersistAnswers(w.db, w.attempts[id]);
    PersistMoves(config, w, id, true);
    NextSim(config, w, l, Persist(id, true));
  }

  /** From `again` to `w'` the attempt had the serial effect of its request on `l`, or none when it is hindered. */
  ghost predicate Served(config: Config, again: World, w': World, l: Ledger, id: nat, at: Option<nat>)
    requires config.Valid() && id in again.attempts
  {
    var a := again.attempts[id];
    var version := VersionAt(again.db.snapshots, KeyOf(a.call.command), at);
    && Executed(config, again, w', l, id, a.call, version)
    && Replied(config, again, w', l, id, a.call, version)
    && Execute(l, a.request, a.newId) == Commit(l, a.call)
  }

  lemma ServedByTry(config: Config, again: World, l: Ledger, id: nat, call: Call, at: Option<nat>) returns (rows: seq<(nat, Event)>)
    requires config.Valid() && Driving(config, again, l, id, call) && SagaInvariant(l) && again.attempts[id].stage.Starting?
    requires Readable(again.db.snapshots, KeyOf(call.command), at)
    ensures Served(config, again, RunFrom(config, again, OneTry(id, at, rows)), l, id, at)
  {
    IssuedCall(config, again, l, id, call);
    rows := Try(config, again, l, id, call, at);
  }

  /** A lost write and one try after it, from `w`. */
  ghost predicate LossIsServed(config: Config, w: World, l: Ledger, id: nat, at: Option<nat>, rows: seq<(nat, Event)>)
    requires config.Valid() && id in w.attempts
  {
    var a, again := w.attempts[id], Next(config, w, Persist(id, true));
    && again == World(w.db, w.attempts[id := a.(tries := a.tries + 1, stage := Starting)])
    && Served(config, again, RunFrom(config, again, OneTry(id, at, rows)), l, id, at)
  }

  lemma LoserServed(config: Config, w: World, l: Ledger, id: nat, at: Option<nat>) returns (rows: seq<(nat, Event)>)
    requires config.Valid() && Sim(config, w, l) && SagaInvariant(l) && Loser(config, w, id)
    requires Readable(w.db.snapshots, KeyOf(w.attempts[id].call.command), at)
    ensures LossIsServed(config, w, l, id, at, rows)
  {
    LoserDrives(config, w, l, id);
    rows := ServedByTry(config, Next(config, w, Persist(id, true)), l, id, w.attempts[id].call, at);
  }

  lemma RunLoserServed(config: Config, steps: seq<Step>, id: nat, at: Option<nat>) returns (rows: seq<(nat, Event)>)
    requires config.Valid() && Loser(config, Run(config, steps), id)
    requires Readable(Run(config, steps).db.snapshots, KeyOf(Run(config, steps).attempts[id].call.command), at)
    ensures LossIsServed(config, Run(config, steps), LedgerOf(config, steps), id, at, rows)
  {
    RefinesSerialExecution(config, steps);
    rows := LoserServed(config, Run(config, steps), LedgerOf(config, steps), id, at);
  }

  lemma RunGoesOn(config: Config, steps: seq<Step>, step: Step, more: seq<Step>)
    requires config.Valid()
    ensures Run(config, steps + [step]) == Next(config, Run(config, steps), step)
    ensures Run(config, steps + [step] + more) == RunFrom(config, Next(config, Run(config, steps), step), more)
  {
    StepAppend(config, World(Db(map[], map[], map[]), map[]), steps, step);
    RunAppend(config, World(Db(map[], map[], map[]), map[]), steps + [step], more);
  }

  /**
   * In every run an attempt that lost a race within its budget starts over, and left alone for one try
   * it commits exactly the serial effect of its request on what the winners left, unless the snapshot
   * that is due hinders it; its answer is the one the stream determines.
   */
  lemma LoserTriesAgain(config: Config, steps: seq<Step>, id: nat, at: Option<nat>) returns (rows: seq<(nat, Event)>)
    requires config.Valid() && Loser(config, Run(config, steps), id)
    requires Readable(Run(config, steps).db.snapshots, KeyOf(Run(config, steps).attempts[id].call.command), at)
    ensures var w, a, again := Run(config, steps), Run(config, steps).attempts[id], Run(config, steps + [Persist(id, true)]);
      && again == World(w.db, w.attempts[id := a.(tries := a.tries + 1, stage := Starting)])
      && Served(config, again, Run(config, steps + [Persist(id, true)] + OneTry(id, at, rows)), LedgerOf(config, steps), id, at)
  {
    rows := RunLoserServed(config, steps, id, at);
    RunGoesOn(config, steps, Persist(id, true), OneTry(id, at, rows));
  }
}
