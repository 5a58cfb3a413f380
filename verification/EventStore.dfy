/**
 * The event store tables, the single atomic write, and concurrent optimistic command attempts:
 * read a snapshot, read the tail, decide, persist, and start over after a conflict.
 */
module EventStore {
  import opened Wrappers
  import opened Registration
  import opened Streams
  import opened Saga

  datatype Snapshot = Snapshot(version: nat, state: State)

  /** The three tables under their primary keys. */
  datatype Db = Db(events: map<(Key, nat), Event>, snapshots: map<(Key, nat), Snapshot>, outbox: Outbox)

  datatype SnapshotWrite = NoSnapshot | Insert(state: State) | Update(state: State, version: nat)

  /** `SnapshotWrite::new`: the first version inserts, every later one updates its predecessor. */
  function SnapshotFor(state: State, version: nat): SnapshotWrite {
    if version == 1 then Insert(state) else Update(state, version)
  }

  datatype PersistenceError = OptimisticLockError | UnknownError

  /** Rows of the stream that carry this version. */
  function Carriers(snapshots: map<(Key, nat), Snapshot>, key: Key, version: nat): set<(Key, nat)> {
    set at | at in snapshots && at.0 == key && snapshots[at].version == version
  }

  /** `None` when the statement returns a count other than one or violates `snapshots_pkey`. */
  function WriteSnapshot(snapshots: map<(Key, nat), Snapshot>, key: Key, sequence: nat, write: SnapshotWrite)
    : Option<map<(Key, nat), Snapshot>>
  {
    match write
    case NoSnapshot => Some(snapshots)
    case Insert(state) =>
      if (key, sequence) in snapshots then None else Some(snapshots[(key, sequence) := Snapshot(1, state)])
    case Update(state, version) =>
      var replaced := if version == 0 then {} else Carriers(snapshots, key, version - 1);
      if |replaced| != 1 || (key, sequence) in snapshots.Keys - replaced then None
      else Some((snapshots - replaced)[(key, sequence) := Snapshot(version, state)])
  }

  /** One statement: the snapshot guards the event, the event guards its outbox rows, all or nothing. */
  function PersistOne(db: Db, key: Key, event: Event, sequence: nat, write: SnapshotWrite, tasks: seq<NewTask>)
    : Result<Db, PersistenceError>
  {
    match WriteSnapshot(db.snapshots, key, sequence, write)
    case None => Err(OptimisticLockError)
    case Some(snapshots) =>
      if (key, sequence) in db.events then Err(OptimisticLockError)
      else
        match Publish(db.outbox, key, sequence, tasks)
        case None => Err(UnknownError)
        case Some(outbox) => Ok(Db(db.events[(key, sequence) := event], snapshots, outbox))
  }

  // ---------- Concurrent attempts ----------

  datatype Outcome = Accepted | Rejected(rejection: Rejection) | Conflict | Unavailable | Panicked

  datatype Stage =
    | Starting
    | SnapshotRead(base: State, sequence: nat, version: nat)
    | Loaded(state: State, sequence: nat, version: nat)
    | Prepared(event: Event, sequence: nat, write: SnapshotWrite)
    | Finished(outcome: Outcome)

  /** One `execute` call: command and tasks are fixed at the start, only the stage restarts. */
  datatype Attempt = Attempt(request: Request, newId: TaskId, call: Call, tries: nat, stage: Stage)

  datatype World = World(db: Db, attempts: map<nat, Attempt>)

  /** Snapshot interval and optimistic-conflict budget; both constructors reject zero. */
  datatype Config = Config(interval: nat, maxAttempts: nat) {
    predicate Valid() {
      interval > 0 && maxAttempts > 0
    }
  }

  datatype Step =
    | Begin(attempt: nat, request: Request, newId: TaskId)
    | ReadSnapshot(attempt: nat, at: Option<nat>)
    | ReadTail(attempt: nat, rows: seq<(nat, Event)>)
    | Decide(attempt: nat)
    | Persist(attempt: nat, replied: bool)
    | Disconnect(attempt: nat)

  /** `rows` is the stream after `from`, in sequence order: what the tail query returns. */
  ghost predicate IsTail(events: map<(Key, nat), Event>, key: Key, from: nat, rows: seq<(nat, Event)>) {
    && (forall i :: 0 <= i < |rows| ==>
          from < rows[i].0 && (key, rows[i].0) in events && events[(key, rows[i].0)] == rows[i].1)
    && (forall i, j :: 0 <= i < j < |rows| ==> rows[i].0 < rows[j].0)
    && (forall s :: from < s && (key, s) in events ==> exists i :: 0 <= i < |rows| && rows[i].0 == s)
  }

  function EventsOf(rows: seq<(nat, Event)>): seq<Event> {
    seq(|rows|, i requires 0 <= i < |rows| => rows[i].1)
  }

  function AfterSnapshot(db: Db, attempt: Attempt, at: Option<nat>): Option<Stage> {
    var key := KeyOf(attempt.call.command);
    match at
    case Some(last) =>
      if (key, last) in db.snapshots
      then Some(SnapshotRead(db.snapshots[(key, last)].state, last, db.snapshots[(key, last)].version)) else None
    case None =>
      if exists row :: row in db.snapshots && row.0 == key then None else Some(SnapshotRead(Initial(key), 0, 0))
  }

  function AfterTail(base: State, sequence: nat, version: nat, rows: seq<(nat, Event)>): Stage {
    match ReplayFrom(Some(base), EventsOf(rows))
    case None => Finished(Panicked)
    case Some(state) => Loaded(state, if rows == [] then sequence else rows[|rows| - 1].0, version)
  }

  /**
   * `handle` applies its event through the sink; when the new sequence reaches the interval the
   * store applies the event once more to build the snapshot.
   */
  function AfterDecision(config: Config, command: Command, state: State, sequence: nat, version: nat): Stage
    requires config.Valid()
  {
    match Handle(state, command)
    case Err(rejection) => Finished(Rejected(rejection))
    case Ok(event) =>
      match Apply(state, event)
      case None => Finished(Panicked)
      case Some(once) =>
        if (sequence + 1) % config.interval != 0 then Prepared(event, sequence + 1, NoSnapshot)
        else
          match Apply(once, event)
          case None => Finished(Panicked)
          case Some(twice) => Prepared(event, sequence + 1, SnapshotFor(twice, version + 1))
  }

  /** Only an optimistic conflict is retried, with the same command and tasks, up to the budget. */
  function AfterPersist(config: Config, attempt: Attempt, result: Result<Db, PersistenceError>, replied: bool): Attempt {
    if !replied then attempt.(stage := Finished(Unavailable))
    else
      match result
      case Ok(_) => attempt.(stage := Finished(Accepted))
      case Err(OptimisticLockError) =>
        if attempt.tries < config.maxAttempts then attempt.(tries := attempt.tries + 1, stage := Starting)
        else attempt.(stage := Finished(Conflict))
      case Err(UnknownError) => attempt.(stage := Finished(Unavailable))
  }

  function PersistAttempt(db: Db, attempt: Attempt): Result<Db, PersistenceError>
    requires attempt.stage.Prepared?
  {
    PersistOne(db, KeyOf(attempt.call.command), attempt.stage.event, attempt.stage.sequence,
               attempt.stage.write, attempt.call.tasks)
  }

  /** A step that is not enabled leaves the world unchanged. */
  ghost function Next(config: Config, w: World, step: Step): World
    requires config.Valid()
  {
    if step.Begin? then
      (match Issue(w.db.outbox, step.request, step.newId)
       case None => w
       case Some(call) =>
         if step.attempt in w.attempts then w
         else w.(attempts := w.attempts[step.attempt := Attempt(step.request, step.newId, call, 1, Starting)]))
    else if step.attempt !in w.attempts then w
    else
      var a := w.attempts[step.attempt];
      match step
      case ReadSnapshot(id, at) =>
        if !a.stage.Starting? then w
        else
          (match AfterSnapshot(w.db, a, at)
           case None => w
           case Some(stage) => w.(attempts := w.attempts[id := a.(stage := stage)]))
      case ReadTail(id, rows) =>
        if a.stage.SnapshotRead? && IsTail(w.db.events, KeyOf(a.call.command), a.stage.sequence, rows)
        then w.(attempts := w.attempts[id := a.(stage := AfterTail(a.stage.base, a.stage.sequence, a.stage.version, rows))])
        else w
      case Decide(id) =>
        if !a.stage.Loaded? then w
        else
          var stage := AfterDecision(config, a.call.command, a.stage.state, a.stage.sequence, a.stage.version);
          w.(attempts := w.attempts[id := a.(stage := stage)])
      case Persist(id, replied) =>
        if !a.stage.Prepared? then w
        else
          var result := PersistAttempt(w.db, a);
          World(if result.Ok? then result.value else w.db, w.attempts[id := AfterPersist(config, a, result, replied)])
      case Disconnect(id) =>
        if a.stage.Finished? then w else w.(attempts := w.attempts[id := a.(stage := Finished(Unavailable))])
  }

  ghost function RunFrom(config: Config, w: World, steps: seq<Step>): World
    requires config.Valid()
  {
    if steps == [] then w else Next(config, RunFrom(config, w, steps[..|steps| - 1]), steps[|steps| - 1])
  }

  ghost function Run(config: Config, steps: seq<Step>): World
    requires config.Valid()
  {
    RunFrom(config, World(Db(map[], map[], map[]), map[]), steps)
  }
}
