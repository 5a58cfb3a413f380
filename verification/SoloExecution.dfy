/**
 * The other half of the refinement: what one undisturbed execution of a request does. It has exactly
 * the effect of its serial execution unless its event is due for a snapshot and is a completion, or
 * the snapshot version it read is not carried by exactly one row; then it writes nothing.
 */
module SoloExecution {
  import opened Identifiers
  import opened Wrappers
  import opened Registration
  import opened Streams
  import opened Saga
  import opened EventStore
  import opened Refinement

  lemma {:induction false} RunAppend(config: Config, w: World, a: seq<Step>, b: seq<Step>)
    requires config.Valid()
    ensures RunFrom(config, w, a + b) == RunFrom(config, RunFrom(config, w, a), b)
  {
    if b == [] {
      assert a + b == a;
    } else {
      RunAppend(config, w, a, b[..|b| - 1]);
      assert (a + b)[..|a + b| - 1] == a + b[..|b| - 1];
    }
  }

  lemma StepAppend(config: Config, w: World, steps: seq<Step>, step: Step)
    requires config.Valid()
    ensures RunFrom(config, w, steps + [step]) == Next(config, RunFrom(config, w, steps), step)
  {
    assert (steps + [step])[..|steps|] == steps;
  }

  lemma TwoSteps(config: Config, w: World, a: Step, b: Step)
    requires config.Valid()
    ensures RunFrom(config, w, [a, b]) == Next(config, Next(config, w, a), b)
  {
    StepAppend(config, w, [], a);
    StepAppend(config, w, [a], b);
    assert [] + [a] == [a] && [a] + [b] == [a, b];
  }

  // ---------- What an undisturbed execution reads ----------

  /** The snapshot query of an undisturbed load may return this row, or find none. */
  ghost predicate Readable(snapshots: map<(Key, nat), Snapshot>, key: Key, at: Option<nat>) {
    match at
    case Some(last) => (key, last) in snapshots
    case None => forall row :: row in snapshots ==> row.0 != key
  }

  function VersionAt(snapshots: map<(Key, nat), Snapshot>, key: Key, at: Option<nat>): nat {
    if at.Some? && (key, at.value) in snapshots then snapshots[(key, at.value)].version else 0
  }

  /** The stream after `from` as query rows. */
  function RowsFrom(stream: seq<Event>, from: nat): seq<(nat, Event)>
    requires from <= |stream|
  {
    seq(|stream| - from, i requires 0 <= i < |stream| - from => (from + 1 + i, stream[from + i]))
  }

  lemma RowsFromIsTail(events: map<(Key, nat), Event>, l: Ledger, key: Key, from: nat)
    requires TableIsStream(events, l) && from <= |StreamOf(l, key)|
    ensures IsTail(events, key, from, RowsFrom(StreamOf(l, key), from))
  {
    var stream := StreamOf(l, key);
    var rows := RowsFrom(stream, from);
    forall s | from < s && (key, s) in events
      ensures exists i :: 0 <= i < |rows| && rows[i].0 == s
    {
      assert rows[s - from - 1].0 == s;
    }
  }

  // ---------- When it commits ----------

  /** The serial execution of the call appends an event. */
  ghost predicate Appends(l: Ledger, call: Call, event: Event) {
    var key := KeyOf(call.command);
    && Replay(key, StreamOf(l, key)).Some?
    && Handle(Replay(key, StreamOf(l, key)).value, call.command) == Ok(event)
    && Publish(l.outbox, key, |StreamOf(l, key)| + 1, call.tasks).Some?
  }

  /** A snapshot built on this version can be written: it is the first, or has one row to replace. */
  predicate Advances(snapshots: map<(Key, nat), Snapshot>, key: Key, version: nat) {
    version == 0 || |Carriers(snapshots, key, version)| == 1
  }

  /** The next event of the stream is due for a snapshot. */
  predicate Due(config: Config, l: Ledger, key: Key)
    requires config.Valid()
  {
    (|StreamOf(l, key)| + 1) % config.interval == 0
  }

  /** The serial execution would append, but its event is due for a snapshot that cannot be taken. */
  ghost predicate Hindered(config: Config, snapshots: map<(Key, nat), Snapshot>, l: Ledger, call: Call, version: nat)
    requires config.Valid()
  {
    var key := KeyOf(call.command);
    exists event ::
      && Appends(l, call, event)
      && Due(config, l, key)
      && (IsCompletion(event) || !Advances(snapshots, key, version))
  }

  /** What the attempt decides on the whole stream. */
  ghost function Decided(config: Config, l: Ledger, command: Command, version: nat): Stage
    requires config.Valid() && Replay(KeyOf(command), StreamOf(l, KeyOf(command))).Some?
  {
    var key := KeyOf(command);
    AfterDecision(config, command, Replay(key, StreamOf(l, key)).value, |StreamOf(l, key)|, version)
  }

  ghost predicate Commits(db: Db, key: Key, stage: Stage, tasks: seq<NewTask>) {
    stage.Prepared? && PersistOne(db, key, stage.event, stage.sequence, stage.write, tasks).Ok?
  }

  /** The next sequence number is free in both tables. */
  lemma NextIsFree(db: Db, l: Ledger, key: Key)
    requires SimDb(db, l)
    ensures (key, |StreamOf(l, key)| + 1) !in db.events && (key, |StreamOf(l, key)| + 1) !in db.snapshots
  {
  }

  lemma SnapshotWritten(db: Db, l: Ledger, key: Key, state: State, version: nat)
    requires SimDb(db, l)
    ensures WriteSnapshot(db.snapshots, key, |StreamOf(l, key)| + 1, SnapshotFor(state, version + 1)).Some?
      <==> Advances(db.snapshots, key, version)
  {
    NextIsFree(db, l, key);
  }

  lemma CommitsExactly(config: Config, db: Db, l: Ledger, call: Call, version: nat)
    requires config.Valid() && SimDb(db, l) && StreamsLegal(l)
    ensures var key := KeyOf(call.command);
      && Replay(key, StreamOf(l, key)).Some?
      && (Commits(db, key, Decided(config, l, call.command, version), call.tasks)
          <==> (exists event :: Appends(l, call, event)) && !Hindered(config, db.snapshots, l, call, version))
  {
    var key := KeyOf(call.command);
    var stream := StreamOf(l, key);
    assert Legal(key, stream);
    ReplayTotal(key, stream);
    var state := Replay(key, stream).value;
    match Handle(state, call.command)
    case Err(_) =>
    case Ok(event) => AcceptedCommits(config, db, l, call, version, event);
  }

  lemma AcceptedCommits(config: Config, db: Db, l: Ledger, call: Call, version: nat, event: Event)
    requires config.Valid() && SimDb(db, l)
    requires var key := KeyOf(call.command);
      && Replay(key, StreamOf(l, key)).Some?
      && Fits(key, Replay(key, StreamOf(l, key)).value)
      && Handle(Replay(key, StreamOf(l, key)).value, call.command) == Ok(event)
    ensures Commits(db, KeyOf(call.command), Decided(config, l, call.command, version), call.tasks)
      <==> Appends(l, call, event) && !Hindered(config, db.snapshots, l, call, version)
    ensures Appends(l, call, event) <==> exists e :: Appends(l, call, e)
  {
    var key := KeyOf(call.command);
    var state := Replay(key, StreamOf(l, key)).value;
    EmittedApplies(key, state, event);
    SecondApply(state, event);
    NextIsFree(db, l, key);
    SnapshotWritten(db, l, key, Apply(state, event).value, version);
  }

  // ---------- Driving one attempt ----------

  ghost predicate OthersKept(w: World, w': World, id: nat) {
    && w'.attempts.Keys == w.attempts.Keys + {id}
    && (forall other :: other in w.attempts && other != id ==> w'.attempts[other] == w.attempts[other])
  }

  /** The worlds differ in attempt `id` only. */
  ghost predicate SameElsewhere(w: World, w': World, id: nat) {
    w'.db == w.db && OthersKept(w, w', id)
  }

  /** Attempt `id` executes this call while the tables still stand for the ledger `l`. */
  ghost predicate Driving(config: Config, w: World, l: Ledger, id: nat, call: Call)
    requires config.Valid()
  {
    Sim(config, w, l) && id in w.attempts && w.attempts[id].call == call
  }

  lemma DriveBegin(config: Config, w: World, l: Ledger, id: nat, serial: SerialStep)
    requires config.Valid() && Sim(config, w, l) && SagaInvariant(l) && id !in w.attempts
    requires Issue(l.outbox, serial.request, serial.newId).Some?
    ensures var w' := Next(config, w, Begin(id, serial.request, serial.newId));
      && Driving(config, w', l, id, Issue(l.outbox, serial.request, serial.newId).value)
      && w'.attempts[id] == Attempt(serial.request, serial.newId, Issue(l.outbox, serial.request, serial.newId).value, 1, Starting)
      && SameElsewhere(w, w', id)
  {
    NextSim(config, w, l, Begin(id, serial.request, serial.newId));
  }

  lemma DriveSnapshot(config: Config, w: World, l: Ledger, id: nat, call: Call, at: Option<nat>)
    requires config.Valid() && Driving(config, w, l, id, call) && w.attempts[id].stage.Starting?
    requires Readable(w.db.snapshots, KeyOf(call.command), at)
    ensures var w' := Next(config, w, ReadSnapshot(id, at));
      && Driving(config, w', l, id, call)
      && SameElsewhere(w, w', id)
      && w'.attempts[id].stage.SnapshotRead?
      && w'.attempts[id] == w.attempts[id].(stage := w'.attempts[id].stage)
      && w'.attempts[id].stage.version == VersionAt(w.db.snapshots, KeyOf(call.command), at)
  {
    ReadSnapshotSim(config, w, l, id, at);
  }

  /** The rest of the stream after what attempt `id` has read. */
  ghost function RestFor(w: World, l: Ledger, id: nat): seq<(nat, Event)>
    requires id in w.attempts && w.attempts[id].stage.SnapshotRead?
    requires w.attempts[id].stage.sequence <= |StreamOf(l, KeyOf(w.attempts[id].call.command))|
  {
    RowsFrom(StreamOf(l, KeyOf(w.attempts[id].call.command)), w.attempts[id].stage.sequence)
  }

  lemma TailStep(config: Config, w: World, id: nat, rows: seq<(nat, Event)>)
    requires config.Valid() && id in w.attempts && w.attempts[id].stage.SnapshotRead?
    requires IsTail(w.db.events, KeyOf(w.attempts[id].call.command), w.attempts[id].stage.sequence, rows)
    ensures var a := w.attempts[id];
      Next(config, w, ReadTail(id, rows)) == w.(attempts := w.attempts[id :=
        a.(stage := AfterTail(a.stage.base, a.stage.sequence, a.stage.version, rows))])
  {
  }

  lemma ReadPrefix(config: Config, w: World, l: Ledger, id: nat, call: Call)
    requires config.Valid() && Driving(config, w, l, id, call) && w.attempts[id].stage.SnapshotRead?
    ensures AtPrefix(l, KeyOf(call.command), w.attempts[id].stage.sequence, w.attempts[id].stage.base)
  {
    assert AttemptOk(config, l, w.attempts[id]);
  }

  /** Reading the rest of the stream loads its whole replay. */
  lemma RestLoads(w: World, l: Ledger, id: nat, key: Key)
    requires TableIsStream(w.db.events, l) && StreamsLegal(l) && id in w.attempts && w.attempts[id].stage.SnapshotRead?
    requires KeyOf(w.attempts[id].call.command) == key
    requires AtPrefix(l, key, w.attempts[id].stage.sequence, w.attempts[id].stage.base)
    ensures var stage := w.attempts[id].stage;
      && IsTail(w.db.events, key, stage.sequence, RestFor(w, l, id))
      && Replay(key, StreamOf(l, key)).Some?
      && AfterTail(stage.base, stage.sequence, stage.version, RestFor(w, l, id)) ==
           Loaded(Replay(key, StreamOf(l, key)).value, |StreamOf(l, key)|, stage.version)
  {
    var stage := w.attempts[id].stage;
    RowsFromIsTail(w.db.events, l, key, stage.sequence);
    LoadIsReplay(w.db.events, l, key, stage.base, stage.sequence, stage.version, RestFor(w, l, id));
    assert StreamOf(l, key)[..|StreamOf(l, key)|] == StreamOf(l, key);
  }

  lemma DriveTail(config: Config, w: World, l: Ledger, id: nat, call: Call)
    requires config.Valid() && Driving(config, w, l, id, call) && w.attempts[id].stage.SnapshotRead? && SagaInvariant(l)
    ensures w.attempts[id].stage.sequence <= |StreamOf(l, KeyOf(call.command))|
    ensures var key := KeyOf(call.command);
      var w' := Next(config, w, ReadTail(id, RestFor(w, l, id)));
      && Replay(key, StreamOf(l, key)).Some?
      && Driving(config, w', l, id, call)
      && SameElsewhere(w, w', id)
      && w'.attempts[id] == w.attempts[id].(stage := Loaded(Replay(key, StreamOf(l, key)).value, |StreamOf(l, key)|,
                                                             w.attempts[id].stage.version))
  {
    ReadPrefix(config, w, l, id, call);
    RestLoads(w, l, id, KeyOf(call.command));
    TailStep(config, w, id, RestFor(w, l, id));
    ReadTailSim(config, w, l, id, RestFor(w, l, id));
  }

  lemma DecideStep(config: Config, w: World, id: nat)
    requires config.Valid() && id in w.attempts && w.attempts[id].stage.Loaded?
    ensures var a := w.attempts[id];
      Next(config, w, Decide(id)) == w.(attempts := w.attempts[id :=
        a.(stage := AfterDecision(config, a.call.command, a.stage.state, a.stage.sequence, a.stage.version))])
  {
  }

  lemma DriveDecision(config: Config, w: World, l: Ledger, id: nat, call: Call, version: nat)
    requires config.Valid() && Driving(config, w, l, id, call) && SagaInvariant(l)
    requires Replay(KeyOf(call.command), StreamOf(l, KeyOf(call.command))).Some?
    requires w.attempts[id].stage == Loaded(Replay(KeyOf(call.command), StreamOf(l, KeyOf(call.command))).value,
                                            |StreamOf(l, KeyOf(call.command))|, version)
    ensures var w' := Next(config, w, Decide(id));
      && Driving(config, w', l, id, call)
      && SameElsewhere(w, w', id)
      && w'.attempts[id] == w.attempts[id].(stage := Decided(config, l, call.command, version))
  {
    DecideStep(config, w, id);
    NextSim(config, w, l, Decide(id));
  }

  /** The ledger after an undisturbed execution. */
  ghost function AfterSolo(config: Config, snapshots: map<(Key, nat), Snapshot>, l: Ledger, call: Call, version: nat): Ledger
    requires config.Valid()
  {
    if Hindered(config, snapshots, l, call, version) then l else Commit(l, call)
  }

  lemma SkippedCommit(l: Ledger, call: Call)
    ensures (exists event :: Appends(l, call, event)) <==> Commit(l, call) != l
  {
    var key := KeyOf(call.command);
    if event :| Appends(l, call, event) {
      assert StreamOf(Commit(l, call), key) == StreamOf(l, key) + [event];
    } else {
      if Replay(key, StreamOf(l, key)).Some? && Handle(Replay(key, StreamOf(l, key)).value, call.command).Ok? {
        assert !Appends(l, call, Handle(Replay(key, StreamOf(l, key)).value, call.command).value);
      }
    }
  }

  /** The one statement of the decided write turned the tables into these. */
  ghost predicate Wrote(config: Config, db: Db, db': Db, l: Ledger, call: Call, version: nat)
    requires config.Valid()
  {
    var key := KeyOf(call.command);
    && Replay(key, StreamOf(l, key)).Some?
    && var stage := Decided(config, l, call.command, version);
    && stage.Prepared?
    && PersistOne(db, key, stage.event, stage.sequence, stage.write, call.tasks) == Ok(db')
  }

  /** The persist step of a decided attempt, by whether its write succeeds. */
  lemma PersistEffect(config: Config, w: World, id: nat, call: Call)
    requires config.Valid() && id in w.attempts && w.attempts[id].call == call
    ensures var w', stage := Next(config, w, Persist(id, true)), w.attempts[id].stage;
      && OthersKept(w, w', id)
      && (if Commits(w.db, KeyOf(call.command), stage, call.tasks)
          then && w'.attempts[id].stage.Finished?
               && PersistOne(w.db, KeyOf(call.command), stage.event, stage.sequence, stage.write, call.tasks) == Ok(w'.db)
               && Linearized(w, Persist(id, true)) == Some(SerialStep(w.attempts[id].request, w.attempts[id].newId))
          else w'.db == w.db && Linearized(w, Persist(id, true)) == None)
  {
  }

  lemma IssuedCall(config: Config, w: World, l: Ledger, id: nat, call: Call)
    requires config.Valid() && Driving(config, w, l, id, call)
    ensures Execute(l, w.attempts[id].request, w.attempts[id].newId) == Commit(l, call)
  {
    assert AttemptOk(config, l, w.attempts[id]);
  }

  /** The last step: the write succeeds exactly when nothing hinders it. */
  lemma DrivePersist(config: Config, w: World, l: Ledger, id: nat, call: Call, version: nat)
    requires config.Valid() && Driving(config, w, l, id, call) && SagaInvariant(l)
    requires Replay(KeyOf(call.command), StreamOf(l, KeyOf(call.command))).Some?
    requires w.attempts[id].stage == Decided(config, l, call.command, version)
    ensures Executed(config, w, Next(config, w, Persist(id, true)), l, id, call, version)
  {
    CommitsExactly(config, w.db, l, call, version);
    SkippedCommit(l, call);
    PersistEffect(config, w, id, call);
    IssuedCall(config, w, l, id, call);
    NextSim(config, w, l, Persist(id, true));
  }

  /** The effect of an undisturbed execution that read this version: its serial effect, or none when it is hindered. */
  ghost predicate Executed(config: Config, w: World, w': World, l: Ledger, id: nat, call: Call, version: nat)
    requires config.Valid()
  {
    && Sim(config, w', AfterSolo(config, w.db.snapshots, l, call, version))
    && OthersKept(w, w', id)
    && if (exists event :: Appends(l, call, event)) && !Hindered(config, w.db.snapshots, l, call, version)
       then id in w'.attempts && w'.attempts[id].stage.Finished? && Wrote(config, w.db, w'.db, l, call, version)
       else w'.db == w.db
  }

  // ---------- What the execution reports ----------

  /**
   * The answer to an undisturbed try on this version: the aggregate's refusal, a panic for a completion
   * that is due for a snapshot, one more try or a conflict for a snapshot that cannot be written, a
   * failure for a task id that is taken, and otherwise acceptance.
   */
  ghost function Reply(config: Config, snapshots: map<(Key, nat), Snapshot>, l: Ledger, call: Call, version: nat, tries: nat): Stage
    requires config.Valid() && Replay(KeyOf(call.command), StreamOf(l, KeyOf(call.command))).Some?
  {
    var key := KeyOf(call.command);
    match Handle(Replay(key, StreamOf(l, key)).value, call.command)
    case Err(rejection) => Finished(Rejected(rejection))
    case Ok(event) =>
      if Due(config, l, key) && IsCompletion(event) then Finished(Panicked)
      else if Due(config, l, key) && !Advances(snapshots, key, version)
      then if tries < config.maxAttempts then Starting else Finished(Conflict)
      else if Publish(l.outbox, key, |StreamOf(l, key)| + 1, call.tasks).None? then Finished(Unavailable)
      else Finished(Accepted)
  }

  /** The attempt ends its try with that answer, counted as one more try when it starts over. */
  ghost predicate Replied(config: Config, w: World, w': World, l: Ledger, id: nat, call: Call, version: nat)
    requires config.Valid()
  {
    && id in w.attempts
    && id in w'.attempts
    && Replay(KeyOf(call.command), StreamOf(l, KeyOf(call.command))).Some?
    && var a := w.attempts[id];
       var stage := Reply(config, w.db.snapshots, l, call, version, a.tries);
       w'.attempts[id] == a.(tries := if stage.Starting? then a.tries + 1 else a.tries, stage := stage)
  }

  /** What a decided write meets in the tables. */
  lemma DecidedReply(config: Config, db: Db, l: Ledger, call: Call, version: nat, a: Attempt)
    requires config.Valid() && SimDb(db, l) && a.call == call
    requires var key := KeyOf(call.command);
      Replay(key, StreamOf(l, key)).Some? && Fits(key, Replay(key, StreamOf(l, key)).value)
    requires a.stage == Decided(config, l, call.command, version)
    ensures var stage := Reply(config, db.snapshots, l, call, version, a.tries);
      (if a.stage.Prepared? then AfterPersist(config, a, PersistAttempt(db, a), true) else a)
      == a.(tries := if stage.Starting? then a.tries + 1 else a.tries, stage := stage)
  {
    var key := KeyOf(call.command);
    var state := Replay(key, StreamOf(l, key)).value;
    if Handle(state, call.command).Ok? {
      var event := Handle(state, call.command).value;
      EmittedApplies(key, state, event);
      SecondApply(state, event);
      NextIsFree(db, l, key);
      SnapshotWritten(db, l, key, Apply(state, event).value, version);
    }
  }

  lemma ReplyOfPersist(config: Config, w: World, l: Ledger, id: nat, call: Call, version: nat)
    requires config.Valid() && Driving(config, w, l, id, call) && SagaInvariant(l)
    requires Replay(KeyOf(call.command), StreamOf(l, KeyOf(call.command))).Some?
    requires w.attempts[id].stage == Decided(config, l, call.command, version)
    ensures Replied(config, w, Next(config, w, Persist(id, true)), l, id, call, version)
  {
    var key := KeyOf(call.command);
    assert Legal(key, StreamOf(l, key));
    ReplayTotal(key, StreamOf(l, key));
    DecidedReply(config, w.db, l, call, version, w.attempts[id]);
  }

  lemma ExecutedSince(config: Config, w: World, w1: World, w': World, l: Ledger, id: nat, call: Call, version: nat)
    requires config.Valid() && SameElsewhere(w, w1, id) && Executed(config, w1, w', l, id, call, version)
    ensures Executed(config, w, w', l, id, call, version)
  {
  }

  /** One try of a request with nothing else in between. */
  function OneTry(id: nat, at: Option<nat>, rows: seq<(nat, Event)>): seq<Step> {
    [ReadSnapshot(id, at), ReadTail(id, rows)] + [Decide(id), Persist(id, true)]
  }

  /** One execution of a request with nothing else in between. */
  function Alone(id: nat, serial: SerialStep, at: Option<nat>, rows: seq<(nat, Event)>): seq<Step> {
    [Begin(id, serial.request, serial.newId)] + OneTry(id, at, rows)
  }

  lemma SoloLoad(config: Config, w: World, l: Ledger, id: nat, call: Call, at: Option<nat>) returns (rows: seq<(nat, Event)>)
    requires config.Valid() && Driving(config, w, l, id, call) && SagaInvariant(l) && w.attempts[id].stage.Starting?
    requires Readable(w.db.snapshots, KeyOf(call.command), at)
    ensures var key := KeyOf(call.command);
      var w' := RunFrom(config, w, [ReadSnapshot(id, at), ReadTail(id, rows)]);
      && Driving(config, w', l, id, call)
      && SameElsewhere(w, w', id)
      && Replay(key, StreamOf(l, key)).Some?
      && w'.attempts[id] == w.attempts[id].(stage := Loaded(Replay(key, StreamOf(l, key)).value, |StreamOf(l, key)|,
                                                            VersionAt(w.db.snapshots, key, at)))
  {
    DriveSnapshot(config, w, l, id, call, at);
    var w1 := Next(config, w, ReadSnapshot(id, at));
    DriveTail(config, w1, l, id, call);
    rows := RestFor(w1, l, id);
    TwoSteps(config, w, ReadSnapshot(id, at), ReadTail(id, rows));
  }

  lemma SoloCommit(config: Config, w: World, l: Ledger, id: nat, call: Call, version: nat)
    requires config.Valid() && Driving(config, w, l, id, call) && SagaInvariant(l)
    requires Replay(KeyOf(call.command), StreamOf(l, KeyOf(call.command))).Some?
    requires w.attempts[id].stage == Loaded(Replay(KeyOf(call.command), StreamOf(l, KeyOf(call.command))).value,
                                            |StreamOf(l, KeyOf(call.command))|, version)
    ensures var w' := RunFrom(config, w, [Decide(id), Persist(id, true)]);
      && Executed(config, w, w', l, id, call, version)
      && Replied(config, w, w', l, id, call, version)
  {
    DriveDecision(config, w, l, id, call, version);
    var decided := Next(config, w, Decide(id));
    DrivePersist(config, decided, l, id, call, version);
    ReplyOfPersist(config, decided, l, id, call, version);
    TwoSteps(config, w, Decide(id), Persist(id, true));
    ExecutedSince(config, w, decided, Next(config, decided, Persist(id, true)), l, id, call, version);
  }

  /**
   * A try with nothing else in between, whichever snapshot row its load returns and however many tries
   * went before, commits exactly the serial effect of its call if and only if nothing hinders it;
   * otherwise it leaves the tables as they were. What it reports follows from the stream.
   */
  lemma Try(config: Config, w: World, l: Ledger, id: nat, call: Call, at: Option<nat>) returns (rows: seq<(nat, Event)>)
    requires config.Valid() && Driving(config, w, l, id, call) && SagaInvariant(l) && w.attempts[id].stage.Starting?
    requires Readable(w.db.snapshots, KeyOf(call.command), at)
    ensures var version := VersionAt(w.db.snapshots, KeyOf(call.command), at);
      var w' := RunFrom(config, w, OneTry(id, at, rows));
      && Executed(config, w, w', l, id, call, version)
      && Replied(config, w, w', l, id, call, version)
  {
    rows := SoloLoad(config, w, l, id, call, at);
    var load := [ReadSnapshot(id, at), ReadTail(id, rows)];
    var version, loaded := VersionAt(w.db.snapshots, KeyOf(call.command), at), RunFrom(config, w, load);
    SoloCommit(config, loaded, l, id, call, version);
    RunAppend(config, w, load, [Decide(id), Persist(id, true)]);
    ExecutedSince(config, w, loaded, RunFrom(config, w, OneTry(id, at, rows)), l, id, call, version);
  }

  /**
   * A request executed alone, whichever snapshot row its load returns, commits exactly its serial
   * effect if and only if nothing hinders it; otherwise it leaves the tables as they were.
   */
  lemma Serve(config: Config, w: World, l: Ledger, id: nat, serial: SerialStep, at: Option<nat>) returns (rows: seq<(nat, Event)>)
    requires config.Valid() && Sim(config, w, l) && SagaInvariant(l) && id !in w.attempts
    requires Issue(l.outbox, serial.request, serial.newId).Some?
    requires Readable(w.db.snapshots, KeyOf(Issue(l.outbox, serial.request, serial.newId).value.command), at)
    ensures var call := Issue(l.outbox, serial.request, serial.newId).value;
      var version := VersionAt(w.db.snapshots, KeyOf(call.command), at);
      var w' := RunFrom(config, w, Alone(id, serial, at, rows));
      && Executed(config, w, w', l, id, call, version)
      && (Hindered(config, w.db.snapshots, l, call, version) ==> Execute(l, serial.request, serial.newId) != l)
      && Replay(KeyOf(call.command), StreamOf(l, KeyOf(call.command))).Some?
      && id in w'.attempts
      && w'.attempts[id].stage == Reply(config, w.db.snapshots, l, call, version, 1)
  {
    var call, begin := Issue(l.outbox, serial.request, serial.newId).value, Begin(id, serial.request, serial.newId);
    var version := VersionAt(w.db.snapshots, KeyOf(call.command), at);
    DriveBegin(config, w, l, id, serial);
    var begun := Next(config, w, begin);
    rows := Try(config, begun, l, id, call, at);
    RunAppend(config, w, [begin], OneTry(id, at, rows));
    StepAppend(config, w, [], begin);
    assert [] + [begin] == [begin];
    ExecutedSince(config, w, begun, RunFrom(config, w, Alone(id, serial, at, rows)), l, id, call, version);
    SkippedCommit(l, call);
  }
}
