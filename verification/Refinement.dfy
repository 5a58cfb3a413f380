/**
 * Every run of concurrent optimistic attempts refines a serial run of the saga: the tables hold
 * exactly the streams and rows of some serial execution, whatever the interleaving, the conflicts
 * and the lost replies.
 */
module Refinement {
  import opened Wrappers
  import opened Registration
  import opened Streams
  import opened Saga
  import opened EventStore

  // ---------- Growth ----------

  /** Streams only get longer and rows are never changed. */
  ghost predicate Grows(l: Ledger, l': Ledger) {
    && (forall key :: StreamOf(l, key) <= StreamOf(l', key))
    && (forall id :: id in l.outbox ==> id in l'.outbox && l'.outbox[id] == l.outbox[id])
  }

  lemma {:induction false} PublishGrows(outbox: Outbox, key: Key, sequence: nat, tasks: seq<NewTask>)
    requires Publish(outbox, key, sequence, tasks).Some?
    ensures forall id :: id in outbox ==>
      id in Publish(outbox, key, sequence, tasks).value && Publish(outbox, key, sequence, tasks).value[id] == outbox[id]
    decreases tasks
  {
    if tasks != [] {
      PublishGrows(outbox[tasks[0].id := OutboxRow(key, sequence, tasks[0].task)], key, sequence, tasks[1..]);
    }
  }

  lemma CommitGrows(l: Ledger, call: Call)
    ensures Grows(l, Commit(l, call))
  {
    var key := KeyOf(call.command);
    var sequence := |StreamOf(l, key)| + 1;
    if Publish(l.outbox, key, sequence, call.tasks).Some? {
      PublishGrows(l.outbox, key, sequence, call.tasks);
    }
  }

  lemma IssueStable(l: Ledger, l': Ledger, request: Request, newId: TaskId)
    requires Grows(l, l') && Issue(l.outbox, request, newId).Some?
    ensures Issue(l'.outbox, request, newId) == Issue(l.outbox, request, newId)
  {
  }

  // ---------- The simulation relation ----------

  /** The `events` table is gap-free and equal to the stream. */
  ghost predicate TableIsStream(events: map<(Key, nat), Event>, l: Ledger) {
    && (forall key, s :: (key, s) in events <==> 1 <= s <= |StreamOf(l, key)|)
    && (forall key, s :: (key, s) in events ==> events[(key, s)] == StreamOf(l, key)[s - 1])
  }

  /** `state` is what replaying the first `n` events of the stream gives. */
  ghost predicate AtPrefix(l: Ledger, key: Key, n: nat, state: State) {
    && n <= |StreamOf(l, key)|
    && Replay(key, StreamOf(l, key)[..n]) == Some(state)
  }

  ghost predicate SnapshotsAgree(snapshots: map<(Key, nat), Snapshot>, l: Ledger) {
    forall at :: at in snapshots ==> AtPrefix(l, at.0, at.1, snapshots[at].state)
  }

  ghost predicate SimDb(db: Db, l: Ledger) {
    && TableIsStream(db.events, l)
    && db.outbox == l.outbox
    && SnapshotsAgree(db.snapshots, l)
  }

  /** The first `n` events already contain what the delivered task was published for. */
  ghost predicate DeliveryGrounded(l: Ledger, request: Request, n: nat) {
    request.DeliverRecordAccountCreated? && request.row in l.outbox && l.outbox[request.row].task.RecordAccountCreatedTask? ==>
      var t := l.outbox[request.row].task;
      && n <= |StreamOf(l, ReservationKey(t.email))|
      && AcceptedIn(StreamOf(l, ReservationKey(t.email))[..n], t.accountId, t.profile)
  }

  /** The completion that the delivered record task asks for is in its stream. */
  ghost predicate RecordedFor(l: Ledger, request: Request) {
    request.DeliverRecordAccountCreated? && request.row in l.outbox && l.outbox[request.row].task.RecordAccountCreatedTask? ==>
      var t := l.outbox[request.row].task;
      ReservationFact(AccountCreationCompleted(t.email, t.accountId, t.createdAt)) in StreamOf(l, ReservationKey(t.email))
  }

  /** The domain rejections a delivered continuation may see. */
  ghost predicate RejectionExpected(l: Ledger, request: Request, rejection: Rejection) {
    && (request.DeliverRecordAccountCreated? ==>
          rejection == ReservationRejected(AccountCreationAlreadyCompleted) && RecordedFor(l, request))
    && (request.DeliverCreateAccount? && request.row in l.outbox && l.outbox[request.row].task.CreateAccountTask? ==>
          var t := l.outbox[request.row].task;
          var events := StreamOf(l, AccountKey(t.accountId));
          && events != []
          && events[0].AccountFact?
          && rejection == AccountRejected(if events[0].account.email == t.email then AlreadyCreated
                                          else AlreadyExistsWithDifferentData))
  }

  /** The account stream starts with the email of the delivered creation task. */
  ghost predicate CreatedFor(l: Ledger, request: Request) {
    request.DeliverCreateAccount? && request.row in l.outbox && l.outbox[request.row].task.CreateAccountTask? ==>
      var t := l.outbox[request.row].task;
      var events := StreamOf(l, AccountKey(t.accountId));
      events != [] && events[0].AccountFact? && events[0].account.email == t.email
  }

  /** The command would record the completion of a reservation as an event that takes a snapshot. */
  ghost predicate PanicExpected(config: Config, l: Ledger, command: Command)
    requires config.Valid()
  {
    && command.ToReservation?
    && command.reservation.RecordAccountCreated?
    && exists i :: 0 <= i < |StreamOf(l, KeyOf(command))|
         && IsAcceptance(StreamOf(l, KeyOf(command))[i]) && (i + 2) % config.interval == 0
  }

  ghost predicate PreparedOk(config: Config, l: Ledger, command: Command, event: Event, sequence: nat, write: SnapshotWrite)
    requires config.Valid()
  {
    var key := KeyOf(command);
    && 1 <= sequence <= |StreamOf(l, key)| + 1
    && var before := StreamOf(l, key)[..sequence - 1];
    && Replay(key, before).Some?
    && Handle(Replay(key, before).value, command) == Ok(event)
    && (write.NoSnapshot? <==> sequence % config.interval != 0)
    && (!write.NoSnapshot? ==> !IsCompletion(event) && Apply(Replay(key, before).value, event) == Some(write.state))
  }

  ghost predicate StageOk(config: Config, l: Ledger, a: Attempt)
    requires config.Valid()
  {
    var key := KeyOf(a.call.command);
    match a.stage
    case Starting => true
    case SnapshotRead(base, sequence, _) => AtPrefix(l, key, sequence, base)
    case Loaded(state, sequence, _) => AtPrefix(l, key, sequence, state) && DeliveryGrounded(l, a.request, sequence)
    case Prepared(event, sequence, write) => PreparedOk(config, l, a.call.command, event, sequence, write)
    case Finished(outcome) =>
      && (outcome.Accepted? ==> CreatedFor(l, a.request) && RecordedFor(l, a.request))
      && (outcome.Rejected? ==> RejectionExpected(l, a.request, outcome.rejection))
      && (outcome.Panicked? ==> PanicExpected(config, l, a.call.command))
  }

  ghost predicate AttemptOk(config: Config, l: Ledger, a: Attempt)
    requires config.Valid()
  {
    && Issue(l.outbox, a.request, a.newId) == Some(a.call)
    && 1 <= a.tries <= config.maxAttempts
    && StageOk(config, l, a)
  }

  ghost predicate Sim(config: Config, w: World, l: Ledger)
    requires config.Valid()
  {
    && SimDb(w.db, l)
    && (forall id :: id in w.attempts ==> AttemptOk(config, l, w.attempts[id]))
  }

  // ---------- Growth keeps attempts valid ----------

  lemma PrefixStable(l: Ledger, l': Ledger, key: Key, n: nat)
    requires Grows(l, l') && n <= |StreamOf(l, key)|
    ensures n <= |StreamOf(l', key)| && StreamOf(l', key)[..n] == StreamOf(l, key)[..n]
  {
    assert StreamOf(l, key) <= StreamOf(l', key);
  }

  lemma RecordedStable(l: Ledger, l': Ledger, request: Request, newId: TaskId)
    requires Grows(l, l') && Issue(l.outbox, request, newId).Some? && RecordedFor(l, request)
    ensures RecordedFor(l', request)
  {
    if request.DeliverRecordAccountCreated? {
      var key := ReservationKey(l.outbox[request.row].task.email);
      assert StreamOf(l, key) <= StreamOf(l', key);
    }
  }

  lemma StageStable(config: Config, l: Ledger, l': Ledger, a: Attempt)
    requires config.Valid() && Grows(l, l') && AttemptOk(config, l, a)
    ensures AttemptOk(config, l', a)
  {
    IssueStable(l, l', a.request, a.newId);
    var key := KeyOf(a.call.command);
    match a.stage
    case Starting =>
    case SnapshotRead(_, sequence, _) => PrefixStable(l, l', key, sequence);
    case Loaded(_, sequence, _) =>
      PrefixStable(l, l', key, sequence);
    case Prepared(_, sequence, _) => PrefixStable(l, l', key, sequence - 1);
    case Finished(outcome) =>
      if outcome.Rejected? || outcome.Accepted? {
        if a.request.DeliverRecordAccountCreated? {
          RecordedStable(l, l', a.request, a.newId);
        }
      }
      if (outcome.Rejected? || outcome.Accepted?) && a.request.DeliverCreateAccount? {
        PrefixStable(l, l', AccountKey(l.outbox[a.request.row].task.accountId), 1);
        assert StreamOf(l', key)[..1][0] == StreamOf(l, key)[..1][0];
      }
      if outcome.Panicked? {
        var i :| 0 <= i < |StreamOf(l, key)| && IsAcceptance(StreamOf(l, key)[i]) && (i + 2) % config.interval == 0;
        assert StreamOf(l, key) <= StreamOf(l', key) && StreamOf(l', key)[i] == StreamOf(l, key)[i];
      }
  }

  // ---------- Reading ----------

  lemma {:induction false} TailRow(events: map<(Key, nat), Event>, l: Ledger, key: Key, from: nat, rows: seq<(nat, Event)>, i: nat)
    requires TableIsStream(events, l) && IsTail(events, key, from, rows) && i < |rows|
    ensures rows[i].0 == from + 1 + i
  {
    if i > 0 {
      TailRow(events, l, key, from, rows, i - 1);
    }
    if rows[i].0 > from + 1 + i {
      assert (key, rows[i].0) in events;
      assert (key, from + 1 + i) in events;
      var j :| 0 <= j < |rows| && rows[j].0 == from + 1 + i;
    }
  }

  /** Snapshot plus tail: the tail query returns exactly the rest of the stream. */
  lemma TailIsRest(events: map<(Key, nat), Event>, l: Ledger, key: Key, from: nat, rows: seq<(nat, Event)>)
    requires TableIsStream(events, l) && IsTail(events, key, from, rows) && from <= |StreamOf(l, key)|
    ensures |rows| == |StreamOf(l, key)| - from
    ensures EventsOf(rows) == StreamOf(l, key)[from..]
    ensures rows != [] ==> rows[|rows| - 1].0 == |StreamOf(l, key)|
  {
    forall i | 0 <= i < |rows|
      ensures rows[i].0 == from + 1 + i && rows[i].1 == StreamOf(l, key)[from + i]
    {
      TailRow(events, l, key, from, rows, i);
      assert (key, rows[i].0) in events;
    }
    if rows != [] {
      assert (key, rows[|rows| - 1].0) in events;
    }
    if from < |StreamOf(l, key)| {
      assert (key, |StreamOf(l, key)|) in events;
      var j :| 0 <= j < |rows| && rows[j].0 == |StreamOf(l, key)|;
    }
  }

  lemma ReplaySplit(key: Key, stream: seq<Event>, n: nat)
    requires Legal(key, stream) && n <= |stream|
    ensures ReplayFrom(Replay(key, stream[..n]), stream[n..]) == Replay(key, stream)
    ensures Replay(key, stream).Some?
  {
    assert stream[..n] + stream[n..] == stream;
    ReplayConcat(Some(Initial(key)), stream[..n], stream[n..]);
    ReplayTotal(key, stream);
  }

  lemma LoadIsReplay(events: map<(Key, nat), Event>, l: Ledger, key: Key, base: State, from: nat, version: nat, rows: seq<(nat, Event)>)
    requires StreamsLegal(l) && TableIsStream(events, l) && IsTail(events, key, from, rows) && AtPrefix(l, key, from, base)
    ensures AfterTail(base, from, version, rows).Loaded?
    ensures AfterTail(base, from, version, rows).sequence == |StreamOf(l, key)|
    ensures AtPrefix(l, key, |StreamOf(l, key)|, AfterTail(base, from, version, rows).state)
  {
    TailIsRest(events, l, key, from, rows);
    assert Legal(key, StreamOf(l, key));
    ReplaySplit(key, StreamOf(l, key), from);
    assert StreamOf(l, key)[..|StreamOf(l, key)|] == StreamOf(l, key);
  }

  /** Loading happens after the delivered row was committed, so its reason is in what was loaded. */
  lemma LoadedIsGrounded(l: Ledger, request: Request, newId: TaskId)
    requires SagaInvariant(l) && Issue(l.outbox, request, newId).Some?
    ensures DeliveryGrounded(l, request, |StreamOf(l, KeyOf(Issue(l.outbox, request, newId).value.command))|)
  {
    if request.DeliverRecordAccountCreated? {
      var t := l.outbox[request.row].task;
      RecordTaskGrounded(l, request.row);
      assert AccountGrounded(l, t.accountId);
      var events := StreamOf(l, ReservationKey(t.email));
      assert events[..|events|] == events;
    }
  }

  // ---------- Deciding ----------

  /** Applying an accepted event a second time changes nothing, except that a completion panics. */
  lemma SecondApply(state: State, event: Event)
    requires Apply(state, event).Some?
    ensures Apply(Apply(state, event).value, event) == if IsCompletion(event) then None else Apply(state, event)
  {
  }

  lemma LegalAtPrefix(l: Ledger, key: Key, n: nat, state: State)
    requires StreamsLegal(l) && AtPrefix(l, key, n, state)
    ensures Legal(key, StreamOf(l, key)[..n]) && Fits(key, state)
  {
    assert Legal(key, StreamOf(l, key));
    LegalPrefix(key, StreamOf(l, key), n);
    ReplayTotal(key, StreamOf(l, key)[..n]);
  }

  /** A reservation that is no longer waiting for the completion of a record task holds it. */
  lemma RefusedWasRecorded(l: Ledger, row: TaskId, n: nat, state: State)
    requires SagaInvariant(l) && RecordDeliverable(l, row, n, state) && state.ReservationState? && !state.phase.CreatingAccount?
    ensures RecordedFor(l, DeliverRecordAccountCreated(row))
  {
    var t := l.outbox[row].task;
    var events := StreamOf(l, ReservationKey(t.email));
    RecordPhase(l, row, n, state);
    assert Legal(ReservationKey(t.email), events);
    LegalPrefix(ReservationKey(t.email), events, n);
    CompletedPrefix(t.email, events[..n]);
    assert events[..n][n - 1] == events[n - 1];
  }

  lemma CompletedPrefix(email: Email, events: seq<Event>)
    requires Legal(ReservationKey(email), events)
    requires Replay(ReservationKey(email), events).Some? && Replay(ReservationKey(email), events).value.ReservationState?
    requires Replay(ReservationKey(email), events).value.phase.AccountCreated?
    ensures var phase := Replay(ReservationKey(email), events).value.phase;
      events != [] && events[|events| - 1] == ReservationFact(AccountCreationCompleted(email, phase.accountId, phase.createdAt))
  {
    ReservationTail(email, events);
  }

  lemma RejectionIsExpected(l: Ledger, request: Request, newId: TaskId, n: nat, state: State, rejection: Rejection)
    requires SagaInvariant(l) && Issue(l.outbox, request, newId).Some?
    requires var command := Issue(l.outbox, request, newId).value.command;
      && AtPrefix(l, KeyOf(command), n, state)
      && DeliveryGrounded(l, request, n)
      && Handle(state, command) == Err(rejection)
    ensures RejectionExpected(l, request, rejection)
  {
    match request
    case DeliverRecordAccountCreated(row) =>
      RecordDelivery(l, row, n, state);
      RefusedWasRecorded(l, row, n, state);
    case DeliverCreateAccount(row, now) =>
      CreateDelivery(l, row, now, n, state);
      var t := l.outbox[row].task;
      assert Legal(AccountKey(t.accountId), StreamOf(l, AccountKey(t.accountId)));
      AccountStream(t.accountId, StreamOf(l, AccountKey(t.accountId)));
    case _ =>
  }

  lemma CompletionDecision(state: State, command: Command, event: Event)
    requires Handle(state, command) == Ok(event) && IsCompletion(event)
    ensures command.ToReservation? && command.reservation.RecordAccountCreated?
    ensures state.ReservationState? && state.phase.CreatingAccount?
  {
  }

  lemma CompletionFollowsAcceptance(l: Ledger, command: Command, n: nat, state: State, event: Event)
    requires StreamsLegal(l) && AtPrefix(l, KeyOf(command), n, state)
    requires Handle(state, command) == Ok(event) && IsCompletion(event)
    ensures command.ToReservation? && command.reservation.RecordAccountCreated?
    ensures n > 0 && IsAcceptance(StreamOf(l, KeyOf(command))[n - 1])
  {
    CompletionDecision(state, command, event);
    LegalAtPrefix(l, KeyOf(command), n, state);
    AcceptedPhaseTail(command.reservation.email, StreamOf(l, KeyOf(command))[..n], state);
  }

  lemma AcceptedPhaseTail(email: Email, events: seq<Event>, state: State)
    requires Legal(ReservationKey(email), events) && Replay(ReservationKey(email), events) == Some(state)
    requires state.ReservationState? && state.phase.CreatingAccount?
    ensures events != [] && IsAcceptance(events[|events| - 1])
  {
    ReservationTail(email, events);
  }

  lemma AcceptedDecision(config: Config, l: Ledger, command: Command, state: State, n: nat, version: nat, event: Event)
    requires config.Valid() && AtPrefix(l, KeyOf(command), n, state) && Fits(KeyOf(command), state)
    requires Handle(state, command) == Ok(event)
    requires IsCompletion(event) ==>
      && command.ToReservation? && command.reservation.RecordAccountCreated?
      && n > 0 && IsAcceptance(StreamOf(l, KeyOf(command))[n - 1])
    ensures var stage := AfterDecision(config, command, state, n, version);
      || (stage.Prepared? && PreparedOk(config, l, command, stage.event, stage.sequence, stage.write))
      || (stage == Finished(Panicked) && PanicExpected(config, l, command))
  {
    EmittedApplies(KeyOf(command), state, event);
    SecondApply(state, event);
    if IsCompletion(event) && (n + 1) % config.interval == 0 {
      assert IsAcceptance(StreamOf(l, KeyOf(command))[n - 1]) && (n - 1 + 2) % config.interval == 0;
    }
  }

  lemma DecisionOk(config: Config, l: Ledger, a: Attempt)
    requires config.Valid() && SagaInvariant(l) && AttemptOk(config, l, a) && a.stage.Loaded?
    ensures AttemptOk(config, l, a.(stage := AfterDecision(config, a.call.command, a.stage.state, a.stage.sequence, a.stage.version)))
  {
    var state, n := a.stage.state, a.stage.sequence;
    match Handle(state, a.call.command)
    case Err(rejection) => RejectionIsExpected(l, a.request, a.newId, n, state, rejection);
    case Ok(event) =>
      LegalAtPrefix(l, KeyOf(a.call.command), n, state);
      if IsCompletion(event) {
        CompletionFollowsAcceptance(l, a.call.command, n, state, event);
      }
      AcceptedDecision(config, l, a.call.command, state, n, a.stage.version, event);
  }

  // ---------- Persisting ----------

  /** A write that succeeds was decided on the whole current stream. */
  lemma WinnerIsCurrent(config: Config, db: Db, l: Ledger, a: Attempt)
    requires config.Valid() && SimDb(db, l) && AttemptOk(config, l, a) && a.stage.Prepared? && PersistAttempt(db, a).Ok?
    ensures a.stage.sequence == |StreamOf(l, KeyOf(a.call.command))| + 1
    ensures StreamOf(l, KeyOf(a.call.command))[..a.stage.sequence - 1] == StreamOf(l, KeyOf(a.call.command))
    ensures Replay(KeyOf(a.call.command), StreamOf(l, KeyOf(a.call.command))).Some?
    ensures Handle(Replay(KeyOf(a.call.command), StreamOf(l, KeyOf(a.call.command))).value, a.call.command) == Ok(a.stage.event)
  {
    var key := KeyOf(a.call.command);
    assert (key, a.stage.sequence) !in db.events;
  }

  /** The winner's write is the serial commit of the same call. */
  lemma WinnerCommits(config: Config, db: Db, l: Ledger, a: Attempt)
    requires config.Valid() && SimDb(db, l) && AttemptOk(config, l, a) && a.stage.Prepared? && PersistAttempt(db, a).Ok?
    ensures var key := KeyOf(a.call.command);
      && Commit(l, a.call).streams == l.streams[key := StreamOf(l, key) + [a.stage.event]]
      && Commit(l, a.call).outbox == PersistAttempt(db, a).value.outbox
  {
    WinnerIsCurrent(config, db, l, a);
  }

  lemma TableAppend(events: map<(Key, nat), Event>, l: Ledger, l': Ledger, key: Key, event: Event)
    requires TableIsStream(events, l) && l'.streams == l.streams[key := StreamOf(l, key) + [event]]
    ensures TableIsStream(events[(key, |StreamOf(l, key)| + 1) := event], l')
  {
  }

  lemma SnapshotsAppend(config: Config, db: Db, l: Ledger, l': Ledger, a: Attempt)
    requires config.Valid() && SimDb(db, l) && AttemptOk(config, l, a) && a.stage.Prepared? && PersistAttempt(db, a).Ok?
    requires Grows(l, l') && l'.streams == l.streams[KeyOf(a.call.command) := StreamOf(l, KeyOf(a.call.command)) + [a.stage.event]]
    ensures SnapshotsAgree(PersistAttempt(db, a).value.snapshots, l')
  {
    var key := KeyOf(a.call.command);
    WinnerIsCurrent(config, db, l, a);
    var snapshots := PersistAttempt(db, a).value.snapshots;
    forall at | at in snapshots
      ensures AtPrefix(l', at.0, at.1, snapshots[at].state)
    {
      if at in db.snapshots && snapshots[at] == db.snapshots[at] {
        PrefixStable(l, l', at.0, at.1);
      } else {
        assert at == (key, a.stage.sequence);
        var stream := StreamOf(l', key);
        assert stream[..at.1] == stream && stream[..|stream| - 1] == StreamOf(l, key);
      }
    }
  }

  lemma PersistOk(config: Config, db: Db, l: Ledger, a: Attempt)
    requires config.Valid() && SimDb(db, l) && AttemptOk(config, l, a) && a.stage.Prepared? && PersistAttempt(db, a).Ok?
    ensures SimDb(PersistAttempt(db, a).value, Commit(l, a.call)) && Grows(l, Commit(l, a.call))
  {
    WinnerIsCurrent(config, db, l, a);
    WinnerCommits(config, db, l, a);
    CommitGrows(l, a.call);
    TableAppend(db.events, l, Commit(l, a.call), KeyOf(a.call.command), a.stage.event);
    SnapshotsAppend(config, db, l, Commit(l, a.call), a);
  }

  // ---------- Every step simulates ----------

  /** The serial request a step stands for: only a successful write is one. */
  ghost function Linearized(w: World, step: Step): Option<SerialStep> {
    if step.Persist? && step.attempt in w.attempts && w.attempts[step.attempt].stage.Prepared?
       && PersistAttempt(w.db, w.attempts[step.attempt]).Ok?
    then Some(SerialStep(w.attempts[step.attempt].request, w.attempts[step.attempt].newId))
    else None
  }

  ghost function Effect(w: World, l: Ledger, step: Step): Ledger {
    match Linearized(w, step)
    case None => l
    case Some(serial) => Execute(l, serial.request, serial.newId)
  }

  /** Replacing one attempt by a valid one keeps the relation while the tables stay as they are. */
  lemma AttemptReplaced(config: Config, w: World, l: Ledger, id: nat, a: Attempt)
    requires config.Valid() && Sim(config, w, l) && AttemptOk(config, l, a)
    ensures Sim(config, w.(attempts := w.attempts[id := a]), l)
  {
  }

  lemma ReadSnapshotSim(config: Config, w: World, l: Ledger, id: nat, at: Option<nat>)
    requires config.Valid() && Sim(config, w, l)
    ensures Sim(config, Next(config, w, ReadSnapshot(id, at)), l)
  {
    if id in w.attempts && w.attempts[id].stage.Starting? && AfterSnapshot(w.db, w.attempts[id], at).Some? {
      var a := w.attempts[id];
      var key := KeyOf(a.call.command);
      assert AttemptOk(config, l, a);
      assert StreamOf(l, key)[..0] == [];
      AttemptReplaced(config, w, l, id, a.(stage := AfterSnapshot(w.db, a, at).value));
    }
  }

  lemma ReadTailSim(config: Config, w: World, l: Ledger, id: nat, rows: seq<(nat, Event)>)
    requires config.Valid() && Sim(config, w, l) && SagaInvariant(l)
    ensures Sim(config, Next(config, w, ReadTail(id, rows)), l)
  {
    if id in w.attempts && w.attempts[id].stage.SnapshotRead?
       && IsTail(w.db.events, KeyOf(w.attempts[id].call.command), w.attempts[id].stage.sequence, rows)
    {
      var a := w.attempts[id];
      assert AttemptOk(config, l, a);
      LoadIsReplay(w.db.events, l, KeyOf(a.call.command), a.stage.base, a.stage.sequence, a.stage.version, rows);
      LoadedIsGrounded(l, a.request, a.newId);
      AttemptReplaced(config, w, l, id, a.(stage := AfterTail(a.stage.base, a.stage.sequence, a.stage.version, rows)));
    }
  }

  lemma AfterPersistOk(config: Config, l: Ledger, a: Attempt, result: Result<Db, PersistenceError>, replied: bool)
    requires config.Valid() && AttemptOk(config, l, a) && (result.Ok? ==> CreatedFor(l, a.request) && RecordedFor(l, a.request))
    ensures AttemptOk(config, l, AfterPersist(config, a, result, replied))
  {
  }

  lemma AttemptsStable(config: Config, w: World, l: Ledger, db: Db, l': Ledger)
    requires config.Valid() && Sim(config, w, l) && Grows(l, l') && SimDb(db, l')
    ensures Sim(config, World(db, w.attempts), l')
  {
    forall id | id in w.attempts
      ensures AttemptOk(config, l', w.attempts[id])
    {
      StageStable(config, l, l', w.attempts[id]);
    }
  }

  /** The tables after a write, successful or not. */
  ghost function AfterWrite(db: Db, a: Attempt): Db
    requires a.stage.Prepared?
  {
    if PersistAttempt(db, a).Ok? then PersistAttempt(db, a).value else db
  }

  lemma TablesSim(config: Config, w: World, l: Ledger, id: nat, replied: bool)
    requires config.Valid() && Sim(config, w, l) && id in w.attempts && w.attempts[id].stage.Prepared?
    ensures Sim(config, World(AfterWrite(w.db, w.attempts[id]), w.attempts), Effect(w, l, Persist(id, replied)))
  {
    var a := w.attempts[id];
    assert AttemptOk(config, l, a);
    if PersistAttempt(w.db, a).Ok? {
      PersistOk(config, w.db, l, a);
      AttemptsStable(config, w, l, AfterWrite(w.db, a), Commit(l, a.call));
    }
  }

  lemma PersistOutcome(config: Config, w: World, id: nat, replied: bool)
    requires config.Valid() && id in w.attempts && w.attempts[id].stage.Prepared?
    ensures Next(config, w, Persist(id, replied)) ==
            World(AfterWrite(w.db, w.attempts[id]),
                  w.attempts[id := AfterPersist(config, w.attempts[id], PersistAttempt(w.db, w.attempts[id]), replied)])
  {
  }

  /** A successful creation makes the account of the email it was delivered for. */
  lemma WinnerCreates(config: Config, db: Db, l: Ledger, a: Attempt)
    requires config.Valid() && SimDb(db, l) && StreamsLegal(l) && AttemptOk(config, l, a)
    requires a.stage.Prepared? && PersistAttempt(db, a).Ok? && a.request.DeliverCreateAccount?
    ensures var events := StreamOf(Commit(l, a.call), KeyOf(a.call.command));
      && a.request.row in l.outbox && l.outbox[a.request.row].task.CreateAccountTask?
      && KeyOf(a.call.command) == AccountKey(l.outbox[a.request.row].task.accountId)
      && events != [] && events[0].AccountFact? && events[0].account.email == l.outbox[a.request.row].task.email
  {
    var t := l.outbox[a.request.row].task;
    var key := AccountKey(t.accountId);
    WinnerIsCurrent(config, db, l, a);
    WinnerCommits(config, db, l, a);
    assert Legal(key, StreamOf(l, key));
    AccountStream(t.accountId, StreamOf(l, key));
  }

  lemma WinnerRecords(config: Config, db: Db, l: Ledger, a: Attempt)
    requires config.Valid() && SimDb(db, l) && AttemptOk(config, l, a)
    requires a.stage.Prepared? && PersistAttempt(db, a).Ok? && a.request.DeliverRecordAccountCreated?
    ensures RecordedFor(Commit(l, a.call), a.request)
  {
    WinnerIsCurrent(config, db, l, a);
    WinnerCommits(config, db, l, a);
    CommitGrows(l, a.call);
    assert StreamOf(Commit(l, a.call), KeyOf(a.call.command))[|StreamOf(l, KeyOf(a.call.command))|] == a.stage.event;
  }

  lemma WinnerIsCreated(config: Config, db: Db, l: Ledger, a: Attempt)
    requires config.Valid() && SimDb(db, l) && StreamsLegal(l) && AttemptOk(config, l, a)
    requires a.stage.Prepared? && PersistAttempt(db, a).Ok?
    ensures CreatedFor(Commit(l, a.call), a.request) && RecordedFor(Commit(l, a.call), a.request)
  {
    if a.request.DeliverCreateAccount? {
      WinnerCreates(config, db, l, a);
      CommitGrows(l, a.call);
    } else if a.request.DeliverRecordAccountCreated? {
      WinnerRecords(config, db, l, a);
    }
  }

  lemma PersistSim(config: Config, w: World, l: Ledger, id: nat, replied: bool)
    requires config.Valid() && Sim(config, w, l) && StreamsLegal(l) && id in w.attempts && w.attempts[id].stage.Prepared?
    ensures Sim(config, Next(config, w, Persist(id, replied)), Effect(w, l, Persist(id, replied)))
  {
    var a, l' := w.attempts[id], Effect(w, l, Persist(id, replied));
    var result := PersistAttempt(w.db, a);
    TablesSim(config, w, l, id, replied);
    PersistOutcome(config, w, id, replied);
    assert AttemptOk(config, l', a);
    if result.Ok? {
      assert AttemptOk(config, l, a);
      WinnerIsCreated(config, w.db, l, a);
    }
    AfterPersistOk(config, l', a, result, replied);
    AttemptReplaced(config, World(AfterWrite(w.db, a), w.attempts), l', id, AfterPersist(config, a, result, replied));
  }

  lemma NextSim(config: Config, w: World, l: Ledger, step: Step)
    requires config.Valid() && Sim(config, w, l) && SagaInvariant(l)
    ensures Sim(config, Next(config, w, step), Effect(w, l, step))
  {
    match step
    case Begin(id, request, newId) =>
      if Issue(w.db.outbox, request, newId).Some? && id !in w.attempts {
        AttemptReplaced(config, w, l, id, Attempt(request, newId, Issue(w.db.outbox, request, newId).value, 1, Starting));
      }
    case ReadSnapshot(id, at) => ReadSnapshotSim(config, w, l, id, at);
    case ReadTail(id, rows) => ReadTailSim(config, w, l, id, rows);
    case Decide(id) =>
      if id in w.attempts && w.attempts[id].stage.Loaded? {
        var a := w.attempts[id];
        DecisionOk(config, l, a);
        AttemptReplaced(config, w, l, id,
                        a.(stage := AfterDecision(config, a.call.command, a.stage.state, a.stage.sequence, a.stage.version)));
      }
    case Persist(id, replied) =>
      if id in w.attempts && w.attempts[id].stage.Prepared? {
        PersistSim(config, w, l, id, replied);
      }
    case Disconnect(id) =>
      if id in w.attempts && !w.attempts[id].stage.Finished? {
        AttemptReplaced(config, w, l, id, w.attempts[id].(stage := Finished(Unavailable)));
      }
  }

  /** The serial schedule of a concurrent run: its successful writes, in commit order. */
  ghost function SerialOf(config: Config, steps: seq<Step>): seq<SerialStep>
    requires config.Valid()
  {
    if steps == [] then []
    else
      var before := steps[..|steps| - 1];
      match Linearized(Run(config, before), steps[|steps| - 1])
      case None => SerialOf(config, before)
      case Some(serial) => SerialOf(config, before) + [serial]
  }

  /** The state of the saga that a concurrent run has reached. */
  ghost function LedgerOf(config: Config, steps: seq<Step>): Ledger
    requires config.Valid()
  {
    SerialRun(SerialOf(config, steps))
  }

  /** Optimistic concurrency refines serial execution. */
  lemma {:induction false} RefinesSerialExecution(config: Config, steps: seq<Step>)
    requires config.Valid()
    ensures Sim(config, Run(config, steps), LedgerOf(config, steps))
    ensures SagaInvariant(LedgerOf(config, steps))
  {
    SerialRunsAreSafe(SerialOf(config, steps));
    if steps != [] {
      var before := steps[..|steps| - 1];
      RefinesSerialExecution(config, before);
      NextSim(config, Run(config, before), LedgerOf(config, before), steps[|steps| - 1]);
      LedgerStep(config, steps);
    }
  }

  lemma LedgerStep(config: Config, steps: seq<Step>)
    requires config.Valid() && steps != []
    ensures LedgerOf(config, steps) == Effect(Run(config, steps[..|steps| - 1]), LedgerOf(config, steps[..|steps| - 1]), steps[|steps| - 1])
  {
    var before := steps[..|steps| - 1];
    var linear := Linearized(Run(config, before), steps[|steps| - 1]);
    if linear.Some? {
      var serial := SerialOf(config, before);
      assert (serial + [linear.value])[..|serial|] == serial;
    }
  }
}
