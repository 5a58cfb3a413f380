/**
 * The repeat-tolerance contract of the snapshot path fails for one event kind: recording the
 * completion of a registration as an event that takes a snapshot panics before anything is written.
 * A registration can be completed exactly when its completion does not fall on the interval.
 */
module SnapshotCompletion {
  import opened Identifiers
  import opened Modular
  import opened Wrappers
  import opened Registration
  import opened Streams
  import opened Saga
  import opened EventStore
  import opened Refinement
  import opened SoloExecution
  import opened SnapshotRows
  import opened Walks

  // ---------- No completion ever lands on the interval ----------

  ghost predicate CompletionsAvoidInterval(config: Config, events: map<(Key, nat), Event>)
    requires config.Valid()
  {
    forall at: (Key, nat) :: at in events && IsCompletion(events[at]) ==> at.1 % config.interval != 0
  }

  lemma NextAvoidsInterval(config: Config, w: World, l: Ledger, step: Step)
    requires config.Valid() && Sim(config, w, l) && CompletionsAvoidInterval(config, w.db.events)
    ensures CompletionsAvoidInterval(config, Next(config, w, step).db.events)
  {
    if step.Persist? && step.attempt in w.attempts && w.attempts[step.attempt].stage.Prepared? {
      assert AttemptOk(config, l, w.attempts[step.attempt]);
    }
  }

  lemma {:induction false} CompletionNeverLandsOnInterval(config: Config, steps: seq<Step>)
    requires config.Valid()
    ensures CompletionsAvoidInterval(config, Run(config, steps).db.events)
  {
    if steps != [] {
      var before := steps[..|steps| - 1];
      CompletionNeverLandsOnInterval(config, before);
      RefinesSerialExecution(config, before);
      NextAvoidsInterval(config, Run(config, before), LedgerOf(config, before), steps[|steps| - 1]);
    }
  }

  /** An attempt panics only while recording such a completion. */
  lemma OnlyCompletionsPanic(config: Config, steps: seq<Step>, id: nat)
    requires config.Valid() && id in Run(config, steps).attempts
    requires Run(config, steps).attempts[id].stage == Finished(Panicked)
    ensures Run(config, steps).attempts[id].request.DeliverRecordAccountCreated?
    ensures exists s :: && (KeyOf(Run(config, steps).attempts[id].call.command), s) in Run(config, steps).db.events
                        && IsAcceptance(Run(config, steps).db.events[(KeyOf(Run(config, steps).attempts[id].call.command), s)])
                        && (s + 1) % config.interval == 0
  {
    RefinesSerialExecution(config, steps);
    var w, l := Run(config, steps), LedgerOf(config, steps);
    var a := w.attempts[id];
    assert AttemptOk(config, l, a);
    var key := KeyOf(a.call.command);
    var i :| 0 <= i < |StreamOf(l, key)| && IsAcceptance(StreamOf(l, key)[i]) && (i + 2) % config.interval == 0;
    assert (key, i + 1) in w.db.events && (i + 1 + 1) % config.interval == 0;
  }

  // ---------- Off the interval one undisturbed delivery completes the registration ----------

  /** The record task in `row` waits for a reservation whose last event, number `s`, is the acceptance. */
  ghost predicate AwaitsCompletion(db: Db, row: TaskId, s: nat) {
    && row in db.outbox
    && db.outbox[row].task.RecordAccountCreatedTask?
    && var key := ReservationKey(db.outbox[row].task.email);
    && (key, s) in db.events
    && IsAcceptance(db.events[(key, s)])
    && (key, s + 1) !in db.events
  }

  lemma AwaitedLength(db: Db, l: Ledger, row: TaskId, s: nat)
    requires SimDb(db, l) && AwaitsCompletion(db, row, s)
    ensures |StreamOf(l, ReservationKey(db.outbox[row].task.email))| == s > 0
    ensures IsAcceptance(StreamOf(l, ReservationKey(db.outbox[row].task.email))[s - 1])
  {
  }

  lemma AcceptedLast(email: Email, events: seq<Event>)
    requires Legal(ReservationKey(email), events) && events != [] && IsAcceptance(events[|events| - 1])
    ensures var state := Replay(ReservationKey(email), events);
      state.Some? && state.value.ReservationState? && state.value.phase.CreatingAccount?
  {
    ReservationTail(email, events);
  }

  lemma AwaitedIsGrounded(l: Ledger, row: TaskId)
    requires StreamsLegal(l) && row in l.outbox && l.outbox[row].task.RecordAccountCreatedTask?
    requires RowGrounded(l, l.outbox[row]) && AccountGrounded(l, l.outbox[row].task.accountId)
    ensures var t := l.outbox[row].task; AcceptedIn(StreamOf(l, ReservationKey(t.email)), t.accountId, t.profile)
  {
    RecordTaskGrounded(l, row);
  }

  lemma AwaitedPhase(db: Db, l: Ledger, row: TaskId, s: nat)
    requires SimDb(db, l) && SagaInvariant(l) && AwaitsCompletion(db, row, s)
    ensures var t := db.outbox[row].task;
      var state := Replay(ReservationKey(t.email), StreamOf(l, ReservationKey(t.email)));
      && state.Some? && state.value.ReservationState? && state.value.phase.CreatingAccount?
      && state.value.phase.accountId == t.accountId
      && state.value.phase.profile == t.profile
  {
    var t := db.outbox[row].task;
    var stream := StreamOf(l, ReservationKey(t.email));
    AwaitedLength(db, l, row, s);
    assert Legal(ReservationKey(t.email), stream);
    AcceptedLast(t.email, stream);
    AwaitedIsGrounded(l, row);
    assert stream[..|stream|] == stream;
    RecordPhase(l, row, |stream|, Replay(ReservationKey(t.email), stream).value);
  }

  lemma AwaitedAppends(db: Db, l: Ledger, row: TaskId, s: nat)
    requires SimDb(db, l) && SagaInvariant(l) && AwaitsCompletion(db, row, s)
    ensures var t := db.outbox[row].task;
      && |StreamOf(l, ReservationKey(t.email))| == s
      && Appends(l, Call(ToReservation(RecordAccountCreated(t.email, t.accountId, t.profile, t.createdAt)), []),
                 ReservationFact(AccountCreationCompleted(t.email, t.accountId, t.createdAt)))
  {
    var t := db.outbox[row].task;
    AwaitedLength(db, l, row, s);
    AwaitedPhase(db, l, row, s);
    RecordDecision(Replay(ReservationKey(t.email), StreamOf(l, ReservationKey(t.email))).value, t);
  }

  lemma RecordIssued(outbox: Outbox, row: TaskId)
    requires row in outbox && outbox[row].task.RecordAccountCreatedTask?
    ensures var t := outbox[row].task;
      && Issue(outbox, DeliverRecordAccountCreated(row), 0)
         == Some(Call(ToReservation(RecordAccountCreated(t.email, t.accountId, t.profile, t.createdAt)), []))
      && KeyOf(ToReservation(RecordAccountCreated(t.email, t.accountId, t.profile, t.createdAt))) == ReservationKey(t.email)
  {
  }

  lemma SomeRow(snapshots: Snapshots, key: Key) returns (at: Option<nat>)
    ensures Readable(snapshots, key, at)
  {
    at := None;
    if seen :| seen in snapshots && seen.0 == key {
      at := Some(seen.1);
    }
  }

  lemma StreamInTable(events: map<(Key, nat), Event>, l: Ledger, key: Key)
    requires TableIsStream(events, l) && StreamOf(l, key) != []
    ensures (key, |StreamOf(l, key)|) in events
  {
  }

  lemma CommitExtends(l: Ledger, call: Call, event: Event)
    requires Appends(l, call, event)
    ensures |StreamOf(Commit(l, call), KeyOf(call.command))| == |StreamOf(l, KeyOf(call.command))| + 1
  {
  }

  /** Off the interval an undisturbed execution that appends is in the table under the next number. */
  lemma ServeLands(config: Config, w: World, l: Ledger, serial: SerialStep, event: Event) returns (more: seq<Step>)
    requires config.Valid() && Sim(config, w, l) && SagaInvariant(l) && Issue(l.outbox, serial.request, serial.newId).Some?
    requires var call := Issue(l.outbox, serial.request, serial.newId).value;
      Appends(l, call, event) && !Due(config, l, KeyOf(call.command))
    ensures var key := KeyOf(Issue(l.outbox, serial.request, serial.newId).value.command);
      (key, |StreamOf(l, key)| + 1) in RunFrom(config, w, more).db.events
  {
    var call := Issue(l.outbox, serial.request, serial.newId).value;
    var at := SomeRow(w.db.snapshots, KeyOf(call.command));
    FreshId(w.attempts.Keys);
    var id: nat :| id !in w.attempts.Keys;
    var rows := Serve(config, w, l, id, serial, at);
    more := Alone(id, serial, at, rows);
    CommitExtends(l, call, event);
    StreamInTable(RunFrom(config, w, more).db.events, Commit(l, call), KeyOf(call.command));
  }

  lemma Complete(config: Config, w: World, l: Ledger, row: TaskId, s: nat) returns (more: seq<Step>)
    requires config.Valid() && Sim(config, w, l) && SagaInvariant(l) && AwaitsCompletion(w.db, row, s)
    requires (s + 1) % config.interval != 0
    ensures (ReservationKey(w.db.outbox[row].task.email), s + 1) in RunFrom(config, w, more).db.events
  {
    var t := w.db.outbox[row].task;
    AwaitedAppends(w.db, l, row, s);
    RecordIssued(l.outbox, row);
    more := ServeLands(config, w, l, SerialStep(DeliverRecordAccountCreated(row), 0),
                       ReservationFact(AccountCreationCompleted(t.email, t.accountId, t.createdAt)));
  }

  /** Committed events are never changed or removed. */
  lemma {:induction false} EventsPersist(config: Config, w: World, more: seq<Step>, at: (Key, nat))
    requires config.Valid() && at in w.db.events
    ensures at in RunFrom(config, w, more).db.events && RunFrom(config, w, more).db.events[at] == w.db.events[at]
  {
    if more != [] {
      EventsPersist(config, w, more[..|more| - 1], at);
    }
  }

  lemma LandedIsCompletion(events: map<(Key, nat), Event>, l: Ledger, email: Email, s: nat)
    requires TableIsStream(events, l) && Legal(ReservationKey(email), StreamOf(l, ReservationKey(email)))
    requires (ReservationKey(email), s) in events && IsAcceptance(events[(ReservationKey(email), s)])
    requires (ReservationKey(email), s + 1) in events
    ensures IsCompletion(events[(ReservationKey(email), s + 1)])
  {
    AcceptanceIsFinal(email, StreamOf(l, ReservationKey(email)), s - 1);
  }

  /**
   * A created account's reservation can still be completed, in some continuation of the run, if and
   * only if the completion would not be an event that takes a snapshot.
   */
  lemma CompletableExactlyOffInterval(config: Config, steps: seq<Step>, row: TaskId, s: nat)
    requires config.Valid() && AwaitsCompletion(Run(config, steps).db, row, s)
    ensures (exists more ::
               (ReservationKey(Run(config, steps).db.outbox[row].task.email), s + 1) in Run(config, steps + more).db.events)
      <==> (s + 1) % config.interval != 0
  {
    var key := ReservationKey(Run(config, steps).db.outbox[row].task.email);
    RefinesSerialExecution(config, steps);
    if (s + 1) % config.interval != 0 {
      var more := Complete(config, Run(config, steps), LedgerOf(config, steps), row, s);
      RunAppend(config, World(Db(map[], map[], map[]), map[]), steps, more);
    }
    forall more | (key, s + 1) in Run(config, steps + more).db.events
      ensures (s + 1) % config.interval != 0
    {
      var later := Run(config, steps + more);
      RunAppend(config, World(Db(map[], map[], map[]), map[]), steps, more);
      EventsPersist(config, Run(config, steps), more, (key, s));
      RefinesSerialExecution(config, steps + more);
      assert Legal(key, StreamOf(LedgerOf(config, steps + more), key));
      LandedIsCompletion(later.db.events, LedgerOf(config, steps + more), key.email, s);
      CompletionNeverLandsOnInterval(config, steps + more);
      assert (key, s + 1) in later.db.events;
    }
  }

  // ---------- Such registrations exist for every interval ----------

  lemma Verified(config: Config, n: nat) returns (l: Ledger)
    requires config.Valid() && 1 <= n
    ensures Reached(config, l, map[]) && Stands(l, n + 1, AwaitingProfile(AccountId(n), ""))
  {
    NothingYet(config);
    var l0 := CodesIssued(config, Ledger(map[], map[]), map[], n);
    AcceptsConfirm(l0, n);
    l := Walk(config, l0, map[], n, AwaitingCode(AccountId(n), CODE), ConfirmEmail(EMAIL, AccountId(n), CODE, ""),
              EmailVerified(EMAIL, AccountId(n), ""), None);
  }

  /** After `n` issuances: verified, profile accepted, and the creation task in row `n + 1`. */
  lemma ProfileAccepted(config: Config, n: nat) returns (l: Ledger)
    requires config.Valid() && 1 <= n
    ensures Reached(config, l, map[]) && Stands(l, n + 2, CreatingAccount(AccountId(n), "", PROFILE))
    ensures IsAcceptance(StreamOf(l, KEY)[n + 1])
    ensures n + 1 in l.outbox && l.outbox[n + 1].task == CreateAccountTask(EMAIL, AccountId(n), PROFILE)
  {
    var l0 := Verified(config, n);
    AcceptsSubmit(l0, n + 1, AccountId(n));
    l := Walk(config, l0, map[], n + 1, AwaitingProfile(AccountId(n), ""), SubmitProfile(EMAIL, AccountId(n), "", PROFILE),
              RegistrationProfileAccepted(EMAIL, AccountId(n), "", PROFILE), Some(CreateAccountTask(EMAIL, AccountId(n), PROFILE)));
  }

  /** What delivering the creation task to an empty account stream does. */
  lemma CreationEffect(l: Ledger, row: TaskId, newId: TaskId, id: AccountId)
    requires row in l.outbox && newId !in l.outbox
    requires l.outbox[row].task == CreateAccountTask(EMAIL, id, PROFILE) && StreamOf(l, AccountKey(id)) == []
    ensures Issue(l.outbox, DeliverCreateAccount(row, 0), newId).Some?
    ensures Appends(l, Issue(l.outbox, DeliverCreateAccount(row, 0), newId).value, AccountFact(Account(id, EMAIL, PROFILE, 0)))
    ensures Execute(l, DeliverCreateAccount(row, 0), newId)
      == Ledger(l.streams[AccountKey(id) := [AccountFact(Account(id, EMAIL, PROFILE, 0))]],
                l.outbox[newId := OutboxRow(AccountKey(id), 1, RecordAccountCreatedTask(EMAIL, id, PROFILE, 0))])
  {
    PlainProfile();
    assert [] + [AccountFact(Account(id, EMAIL, PROFILE, 0))] == [AccountFact(Account(id, EMAIL, PROFILE, 0))];
    PublishOne(l.outbox, AccountKey(id), 1, NewTask(newId, RecordAccountCreatedTask(EMAIL, id, PROFILE, 0)));
  }

  /** A record task waits for the completion of a reservation of `s` events, the last one its acceptance. */
  ghost predicate Waiting(l: Ledger, row: TaskId, s: nat) {
    && row in l.outbox
    && l.outbox[row].task.RecordAccountCreatedTask?
    && l.outbox[row].task.email == EMAIL
    && |StreamOf(l, KEY)| == s > 0
    && IsAcceptance(StreamOf(l, KEY)[s - 1])
  }

  /** The delivery of the creation task, as a serial step that appends `account`. */
  lemma AccountWaits(l: Ledger, n: nat, phase: Phase) returns (serial: SerialStep, call: Call, account: Event)
    requires Stands(l, n + 2, phase) && IsAcceptance(StreamOf(l, KEY)[n + 1])
    requires n + 1 in l.outbox && l.outbox[n + 1].task == CreateAccountTask(EMAIL, AccountId(n), PROFILE)
    ensures Issue(l.outbox, serial.request, serial.newId) == Some(call) && Appends(l, call, account) && !IsCompletion(account)
    ensures Waiting(Execute(l, serial.request, serial.newId), n + 2, n + 2)
  {
    CreationEffect(l, n + 1, n + 2, AccountId(n));
    serial := SerialStep(DeliverCreateAccount(n + 1, 0), n + 2);
    call := Issue(l.outbox, serial.request, serial.newId).value;
    account := AccountFact(Account(AccountId(n), EMAIL, PROFILE, 0));
  }

  lemma AccountStep(config: Config, l0: Ledger, n: nat, phase: Phase) returns (l: Ledger)
    requires config.Valid() && Reached(config, l0, map[]) && Stands(l0, n + 2, phase) && IsAcceptance(StreamOf(l0, KEY)[n + 1])
    requires n + 1 in l0.outbox && l0.outbox[n + 1].task == CreateAccountTask(EMAIL, AccountId(n), PROFILE)
    ensures Reached(config, l, map[]) && Waiting(l, n + 2, n + 2)
  {
    var serial, call, account := AccountWaits(l0, n, phase);
    l := Execute(l0, serial.request, serial.newId);
    Advance(config, l0, map[], serial, account);
  }

  /** A registration whose account exists and whose completion would be event `n + 3`. */
  lemma WaitingLedger(config: Config, n: nat) returns (l: Ledger)
    requires config.Valid() && 1 <= n
    ensures Reached(config, l, map[]) && Waiting(l, n + 2, n + 2)
  {
    var l0 := ProfileAccepted(config, n);
    l := AccountStep(config, l0, n, CreatingAccount(AccountId(n), "", PROFILE));
  }

  lemma AwaitsAfter(db: Db, l: Ledger, row: TaskId, s: nat)
    requires SimDb(db, l) && Waiting(l, row, s)
    ensures AwaitsCompletion(db, row, s)
  {
    assert (KEY, s) in db.events && (KEY, s + 1) !in db.events;
  }

  /** A completion that would take the snapshot never arrives. */
  lemma NeverCompletes(config: Config, steps: seq<Step>, row: TaskId, s: nat)
    requires config.Valid() && AwaitsCompletion(Run(config, steps).db, row, s) && (s + 1) % config.interval == 0
    ensures forall more :: (ReservationKey(Run(config, steps).db.outbox[row].task.email), s + 1)
                           !in Run(config, steps + more).db.events
  {
    CompletableExactlyOffInterval(config, steps, row, s);
  }

  lemma ReachedTables(config: Config, l: Ledger) returns (steps: seq<Step>)
    requires config.Valid() && Reached(config, l, map[])
    ensures SimDb(Run(config, steps).db, l)
  {
    steps :| WalkState(config, Run(config, steps), l, map[]);
  }

  lemma WaitingTables(config: Config, n: nat) returns (steps: seq<Step>, l: Ledger)
    requires config.Valid() && 1 <= n
    ensures SimDb(Run(config, steps).db, l) && Waiting(l, n + 2, n + 2)
  {
    l := WaitingLedger(config, n);
    steps := ReachedTables(config, l);
  }

  /**
   * For every interval there is a run that creates the account but whose reservation is never
   * completed, whatever happens afterwards.
   */
  lemma SomeRegistrationsNeverComplete(config: Config)
    requires config.Valid()
    ensures exists steps, row ::
      && AwaitsCompletion(Run(config, steps).db, row, 4 * config.interval - 1)
      && forall more :: (ReservationKey(Run(config, steps).db.outbox[row].task.email), 4 * config.interval)
                        !in Run(config, steps + more).db.events
  {
    var s := 4 * config.interval - 1;
    var steps, l := WaitingTables(config, s - 2);
    AwaitsAfter(Run(config, steps).db, l, s, s);
    DivisionIsUnique(s + 1, 4, 0, config.interval);
    NeverCompletes(config, steps, s, s);
  }
}
