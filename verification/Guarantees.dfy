/** What every run of the registration service keeps, said of its tables and its finished attempts. */
module Guarantees {
  import opened Wrappers
  import opened Registration
  import opened Streams
  import opened Saga
  import opened EventStore
  import opened Refinement

  // ---------- Event streams ----------

  /**
   * In every run each stream is gap-free and legal: sequence numbers run from one without holes and
   * every event is one that `handle` accepts on the replay of exactly the events before it.
   */
  lemma StreamsAreSerial(config: Config, steps: seq<Step>, key: Key)
    requires config.Valid()
    ensures exists stream ::
      && Legal(key, stream)
      && (forall s :: (key, s) in Run(config, steps).db.events <==> 1 <= s <= |stream|)
      && (forall s :: (key, s) in Run(config, steps).db.events ==> Run(config, steps).db.events[(key, s)] == stream[s - 1])
  {
    RefinesSerialExecution(config, steps);
    var stream := StreamOf(LedgerOf(config, steps), key);
    assert Legal(key, stream);
  }

  /** Rows written with one event. */
  ghost function RowsAt(outbox: Outbox, key: Key, sequence: nat): set<TaskId> {
    set id | id in outbox && outbox[id].key == key && outbox[id].sequence == sequence
  }

  /**
   * Tasks are in the outbox if and only if their event is in the stream: an event with a follow-up
   * has exactly one row, carrying that follow-up; any other event, and any absent one, has none.
   */
  lemma TasksExactlyWithEvents(config: Config, steps: seq<Step>, key: Key, sequence: nat)
    requires config.Valid()
    ensures var db := Run(config, steps).db;
      var rows := RowsAt(db.outbox, key, sequence);
      if (key, sequence) in db.events && FollowUp(db.events[(key, sequence)]).Some?
      then exists id :: rows == {id} && db.outbox[id].task == FollowUp(db.events[(key, sequence)]).value
      else rows == {}
  {
    RefinesSerialExecution(config, steps);
    RowsOfEvent(Run(config, steps).db, LedgerOf(config, steps), key, sequence);
  }

  lemma RowsOfEvent(db: Db, l: Ledger, key: Key, sequence: nat)
    requires SimDb(db, l) && OutboxMatchesEvents(l)
    ensures var rows := RowsAt(db.outbox, key, sequence);
      if (key, sequence) in db.events && FollowUp(db.events[(key, sequence)]).Some?
      then exists id :: rows == {id} && db.outbox[id].task == FollowUp(db.events[(key, sequence)]).value
      else rows == {}
  {
    var rows := RowsAt(db.outbox, key, sequence);
    forall id | id in rows
      ensures (key, sequence) in db.events && FollowUp(db.events[(key, sequence)]) == Some(db.outbox[id].task)
    {
      assert RowGrounded(l, l.outbox[id]);
    }
    if (key, sequence) in db.events && FollowUp(db.events[(key, sequence)]).Some? {
      assert StreamOf(l, key)[sequence - 1] == db.events[(key, sequence)];
      assert RowAt(l.outbox, key, sequence);
      var id :| id in l.outbox && l.outbox[id].key == key && l.outbox[id].sequence == sequence;
      assert rows == {id};
    }
  }

  /** Every issued pair is sent by exactly one task, which carries the same address, account id and code. */
  lemma IssuedPairIsSentOnce(config: Config, steps: seq<Step>, email: Email, s: nat)
    requires config.Valid() && (ReservationKey(email), s) in Run(config, steps).db.events
    requires IsIssue(Run(config, steps).db.events[(ReservationKey(email), s)])
    ensures var db, fact := Run(config, steps).db, Run(config, steps).db.events[(ReservationKey(email), s)].fact;
      exists id ::
        && RowsAt(db.outbox, ReservationKey(email), s) == {id}
        && db.outbox[id].task == SendVerificationCode(fact.email, fact.accountId, fact.verificationCode)
  {
    TasksExactlyWithEvents(config, steps, ReservationKey(email), s);
  }

  /** Every attempt runs at most its budget of tries. */
  lemma TriesAreBounded(config: Config, steps: seq<Step>, id: nat)
    requires config.Valid() && id in Run(config, steps).attempts
    ensures 1 <= Run(config, steps).attempts[id].tries <= config.maxAttempts
  {
    RefinesSerialExecution(config, steps);
    assert AttemptOk(config, LedgerOf(config, steps), Run(config, steps).attempts[id]);
  }

  // ---------- Registration ----------

  /**
   * The completion at `s` follows the acceptance of the same account id, and that account's own
   * stream holds exactly the accepted profile, the email and the completion's creation time.
   */
  predicate BothSidesAgree(events: map<(Key, nat), Event>, email: Email, s: nat)
    requires (ReservationKey(email), s) in events && IsCompletion(events[(ReservationKey(email), s)])
  {
    var completion := events[(ReservationKey(email), s)].fact;
    && s >= 2
    && (ReservationKey(email), s - 1) in events
    && IsAcceptance(events[(ReservationKey(email), s - 1)])
    && var acceptance := events[(ReservationKey(email), s - 1)].fact;
    && acceptance.accountId == completion.accountId
    && (AccountKey(completion.accountId), 1) in events
    && events[(AccountKey(completion.accountId), 1)]
       == AccountFact(Account(completion.accountId, email, acceptance.profile, completion.createdAt))
  }

  /** In every run a completed registration agrees on both sides. */
  lemma CompletedRegistrationAgrees(config: Config, steps: seq<Step>, email: Email, s: nat)
    requires config.Valid()
    requires (ReservationKey(email), s) in Run(config, steps).db.events
    requires IsCompletion(Run(config, steps).db.events[(ReservationKey(email), s)])
    ensures BothSidesAgree(Run(config, steps).db.events, email, s)
  {
    RefinesSerialExecution(config, steps);
    var l := LedgerOf(config, steps);
    assert Legal(ReservationKey(email), StreamOf(l, ReservationKey(email))) && CompletionGrounded(l, email);
    CompletionAgrees(Run(config, steps).db.events, l, email, s);
  }

  lemma CompletionAgrees(events: map<(Key, nat), Event>, l: Ledger, email: Email, s: nat)
    requires TableIsStream(events, l)
    requires Legal(ReservationKey(email), StreamOf(l, ReservationKey(email))) && CompletionGrounded(l, email)
    requires (ReservationKey(email), s) in events && IsCompletion(events[(ReservationKey(email), s)])
    ensures BothSidesAgree(events, email, s)
  {
    StoredFrom(events, l, ReservationKey(email), s);
    CompletionNamesAccount(l, email, s - 1);
    StoredAt(events, l, ReservationKey(email), s - 2);
    StoredAt(events, l, AccountKey(events[(ReservationKey(email), s)].fact.accountId), 0);
  }

  lemma StoredFrom(events: map<(Key, nat), Event>, l: Ledger, key: Key, s: nat)
    requires TableIsStream(events, l) && (key, s) in events
    ensures 1 <= s <= |StreamOf(l, key)| && StreamOf(l, key)[s - 1] == events[(key, s)]
  {
  }

  lemma StoredAt(events: map<(Key, nat), Event>, l: Ledger, key: Key, i: nat)
    requires TableIsStream(events, l) && i < |StreamOf(l, key)|
    ensures (key, i + 1) in events && events[(key, i + 1)] == StreamOf(l, key)[i]
  {
  }

  /** In every run no two accounts hold the same email. */
  lemma EmailsAreUnique(config: Config, steps: seq<Step>, a: Account, b: Account, s: nat, s': nat)
    requires config.Valid()
    requires (AccountKey(a.accountId), s) in Run(config, steps).db.events
    requires Run(config, steps).db.events[(AccountKey(a.accountId), s)] == AccountFact(a)
    requires (AccountKey(b.accountId), s') in Run(config, steps).db.events
    requires Run(config, steps).db.events[(AccountKey(b.accountId), s')] == AccountFact(b)
    requires a.email == b.email
    ensures a == b
  {
    RefinesSerialExecution(config, steps);
    var l := LedgerOf(config, steps);
    AccountInTable(Run(config, steps).db, l, a, s);
    AccountInTable(Run(config, steps).db, l, b, s');
    OneAccountPerEmail(l, a.accountId, b.accountId);
  }

  lemma AccountInTable(db: Db, l: Ledger, a: Account, s: nat)
    requires SimDb(db, l) && StreamsLegal(l)
    requires (AccountKey(a.accountId), s) in db.events && db.events[(AccountKey(a.accountId), s)] == AccountFact(a)
    ensures s == 1 && AccountOf(l, a.accountId) == Some(a)
  {
    assert Legal(AccountKey(a.accountId), StreamOf(l, AccountKey(a.accountId)));
    AccountStream(a.accountId, StreamOf(l, AccountKey(a.accountId)));
  }

  // ---------- Continuations ----------

  datatype Continuation = Done | Retry | Permanent

  /** Outcome classification of `create_account`; a panic never returns. */
  function CreateAccountResult(outcome: Outcome): Option<Continuation> {
    match outcome
    case Accepted => Some(Done)
    case Rejected(rejection) => Some(if rejection == AccountRejected(AlreadyCreated) then Done else Permanent)
    case Conflict => Some(Retry)
    case Unavailable => Some(Retry)
    case Panicked => None
  }

  /** Outcome classification of `record_account_created`. */
  function RecordAccountCreatedResult(outcome: Outcome): Option<Continuation> {
    match outcome
    case Accepted => Some(Done)
    case Rejected(rejection) =>
      Some(if rejection == ReservationRejected(AccountCreationAlreadyCompleted) then Done else Permanent)
    case Conflict => Some(Retry)
    case Unavailable => Some(Retry)
    case Panicked => None
  }

  /** The completion the record task asks for is stored. */
  ghost predicate Recorded(db: Db, row: TaskId)
    requires row in db.outbox && db.outbox[row].task.RecordAccountCreatedTask?
  {
    var t := db.outbox[row].task;
    exists s ::
      && (ReservationKey(t.email), s) in db.events
      && db.events[(ReservationKey(t.email), s)] == ReservationFact(AccountCreationCompleted(t.email, t.accountId, t.createdAt))
  }

  /** A record delivery that reached a decision is done, and its completion is stored; without one it is retried or panicked. */
  ghost predicate RecordReported(db: Db, a: Attempt)
    requires a.request.DeliverRecordAccountCreated? && a.stage.Finished?
  {
    var result := RecordAccountCreatedResult(a.stage.outcome);
    && a.request.row in db.outbox
    && db.outbox[a.request.row].task.RecordAccountCreatedTask?
    && match a.stage.outcome
       case Accepted => result == Some(Done) && Recorded(db, a.request.row)
       case Rejected(_) => result == Some(Done) && Recorded(db, a.request.row)
       case Conflict => result == Some(Retry)
       case Unavailable => result == Some(Retry)
       case Panicked => result == None
  }

  lemma StoredInStream(events: map<(Key, nat), Event>, l: Ledger, key: Key, event: Event)
    requires TableIsStream(events, l) && event in StreamOf(l, key)
    ensures exists s :: (key, s) in events && events[(key, s)] == event
  {
    var i :| 0 <= i < |StreamOf(l, key)| && StreamOf(l, key)[i] == event;
    assert (key, i + 1) in events;
  }

  lemma RecordOutcome(config: Config, db: Db, l: Ledger, a: Attempt)
    requires config.Valid() && SimDb(db, l) && AttemptOk(config, l, a)
    requires a.request.DeliverRecordAccountCreated? && a.stage.Finished?
    ensures RecordReported(db, a)
  {
    if a.stage.outcome.Accepted? || a.stage.outcome.Rejected? {
      var t := l.outbox[a.request.row].task;
      var completion := ReservationFact(AccountCreationCompleted(t.email, t.accountId, t.createdAt));
      StoredInStream(db.events, l, ReservationKey(t.email), completion);
    }
  }

  /**
   * Delivering a committed `RecordAccountCreatedTask`, any number of times, never fails for good, and is
   * reported as done only with its completion stored.
   */
  lemma RecordNeverFailsForGood(config: Config, steps: seq<Step>, id: nat)
    requires config.Valid() && id in Run(config, steps).attempts
    requires Run(config, steps).attempts[id].request.DeliverRecordAccountCreated?
    requires Run(config, steps).attempts[id].stage.Finished?
    ensures RecordReported(Run(config, steps).db, Run(config, steps).attempts[id])
    ensures RecordAccountCreatedResult(Run(config, steps).attempts[id].stage.outcome) != Some(Permanent)
  {
    RefinesSerialExecution(config, steps);
    RecordOutcome(config, Run(config, steps).db, LedgerOf(config, steps), Run(config, steps).attempts[id]);
  }

  /** Another email owns the account id that this creation task was issued for. */
  ghost predicate ForeignId(db: Db, row: TaskId)
    requires row in db.outbox && db.outbox[row].task.CreateAccountTask?
  {
    var t := db.outbox[row].task;
    && (AccountKey(t.accountId), 1) in db.events
    && db.events[(AccountKey(t.accountId), 1)].AccountFact?
    && db.events[(AccountKey(t.accountId), 1)].account.email != t.email
  }

  /** The account the creation task describes is stored. */
  ghost predicate Created(db: Db, row: TaskId)
    requires row in db.outbox && db.outbox[row].task.CreateAccountTask?
  {
    var t := db.outbox[row].task;
    exists createdAt ::
      && (AccountKey(t.accountId), 1) in db.events
      && db.events[(AccountKey(t.accountId), 1)] == AccountFact(Account(t.accountId, t.email, t.profile, createdAt))
  }

  /**
   * A delivered creation task that reached a decision is reported as failed for good if and only if
   * another email owns the account id, and otherwise as done with its account stored. Without a decision
   * it is retried, and it never panics.
   */
  lemma CreateFailsExactlyOnForeignId(config: Config, steps: seq<Step>, id: nat)
    requires config.Valid() && id in Run(config, steps).attempts
    requires Run(config, steps).attempts[id].request.DeliverCreateAccount?
    requires Run(config, steps).attempts[id].stage.Finished?
    ensures CreateReported(Run(config, steps).db, Run(config, steps).attempts[id])
  {
    RefinesSerialExecution(config, steps);
    CreateDone(config, Run(config, steps).db, LedgerOf(config, steps), Run(config, steps).attempts[id]);
  }

  ghost predicate CreateReported(db: Db, a: Attempt)
    requires a.request.DeliverCreateAccount? && a.stage.Finished?
  {
    var result := CreateAccountResult(a.stage.outcome);
    && a.request.row in db.outbox
    && db.outbox[a.request.row].task.CreateAccountTask?
    && if a.stage.outcome.Accepted? || a.stage.outcome.Rejected?
       then && result == Some(if ForeignId(db, a.request.row) then Permanent else Done)
            && (result == Some(Done) ==> Created(db, a.request.row))
       else result == Some(Retry)
  }

  lemma CreateOutcome(config: Config, db: Db, l: Ledger, a: Attempt)
    requires config.Valid() && SimDb(db, l) && AttemptOk(config, l, a)
    requires a.request.DeliverCreateAccount? && a.stage.Finished?
    ensures a.request.row in db.outbox && db.outbox[a.request.row].task.CreateAccountTask?
    ensures if a.stage.outcome.Accepted? || a.stage.outcome.Rejected?
            then CreateAccountResult(a.stage.outcome) == Some(if ForeignId(db, a.request.row) then Permanent else Done)
            else CreateAccountResult(a.stage.outcome) == Some(Retry)
    ensures a.stage.outcome.Accepted? || a.stage.outcome.Rejected? ==>
      var events := StreamOf(l, AccountKey(db.outbox[a.request.row].task.accountId));
      events != [] && events[0].AccountFact?
  {
  }

  /** An account of the task's own email is the one the task describes. */
  lemma OwnAccount(db: Db, l: Ledger, row: TaskId)
    requires SimDb(db, l) && SagaInvariant(l) && row in l.outbox && l.outbox[row].task.CreateAccountTask?
    requires var events := StreamOf(l, AccountKey(l.outbox[row].task.accountId));
      events != [] && events[0].AccountFact? && events[0].account.email == l.outbox[row].task.email
    ensures Created(db, row)
  {
    var t := l.outbox[row].task;
    var events := StreamOf(l, AccountKey(t.accountId));
    CreateTaskGrounded(l, row);
    assert AccountGrounded(l, t.accountId);
    SameAcceptance(l, t);
    assert Legal(AccountKey(t.accountId), events);
    AccountStream(t.accountId, events);
    assert (AccountKey(t.accountId), 1) in db.events;
  }

  lemma CreateDone(config: Config, db: Db, l: Ledger, a: Attempt)
    requires config.Valid() && SimDb(db, l) && SagaInvariant(l) && AttemptOk(config, l, a)
    requires a.request.DeliverCreateAccount? && a.stage.Finished?
    ensures CreateReported(db, a)
  {
    CreateOutcome(config, db, l, a);
    if CreateAccountResult(a.stage.outcome) == Some(Done) {
      var key := AccountKey(l.outbox[a.request.row].task.accountId);
      assert (key, 1) in db.events && db.events[(key, 1)] == StreamOf(l, key)[0];
      OwnAccount(db, l, a.request.row);
    }
  }

  // ---------- Snapshots ----------

  /** Loading any snapshot row and the events after it gives the replay of the whole stream. */
  lemma SnapshotAgreesWithReplay(config: Config, steps: seq<Step>, key: Key, last: nat, rows: seq<(nat, Event)>)
    requires config.Valid() && (key, last) in Run(config, steps).db.snapshots
    requires IsTail(Run(config, steps).db.events, key, last, rows)
    ensures exists stream ::
      && (forall s :: (key, s) in Run(config, steps).db.events <==> 1 <= s <= |stream|)
      && (forall s :: (key, s) in Run(config, steps).db.events ==> Run(config, steps).db.events[(key, s)] == stream[s - 1])
      && last <= |stream|
      && Replay(key, stream).Some?
      && Replay(key, stream[..last]) == Some(Run(config, steps).db.snapshots[(key, last)].state)
      && ReplayFrom(Some(Run(config, steps).db.snapshots[(key, last)].state), EventsOf(rows)) == Replay(key, stream)
  {
    RefinesSerialExecution(config, steps);
    SnapshotContinues(Run(config, steps).db, LedgerOf(config, steps), key, last, rows);
  }

  lemma SnapshotContinues(db: Db, l: Ledger, key: Key, last: nat, rows: seq<(nat, Event)>)
    requires SimDb(db, l) && StreamsLegal(l) && (key, last) in db.snapshots && IsTail(db.events, key, last, rows)
    ensures last <= |StreamOf(l, key)|
    ensures Replay(key, StreamOf(l, key)).Some?
    ensures Replay(key, StreamOf(l, key)[..last]) == Some(db.snapshots[(key, last)].state)
    ensures ReplayFrom(Some(db.snapshots[(key, last)].state), EventsOf(rows)) == Replay(key, StreamOf(l, key))
  {
    assert AtPrefix(l, key, last, db.snapshots[(key, last)].state);
    TailIsRest(db.events, l, key, last, rows);
    assert Legal(key, StreamOf(l, key));
    ReplaySplit(key, StreamOf(l, key), last);
  }
}
