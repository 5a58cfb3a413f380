/**
 * What each request does, said of the request and of the facts stored so far: which event it adds to
 * which stream, with which task, and exactly when. In every concurrent run each stored event repeats
 * the data of the request of one attempt, and no attempt writes two events.
 */
module Services {
  import opened Text
  import opened Wrappers
  import opened Registration
  import opened Streams
  import opened Saga
  import opened EventStore
  import opened Refinement

  // ---------- One request ----------

  /** An event for the end of one stream, with the task that belongs to it. */
  datatype Addition = Addition(key: Key, event: Event, task: Option<Task>)

  function Stored(l: Ledger, email: Email): Option<ReservationEvent> {
    LastFact(StreamOf(l, ReservationKey(email)))
  }

  /** A pair of account id and code, and the message that sends it. */
  function Issuance(fact: ReservationEvent, accountId: AccountId, code: nat): Addition {
    Addition(ReservationKey(fact.email), ReservationFact(fact), Some(SendVerificationCode(fact.email, accountId, code)))
  }

  function Reserving(l: Ledger, email: Email, accountId: AccountId, code: nat): Option<Addition> {
    if StreamOf(l, ReservationKey(email)) == [] && 1_000_000 <= code <= 9_999_999
    then Some(Issuance(EmailReserved(email, accountId, code), accountId, code))
    else None
  }

  /** A new pair replaces a pair that was not verified yet, or restarts a verification that was. */
  function Reissuing(l: Ledger, email: Email, accountId: AccountId, code: nat): Option<Addition> {
    match Stored(l, email)
    case None => None
    case Some(last) =>
      if last.accountId == accountId || code < 1_000_000 || code > 9_999_999 then None
      else if last.EmailVerified? then Some(Issuance(VerificationRestarted(email, accountId, code), accountId, code))
      else if last.RegistrationProfileAccepted? || last.AccountCreationCompleted? then None
      else Some(Issuance(VerificationCodeRequested(email, accountId, code), accountId, code))
  }

  function Confirming(l: Ledger, email: Email, accountId: AccountId, code: nat, digest: Digest): Option<Addition> {
    match Stored(l, email)
    case None => None
    case Some(last) =>
      if last in {EmailReserved(email, accountId, code), VerificationCodeRequested(email, accountId, code),
                  VerificationRestarted(email, accountId, code)}
      then Some(Addition(ReservationKey(email), ReservationFact(EmailVerified(email, accountId, digest)), None))
      else None
  }

  /** Both names are trimmed, both dates pass through, and the task repeats what the event says. */
  function Submitting(l: Ledger, email: Email, accountId: AccountId, digest: Digest, p: Profile): Option<Addition> {
    var firstName, lastName := Trim(p.firstName), Trim(p.lastName);
    var profile := Profile(firstName, lastName, p.dateOfBirth, p.validationDate);
    if Stored(l, email) == Some(EmailVerified(email, accountId, digest))
       && firstName != "" && lastName != "" && p.dateOfBirth <= p.validationDate
    then Some(Addition(ReservationKey(email), ReservationFact(RegistrationProfileAccepted(email, accountId, digest, profile)),
                       Some(CreateAccountTask(email, accountId, profile))))
    else None
  }

  function Creating(l: Ledger, task: Task, now: Timestamp): Option<Addition> {
    match task
    case CreateAccountTask(email, accountId, profile) =>
      if StreamOf(l, AccountKey(accountId)) == []
      then Some(Addition(AccountKey(accountId), AccountFact(Account(accountId, email, profile, now)),
                         Some(RecordAccountCreatedTask(email, accountId, profile, now))))
      else None
    case _ => None
  }

  function Recording(l: Ledger, task: Task): Option<Addition> {
    match task
    case RecordAccountCreatedTask(email, accountId, _, createdAt) =>
      if Stored(l, email).Some? && Stored(l, email).value.RegistrationProfileAccepted?
      then Some(Addition(ReservationKey(email), ReservationFact(AccountCreationCompleted(email, accountId, createdAt)), None))
      else None
    case _ => None
  }

  /** What the request adds to the streams as they are; nothing when its stream does not admit it. */
  function Requested(l: Ledger, request: Request): Option<Addition> {
    match request
    case Reserve(email, accountId, code) => Reserving(l, email, accountId, code)
    case RequestNewCode(email, accountId, code) => Reissuing(l, email, accountId, code)
    case ConfirmEmail(email, accountId, code, digest) => Confirming(l, email, accountId, code, digest)
    case SubmitProfile(email, accountId, digest, profile) => Submitting(l, email, accountId, digest, profile)
    case DeliverCreateAccount(row, now) => if row in l.outbox then Creating(l, l.outbox[row].task, now) else None
    case DeliverRecordAccountCreated(row) => if row in l.outbox then Recording(l, l.outbox[row].task) else None
  }

  /** Event and task together, or neither when the id of the task is taken. */
  function Added(l: Ledger, addition: Option<Addition>, newId: TaskId): Ledger {
    match addition
    case None => l
    case Some(Addition(key, event, task)) =>
      var events := StreamOf(l, key);
      match task
      case None => Ledger(l.streams[key := events + [event]], l.outbox)
      case Some(task) =>
        if newId in l.outbox then l
        else Ledger(l.streams[key := events + [event]], l.outbox[newId := OutboxRow(key, |events| + 1, task)])
  }

  lemma PublishedWith(l: Ledger, call: Call, event: Event, newId: TaskId, task: Option<Task>)
    requires var key := KeyOf(call.command);
      && Replay(key, StreamOf(l, key)).Some?
      && Handle(Replay(key, StreamOf(l, key)).value, call.command) == Ok(event)
    requires call.tasks == match task { case None => [] case Some(t) => [NewTask(newId, t)] }
    ensures Commit(l, call) == Added(l, Some(Addition(KeyOf(call.command), event, task)), newId)
  {
    var key := KeyOf(call.command);
    if task.Some? {
      PublishOne(l.outbox, key, |StreamOf(l, key)| + 1, NewTask(newId, task.value));
    }
  }

  /** A command of a reservation commits exactly when its last fact admits it. */
  lemma ReservationCommits(l: Ledger, call: Call, newId: TaskId, task: Option<Task>)
    requires StreamsLegal(l) && call.command.ToReservation?
    requires call.tasks == match task { case None => [] case Some(t) => [NewTask(newId, t)] }
    ensures var command := call.command.reservation;
      var last := Stored(l, command.email);
      Commit(l, call) == Added(l, if !MayFollow(last, command) then None
        else Some(Addition(ReservationKey(command.email), ReservationFact(FactAfter(last, command)), task)), newId)
  {
    var command := call.command.reservation;
    var key := ReservationKey(command.email);
    assert Legal(key, StreamOf(l, key));
    AcceptedExactlyAfter(command.email, StreamOf(l, key), command);
    if MayFollow(Stored(l, command.email), command) {
      PublishedWith(l, call, ReservationFact(FactAfter(Stored(l, command.email), command)), newId, task);
    }
  }

  lemma LastOfStream(l: Ledger, email: Email)
    requires StreamsLegal(l)
    ensures Stored(l, email) == None <==> StreamOf(l, ReservationKey(email)) == []
    ensures Stored(l, email).Some? ==> Stored(l, email).value.email == email
  {
    var key := ReservationKey(email);
    assert Legal(key, StreamOf(l, key));
    ReservationTail(email, StreamOf(l, key));
  }

  /** A code that was issued has seven digits. */
  lemma IssuedCodesAreWellFormed(l: Ledger, email: Email)
    requires StreamsLegal(l) && Stored(l, email).Some? && IsIssue(ReservationFact(Stored(l, email).value))
    ensures CodeFormat(Stored(l, email).value.verificationCode)
  {
    var key := ReservationKey(email);
    var events := StreamOf(l, key);
    assert Legal(key, events);
    var before := Replay(key, events[..|events| - 1]).value;
    var command :| KeyOf(command) == key && Handle(before, command) == Ok(events[|events| - 1]);
  }

  lemma ReservationAdds(l: Ledger, email: Email, accountId: AccountId, code: nat, newId: TaskId)
    requires StreamsLegal(l)
    ensures Execute(l, Reserve(email, accountId, code), newId) == Added(l, Reserving(l, email, accountId, code), newId)
  {
    LastOfStream(l, email);
    var task := SendVerificationCode(email, accountId, code);
    ReservationCommits(l, Call(ToReservation(ReserveEmail(email, accountId, code)), [NewTask(newId, task)]), newId, Some(task));
  }

  lemma NewCodeAdds(l: Ledger, email: Email, accountId: AccountId, code: nat, newId: TaskId)
    requires StreamsLegal(l)
    ensures Execute(l, RequestNewCode(email, accountId, code), newId) == Added(l, Reissuing(l, email, accountId, code), newId)
  {
    var task := SendVerificationCode(email, accountId, code);
    ReservationCommits(l, Call(ToReservation(RequestVerificationCode(email, accountId, code)), [NewTask(newId, task)]), newId,
                       Some(task));
  }

  lemma ConfirmationAdds(l: Ledger, email: Email, accountId: AccountId, code: nat, digest: Digest, newId: TaskId)
    requires StreamsLegal(l)
    ensures Execute(l, ConfirmEmail(email, accountId, code, digest), newId)
      == Added(l, Confirming(l, email, accountId, code, digest), newId)
  {
    LastOfStream(l, email);
    if Stored(l, email).Some? && IsIssue(ReservationFact(Stored(l, email).value)) {
      IssuedCodesAreWellFormed(l, email);
    }
    ReservationCommits(l, Call(ToReservation(VerifyEmail(email, accountId, code, digest)), []), newId, None);
  }

  lemma SubmissionAdds(l: Ledger, email: Email, accountId: AccountId, digest: Digest, profile: Profile, newId: TaskId)
    requires StreamsLegal(l)
    ensures var request := SubmitProfile(email, accountId, digest, profile);
      Execute(l, request, newId) == Added(l, Requested(l, request), newId)
  {
    LastOfStream(l, email);
    NewProfileFixpoint(profile);
    ReservationCommits(l, Issue(l.outbox, SubmitProfile(email, accountId, digest, profile), newId).value, newId,
                       Some(CreateAccountTask(email, accountId, NewProfile(profile))));
  }

  lemma CreationAdds(l: Ledger, row: TaskId, now: Timestamp, newId: TaskId)
    requires SagaInvariant(l)
    ensures Execute(l, DeliverCreateAccount(row, now), newId) == Added(l, Requested(l, DeliverCreateAccount(row, now)), newId)
  {
    if row in l.outbox && l.outbox[row].task.CreateAccountTask? {
      var t, call := l.outbox[row].task, Issue(l.outbox, DeliverCreateAccount(row, now), newId).value;
      var events := StreamOf(l, AccountKey(t.accountId));
      assert Legal(AccountKey(t.accountId), events);
      AccountStream(t.accountId, events);
      assert events[..|events|] == events;
      CreateDelivery(l, row, now, |events|, Replay(AccountKey(t.accountId), events).value);
      if events == [] {
        PublishedWith(l, call, AccountFact(Account(t.accountId, t.email, t.profile, now)), newId,
                      Some(RecordAccountCreatedTask(t.email, t.accountId, t.profile, now)));
      }
    }
  }

  /** A stream that holds the acceptance admits its completion exactly when the acceptance is last. */
  lemma CompletionAdmitted(email: Email, events: seq<Event>, accountId: AccountId, profile: Profile, createdAt: Timestamp)
    requires Legal(ReservationKey(email), events) && AcceptedIn(events, accountId, profile)
    ensures MayFollow(LastFact(events), RecordAccountCreated(email, accountId, profile, createdAt))
      <==> events != [] && IsAcceptance(events[|events| - 1])
  {
    if events != [] && IsAcceptance(events[|events| - 1]) {
      var last := events[|events| - 1].fact;
      assert AcceptedIn(events, last.accountId, last.profile);
      AcceptedOnce(email, events, accountId, profile, last.accountId, last.profile);
    }
  }

  /** The row carries a record task whose stream admits a completion exactly when an acceptance is last. */
  predicate RecordReady(l: Ledger, row: TaskId) {
    row in l.outbox && l.outbox[row].task.RecordAccountCreatedTask? ==>
      var t := l.outbox[row].task;
      MayFollow(Stored(l, t.email), RecordAccountCreated(t.email, t.accountId, t.profile, t.createdAt)) <==>
        Stored(l, t.email).Some? && Stored(l, t.email).value.RegistrationProfileAccepted?
  }

  lemma RecordAdmitted(l: Ledger, row: TaskId)
    requires SagaInvariant(l)
    ensures RecordReady(l, row)
  {
    if row in l.outbox && l.outbox[row].task.RecordAccountCreatedTask? {
      var t := l.outbox[row].task;
      RecordTaskGrounded(l, row);
      assert AccountGrounded(l, t.accountId);
      assert Legal(ReservationKey(t.email), StreamOf(l, ReservationKey(t.email)));
      CompletionAdmitted(t.email, StreamOf(l, ReservationKey(t.email)), t.accountId, t.profile, t.createdAt);
    }
  }

  lemma RecordingAdds(l: Ledger, row: TaskId, newId: TaskId)
    requires StreamsLegal(l) && RecordReady(l, row)
    ensures Execute(l, DeliverRecordAccountCreated(row), newId) == Added(l, Requested(l, DeliverRecordAccountCreated(row)), newId)
  {
    if row in l.outbox && l.outbox[row].task.RecordAccountCreatedTask? {
      var t := l.outbox[row].task;
      var command := RecordAccountCreated(t.email, t.accountId, t.profile, t.createdAt);
      ReservationCommits(l, Call(ToReservation(command), []), newId, None);
    }
  }

  /**
   * One request adds exactly the event and task that the request and the stored facts determine, and
   * changes nothing when its stream does not admit it or the id of its task is taken.
   */
  lemma ExecuteAddsExactly(l: Ledger, request: Request, newId: TaskId)
    requires SagaInvariant(l)
    ensures Execute(l, request, newId) == Added(l, Requested(l, request), newId)
  {
    match request
    case DeliverCreateAccount(row, now) => CreationAdds(l, row, now, newId);
    case DeliverRecordAccountCreated(row) =>
      RecordAdmitted(l, row);
      RecordingAdds(l, row, newId);
    case Reserve(email, accountId, code) => ReservationAdds(l, email, accountId, code, newId);
    case RequestNewCode(email, accountId, code) => NewCodeAdds(l, email, accountId, code, newId);
    case ConfirmEmail(email, accountId, code, digest) => ConfirmationAdds(l, email, accountId, code, digest, newId);
    case SubmitProfile(email, accountId, digest, profile) => SubmissionAdds(l, email, accountId, digest, profile, newId);
  }

  /** The requests that are refused before anything is loaded: a code of another format, or no such task to deliver. */
  lemma RefusedBeforeLoading(outbox: Outbox, request: Request, newId: TaskId)
    ensures Issue(outbox, request, newId) == None <==>
      match request
      case ConfirmEmail(_, _, code, _) => code < 1_000_000 || code > 9_999_999
      case DeliverCreateAccount(row, _) => row in outbox ==> !outbox[row].task.CreateAccountTask?
      case DeliverRecordAccountCreated(row) => row in outbox ==> !outbox[row].task.RecordAccountCreatedTask?
      case _ => false
  {
  }

  // ---------- All runs ----------

  /** The event repeats the data of the request, or of the task the request delivered. */
  predicate Repeats(outbox: Outbox, request: Request, key: Key, event: Event) {
    match event
    case AccountFact(a) =>
      && key == AccountKey(a.accountId)
      && request.DeliverCreateAccount?
      && request.now == a.createdAt
      && request.row in outbox
      && outbox[request.row].task == CreateAccountTask(a.email, a.accountId, a.profile)
    case ReservationFact(fact) =>
      && key == ReservationKey(fact.email)
      && match fact
         case EmailReserved(email, accountId, code) => request == Reserve(email, accountId, code)
         case VerificationCodeRequested(email, accountId, code) => request == RequestNewCode(email, accountId, code)
         case VerificationRestarted(email, accountId, code) => request == RequestNewCode(email, accountId, code)
         case EmailVerified(email, accountId, digest) =>
           request.ConfirmEmail? && request == ConfirmEmail(email, accountId, request.code, digest)
         case RegistrationProfileAccepted(email, accountId, digest, profile) =>
           && request.SubmitProfile?
           && request == SubmitProfile(email, accountId, digest, request.profile)
           && profile.firstName == Trim(request.profile.firstName)
           && profile.lastName == Trim(request.profile.lastName)
           && profile.dateOfBirth == request.profile.dateOfBirth
           && profile.validationDate == request.profile.validationDate
         case AccountCreationCompleted(email, accountId, createdAt) =>
           && request.DeliverRecordAccountCreated?
           && request.row in outbox
           && var task := outbox[request.row].task;
              task.RecordAccountCreatedTask? && task == RecordAccountCreatedTask(email, accountId, task.profile, createdAt)
  }

  /** The attempt is finished and the stored event repeats its request. */
  ghost predicate Wrote(w: World, id: nat, at: (Key, nat)) {
    && id in w.attempts
    && at in w.db.events
    && w.attempts[id].stage in {Finished(Accepted), Finished(Unavailable)}
    && Repeats(w.db.outbox, w.attempts[id].request, at.0, w.db.events[at])
  }

  ghost predicate OneEventEach(writers: map<(Key, nat), nat>) {
    forall at, at' :: at in writers && at' in writers && writers[at] == writers[at'] ==> at == at'
  }

  /**
   * `writers` names for every stored event the attempt that wrote it: a finished one whose request the
   * event repeats, a different one for every event, and every attempt reported as accepted among them.
   */
  ghost predicate Attributed(w: World, writers: map<(Key, nat), nat>) {
    && writers.Keys == w.db.events.Keys
    && (forall at :: at in writers ==> Wrote(w, writers[at], at))
    && OneEventEach(writers)
    && (forall id :: id in w.attempts && w.attempts[id].stage == Finished(Accepted) ==> id in writers.Values)
  }

  lemma AdditionRepeats(l: Ledger, request: Request)
    requires Requested(l, request).Some?
    ensures Repeats(l.outbox, request, Requested(l, request).value.key, Requested(l, request).value.event)
  {
  }

  lemma SameAddition(l: Ledger, addition: Option<Addition>, newId: TaskId, key: Key, event: Event)
    requires StreamOf(Added(l, addition, newId), key) == StreamOf(l, key) + [event]
    ensures addition.Some? && addition.value.key == key && addition.value.event == event
  {
    if addition.Some? {
      assert StreamOf(Added(l, addition, newId), key)[|StreamOf(l, key)|] == event;
    }
  }

  /** A successful write stores an event that repeats the attempt's request. */
  lemma WinnerRepeats(config: Config, db: Db, l: Ledger, a: Attempt)
    requires config.Valid() && SagaInvariant(l) && SimDb(db, l) && AttemptOk(config, l, a)
    requires a.stage.Prepared? && PersistAttempt(db, a).Ok?
    ensures Repeats(db.outbox, a.request, KeyOf(a.call.command), a.stage.event)
  {
    WinnerCommits(config, db, l, a);
    ExecuteAddsExactly(l, a.request, a.newId);
    SameAddition(l, Requested(l, a.request), a.newId, KeyOf(a.call.command), a.stage.event);
    AdditionRepeats(l, a.request);
  }

  lemma EventRepeats(config: Config, steps: seq<Step>, id: nat)
    requires config.Valid() && id in Run(config, steps).attempts && Run(config, steps).attempts[id].stage.Prepared?
    requires PersistAttempt(Run(config, steps).db, Run(config, steps).attempts[id]).Ok?
    ensures var w, a := Run(config, steps), Run(config, steps).attempts[id];
      Repeats(w.db.outbox, a.request, KeyOf(a.call.command), a.stage.event)
  {
    RefinesSerialExecution(config, steps);
    WinnerRepeats(config, Run(config, steps).db, LedgerOf(config, steps), Run(config, steps).attempts[id]);
  }

  lemma RepeatsStable(outbox: Outbox, outbox': Outbox, request: Request, key: Key, event: Event)
    requires Repeats(outbox, request, key, event)
    requires forall id :: id in outbox ==> id in outbox' && outbox'[id] == outbox[id]
    ensures Repeats(outbox', request, key, event)
  {
  }

  /** Finished attempts and stored events stay. */
  ghost predicate Keeps(w: World, w': World) {
    && (forall id :: id in w.attempts && w.attempts[id].stage.Finished? ==> id in w'.attempts && w'.attempts[id] == w.attempts[id])
    && (forall at :: at in w.db.events ==> at in w'.db.events && w'.db.events[at] == w.db.events[at])
    && (forall row :: row in w.db.outbox ==> row in w'.db.outbox && w'.db.outbox[row] == w.db.outbox[row])
  }

  lemma WroteStable(w: World, w': World, id: nat, at: (Key, nat))
    requires Wrote(w, id, at) && Keeps(w, w')
    ensures Wrote(w', id, at)
  {
    RepeatsStable(w.db.outbox, w'.db.outbox, w.attempts[id].request, at.0, w.db.events[at]);
  }

  /** A step that writes nothing finishes no attempt as accepted and leaves finished ones alone. */
  lemma QuietFrame(config: Config, w: World, step: Step)
    requires config.Valid() && Linearized(w, step) == None
    ensures var w' := Next(config, w, step);
      && w'.db == w.db
      && Keeps(w, w')
      && forall id :: id in w'.attempts && w'.attempts[id].stage == Finished(Accepted) ==>
           id in w.attempts && w.attempts[id].stage == Finished(Accepted)
  {
  }

  lemma QuietStep(config: Config, w: World, step: Step, writers: map<(Key, nat), nat>)
    requires config.Valid() && Attributed(w, writers) && Linearized(w, step) == None
    ensures Attributed(Next(config, w, step), writers)
  {
    QuietFrame(config, w, step);
    forall at | at in writers
      ensures Wrote(Next(config, w, step), writers[at], at)
    {
      WroteStable(w, Next(config, w, step), writers[at], at);
    }
  }

  /** The attempt whose write succeeds had written nothing before. */
  lemma WinnerIsNew(w: World, id: nat, writers: map<(Key, nat), nat>)
    requires Attributed(w, writers) && id in w.attempts && w.attempts[id].stage.Prepared?
    ensures id !in writers.Values
  {
  }

  /** One event more, written by an attempt that was not finished. */
  ghost predicate WrittenBy(w: World, w': World, id: nat, at: (Key, nat)) {
    && Keeps(w, w')
    && w'.db.events.Keys == w.db.events.Keys + {at}
    && at !in w.db.events
    && Wrote(w', id, at)
    && (forall other :: other in w'.attempts && other != id ==> other in w.attempts && w'.attempts[other] == w.attempts[other])
  }

  lemma WriteReported(w: World, w': World, id: nat, at: (Key, nat), writers: map<(Key, nat), nat>, other: nat)
    requires Attributed(w, writers) && WrittenBy(w, w', id, at)
    requires other in w'.attempts && w'.attempts[other].stage == Finished(Accepted)
    ensures other in writers[at := id].Values
  {
    var writers' := writers[at := id];
    if other == id {
      assert writers'[at] == id;
    } else {
      var from :| from in writers && writers[from] == other;
      assert writers'[from] == other;
    }
  }

  lemma WriteKept(w: World, w': World, id: nat, at: (Key, nat), writers: map<(Key, nat), nat>)
    requires Attributed(w, writers) && WrittenBy(w, w', id, at)
    ensures var writers' := writers[at := id];
      writers'.Keys == w'.db.events.Keys && forall other :: other in writers' ==> Wrote(w', writers'[other], other)
  {
    forall other | other in writers
      ensures Wrote(w', writers[other], other)
    {
      WroteStable(w, w', writers[other], other);
    }
  }

  lemma OneEventMore(writers: map<(Key, nat), nat>, id: nat, at: (Key, nat))
    requires id !in writers.Values && OneEventEach(writers)
    ensures OneEventEach(writers[at := id])
  {
  }

  lemma WriteAttributed(w: World, w': World, id: nat, at: (Key, nat), writers: map<(Key, nat), nat>)
    requires Attributed(w, writers) && id !in writers.Values && WrittenBy(w, w', id, at)
    ensures Attributed(w', writers[at := id])
  {
    WriteKept(w, w', id, at, writers);
    OneEventMore(writers, id, at);
    forall other | other in w'.attempts && w'.attempts[other].stage == Finished(Accepted)
      ensures other in writers[at := id].Values
    {
      WriteReported(w, w', id, at, writers, other);
    }
  }

  lemma WinnerWrites(config: Config, w: World, id: nat, replied: bool)
    requires config.Valid() && id in w.attempts && w.attempts[id].stage.Prepared? && PersistAttempt(w.db, w.attempts[id]).Ok?
    requires var a := w.attempts[id]; Repeats(w.db.outbox, a.request, KeyOf(a.call.command), a.stage.event)
    ensures var a := w.attempts[id];
      WrittenBy(w, Next(config, w, Persist(id, replied)), id, (KeyOf(a.call.command), a.stage.sequence))
  {
    var a, w' := w.attempts[id], Next(config, w, Persist(id, replied));
    var key := KeyOf(a.call.command);
    PersistOutcome(config, w, id, replied);
    PublishGrows(w.db.outbox, key, a.stage.sequence, a.call.tasks);
    RepeatsStable(w.db.outbox, w'.db.outbox, a.request, key, a.stage.event);
  }

  /**
   * In every concurrent run each stored event repeats the request of one attempt and no attempt wrote
   * two. In particular an accepted profile is the submitted one with its names trimmed, and an account
   * was created for a delivered task at the time of that delivery.
   */
  lemma {:induction false} EveryEventWasRequested(config: Config, steps: seq<Step>) returns (writers: map<(Key, nat), nat>)
    requires config.Valid()
    ensures Attributed(Run(config, steps), writers)
  {
    writers := map[];
    if steps != [] {
      var before, last := steps[..|steps| - 1], steps[|steps| - 1];
      writers := EveryEventWasRequested(config, before);
      if Linearized(Run(config, before), last).Some? {
        var w, id := Run(config, before), last.attempt;
        EventRepeats(config, before, id);
        WinnerIsNew(w, id, writers);
        WinnerWrites(config, w, id, last.replied);
        WriteAttributed(w, Run(config, steps), id, (KeyOf(w.attempts[id].call.command), w.attempts[id].stage.sequence), writers);
        writers := writers[(KeyOf(w.attempts[id].call.command), w.attempts[id].stage.sequence) := id];
      } else {
        QuietStep(config, Run(config, before), last, writers);
      }
    }
  }

  /** What an accepted profile that is stored says about the request it came from. */
  lemma AcceptedProfileWasSubmitted(config: Config, steps: seq<Step>, email: Email, s: nat) returns (id: nat)
    requires config.Valid() && (ReservationKey(email), s) in Run(config, steps).db.events
    requires IsAcceptance(Run(config, steps).db.events[(ReservationKey(email), s)])
    ensures var w := Run(config, steps);
      var fact := w.db.events[(ReservationKey(email), s)].fact;
      && id in w.attempts
      && w.attempts[id].request.SubmitProfile?
      && var p := w.attempts[id].request.profile;
         && w.attempts[id].request == SubmitProfile(email, fact.accountId, fact.consumedDigest, p)
         && fact.profile == Profile(Trim(p.firstName), Trim(p.lastName), p.dateOfBirth, p.validationDate)
  {
    var writers := EveryEventWasRequested(config, steps);
    id := writers[(ReservationKey(email), s)];
  }
}
