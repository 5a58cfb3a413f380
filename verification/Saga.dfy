/**
 * The registration saga as a serial machine: one request at a time loads its stream, decides, and
 * commits its event with its follow-up task. Committed tasks are delivered any number of times, in
 * any order. The optimistic store is shown to refine this machine in module Refinement.
 */
module Saga {
  import opened Wrappers
  import opened Registration
  import opened Streams

  type TaskId = nat

  datatype Task =
    | SendVerificationCode(email: Email, accountId: AccountId, verificationCode: nat)
    | CreateAccountTask(email: Email, accountId: AccountId, profile: Profile)
    | RecordAccountCreatedTask(email: Email, accountId: AccountId, profile: Profile, createdAt: Timestamp)

  datatype NewTask = NewTask(id: TaskId, task: Task)

  datatype OutboxRow = OutboxRow(key: Key, sequence: nat, task: Task)

  type Outbox = map<TaskId, OutboxRow>

  datatype Ledger = Ledger(streams: map<Key, seq<Event>>, outbox: Outbox)

  function StreamOf(ledger: Ledger, key: Key): seq<Event> {
    if key in ledger.streams then ledger.streams[key] else []
  }

  // ---------- Application services ----------

  /**
   * What reaches the application: HTTP requests with the generated ids, codes and digests as
   * parameters, and deliveries of outbox rows with the clock reading of the delivery.
   */
  datatype Request =
    | Reserve(email: Email, accountId: AccountId, code: nat)
    | RequestNewCode(email: Email, accountId: AccountId, code: nat)
    | ConfirmEmail(email: Email, accountId: AccountId, code: nat, tokenDigest: Digest)
    | SubmitProfile(email: Email, accountId: AccountId, tokenDigest: Digest, profile: Profile)
    | DeliverCreateAccount(row: TaskId, now: Timestamp)
    | DeliverRecordAccountCreated(row: TaskId)

  datatype Call = Call(command: Command, tasks: seq<NewTask>)

  /** The command and task list a service hands to its gateway; `newId` is the fresh UUID of its task. */
  function Issue(outbox: Outbox, request: Request, newId: TaskId): Option<Call> {
    match request
    case Reserve(email, accountId, code) =>
      Some(Call(ToReservation(ReserveEmail(email, accountId, code)),
                [NewTask(newId, SendVerificationCode(email, accountId, code))]))
    case RequestNewCode(email, accountId, code) =>
      Some(Call(ToReservation(RequestVerificationCode(email, accountId, code)),
                [NewTask(newId, SendVerificationCode(email, accountId, code))]))
    case ConfirmEmail(email, accountId, code, digest) =>
      if CodeFormat(code) then Some(Call(ToReservation(VerifyEmail(email, accountId, code, digest)), [])) else None
    case SubmitProfile(email, accountId, digest, submitted) =>
      var profile := NewProfile(submitted);
      Some(Call(ToReservation(SubmitRegistrationProfile(email, accountId, digest, profile)),
                [NewTask(newId, CreateAccountTask(email, accountId, profile))]))
    case DeliverCreateAccount(row, now) =>
      if row in outbox && outbox[row].task.CreateAccountTask? then
        var t := outbox[row].task;
        Some(Call(ToAccount(CreateAccount(t.accountId, t.email, t.profile, now)),
                  [NewTask(newId, RecordAccountCreatedTask(t.email, t.accountId, t.profile, now))]))
      else None
    case DeliverRecordAccountCreated(row) =>
      if row in outbox && outbox[row].task.RecordAccountCreatedTask? then
        var t := outbox[row].task;
        Some(Call(ToReservation(RecordAccountCreated(t.email, t.accountId, t.profile, t.createdAt)), []))
      else None
  }

  /** Rows of one commit; a task id that is already present aborts the whole write. */
  function Publish(outbox: Outbox, key: Key, sequence: nat, tasks: seq<NewTask>): Option<Outbox>
    decreases tasks
  {
    if tasks == [] then Some(outbox)
    else if tasks[0].id in outbox then None
    else Publish(outbox[tasks[0].id := OutboxRow(key, sequence, tasks[0].task)], key, sequence, tasks[1..])
  }

  /** One request, executed alone. */
  function Execute(ledger: Ledger, request: Request, newId: TaskId): Ledger {
    match Issue(ledger.outbox, request, newId)
    case None => ledger
    case Some(call) => Commit(ledger, call)
  }

  function Commit(ledger: Ledger, call: Call): Ledger {
    var key := KeyOf(call.command);
    var events := StreamOf(ledger, key);
    match Replay(key, events)
    case None => ledger
    case Some(state) =>
      match Handle(state, call.command)
      case Err(_) => ledger
      case Ok(event) =>
        match Publish(ledger.outbox, key, |events| + 1, call.tasks)
        case None => ledger
        case Some(outbox) => Ledger(ledger.streams[key := events + [event]], outbox)
  }

  datatype SerialStep = SerialStep(request: Request, newId: TaskId)

  function SerialRun(steps: seq<SerialStep>): Ledger {
    if steps == [] then Ledger(map[], map[])
    else
      var last := steps[|steps| - 1];
      Execute(SerialRun(steps[..|steps| - 1]), last.request, last.newId)
  }

  // ---------- Invariant ----------

  /** The one task that belongs to an event, if any. */
  function FollowUp(event: Event): Option<Task> {
    match event
    case AccountFact(a) => Some(RecordAccountCreatedTask(a.email, a.accountId, a.profile, a.createdAt))
    case ReservationFact(fact) =>
      match fact
      case EmailVerified(_, _, _) => None
      case RegistrationProfileAccepted(email, accountId, _, profile) => Some(CreateAccountTask(email, accountId, profile))
      case AccountCreationCompleted(_, _, _) => None
      case _ => Some(SendVerificationCode(fact.email, fact.accountId, fact.verificationCode))
  }

  ghost predicate StreamsLegal(ledger: Ledger) {
    forall key :: Legal(key, StreamOf(ledger, key))
  }

  /** A row belongs to an existing event and carries exactly that event's follow-up. */
  predicate RowGrounded(ledger: Ledger, row: OutboxRow) {
    && 1 <= row.sequence <= |StreamOf(ledger, row.key)|
    && FollowUp(StreamOf(ledger, row.key)[row.sequence - 1]) == Some(row.task)
  }

  ghost predicate RowAt(outbox: Outbox, key: Key, sequence: nat) {
    exists id :: id in outbox && outbox[id].key == key && outbox[id].sequence == sequence
  }

  ghost predicate OutboxMatchesEvents(ledger: Ledger) {
    && (forall id :: id in ledger.outbox ==> RowGrounded(ledger, ledger.outbox[id]))
    && (forall key, i {:trigger StreamOf(ledger, key)[i]} ::
          0 <= i < |StreamOf(ledger, key)| && FollowUp(StreamOf(ledger, key)[i]).Some? ==>
            RowAt(ledger.outbox, key, i + 1))
    && (forall id, id' | id in ledger.outbox && id' in ledger.outbox ::
          ledger.outbox[id].key == ledger.outbox[id'].key && ledger.outbox[id].sequence == ledger.outbox[id'].sequence
          ==> id == id')
  }

  /** The reservation stream accepted this profile for this account id. */
  ghost predicate AcceptedIn(events: seq<Event>, accountId: AccountId, profile: Profile) {
    exists i :: 0 <= i < |events| && IsAcceptance(events[i])
                && events[i].fact.accountId == accountId && events[i].fact.profile == profile
  }

  ghost predicate AccountGrounded(ledger: Ledger, accountId: AccountId) {
    var events := StreamOf(ledger, AccountKey(accountId));
    events != [] && events[0].AccountFact? ==>
      AcceptedIn(StreamOf(ledger, ReservationKey(events[0].account.email)), accountId, events[0].account.profile)
  }

  /** A completed reservation names an account whose record it agrees with in every field. */
  ghost predicate CompletionGrounded(ledger: Ledger, email: Email) {
    var events := StreamOf(ledger, ReservationKey(email));
    forall i :: 0 <= i < |events| && IsCompletion(events[i]) ==>
      exists profile ::
        && AcceptedIn(events, events[i].fact.accountId, profile)
        && StreamOf(ledger, AccountKey(events[i].fact.accountId))
           == [AccountFact(Account(events[i].fact.accountId, email, profile, events[i].fact.createdAt))]
  }

  ghost predicate SagaInvariant(ledger: Ledger) {
    && StreamsLegal(ledger)
    && OutboxMatchesEvents(ledger)
    && (forall accountId :: AccountGrounded(ledger, accountId))
    && (forall email :: CompletionGrounded(ledger, email))
  }

  // ---------- Preservation ----------

  /** A committed `CreateAccountTask` restates an acceptance of its own reservation. */
  lemma CreateTaskGrounded(ledger: Ledger, id: TaskId)
    requires StreamsLegal(ledger) && id in ledger.outbox && RowGrounded(ledger, ledger.outbox[id])
    requires ledger.outbox[id].task.CreateAccountTask?
    ensures var t := ledger.outbox[id].task;
      && AcceptedIn(StreamOf(ledger, ReservationKey(t.email)), t.accountId, t.profile)
      && t.profile == NewProfile(t.profile)
      && AcceptableProfile(t.profile)
  {
    var row := ledger.outbox[id];
    var events := StreamOf(ledger, row.key);
    var i := row.sequence - 1;
    assert Legal(row.key, events);
    if row.key.ReservationKey? {
      AcceptanceIsNormal(row.key.email, events, i);
    } else {
      AccountStream(row.key.accountId, events);
    }
  }

  /** A committed `RecordAccountCreatedTask` restates the account's own creation fact. */
  lemma RecordTaskGrounded(ledger: Ledger, id: TaskId)
    requires StreamsLegal(ledger) && id in ledger.outbox && RowGrounded(ledger, ledger.outbox[id])
    requires ledger.outbox[id].task.RecordAccountCreatedTask?
    ensures var t := ledger.outbox[id].task;
      StreamOf(ledger, AccountKey(t.accountId)) == [AccountFact(Account(t.accountId, t.email, t.profile, t.createdAt))]
  {
    var row := ledger.outbox[id];
    var events := StreamOf(ledger, row.key);
    assert Legal(row.key, events);
    if row.key.ReservationKey? {
      LegalPrefix(row.key, events, row.sequence);
      ReservationTail(row.key.email, events[..row.sequence]);
    } else {
      AccountStream(row.key.accountId, events);
    }
  }

  /** What the stored task of a delivered row must look like for its follow-up to match. */
  predicate Normalised(outbox: Outbox, request: Request) {
    request.DeliverCreateAccount? && request.row in outbox && outbox[request.row].task.CreateAccountTask? ==>
      outbox[request.row].task.profile == NewProfile(outbox[request.row].task.profile)
  }

  /** A task list prepared before the decision is exactly the follow-up of the event decided. */
  lemma TasksAreFollowUp(outbox: Outbox, request: Request, newId: TaskId, state: State, event: Event)
    requires Normalised(outbox, request)
    requires Issue(outbox, request, newId).Some?
    requires Handle(state, Issue(outbox, request, newId).value.command) == Ok(event)
    ensures Issue(outbox, request, newId).value.tasks ==
      match FollowUp(event) { case None => [] case Some(task) => [NewTask(newId, task)] }
  {
    match request
    case SubmitProfile(_, _, _, profile) => NewProfileFixpoint(profile);
    case _ =>
  }

  lemma AcceptedInExtends(events: seq<Event>, event: Event, accountId: AccountId, profile: Profile)
    requires AcceptedIn(events, accountId, profile)
    ensures AcceptedIn(events + [event], accountId, profile)
  {
    var i :| 0 <= i < |events| && IsAcceptance(events[i])
             && events[i].fact.accountId == accountId && events[i].fact.profile == profile;
    assert (events + [event])[i] == events[i];
  }

  /** Some command addressed to the stream emits the event from the stream's current state. */
  ghost predicate Emitted(ledger: Ledger, key: Key, event: Event) {
    && Replay(key, StreamOf(ledger, key)).Some?
    && Emits(key, Replay(key, StreamOf(ledger, key)).value, event)
  }

  /** `ledger'` is `ledger` with one event appended to `key` and its follow-up published. */
  ghost predicate Appended(ledger: Ledger, ledger': Ledger, key: Key, event: Event, newId: TaskId) {
    && ledger'.streams == ledger.streams[key := StreamOf(ledger, key) + [event]]
    && (match FollowUp(event)
        case None => ledger'.outbox == ledger.outbox
        case Some(task) =>
          && newId !in ledger.outbox
          && ledger'.outbox == ledger.outbox[newId := OutboxRow(key, |StreamOf(ledger, key)| + 1, task)])
  }

  lemma AppendedLegal(ledger: Ledger, ledger': Ledger, key: Key, event: Event, newId: TaskId)
    requires StreamsLegal(ledger) && Emitted(ledger, key, event) && Appended(ledger, ledger', key, event, newId)
    ensures StreamsLegal(ledger')
  {
    forall k
      ensures Legal(k, StreamOf(ledger', k))
    {
      assert Legal(k, StreamOf(ledger, k));
      if k == key {
        LegalExtend(key, StreamOf(ledger, key), event);
      }
    }
  }

  lemma AppendedRowComplete(ledger: Ledger, ledger': Ledger, key: Key, event: Event, newId: TaskId, k: Key, i: nat)
    requires OutboxMatchesEvents(ledger) && Appended(ledger, ledger', key, event, newId)
    requires i < |StreamOf(ledger', k)| && FollowUp(StreamOf(ledger', k)[i]).Some?
    ensures RowAt(ledger'.outbox, k, i + 1)
  {
    if k == key && i == |StreamOf(ledger, key)| {
      assert newId in ledger'.outbox;
    } else {
      assert StreamOf(ledger', k)[i] == StreamOf(ledger, k)[i];
      assert RowAt(ledger.outbox, k, i + 1);
      var id :| id in ledger.outbox && ledger.outbox[id].key == k && ledger.outbox[id].sequence == i + 1;
      assert id in ledger'.outbox;
    }
  }

  lemma AppendedRowGrounded(ledger: Ledger, ledger': Ledger, key: Key, event: Event, newId: TaskId, id: TaskId)
    requires OutboxMatchesEvents(ledger) && Appended(ledger, ledger', key, event, newId) && id in ledger'.outbox
    ensures RowGrounded(ledger', ledger'.outbox[id])
    ensures id !in ledger.outbox ==>
      id == newId && ledger'.outbox[id].key == key && ledger'.outbox[id].sequence == |StreamOf(ledger, key)| + 1
  {
    if id in ledger.outbox {
      assert RowGrounded(ledger, ledger.outbox[id]);
    }
  }

  lemma AppendedRows(ledger: Ledger, ledger': Ledger, key: Key, event: Event, newId: TaskId)
    requires OutboxMatchesEvents(ledger) && Appended(ledger, ledger', key, event, newId)
    ensures OutboxMatchesEvents(ledger')
  {
    forall id | id in ledger'.outbox
      ensures RowGrounded(ledger', ledger'.outbox[id])
    {
      AppendedRowGrounded(ledger, ledger', key, event, newId, id);
    }
    forall k, i | 0 <= i < |StreamOf(ledger', k)| && FollowUp(StreamOf(ledger', k)[i]).Some?
      ensures RowAt(ledger'.outbox, k, i + 1)
    {
      AppendedRowComplete(ledger, ledger', key, event, newId, k, i);
    }
    forall id, id' | id in ledger'.outbox && id' in ledger'.outbox
      && ledger'.outbox[id].key == ledger'.outbox[id'].key && ledger'.outbox[id].sequence == ledger'.outbox[id'].sequence
      ensures id == id'
    {
      AppendedRowGrounded(ledger, ledger', key, event, newId, id);
      AppendedRowGrounded(ledger, ledger', key, event, newId, id');
      assert id in ledger.outbox ==> RowGrounded(ledger, ledger.outbox[id]);
      assert id' in ledger.outbox ==> RowGrounded(ledger, ledger.outbox[id']);
    }
  }

  lemma AppendedAccounts(ledger: Ledger, ledger': Ledger, key: Key, event: Event, newId: TaskId)
    requires SagaInvariant(ledger) && Appended(ledger, ledger', key, event, newId) && StreamsLegal(ledger')
    requires event.AccountFact? ==>
      AcceptedIn(StreamOf(ledger, ReservationKey(event.account.email)), event.account.accountId, event.account.profile)
    ensures forall accountId :: AccountGrounded(ledger', accountId)
  {
    forall accountId
      ensures AccountGrounded(ledger', accountId)
    {
      var events := StreamOf(ledger', AccountKey(accountId));
      assert Legal(AccountKey(accountId), events);
      AccountStream(accountId, events);
      assert AccountGrounded(ledger, accountId);
      if events != [] {
        var account := events[0].account;
        var reservation := StreamOf(ledger, ReservationKey(account.email));
        assert AcceptedIn(reservation, accountId, account.profile);
        if key == ReservationKey(account.email) {
          AcceptedInExtends(reservation, event, accountId, account.profile);
        }
      }
    }
  }

  /** The account record a completion appended to `email` has to agree with. */
  ghost predicate CompletionReady(ledger: Ledger, email: Email, event: Event)
    requires IsCompletion(event)
  {
    exists profile ::
      && AcceptedIn(StreamOf(ledger, ReservationKey(email)), event.fact.accountId, profile)
      && StreamOf(ledger, AccountKey(event.fact.accountId))
         == [AccountFact(Account(event.fact.accountId, email, profile, event.fact.createdAt))]
  }

  lemma AppendedCompletions(ledger: Ledger, ledger': Ledger, key: Key, event: Event, newId: TaskId)
    requires SagaInvariant(ledger) && Appended(ledger, ledger', key, event, newId) && StreamsLegal(ledger')
    requires key.ReservationKey? && IsCompletion(event) ==> CompletionReady(ledger, key.email, event)
    ensures forall email :: CompletionGrounded(ledger', email)
  {
    forall email
      ensures CompletionGrounded(ledger', email)
    {
      var events := StreamOf(ledger, ReservationKey(email));
      var events' := StreamOf(ledger', ReservationKey(email));
      assert CompletionGrounded(ledger, email);
      forall i | 0 <= i < |events'| && IsCompletion(events'[i])
        ensures CompletionReady(ledger', email, events'[i])
      {
        var accountKey := AccountKey(events'[i].fact.accountId);
        var profile :| AcceptedIn(events, accountKey.accountId, profile) && StreamOf(ledger, accountKey)
          == [AccountFact(Account(accountKey.accountId, email, profile, events'[i].fact.createdAt))];
        assert Legal(accountKey, StreamOf(ledger', accountKey));
        AccountStream(accountKey.accountId, StreamOf(ledger', accountKey));
        if key == ReservationKey(email) {
          AcceptedInExtends(events, event, accountKey.accountId, profile);
        }
        assert AcceptedIn(events', accountKey.accountId, profile);
      }
    }
  }

  /** Account facts and completions only come out of delivered tasks, and repeat their data. */
  lemma OriginOfEvent(outbox: Outbox, request: Request, newId: TaskId, state: State, event: Event)
    requires Issue(outbox, request, newId).Some?
    requires Handle(state, Issue(outbox, request, newId).value.command) == Ok(event)
    ensures event.AccountFact? ==>
      && request.DeliverCreateAccount?
      && var t := outbox[request.row].task;
         event.account == Account(t.accountId, t.email, NewProfile(t.profile), request.now)
    ensures IsCompletion(event) ==>
      && request.DeliverRecordAccountCreated?
      && var t := outbox[request.row].task;
         && event.fact == AccountCreationCompleted(t.email, t.accountId, t.createdAt)
         && state.phase.CreatingAccount?
         && state.phase.accountId == t.accountId
         && state.phase.profile == t.profile
  {
  }

  lemma CompletionIsReady(ledger: Ledger, row: TaskId, event: Event)
    requires SagaInvariant(ledger) && row in ledger.outbox && ledger.outbox[row].task.RecordAccountCreatedTask?
    requires var t := ledger.outbox[row].task;
      && event == ReservationFact(AccountCreationCompleted(t.email, t.accountId, t.createdAt))
      && Replay(ReservationKey(t.email), StreamOf(ledger, ReservationKey(t.email))).Some?
      && var state := Replay(ReservationKey(t.email), StreamOf(ledger, ReservationKey(t.email))).value;
         && state.ReservationState?
         && state.phase.CreatingAccount?
         && state.phase.accountId == t.accountId
         && state.phase.profile == t.profile
    ensures CompletionReady(ledger, ledger.outbox[row].task.email, event)
  {
    RecordTaskGrounded(ledger, row);
    var email := ledger.outbox[row].task.email;
    var events := StreamOf(ledger, ReservationKey(email));
    assert Legal(ReservationKey(email), events);
    ReservationTail(email, events);
    assert IsAcceptance(events[|events| - 1]);
  }

  lemma PublishOne(outbox: Outbox, key: Key, sequence: nat, task: NewTask)
    ensures Publish(outbox, key, sequence, [task])
      == if task.id in outbox then None else Some(outbox[task.id := OutboxRow(key, sequence, task.task)])
  {
    assert [task][1..] == [];
  }

  lemma AppendsFollowUp(ledger: Ledger, request: Request, newId: TaskId, call: Call, event: Event)
    requires Normalised(ledger.outbox, request) && Execute(ledger, request, newId) != ledger
    requires Issue(ledger.outbox, request, newId) == Some(call)
    requires Replay(KeyOf(call.command), StreamOf(ledger, KeyOf(call.command))).Some?
    requires Handle(Replay(KeyOf(call.command), StreamOf(ledger, KeyOf(call.command))).value, call.command) == Ok(event)
    ensures Emitted(ledger, KeyOf(call.command), event)
    ensures Appended(ledger, Execute(ledger, request, newId), KeyOf(call.command), event, newId)
  {
    var key := KeyOf(call.command);
    TasksAreFollowUp(ledger.outbox, request, newId, Replay(key, StreamOf(ledger, key)).value, event);
    if FollowUp(event).Some? {
      PublishOne(ledger.outbox, key, |StreamOf(ledger, key)| + 1, NewTask(newId, FollowUp(event).value));
    }
  }

  /** A request that changes the ledger appends one grounded event with its follow-up. */
  lemma ExecuteAppends(ledger: Ledger, request: Request, newId: TaskId, call: Call, event: Event)
    requires SagaInvariant(ledger) && Execute(ledger, request, newId) != ledger
    requires Issue(ledger.outbox, request, newId) == Some(call)
    requires Replay(KeyOf(call.command), StreamOf(ledger, KeyOf(call.command))).Some?
    requires Handle(Replay(KeyOf(call.command), StreamOf(ledger, KeyOf(call.command))).value, call.command) == Ok(event)
    ensures Emitted(ledger, KeyOf(call.command), event)
    ensures Appended(ledger, Execute(ledger, request, newId), KeyOf(call.command), event, newId)
  {
    if request.DeliverCreateAccount? {
      CreateTaskGrounded(ledger, request.row);
    }
    AppendsFollowUp(ledger, request, newId, call, event);
  }

  lemma ExecutePreserves(ledger: Ledger, request: Request, newId: TaskId)
    requires SagaInvariant(ledger)
    ensures SagaInvariant(Execute(ledger, request, newId))
  {
    var ledger' := Execute(ledger, request, newId);
    if ledger' != ledger {
      var call := Issue(ledger.outbox, request, newId).value;
      var key := KeyOf(call.command);
      var state := Replay(key, StreamOf(ledger, key)).value;
      var event := Handle(state, call.command).value;
      ExecuteAppends(ledger, request, newId, call, event);
      OriginOfEvent(ledger.outbox, request, newId, state, event);
      if event.AccountFact? {
        CreateTaskGrounded(ledger, request.row);
      } else if IsCompletion(event) {
        CompletionIsReady(ledger, request.row, event);
      }
      AppendedLegal(ledger, ledger', key, event, newId);
      AppendedRows(ledger, ledger', key, event, newId);
      AppendedAccounts(ledger, ledger', key, event, newId);
      AppendedCompletions(ledger, ledger', key, event, newId);
    }
  }

  lemma {:induction false} SerialRunsAreSafe(steps: seq<SerialStep>)
    ensures SagaInvariant(SerialRun(steps))
  {
    if steps != [] {
      var last := steps[|steps| - 1];
      SerialRunsAreSafe(steps[..|steps| - 1]);
      ExecutePreserves(SerialRun(steps[..|steps| - 1]), last.request, last.newId);
    }
  }

  // ---------- Saga guarantees ----------

  lemma AcceptedOnce(email: Email, events: seq<Event>, id: AccountId, profile: Profile, id': AccountId, profile': Profile)
    requires Legal(ReservationKey(email), events)
    requires AcceptedIn(events, id, profile) && AcceptedIn(events, id', profile')
    ensures id == id' && profile == profile'
  {
    var i :| 0 <= i < |events| && IsAcceptance(events[i]) && events[i].fact.accountId == id && events[i].fact.profile == profile;
    var j :| 0 <= j < |events| && IsAcceptance(events[j]) && events[j].fact.accountId == id' && events[j].fact.profile == profile';
    AcceptanceIsFinal(email, events, i);
    AcceptanceIsFinal(email, events, j);
  }

  /** The phase of a legal stream that accepted a profile. */
  lemma AcceptedPhase(email: Email, events: seq<Event>, accountId: AccountId, profile: Profile)
    requires Legal(ReservationKey(email), events) && AcceptedIn(events, accountId, profile)
    ensures var state := Replay(ReservationKey(email), events);
      && state.Some?
      && state.value.ReservationState?
      && (state.value.phase.CreatingAccount? || state.value.phase.AccountCreated?)
      && state.value.phase.accountId == accountId
      && state.value.phase.profile == profile
      && (state.value.phase.AccountCreated? ==>
            && |events| > 0
            && IsCompletion(events[|events| - 1])
            && events[|events| - 1].fact.accountId == accountId
            && events[|events| - 1].fact.createdAt == state.value.phase.createdAt)
  {
    var i :| 0 <= i < |events| && IsAcceptance(events[i]) && events[i].fact.accountId == accountId && events[i].fact.profile == profile;
    AcceptanceIsKept(email, events, i);
    CreatedEndsWithCompletion(email, events);
  }

  /** The account a stream holds, if it was created. */
  function AccountOf(ledger: Ledger, accountId: AccountId): Option<Account> {
    var events := StreamOf(ledger, AccountKey(accountId));
    if events != [] && events[0].AccountFact? then Some(events[0].account) else None
  }

  /** A completion, with the acceptance before it, restates the account record in full. */
  lemma CompletionNamesAccount(ledger: Ledger, email: Email, i: nat)
    requires Legal(ReservationKey(email), StreamOf(ledger, ReservationKey(email))) && CompletionGrounded(ledger, email)
    requires i < |StreamOf(ledger, ReservationKey(email))| && IsCompletion(StreamOf(ledger, ReservationKey(email))[i])
    ensures var events := StreamOf(ledger, ReservationKey(email));
      && i > 0
      && IsAcceptance(events[i - 1])
      && events[i - 1].fact.accountId == events[i].fact.accountId
      && StreamOf(ledger, AccountKey(events[i].fact.accountId))
         == [AccountFact(Account(events[i].fact.accountId, email, events[i - 1].fact.profile, events[i].fact.createdAt))]
  {
    var events := StreamOf(ledger, ReservationKey(email));
    CompletionIsLast(email, events, i);
    var accountId, accepted := events[i].fact.accountId, events[i - 1].fact.profile;
    var profile :| AcceptedIn(events, accountId, profile) && StreamOf(ledger, AccountKey(accountId))
      == [AccountFact(Account(accountId, email, profile, events[i].fact.createdAt))];
    assert AcceptedIn(events, accountId, accepted);
    AcceptedOnce(email, events, accountId, profile, accountId, accepted);
  }

  lemma CompletedStream(ledger: Ledger, email: Email)
    requires Legal(ReservationKey(email), StreamOf(ledger, ReservationKey(email))) && CompletionGrounded(ledger, email)
    ensures Replay(ReservationKey(email), StreamOf(ledger, ReservationKey(email))).Some?
    ensures var state := Replay(ReservationKey(email), StreamOf(ledger, ReservationKey(email))).value;
      state.ReservationState? && state.phase.AccountCreated? ==>
        AccountOf(ledger, state.phase.accountId)
        == Some(Account(state.phase.accountId, email, state.phase.profile, state.phase.createdAt))
  {
    var events := StreamOf(ledger, ReservationKey(email));
    CreatedEndsWithCompletion(email, events);
    if Replay(ReservationKey(email), events).value.phase.AccountCreated? {
      CompletionNamesAccount(ledger, email, |events| - 1);
    }
  }

  /**
   * A reservation that reached `AccountCreated` has its account, and both sides agree on id, email,
   * names, dates and creation time.
   */
  lemma CompletedReservationHasItsAccount(ledger: Ledger, email: Email)
    requires SagaInvariant(ledger)
    ensures Replay(ReservationKey(email), StreamOf(ledger, ReservationKey(email))).Some?
    ensures var state := Replay(ReservationKey(email), StreamOf(ledger, ReservationKey(email))).value;
      state.ReservationState? && state.phase.AccountCreated? ==>
        AccountOf(ledger, state.phase.accountId)
        == Some(Account(state.phase.accountId, email, state.phase.profile, state.phase.createdAt))
  {
    assert Legal(ReservationKey(email), StreamOf(ledger, ReservationKey(email))) && CompletionGrounded(ledger, email);
    CompletedStream(ledger, email);
  }

  /** No two accounts ever hold the same email. */
  lemma OneAccountPerEmail(ledger: Ledger, id: AccountId, id': AccountId)
    requires SagaInvariant(ledger)
    requires AccountOf(ledger, id).Some? && AccountOf(ledger, id').Some?
    requires AccountOf(ledger, id).value.email == AccountOf(ledger, id').value.email
    ensures id == id'
  {
    var email := AccountOf(ledger, id).value.email;
    assert AccountGrounded(ledger, id) && AccountGrounded(ledger, id');
    assert Legal(ReservationKey(email), StreamOf(ledger, ReservationKey(email)));
    AcceptedOnce(email, StreamOf(ledger, ReservationKey(email)),
                 id, AccountOf(ledger, id).value.profile, id', AccountOf(ledger, id').value.profile);
  }

  /** The reservation stood at `state` after `n` events, with the acceptance behind that row among them. */
  ghost predicate RecordDeliverable(ledger: Ledger, row: TaskId, n: nat, state: State) {
    && row in ledger.outbox
    && ledger.outbox[row].task.RecordAccountCreatedTask?
    && var t := ledger.outbox[row].task;
    && var events := StreamOf(ledger, ReservationKey(t.email));
    && n <= |events|
    && Replay(ReservationKey(t.email), events[..n]) == Some(state)
    && AcceptedIn(events[..n], t.accountId, t.profile)
  }

  lemma RecordDecision(state: State, t: Task)
    requires t.RecordAccountCreatedTask? && state.ReservationState?
    requires state.phase.CreatingAccount? || state.phase.AccountCreated?
    requires state.phase.accountId == t.accountId && state.phase.profile == t.profile
    requires state.phase.AccountCreated? ==> state.phase.createdAt == t.createdAt
    ensures Handle(state, ToReservation(RecordAccountCreated(t.email, t.accountId, t.profile, t.createdAt))) ==
      if state.phase.CreatingAccount?
      then Ok(ReservationFact(AccountCreationCompleted(t.email, t.accountId, t.createdAt)))
      else Err(ReservationRejected(AccountCreationAlreadyCompleted))
  {
  }

  lemma RecordPhase(ledger: Ledger, row: TaskId, n: nat, state: State)
    requires SagaInvariant(ledger) && RecordDeliverable(ledger, row, n, state)
    ensures state.ReservationState?
    ensures var t := ledger.outbox[row].task;
      && (state.phase.CreatingAccount? || state.phase.AccountCreated?)
      && state.phase.accountId == t.accountId
      && state.phase.profile == t.profile
      && (state.phase.AccountCreated? ==> state.phase.createdAt == t.createdAt)
  {
    var t := ledger.outbox[row].task;
    var events := StreamOf(ledger, ReservationKey(t.email));
    assert Legal(ReservationKey(t.email), events);
    LegalPrefix(ReservationKey(t.email), events, n);
    AcceptedPhase(t.email, events[..n], t.accountId, t.profile);
    if state.phase.AccountCreated? {
      assert CompletionGrounded(ledger, t.email);
      CompletionNamesAccount(ledger, t.email, n - 1);
      RecordTaskGrounded(ledger, row);
    }
  }

  /**
   * Delivering a committed `RecordAccountCreatedTask` to any state of its reservation that already
   * holds the acceptance completes it or finds it completed with the same data.
   */
  lemma RecordDelivery(ledger: Ledger, row: TaskId, n: nat, state: State)
    requires SagaInvariant(ledger) && RecordDeliverable(ledger, row, n, state)
    ensures state.ReservationState?
    ensures var t := ledger.outbox[row].task;
      Handle(state, ToReservation(RecordAccountCreated(t.email, t.accountId, t.profile, t.createdAt))) ==
      if state.phase.CreatingAccount?
      then Ok(ReservationFact(AccountCreationCompleted(t.email, t.accountId, t.createdAt)))
      else Err(ReservationRejected(AccountCreationAlreadyCompleted))
  {
    RecordPhase(ledger, row, n, state);
    RecordDecision(state, ledger.outbox[row].task);
  }

  /** What the account decides about a creation, by what its stream holds. */
  lemma CreateDecision(t: Task, events: seq<Event>, now: Timestamp, n: nat, state: State)
    requires t.CreateAccountTask? && Legal(AccountKey(t.accountId), events) && n <= |events|
    requires Replay(AccountKey(t.accountId), events[..n]) == Some(state)
    requires t.profile == NewProfile(t.profile) && AcceptableProfile(t.profile)
    requires n > 0 && events[0].AccountFact? && events[0].account.email == t.email ==> events[0].account.profile == t.profile
    ensures Handle(state, ToAccount(CreateAccount(t.accountId, t.email, t.profile, now))) ==
      if n == 0 then Ok(AccountFact(Account(t.accountId, t.email, t.profile, now)))
      else Err(AccountRejected(if events[0].AccountFact? && events[0].account.email == t.email
                               then AlreadyCreated else AlreadyExistsWithDifferentData))
  {
    AccountStream(t.accountId, events);
    if n > 0 {
      assert events[..n] == events;
    }
  }

  /** An account that already exists for the email of a creation task was created from the same acceptance. */
  lemma SameAcceptance(ledger: Ledger, t: Task)
    requires t.CreateAccountTask? && StreamsLegal(ledger) && AccountGrounded(ledger, t.accountId)
    requires AcceptedIn(StreamOf(ledger, ReservationKey(t.email)), t.accountId, t.profile)
    ensures var events := StreamOf(ledger, AccountKey(t.accountId));
      events != [] && events[0].AccountFact? && events[0].account.email == t.email ==> events[0].account.profile == t.profile
  {
    var events := StreamOf(ledger, AccountKey(t.accountId));
    if events != [] && events[0].AccountFact? && events[0].account.email == t.email {
      assert Legal(ReservationKey(t.email), StreamOf(ledger, ReservationKey(t.email)));
      AcceptedOnce(t.email, StreamOf(ledger, ReservationKey(t.email)),
                   t.accountId, t.profile, t.accountId, events[0].account.profile);
    }
  }

  /**
   * Delivering a committed `CreateAccountTask` creates the account, or finds it created with the
   * same data, or fails for good exactly because another email owns the account id.
   */
  lemma CreateDelivery(ledger: Ledger, row: TaskId, now: Timestamp, n: nat, state: State)
    requires SagaInvariant(ledger) && row in ledger.outbox && ledger.outbox[row].task.CreateAccountTask?
    requires var t := ledger.outbox[row].task;
      var events := StreamOf(ledger, AccountKey(t.accountId));
      n <= |events| && Replay(AccountKey(t.accountId), events[..n]) == Some(state)
    ensures var t := ledger.outbox[row].task;
      Handle(state, ToAccount(CreateAccount(t.accountId, t.email, t.profile, now))) ==
      if n == 0 then Ok(AccountFact(Account(t.accountId, t.email, t.profile, now)))
      else Err(AccountRejected(if AccountOf(ledger, t.accountId) != None && AccountOf(ledger, t.accountId).value.email == t.email
                               then AlreadyCreated else AlreadyExistsWithDifferentData))
  {
    var t := ledger.outbox[row].task;
    CreateTaskGrounded(ledger, row);
    assert AccountGrounded(ledger, t.accountId);
    SameAcceptance(ledger, t);
    assert Legal(AccountKey(t.accountId), StreamOf(ledger, AccountKey(t.accountId)));
    CreateDecision(t, StreamOf(ledger, AccountKey(t.accountId)), now, n, state);
  }
}
