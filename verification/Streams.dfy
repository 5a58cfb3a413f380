/** Event streams of both aggregates: replay, legality and the grammar every legal stream obeys. */
module Streams {
  import opened Text
  import opened Wrappers
  import opened Registration

  /** Aggregate type and identifier, the first two columns of the `events` primary key. */
  datatype Key = ReservationKey(email: Email) | AccountKey(accountId: AccountId)

  datatype State = ReservationState(phase: Phase) | AccountState(created: Option<Account>)

  datatype Command = ToReservation(reservation: ReservationCommand) | ToAccount(account: AccountCommand)

  datatype Event = ReservationFact(fact: ReservationEvent) | AccountFact(account: Account)

  datatype Rejection =
    | ReservationRejected(reason: ReservationError)
    | AccountRejected(error: AccountError)
    | WrongAggregate

  /** The gateways choose the stream: the email for one aggregate, the account id for the other. */
  function KeyOf(command: Command): Key {
    match command
    case ToReservation(c) => ReservationKey(c.email)
    case ToAccount(c) => AccountKey(c.accountId)
  }

  function Initial(key: Key): State {
    match key
    case ReservationKey(_) => ReservationState(Absent)
    case AccountKey(_) => AccountState(None)
  }

  function Handle(state: State, command: Command): Result<Event, Rejection> {
    match (state, command)
    case (ReservationState(phase), ToReservation(c)) =>
      (match DecideReservation(phase, c)
       case Ok(fact) => Ok(ReservationFact(fact))
       case Err(reason) => Err(ReservationRejected(reason)))
    case (AccountState(created), ToAccount(c)) =>
      (match DecideAccount(created, c)
       case Ok(account) => Ok(AccountFact(account))
       case Err(error) => Err(AccountRejected(error)))
    case _ => Err(WrongAggregate)
  }

  /** `None` is the panic of `apply`, or an event of the other aggregate. */
  function Apply(state: State, event: Event): Option<State> {
    match (state, event)
    case (ReservationState(phase), ReservationFact(fact)) =>
      if ReservationApplicable(phase, fact) then Some(ReservationState(ApplyReservation(phase, fact))) else None
    case (AccountState(_), AccountFact(account)) => Some(AccountState(Some(account)))
    case _ => None
  }

  function ReplayFrom(state: Option<State>, events: seq<Event>): Option<State> {
    if state == None || events == [] then state
    else
      match ReplayFrom(state, events[..|events| - 1])
      case None => None
      case Some(s) => Apply(s, events[|events| - 1])
  }

  function Replay(key: Key, events: seq<Event>): Option<State> {
    ReplayFrom(Some(Initial(key)), events)
  }

  lemma {:induction false} ReplayConcat(state: Option<State>, a: seq<Event>, b: seq<Event>)
    ensures ReplayFrom(state, a + b) == ReplayFrom(ReplayFrom(state, a), b)
  {
    if b == [] {
      assert a + b == a;
    } else {
      ReplayConcat(state, a, b[..|b| - 1]);
      assert (a + b)[..|a + b| - 1] == a + b[..|b| - 1];
    }
  }

  /** Some command addressed to this stream makes the aggregate emit the event from this state. */
  ghost predicate Emits(key: Key, state: State, event: Event) {
    exists command :: KeyOf(command) == key && Handle(state, command) == Ok(event)
  }

  /** Every event is one that `handle` accepts on the replay of exactly its prefix. */
  ghost predicate Legal(key: Key, events: seq<Event>) {
    events == [] ||
    var prefix := events[..|events| - 1];
    && Legal(key, prefix)
    && Replay(key, prefix).Some?
    && Emits(key, Replay(key, prefix).value, events[|events| - 1])
  }

  predicate Fits(key: Key, state: State) {
    key.ReservationKey? <==> state.ReservationState?
  }

  lemma EmittedApplies(key: Key, state: State, event: Event)
    requires Fits(key, state) && Emits(key, state, event)
    ensures Apply(state, event).Some? && Fits(key, Apply(state, event).value)
  {
  }

  /** Replaying a legal stream never reaches the panic in `apply`. */
  lemma {:induction false} ReplayTotal(key: Key, events: seq<Event>)
    requires Legal(key, events)
    ensures Replay(key, events).Some? && Fits(key, Replay(key, events).value)
  {
    if events != [] {
      var prefix := events[..|events| - 1];
      ReplayTotal(key, prefix);
      EmittedApplies(key, Replay(key, prefix).value, events[|events| - 1]);
    }
  }

  lemma {:induction false} LegalPrefix(key: Key, events: seq<Event>, n: nat)
    requires Legal(key, events) && n <= |events|
    ensures Legal(key, events[..n])
  {
    if n < |events| {
      LegalPrefix(key, events[..|events| - 1], n);
      assert events[..|events| - 1][..n] == events[..n];
    } else {
      assert events[..n] == events;
    }
  }

  lemma LegalExtend(key: Key, events: seq<Event>, event: Event)
    requires Legal(key, events) && Replay(key, events).Some?
    requires Emits(key, Replay(key, events).value, event)
    ensures Legal(key, events + [event])
    ensures Replay(key, events + [event]) == Apply(Replay(key, events).value, event)
  {
    assert (events + [event])[..|events|] == events;
  }

  // ---------- Reservation streams ----------

  predicate IsIssue(event: Event) {
    && event.ReservationFact?
    && (event.fact.EmailReserved? || event.fact.VerificationCodeRequested? || event.fact.VerificationRestarted?)
  }

  predicate IsAcceptance(event: Event) {
    event.ReservationFact? && event.fact.RegistrationProfileAccepted?
  }

  predicate IsCompletion(event: Event) {
    event.ReservationFact? && event.fact.AccountCreationCompleted?
  }

  /** The phase a legal reservation stream leaves, read off its last one or two events. */
  ghost predicate PhaseFromTail(events: seq<Event>, phase: Phase) {
    if events == [] then phase == Absent
    else
      var last := events[|events| - 1];
      last.ReservationFact? &&
      match last.fact
      case EmailVerified(_, accountId, digest) => phase == AwaitingProfile(accountId, digest)
      case RegistrationProfileAccepted(_, accountId, digest, profile) => phase == CreatingAccount(accountId, digest, profile)
      case AccountCreationCompleted(_, accountId, createdAt) =>
        && |events| >= 2
        && IsAcceptance(events[|events| - 2])
        && var accepted := events[|events| - 2].fact;
           accountId == accepted.accountId && phase == AccountCreated(accountId, accepted.consumedDigest, accepted.profile, createdAt)
      case _ => IsIssue(last) && phase == AwaitingCode(last.fact.accountId, last.fact.verificationCode)
  }

  lemma {:induction false} ReservationTail(email: Email, events: seq<Event>)
    requires Legal(ReservationKey(email), events)
    ensures Replay(ReservationKey(email), events).Some?
    ensures Replay(ReservationKey(email), events).value.ReservationState?
    ensures PhaseFromTail(events, Replay(ReservationKey(email), events).value.phase)
    ensures events != [] ==> events[|events| - 1].fact.email == email
  {
    if events != [] {
      var prefix := events[..|events| - 1];
      ReservationTail(email, prefix);
      assert |events| >= 2 ==> prefix[|prefix| - 1] == events[|events| - 2];
    }
  }

  lemma OnlyCompletionFollows(email: Email, events: seq<Event>)
    requires Legal(ReservationKey(email), events) && |events| >= 2 && IsAcceptance(events[|events| - 2])
    ensures IsCompletion(events[|events| - 1])
  {
    var before := events[..|events| - 1];
    LegalPrefix(ReservationKey(email), events, |events| - 1);
    ReservationTail(email, before);
    assert before[|before| - 1] == events[|events| - 2];
  }

  /** Once accepted, a profile is the last or the last but one fact of its stream. */
  lemma AcceptanceIsFinal(email: Email, events: seq<Event>, i: nat)
    requires Legal(ReservationKey(email), events) && i < |events| && IsAcceptance(events[i])
    ensures i == |events| - 1 || (i == |events| - 2 && IsCompletion(events[i + 1]))
  {
    if i < |events| - 1 {
      CompletionFollowsAt(email, events, i);
      CompletionIsLast(email, events, i + 1);
    }
  }

  lemma CompletionFollowsAt(email: Email, events: seq<Event>, i: nat)
    requires Legal(ReservationKey(email), events) && i + 1 < |events| && IsAcceptance(events[i])
    ensures IsCompletion(events[i + 1])
  {
    LegalPrefix(ReservationKey(email), events, i + 2);
    OnlyCompletionFollows(email, events[..i + 2]);
    assert events[..i + 2][i + 1] == events[i + 1];
  }

  /** A completion follows directly on the acceptance of the same account id. */
  lemma CompletionAfterAcceptance(email: Email, events: seq<Event>, i: nat)
    requires Legal(ReservationKey(email), events) && i < |events| && IsCompletion(events[i])
    ensures i > 0 && IsAcceptance(events[i - 1]) && events[i - 1].fact.accountId == events[i].fact.accountId
  {
    LegalPrefix(ReservationKey(email), events, i + 1);
    ReservationTail(email, events[..i + 1]);
    assert i > 0 ==> events[..i + 1][i - 1] == events[i - 1];
  }

  lemma CompletionIsLast(email: Email, events: seq<Event>, i: nat)
    requires Legal(ReservationKey(email), events) && i < |events| && IsCompletion(events[i])
    ensures i == |events| - 1
    ensures i > 0 && IsAcceptance(events[i - 1]) && events[i - 1].fact.accountId == events[i].fact.accountId
  {
    CompletionAfterAcceptance(email, events, i);
    if i + 1 < |events| {
      LegalPrefix(ReservationKey(email), events, i + 2);
      NothingAfterCompletion(email, events[..i + 2]);
    }
  }

  /** No command is accepted once the last fact is a completion. */
  lemma NothingAfterCompletion(email: Email, events: seq<Event>)
    requires Legal(ReservationKey(email), events) && |events| >= 2
    ensures !IsCompletion(events[|events| - 2])
  {
    var before := events[..|events| - 1];
    LegalPrefix(ReservationKey(email), events, |events| - 1);
    ReservationTail(email, before);
    assert before[|before| - 1] == events[|events| - 2];
  }

  lemma DecidedAcceptance(phase: Phase, command: ReservationCommand, fact: ReservationEvent)
    requires DecideReservation(phase, command) == Ok(fact) && fact.RegistrationProfileAccepted?
    ensures command.SubmitRegistrationProfile? && fact.email == command.email
    ensures fact.profile == NewProfile(command.profile) && AcceptableProfile(command.profile)
  {
  }

  lemma EmittedAcceptance(email: Email, state: State, event: Event)
    requires Emits(ReservationKey(email), state, event) && IsAcceptance(event)
    ensures event.fact.profile == NewProfile(event.fact.profile)
    ensures AcceptableProfile(event.fact.profile)
    ensures event.fact.email == email
  {
    var command :| KeyOf(command) == ReservationKey(email) && Handle(state, command) == Ok(event);
    DecidedAcceptance(state.phase, command.reservation, event.fact);
    NewProfileFixpoint(command.reservation.profile);
  }

  /** An accepted profile is normalised and passes every check of both aggregates. */
  lemma AcceptanceIsNormal(email: Email, events: seq<Event>, i: nat)
    requires Legal(ReservationKey(email), events) && i < |events| && IsAcceptance(events[i])
    ensures events[i].fact.profile == NewProfile(events[i].fact.profile)
    ensures AcceptableProfile(events[i].fact.profile)
    ensures events[i].fact.email == email
  {
    LegalPrefix(ReservationKey(email), events, i + 1);
    EmittedAcceptance(email, Replay(ReservationKey(email), events[..i + 1][..i]).value, events[i]);
  }

  lemma ReplayIsReservation(email: Email, events: seq<Event>)
    requires Legal(ReservationKey(email), events)
    ensures Replay(ReservationKey(email), events).Some? && Replay(ReservationKey(email), events).value.ReservationState?
  {
    ReservationTail(email, events);
  }

  lemma AcceptedAtMostOnce(email: Email, events: seq<Event>, i: nat, j: nat)
    requires Legal(ReservationKey(email), events) && i < j < |events| && IsAcceptance(events[i])
    ensures !IsAcceptance(events[j])
  {
    AcceptanceIsFinal(email, events, i);
  }

  /** A stream whose phase is `AccountCreated` ends with the completion that says so. */
  lemma CreatedEndsWithCompletion(email: Email, events: seq<Event>)
    requires Legal(ReservationKey(email), events)
    ensures Replay(ReservationKey(email), events).Some? && Replay(ReservationKey(email), events).value.ReservationState?
    ensures var phase := Replay(ReservationKey(email), events).value.phase;
      phase.AccountCreated? ==>
        && events != []
        && IsCompletion(events[|events| - 1])
        && events[|events| - 1].fact.accountId == phase.accountId
        && events[|events| - 1].fact.createdAt == phase.createdAt
        && |events| >= 2
        && IsAcceptance(events[|events| - 2])
        && events[|events| - 2].fact.profile == phase.profile
  {
    ReservationTail(email, events);
  }

  /** What an accepted profile fixes about the phase of its whole stream. */
  predicate Keeps(phase: Phase, accepted: ReservationEvent)
    requires accepted.RegistrationProfileAccepted?
  {
    && (phase.CreatingAccount? || phase.AccountCreated?)
    && phase.accountId == accepted.accountId
    && phase.consumedDigest == accepted.consumedDigest
    && phase.profile == accepted.profile
  }

  lemma AcceptanceIsKept(email: Email, events: seq<Event>, i: nat)
    requires Legal(ReservationKey(email), events) && i < |events| && IsAcceptance(events[i])
    ensures Replay(ReservationKey(email), events).Some? && Replay(ReservationKey(email), events).value.ReservationState?
    ensures Keeps(Replay(ReservationKey(email), events).value.phase, events[i].fact)
  {
    ReservationTail(email, events);
    AcceptanceIsFinal(email, events, i);
  }

  /**
   * Stream grammar: a legal reservation stream holds at most one acceptance and at most one
   * completion, the completion directly follows the acceptance and ends the stream, and from the
   * acceptance on the account id, digest and profile never change.
   */
  lemma StreamGrammar(email: Email, events: seq<Event>)
    requires Legal(ReservationKey(email), events)
    ensures Replay(ReservationKey(email), events).Some? && Replay(ReservationKey(email), events).value.ReservationState?
    ensures forall i, j :: 0 <= i < j < |events| && IsAcceptance(events[i]) ==> !IsAcceptance(events[j])
    ensures forall i :: 0 <= i < |events| && IsCompletion(events[i]) ==>
      i == |events| - 1 && i > 0 && IsAcceptance(events[i - 1])
    ensures forall i {:trigger events[i]} :: 0 <= i < |events| && IsAcceptance(events[i]) ==>
      Keeps(Replay(ReservationKey(email), events).value.phase, events[i].fact)
  {
    ReplayIsReservation(email, events);
    forall i, j | 0 <= i < j < |events| && IsAcceptance(events[i])
      ensures !IsAcceptance(events[j])
    {
      AcceptedAtMostOnce(email, events, i, j);
    }
    forall i | 0 <= i < |events| && IsCompletion(events[i])
      ensures i == |events| - 1 && i > 0 && IsAcceptance(events[i - 1])
    {
      CompletionIsLast(email, events, i);
    }
    forall i {:trigger events[i]} | 0 <= i < |events| && IsAcceptance(events[i])
      ensures Keeps(Replay(ReservationKey(email), events).value.phase, events[i].fact)
    {
      AcceptanceIsKept(email, events, i);
    }
  }

  /** When a command is accepted, said of the stream's last fact alone, without phases. */
  predicate MayFollow(last: Option<ReservationEvent>, command: ReservationCommand) {
    match command
    case ReserveEmail(_, _, code) => last == None && CodeFormat(code)
    case RequestVerificationCode(_, accountId, code) =>
      && last.Some?
      && (IsIssue(ReservationFact(last.value)) || last.value.EmailVerified?)
      && last.value.accountId != accountId
      && CodeFormat(code)
    case VerifyEmail(_, accountId, code, _) =>
      && last.Some?
      && IsIssue(ReservationFact(last.value))
      && last.value.accountId == accountId
      && last.value.verificationCode == code
    case SubmitRegistrationProfile(_, accountId, digest, profile) =>
      && last.Some?
      && last.value.EmailVerified?
      && last.value.accountId == accountId
      && last.value.tokenDigest == digest
      && AcceptableProfile(profile)
    case RecordAccountCreated(_, accountId, profile, _) =>
      && last.Some?
      && last.value.RegistrationProfileAccepted?
      && last.value.accountId == accountId
      && last.value.profile == profile
  }

  /** The fact an admitted command adds after the last one. */
  function FactAfter(last: Option<ReservationEvent>, command: ReservationCommand): ReservationEvent {
    match command
    case ReserveEmail(email, accountId, code) => EmailReserved(email, accountId, code)
    case RequestVerificationCode(email, accountId, code) =>
      if last.Some? && last.value.EmailVerified? then VerificationRestarted(email, accountId, code)
      else VerificationCodeRequested(email, accountId, code)
    case VerifyEmail(email, accountId, _, digest) => EmailVerified(email, accountId, digest)
    case SubmitRegistrationProfile(email, accountId, digest, profile) =>
      RegistrationProfileAccepted(email, accountId, digest, NewProfile(profile))
    case RecordAccountCreated(email, accountId, _, createdAt) => AccountCreationCompleted(email, accountId, createdAt)
  }

  function LastFact(events: seq<Event>): Option<ReservationEvent> {
    if events == [] || !events[|events| - 1].ReservationFact? then None else Some(events[|events| - 1].fact)
  }

  /** The accepted profile a stream ends with, directly or under its completion. */
  function Standing(events: seq<Event>): Option<ReservationEvent> {
    if events != [] && IsAcceptance(events[|events| - 1]) then Some(events[|events| - 1].fact)
    else if |events| >= 2 && IsCompletion(events[|events| - 1]) && IsAcceptance(events[|events| - 2])
    then Some(events[|events| - 2].fact)
    else None
  }

  /** Why a command that may not follow is refused, said of the stream's last one or two facts, without phases. */
  function ErrorAfter(events: seq<Event>, command: ReservationCommand): ReservationError {
    var last, standing := LastFact(events), Standing(events);
    if last == None then if command.ReserveEmail? then InvalidVerificationCodeFormat else NotReserved
    else
      var owner := last.value.accountId;
      match command
      case ReserveEmail(_, _, _) => AlreadyReserved
      case RequestVerificationCode(_, accountId, code) =>
        if owner == accountId then AccountIdUnchanged
        else if CodeFormat(code) then AccountCreationStarted
        else InvalidVerificationCodeFormat
      case VerifyEmail(_, accountId, _, _) =>
        if standing.Some? then AccountCreationStarted
        else if owner != accountId then NotCurrentAccountId
        else if last.value.EmailVerified? then AlreadyVerified
        else InvalidVerificationCode
      case SubmitRegistrationProfile(_, accountId, digest, profile) =>
        if owner != accountId then NotCurrentAccountId
        else if standing.Some? then
          if standing.value.consumedDigest == digest then ProfileAlreadySubmitted else InvalidAccountCreationToken
        else if !last.value.EmailVerified? then NotAwaitingProfile
        else if last.value.tokenDigest != digest then InvalidAccountCreationToken
        else if Trim(profile.firstName) == "" then EmptyFirstName
        else if Trim(profile.lastName) == "" then EmptyLastName
        else FutureDateOfBirth
      case RecordAccountCreated(_, accountId, profile, createdAt) =>
        if standing.None? then NotAwaitingProfile
        else if last.value == AccountCreationCompleted(last.value.email, accountId, createdAt) && standing.value.profile == profile
        then AccountCreationAlreadyCompleted
        else AccountCreationMismatch
  }

  /**
   * A reservation accepts a command exactly when its last fact admits it: in particular a code is
   * verified only against the pair issued last, and a token works only right after its verification.
   * The fact added is determined by the last fact and the command, and so is the reason of a refusal.
   */
  lemma AcceptedExactlyAfter(email: Email, events: seq<Event>, command: ReservationCommand)
    requires Legal(ReservationKey(email), events)
    ensures Replay(ReservationKey(email), events).Some?
    ensures var decision := Handle(Replay(ReservationKey(email), events).value, ToReservation(command));
      && (decision.Ok? <==> MayFollow(LastFact(events), command))
      && (decision.Ok? ==> decision.value == ReservationFact(FactAfter(LastFact(events), command)))
      && (decision.Err? ==> decision.error == ReservationRejected(ErrorAfter(events, command)))
  {
    ReservationTail(email, events);
  }

  // ---------- Account streams ----------

  /** An account stream is empty or holds the one creation fact, made for its own id. */
  lemma {:induction false} AccountStream(accountId: AccountId, events: seq<Event>)
    requires Legal(AccountKey(accountId), events)
    ensures |events| <= 1
    ensures |events| == 1 ==>
      && events[0].AccountFact?
      && events[0].account.accountId == accountId
      && events[0].account.profile == NewProfile(events[0].account.profile)
      && Replay(AccountKey(accountId), events) == Some(AccountState(Some(events[0].account)))
    ensures |events| == 0 ==> Replay(AccountKey(accountId), events) == Some(AccountState(None))
  {
    if events != [] {
      var prefix := events[..|events| - 1];
      AccountStream(accountId, prefix);
      var command :| KeyOf(command) == AccountKey(accountId)
                     && Handle(Replay(AccountKey(accountId), prefix).value, command) == Ok(events[|events| - 1]);
      NewProfileFixpoint(command.account.profile);
      assert |events| == 1 ==> prefix == [];
    }
  }
}
