/**
 * The two aggregates as objects. Handlers decide on the current state and write through the event
 * sink; the state is at all times the replay of the stream loaded and written so far.
 */
module Aggregates {
  import opened Text
  import opened Wrappers
  import opened Registration
  import opened Streams

  /** Events written during one command, in order. */
  class EventSink<E> {
    var events: seq<E>

    constructor ()
      ensures events == []
    {
      events := [];
    }
  }

  type ReservationResult = Result<(), ReservationError>

  // ---------- What a handler does to the stream ----------

  /** The outcome by decision: the decided event is written, or the decided error returned. */
  predicate Follows(decision: ReservationDecision, r: ReservationResult, events: seq<ReservationEvent>,
                    events': seq<ReservationEvent>)
  {
    match decision
    case Ok(event) => r == Ok(()) && events' == events + [event]
    case Err(error) => r == Err(error) && events' == events
  }

  /**
   * The outcome by history: the command is accepted exactly when the last fact of the stream admits
   * it, and then adds the one fact that belongs after it to stream and sink; otherwise nothing changes
   * and the last facts give the reason.
   */
  predicate Extends(command: ReservationCommand, r: ReservationResult, written: seq<Event>, written': seq<Event>,
                    events: seq<ReservationEvent>, events': seq<ReservationEvent>)
  {
    var fact := FactAfter(LastFact(written), command);
    && (r.Ok? <==> MayFollow(LastFact(written), command))
    && (r.Err? ==> r.error == ErrorAfter(written, command))
    && written' == (if r.Ok? then written + [ReservationFact(fact)] else written)
    && events' == (if r.Ok? then events + [fact] else events)
  }

  predicate Replays(email: Email, written: seq<Event>, phase: Phase) {
    Replay(ReservationKey(email), written) == Some(ReservationState(phase))
  }

  /** The phase is the replay of a legal stream of this email. */
  ghost predicate Represents(email: Email, written: seq<Event>, phase: Phase) {
    Legal(ReservationKey(email), written) && Replays(email, written, phase)
  }

  lemma ReplaysNext(email: Email, written: seq<Event>, phase: Phase, event: ReservationEvent)
    requires Replays(email, written, phase) && ReservationApplicable(phase, event)
    ensures Replays(email, written + [ReservationFact(event)], ApplyReservation(phase, event))
  {
    assert (written + [ReservationFact(event)])[..|written|] == written;
  }

  lemma HistoryDecides(email: Email, written: seq<Event>, phase: Phase, command: ReservationCommand)
    requires Represents(email, written, phase)
    ensures var decision := DecideReservation(phase, command);
      && (decision.Ok? <==> MayFollow(LastFact(written), command))
      && (decision.Ok? ==> decision.value == FactAfter(LastFact(written), command))
      && (decision.Err? ==> decision.error == ErrorAfter(written, command))
  {
    AcceptedExactlyAfter(email, written, command);
  }

  /** An event some command of this email decides can be applied and extends the stream legally. */
  lemma LegalNext(email: Email, written: seq<Event>, phase: Phase, command: ReservationCommand, event: ReservationEvent)
    requires Represents(email, written, phase) && command.email == email && DecideReservation(phase, command) == Ok(event)
    ensures ReservationApplicable(phase, event) && Legal(ReservationKey(email), written + [ReservationFact(event)])
  {
    var key, state := ReservationKey(email), ReservationState(phase);
    assert KeyOf(ToReservation(command)) == key && Handle(state, ToReservation(command)) == Ok(ReservationFact(event));
    EmittedApplies(key, state, ReservationFact(event));
    LegalExtend(key, written, ReservationFact(event));
  }

  /** Every event of a legal stream can be applied to the replay of the events before it. */
  lemma StoredApplies(email: Email, events: seq<Event>, n: nat, phase: Phase)
    requires Legal(ReservationKey(email), events) && n < |events| && Replays(email, events[..n], phase)
    ensures events[n].ReservationFact? && ReservationApplicable(phase, events[n].fact)
  {
    var key := ReservationKey(email);
    LegalPrefix(key, events, n + 1);
    ReplayTotal(key, events[..n + 1]);
    assert events[..n + 1][..n] == events[..n];
  }

  // ---------- EmailReservation ----------

  class EmailReservation {
    var phase: Phase
    /** The email the stream is keyed by, and the stream itself. */
    ghost const email: Email
    ghost var written: seq<Event>

    ghost predicate Valid()
      reads this
    {
      Represents(email, written, phase)
    }

    constructor (ghost email: Email)
      ensures Valid() && this.email == email && written == [] && phase == Absent
    {
      phase := Absent;
      this.email := email;
      written := [];
    }

    /** Rebuilding the aggregate from any stored stream gives the state its handlers left when they wrote it. */
    constructor Load(ghost email: Email, events: seq<ReservationEvent>)
      requires Legal(ReservationKey(email), Facts(events))
      ensures Valid() && this.email == email && written == Facts(events)
    {
      phase := Absent;
      this.email := email;
      written := [];
      new;
      for i := 0 to |events|
        invariant Replays(email, written, phase) && written == Facts(events)[..i] && this.email == email
      {
        StoredApplies(email, Facts(events), i, phase);
        assert Facts(events)[..i + 1] == Facts(events)[..i] + [ReservationFact(events[i])];
        Apply(events[i]);
      }
      assert Facts(events)[..|events|] == Facts(events);
    }

    /**
     * Keeps the phase the replay of the events applied so far. Panics, which the precondition rules out,
     * on a completion without an accepted profile.
     */
    method Apply(event: ReservationEvent)
      requires Replays(email, written, phase) && ReservationApplicable(phase, event)
      modifies this
      ensures Replays(email, written, phase) && written == old(written) + [ReservationFact(event)]
    {
      ReplaysNext(email, written, phase, event);
      match event {
        case EmailReserved(_, accountId, code) => phase := AwaitingCode(accountId, code);
        case VerificationCodeRequested(_, accountId, code) => phase := AwaitingCode(accountId, code);
        case VerificationRestarted(_, accountId, code) => phase := AwaitingCode(accountId, code);
        case EmailVerified(_, accountId, digest) => phase := AwaitingProfile(accountId, digest);
        case RegistrationProfileAccepted(_, accountId, digest, profile) => phase := CreatingAccount(accountId, digest, profile);
        case AccountCreationCompleted(_, accountId, createdAt) =>
          phase := AccountCreated(accountId, phase.consumedDigest, phase.profile, createdAt);
      }
      written := written + [ReservationFact(event)];
    }

    /** Writing through the sink records the event and applies it to the aggregate at once. */
    method Write(event: ReservationEvent, sink: EventSink<ReservationEvent>, ghost command: ReservationCommand)
      requires Valid() && command.email == email && DecideReservation(phase, command) == Ok(event)
      modifies this, sink
      ensures Valid() && written == old(written) + [ReservationFact(event)] && sink.events == old(sink.events) + [event]
    {
      LegalNext(email, written, phase, command, event);
      sink.events := sink.events + [event];
      Apply(event);
    }

    method HandleReserve(email: Email, accountId: AccountId, code: nat, sink: EventSink<ReservationEvent>)
      returns (r: ReservationResult)
      requires Valid() && email == this.email
      modifies this, sink
      ensures Valid() && Follows(DecideReserve(old(phase), email, accountId, code), r, old(sink.events), sink.events)
      ensures Extends(ReserveEmail(email, accountId, code), r, old(written), written, old(sink.events), sink.events)
    {
      ghost var command := ReserveEmail(email, accountId, code);
      HistoryDecides(email, written, phase, command);
      if phase != Absent {
        return Err(AlreadyReserved);
      }
      if !CodeFormat(code) {
        return Err(InvalidVerificationCodeFormat);
      }
      Write(EmailReserved(email, accountId, code), sink, command);
      return Ok(());
    }

    method HandleRequestCode(email: Email, accountId: AccountId, code: nat, sink: EventSink<ReservationEvent>)
      returns (r: ReservationResult)
      requires Valid() && email == this.email
      modifies this, sink
      ensures Valid() && Follows(DecideRequestCode(old(phase), email, accountId, code), r, old(sink.events), sink.events)
      ensures Extends(RequestVerificationCode(email, accountId, code), r, old(written), written, old(sink.events), sink.events)
    {
      ghost var command := RequestVerificationCode(email, accountId, code);
      HistoryDecides(email, written, phase, command);
      if phase == Absent {
        return Err(NotReserved);
      }
      if phase.accountId == accountId {
        return Err(AccountIdUnchanged);
      }
      if !CodeFormat(code) {
        return Err(InvalidVerificationCodeFormat);
      }
      var event;
      match phase {
        case AwaitingCode(_, _) => event := VerificationCodeRequested(email, accountId, code);
        case AwaitingProfile(_, _) => event := VerificationRestarted(email, accountId, code);
        case CreatingAccount(_, _, _) => return Err(AccountCreationStarted);
        case AccountCreated(_, _, _, _) => return Err(AccountCreationStarted);
        case Absent => assert false;
      }
      Write(event, sink, command);
      return Ok(());
    }

    method HandleVerify(email: Email, accountId: AccountId, code: nat, digest: Digest, sink: EventSink<ReservationEvent>)
      returns (r: ReservationResult)
      requires Valid() && email == this.email
      modifies this, sink
      ensures Valid() && Follows(DecideVerify(old(phase), email, accountId, code, digest), r, old(sink.events), sink.events)
      ensures Extends(VerifyEmail(email, accountId, code, digest), r, old(written), written, old(sink.events), sink.events)
    {
      ghost var command := VerifyEmail(email, accountId, code, digest);
      HistoryDecides(email, written, phase, command);
      match phase {
        case Absent => return Err(NotReserved);
        case AwaitingCode(current, expected) =>
          if current != accountId {
            return Err(NotCurrentAccountId);
          }
          if expected != code {
            return Err(InvalidVerificationCode);
          }
        case AwaitingProfile(current, _) => return Err(if current == accountId then AlreadyVerified else NotCurrentAccountId);
        case _ => return Err(AccountCreationStarted);
      }
      Write(EmailVerified(email, accountId, digest), sink, command);
      return Ok(());
    }

    method HandleSubmitProfile(email: Email, accountId: AccountId, digest: Digest, submitted: Profile,
                               sink: EventSink<ReservationEvent>)
      returns (r: ReservationResult)
      requires Valid() && email == this.email
      modifies this, sink
      ensures Valid() && Follows(DecideSubmit(old(phase), email, accountId, digest, submitted), r, old(sink.events), sink.events)
      ensures Extends(SubmitRegistrationProfile(email, accountId, digest, submitted), r, old(written), written, old(sink.events),
                      sink.events)
    {
      ghost var command := SubmitRegistrationProfile(email, accountId, digest, submitted);
      HistoryDecides(email, written, phase, command);
      var profile := NewProfile(submitted);
      match phase {
        case Absent => return Err(NotReserved);
        case AwaitingCode(current, _) => return Err(if current == accountId then NotAwaitingProfile else NotCurrentAccountId);
        case AwaitingProfile(current, expected) =>
          if current != accountId {
            return Err(NotCurrentAccountId);
          }
          if expected != digest {
            return Err(InvalidAccountCreationToken);
          }
        case _ =>
          if phase.accountId != accountId {
            return Err(NotCurrentAccountId);
          }
          if phase.consumedDigest != digest {
            return Err(InvalidAccountCreationToken);
          }
          return Err(ProfileAlreadySubmitted);
      }
      if profile.firstName == "" {
        return Err(EmptyFirstName);
      }
      if profile.lastName == "" {
        return Err(EmptyLastName);
      }
      if profile.dateOfBirth > profile.validationDate {
        return Err(FutureDateOfBirth);
      }
      Write(RegistrationProfileAccepted(email, accountId, digest, profile), sink, command);
      return Ok(());
    }

    method HandleRecordAccountCreated(email: Email, accountId: AccountId, profile: Profile, createdAt: Timestamp,
                                      sink: EventSink<ReservationEvent>)
      returns (r: ReservationResult)
      requires Valid() && email == this.email
      modifies this, sink
      ensures Valid() && Follows(DecideRecord(old(phase), email, accountId, profile, createdAt), r, old(sink.events), sink.events)
      ensures Extends(RecordAccountCreated(email, accountId, profile, createdAt), r, old(written), written, old(sink.events),
                      sink.events)
    {
      ghost var command := RecordAccountCreated(email, accountId, profile, createdAt);
      HistoryDecides(email, written, phase, command);
      if phase.CreatingAccount? && phase.accountId == accountId && phase.profile == profile {
        Write(AccountCreationCompleted(email, accountId, createdAt), sink, command);
        return Ok(());
      }
      if phase.AccountCreated? && phase.accountId == accountId && phase.profile == profile && phase.createdAt == createdAt {
        return Err(AccountCreationAlreadyCompleted);
      }
      if phase == Absent {
        return Err(NotReserved);
      }
      if phase.AwaitingCode? || phase.AwaitingProfile? {
        return Err(NotAwaitingProfile);
      }
      return Err(AccountCreationMismatch);
    }

    /** A command addressed to this stream. */
    method Handle(command: ReservationCommand, sink: EventSink<ReservationEvent>) returns (r: ReservationResult)
      requires Valid() && command.email == email
      modifies this, sink
      ensures Valid() && Follows(DecideReservation(old(phase), command), r, old(sink.events), sink.events)
      ensures Extends(command, r, old(written), written, old(sink.events), sink.events)
    {
      match command
      case ReserveEmail(email, accountId, code) => r := HandleReserve(email, accountId, code, sink);
      case RequestVerificationCode(email, accountId, code) => r := HandleRequestCode(email, accountId, code, sink);
      case VerifyEmail(email, accountId, code, digest) => r := HandleVerify(email, accountId, code, digest, sink);
      case SubmitRegistrationProfile(email, accountId, digest, profile) =>
        r := HandleSubmitProfile(email, accountId, digest, profile, sink);
      case RecordAccountCreated(email, accountId, profile, createdAt) =>
        r := HandleRecordAccountCreated(email, accountId, profile, createdAt, sink);
    }
  }

  function Facts(events: seq<ReservationEvent>): (facts: seq<Event>)
    ensures |facts| == |events|
    ensures forall i :: 0 <= i < |events| ==> facts[i] == ReservationFact(events[i])
  {
    seq(|events|, i requires 0 <= i < |events| => ReservationFact(events[i]))
  }

  // ---------- UserAccount ----------

  ghost predicate RepresentsAccount(accountId: AccountId, written: seq<Event>, created: Option<Account>) {
    Legal(AccountKey(accountId), written) && Replay(AccountKey(accountId), written) == Some(AccountState(created))
  }

  /** The account this command creates when the stream is still empty. */
  function NewAccount(command: AccountCommand, createdAt: Timestamp): Event {
    AccountFact(Account(command.accountId, command.email, NewProfile(command.profile), createdAt))
  }

  lemma FirstAccount(accountId: AccountId, command: AccountCommand)
    requires command.accountId == accountId && AcceptableProfile(command.profile)
    ensures RepresentsAccount(accountId, [NewAccount(command, command.createdAt)],
                              Some(NewAccount(command, command.createdAt).account))
  {
    var key, account := AccountKey(accountId), NewAccount(command, command.createdAt);
    assert KeyOf(ToAccount(command)) == key && Handle(AccountState(None), ToAccount(command)) == Ok(account);
    LegalExtend(key, [], account);
    assert [] + [account] == [account];
  }

  class UserAccount {
    var created: Option<Account>
    ghost const accountId: AccountId
    ghost var written: seq<Event>

    ghost predicate Valid()
      reads this
    {
      RepresentsAccount(accountId, written, created)
    }

    constructor (ghost accountId: AccountId)
      ensures Valid() && this.accountId == accountId && written == [] && created == None
    {
      created := None;
      this.accountId := accountId;
      written := [];
    }

    /** The only event assigns the whole record. */
    method Write(event: Account, sink: EventSink<Account>)
      modifies this, sink
      ensures created == Some(event) && written == old(written) + [AccountFact(event)]
      ensures sink.events == old(sink.events) + [event]
    {
      sink.events := sink.events + [event];
      created := Some(event);
      written := written + [AccountFact(event)];
    }

    /**
     * An empty stream accepts exactly the acceptable profiles and gets the one creation event, with both
     * names trimmed. Any other stream never changes, and a repeat is recognised exactly when address and
     * trimmed profile are those of the first creation, whatever its time.
     */
    method HandleCreateAccount(command: AccountCommand, sink: EventSink<Account>) returns (r: Result<(), AccountError>)
      requires Valid() && command.accountId == accountId
      modifies this, sink
      ensures Valid()
      ensures r.Ok? <==> old(written) == [] && AcceptableProfile(command.profile)
      ensures written == if r.Ok? then [NewAccount(command, command.createdAt)] else old(written)
      ensures sink.events == old(sink.events) + if r.Ok? then [NewAccount(command, command.createdAt).account] else []
      ensures r == Err(AlreadyCreated) <==> exists createdAt :: old(written) == [NewAccount(command, createdAt)]
      ensures r == Err(AlreadyExistsWithDifferentData) <==>
        old(written) != [] && forall createdAt :: old(written) != [NewAccount(command, createdAt)]
      ensures r == (match DecideAccount(old(created), command) case Ok(_) => Ok(()) case Err(error) => Err(error))
      ensures old(written) == [] ==>
        match r
        case Ok(_) => true
        case Err(error) =>
          if Trim(command.profile.firstName) == "" then error == BlankFirstName
          else if Trim(command.profile.lastName) == "" then error == BlankLastName
          else error == BornAfterValidation
    {
      AccountStream(accountId, written);
      var profile := command.profile;
      var firstName, lastName := Trim(profile.firstName), Trim(profile.lastName);
      if created.Some? {
        var existing := created.value;
        assert written == [AccountFact(existing)];
        if existing.accountId == command.accountId && existing.email == command.email && existing.profile.firstName == firstName
          && existing.profile.lastName == lastName && existing.profile.dateOfBirth == profile.dateOfBirth
          && existing.profile.validationDate == profile.validationDate
        {
          assert written == [NewAccount(command, existing.createdAt)];
          return Err(AlreadyCreated);
        }
        assert forall createdAt :: NewAccount(command, createdAt) != AccountFact(existing);
        return Err(AlreadyExistsWithDifferentData);
      }
      if firstName == "" {
        return Err(BlankFirstName);
      }
      if lastName == "" {
        return Err(BlankLastName);
      }
      if profile.dateOfBirth > profile.validationDate {
        return Err(BornAfterValidation);
      }
      FirstAccount(accountId, command);
      Write(Account(command.accountId, command.email,
                    Profile(firstName, lastName, profile.dateOfBirth, profile.validationDate), command.createdAt), sink);
      return Ok(());
    }
  }
}
