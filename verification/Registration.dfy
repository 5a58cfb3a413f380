/** The two aggregates of the registration workflow: their state, commands, events and decisions. */
module Registration {
  import opened Text
  import opened Wrappers

  /** A canonical address; parsing and lower-casing happen before it is built. */
  datatype Email = Email(address: string)
  datatype AccountId = AccountId(uuid: nat)
  /** Hex SHA-256 of an account-creation token; only equality is ever used. */
  type Digest = string
  /** Calendar days and UTC instants, ordered as integers. */
  type Date = int
  type Timestamp = int

  datatype Profile = Profile(firstName: string, lastName: string, dateOfBirth: Date, validationDate: Date)

  /** `RegistrationProfile::new`: both names are trimmed. */
  function NewProfile(profile: Profile): Profile {
    profile.(firstName := Trim(profile.firstName), lastName := Trim(profile.lastName))
  }

  /** What both aggregates demand of a profile before they accept it. */
  predicate AcceptableProfile(profile: Profile) {
    && Trim(profile.firstName) != ""
    && Trim(profile.lastName) != ""
    && profile.dateOfBirth <= profile.validationDate
  }

  lemma NewProfileFixpoint(profile: Profile)
    ensures NewProfile(NewProfile(profile)) == NewProfile(profile)
    ensures AcceptableProfile(NewProfile(profile)) <==> AcceptableProfile(profile)
  {
    TrimFixpoints(profile.firstName);
    TrimFixpoints(profile.lastName);
  }

  // ---------- EmailReservation, keyed by email ----------

  datatype Phase =
    | Absent
    | AwaitingCode(accountId: AccountId, verificationCode: nat)
    | AwaitingProfile(accountId: AccountId, tokenDigest: Digest)
    | CreatingAccount(accountId: AccountId, consumedDigest: Digest, profile: Profile)
    | AccountCreated(accountId: AccountId, consumedDigest: Digest, profile: Profile, createdAt: Timestamp)

  datatype ReservationEvent =
    | EmailReserved(email: Email, accountId: AccountId, verificationCode: nat)
    | VerificationCodeRequested(email: Email, accountId: AccountId, verificationCode: nat)
    | VerificationRestarted(email: Email, accountId: AccountId, verificationCode: nat)
    | EmailVerified(email: Email, accountId: AccountId, tokenDigest: Digest)
    | RegistrationProfileAccepted(email: Email, accountId: AccountId, consumedDigest: Digest, profile: Profile)
    | AccountCreationCompleted(email: Email, accountId: AccountId, createdAt: Timestamp)

  datatype ReservationCommand =
    | ReserveEmail(email: Email, accountId: AccountId, verificationCode: nat)
    | RequestVerificationCode(email: Email, accountId: AccountId, verificationCode: nat)
    | VerifyEmail(email: Email, accountId: AccountId, code: nat, tokenDigest: Digest)
    | SubmitRegistrationProfile(email: Email, accountId: AccountId, tokenDigest: Digest, profile: Profile)
    | RecordAccountCreated(email: Email, accountId: AccountId, profile: Profile, createdAt: Timestamp)

  datatype ReservationError =
    | AlreadyReserved | NotReserved | NotCurrentAccountId | AlreadyVerified
    | InvalidVerificationCode | InvalidVerificationCodeFormat | AccountIdUnchanged
    | NotAwaitingProfile | InvalidAccountCreationToken | ProfileAlreadySubmitted
    | EmptyFirstName | EmptyLastName | FutureDateOfBirth
    | AccountCreationStarted | AccountCreationMismatch | AccountCreationAlreadyCompleted

  type ReservationDecision = Result<ReservationEvent, ReservationError>

  /** Seven decimal digits. */
  predicate CodeFormat(code: nat) {
    1_000_000 <= code <= 9_999_999
  }

  function DecideReserve(phase: Phase, email: Email, accountId: AccountId, code: nat): ReservationDecision {
    if phase != Absent then Err(AlreadyReserved)
    else if !CodeFormat(code) then Err(InvalidVerificationCodeFormat)
    else Ok(EmailReserved(email, accountId, code))
  }

  function DecideRequestCode(phase: Phase, email: Email, accountId: AccountId, code: nat): ReservationDecision {
    if phase == Absent then Err(NotReserved)
    else if phase.accountId == accountId then Err(AccountIdUnchanged)
    else if !CodeFormat(code) then Err(InvalidVerificationCodeFormat)
    else match phase
      case AwaitingCode(_, _) => Ok(VerificationCodeRequested(email, accountId, code))
      case AwaitingProfile(_, _) => Ok(VerificationRestarted(email, accountId, code))
      case CreatingAccount(_, _, _) => Err(AccountCreationStarted)
      case AccountCreated(_, _, _, _) => Err(AccountCreationStarted)
      case Absent => assert false; Err(NotReserved)
  }

  function DecideVerify(phase: Phase, email: Email, accountId: AccountId, code: nat, digest: Digest): ReservationDecision {
    match phase
    case Absent => Err(NotReserved)
    case AwaitingCode(current, expected) =>
      if current != accountId then Err(NotCurrentAccountId)
      else if expected != code then Err(InvalidVerificationCode)
      else Ok(EmailVerified(email, accountId, digest))
    case AwaitingProfile(current, _) =>
      if current == accountId then Err(AlreadyVerified) else Err(NotCurrentAccountId)
    case _ => Err(AccountCreationStarted)
  }

  function DecideSubmit(phase: Phase, email: Email, accountId: AccountId, digest: Digest, submitted: Profile): ReservationDecision {
    var profile := NewProfile(submitted);
    match phase
    case Absent => Err(NotReserved)
    case AwaitingCode(current, _) =>
      if current == accountId then Err(NotAwaitingProfile) else Err(NotCurrentAccountId)
    case AwaitingProfile(current, expected) =>
      if current != accountId then Err(NotCurrentAccountId)
      else if expected != digest then Err(InvalidAccountCreationToken)
      else if profile.firstName == "" then Err(EmptyFirstName)
      else if profile.lastName == "" then Err(EmptyLastName)
      else if profile.dateOfBirth > profile.validationDate then Err(FutureDateOfBirth)
      else Ok(RegistrationProfileAccepted(email, accountId, digest, profile))
    case _ =>
      if phase.accountId != accountId then Err(NotCurrentAccountId)
      else if phase.consumedDigest != digest then Err(InvalidAccountCreationToken)
      else Err(ProfileAlreadySubmitted)
  }

  function DecideRecord(phase: Phase, email: Email, accountId: AccountId, profile: Profile, createdAt: Timestamp): ReservationDecision {
    match phase
    case Absent => Err(NotReserved)
    case AwaitingCode(_, _) => Err(NotAwaitingProfile)
    case AwaitingProfile(_, _) => Err(NotAwaitingProfile)
    case CreatingAccount(current, _, accepted) =>
      if current == accountId && accepted == profile
      then Ok(AccountCreationCompleted(email, accountId, createdAt))
      else Err(AccountCreationMismatch)
    case AccountCreated(current, _, accepted, original) =>
      if current == accountId && accepted == profile && original == createdAt
      then Err(AccountCreationAlreadyCompleted)
      else Err(AccountCreationMismatch)
  }

  function DecideReservation(phase: Phase, command: ReservationCommand): ReservationDecision {
    match command
    case ReserveEmail(email, accountId, code) => DecideReserve(phase, email, accountId, code)
    case RequestVerificationCode(email, accountId, code) => DecideRequestCode(phase, email, accountId, code)
    case VerifyEmail(email, accountId, code, digest) => DecideVerify(phase, email, accountId, code, digest)
    case SubmitRegistrationProfile(email, accountId, digest, profile) => DecideSubmit(phase, email, accountId, digest, profile)
    case RecordAccountCreated(email, accountId, profile, createdAt) => DecideRecord(phase, email, accountId, profile, createdAt)
  }

  /** `apply` panics on a completion unless a profile was accepted. */
  predicate ReservationApplicable(phase: Phase, event: ReservationEvent) {
    event.AccountCreationCompleted? ==> phase.CreatingAccount?
  }

  function ApplyReservation(phase: Phase, event: ReservationEvent): Phase
    requires ReservationApplicable(phase, event)
  {
    match event
    case EmailReserved(_, accountId, code) => AwaitingCode(accountId, code)
    case VerificationCodeRequested(_, accountId, code) => AwaitingCode(accountId, code)
    case VerificationRestarted(_, accountId, code) => AwaitingCode(accountId, code)
    case EmailVerified(_, accountId, digest) => AwaitingProfile(accountId, digest)
    case RegistrationProfileAccepted(_, accountId, digest, profile) => CreatingAccount(accountId, digest, profile)
    case AccountCreationCompleted(_, accountId, createdAt) =>
      AccountCreated(accountId, phase.consumedDigest, phase.profile, createdAt)
  }

  // ---------- UserAccount, keyed by account id ----------

  datatype Account = Account(accountId: AccountId, email: Email, profile: Profile, createdAt: Timestamp)

  datatype AccountCommand = CreateAccount(accountId: AccountId, email: Email, profile: Profile, createdAt: Timestamp)

  datatype AccountError = AlreadyCreated | AlreadyExistsWithDifferentData | BlankFirstName | BlankLastName | BornAfterValidation

  /** The only account event carries the whole account record. */
  function DecideAccount(created: Option<Account>, command: AccountCommand): Result<Account, AccountError> {
    var profile := NewProfile(command.profile);
    match created
    case Some(existing) =>
      // A newly supplied creation time is deliberately not compared.
      if existing.accountId == command.accountId && existing.email == command.email && existing.profile == profile
      then Err(AlreadyCreated)
      else Err(AlreadyExistsWithDifferentData)
    case None =>
      if profile.firstName == "" then Err(BlankFirstName)
      else if profile.lastName == "" then Err(BlankLastName)
      else if profile.dateOfBirth > profile.validationDate then Err(BornAfterValidation)
      else Ok(Account(command.accountId, command.email, profile, command.createdAt))
  }
}
