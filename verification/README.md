# Verified model of the registration service and its CQRS runtime

This project models two connected Rust crates: a service that registers user accounts by email, and the CQRS
runtime it is built on. The model has four parts.

**Registration saga.** Two event-sourced aggregates, `EmailReservation` (one stream per email) and `UserAccount`
(one stream per account id), are joined only by outbox tasks that commit with their events and are delivered at
least once, in any order, with lost replies. `Registration` holds the decisions, `Streams` their histories,
`Saga` the serial machine and its cross-aggregate invariant, and `Services` what each request adds to the
streams, when, and how stored events go back to requests; `Aggregates` is the same domain as objects whose
handlers write through an event sink.

**Optimistic event store.** `EventStore` interleaves any number of command attempts: read a snapshot, read the
tail, decide, persist event, snapshot and tasks in one statement, start over after a conflict, lose the reply.
`Refinement` proves that every such run equals a serial run of `Saga`; `Guarantees` restates what that means for
the tables. `EventRepository` is the repository as an object. `SoloExecution` says exactly when one undisturbed
execution commits and what it answers, `Conflicts` what becomes of a write that loses a race, `SnapshotRows` how
many snapshot rows a stream has and when it stops, and `Walks`, `SnapshotCompletion` and `SnapshotFork` build
the runs in which the snapshot path fails.

**Lease-fenced queue.** `TaskQueue` interleaves claim, settlement (lock first, then clock), recovery and manual
requeue as transactions with row locks, commits, rollbacks and a ticking database clock. `QueueSafety` is its
invariant, `QueueGuarantees` the fencing, conservation and no-loss theorems over all runs, `QueueProgress` the
recoveries, settlements and deliveries that are possible from every reachable state, and `QueueAdapter` the
adapter's operations over one table.

**Worker pool and lease budget.** `LeaseBudget` is the checked arithmetic of configuration, planning and
deadlines; `Poller` the rotating producer; `WorkerPool` the bounded FIFO with its workers, crashes, restarts and
shutdown; `PoolProgress` what it can always do and what a shutdown ends; `HealthyPool` the scheduling theorem
behind the configured inequality; `EndToEnd` joins it to the database expiry. `Executor`, `Retry` and `Routing`
model one invocation, the conflict retry loop and the dispatchers.

Every machine is a step function in which a disabled step changes nothing, so a theorem about all sequences of
steps is a theorem about all schedules. `Text`, `Wrappers`, `Integers`, `Modular`, `Counting` and `Identifiers`
are helpers.

## Results that contradict the documentation

**Completion on the snapshot interval.** `cqrs-runtime/README.md:125-127` and
`doc/known_issues/cqrs_snapshot_event_reapplication.md:24-27` say that both aggregates tolerate the second
`apply` that the snapshot path makes. That holds for every event except `AccountCreationCompleted`: its `apply`
requires the phase `CreatingAccount`, which the first application has just left, so the second one panics before
anything is written. `Refinement.SecondApply` states both halves. A registration that waits for its completion
can be completed by some continuation if and only if the sequence number of the completion is not a multiple of
the snapshot interval, and for every interval, including the default 25, there is a run whose registration is
never completed (`SnapshotCompletion`).

**Two snapshot rows of one version.** The snapshot table is keyed by stream and last sequence number
(`cqrs-runtime/sql/001-event-store.sql:13-21`), the first snapshot is inserted without looking for another row,
and a later one replaces the rows that carry the version before it and must find exactly one. A load makes two
reads. If it finds no snapshot, then the first snapshot of its stream commits, and then it reads the tail, it
can still insert a second row of version 1. Unless yet another such load is open, every later snapshot of that
stream is then an optimistic conflict, and the stream never reaches its next interval.
`SnapshotFork.SomeStreamsStop` gives such a run for every interval, `SnapshotRows.BlockedStreamStops` proves the
stop for all continuations, and `SnapshotRows.SingleRowWithoutStraddling` proves that streams keep one row in
all runs without such a load; there nothing but a completion is hindered (`Walks.SnugHindersOnlyCompletions`).
At the commit the condition is exact: a second row appears if and only if a first snapshot is inserted beside an
existing row (`SnapshotRows.CommitRegular`).

An undisturbed execution therefore has its serial effect exactly under the condition of `SoloExecution.Serve`.
Safety is not affected: every run, these included, refines a serial one.

## Assumptions

- The command loop of `cqrs-es` is taken from `cqrs-runtime/doc/architecture.md`, lines 212 to 243, and its
  double apply from the known issue named above. A snapshot is due when the new sequence number is a
  multiple of the interval, as `cqrs-runtime/tests/postgres/command_factory.rs`, lines 248 to 283, shows.
- Each SQL statement is one atomic guarded update, except that settlement takes the row lock in one step and
  reads the clock in a later one. `SKIP LOCKED` selections may return any eligible unlocked rows.
- Generated account ids, codes, digests, task ids and delivery times are parameters. Claim tokens are fresh.
- Digests, JSON payloads and parsed emails are compared only for equality.
- A healthy pool is one in which a claim answers within the storage timeout S, an invocation ends within
  H + S (a crashed worker is replaced within the same time), and no time passes while a worker is idle and a
  delivery is waiting. The two clocks run at one rate and differ by a constant.

## Model

| member | source | states |
|---|---|---|
| `Text.TrimFixpoints` | account-managements-service/src/domain/email_reservation.rs:28-29 | trimming is idempotent, and a string is unchanged by it exactly when it has no whitespace at either end |
| `Text.TrimStrips` | account-managements-service/src/domain/email_reservation.rs:28-29 | the trimmed text is the only one without blank ends that remains when a blank prefix and a blank suffix are taken off |
| `Registration.NewProfileFixpoint` | account-managements-service/src/domain/email_reservation.rs:25-34 | a normalised profile is a fixpoint of normalisation, and normalising never changes whether a profile is acceptable |
| `Aggregates.EmailReservation.Load` | cqrs-runtime/doc/architecture.md:219-222 | rebuilding the aggregate from any stored legal stream never panics and gives the state its handlers left when they wrote it |
| `Aggregates.EmailReservation.Apply` | account-managements-service/src/domain/email_reservation/aggregate.rs:59-116 | keeps the phase the replay of all events applied so far |
| `Aggregates.EmailReservation.Write` | account-managements-service/src/domain/email_reservation/commands.rs:52-60 | a decided event is recorded and applied at once, and keeps the phase the replay of the longer, still legal stream |
| `Aggregates.EmailReservation.HandleReserve` | account-managements-service/src/domain/email_reservation/commands.rs:41-62 | accepts exactly on an empty stream with a seven-digit code, and extends stream and sink by that reservation; otherwise changes nothing |
| `Aggregates.EmailReservation.HandleRequestCode` | account-managements-service/src/domain/email_reservation/commands.rs:64-94 | accepts exactly after an issuance or a verification for another account id, with a seven-digit code, and extends stream and sink by a request or a restart; the unreachable arm is unreachable |
| `Aggregates.EmailReservation.HandleVerify` | account-managements-service/src/domain/email_reservation/commands.rs:96-138 | accepts exactly when the last fact of the stream issued this id and code, and extends stream and sink by the verification |
| `Aggregates.EmailReservation.HandleSubmitProfile` | account-managements-service/src/domain/email_reservation/commands.rs:140-213 | accepts exactly when the last fact verified this id and digest and the profile is acceptable, and extends stream and sink by the normalised profile |
| `Aggregates.EmailReservation.HandleRecordAccountCreated` | account-managements-service/src/domain/email_reservation/commands.rs:215-253 | accepts exactly when the last fact accepted this id and profile, and extends stream and sink by the completion |
| `Aggregates.EmailReservation.Handle` | account-managements-service/src/domain/email_reservation/aggregate.rs:12-57 | for every command the phase stays the replay of a legal stream, which grows by exactly what was put in the sink; a rejection changes nothing |
| `Aggregates.UserAccount.HandleCreateAccount` | account-managements-service/src/domain/user_account/commands.rs:21-73 | an empty stream accepts exactly the acceptable profiles; a repeat is recognised exactly when address and trimmed profile are those of the first creation; the stream stays legal and an existing account never changes |
| `Streams.EmittedApplies` | account-managements-service/src/domain/email_reservation/aggregate.rs:59-116 | every event a decision emits is inside the domain of apply |
| `Streams.ReplayTotal` | account-managements-service/src/domain/email_reservation/aggregate.rs:59-116 | no stream produced by handle reaches the apply panic when it is replayed |
| `Streams.ReplayConcat` | cqrs-runtime/doc/architecture.md:216-222 | replaying a concatenation is replaying its tail on the state of its head |
| `Streams.ReservationTail` | account-managements-service/src/domain/email_reservation/aggregate.rs:59-116 | the phase of every legal stream is determined by its last one or two facts; the active pair is that of the last issuance |
| `Streams.AcceptanceIsFinal` | account-managements-service/src/domain/email_reservation/commands.rs:140-213 | after an acceptance only the completion can follow |
| `Streams.CompletionIsLast` | account-managements-service/src/domain/email_reservation/commands.rs:215-253 | a completion directly follows the acceptance of the same account id and ends its stream |
| `Streams.AcceptanceIsNormal` | account-managements-service/src/domain/email_reservation/commands.rs:148-153 | every accepted profile is normalised, acceptable and under its own email |
| `Streams.AcceptanceIsKept` | account-managements-service/src/domain/email_reservation/aggregate.rs:87-114 | once accepted, account id, digest and profile stay in the phase for ever |
| `Streams.StreamGrammar` | account-managements-service/src/domain/email_reservation/commands.rs:41-253 | every legal stream has at most one acceptance and one completion, in that order at its end, and keeps what was accepted |
| `Streams.AcceptedExactlyAfter` | account-managements-service/src/domain/email_reservation/commands.rs:41-253 | for every legal history a command is accepted if and only if the last fact admits it, and adds the fact determined by the two: verification only for the pair issued last, submission only for the digest verified last, completion only for the accepted profile; the last facts also determine the reason of every refusal |
| `Streams.AccountStream` | account-managements-service/src/domain/user_account/commands.rs:32-58 | an account stream is empty or one creation fact for its own id |
| `Saga.TasksAreFollowUp` | account-managements-service/src/application/user_account/service.rs:92-146 | a task that a service attaches to a command is exactly the follow-up of the event that command produces |
| `Saga.CreateTaskGrounded` | account-managements-service/src/application/user_account/service.rs:105-111 | a CreateAccount task comes from an acceptance with the same email, id and profile |
| `Saga.RecordTaskGrounded` | account-managements-service/src/application/user_account/service.rs:123-141 | a RecordAccountCreated task comes from the account stream holding exactly that record |
| `Saga.ExecutePreserves` | account-managements-service/src/application/user_account/service.rs:92-160 | one request, executed alone, keeps the cross-aggregate invariant |
| `Saga.SerialRunsAreSafe` | account-managements-service/src/application/user_account/service.rs:92-160 | the cross-aggregate invariant holds after every serial run with any redelivery and order |
| `Saga.AcceptedOnce` | account-managements-service/src/domain/email_reservation/commands.rs:163-191 | one email accepts one account id with one profile |
| `Saga.CompletedReservationHasItsAccount` | account-managements-service/src/application/user_account/service.rs:122-160 | a reservation in AccountCreated has its account with equal id, email, profile and creation time |
| `Saga.OneAccountPerEmail` | account-managements-service/src/application/user_account/service.rs:122-146 | two account ids never hold the same email |
| `Saga.RecordDelivery` | account-managements-service/src/application/user_account/service.rs:148-160 | delivering a committed RecordAccountCreated task either completes or reports that it is already completed |
| `Saga.CreateDelivery` | account-managements-service/src/application/user_account/service.rs:122-146 | delivering a committed CreateAccount task creates the account, or finds it created, or finds the id owned by another email |
| `Services.ReservationAdds` | account-managements-service/src/application/email_reservation/use_cases/reserve_email.rs:12-34 | reserving adds the reservation of this id and code with its send task exactly when the stream is empty, the code has seven digits and the task id is free |
| `Services.NewCodeAdds` | account-managements-service/src/application/email_reservation/use_cases/request_new_verification_code.rs:12-34 | a new pair with its send task is added exactly after an issuance or a verification of another id, as a request or as a restart |
| `Services.ConfirmationAdds` | account-managements-service/src/application/email_reservation/use_cases/confirm_email.rs:12-31 | a verification with this digest is added exactly when the last fact issued this id and code |
| `Services.SubmissionAdds` | account-managements-service/src/application/user_account/service.rs:92-121 | an acceptance with both names trimmed and both dates as submitted, and the task with the same profile, are added exactly when the last fact verified this id and digest and the profile is acceptable |
| `Services.CreationAdds` | account-managements-service/src/application/user_account/service.rs:122-147 | delivering a creation task adds the account it describes, created at the time of delivery, with the record task of the same data, exactly when the account stream is empty |
| `Services.RecordingAdds` | account-managements-service/src/application/user_account/service.rs:149-160 | delivering a record task adds the completion with its id and creation time exactly when an acceptance is the last fact |
| `Services.ExecuteAddsExactly` | account-managements-service/src/application/user_account/service.rs:92-160 | for every ledger of the saga and every request: the event and task added, and when, by the request and the stored facts alone |
| `Services.RefusedBeforeLoading` | account-managements-service/src/application/email_reservation/use_cases/confirm_email.rs:19-21 | exactly which requests are refused before a stream is loaded |
| `Services.EveryEventWasRequested` | cqrs-runtime/src/command/executor.rs:38-57 | in every concurrent run each stored event repeats the data of the request of one attempt, no attempt writes two events, and every attempt reported as accepted wrote one |
| `Services.AcceptedProfileWasSubmitted` | account-managements-service/src/application/user_account/service.rs:92-111 | in every concurrent run a stored acceptance repeats the submitted profile of one attempt, with only its names trimmed |
| `EventRepository.InsertTasks` | cqrs-runtime/src/postgres/event_repository_with_outbox/write.rs:88-106 | one outbox row for each task, or none at all exactly when an id is taken or repeated |
| `EventRepository.Repository.PersistOne` | cqrs-runtime/src/postgres/event_repository_with_outbox/write.rs:61-131 | snapshot, event and tasks are written together or not at all; success, optimistic conflict and unknown error are each given exactly under their condition on the three tables |
| `EventRepository.Repository.Persist` | cqrs-runtime/src/postgres/event_repository_with_outbox/repository.rs:39-52 | exactly when a write succeeds and exactly when it is an optimistic conflict, over the limits and the tables; then one event with its snapshot and all its tasks, otherwise no change |
| `EventRepository.SnapshotStaysInStream` | cqrs-runtime/src/postgres/event_repository_with_outbox/write.rs:10-52 | a snapshot write touches only rows of its own stream |
| `Refinement.SecondApply` | account-managements-service/src/domain/email_reservation/aggregate.rs:59-116 | applying a just applied event again changes nothing, except that for a completion it is outside apply |
| `Refinement.LoadIsReplay` | cqrs-runtime/doc/architecture.md:217-222 | snapshot plus tail loads the replay of the whole stream, even when the two reads see different states |
| `Refinement.DecisionOk` | cqrs-runtime/doc/architecture.md:223-235 | what an attempt prepares is what handle accepts on the replay of exactly its prefix, and a snapshot prepared by the double apply is the true next state |
| `Refinement.WinnerIsCurrent` | cqrs-runtime/src/postgres/event_repository_with_outbox/write.rs:71-116 | a write succeeds only if its prefix is the whole committed stream |
| `Refinement.WinnerCommits` | cqrs-runtime/src/postgres/event_repository_with_outbox/write.rs:61-116 | a successful write has the effect of executing its command serially |
| `Refinement.PersistOk` | cqrs-runtime/src/postgres/event_repository_with_outbox/write.rs:61-131 | a successful write keeps event, snapshot and outbox tables in agreement with the serial ledger |
| `Refinement.NextSim` | cqrs-runtime/src/command/executor.rs:38-57 | every step of every attempt keeps the tables equal to the ledger of the serial execution |
| `Refinement.RefinesSerialExecution` | cqrs-runtime/src/command/executor.rs:38-57 | every run of concurrent load, decide and persist steps, with lost replies and conflict retries, equals the serial execution of its winners in commit order |
| `Guarantees.StreamsAreSerial` | cqrs-runtime/src/postgres/event_repository_with_outbox/write.rs:61-131 | in every run each stream is gap-free and each event is accepted by handle on exactly its prefix |
| `Guarantees.TasksExactlyWithEvents` | cqrs-runtime/src/postgres/event_repository_with_outbox/write.rs:88-116 | in every run an event has exactly its follow-up task in the outbox and no task exists without its event |
| `Guarantees.IssuedPairIsSentOnce` | account-managements-service/src/application/email_reservation/use_cases/request_new_verification_code.rs:17-34 | every issuance event has exactly one send task with the same address, account id and code |
| `Guarantees.TriesAreBounded` | cqrs-runtime/src/command/retry.rs:77-95 | no attempt executes more often than the policy allows |
| `Guarantees.CompletedRegistrationAgrees` | account-managements-service/src/application/user_account/service.rs:92-160 | in every concurrent run a completed registration has its account with identical data |
| `Guarantees.EmailsAreUnique` | account-managements-service/src/application/user_account/service.rs:122-146 | in every concurrent run two accounts with one email are the same account |
| `Guarantees.RecordNeverFailsForGood` | account-managements-service/src/application/user_account/service.rs:148-160 | a delivered record task is never reported as failed for good, is reported as done exactly when it reached a decision, and then its completion is stored; otherwise it is retried or panics |
| `Guarantees.CreateFailsExactlyOnForeignId` | account-managements-service/src/application/user_account/service.rs:141-145 | a delivered creation task that reached a decision is reported as failed for good if and only if another email owns the id, and otherwise as done with the account it describes stored; without a decision it is retried |
| `Guarantees.SnapshotAgreesWithReplay` | cqrs-runtime/src/postgres/command_factory.rs:58-60 | in every run each stored snapshot equals the replay of its prefix, and snapshot plus tail equals full replay |
| `SoloExecution.CommitsExactly` | cqrs-runtime/src/postgres/event_repository_with_outbox/write.rs:61-116 | exactly when the write an attempt decides on the whole stream succeeds |
| `SoloExecution.Try` | cqrs-runtime/doc/architecture.md:212-243 | one undisturbed try, after any number of earlier ones, has its serial effect exactly when nothing hinders it, and its answer is the one the stream, the due snapshot and the task ids determine |
| `SoloExecution.Serve` | cqrs-runtime/src/command/executor.rs:38-57 | for every request and whichever snapshot row its load returns, an undisturbed execution commits exactly its serial effect unless its event is due for a snapshot and is a completion or the version read is not carried by exactly one row; then it writes nothing |
| `Conflicts.PersistAnswers` | cqrs-runtime/src/postgres/event_repository_with_outbox/write.rs:108-131 | a prepared write is an optimistic conflict exactly when it lost the event key or the snapshot version, and an unknown error exactly when only a task id is taken or repeated |
| `Conflicts.PersistMoves` | cqrs-runtime/src/command/retry.rs:77-95 | after a lost race the attempt starts over with the same command and tasks and one more try, or ends as a conflict when none is left; any other answer ends it, a lost reply as unavailable |
| `Conflicts.DisconnectEnds` | cqrs-runtime/src/command/executor.rs:38-57 | a lost connection ends an unfinished attempt as unavailable, wherever it stands, and changes no table |
| `Conflicts.LoserTriesAgain` | cqrs-runtime/src/command/retry.rs:77-95 | in every run a loser within its budget, left alone for one try, commits the serial effect of its request on what the winners left, exactly when nothing hinders it |
| `SnapshotRows.CommitRegular` | cqrs-runtime/src/postgres/event_repository_with_outbox/write.rs:13-51 | a commit keeps one snapshot row in its stream, versioned by the intervals passed, if and only if it does not insert beside an existing row |
| `SnapshotRows.SingleRowWithoutStraddling` | cqrs-runtime/doc/architecture.md:217-222 | every stream keeps a single snapshot row in every run in which no load reads its tail after a first snapshot that its own snapshot query missed |
| `SnapshotRows.BlockedStreamStops` | cqrs-runtime/src/postgres/event_repository_with_outbox/write.rs:31-51 | once every version of a stream is carried by several rows and no attempt holds an older one, no continuation ever adds an event due for a snapshot |
| `Walks.SnugHindersOnlyCompletions` | cqrs-runtime/src/postgres/command_factory.rs:58-60 | in runs without such loads nothing but a completion due for a snapshot is hindered |
| `SnapshotFork.Fork` | cqrs-runtime/src/postgres/event_repository_with_outbox/write.rs:13-31 | a load that straddles the first snapshot inserts a second row of the same version and blocks its stream |
| `SnapshotFork.SomeStreamsStop` | cqrs-runtime/sql/001-event-store.sql:13-21 | for every snapshot interval some run leaves a waiting reservation whose stream never reaches a third interval in any continuation |
| `SnapshotCompletion.CompletionNeverLandsOnInterval` | cqrs-runtime/src/postgres/command_factory.rs:58-60 | no run ever commits a completion as an event that takes a snapshot |
| `SnapshotCompletion.OnlyCompletionsPanic` | account-managements-service/src/domain/email_reservation/aggregate.rs:97-107 | an attempt panics only when it records a completion that would take a snapshot |
| `SnapshotCompletion.CompletableExactlyOffInterval` | account-managements-service/src/domain/email_reservation/aggregate.rs:97-114 | a waiting registration can be completed by some continuation if and only if its completion is not due for a snapshot |
| `SnapshotCompletion.NeverCompletes` | account-managements-service/src/domain/email_reservation/aggregate.rs:97-114 | a completion due for a snapshot is never recorded by any continuation |
| `SnapshotCompletion.SomeRegistrationsNeverComplete` | cqrs-runtime/src/postgres/command_factory.rs:43-60 | for every snapshot interval some run creates an account whose registration no continuation completes |
| `QueueSafety.LegalKeepsValid` | cqrs-runtime/sql/002-transactional-outbox.sql:22-26 | claim, settlement, recovery and requeue all keep the table constraints |
| `QueueSafety.LegalDecreases` | cqrs-runtime/src/postgres/task_queue/settlement.rs:81-82 | every change except a manual requeue strictly decreases 2(max - attempts), plus 1 while processing, 0 when terminal |
| `QueueSafety.NextKeepsInvariant` | cqrs-runtime/src/postgres/task_queue/settlement.rs:64-97 | every step of every interleaving keeps constraints, disjoint row locks, token conservation and attempt counts |
| `QueueSafety.RunsKeepInvariant` | cqrs-runtime/src/postgres/task_queue/recovery.rs:45-85 | the same for every reachable state |
| `QueueGuarantees.RunsAreChained` | cqrs-runtime/src/postgres/task_queue/claim.rs:60-83 | the committed changes of a row form one chain from its publication to its current contents |
| `QueueGuarantees.AtMostOneLeave` | cqrs-runtime/src/postgres/task_queue/settlement.rs:74-87 | under one claim token at most one committed change ever takes the row out of processing |
| `QueueGuarantees.TokenConservation` | cqrs-runtime/src/postgres/task_queue/claim.rs:68-71 | a token belongs to one row, is claimed at most once, and is either still held or has left exactly once |
| `QueueGuarantees.LeavesEndTheirClaim` | cqrs-runtime/src/postgres/task_queue/settlement.rs:71-87 | every leave ends exactly the lease of its own claim: a settlement with that token whose clock was read after the lock and before expiry, or a recovery after expiry |
| `QueueGuarantees.NoEarlyRedelivery` | cqrs-runtime/src/postgres/task_queue/settlement.rs:82-83 | a row is claimed again only after a retry, recovery or requeue, and not before the delay that change set |
| `QueueGuarantees.StaleTokensChangeNothing` | cqrs-runtime/src/postgres/task_queue/settlement.rs:75-78 | once a claimed token is no longer the row's token, no continuation ever changes the row under it |
| `QueueGuarantees.StaleSettlementIsEmpty` | cqrs-runtime/src/postgres/task_queue/settlement.rs:75-78 | settling with a token the row does not hold locks and changes nothing |
| `QueueGuarantees.LeaseIsExclusive` | cqrs-runtime/src/postgres/task_queue/recovery.rs:48-53 | until it expires, a lease is ended by nothing but a settlement with its own token |
| `QueueGuarantees.LiveLeaseContention` | cqrs-runtime/src/postgres/task_queue/recovery.rs:48-53 | only settlements with the lease's own token can hold the lock of a row whose lease is live |
| `QueueGuarantees.HolderIsUndisturbed` | cqrs-runtime/src/postgres/task_queue/settlement.rs:71-79 | while only others step, a transaction that holds a row lock keeps its own record and that row |
| `QueueGuarantees.SettlementDecidedByClock` | cqrs-runtime/src/postgres/task_queue/settlement.rs:71-87 | whatever steps of others fall between lock, check and commit, a settlement that has the lock settles every field of its row as requested if its clock reads before expiry, a retry with attempts left to pending after its delay, and leaves the row alone otherwise |
| `QueueGuarantees.TasksPersist` | cqrs-runtime/sql/002-transactional-outbox.sql:1-27 | a published task is never removed and keeps its format and limit |
| `QueueGuarantees.TerminalIsAbsorbing` | cqrs-runtime/sql/requeue-failed-outbox.sql:3-7 | a completed task never changes, a failed one only by a manual requeue of it |
| `QueueGuarantees.NoTaskIsLost` | cqrs-runtime/sql/002-transactional-outbox.sql:22-26 | in every reachable state a task is pending with attempts left, processing under a complete lease, or terminal with a finish time and no lease |
| `QueueGuarantees.ClaimsAreBounded` | cqrs-runtime/src/postgres/task_queue/claim.rs:68-71 | since its publication or last requeue a task is claimed exactly attempts times, at most max_attempts, and changes at most twice that |
| `QueueGuarantees.PublishedTasksWait` | cqrs-runtime/src/postgres/event_repository_with_outbox/write.rs:88-106 | publishing adds exactly the pending row described, which then waits unchanged until a claim made when it is due |
| `QueueGuarantees.ClaimsAreSelective` | cqrs-runtime/src/postgres/task_queue/claim.rs:60-71 | a claim takes only pending, due and unlocked rows of its own format, at most its limit, each under a fresh token of its own |
| `QueueGuarantees.RecoveriesAreSelective` | cqrs-runtime/src/postgres/task_queue/recovery.rs:48-53 | a recovery locks a set of rows exactly when each is processing, expired and locked by nobody |
| `QueueGuarantees.RecoveriesAreComplete` | cqrs-runtime/src/postgres/task_queue/recovery.rs:60-84 | a recovery that commits has recovered every row it selected |
| `QueueProgress.EveryLeaseCanBeRecovered` | cqrs-runtime/src/postgres/task_queue/recovery.rs:45-85 | from every reachable state some continuation recovers a processing task: pending after the delay if attempts are left, failed otherwise |
| `QueueProgress.EveryLiveLeaseCanBeSettled` | cqrs-runtime/src/postgres/task_queue/settlement.rs:64-97 | from every reachable state in which a lease has time left some continuation settles it with any request, counted from the moment it asks |
| `QueueProgress.EveryPendingTaskCanBeClaimed` | cqrs-runtime/src/postgres/task_queue/claim.rs:43-90 | from every reachable state some continuation claims a pending task under a fresh token when it is due |
| `QueueProgress.UnfinishedTasksReturn` | cqrs-runtime/src/postgres/task_queue/recovery.rs:62-70 | a task that is pending, or leased with attempts left, is delivered once more by some continuation |
| `QueueProgress.RetriedTasksReturn` | cqrs-runtime/src/postgres/task_queue/settlement.rs:81-83 | a retry settled before expiry with attempts left makes its task pending for the delay asked for, and some continuation delivers it again |
| `QueueAdapter.UpdateSettles` | cqrs-runtime/src/postgres/task_queue/settlement.rs:23-44 | the parameterised UPDATE settles every field as each of the three requests asks |
| `QueueAdapter.ClaimRows` | cqrs-runtime/src/postgres/task_queue/claim.rs:60-87 | one legal claim for each selected row and its delivery with the anchored deadline, or nothing when a row cannot be decoded |
| `QueueAdapter.TaskTable.Claim` | cqrs-runtime/src/postgres/task_queue/claim.rs:43-90 | exactly when a claim succeeds and exactly when it changes rows, one legal change for each selected row: also under failing storage and a lost commit reply |
| `QueueAdapter.TaskTable.Settle` | cqrs-runtime/src/postgres/task_queue/settlement.rs:64-97 | the row changes, by one settlement stated field by field, exactly when token and unexpired lease own it and storage does not fail; the result follows from the request and the attempts left, or is lost ownership |
| `QueueAdapter.RecoverRows` | cqrs-runtime/src/postgres/task_queue/recovery.rs:58-85 | the loop recovers every selected row once; the failures name exactly the rows that failed, each once, in order, with format, attempts and cause, and all others are pending |
| `QueueAdapter.TaskTable.RecoverExpired` | cqrs-runtime/src/postgres/task_queue/recovery.rs:45-85 | all selected rows recovered, the failed ones listed in order and the pending ones counted, or nothing changed; also under failing storage and a lost commit reply |
| `LeaseBudget.ConstructedIsValid` | cqrs-runtime/src/runtime/worker_pool_config.rs:60-89 | exactly which values the constructor accepts, that it keeps them, what each error means, and that what it accepts may be given to the validator |
| `LeaseBudget.Queued` | cqrs-runtime/src/runtime/worker_pool_config.rs:135-141 | the conversion through 128-bit nanoseconds and 64-bit seconds is the product, and fails exactly when it exceeds the largest duration |
| `LeaseBudget.RequiredIsSum` | cqrs-runtime/src/runtime/worker_pool_config.rs:142-147 | the chain of checked additions is the plain sum, and fails exactly when it exceeds the largest duration |
| `LeaseBudget.ValidatorIsExact` | cqrs-runtime/src/runtime/worker_pool_config.rs:126-152 | each of the four answers is given exactly under its condition over unbounded integers; overflow means no representable lease would do |
| `LeaseBudget.DefaultsFit` | cqrs-runtime/src/runtime/worker_pool_config.rs:45-56 | the default pool is constructible and accepts exactly the storage timeouts below 25/3 s, the default 6 s among them |
| `LeaseBudget.PlanIsExact` | cqrs-runtime/src/task/executor/lease_budget.rs:16-44 | exactly when each plan and each error is given, what a running plan leaves for settlement, and that the last overflow exit is unreachable |
| `LeaseBudget.RunLeavesFullSettlement` | cqrs-runtime/src/task/executor/default_executor.rs:41-51 | after a handler that met its deadline settlement starts and has the full storage timeout |
| `LeaseBudget.LocalDeadlineIsConservative` | cqrs-runtime/src/postgres/task_queue/claim.rs:53-80 | a check by the local settlement deadline precedes the database expiry for any constant skew, millisecond truncation and float rounding |
| `Executor.ExecuteAndSettle` | cqrs-runtime/src/task/executor/default_executor.rs:41-121 | the handler runs exactly when the whole invocation fits, the settlement sent matches the handler result or timeout, it is sent exactly when time is left before the margin, and it gets the storage timeout or what is left of the lease |
| `Poller.Poller.constructor` | cqrs-runtime/src/runtime/poller.rs:17-24 | rotation starts at the first format |
| `Poller.Poller.FormatAt` | cqrs-runtime/src/runtime/poller.rs:41-41 | the format at an offset of the pass |
| `Poller.ConfirmedIsConcatenation` | cqrs-runtime/src/runtime/poller.rs:42-48 | the batch is the deliveries of the confirmed answers one after the other |
| `Poller.Poller.Claim` | cqrs-runtime/src/runtime/poller.rs:26-52 | at most the limit, exactly the concatenation of all confirmed answers, formats in rotated order each asked for the remainder, an error exactly when a call failed before anything was claimed |
| `Poller.PassesVisitOnce` | cqrs-runtime/src/runtime/poller.rs:35-41 | a pass names each format at most once if and only if the counter does not wrap inside it or the format count divides its range |
| `Poller.CollisionAtWrap` | cqrs-runtime/src/runtime/poller.rs:35-41 | otherwise two offsets of the pass name the same format |
| `Poller.FirstFormatRotates` | cqrs-runtime/src/runtime/poller.rs:35-36 | the first format of the n-th successive call is the one at offset n of the first call |
| `Poller.EachFormatFirstOnce` | cqrs-runtime/src/runtime/poller.rs:35-41 | in count successive calls each format comes first exactly once if and only if the counter does not wrap among them or the format count divides its range; otherwise some format is never first |
| `WorkerPool.ConfirmedWithinLimit` | cqrs-runtime/src/runtime/supervisor.rs:135-135 | a batch returned by the poller is within the limit the supervisor asserts |
| `WorkerPool.NextKeepsInvariant` | cqrs-runtime/src/runtime/supervisor.rs:91-147 | every step of producer, workers, crash, restart and shutdown keeps the admission invariant |
| `WorkerPool.RunsKeepInvariant` | cqrs-runtime/src/runtime/supervisor.rs:91-147 | the same for every reachable state |
| `WorkerPool.AdmissionIsBounded` | cqrs-runtime/src/runtime/supervisor.rs:119-143 | in every run buffered deliveries plus the batch being claimed fit the queue, neither supervisor assertion fails, and the worker count is constant |
| `WorkerPool.DeliveriesAreConserved` | cqrs-runtime/src/runtime/worker.rs:25-47 | deliveries leave in admission order, none lost or duplicated, and no two workers execute the same one |
| `PoolProgress.WaitingDeliveriesCanBeExecuted` | cqrs-runtime/src/runtime/worker.rs:25-47 | while the pool runs some continuation executes every waiting delivery in the order of admission |
| `PoolProgress.ClaimsFillTheQueue` | cqrs-runtime/src/runtime/supervisor.rs:119-144 | an idle producer of a running pool claims exactly when there is room, for all of it, and the batch it gets is admitted whole, in order |
| `PoolProgress.CrashedWorkersReturn` | cqrs-runtime/src/runtime/supervisor.rs:95-105 | a crashed worker is down until it is replaced, and the crash changes nothing else |
| `PoolProgress.NothingRunsAfterShutdown` | cqrs-runtime/src/runtime/supervisor.rs:125-134 | once the pool stops it admits no delivery and starts no handler in any continuation |
| `PoolProgress.LateClaimsAreDropped` | cqrs-runtime/src/runtime/supervisor.rs:130-134 | a claim that answers after the shutdown admits nothing and leaves no claim open |
| `PoolProgress.EachWorkerDropsAtMostOne` | cqrs-runtime/src/runtime/worker.rs:34-37 | a worker that takes a delivery without executing it has left, so each worker drops at most one |
| `PoolProgress.EveryRunCanStop` | cqrs-runtime/src/runtime/worker_pool.rs:76-87 | from every reachable state some continuation stops with no claim open, no worker left and nothing more taken |
| `HealthyPool.NextKeepsHealth` | cqrs-runtime/src/runtime/worker_pool_config.rs:124-126 | every timely step keeps enough guaranteed dequeues for every waiting delivery |
| `HealthyPool.WaitingIsBounded` | cqrs-runtime/src/runtime/worker_pool_config.rs:130-130 | in a running healthy pool no delivery waits longer than ceil(Q/C) invocations |
| `HealthyPool.DequeuedDeliveriesRun` | cqrs-runtime/src/runtime/worker_pool_config.rs:124-152 | whatever is dequeued in a running healthy pool gets a plan that runs the handler with its whole budget |
| `HealthyPool.EveryExecutionHadItsBudget` | cqrs-runtime/src/task/executor/lease_budget.rs:16-44 | over the whole history of a healthy run every executed delivery had more than H+S left before its settlement deadline |
| `HealthyPool.WaitingBoundIsTight` | cqrs-runtime/src/runtime/worker_pool_config.rs:130-130 | for all worker counts, capacities and timeouts some healthy run executes a delivery that waited exactly ceil(Q/C) invocations |
| `HealthyPool.SlowestClaimExecutes` | cqrs-runtime/src/runtime/supervisor.rs:119-144 | under every valid configuration some healthy run executes a delivery whose claim took the whole storage timeout |
| `EndToEnd.CheckPrecedesExpiry` | cqrs-runtime/src/task/executor/default_executor.rs:41-58 | a handler and a settlement within their timeouts check the database clock before expiry |
| `EndToEnd.LiveLeaseSettles` | cqrs-runtime/src/postgres/task_queue/settlement.rs:71-97 | from claim to commit, whatever other transactions do, a settlement that gets its lock and reads the clock before expiry settles its row as requested |
| `EndToEnd.HealthyDeliveriesSettle` | cqrs-runtime/src/task/executor/default_executor.rs:67-109 | an execution in a healthy pool settles exactly as requested, whatever other transactions do from its claim to its commit |
| `Retry.RetryOnConflict` | cqrs-runtime/src/command/retry.rs:77-95 | at most max_attempts calls, all but the last conflicts, the last result returned, the unreachable end not reached, every sleep inside its bounds and equal to the delay drawn there |
| `Retry.BoundsEncloseBase` | cqrs-runtime/src/command/retry.rs:51-59 | for any float rounding lower <= base <= upper <= max_backoff, and products on their own side of the base are the ends of the interval, cut off at the limit |
| `Retry.BackoffGrows` | cqrs-runtime/src/command/retry.rs:53-55 | the base delay never shrinks from one retry to a later one |
| `Retry.BaseDoubles` | cqrs-runtime/src/command/retry.rs:51-57 | the base delay is the initial one doubled per retry and capped, if and only if the 32-bit multiplier does not saturate below the cap |
| `Routing.TryNew` | cqrs-runtime/src/task/handling/dispatcher.rs:49-72 | succeeds exactly on a non-empty duplicate-free format list, and then every format routes to an adapter that advertised it; a duplicate error names the first format that repeats |
| `Routing.AdvertisedInOrder` | cqrs-runtime/src/task/handling/dispatcher.rs:54-66 | the formats of each adapter stand together in the list, in order |
| `Routing.BuildWorker` | cqrs-runtime/src/runtime/dispatcher_factory.rs:26-37 | a worker dispatcher is accepted exactly when its adapters advertise the formats of the first one in the same order |
| `Routing.ClaimedFormatsAreRouted` | cqrs-runtime/src/runtime/dispatcher_factory.rs:26-37 | every format the poller can claim is routed in every worker's dispatcher, also after a restart |
| `Routing.WorkerRegistry.constructor` | cqrs-runtime/src/runtime/worker_pool.rs:27-43 | no worker is registered at first |
| `Routing.WorkerRegistry.Spawn` | cqrs-runtime/src/runtime/worker_pool.rs:63-74 | spawning into a free slot keeps handles and slots one to one |
| `Routing.WorkerRegistry.NextExit` | cqrs-runtime/src/runtime/worker_pool.rs:45-61 | an exited task always has a registered slot, so the lookup never fails, and that slot becomes free |
| `Routing.WorkerRegistry.Restart` | cqrs-runtime/src/runtime/supervisor.rs:95-105 | exit and respawn leave exactly the same slots served |

## Left out

- HTTP routers, request and response types and error-to-status tables: finite mappings around the services.
- Host lifecycle, signals, wiring, connection pools, logging, redaction and environment parsing: I/O only.
- Email parsing, SHA-256, base64, random generation and JSON encoding: foreign libraries, used as values.
- The error mapping of the email use cases: finite tables over the outcomes proved here.
- One state for saga outbox and task queue: the saga delivers any committed row any number of times in any order, which allows every delivery the queue can make, so the two are proved apart.
- Query processors and event streaming of `cqrs-es`: outside the command path.
- The text of `last_error` and log fields: never read back by the code.
- The jitter formula of the redelivery backoff: its delay is a parameter of recovery and retry.
- Draining at shutdown as a timed wait: shutdown, dropped deliveries and exits are steps, the drain timeout is not.
- Liveness of the pool and of the outbox under fair scheduling: only the bounded waiting of `HealthyPool` and the continuations of `QueueProgress`, `PoolProgress` and `Conflicts` are proved.
- QueueAdapter.TaskTable.Claim: does not fix which ready rows are taken or in which order, because `SKIP LOCKED` makes the selection depend on other transactions; the ORDER BY clause is therefore not modelled.
- QueueAdapter.TaskTable.RecoverExpired: does not fix which expired rows are taken or in which order, for the same reason, and does not model a failing conversion of the redelivery backoff, which is at most 300 seconds. It and the other two operations see one kind of storage failure.
- QueueAdapter.TaskTable.Settle: does not model the truncated error text it stores.
- EventRepository.Repository.Persist: reports every validation error as the one unknown persistence error the store sees, not its text.
- Saga.SerialRunsAreSafe: does not model encoding failures of a task payload, which the payload types rule out.
- LeaseBudget.LocalDeadlineIsConservative: does not model clocks that drift apart or jump.
- WorkerPool.AdmissionIsBounded: enqueues a returned batch in one step; workers that dequeue between two sends only make more room.
- The supervisor, worker and pool loops are one state machine over values, not objects: their concurrency, and not the update in place, is what the properties are about. `Poller`, `WorkerRegistry`, `TaskTable`, `Repository` and the aggregates are objects.
