/**
 * Runs made of undisturbed executions, one after the other, while some attempts may stay parked. They
 * keep every stream regular, so any request that does not complete a registration on the interval can
 * be added to them; concrete runs are built from them.
 */
module Walks {
  import opened Identifiers
  import opened Modular
  import opened Wrappers
  import Text
  import opened Registration
  import opened Streams
  import opened Saga
  import opened EventStore
  import opened Refinement
  import opened SoloExecution
  import opened SnapshotRows

  /** All attempts are finished, except the parked ones, which have not moved. */
  ghost predicate Parked(attempts: map<nat, Attempt>, parked: map<nat, Attempt>) {
    && parked.Keys <= attempts.Keys
    && (forall id :: id in attempts ==> if id in parked then attempts[id] == parked[id] else attempts[id].stage.Finished?)
  }

  ghost predicate WalkState(config: Config, w: World, l: Ledger, parked: map<nat, Attempt>)
    requires config.Valid()
  {
    && Sim(config, w, l)
    && SagaInvariant(l)
    && Regular(config, w.db.snapshots, l)
    && Parked(w.attempts, parked)
  }

  ghost predicate Reached(config: Config, l: Ledger, parked: map<nat, Attempt>)
    requires config.Valid()
  {
    exists steps :: WalkState(config, Run(config, steps), l, parked)
  }

  // ---------- One more execution ----------

  /** Of a regular stream every load returns the one row there is. */
  lemma RegularRead(config: Config, snapshots: Snapshots, l: Ledger, key: Key) returns (at: Option<nat>)
    requires config.Valid() && Regular(config, snapshots, l)
    ensures Readable(snapshots, key, at) && Advances(snapshots, key, VersionAt(snapshots, key, at))
    ensures VersionAt(snapshots, key, at) == 0 <==> RowsOf(snapshots, key) == {}
  {
    assert RegularAt(config, snapshots, key, |StreamOf(l, key)|);
    if RowsOf(snapshots, key) == {} {
      at := None;
      forall row | row in snapshots
        ensures row.0 != key
      {
        assert row !in RowsOf(snapshots, key);
      }
    } else {
      var last :| RowsOf(snapshots, key) == {(key, last)};
      at := Some(last);
      assert (key, last) in RowsOf(snapshots, key);
      assert Carriers(snapshots, key, snapshots[(key, last)].version) == {(key, last)};
    }
  }

  /** Whichever row a load of a regular stream returns, a snapshot can be built on it. */
  lemma RegularAdvances(config: Config, snapshots: Snapshots, l: Ledger, key: Key, at: Option<nat>)
    requires config.Valid() && Regular(config, snapshots, l) && Readable(snapshots, key, at)
    ensures Advances(snapshots, key, VersionAt(snapshots, key, at))
  {
    if at.Some? {
      assert RegularAt(config, snapshots, key, |StreamOf(l, key)|);
      assert (key, at.value) in RowsOf(snapshots, key);
      var last :| RowsOf(snapshots, key) == {(key, last)};
      assert Carriers(snapshots, key, snapshots[(key, at.value)].version) == {(key, last)};
    }
  }

  /** In runs without straddling reads, nothing but a completion due for a snapshot is ever hindered. */
  lemma SnugHindersOnlyCompletions(config: Config, steps: seq<Step>, call: Call, at: Option<nat>, event: Event)
    requires config.Valid() && Snug(config, steps) && Readable(Run(config, steps).db.snapshots, KeyOf(call.command), at)
    requires Appends(LedgerOf(config, steps), call, event)
    ensures var snapshots, l, key := Run(config, steps).db.snapshots, LedgerOf(config, steps), KeyOf(call.command);
      Hindered(config, snapshots, l, call, VersionAt(snapshots, key, at)) <==> Due(config, l, key) && IsCompletion(event)
  {
    SnugRuns(config, steps);
    RegularAdvances(config, Run(config, steps).db.snapshots, LedgerOf(config, steps), KeyOf(call.command), at);
  }

  lemma DecidedWrite(config: Config, l: Ledger, command: Command, version: nat)
    requires config.Valid() && Replay(KeyOf(command), StreamOf(l, KeyOf(command))).Some?
    requires Decided(config, l, command, version).Prepared?
    ensures var stage := Decided(config, l, command, version);
      && stage.sequence == |StreamOf(l, KeyOf(command))| + 1
      && (stage.write.NoSnapshot? <==> stage.sequence % config.interval != 0)
      && (stage.write.Insert? ==> version == 0)
  {
  }

  lemma WroteStream(config: Config, db: Db, db': Db, l: Ledger, call: Call, version: nat)
    requires config.Valid() && SimDb(db, l) && Wrote(config, db, db', l, call, version)
    ensures var key, stage := KeyOf(call.command), Decided(config, l, call.command, version);
      && WriteSnapshot(db.snapshots, key, stage.sequence, stage.write) == Some(db'.snapshots)
      && |StreamOf(Commit(l, call), key)| == |StreamOf(l, key)| + 1
      && forall other :: other != key ==> StreamOf(Commit(l, call), other) == StreamOf(l, other)
  {
  }

  /** An undisturbed execution keeps every stream regular. */
  lemma SoloRegular(config: Config, db: Db, db': Db, l: Ledger, call: Call, version: nat)
    requires config.Valid() && SimDb(db, l) && Regular(config, db.snapshots, l) && Wrote(config, db, db', l, call, version)
    requires version == 0 <==> RowsOf(db.snapshots, KeyOf(call.command)) == {}
    ensures Regular(config, db'.snapshots, Commit(l, call))
  {
    var key, l' := KeyOf(call.command), Commit(l, call);
    var stage := Decided(config, l, call.command, version);
    DecidedWrite(config, l, call.command, version);
    WroteStream(config, db, db', l, call, version);
    NextIsFree(db, l, key);
    assert RegularAt(config, db.snapshots, key, |StreamOf(l, key)|);
    WriteRegular(config, db.snapshots, key, |StreamOf(l, key)|, stage.write);
    forall other | other != key
      ensures RegularAt(config, db'.snapshots, other, |StreamOf(l', other)|)
    {
      assert RegularAt(config, db.snapshots, other, |StreamOf(l, other)|);
      OtherRowsKept(db.snapshots, key, stage.sequence, stage.write, other);
      SameRowsCarry(db.snapshots, db'.snapshots, other);
    }
  }

  lemma Unhindered(config: Config, snapshots: Snapshots, l: Ledger, call: Call, version: nat, event: Event)
    requires config.Valid() && Appends(l, call, event) && Advances(snapshots, KeyOf(call.command), version)
    requires Due(config, l, KeyOf(call.command)) ==> !IsCompletion(event)
    ensures !Hindered(config, snapshots, l, call, version)
  {
  }

  lemma ParkedStays(w: World, w': World, id: nat, parked: map<nat, Attempt>)
    requires Parked(w.attempts, parked) && OthersKept(w, w', id) && id !in w.attempts && w'.attempts[id].stage.Finished?
    ensures Parked(w'.attempts, parked)
  {
  }

  /** What an undisturbed execution of an unhindered call leaves. */
  lemma ExecutedWalks(config: Config, w: World, w': World, l: Ledger, parked: map<nat, Attempt>, id: nat, call: Call,
                      version: nat, event: Event)
    requires config.Valid() && SimDb(w.db, l) && Regular(config, w.db.snapshots, l) && Parked(w.attempts, parked)
    requires Executed(config, w, w', l, id, call, version) && id !in w.attempts
    requires Appends(l, call, event) && !Hindered(config, w.db.snapshots, l, call, version)
    requires version == 0 <==> RowsOf(w.db.snapshots, KeyOf(call.command)) == {}
    ensures Sim(config, w', Commit(l, call)) && Regular(config, w'.db.snapshots, Commit(l, call)) && Parked(w'.attempts, parked)
  {
    SoloRegular(config, w.db, w'.db, l, call, version);
    ParkedStays(w, w', id, parked);
  }

  lemma WalkOn(config: Config, w: World, l: Ledger, parked: map<nat, Attempt>, serial: SerialStep, event: Event)
    returns (more: seq<Step>)
    requires config.Valid() && WalkState(config, w, l, parked) && Issue(l.outbox, serial.request, serial.newId).Some?
    requires var call := Issue(l.outbox, serial.request, serial.newId).value;
      Appends(l, call, event) && (Due(config, l, KeyOf(call.command)) ==> !IsCompletion(event))
    ensures WalkState(config, RunFrom(config, w, more), Execute(l, serial.request, serial.newId), parked)
  {
    var call := Issue(l.outbox, serial.request, serial.newId).value;
    var at := RegularRead(config, w.db.snapshots, l, KeyOf(call.command));
    var version := VersionAt(w.db.snapshots, KeyOf(call.command), at);
    Unhindered(config, w.db.snapshots, l, call, version, event);
    FreshId(w.attempts.Keys);
    var id: nat :| id !in w.attempts.Keys;
    var rows := Serve(config, w, l, id, serial, at);
    more := Alone(id, serial, at, rows);
    ExecutedWalks(config, w, RunFrom(config, w, more), l, parked, id, call, version, event);
    ExecutePreserves(l, serial.request, serial.newId);
  }

  /** Any request that appends, unless it completes a registration on the interval, extends a reached ledger. */
  lemma Advance(config: Config, l: Ledger, parked: map<nat, Attempt>, serial: SerialStep, event: Event)
    requires config.Valid() && Reached(config, l, parked) && Issue(l.outbox, serial.request, serial.newId).Some?
    requires var call := Issue(l.outbox, serial.request, serial.newId).value;
      Appends(l, call, event) && (Due(config, l, KeyOf(call.command)) ==> !IsCompletion(event))
    ensures Reached(config, Execute(l, serial.request, serial.newId), parked)
  {
    var steps :| WalkState(config, Run(config, steps), l, parked);
    var more := WalkOn(config, Run(config, steps), l, parked, serial, event);
    RunAppend(config, World(Db(map[], map[], map[]), map[]), steps, more);
    assert WalkState(config, Run(config, steps + more), Execute(l, serial.request, serial.newId), parked);
  }

  // ---------- A registration step by step ----------

  const EMAIL := Email("a@b.c")
  const KEY := ReservationKey(EMAIL)
  const CODE := 1_000_000
  const PROFILE := Profile("A", "B", 0, 1)

  /** The reservation has `n` events and this phase, no account exists, and only ids below `n` are used. */
  ghost predicate Stands(l: Ledger, n: nat, phase: Phase) {
    && |StreamOf(l, KEY)| == n
    && Replay(KEY, StreamOf(l, KEY)) == Some(ReservationState(phase))
    && (forall id :: StreamOf(l, AccountKey(id)) == [])
    && (forall id :: id in l.outbox ==> id < n)
  }

  function TaskList(n: nat, task: Option<Task>): seq<NewTask> {
    if task == None then [] else [NewTask(n, task.value)]
  }

  function Published(outbox: Outbox, n: nat, task: Option<Task>): Outbox {
    if task == None then outbox else outbox[n := OutboxRow(KEY, n + 1, task.value)]
  }

  /** One accepted request of the walk: its decision and its task list. */
  ghost predicate Accepts(l: Ledger, n: nat, phase: Phase, request: Request, fact: ReservationEvent, task: Option<Task>) {
    exists command: ReservationCommand ::
      && command.email == EMAIL
      && DecideReservation(phase, command) == Ok(fact)
      && Issue(l.outbox, request, n) == Some(Call(ToReservation(command), TaskList(n, task)))
  }

  lemma WalkEffect(l: Ledger, n: nat, phase: Phase, request: Request, fact: ReservationEvent, task: Option<Task>)
    requires Stands(l, n, phase) && Accepts(l, n, phase, request, fact, task)
    ensures KeyOf(Issue(l.outbox, request, n).value.command) == KEY
    ensures Appends(l, Issue(l.outbox, request, n).value, ReservationFact(fact))
    ensures Execute(l, request, n)
      == Ledger(l.streams[KEY := StreamOf(l, KEY) + [ReservationFact(fact)]], Published(l.outbox, n, task))
  {
    if task.Some? {
      PublishOne(l.outbox, KEY, n + 1, NewTask(n, task.value));
    }
  }

  lemma StandsNext(l: Ledger, n: nat, phase: Phase, fact: ReservationEvent, task: Option<Task>)
    requires Stands(l, n, phase) && ReservationApplicable(phase, fact)
    ensures Stands(Ledger(l.streams[KEY := StreamOf(l, KEY) + [ReservationFact(fact)]], Published(l.outbox, n, task)),
                   n + 1, ApplyReservation(phase, fact))
  {
    assert (StreamOf(l, KEY) + [ReservationFact(fact)])[..n] == StreamOf(l, KEY);
  }

  lemma Walk(config: Config, l: Ledger, parked: map<nat, Attempt>, n: nat, phase: Phase, request: Request,
             fact: ReservationEvent, task: Option<Task>)
    returns (l': Ledger)
    requires config.Valid() && Reached(config, l, parked) && Stands(l, n, phase)
    requires Accepts(l, n, phase, request, fact, task) && !fact.AccountCreationCompleted?
    ensures Reached(config, l', parked)
    ensures Stands(l', n + 1, ApplyReservation(phase, fact))
    ensures StreamOf(l', KEY) == StreamOf(l, KEY) + [ReservationFact(fact)]
    ensures l'.outbox == Published(l.outbox, n, task)
  {
    WalkEffect(l, n, phase, request, fact, task);
    StandsNext(l, n, phase, fact, task);
    Advance(config, l, parked, SerialStep(request, n), ReservationFact(fact));
    l' := Execute(l, request, n);
  }

  function SendTask(n: nat): Option<Task> {
    Some(SendVerificationCode(EMAIL, AccountId(n), CODE))
  }

  lemma AcceptsReserve(l: Ledger)
    ensures Accepts(l, 0, Absent, Reserve(EMAIL, AccountId(1), CODE), EmailReserved(EMAIL, AccountId(1), CODE), SendTask(1))
  {
    assert DecideReservation(Absent, ReserveEmail(EMAIL, AccountId(1), CODE)).Ok?;
  }

  lemma AcceptsReissue(l: Ledger, n: nat)
    ensures Accepts(l, n, AwaitingCode(AccountId(n), CODE), RequestNewCode(EMAIL, AccountId(n + 1), CODE),
                    VerificationCodeRequested(EMAIL, AccountId(n + 1), CODE), SendTask(n + 1))
  {
    assert DecideReservation(AwaitingCode(AccountId(n), CODE), RequestVerificationCode(EMAIL, AccountId(n + 1), CODE)).Ok?;
  }

  lemma AcceptsConfirm(l: Ledger, n: nat)
    ensures Accepts(l, n, AwaitingCode(AccountId(n), CODE), ConfirmEmail(EMAIL, AccountId(n), CODE, ""),
                    EmailVerified(EMAIL, AccountId(n), ""), None)
  {
    assert DecideReservation(AwaitingCode(AccountId(n), CODE), VerifyEmail(EMAIL, AccountId(n), CODE, "")).Ok?;
  }

  lemma PlainProfile()
    ensures NewProfile(PROFILE) == PROFILE
  {
    Text.TrimFixpoints("A");
    Text.TrimFixpoints("B");
  }

  lemma AcceptsSubmit(l: Ledger, n: nat, id: AccountId)
    ensures Accepts(l, n, AwaitingProfile(id, ""), SubmitProfile(EMAIL, id, "", PROFILE),
                    RegistrationProfileAccepted(EMAIL, id, "", PROFILE), Some(CreateAccountTask(EMAIL, id, PROFILE)))
  {
    PlainProfile();
    assert DecideReservation(AwaitingProfile(id, ""), SubmitRegistrationProfile(EMAIL, id, "", PROFILE)).Ok?;
  }

  /** From an empty store, `n` codes issued in a row. */
  lemma {:induction false} CodesIssued(config: Config, l0: Ledger, parked: map<nat, Attempt>, n: nat) returns (l: Ledger)
    requires config.Valid() && 1 <= n && Reached(config, l0, parked) && Stands(l0, 0, Absent)
    ensures Reached(config, l, parked) && Stands(l, n, AwaitingCode(AccountId(n), CODE))
  {
    if n == 1 {
      AcceptsReserve(l0);
      l := Walk(config, l0, parked, 0, Absent, Reserve(EMAIL, AccountId(1), CODE), EmailReserved(EMAIL, AccountId(1), CODE),
                SendTask(1));
    } else {
      var l1 := CodesIssued(config, l0, parked, n - 1);
      AcceptsReissue(l1, n - 1);
      l := Walk(config, l1, parked, n - 1, AwaitingCode(AccountId(n - 1), CODE), RequestNewCode(EMAIL, AccountId(n), CODE),
                VerificationCodeRequested(EMAIL, AccountId(n), CODE), SendTask(n));
    }
  }

  lemma EmptyIsRegular(config: Config)
    requires config.Valid()
    ensures Regular(config, map[], Ledger(map[], map[]))
  {
    forall key
      ensures RegularAt(config, map[], key, |StreamOf(Ledger(map[], map[]), key)|)
    {
      SmallQuotient(config.interval);
    }
  }

  lemma NothingYet(config: Config)
    requires config.Valid()
    ensures Reached(config, Ledger(map[], map[]), map[]) && Stands(Ledger(map[], map[]), 0, Absent)
  {
    RefinesSerialExecution(config, []);
    EmptyIsRegular(config);
    assert WalkState(config, Run(config, []), Ledger(map[], map[]), map[]);
  }
}
