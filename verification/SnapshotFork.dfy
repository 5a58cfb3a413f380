/**
 * The snapshot table has no key for the stream alone, so a load whose two reads straddle the first
 * snapshot can insert a second row with the same version. From then on no snapshot of the stream can
 * be written, and the stream ends before its next interval. Every interval has such a run.
 */
module SnapshotFork {
  import opened Modular
  import opened Wrappers
  import opened Registration
  import opened Streams
  import opened Saga
  import opened EventStore
  import opened Refinement
  import opened SoloExecution
  import opened SnapshotRows
  import opened Walks

  // ---------- The parked load ----------

  /** A reissue for the account id after `n` issued ones. */
  function Reissue(n: nat): Request {
    RequestNewCode(EMAIL, AccountId(n + 1), CODE)
  }

  function ReissueCall(n: nat): Call {
    Call(ToReservation(RequestVerificationCode(EMAIL, AccountId(n + 1), CODE)),
         [NewTask(n, SendVerificationCode(EMAIL, AccountId(n + 1), CODE))])
  }

  /** It found no snapshot and has not yet read the tail. */
  function HalfLoaded(n: nat): Attempt {
    Attempt(Reissue(n), n, ReissueCall(n), 1, SnapshotRead(ReservationState(Absent), 0, 0))
  }

  lemma HalfLoad(config: Config, n: nat)
    requires config.Valid()
    ensures Reached(config, Ledger(map[], map[]), map[0 := HalfLoaded(n)])
  {
    var l := Ledger(map[], map[]);
    var w := Run(config, []);
    RefinesSerialExecution(config, []);
    EmptyIsRegular(config);
    DriveBegin(config, w, l, 0, SerialStep(Reissue(n), n));
    var w1 := Next(config, w, Begin(0, Reissue(n), n));
    DriveSnapshot(config, w1, l, 0, ReissueCall(n), None);
    TwoSteps(config, w, Begin(0, Reissue(n), n), ReadSnapshot(0, None));
    assert WalkState(config, Run(config, [Begin(0, Reissue(n), n), ReadSnapshot(0, None)]), l, map[0 := HalfLoaded(n)]);
  }

  /** One row, of version 1, is there when the parked load goes on. */
  lemma OneIntervalPassed(config: Config, n: nat)
    requires config.Valid() && n == 2 * config.interval - 1
    ensures n / config.interval == 1 && (n + 1) % config.interval == 0
  {
    DivisionIsUnique(n, 1, config.interval - 1, config.interval);
    DivisionIsUnique(n + 1, 2, 0, config.interval);
  }

  // ---------- The second row ----------

  lemma ReissueAppends(l: Ledger, n: nat)
    requires Stands(l, n, AwaitingCode(AccountId(n), CODE))
    ensures Appends(l, ReissueCall(n), ReservationFact(VerificationCodeRequested(EMAIL, AccountId(n + 1), CODE)))
  {
    AcceptsReissue(l, n);
    WalkEffect(l, n, AwaitingCode(AccountId(n), CODE), Reissue(n), VerificationCodeRequested(EMAIL, AccountId(n + 1), CODE),
               SendTask(n + 1));
  }

  lemma InsertedRow(config: Config, db: Db, db': Db, l: Ledger, n: nat)
    requires config.Valid() && SimDb(db, l) && |StreamOf(l, KEY)| == n && (n + 1) % config.interval == 0
    requires Wrote(config, db, db', l, ReissueCall(n), 0)
    ensures (KEY, n + 1) !in db.snapshots
    ensures exists state :: db'.snapshots == db.snapshots[(KEY, n + 1) := Snapshot(1, state)]
  {
    NextIsFree(db, l, KEY);
    DecidedWrite(config, l, ReissueCall(n).command, 0);
  }

  lemma TwoRows(snapshots: Snapshots, last: nat, next: nat, state: State)
    requires RowsOf(snapshots, KEY) == {(KEY, last)} && snapshots[(KEY, last)].version == 1 && (KEY, next) !in snapshots
    ensures var snapshots' := snapshots[(KEY, next) := Snapshot(1, state)];
      && RowsOf(snapshots', KEY) != {}
      && forall at :: at in RowsOf(snapshots', KEY) ==> Dead(snapshots', KEY, snapshots'[at].version)
  {
    var snapshots' := snapshots[(KEY, next) := Snapshot(1, state)];
    assert (KEY, last) in RowsOf(snapshots, KEY);
    assert (KEY, last) in RowsOf(snapshots', KEY);
    assert Carriers(snapshots', KEY, 1) == {(KEY, last), (KEY, next)};
    forall at | at in RowsOf(snapshots', KEY)
      ensures snapshots'[at].version == 1
    {
      assert at == (KEY, next) || at in RowsOf(snapshots, KEY);
    }
  }

  /** The row its write inserts, beside the one already there. */
  lemma SecondRow(config: Config, db: Db, db': Db, l: Ledger, n: nat)
    requires config.Valid() && n == 2 * config.interval - 1 && |StreamOf(l, KEY)| == n
    requires SimDb(db, l) && RegularAt(config, db.snapshots, KEY, n) && Wrote(config, db, db', l, ReissueCall(n), 0)
    ensures RowsOf(db'.snapshots, KEY) != {}
    ensures forall at :: at in RowsOf(db'.snapshots, KEY) ==> Dead(db'.snapshots, KEY, db'.snapshots[at].version)
  {
    OneIntervalPassed(config, n);
    InsertedRow(config, db, db', l, n);
    var last :| RowsOf(db.snapshots, KEY) == {(KEY, last)};
    assert (KEY, last) in RowsOf(db.snapshots, KEY);
    var state :| db'.snapshots == db.snapshots[(KEY, n + 1) := Snapshot(1, state)];
    TwoRows(db.snapshots, last, n + 1, state);
  }

  lemma NothingInFlight(w: World, w': World, key: Key, parked: Attempt)
    requires Parked(w.attempts, map[0 := parked]) && OthersKept(w, w', 0) && w'.attempts[0].stage.Finished?
    requires RowsOf(w'.db.snapshots, key) != {}
    requires forall at :: at in RowsOf(w'.db.snapshots, key) ==> Dead(w'.db.snapshots, key, w'.db.snapshots[at].version)
    ensures Blocked(w', key)
  {
  }

  /** The parked load reads the tail now and commits: the stream has two rows of version 1. */
  lemma Fork(config: Config, w: World, l: Ledger, n: nat) returns (more: seq<Step>)
    requires config.Valid() && n == 2 * config.interval - 1
    requires WalkState(config, w, l, map[0 := HalfLoaded(n)]) && Stands(l, n, AwaitingCode(AccountId(n), CODE))
    ensures Blocked(RunFrom(config, w, more), KEY)
    ensures Sim(config, RunFrom(config, w, more), Commit(l, ReissueCall(n)))
  {
    DriveTail(config, w, l, 0, ReissueCall(n));
    var read := ReadTail(0, RestFor(w, l, 0));
    more := [read] + [Decide(0), Persist(0, true)];
    var w1 := Next(config, w, read);
    SoloCommit(config, w1, l, 0, ReissueCall(n), 0);
    ReissueAppends(l, n);
    Unhindered(config, w.db.snapshots, l, ReissueCall(n), 0, ReservationFact(VerificationCodeRequested(EMAIL, AccountId(n + 1), CODE)));
    var w2 := RunFrom(config, w1, [Decide(0), Persist(0, true)]);
    RunAppend(config, w, [read], [Decide(0), Persist(0, true)]);
    StepAppend(config, w, [], read);
    assert [] + [read] == [read];
    assert RegularAt(config, w.db.snapshots, KEY, n);
    SecondRow(config, w.db, w2.db, l, n);
    NothingInFlight(w, w2, KEY, HalfLoaded(n));
  }

  // ---------- The theorem ----------

  lemma ForkedRun(config: Config) returns (steps: seq<Step>, l: Ledger)
    requires config.Valid()
    ensures Blocked(Run(config, steps), KEY) && SimDb(Run(config, steps).db, l) && |StreamOf(l, KEY)| == 2 * config.interval
  {
    var n := 2 * config.interval - 1;
    HalfLoad(config, n);
    var l0 := CodesIssued(config, Ledger(map[], map[]), map[0 := HalfLoaded(n)], n);
    var before :| WalkState(config, Run(config, before), l0, map[0 := HalfLoaded(n)]);
    var more := Fork(config, Run(config, before), l0, n);
    ReissueAppends(l0, n);
    RunAppend(config, World(Db(map[], map[], map[]), map[]), before, more);
    steps, l := before + more, Commit(l0, ReissueCall(n));
  }

  /**
   * For every interval some run leaves a reservation that still waits for its code but whose stream,
   * two intervals long, reaches no third one in any continuation.
   */
  lemma SomeStreamsStop(config: Config)
    requires config.Valid()
    ensures exists steps ::
      && (KEY, 2 * config.interval) in Run(config, steps).db.events
      && Blocked(Run(config, steps), KEY)
      && forall more :: (KEY, 3 * config.interval) !in Run(config, steps + more).db.events
  {
    var steps, l := ForkedRun(config);
    DivisionIsUnique(3 * config.interval, 3, 0, config.interval);
    forall more
      ensures (KEY, 3 * config.interval) !in Run(config, steps + more).db.events
    {
      BlockedStreamStops(config, steps, more, KEY);
    }
  }
}
