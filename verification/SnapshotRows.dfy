/**
 * How many snapshot rows a stream has. While no attempt's two reads straddle the first snapshot of its
 * stream, each stream has one row whose version counts the intervals passed. Once every version of a
 * stream is carried twice, no snapshot of it is ever written again and the stream stops.
 */
module SnapshotRows {
  import opened Modular
  import opened Wrappers
  import opened Registration
  import opened Streams
  import opened Saga
  import opened EventStore
  import opened Refinement
  import opened SoloExecution

  type Snapshots = map<(Key, nat), Snapshot>

  function RowsOf(snapshots: Snapshots, key: Key): set<(Key, nat)> {
    set at | at in snapshots && at.0 == key
  }

  ghost predicate SameRows(snapshots: Snapshots, snapshots': Snapshots, key: Key) {
    forall at: (Key, nat) :: at.0 == key ==>
      (at in snapshots' <==> at in snapshots) && (at in snapshots ==> snapshots'[at] == snapshots[at])
  }

  lemma SameRowsCarry(snapshots: Snapshots, snapshots': Snapshots, key: Key)
    requires SameRows(snapshots, snapshots', key)
    ensures RowsOf(snapshots', key) == RowsOf(snapshots, key)
    ensures forall version :: Carriers(snapshots', key, version) == Carriers(snapshots, key, version)
  {
    forall version: nat
      ensures Carriers(snapshots', key, version) == Carriers(snapshots, key, version)
    {
    }
  }

  /** A write touches only rows of its own stream. */
  lemma OtherRowsKept(snapshots: Snapshots, key: Key, sequence: nat, write: SnapshotWrite, other: Key)
    requires WriteSnapshot(snapshots, key, sequence, write).Some? && other != key
    ensures SameRows(snapshots, WriteSnapshot(snapshots, key, sequence, write).value, other)
  {
  }

  // ---------- Regular streams ----------

  /** One row from the first interval on, and its version is the number of intervals passed. */
  ghost predicate RegularAt(config: Config, snapshots: Snapshots, key: Key, n: nat)
    requires config.Valid()
  {
    && (n / config.interval == 0 ==> RowsOf(snapshots, key) == {})
    && (n / config.interval > 0 ==> exists last :: RowsOf(snapshots, key) == {(key, last)})
    && (forall at :: at in RowsOf(snapshots, key) ==> snapshots[at].version == n / config.interval)
  }

  ghost predicate Regular(config: Config, snapshots: Snapshots, l: Ledger)
    requires config.Valid()
  {
    forall key :: RegularAt(config, snapshots, key, |StreamOf(l, key)|)
  }

  lemma IntervalsPassed(n: nat, interval: nat)
    requires interval > 0
    ensures (n + 1) / interval == n / interval + if (n + 1) % interval == 0 then 1 else 0
  {
    var q, r := n / interval, n % interval;
    assert n == q * interval + r;
    if r + 1 < interval {
      DivisionIsUnique(n + 1, q, r + 1, interval);
    } else {
      assert (q + 1) * interval == q * interval + interval;
      DivisionIsUnique(n + 1, q + 1, 0, interval);
    }
  }

  lemma RegularSkips(config: Config, snapshots: Snapshots, key: Key, n: nat)
    requires config.Valid() && RegularAt(config, snapshots, key, n) && (n + 1) % config.interval != 0
    ensures RegularAt(config, snapshots, key, n + 1)
  {
    IntervalsPassed(n, config.interval);
  }

  lemma RegularInserts(config: Config, snapshots: Snapshots, key: Key, n: nat, state: State)
    requires config.Valid() && RegularAt(config, snapshots, key, n) && (n + 1) % config.interval == 0
    requires (key, n + 1) !in snapshots
    ensures RegularAt(config, snapshots[(key, n + 1) := Snapshot(1, state)], key, n + 1) <==> RowsOf(snapshots, key) == {}
  {
    IntervalsPassed(n, config.interval);
    var rows := RowsOf(snapshots[(key, n + 1) := Snapshot(1, state)], key);
    assert rows == RowsOf(snapshots, key) + {(key, n + 1)};
    if RowsOf(snapshots, key) == {} {
      assert rows == {(key, n + 1)};
    } else {
      var first :| first in RowsOf(snapshots, key);
      assert first in rows && (key, n + 1) in rows && first != (key, n + 1);
    }
  }

  lemma OneRowReplaced(snapshots: Snapshots, key: Key, last: nat, version: nat)
    requires RowsOf(snapshots, key) == {(key, last)} && |Carriers(snapshots, key, version)| == 1
    ensures Carriers(snapshots, key, version) == {(key, last)} && snapshots[(key, last)].version == version
  {
    var carriers := Carriers(snapshots, key, version);
    var at :| at in carriers;
    assert at in RowsOf(snapshots, key);
    assert carriers == {(key, last)} by {
      forall other | other in carriers
        ensures other == (key, last)
      {
        assert other in RowsOf(snapshots, key);
      }
    }
  }

  lemma RegularUpdates(config: Config, snapshots: Snapshots, key: Key, n: nat, state: State, version: nat)
    requires config.Valid() && RegularAt(config, snapshots, key, n) && (n + 1) % config.interval == 0
    requires WriteSnapshot(snapshots, key, n + 1, Update(state, version)).Some?
    ensures RegularAt(config, WriteSnapshot(snapshots, key, n + 1, Update(state, version)).value, key, n + 1)
  {
    IntervalsPassed(n, config.interval);
    var carriers := Carriers(snapshots, key, version - 1);
    var at :| at in carriers;
    assert at in RowsOf(snapshots, key);
    var last :| RowsOf(snapshots, key) == {(key, last)};
    OneRowReplaced(snapshots, key, last, version - 1);
    assert RowsOf(WriteSnapshot(snapshots, key, n + 1, Update(state, version)).value, key) == {(key, n + 1)};
  }

  /** The write of the next event keeps its stream regular unless it inserts beside an existing row. */
  lemma WriteRegular(config: Config, snapshots: Snapshots, key: Key, n: nat, write: SnapshotWrite)
    requires config.Valid() && RegularAt(config, snapshots, key, n) && (key, n + 1) !in snapshots
    requires write.NoSnapshot? <==> (n + 1) % config.interval != 0
    requires WriteSnapshot(snapshots, key, n + 1, write).Some?
    ensures RegularAt(config, WriteSnapshot(snapshots, key, n + 1, write).value, key, n + 1)
      <==> !(write.Insert? && RowsOf(snapshots, key) != {})
  {
    match write
    case NoSnapshot => RegularSkips(config, snapshots, key, n);
    case Insert(state) => RegularInserts(config, snapshots, key, n, state);
    case Update(state, version) => RegularUpdates(config, snapshots, key, n, state, version);
  }

  /** What a successful write did to the ledger and to the snapshot rows. */
  lemma CommitRows(config: Config, db: Db, l: Ledger, a: Attempt)
    requires config.Valid() && SimDb(db, l) && AttemptOk(config, l, a) && a.stage.Prepared? && PersistAttempt(db, a).Ok?
    ensures var key, l', db' := KeyOf(a.call.command), Commit(l, a.call), PersistAttempt(db, a).value;
      && a.stage.sequence == |StreamOf(l, key)| + 1
      && (key, a.stage.sequence) !in db.snapshots
      && |StreamOf(l', key)| == |StreamOf(l, key)| + 1
      && (forall other :: other != key ==> StreamOf(l', other) == StreamOf(l, other) && SameRows(db.snapshots, db'.snapshots, other))
      && WriteSnapshot(db.snapshots, key, a.stage.sequence, a.stage.write) == Some(db'.snapshots)
      && (a.stage.write.NoSnapshot? <==> a.stage.sequence % config.interval != 0)
  {
    var key := KeyOf(a.call.command);
    WinnerIsCurrent(config, db, l, a);
    WinnerCommits(config, db, l, a);
    NextIsFree(db, l, key);
    forall other | other != key
      ensures SameRows(db.snapshots, PersistAttempt(db, a).value.snapshots, other)
    {
      OtherRowsKept(db.snapshots, key, a.stage.sequence, a.stage.write, other);
    }
  }

  /** A commit keeps all streams regular unless it inserts a snapshot beside an existing row of its stream. */
  lemma CommitRegular(config: Config, db: Db, l: Ledger, a: Attempt)
    requires config.Valid() && SimDb(db, l) && AttemptOk(config, l, a) && a.stage.Prepared? && PersistAttempt(db, a).Ok?
    requires Regular(config, db.snapshots, l)
    ensures Regular(config, PersistAttempt(db, a).value.snapshots, Commit(l, a.call))
      <==> !(a.stage.write.Insert? && RowsOf(db.snapshots, KeyOf(a.call.command)) != {})
  {
    var key, l', snapshots' := KeyOf(a.call.command), Commit(l, a.call), PersistAttempt(db, a).value.snapshots;
    CommitRows(config, db, l, a);
    assert RegularAt(config, db.snapshots, key, |StreamOf(l, key)|);
    WriteRegular(config, db.snapshots, key, |StreamOf(l, key)|, a.stage.write);
    forall other | other != key
      ensures RegularAt(config, snapshots', other, |StreamOf(l', other)|)
    {
      assert RegularAt(config, db.snapshots, other, |StreamOf(l, other)|);
      SameRowsCarry(db.snapshots, snapshots', other);
    }
  }

  // ---------- Runs without straddling reads ----------

  /** The step reads a tail after a snapshot appeared that the same attempt had found missing. */
  ghost predicate Straddles(w: World, step: Step) {
    && step.ReadTail?
    && step.attempt in w.attempts
    && w.attempts[step.attempt].stage.SnapshotRead?
    && w.attempts[step.attempt].stage.version == 0
    && RowsOf(w.db.snapshots, KeyOf(w.attempts[step.attempt].call.command)) != {}
  }

  /** In no load does the first snapshot of its stream fall between the two reads. */
  ghost predicate Snug(config: Config, steps: seq<Step>)
    requires config.Valid()
  {
    steps == [] ||
    var before := steps[..|steps| - 1];
    Snug(config, before) && !Straddles(Run(config, before), steps[|steps| - 1])
  }

  /** What an attempt that found no snapshot may still insert is stale once there is one. */
  ghost predicate Timely(snapshots: Snapshots, l: Ledger, a: Attempt) {
    var key := KeyOf(a.call.command);
    RowsOf(snapshots, key) != {} ==>
      match a.stage
      case Loaded(_, sequence, version) => version == 0 ==> sequence < |StreamOf(l, key)|
      case Prepared(_, sequence, write) => write.Insert? ==> sequence <= |StreamOf(l, key)|
      case _ => true
  }

  ghost predicate SnugState(config: Config, w: World, l: Ledger)
    requires config.Valid()
  {
    && Sim(config, w, l)
    && Regular(config, w.db.snapshots, l)
    && (forall id :: id in w.attempts ==> Timely(w.db.snapshots, l, w.attempts[id]))
  }

  lemma OthersStayTimely(config: Config, db: Db, l: Ledger, a: Attempt, other: Attempt)
    requires config.Valid() && SimDb(db, l) && AttemptOk(config, l, a) && a.stage.Prepared? && PersistAttempt(db, a).Ok?
    requires AttemptOk(config, l, other) && Timely(db.snapshots, l, other)
    ensures Timely(PersistAttempt(db, a).value.snapshots, Commit(l, a.call), other)
  {
    CommitRows(config, db, l, a);
    var key := KeyOf(other.call.command);
    if key != KeyOf(a.call.command) {
      SameRowsCarry(db.snapshots, PersistAttempt(db, a).value.snapshots, key);
    }
  }

  lemma WinnerIsNotSecond(config: Config, db: Db, l: Ledger, a: Attempt)
    requires config.Valid() && SimDb(db, l) && AttemptOk(config, l, a) && a.stage.Prepared? && PersistAttempt(db, a).Ok?
    requires Timely(db.snapshots, l, a)
    ensures !(a.stage.write.Insert? && RowsOf(db.snapshots, KeyOf(a.call.command)) != {})
  {
    WinnerIsCurrent(config, db, l, a);
  }

  lemma PersistSnug(config: Config, w: World, l: Ledger, id: nat, replied: bool)
    requires config.Valid() && SnugState(config, w, l) && id in w.attempts && w.attempts[id].stage.Prepared?
    requires PersistAttempt(w.db, w.attempts[id]).Ok?
    ensures var w' := Next(config, w, Persist(id, replied));
      && Regular(config, w'.db.snapshots, Commit(l, w.attempts[id].call))
      && forall other :: other in w'.attempts ==> Timely(w'.db.snapshots, Commit(l, w.attempts[id].call), w'.attempts[other])
  {
    var a := w.attempts[id];
    assert AttemptOk(config, l, a) && Timely(w.db.snapshots, l, a);
    WinnerIsNotSecond(config, w.db, l, a);
    CommitRegular(config, w.db, l, a);
    PersistOutcome(config, w, id, replied);
    forall other | other in w.attempts && other != id
      ensures Timely(PersistAttempt(w.db, a).value.snapshots, Commit(l, a.call), w.attempts[other])
    {
      assert AttemptOk(config, l, w.attempts[other]) && Timely(w.db.snapshots, l, w.attempts[other]);
      OthersStayTimely(config, w.db, l, a, w.attempts[other]);
    }
  }

  lemma DecisionTimely(config: Config, snapshots: Snapshots, l: Ledger, a: Attempt)
    requires config.Valid() && a.stage.Loaded? && Timely(snapshots, l, a)
    ensures Timely(snapshots, l,
                   a.(stage := AfterDecision(config, a.call.command, a.stage.state, a.stage.sequence, a.stage.version)))
  {
  }

  /** Every other step leaves the tables alone. */
  lemma QuietSnug(config: Config, w: World, l: Ledger, step: Step)
    requires config.Valid() && !Straddles(w, step) && Linearized(w, step) == None
    requires forall id :: id in w.attempts ==> Timely(w.db.snapshots, l, w.attempts[id])
    ensures var w' := Next(config, w, step);
      && w'.db == w.db
      && forall id :: id in w'.attempts ==> Timely(w'.db.snapshots, l, w'.attempts[id])
  {
    if step.Decide? && step.attempt in w.attempts && w.attempts[step.attempt].stage.Loaded? {
      DecisionTimely(config, w.db.snapshots, l, w.attempts[step.attempt]);
    }
  }

  lemma NextSnug(config: Config, w: World, l: Ledger, step: Step)
    requires config.Valid() && SnugState(config, w, l) && SagaInvariant(l) && !Straddles(w, step)
    ensures SnugState(config, Next(config, w, step), Effect(w, l, step))
  {
    NextSim(config, w, l, step);
    if Linearized(w, step) == None {
      QuietSnug(config, w, l, step);
    } else {
      assert AttemptOk(config, l, w.attempts[step.attempt]);
      PersistSnug(config, w, l, step.attempt, step.replied);
    }
  }

  lemma {:induction false} SnugRuns(config: Config, steps: seq<Step>)
    requires config.Valid() && Snug(config, steps)
    ensures SnugState(config, Run(config, steps), LedgerOf(config, steps))
  {
    RefinesSerialExecution(config, steps);
    if steps == [] {
      forall key
        ensures RegularAt(config, Run(config, steps).db.snapshots, key, |StreamOf(LedgerOf(config, steps), key)|)
      {
        SmallQuotient(config.interval);
      }
    } else {
      var before := steps[..|steps| - 1];
      SnugRuns(config, before);
      RefinesSerialExecution(config, before);
      NextSnug(config, Run(config, before), LedgerOf(config, before), steps[|steps| - 1]);
      LedgerStep(config, steps);
    }
  }

  lemma SmallQuotient(interval: nat)
    requires interval > 0
    ensures 0 / interval == 0
  {
    DivisionIsUnique(0, 0, 0, interval);
  }

  /**
   * A stream keeps a single snapshot row, with one version for each interval passed, in every run in
   * which no load reads its tail after a first snapshot that its own snapshot query had missed.
   */
  lemma SingleRowWithoutStraddling(config: Config, steps: seq<Step>, key: Key)
    requires config.Valid() && Snug(config, steps)
    ensures RegularAt(config, Run(config, steps).db.snapshots, key, |StreamOf(LedgerOf(config, steps), key)|)
  {
    SnugRuns(config, steps);
  }

  // ---------- Blocked streams ----------

  /** No snapshot built on this version can be written: it is not the first, and no single row carries it. */
  predicate Dead(snapshots: Snapshots, key: Key, version: nat) {
    version > 0 && |Carriers(snapshots, key, version)| != 1
  }

  /** Whatever the attempt has read or prepared for this stream leads to no snapshot. */
  predicate DeadEnd(snapshots: Snapshots, key: Key, a: Attempt) {
    KeyOf(a.call.command) == key ==>
      match a.stage
      case SnapshotRead(_, _, version) => Dead(snapshots, key, version)
      case Loaded(_, _, version) => Dead(snapshots, key, version)
      case Prepared(_, _, write) =>
        !write.Insert? && (write.Update? ==> write.version > 0 && Dead(snapshots, key, write.version - 1))
      case _ => true
  }

  /** The stream has rows, every version is carried by several, and no attempt holds an older one. */
  ghost predicate Blocked(w: World, key: Key) {
    && RowsOf(w.db.snapshots, key) != {}
    && (forall at :: at in RowsOf(w.db.snapshots, key) ==> Dead(w.db.snapshots, key, w.db.snapshots[at].version))
    && (forall id :: id in w.attempts ==> DeadEnd(w.db.snapshots, key, w.attempts[id]))
  }

  /** No event of the stream was added at a multiple of the interval. */
  ghost predicate NoneDue(config: Config, events: map<(Key, nat), Event>, events': map<(Key, nat), Event>, key: Key)
    requires config.Valid()
  {
    forall s :: (key, s) in events' && s % config.interval == 0 ==> (key, s) in events
  }

  lemma BlockedRowsStay(config: Config, w: World, l: Ledger, key: Key, id: nat)
    requires config.Valid() && Sim(config, w, l) && Blocked(w, key)
    requires id in w.attempts && w.attempts[id].stage.Prepared? && PersistAttempt(w.db, w.attempts[id]).Ok?
    ensures SameRows(w.db.snapshots, PersistAttempt(w.db, w.attempts[id]).value.snapshots, key)
    ensures NoneDue(config, w.db.events, PersistAttempt(w.db, w.attempts[id]).value.events, key)
  {
    assert AttemptOk(config, l, w.attempts[id]) && DeadEnd(w.db.snapshots, key, w.attempts[id]);
    DeadRowsStay(config, w.db, l, key, w.attempts[id]);
  }

  lemma DeadRowsStay(config: Config, db: Db, l: Ledger, key: Key, a: Attempt)
    requires config.Valid() && SimDb(db, l) && AttemptOk(config, l, a) && DeadEnd(db.snapshots, key, a)
    requires a.stage.Prepared? && PersistAttempt(db, a).Ok?
    ensures SameRows(db.snapshots, PersistAttempt(db, a).value.snapshots, key)
    ensures NoneDue(config, db.events, PersistAttempt(db, a).value.events, key)
  {
    CommitRows(config, db, l, a);
  }

  lemma DeadEndStays(snapshots: Snapshots, snapshots': Snapshots, key: Key, a: Attempt)
    requires SameRows(snapshots, snapshots', key) && DeadEnd(snapshots, key, a)
    ensures DeadEnd(snapshots', key, a)
  {
    SameRowsCarry(snapshots, snapshots', key);
  }

  lemma BlockedPersist(config: Config, w: World, l: Ledger, key: Key, id: nat, replied: bool)
    requires config.Valid() && Sim(config, w, l) && Blocked(w, key)
    requires id in w.attempts && w.attempts[id].stage.Prepared? && PersistAttempt(w.db, w.attempts[id]).Ok?
    ensures Blocked(Next(config, w, Persist(id, replied)), key)
    ensures NoneDue(config, w.db.events, Next(config, w, Persist(id, replied)).db.events, key)
  {
    var w' := Next(config, w, Persist(id, replied));
    PersistOutcome(config, w, id, replied);
    BlockedRowsStay(config, w, l, key, id);
    SameRowsCarry(w.db.snapshots, w'.db.snapshots, key);
    forall other | other in w.attempts
      ensures DeadEnd(w'.db.snapshots, key, w.attempts[other])
    {
      DeadEndStays(w.db.snapshots, w'.db.snapshots, key, w.attempts[other]);
    }
  }

  lemma BlockedRead(config: Config, w: World, key: Key, id: nat, at: Option<nat>)
    requires config.Valid() && Blocked(w, key)
    ensures Blocked(Next(config, w, ReadSnapshot(id, at)), key)
  {
    if id in w.attempts && w.attempts[id].stage.Starting? && at.Some? && (KeyOf(w.attempts[id].call.command), at.value) in w.db.snapshots {
      if KeyOf(w.attempts[id].call.command) == key {
        assert (key, at.value) in RowsOf(w.db.snapshots, key);
      }
    }
  }

  lemma BlockedQuiet(config: Config, w: World, key: Key, step: Step)
    requires config.Valid() && Blocked(w, key) && Linearized(w, step) == None && !step.ReadSnapshot?
    ensures Blocked(Next(config, w, step), key) && Next(config, w, step).db == w.db
  {
  }

  lemma BlockedStep(config: Config, w: World, l: Ledger, key: Key, step: Step)
    requires config.Valid() && Sim(config, w, l) && Blocked(w, key)
    ensures Blocked(Next(config, w, step), key)
    ensures NoneDue(config, w.db.events, Next(config, w, step).db.events, key)
  {
    if Linearized(w, step) != None {
      BlockedPersist(config, w, l, key, step.attempt, step.replied);
    } else if step.ReadSnapshot? {
      BlockedRead(config, w, key, step.attempt, step.at);
    } else {
      BlockedQuiet(config, w, key, step);
    }
  }

  lemma BlockedRun(config: Config, steps: seq<Step>, step: Step, key: Key)
    requires config.Valid() && Blocked(Run(config, steps), key)
    ensures Blocked(Next(config, Run(config, steps), step), key)
    ensures NoneDue(config, Run(config, steps).db.events, Next(config, Run(config, steps), step).db.events, key)
  {
    RefinesSerialExecution(config, steps);
    BlockedStep(config, Run(config, steps), LedgerOf(config, steps), key, step);
  }

  lemma NoneDueTrans(config: Config, a: map<(Key, nat), Event>, b: map<(Key, nat), Event>, c: map<(Key, nat), Event>, key: Key)
    requires config.Valid() && NoneDue(config, a, b, key) && NoneDue(config, b, c, key)
    ensures NoneDue(config, a, c, key)
  {
  }

  /** A blocked stream stays blocked and never again gets an event due for a snapshot, in any continuation. */
  lemma {:induction false} BlockedStreamStops(config: Config, steps: seq<Step>, more: seq<Step>, key: Key)
    requires config.Valid() && Blocked(Run(config, steps), key)
    ensures Blocked(Run(config, steps + more), key)
    ensures NoneDue(config, Run(config, steps).db.events, Run(config, steps + more).db.events, key)
  {
    if more == [] {
      assert steps + more == steps;
    } else {
      var before := steps + more[..|more| - 1];
      assert (steps + more)[..|steps + more| - 1] == before;
      BlockedStreamStops(config, steps, more[..|more| - 1], key);
      BlockedRun(config, before, more[|more| - 1], key);
      NoneDueTrans(config, Run(config, steps).db.events, Run(config, before).db.events, Run(config, steps + more).db.events, key);
    }
  }
}
