/** The outbox repository as an object: a checked write plan, then one atomic statement over the tables. */
module EventRepository {
  import opened Integers
  import opened Wrappers
  import opened Streams
  import opened Saga
  import EventStore

  type Db = EventStore.Db
  type Snapshots = map<(Key, nat), EventStore.Snapshot>

  const EVENT_BINDS: nat := 7
  const TASK_BINDS: nat := 11

  datatype Plan = NoOp | OneEvent(event: Event, sequence: nat, write: EventStore.SnapshotWrite)

  function SnapshotBinds(write: EventStore.SnapshotWrite): nat {
    match write
    case NoSnapshot => 0
    case Insert(_) => 5
    case Update(_, _) => 6
  }

  /** `WritePlan::new`: at most one event, and neither snapshot nor task without one. */
  function NewPlan(events: seq<(nat, Event)>, snapshot: Option<(State, nat)>, tasks: seq<NewTask>): Option<Plan> {
    if events == [] then if snapshot.Some? || tasks != [] then None else Some(NoOp)
    else if |events| > 1 || (snapshot.Some? && snapshot.value.1 > I64_MAX) then None
    else
      var write := if snapshot.None? then EventStore.NoSnapshot
                   else EventStore.SnapshotFor(snapshot.value.0, snapshot.value.1);
      if |tasks| * TASK_BINDS + EVENT_BINDS + SnapshotBinds(write) >= U16_MAX || events[0].0 > I64_MAX then None
      else Some(OneEvent(events[0].1, events[0].0, write))
  }

  /** The outbox gained exactly one row for each of the first `n` tasks. */
  ghost predicate RowsAdded(before: Outbox, after: Outbox, key: Key, sequence: nat, tasks: seq<NewTask>, n: nat)
    requires n <= |tasks|
  {
    && after.Keys == before.Keys + (set i | 0 <= i < n :: tasks[i].id)
    && (forall id :: id in before ==> after[id] == before[id])
    && (forall i :: 0 <= i < n ==>
          && tasks[i].id !in before
          && tasks[i].id in after
          && after[tasks[i].id] == OutboxRow(key, sequence, tasks[i].task))
  }

  /** A first snapshot is one row more; a later one takes the place of the one row of the version before it. */
  ghost predicate SnapshotStored(before: Snapshots, after: Snapshots, key: Key, sequence: nat, write: EventStore.SnapshotWrite) {
    match write
    case NoSnapshot => after == before
    case Insert(state) => (key, sequence) !in before && after == before[(key, sequence) := EventStore.Snapshot(1, state)]
    case Update(state, version) =>
      exists last ::
        && OnlyVersion(before, key, last, version - 1)
        && after == (before - {(key, last)})[(key, sequence) := EventStore.Snapshot(version, state)]
  }

  /** This row of the stream, and no other one, carries the version. */
  ghost predicate OnlyVersion(snapshots: Snapshots, key: Key, last: nat, version: int) {
    && (key, last) in snapshots
    && snapshots[(key, last)].version == version
    && (forall at :: at in snapshots && at.0 == key && snapshots[at].version == version ==> at == (key, last))
  }

  /** The tables before and after agree on everything but the rows one commit adds or replaces. */
  ghost predicate OneCommit(before: Db, after: Db, key: Key, event: Event, sequence: nat, write: EventStore.SnapshotWrite,
                            tasks: seq<NewTask>)
  {
    && (key, sequence) !in before.events
    && after.events == before.events[(key, sequence) := event]
    && SnapshotStored(before.snapshots, after.snapshots, key, sequence, write)
    && RowsAdded(before.outbox, after.outbox, key, sequence, tasks, |tasks|)
  }

  /** The ids of the tasks are new and differ from each other. */
  ghost predicate FreshTasks(outbox: Outbox, tasks: seq<NewTask>) {
    (forall i :: 0 <= i < |tasks| ==> tasks[i].id !in outbox) && Distinct(tasks, |tasks|)
  }

  ghost predicate Distinct(tasks: seq<NewTask>, n: nat)
    requires n <= |tasks|
  {
    forall i, j :: 0 <= i < j < n ==> tasks[i].id != tasks[j].id
  }

  /** The snapshot to write has its place: none there yet for a first one, exactly one row to replace for a later one. */
  predicate SnapshotFits(snapshots: Snapshots, key: Key, sequence: nat, write: EventStore.SnapshotWrite) {
    match write
    case NoSnapshot => true
    case Insert(_) => (key, sequence) !in snapshots
    case Update(_, version) =>
      && version > 0
      && |EventStore.Carriers(snapshots, key, version - 1)| == 1
      && ((key, sequence) in snapshots ==> (key, sequence) in EventStore.Carriers(snapshots, key, version - 1))
  }

  /** Another writer took the sequence number, or the snapshot version the write was built on. */
  predicate LostRace(db: Db, key: Key, sequence: nat, write: EventStore.SnapshotWrite) {
    (key, sequence) in db.events || !SnapshotFits(db.snapshots, key, sequence, write)
  }

  /** No key of the three tables is taken. */
  ghost predicate Room(db: Db, key: Key, sequence: nat, write: EventStore.SnapshotWrite, tasks: seq<NewTask>) {
    !LostRace(db, key, sequence, write) && FreshTasks(db.outbox, tasks)
  }

  /** What the checks before the statement admit: numbers fit `bigint`, parameters fit the protocol's limit. */
  predicate Admissible(sequence: nat, snapshot: Option<(State, nat)>, tasks: seq<NewTask>) {
    var snapshotBinds := if snapshot.None? then 0 else if snapshot.value.1 == 1 then 5 else 6;
    && sequence <= I64_MAX
    && (snapshot.Some? ==> snapshot.value.1 <= I64_MAX)
    && 11 * |tasks| + 7 + snapshotBinds < U16_MAX
  }

  function WriteOf(snapshot: Option<(State, nat)>): EventStore.SnapshotWrite {
    if snapshot.None? then EventStore.NoSnapshot else EventStore.SnapshotFor(snapshot.value.0, snapshot.value.1)
  }

  lemma SnapshotStaysInStream(snapshots: Snapshots, key: Key, sequence: nat, write: EventStore.SnapshotWrite)
    requires EventStore.WriteSnapshot(snapshots, key, sequence, write).Some?
    ensures var after := EventStore.WriteSnapshot(snapshots, key, sequence, write).value;
      forall at: (Key, nat) :: at.0 != key ==>
        && (at in after <==> at in snapshots)
        && (at in after ==> after[at] == snapshots[at])
  {
  }

  lemma SnapshotIsStored(snapshots: Snapshots, key: Key, sequence: nat, write: EventStore.SnapshotWrite)
    ensures var after := EventStore.WriteSnapshot(snapshots, key, sequence, write);
      && (after.Some? <==> SnapshotFits(snapshots, key, sequence, write))
      && (after.Some? ==> SnapshotStored(snapshots, after.value, key, sequence, write))
  {
    if write.Update? && SnapshotFits(snapshots, key, sequence, write) {
      var carriers := EventStore.Carriers(snapshots, key, write.version - 1);
      OnlyElement(carriers);
      var at :| carriers == {at};
      assert at in carriers && at == (key, at.1);
      forall other | other in snapshots && other.0 == key && snapshots[other].version == write.version - 1
        ensures other == at
      {
        assert other in carriers;
      }
      assert OnlyVersion(snapshots, key, at.1, write.version - 1);
    }
  }

  lemma OnlyElement<T>(s: set<T>)
    requires |s| == 1
    ensures exists x :: s == {x}
  {
    var x :| x in s;
    assert |s - {x}| == 0;
    assert s == {x};
  }

  lemma RowAdded(before: Outbox, after: Outbox, key: Key, sequence: nat, tasks: seq<NewTask>, n: nat)
    requires n < |tasks| && RowsAdded(before, after, key, sequence, tasks, n) && tasks[n].id !in after
    ensures Distinct(tasks, n) ==> Distinct(tasks, n + 1)
    ensures RowsAdded(before, after[tasks[n].id := OutboxRow(key, sequence, tasks[n].task)], key, sequence, tasks, n + 1)
  {
  }

  lemma IdTaken(before: Outbox, after: Outbox, key: Key, sequence: nat, tasks: seq<NewTask>, n: nat)
    requires n < |tasks| && RowsAdded(before, after, key, sequence, tasks, n) && tasks[n].id in after
    ensures !FreshTasks(before, tasks)
  {
    if tasks[n].id !in before {
      var i :| 0 <= i < n && tasks[i].id == tasks[n].id;
      assert !Distinct(tasks, |tasks|);
    }
  }

  /** The outbox part of the statement: one row for each task, or none at all when an id is taken. */
  method InsertTasks(before: Outbox, key: Key, sequence: nat, tasks: seq<NewTask>) returns (r: Option<Outbox>)
    ensures r == Publish(before, key, sequence, tasks)
    ensures r.Some? <==> FreshTasks(before, tasks)
    ensures r.Some? ==> RowsAdded(before, r.value, key, sequence, tasks, |tasks|)
  {
    var outbox: Outbox := before;
    for i := 0 to |tasks|
      invariant Publish(outbox, key, sequence, tasks[i..]) == Publish(before, key, sequence, tasks)
      invariant RowsAdded(before, outbox, key, sequence, tasks, i)
      invariant Distinct(tasks, i)
    {
      assert tasks[i..][1..] == tasks[i + 1..];
      if tasks[i].id in outbox {
        IdTaken(before, outbox, key, sequence, tasks, i);
        return None;
      }
      RowAdded(before, outbox, key, sequence, tasks, i);
      outbox := outbox[tasks[i].id := OutboxRow(key, sequence, tasks[i].task)];
    }
    return Some(outbox);
  }

  class Repository {
    var db: Db

    constructor ()
      ensures db == EventStore.Db(map[], map[], map[])
    {
      db := EventStore.Db(map[], map[], map[]);
    }

    /**
     * The single modifying statement. Everything it writes becomes visible together; any violated key
     * or lost snapshot race leaves all three tables as they were. A lost race is an optimistic conflict,
     * whatever the task ids; a task id that is taken or repeated is an unknown error.
     */
    method PersistOne(key: Key, event: Event, sequence: nat, write: EventStore.SnapshotWrite, tasks: seq<NewTask>)
      returns (r: Result<(), EventStore.PersistenceError>)
      modifies this
      ensures match EventStore.PersistOne(old(db), key, event, sequence, write, tasks)
        case Ok(after) => r == Ok(()) && db == after
        case Err(error) => r == Err(error) && db == old(db)
      ensures r.Ok? <==> Room(old(db), key, sequence, write, tasks)
      ensures r == Err(EventStore.OptimisticLockError) <==> LostRace(old(db), key, sequence, write)
      ensures r == Err(EventStore.UnknownError) <==>
        !LostRace(old(db), key, sequence, write) && !FreshTasks(old(db).outbox, tasks)
      ensures if r.Ok? then OneCommit(old(db), db, key, event, sequence, write, tasks) else db == old(db)
    {
      SnapshotIsStored(db.snapshots, key, sequence, write);
      var snapshots := EventStore.WriteSnapshot(db.snapshots, key, sequence, write);
      if snapshots.None? {
        return Err(EventStore.OptimisticLockError);
      }
      if (key, sequence) in db.events {
        return Err(EventStore.OptimisticLockError);
      }
      var outbox := InsertTasks(db.outbox, key, sequence, tasks);
      if outbox.None? {
        return Err(EventStore.UnknownError);
      }
      db := EventStore.Db(db.events[(key, sequence) := event], snapshots.value, outbox.value);
      return Ok(());
    }

    /** A command's write: exactly one event with all its tasks, or no change at all. */
    method Persist(key: Key, events: seq<(nat, Event)>, snapshot: Option<(State, nat)>, tasks: seq<NewTask>)
      returns (r: Result<(), EventStore.PersistenceError>)
      modifies this
      ensures r.Err? || events == [] ==> db == old(db)
      ensures r.Ok? && events != [] ==>
        |events| == 1 && OneCommit(old(db), db, key, events[0].1, events[0].0, WriteOf(snapshot), tasks)
      ensures r.Ok? <==>
        if events == [] then snapshot.None? && tasks == []
        else
          && |events| == 1
          && Admissible(events[0].0, snapshot, tasks)
          && Room(old(db), key, events[0].0, WriteOf(snapshot), tasks)
      ensures r == Err(EventStore.OptimisticLockError) <==>
        && |events| == 1
        && Admissible(events[0].0, snapshot, tasks)
        && LostRace(old(db), key, events[0].0, WriteOf(snapshot))
    {
      var plan := NewPlan(events, snapshot, tasks);
      if plan.None? {
        return Err(EventStore.UnknownError);
      }
      if plan.value.NoOp? {
        return Ok(());
      }
      r := PersistOne(key, plan.value.event, plan.value.sequence, plan.value.write, tasks);
    }
  }
}
