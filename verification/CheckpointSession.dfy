/** One database session committing checkpoints on one task.

    The session keeps the task object's loaded fields and the events staged on it; the store
    is what every session shares. A checkpoint locks the row, compares it with what the run
    expects, stages in memory and commits, or recovers. */
module CheckpointSession {
  import opened Wrappers
  import opened TaskProtocol

  /** The committed row and log of one task. */
  class TaskStore {
    var row: Row
    var log: seq<Event>

    constructor (initial: Row)
      ensures row == initial && log == []
    {
      row, log := initial, [];
    }

    ghost function World(): World
      reads this
    {
      TaskProtocol.World.World(row, log)
    }
  }

  /** A failure of the database or of the process around one checkpoint. */
  datatype Fault = DeadlineFault(expired: bool) | DatabaseFault(timeout: bool) | MissingRow | OtherFault

  /** An exception on the way through one checkpoint. */
  datatype Raised = CheckpointError(code: Failure) | InvalidTransition | External(fault: Fault)

  /** How each exception is reported by the workflow it happened in. */
  function Classify(a: Action, raised: Raised): Failure {
    match raised
    case CheckpointError(code) => code
    case InvalidTransition => MismatchCode(a)
    case External(DeadlineFault(expired)) => if expired then Timeout else PersistenceFailure
    case External(DatabaseFault(timeout)) => if timeout then Timeout else PersistenceFailure
    case External(MissingRow) => InvalidScope
    case External(OtherFault) => InternalFailure
  }

  /** Staging that breaks off after so many effects on the session. */
  datatype Break = Break(effects: nat, fault: Fault)

  /** Which external calls of one checkpoint fail. */
  datatype Faults = Faults(
    connect: Option<Fault>,
    lock: Option<Fault>,
    staging: Option<Break>,
    commit: Option<Fault>,
    rollback: bool,
    restore: bool)

  predicate NoFault(f: Faults) {
    f.connect.None? && f.lock.None? && f.staging.None? && f.commit.None?
  }

  // ---------------------------------------------------------------- the first thing to fail

  /** The code a fault of the surroundings is reported with. */
  function Reported(fault: Fault): Failure {
    match fault
    case DeadlineFault(true) => Timeout
    case DeadlineFault(false) => PersistenceFailure
    case DatabaseFault(true) => Timeout
    case DatabaseFault(false) => PersistenceFailure
    case MissingRow => InvalidScope
    case OtherFault => InternalFailure
  }

  /** The code of a step that does not fit the stored task. */
  predicate Unexpected(a: Action, code: Failure) {
    if a.Workflow? then code == InvalidState else code == ConcurrentModification
  }

  /** What fails up to the comparison of the locked row, and its code. */
  predicate LockFails(row: Row, a: Action, f: Faults, poisoned: bool, code: Failure)
    requires IsCheckpoint(a)
  {
    if poisoned then code == PersistenceFailure
    else if f.connect.Some? then code == Reported(f.connect.value)
    else if f.lock.Some? then code == Reported(f.lock.value)
    else row != Row(ExpectedStatus(a), ExpectedAssignee(a)) && Unexpected(a, code)
  }

  /** What fails while a step is staged on a task in the given status, and its code. */
  predicate StagingFails(status: TaskStatus, log: seq<Event>, a: Action, broken: Option<Break>, code: Failure)
    requires IsCheckpoint(a)
  {
    if Guard(log, a).Some? then code == Guard(log, a).value
    else if broken.Some? && broken.value.effects == 0 then code == Reported(broken.value.fault)
    else if Target(a).Some? && !CanTransition(status, Target(a).value) then Unexpected(a, code)
    else broken.Some? && code == Reported(broken.value.fault)
  }

  /** Nothing fails up to the comparison of the row. */
  predicate LockHolds(row: Row, a: Action, f: Faults, poisoned: bool)
    requires IsCheckpoint(a)
  {
    !poisoned && f.connect.None? && f.lock.None? && row == Row(ExpectedStatus(a), ExpectedAssignee(a))
  }

  /** Nothing fails while a step is staged. */
  predicate StagingHolds(status: TaskStatus, log: seq<Event>, a: Action, broken: Option<Break>)
    requires IsCheckpoint(a)
  {
    Guard(log, a).None? && broken.None? && (Target(a).Some? ==> CanTransition(status, Target(a).value))
  }

  /** The first thing that fails in a transaction, and its code. */
  predicate FirstFails(w: World, a: Action, f: Faults, poisoned: bool, code: Failure)
    requires IsCheckpoint(a)
  {
    || LockFails(w.row, a, f, poisoned, code)
    || (LockHolds(w.row, a, f, poisoned) && StagingFails(w.row.status, w.log, a, f.staging, code))
    || (LockHolds(w.row, a, f, poisoned) && StagingHolds(w.row.status, w.log, a, f.staging)
        && f.commit.Some? && code == Reported(f.commit.value))
  }

  class Session {
    const store: TaskStore
    /** loaded fields of the task object; None after they expire */
    var status: Option<TaskStatus>
    var assignee: Option<Option<AgentId>>
    var pending: seq<Event>
    /** a failed rollback leaves the session unable to connect until a rollback succeeds */
    var poisoned: bool

    constructor (store: TaskStore)
      ensures this.store == store && Valid() && Fresh() && !poisoned
    {
      this.store := store;
      status, assignee, pending, poisoned := None, None, [], false;
    }

    ghost predicate Valid()
      reads this
    {
      !poisoned ==> pending == []
    }

    /** What the task object shows is what is stored. */
    ghost predicate Fresh()
      reads this, store
    {
      && (status.Some? ==> status.value == store.row.status)
      && (assignee.Some? ==> assignee.value == store.row.assignee)
    }

    /** Stages one checkpoint on the task object and the session, without committing. */
    method Stage(a: Action, broken: Option<Break>) returns (raised: Option<Raised>)
      requires IsCheckpoint(a) && status.Some? && assignee.Some?
      modifies this
      ensures poisoned == old(poisoned) && (!a.Workflow? ==> assignee == old(assignee))
      ensures Guard(store.log, a).Some? ==> raised == Some(CheckpointError(Guard(store.log, a).value))
      ensures raised.Some? && raised.value.CheckpointError? ==> Guard(store.log, a).Some?
      ensures raised == Some(InvalidTransition) ==>
                Target(a).Some? && !CanTransition(old(status.value), Target(a).value)
      ensures raised.None? ==>
                && StagingHolds(old(status.value), store.log, a, broken)
                && status == (if Target(a).Some? then Target(a) else old(status))
                && assignee == (if a.Workflow? && a.step.Assignment?
                                then Some(Some(a.scope.developerId)) else old(assignee))
                && pending == old(pending) + Batch(old(status.value), a)
      ensures broken.None? && Guard(store.log, a).None? ==>
                raised == if Target(a).Some? && !CanTransition(old(status.value), Target(a).value)
                          then Some(InvalidTransition) else None
      ensures raised.Some? ==>
                StagingFails(old(status.value), store.log, a, broken, Classify(a, raised.value))
    {
      var guard := Guard(store.log, a);
      if guard.Some? {
        return Some(CheckpointError(guard.value));
      }
      if a.Workflow? && a.step.Assignment? {
        assignee := Some(Some(a.scope.developerId));
      }
      if broken.Some? && broken.value.effects == 0 {
        return Some(External(broken.value.fault));
      }
      var target := Target(a);
      if target.Some? {
        if !CanTransition(status.value, target.value) {
          return Some(InvalidTransition);
        }
        pending := pending + [StatusChanged(status.value, target.value, MoverOf(a), CorrelationOf(a))];
        if broken.Some? && broken.value.effects == 1 {
          return Some(External(broken.value.fault));
        }
        status := target;
      }
      raised := StageFacts(Facts(a), broken);
    }

    /** Stages the facts of a step one after another. */
    method StageFacts(facts: seq<Event>, broken: Option<Break>) returns (raised: Option<Raised>)
      modifies this`pending
      ensures raised == if broken.Some? then Some(External(broken.value.fault)) else None
      ensures raised.None? ==> pending == old(pending) + facts
    {
      for i := 0 to |facts|
        invariant pending == old(pending) + facts[..i]
      {
        if broken.Some? && broken.value.effects == 2 + i {
          return Some(External(broken.value.fault));
        }
        pending := pending + [facts[i]];
      }
      raised := if broken.Some? then Some(External(broken.value.fault)) else None;
    }

    /** Commits one checkpoint as one transaction, or leaves the store as it was. */
    method CommitCheckpoint(a: Action, f: Faults) returns (failure: Option<Failure>)
      requires IsCheckpoint(a) && Valid()
      modifies this, store
      ensures Valid()
      // success is exactly the specified step, failure is no step at all
      ensures failure.None? ==> Attempt(old(store.World()), a) == Committed(store.World())
      ensures failure.Some? ==> store.World() == old(store.World())
      ensures failure.None? ==> status == Some(store.row.status) && assignee == Some(store.row.assignee)
      // it succeeds exactly when nothing fails and the step is enabled
      ensures failure.None? <==> NoFault(f) && !old(poisoned) && Attempt(old(store.World()), a).Committed?
      // what is refused before the transaction is reported as such; after that a rollback that
      // fails outweighs whatever failed first
      ensures Precheck(a).Some? ==> failure == Precheck(a) && poisoned == old(poisoned)
      ensures Precheck(a).None? && failure.Some? ==>
                if f.rollback then failure.value == PersistenceFailure
                else FirstFails(old(store.World()), a, f, old(poisoned), failure.value)
      ensures Precheck(a).None? ==> poisoned == (failure.Some? && f.rollback)
      ensures NoFault(f) && !old(poisoned) && !f.rollback && Attempt(old(store.World()), a).Rejected? ==>
                failure == Some(Attempt(old(store.World()), a).code)
      // an unexpected state is reported only for a row that differs from the expected one,
      // for an edge that is not allowed, or for a log that forbids the step
      ensures failure == Some(MismatchCode(a)) ==> Attempt(old(store.World()), a) == Rejected(MismatchCode(a))
      // nothing staged survives, and the task object shows the stored row again
      ensures Precheck(a).None? && (failure.None? || !f.rollback) ==> pending == [] && Fresh()
      ensures Precheck(a).None? && failure.Some? && !f.restore && !old(poisoned) && f.connect.None? && f.lock.None? ==>
                Fresh()
      ensures failure.Some? && !f.restore && Snapshotted(old(store.row), a, f, old(poisoned)) ==>
                status == Some(store.row.status) && (a.Workflow? ==> assignee == Some(store.row.assignee))
    {
      var precheck := Precheck(a);
      if precheck.Some? {
        return precheck;
      }
      var raised, snapshot := Transact(a, f);
      if raised.None? {
        failure := None;
      } else {
        var rollbackFailed := Recover(a, snapshot, f);
        failure := Some(if rollbackFailed then PersistenceFailure else Classify(a, raised.value));
      }
    }

    /** The transaction itself, up to its commit or the first exception. */
    method Transact(a: Action, f: Faults) returns (raised: Option<Raised>, snapshot: Option<Row>)
      requires IsCheckpoint(a) && Valid() && Precheck(a).None?
      modifies this, store
      ensures poisoned == old(poisoned)
      ensures raised.None? <==> NoFault(f) && !poisoned && Attempt(old(store.World()), a).Committed?
      ensures raised.None? ==> Attempt(old(store.World()), a) == Committed(store.World())
      ensures raised.None? ==> pending == [] && status == Some(store.row.status) && assignee == Some(store.row.assignee)
      ensures raised.Some? ==> store.World() == old(store.World())
      ensures raised.Some? ==> raised.value.External? || Attempt(old(store.World()), a) == Rejected(Classify(a, raised.value))
      ensures NoFault(f) && !poisoned && raised.Some? ==> !raised.value.External?
      ensures raised.Some? ==> FirstFails(old(store.World()), a, f, poisoned, Classify(a, raised.value))
      ensures snapshot == if Snapshotted(old(store.row), a, f, poisoned) then Some(old(store.row)) else None
      ensures raised.Some? && snapshot.None? && !poisoned && f.connect.None? && f.lock.None? ==>
                status == Some(store.row.status) && assignee == Some(store.row.assignee)
      ensures raised.Some? && !a.Workflow? && !poisoned && f.connect.None? && f.lock.None? ==>
                assignee == Some(store.row.assignee)
    {
      ghost var locked;
      raised, locked := BeginAndLock(a, f);
      snapshot := None;
      if raised.None? {
        snapshot := Some(store.row);
        raised := Stage(a, f.staging);
        if raised.None? && f.commit.Some? {
          raised := Some(External(f.commit.value));
        }
        if raised.None? {
          store.row := Row(status.value, assignee.value);
          store.log := store.log + pending;
          pending := [];
        }
      }
    }

    /** Whether the checkpoint gets far enough to remember the fields it may change. */
    ghost predicate Snapshotted(row: Row, a: Action, f: Faults, poisoned: bool)
      requires IsCheckpoint(a)
    {
      && Precheck(a).None? && !poisoned && f.connect.None? && f.lock.None?
      && row == Row(ExpectedStatus(a), ExpectedAssignee(a))
    }

    /** Connects, reads the row under its lock into the task object, and compares it. */
    method BeginAndLock(a: Action, f: Faults) returns (raised: Option<Raised>, ghost locked: bool)
      requires IsCheckpoint(a)
      modifies this
      ensures pending == old(pending) && poisoned == old(poisoned)
      ensures raised.None? <==> !poisoned && f.connect.None? && f.lock.None?
                                && store.row == Row(ExpectedStatus(a), ExpectedAssignee(a))
      ensures locked <==> !poisoned && f.connect.None? && f.lock.None?
      ensures locked ==> status == Some(store.row.status) && assignee == Some(store.row.assignee)
      ensures !locked ==> raised.Some? && raised.value.External?
      ensures locked && raised.Some? ==> raised == Some(CheckpointError(MismatchCode(a)))
      ensures raised.Some? ==> LockFails(store.row, a, f, poisoned, Classify(a, raised.value))
    {
      locked := false;
      if poisoned {
        return Some(External(DatabaseFault(false))), false;
      }
      if f.connect.Some? {
        return Some(External(f.connect.value)), false;
      }
      if f.lock.Some? {
        return Some(External(f.lock.value)), false;
      }
      status, assignee, locked := Some(store.row.status), Some(store.row.assignee), true;
      raised := if status.value != ExpectedStatus(a) || assignee.value != ExpectedAssignee(a)
      then Some(CheckpointError(MismatchCode(a))) else None;
    }

    /** Rolls back, then restores the snapshotted fields on the task object. */
    method Recover(a: Action, snapshot: Option<Row>, f: Faults) returns (rollbackFailed: bool)
      requires IsCheckpoint(a)
      requires snapshot.Some? ==> snapshot.value == store.row
      modifies this
      ensures rollbackFailed == f.rollback && poisoned == f.rollback
      ensures !f.rollback ==> pending == [] && Fresh()
      ensures snapshot.Some? && !f.restore ==>
                && status == Some(store.row.status)
                && assignee == if a.Workflow? then Some(store.row.assignee) else if f.rollback then old(assignee) else None
      ensures f.rollback && (snapshot.None? || f.restore) ==> status == old(status) && assignee == old(assignee)
    {
      rollbackFailed := f.rollback;
      poisoned := rollbackFailed;
      if !rollbackFailed {
        pending, status, assignee := [], None, None;
      }
      if snapshot.Some? && !f.restore {
        status := Some(snapshot.value.status);
        if a.Workflow? {
          assignee := Some(snapshot.value.assignee);
        }
      }
    }
  }
}
