/** The bounded Developer-Reviewer run: cycles of checkpoints around awaited collaborators,
    and one recovery checkpoint when something fails. */
module WorkflowOrchestration {
  import opened Wrappers
  import opened TaskProtocol
  import opened WorkflowRuns
  import opened CheckpointSession
  import opened WorkflowSchedule

  datatype Exit =
    | ApprovedAt(cycle: int)
    | ExhaustedAt(cycle: int)
    | WorkflowError(code: Failure)
    | DeadlineExpired
    | CancelledExit
    | UnexpectedError

  /** The codes a started run keeps; every other one becomes an internal failure. */
  function Normalize(code: Failure): Failure {
    if code in {UnsafeHandoff, CollaboratorFailure, PersistenceFailure, InvalidState, Timeout}
    then code else InternalFailure
  }

  class WorkflowOrchestrator {
    const session: Session
    const scope: WorkflowScope
    const stimuli: nat -> Stimulus
    var tick: nat
    var started: bool
    var checkpointStatus: TaskStatus
    ghost var origin: World
    /** the turns given before the run */
    ghost var base: nat
    ghost var trace: seq<TraceStep>
    /** the run's own checkpoints in its trace */
    ghost var steps: seq<WorkflowStep>
    /** whether the recovery checkpoint, once tried, met no fault */
    ghost var recovery: Option<bool>

    constructor (session: Session, scope: WorkflowScope, stimuli: nat -> Stimulus)
      ensures this.session == session && this.scope == scope && this.stimuli == stimuli
    {
      this.session, this.scope, this.stimuli := session, scope, stimuli;
      tick, started, checkpointStatus := 0, false, Ready;
      origin, base, trace, steps, recovery := World(Row(Ready, None), []), 0, [], [], None;
    }

    /** No other transaction ever commits during the run. */
    ghost predicate Alone() {
      forall n: nat :: stimuli(n).others == []
    }

    /** Nothing interferes and nothing fails: every collaborator returns, and every result is valid. */
    ghost predicate Smooth() {
      && Alone()
      && forall n: nat :: Quiet(stimuli(n))
    }

    predicate Quiet(s: Stimulus) {
      && s.faults == Faults(None, None, None, None, false, false) && s.reply == Returned && s.preflight.None?
      && s.safeHandoff && 0.0 <= s.score <= 1.0 && s.findings <= 128
    }

    ghost predicate AlwaysApproved() {
      forall n: nat :: stimuli(n).decision == ReviewApproved
    }

    ghost function Last(): WorkflowStep
      requires steps != []
      reads this
    {
      steps[|steps| - 1]
    }

    /** Some collaborator answers with a cancellation. */
    ghost predicate SomeoneCancels() {
      exists n: nat :: stimuli(n).reply.Cancelled?
    }

    ghost function Plan(): Schedule
      reads this`base
    {
      Schedule(base, if scope.maxCycles < 0 then 0 else scope.maxCycles)
    }

    /** The run, so far undisturbed, is about to give the turn of the point. */
    ghost predicate At(p: Point)
      reads this, session
    {
      && InRun(Plan(), p) && tick == TickOf(Plan(), p) && !session.poisoned
      && |steps| == CommitsBefore(Plan(), p) && Clear(stimuli, Plan(), p)
    }

    /** What an exit says of the way a run ends. */
    ghost function FinishOf(exit: Exit): Finish {
      match exit
      case ApprovedAt(cycle) => ApprovedIn(cycle)
      case ExhaustedAt(_) => UsedUp
      case WorkflowError(code) => Trouble(code)
      case DeadlineExpired => Trouble(Timeout)
      case CancelledExit => Cancellation
      case UnexpectedError => Trouble(InternalFailure)
    }

    /** The run has just stopped at the point. */
    ghost predicate Halted(p: Point, exit: Exit)
      reads this, session
    {
      && InRun(Plan(), p) && tick == TickOf(Plan(), p) + 1 && Clear(stimuli, Plan(), p)
      && FinishAt(stimuli, Plan(), p) == Some(FinishOf(exit))
      && |steps| == CommitsBefore(Plan(), p) + (if exit.ApprovedAt? || exit.ExhaustedAt? then 1 else 0)
      && session.poisoned == Spoils(stimuli, Plan(), p)
    }

    ghost predicate Stuck(exit: Exit)
      reads this, session
    {
      exists p :: Halted(p, exit)
    }

    /** The run is at the point, or has stopped before it. */
    ghost predicate Proceeds(stop: Option<Exit>, p: Point)
      reads this, session
    {
      if stop.None? then At(p) else Stuck(stop.value)
    }

    /** A point that ends nothing is left behind. */
    lemma Onward(p: Point)
      requires InRun(Plan(), p) && !p.Closing? && Clear(stimuli, Plan(), p) && FinishAt(stimuli, Plan(), p).None?
      requires tick == TickOf(Plan(), p) + 1 && !session.poisoned
      requires |steps| == CommitsBefore(Plan(), p) + if Commits(p) then 1 else 0
      ensures At(Next(Plan(), p))
    {
      ClearNext(stimuli, Plan(), p);
    }

    /** The store is the result of the run's own commits interleaved with those of others. */
    ghost predicate Linked()
      reads this, session, session.store
    {
      && 1 <= scope.maxCycles && session.Valid() && steps == Steps(trace)
      && Link(origin, scope, trace, session.store.World(), Alone())
    }

    /** The run's own idea of the stored status is the one its last checkpoint committed. */
    ghost predicate AtStatus()
      reads this
    {
      started && steps != [] && checkpointStatus == StatusAfter(Last())
    }

    method Interleave() returns (s: Stimulus)
      requires Linked()
      modifies this`tick, this`trace, session.store
      ensures Linked() && tick == old(tick) + 1
      ensures s == stimuli(old(tick)) && session.store.World() == RunAll(old(session.store.World()), s.others)
    {
      s := stimuli(tick);
      tick := tick + 1;
      var w := TaskProtocol.World.World(session.store.row, session.store.log);
      LinkOthers(origin, scope, trace, w, Alone(), s.others);
      var after := RunAll(w, s.others);
      session.store.row, session.store.log := after.row, after.log;
      trace := trace + [Others(s.others)];
    }

    /** Gives up control to a collaborator while others may commit. */
    method Await() returns (s: Stimulus)
      requires Linked() && AtStatus()
      modifies this`tick, this`trace, session.store
      ensures Linked() && AtStatus() && tick == old(tick) + 1
      ensures s == stimuli(old(tick))
      // with no interference the tracked status is the stored one at every await
      ensures Alone() ==> old(checkpointStatus) == old(session.store.row.status)
      ensures Alone() ==> checkpointStatus == session.store.row.status
    {
      AloneWorld();
      s := Interleave();
      AloneWorld();
    }

    /** Alone, the row and the log are what the run's own checkpoints made of its origin. */
    lemma AloneWorld()
      requires Linked()
      ensures Alone() && steps == [] ==> session.store.World() == origin
      ensures Alone() && steps != [] ==>
                && session.store.row == Row(StatusAfter(Last()), Some(scope.developerId))
                && session.store.log == origin.log + Batches(scope, steps)
    {
      if Alone() {
        LinkAlone(origin, scope, trace, session.store.World());
      }
    }

    /** What one checkpoint, tried after what others commit first, makes of the store: its own step on
        the row it expects, or nothing of its own. */
    twostate predicate Writes(step: WorkflowStep, others: seq<Action>, committed: bool)
      reads this, session, session.store
    {
      var w, a := RunAll(old(session.store.World()), others), Workflow(scope, step);
      if committed then w.row == Row(ExpectedStatus(a), ExpectedAssignee(a)) && session.store.World() == Apply(w, a)
      else session.store.World() == w
    }

    /** Commits one of the run's checkpoints after whatever others commit first. */
    method Checkpoint(step: WorkflowStep) returns (failure: Option<Failure>, ghost clean: bool)
      requires Linked()
      requires if steps == [] then step == Assignment
               else Guard([], Workflow(scope, step)).None? ==> Follows(scope.maxCycles, Last(), step)
      requires steps != [] ==> ExpectedStatus(Workflow(scope, step)) == StatusAfter(Last()) && !step.Assignment?
      modifies this`tick, this`trace, this`steps, session, session.store
      ensures Linked()
      ensures failure.None? ==> steps == old(steps) + [step]
      ensures failure.None? ==> session.status == Some(StatusAfter(step)) && !session.poisoned
      ensures failure.Some? ==> steps == old(steps)
      ensures Writes(step, stimuli(old(tick)).others, failure.None?)
      ensures clean == (NoFault(stimuli(old(tick)).faults) && !old(session.poisoned))
      ensures Alone() && old(steps) != [] ==> failure != Some(InvalidState)
      ensures Alone() && old(steps) != [] && Guard([], Workflow(scope, step)).None? ==>
                (failure.None? <==> clean)
      ensures Alone() && old(steps) == [] && origin.row == Row(Ready, None) ==> (failure.None? <==> clean)
      // a failure says what failed first, or that the rollback did
      ensures tick == old(tick) + 1
      ensures session.poisoned == (failure.Some? && stimuli(old(tick)).faults.rollback)
      ensures Alone() && (old(steps) != [] || origin.row == Row(Ready, None)) ==>
                failure == CheckpointFailure(stimuli(old(tick)).faults, Guard([], Workflow(scope, step)).None?, old(session.poisoned))
    {
      var s := Interleave();
      clean := NoFault(s.faults) && !session.poisoned;
      ghost var enabled, mismatch := Standing(step);
      failure := CommitOwn(step, s.faults, enabled, mismatch);
    }

    /** How a checkpoint would come out on the stored row and log. */
    ghost predicate Stands(step: WorkflowStep, enabled: bool, mismatch: bool)
      reads this, session, session.store
    {
      var outcome := Attempt(session.store.World(), Workflow(scope, step));
      enabled == outcome.Committed? && mismatch == (outcome == Rejected(InvalidState))
    }

    /** Alone, the next checkpoint of a started run finds what it expects. */
    lemma Standing(step: WorkflowStep) returns (enabled: bool, mismatch: bool)
      requires Linked()
      requires steps != [] && Guard([], Workflow(scope, step)).None? ==> Follows(scope.maxCycles, Last(), step)
      requires steps != [] ==> ExpectedStatus(Workflow(scope, step)) == StatusAfter(Last()) && !step.Assignment?
      ensures Stands(step, enabled, mismatch)
      ensures Alone() && steps != [] ==> !mismatch
      ensures Alone() && steps != [] && Guard([], Workflow(scope, step)).None? ==> enabled
      ensures Alone() && steps == [] && step == Assignment && origin.row == Row(Ready, None) ==> enabled && !mismatch
      ensures enabled ==> Guard([], Workflow(scope, step)).None?
    {
      var w := session.store.World();
      AloneWorld();
      if Alone() && steps != [] {
        LinkAloneStep(origin, scope, trace, w, step);
      }
      if w.row == Row(Ready, None) {
        FirstCommits(w, scope);
      }
      var outcome := Attempt(w, Workflow(scope, step));
      enabled, mismatch := outcome.Committed?, outcome == Rejected(InvalidState);
    }

    /** Commits one checkpoint through the session. */
    method CommitRow(step: WorkflowStep, faults: Faults, ghost enabled: bool, ghost mismatch: bool)
      returns (failure: Option<Failure>)
      requires session.Valid() && Stands(step, enabled, mismatch)
      modifies session, session.store
      ensures session.Valid() && Writes(step, [], failure.None?)
      ensures failure.None? ==> Attempt(old(session.store.World()), Workflow(scope, step)) == Committed(session.store.World())
      ensures failure.None? ==> session.status == Some(session.store.row.status) && !session.poisoned
      ensures failure.None? <==> NoFault(faults) && !old(session.poisoned) && enabled
      ensures failure == Some(InvalidState) ==> mismatch
      ensures !mismatch ==> failure == CheckpointFailure(faults, enabled, old(session.poisoned))
      ensures session.poisoned == (failure.Some? && faults.rollback)
    {
      ghost var w := session.store.World();
      ghost var poisoned := session.poisoned;
      failure := session.CommitCheckpoint(Workflow(scope, step), faults);
      if failure.None? {
        CommittedRow(w, Workflow(scope, step));
      }
      if !mismatch {
        FirstFailure(w, scope, step, faults, poisoned, failure);
      }
    }

    /** Commits one checkpoint on the row and log as they are. */
    method CommitOwn(step: WorkflowStep, faults: Faults, ghost enabled: bool, ghost mismatch: bool)
      returns (failure: Option<Failure>)
      requires Linked() && Stands(step, enabled, mismatch)
      requires if steps == [] then step == Assignment
               else Guard([], Workflow(scope, step)).None? ==> Follows(scope.maxCycles, Last(), step)
      modifies this`trace, this`steps, session, session.store
      ensures Linked()
      ensures failure.None? ==> steps == old(steps) + [step] && session.status == Some(StatusAfter(step)) && !session.poisoned
      ensures failure.Some? ==> steps == old(steps)
      ensures Writes(step, [], failure.None?)
      ensures failure.None? <==> NoFault(faults) && !old(session.poisoned) && enabled
      ensures failure == Some(InvalidState) ==> mismatch
      ensures !mismatch ==> failure == CheckpointFailure(faults, enabled, old(session.poisoned))
      ensures session.poisoned == (failure.Some? && faults.rollback)
    {
      ghost var w := session.store.World();
      failure := CommitRow(step, faults, enabled, mismatch);
      if failure.None? {
        Extend(step, w);
      }
    }

    /** Adds a committed checkpoint to the trace. */
    ghost method Extend(step: WorkflowStep, w: World)
      requires 1 <= scope.maxCycles && session.Valid() && steps == Steps(trace) && Link(origin, scope, trace, w, Alone())
      requires Attempt(w, Workflow(scope, step)) == Committed(session.store.World())
      requires if steps == [] then step == Assignment
               else Guard([], Workflow(scope, step)).None? ==> Follows(scope.maxCycles, Last(), step)
      modifies this`trace, this`steps
      ensures Linked() && steps == old(steps) + [step] && session.store.row.status == StatusAfter(step)
    {
      LinkCommitted(origin, scope, trace, w, Alone(), step, session.store.World());
      trace, steps := trace + [Own(step)], steps + [step];
    }

    /** The last own checkpoint lets the given cycle begin. */
    ghost predicate MayBegin(cycle: int)
      reads this
    {
      && steps != []
      && if cycle == 1 then Last() == Assignment
         else Last().Review? && Last().cycle == cycle - 1 && Last().decision == ReviewChanges
    }

    /** The exits that leave a run to be recovered. */
    ghost predicate Failing(exit: Exit) {
      && !exit.ApprovedAt? && !exit.ExhaustedAt? && (Alone() ==> exit != WorkflowError(InvalidState))
      && (exit.CancelledExit? ==> SomeoneCancels())
    }

    ghost predicate InProgressOf(cycle: int)
      reads this
    {
      && steps != []
      && (MayBegin(cycle) || Last() in {DeveloperStarted(cycle), NextCycle(cycle),
                                        DeveloperCompleted(cycle), DeveloperHandoff(cycle)})
    }

    /** Commits a later checkpoint of the run, and keeps track of the status it leads to. */
    method Advance(step: WorkflowStep) returns (stop: Option<Exit>)
      requires Linked() && AtStatus() && !step.Assignment?
      requires Guard([], Workflow(scope, step)).None? ==> Follows(scope.maxCycles, Last(), step)
      requires ExpectedStatus(Workflow(scope, step)) == StatusAfter(Last())
      modifies this`tick, this`trace, this`steps, this`checkpointStatus, session, session.store
      ensures Linked() && AtStatus()
      ensures stop.None? ==> steps == old(steps) + [step] && session.status == Some(checkpointStatus)
      ensures stop.Some? ==> steps == old(steps) && Failing(stop.value) && stop.value.WorkflowError?
      ensures tick == old(tick) + 1
      ensures session.poisoned == (stop.Some? && stimuli(old(tick)).faults.rollback)
      ensures Alone() ==>
                CheckpointFailure(stimuli(old(tick)).faults, Guard([], Workflow(scope, step)).None?, old(session.poisoned))
                == if stop.None? then None else Some(stop.value.code)
    {
      var failure, clean := Checkpoint(step);
      if failure.Some? {
        stop := Some(WorkflowError(failure.value));
      } else {
        checkpointStatus := StatusAfter(step);
        stop := None;
      }
    }

    /** Starts the developer's part of a cycle. */
    method StartRound(cycle: int) returns (stop: Option<Exit>)
      requires Linked() && AtStatus() && 1 <= cycle <= scope.maxCycles && MayBegin(cycle)
      modifies this`tick, this`trace, this`steps, this`checkpointStatus, session, session.store
      ensures Linked() && AtStatus() && InProgressOf(cycle)
      ensures stop.None? ==> Last() == DeveloperStarted(cycle) || Last() == NextCycle(cycle)
      ensures stop.Some? ==> Failing(stop.value)
      ensures Alone() && old(At(During(cycle - 1, 0))) ==> Proceeds(stop, During(cycle - 1, 1))
    {
      stop := Pass(if cycle == 1 then DeveloperStarted(cycle) else NextCycle(cycle), During(cycle - 1, 0));
    }

    /** A checkpoint that carries nothing that could be invalid. */
    ghost predicate Plain(step: WorkflowStep) {
      match step
      case DeveloperStarted(c) => 1 <= c <= scope.maxCycles
      case NextCycle(c) => 1 <= c <= scope.maxCycles
      case DeveloperCompleted(c) => 1 <= c <= scope.maxCycles
      case DeveloperHandoff(c) => 1 <= c <= scope.maxCycles
      case _ => false
    }

    /** Commits a checkpoint of a round before its review. */
    method Pass(step: WorkflowStep, ghost p: Point) returns (stop: Option<Exit>)
      requires Linked() && AtStatus() && Plain(step) && p.During? && p.slot % 2 == 0 && p.slot < 6
      requires Follows(scope.maxCycles, Last(), step)
      requires ExpectedStatus(Workflow(scope, step)) == StatusAfter(Last())
      modifies this`tick, this`trace, this`steps, this`checkpointStatus, session, session.store
      ensures Linked() && AtStatus()
      ensures stop.None? ==> steps == old(steps) + [step]
      ensures stop.Some? ==> steps == old(steps) && Failing(stop.value)
      ensures Alone() && old(At(p)) ==> Proceeds(stop, During(p.round, p.slot + 1))
    {
      ghost var there := At(p);
      stop := Advance(step);
      if Alone() && there {
        Passed(p, stop);
      }
    }

    /** A checkpoint at a point that is no verdict is passed, or stops the run there. */
    lemma Passed(p: Point, stop: Option<Exit>)
      requires InRun(Plan(), p) && Commits(p) && !p.Closing? && !(p.During? && p.slot == 6) && Clear(stimuli, Plan(), p)
      requires tick == TickOf(Plan(), p) + 1
      requires |steps| == CommitsBefore(Plan(), p) + if stop.None? then 1 else 0
      requires stop.Some? ==> stop.value.WorkflowError?
      requires session.poisoned == (stop.Some? && stimuli(TickOf(Plan(), p)).faults.rollback)
      requires CheckpointFailure(stimuli(TickOf(Plan(), p)).faults, true, false)
            == if stop.None? then None else Some(stop.value.code)
      ensures Proceeds(stop, Next(Plan(), p))
    {
      if stop.None? {
        Onward(p);
      } else {
        assert Halted(p, stop.value);
      }
    }

    /** Starts the developer's part of a cycle and commits its completion. */
    method Develop(cycle: int) returns (stop: Option<Exit>)
      requires Linked() && AtStatus() && 1 <= cycle <= scope.maxCycles && MayBegin(cycle)
      modifies this`tick, this`trace, this`steps, this`checkpointStatus, session, session.store
      ensures Linked() && AtStatus() && InProgressOf(cycle)
      ensures stop.None? ==> Last() == DeveloperCompleted(cycle)
      ensures stop.Some? ==> Failing(stop.value)
      ensures Alone() && old(At(During(cycle - 1, 0))) ==> Proceeds(stop, During(cycle - 1, 3))
    {
      stop := StartRound(cycle);
      if stop.None? {
        stop := Collaborate(During(cycle - 1, 1));
        if stop.None? {
          stop := CompleteRound(cycle);
        }
      }
    }

    /** Commits the completion of the developer's part. */
    method CompleteRound(cycle: int) returns (stop: Option<Exit>)
      requires Linked() && AtStatus() && 1 <= cycle <= scope.maxCycles
      requires Last() == DeveloperStarted(cycle) || Last() == NextCycle(cycle)
      modifies this`tick, this`trace, this`steps, this`checkpointStatus, session, session.store
      ensures Linked() && AtStatus() && InProgressOf(cycle)
      ensures stop.None? ==> Last() == DeveloperCompleted(cycle)
      ensures stop.Some? ==> Failing(stop.value)
      ensures Alone() && old(At(During(cycle - 1, 2))) ==> Proceeds(stop, During(cycle - 1, 3))
    {
      stop := Pass(DeveloperCompleted(cycle), During(cycle - 1, 2));
    }

    /** Builds and validates the handoff, and commits it. */
    method HandOff(cycle: int) returns (stop: Option<Exit>)
      requires Linked() && AtStatus() && 1 <= cycle <= scope.maxCycles && Last() == DeveloperCompleted(cycle)
      modifies this`tick, this`trace, this`steps, this`checkpointStatus, session, session.store
      ensures Linked() && AtStatus() && InProgressOf(cycle)
      ensures stop.None? ==> Last() == DeveloperHandoff(cycle)
      ensures stop.Some? ==> Failing(stop.value)
      ensures Alone() && old(At(During(cycle - 1, 3))) ==> Proceeds(stop, During(cycle - 1, 5))
    {
      stop := BuildHandoff(During(cycle - 1, 3));
      if stop.None? {
        stop := CommitHandoff(cycle);
      }
    }

    /** Awaits a collaborator. */
    method Ask() returns (stop: Option<Exit>, s: Stimulus)
      requires Linked() && AtStatus()
      modifies this`tick, this`trace, session.store
      ensures Linked() && AtStatus() && tick == old(tick) + 1 && s == stimuli(old(tick))
      ensures AnswerFinish(s.reply) == if stop.None? then None else Some(FinishOf(stop.value))
      ensures stop.Some? ==> Failing(stop.value)
    {
      s := Await();
      stop := ReplyExit(s.reply);
      assert s.reply.Cancelled? ==> SomeoneCancels();
    }

    /** Awaits the handoff and validates it. */
    method BuildHandoff(ghost p: Point) returns (stop: Option<Exit>)
      requires Linked() && AtStatus() && p.During? && p.slot == 3
      modifies this`tick, this`trace, session.store
      ensures Linked() && AtStatus()
      ensures stop.Some? ==> Failing(stop.value)
      ensures Alone() && old(At(p)) ==> Proceeds(stop, During(p.round, 4))
    {
      ghost var there := At(p);
      var built;
      stop, built := Ask();
      if stop.None? && !built.safeHandoff {
        stop := Some(WorkflowError(UnsafeHandoff));
      }
      if there {
        Answered(p, stop);
      }
    }

    /** An answer lets the run go on, or stops it there. */
    lemma Answered(p: Point, stop: Option<Exit>)
      requires InRun(Plan(), p) && p.During? && p.slot % 2 == 1 && Clear(stimuli, Plan(), p)
      requires tick == TickOf(Plan(), p) + 1 && !session.poisoned && |steps| == CommitsBefore(Plan(), p)
      requires stop.Some? ==> !stop.value.ApprovedAt? && !stop.value.ExhaustedAt?
      requires AnswerAt(p.slot, stimuli(TickOf(Plan(), p))) == if stop.None? then None else Some(FinishOf(stop.value))
      ensures Proceeds(stop, Next(Plan(), p))
    {
      if stop.None? {
        Onward(p);
      } else {
        assert Halted(p, stop.value);
      }
    }

    /** Commits a validated handoff. */
    method CommitHandoff(cycle: int) returns (stop: Option<Exit>)
      requires Linked() && AtStatus() && 1 <= cycle <= scope.maxCycles && Last() == DeveloperCompleted(cycle)
      modifies this`tick, this`trace, this`steps, this`checkpointStatus, session, session.store
      ensures Linked() && AtStatus() && InProgressOf(cycle)
      ensures stop.None? ==> Last() == DeveloperHandoff(cycle)
      ensures stop.Some? ==> Failing(stop.value)
      ensures Alone() && old(At(During(cycle - 1, 4))) ==> Proceeds(stop, During(cycle - 1, 5))
    {
      stop := Pass(DeveloperHandoff(cycle), During(cycle - 1, 4));
    }

    /** Where a reviewed round leaves the run: at its end, when the review approves, or past it. */
    ghost predicate Reviewed(cycle: int, decision: ReviewDecision, stop: Option<Exit>)
      requires 1 <= cycle
      reads this, session
    {
      var p := During(cycle - 1, 6);
      if stop.Some? then Stuck(stop.value)
      else if decision == ReviewApproved then Halted(p, ApprovedAt(cycle))
      else InRun(Plan(), p) && At(Next(Plan(), p))
    }

    /** Commits the review, and the end of the run when it approves or the cycles are used up. */
    method Judge(cycle: int) returns (stop: Option<Exit>)
      requires Linked() && AtStatus() && 1 <= cycle <= scope.maxCycles && Last() == DeveloperHandoff(cycle)
      modifies this`tick, this`trace, this`steps, this`checkpointStatus, session, session.store
      ensures Linked() && AtStatus()
      ensures stop.None? ==> cycle < scope.maxCycles && MayBegin(cycle + 1)
      ensures stop.Some? ==> Stopped(stop.value, cycle)
      ensures Alone() && old(At(During(cycle - 1, 5))) ==> Proceeds(stop, During(cycle, 0))
    {
      var review;
      stop, review := AwaitReview(During(cycle - 1, 5));
      if stop.None? {
        stop := Rule(cycle, review);
      }
    }

    /** Commits a review and what follows from it. */
    method Rule(cycle: int, review: Stimulus) returns (stop: Option<Exit>)
      requires Linked() && AtStatus() && 1 <= cycle <= scope.maxCycles && Last() == DeveloperHandoff(cycle)
      requires 0 < tick && review == stimuli(tick - 1)
      modifies this`tick, this`trace, this`steps, this`checkpointStatus, session, session.store
      ensures Linked() && AtStatus()
      ensures stop.None? ==> cycle < scope.maxCycles && MayBegin(cycle + 1)
      ensures stop.Some? ==> Stopped(stop.value, cycle)
      ensures Alone() && old(At(During(cycle - 1, 6))) ==> Proceeds(stop, During(cycle, 0))
    {
      stop := CommitReview(cycle, review);
      if stop.None? {
        stop := Decide(cycle, review.decision);
      }
    }

    /** Awaits the review. */
    method AwaitReview(ghost p: Point) returns (stop: Option<Exit>, review: Stimulus)
      requires Linked() && AtStatus() && p.During? && p.slot == 5
      modifies this`tick, this`trace, session.store
      ensures Linked() && AtStatus() && tick == old(tick) + 1 && review == stimuli(old(tick))
      ensures stop.Some? ==> Failing(stop.value)
      ensures Alone() && old(At(p)) ==> Proceeds(stop, During(p.round, 6))
    {
      ghost var there := At(p);
      stop, review := Ask();
      if there {
        Answered(p, stop);
      }
    }

    /** Commits the review of a cycle. */
    method CommitReview(cycle: int, review: Stimulus) returns (stop: Option<Exit>)
      requires Linked() && AtStatus() && 1 <= cycle <= scope.maxCycles && Last() == DeveloperHandoff(cycle)
      requires 0 < tick && review == stimuli(tick - 1)
      modifies this`tick, this`trace, this`steps, this`checkpointStatus, session, session.store
      ensures Linked() && AtStatus()
      ensures stop.None? ==> session.status == Some(checkpointStatus)
      ensures stop.None? ==> Last() == Review(cycle, review.decision, review.score, review.findings)
      ensures stop.Some? ==> Failing(stop.value) && InProgressOf(cycle)
      ensures Alone() && old(At(During(cycle - 1, 6))) ==>
                Reviewed(cycle, review.decision, stop)
    {
      ghost var there := At(During(cycle - 1, 6));
      ReviewGuard(cycle, review);
      stop := Advance(Review(cycle, review.decision, review.score, review.findings));
      if Alone() && there {
        JustReviewed(cycle, review, stop);
      }
    }

    lemma ReviewGuard(cycle: int, review: Stimulus)
      requires 1 <= cycle <= scope.maxCycles
      ensures Guard([], Workflow(scope, Review(cycle, review.decision, review.score, review.findings))).None?
         <==> ValidReview(review)
    {
    }

    lemma JustReviewed(cycle: int, review: Stimulus, stop: Option<Exit>)
      requires 1 <= cycle && InRun(Plan(), During(cycle - 1, 6)) && Clear(stimuli, Plan(), During(cycle - 1, 6))
      requires tick == TickOf(Plan(), During(cycle - 1, 6)) + 1 && review == stimuli(tick - 2)
      requires |steps| == CommitsBefore(Plan(), During(cycle - 1, 6)) + if stop.None? then 1 else 0
      requires stop.Some? ==> stop.value.WorkflowError?
      requires session.poisoned == (stop.Some? && stimuli(tick - 1).faults.rollback)
      requires CheckpointFailure(stimuli(tick - 1).faults, ValidReview(review), false)
            == if stop.None? then None else Some(stop.value.code)
      ensures Reviewed(cycle, review.decision, stop)
    {
      var p := During(cycle - 1, 6);
      if stop.Some? {
        assert Halted(p, stop.value);
      } else if review.decision != ReviewApproved {
        Onward(p);
      }
    }

    /** Ends the run after a committed review, or leaves it for the next cycle. */
    method Decide(cycle: int, decision: ReviewDecision) returns (stop: Option<Exit>)
      requires Linked() && AtStatus() && 1 <= cycle <= scope.maxCycles && session.status == Some(checkpointStatus)
      requires Last().Review? && Last().cycle == cycle && Last().decision == decision
      modifies this`tick, this`trace, this`steps, this`checkpointStatus, session, session.store
      ensures Linked() && AtStatus()
      ensures stop.None? ==> cycle < scope.maxCycles && MayBegin(cycle + 1)
      ensures stop.Some? ==> Stopped(stop.value, cycle)
      ensures decision == ReviewApproved ==> stop == Some(ApprovedAt(cycle))
      ensures Alone() && old(Reviewed(cycle, decision, None)) ==> Proceeds(stop, During(cycle, 0))
    {
      if decision == ReviewApproved {
        stop := Some(ApprovedAt(cycle));
        assert Reviewed(cycle, decision, None) ==> Halted(During(cycle - 1, 6), ApprovedAt(cycle));
      } else if cycle == scope.maxCycles {
        stop := Exhaust(cycle);
      } else {
        stop := None;
      }
    }

    /** Hands the task to a human after the last cycle. */
    method Exhaust(cycle: int) returns (stop: Option<Exit>)
      requires Linked() && AtStatus() && 1 <= cycle == scope.maxCycles
      requires Last().Review? && Last().cycle == cycle && Last().decision == ReviewChanges
      modifies this`tick, this`trace, this`steps, this`checkpointStatus, session, session.store
      ensures Linked() && AtStatus()
      ensures stop.Some? && Stopped(stop.value, cycle)
      ensures Alone() && old(At(Closing)) ==> Stuck(stop.value)
    {
      ghost var there := At(Closing);
      stop := Advance(Exhausted(cycle, scope.maxCycles));
      if stop.None? {
        stop := Some(ExhaustedAt(cycle));
      }
      assert Alone() && there ==> Halted(Closing, stop.value);
    }

    /** How a run that stops in a cycle relates to its last own checkpoint. */
    ghost predicate Stopped(exit: Exit, cycle: int)
      reads this, session
    {
      && steps != []
      && match exit
         case ApprovedAt(c) =>
           c == cycle && Last().Review? && Last().cycle == c && Last().decision == ReviewApproved
           && session.status == Some(WaitingQa)
         case ExhaustedAt(c) =>
           c == cycle == scope.maxCycles && Last() == Exhausted(c, c) && session.status == Some(WaitingHuman)
         case _ => Failing(exit) && (InProgressOf(cycle) || MayBegin(cycle + 1))
    }

    /** One review cycle. It stops the run, or leaves it with requested changes below the limit. */
    method Cycle(cycle: int) returns (stop: Option<Exit>)
      requires Linked() && AtStatus() && 1 <= cycle <= scope.maxCycles && MayBegin(cycle)
      modifies this`tick, this`trace, this`steps, this`checkpointStatus, session, session.store
      ensures Linked() && AtStatus()
      ensures stop.None? ==> cycle < scope.maxCycles && MayBegin(cycle + 1)
      ensures stop.Some? ==> Stopped(stop.value, cycle)
      ensures Alone() && old(At(During(cycle - 1, 0))) ==> Proceeds(stop, During(cycle, 0))
    {
      stop := Develop(cycle);
      if stop.None? {
        stop := HandOff(cycle);
        if stop.None? {
          stop := Judge(cycle);
        }
      }
    }

    /** Awaits the developer. */
    method Collaborate(ghost p: Point) returns (stop: Option<Exit>)
      requires Linked() && AtStatus() && p.During? && p.slot == 1
      modifies this`tick, this`trace, session.store
      ensures Linked() && AtStatus()
      ensures stop.Some? ==> Failing(stop.value)
      ensures Alone() && old(At(p)) ==> Proceeds(stop, During(p.round, 2))
    {
      ghost var there := At(p);
      var s;
      stop, s := Ask();
      if there {
        Answered(p, stop);
      }
    }

    function ReplyExit(reply: Reply): (stop: Option<Exit>) {
      match reply
      case Returned => None
      case Raised => Some(WorkflowError(CollaboratorFailure))
      case TimedOut => Some(DeadlineExpired)
      case Cancelled => Some(CancelledExit)
    }

    /** Checks the request and claims the task. */
    method Claim() returns (stop: Option<Exit>)
      requires Linked() && trace == [] && steps == [] && !started
      modifies this`tick, this`trace, this`steps, this`checkpointStatus, this`started, session, session.store
      ensures Linked() && (started <==> steps != []) && (started <==> stop.None?)
      ensures stop.None? ==> AtStatus() && MayBegin(1)
      ensures stop.Some? ==> stop.value.WorkflowError?
      ensures Alone() && origin.row == Row(Ready, None) && old(At(Preflight)) ==> Proceeds(stop, During(0, 0))
    {
      ghost var there := At(Preflight);
      var s := Interleave();
      if s.preflight.Some? {
        stop := Some(WorkflowError(s.preflight.value));
        assert there ==> Halted(Preflight, stop.value);
      } else {
        if there {
          Onward(Preflight);
        }
        stop := Assign();
      }
    }

    /** Claims the task. */
    method Assign() returns (stop: Option<Exit>)
      requires Linked() && steps == [] && !started
      modifies this`tick, this`trace, this`steps, this`checkpointStatus, this`started, session, session.store
      ensures Linked() && (started <==> steps != []) && (started <==> stop.None?)
      ensures stop.None? ==> AtStatus() && MayBegin(1)
      ensures stop.Some? ==> stop.value.WorkflowError?
      ensures Alone() && origin.row == Row(Ready, None) && old(At(Claiming)) ==> Proceeds(stop, During(0, 0))
    {
      ghost var there := At(Claiming);
      var failure, clean := Checkpoint(Assignment);
      if failure.Some? {
        stop := Some(WorkflowError(failure.value));
      } else {
        started, checkpointStatus, stop := true, Assigned, None;
      }
      if Alone() && origin.row == Row(Ready, None) && there {
        Passed(Claiming, stop);
      }
    }

    /** The review cycles of a claimed task. */
    method Cycles() returns (exit: Exit)
      requires Linked() && AtStatus() && MayBegin(1)
      modifies this`tick, this`trace, this`steps, this`checkpointStatus, session, session.store
      ensures Linked() && AtStatus() && exists cycle :: Stopped(exit, cycle)
      ensures Alone() && old(At(During(0, 0))) ==> Stuck(exit)
    {
      for cycle := 1 to scope.maxCycles + 1
        invariant Linked() && AtStatus() && MayBegin(cycle)
        invariant Alone() && old(At(During(0, 0))) ==> At(During(cycle - 1, 0))
      {
        var stop := Cycle(cycle);
        if stop.Some? {
          return stop.value;
        }
      }
      exit := UnexpectedError;
      assert Stopped(exit, scope.maxCycles);
    }

    /** Everything under the global deadline. */
    method Stages() returns (exit: Exit)
      requires Linked() && trace == [] && steps == [] && !started && checkpointStatus == Ready
      modifies this`tick, this`trace, this`steps, this`checkpointStatus, this`started, session, session.store
      ensures Linked() && (started <==> steps != [])
      ensures started ==> AtStatus() && exists cycle :: Stopped(exit, cycle)
      ensures !started ==> exit.WorkflowError?
      ensures Alone() && origin.row == Row(Ready, None) && old(At(Preflight)) ==> Stuck(exit)
    {
      var stop := Claim();
      if stop.Some? {
        exit := stop.value;
      } else {
        exit := Cycles();
      }
    }

    /** Escalates a started run to a human, and keeps the code to report. */
    method Escalate(code: Failure) returns (reported: Failure)
      requires Linked() && AtStatus() && Recoverable()
      requires SafeFailureCode(code)
      modifies this`tick, this`trace, this`steps, this`recovery, session, session.store
      ensures Linked()
      ensures steps == old(steps) || steps == old(steps) + [SafeFailure(code, checkpointStatus)]
      ensures steps != old(steps) ==> reported == code
      ensures Writes(SafeFailure(code, old(checkpointStatus)), stimuli(old(tick)).others, steps != old(steps))
      ensures Alone() ==> recovery.Some? && (recovery.value <==> steps != old(steps))
      // alone, only a fault of the escalation itself takes the place of the code
      ensures Alone() ==>
                Reports(CheckpointFailure(stimuli(old(tick)).faults, true, old(session.poisoned)), code, reported, steps != old(steps))
    {
      var failure := TryEscalation(code);
      reported := if failure.Some? then Normalize(failure.value) else code;
    }

    /** The code reported after an escalation, which is committed unless something fails. */
    ghost predicate Reports(failed: Option<Failure>, code: Failure, reported: Failure, committed: bool) {
      (committed <==> failed.None?) && reported == if failed.None? then code else Public(failed.value)
    }

    method TryEscalation(code: Failure) returns (failure: Option<Failure>)
      requires Linked() && AtStatus() && Recoverable()
      requires SafeFailureCode(code)
      modifies this`tick, this`trace, this`steps, this`recovery, session, session.store
      ensures Linked()
      ensures steps == old(steps) + if failure.None? then [SafeFailure(code, checkpointStatus)] else []
      ensures Writes(SafeFailure(code, old(checkpointStatus)), stimuli(old(tick)).others, failure.None?)
      ensures Alone() ==> recovery.Some? && (recovery.value <==> failure.None?)
      ensures Alone() ==> failure == CheckpointFailure(stimuli(old(tick)).faults, true, old(session.poisoned))
    {
      ghost var clean: bool;
      failure, clean := Checkpoint(SafeFailure(code, checkpointStatus));
      recovery := Some(clean);
    }

    /** The code an unrecovered failure is reported with. */
    function FailureCode(exit: Exit): (code: Failure)
      requires !exit.ApprovedAt? && !exit.ExhaustedAt? && !exit.CancelledExit?
      reads this`started
      ensures started ==> SafeFailureCode(code) || code == InvalidState
    {
      match exit
      case DeadlineExpired => Timeout
      case WorkflowError(raised) => if started then Normalize(raised) else raised
      case UnexpectedError => InternalFailure
    }

    /** Recovers a run that failed after its start, unless the row was not as expected. */
    method Settle(exit: Exit) returns (result: RunResult)
      requires Linked() && (started <==> steps != [])
      requires started ==> AtStatus() && exists cycle :: Stopped(exit, cycle)
      requires !exit.ApprovedAt? && !exit.ExhaustedAt? && (!started ==> exit.WorkflowError?)
      modifies this`tick, this`trace, this`steps, this`recovery, session, session.store
      ensures Linked() && (started <==> steps != [])
      ensures result.CancelledRun? <==> exit.CancelledExit?
      ensures Alone() && old(Stuck(exit)) ==> Ended(result)
      ensures result.FailedWith? || (result.CancelledRun? && steps == old(steps))
      ensures steps != [] ==> !Last().Exhausted? && !(Last().Review? && Last().decision == ReviewApproved)
      ensures steps != [] && Last().SafeFailure? ==> result == FailedWith(Last().code)
      ensures Alone() && started && result.FailedWith? ==>
                recovery.Some? && (recovery.value <==> Last().SafeFailure?)
    {
      ghost var stuck, p := LastPoint(exit);
      if exit.CancelledExit? {
        result := CancelledRun;
      } else if !started {
        result := FailedWith(FailureCode(exit));
      } else {
        Recovering(exit);
        ghost var before, spoiled := steps, session.poisoned;
        result := Rescue(exit);
        if stuck {
          Rescued(exit, p, before, spoiled, result);
        }
      }
      if stuck && (exit.CancelledExit? || !started) {
        LeftAlone(exit, p, result);
      }
    }

    /** A run that is not escalated ends as its point says. */
    lemma LeftAlone(exit: Exit, p: Point, result: RunResult)
      requires Halted(p, exit)
      requires if exit.CancelledExit? then result == CancelledRun
               else exit.WorkflowError? && steps == [] && result == FailedWith(exit.code)
      ensures Ends(stimuli, Plan(), p, steps, result)
    {
    }

    /** The last own checkpoint leaves something to recover. */
    ghost predicate Recoverable()
      reads this
    {
      steps != [] && !Ending(Last()) && !(Last().Review? && Last().decision == ReviewApproved)
    }

    lemma Recovering(exit: Exit)
      requires exists cycle :: Stopped(exit, cycle)
      requires !exit.ApprovedAt? && !exit.ExhaustedAt?
      ensures Recoverable() && Failing(exit)
    {
    }

    /** Escalates a run that failed after its start, unless the row was not as expected. */
    method Rescue(exit: Exit) returns (result: RunResult)
      requires Linked() && AtStatus() && Recoverable() && Failing(exit) && !exit.CancelledExit?
      modifies this`tick, this`trace, this`steps, this`recovery, session, session.store
      ensures Linked() && steps != [] && result.FailedWith?
      ensures !Last().Exhausted? && !(Last().Review? && Last().decision == ReviewApproved)
      ensures Last().SafeFailure? ==> result == FailedWith(Last().code)
      ensures Alone() ==> recovery.Some? && (recovery.value <==> Last().SafeFailure?)
      ensures Alone() ==> Handed(exit, stimuli(old(tick)), old(session.poisoned), old(steps), result)
    {
      var code := FailureCode(exit);
      if code != InvalidState {
        code := Escalate(code);
      }
      result := FailedWith(code);
    }

    /** The run has handed its task to a human with the code it reports, or reports why it could not. */
    ghost predicate Handed(exit: Exit, s: Stimulus, spoiled: bool, before: seq<WorkflowStep>, result: RunResult)
      reads this
    {
      && FinishOf(exit).Trouble?
      && var failed := CheckpointFailure(s.faults, true, spoiled);
      var code := Public(FinishOf(exit).code);
      if failed.None? then steps == before + [SafeFailure(code, checkpointStatus)] && result == FailedWith(code)
      else steps == before && result == FailedWith(Public(failed.value))
    }

    /** An escalated run ends as its point says. */
    lemma Rescued(exit: Exit, p: Point, before: seq<WorkflowStep>, spoiled: bool, result: RunResult)
      requires InRun(Plan(), p) && Clear(stimuli, Plan(), p) && before != [] && |before| == CommitsBefore(Plan(), p)
      requires FinishAt(stimuli, Plan(), p) == Some(FinishOf(exit)) && spoiled == Spoils(stimuli, Plan(), p)
      requires Handed(exit, stimuli(TickOf(Plan(), p) + 1), spoiled, before, result)
      ensures Ends(stimuli, Plan(), p, steps, result)
    {
    }

    lemma LastPoint(exit: Exit) returns (stuck: bool, p: Point)
      ensures stuck == (Alone() && Stuck(exit))
      ensures stuck ==> Halted(p, exit)
    {
      stuck := Alone() && Stuck(exit);
      if stuck {
        p :| Halted(p, exit);
      } else {
        p := Preflight;
      }
    }

    /** Some point of the run explains how it ended. */
    ghost predicate Ended(result: RunResult)
      reads this
    {
      exists p :: Ends(stimuli, Plan(), p, steps, result)
    }

    /** One whole run. */
    method Run() returns (result: RunResult)
      requires session.Valid() && 1 <= scope.maxCycles
      modifies this, session, session.store
      ensures origin == old(session.store.World()) && base == old(tick)
      // whatever others do, the run is an interleaving of legal checkpoints with theirs
      ensures Linked() && (started <==> steps != [])
      ensures started ==> Fits(result)
      ensures !started ==> !result.Approved? && !result.CyclesUsedUp?
      // a run is cancelled only when a collaborator was
      ensures result.CancelledRun? ==> SomeoneCancels()
      // alone and on a task that may be claimed, the first moment that ends the run decides how it
      // ends, what it has committed until then, and what it reports
      ensures Alone() && !old(session.poisoned) && old(session.store.row) == Row(Ready, None) ==> Ended(result)
      // a run that nothing interferes with and that meets no fault ends with a verdict, and in its
      // first cycle when its reviews approve
      ensures Smooth() && !old(session.poisoned) && old(session.store.row) == Row(Ready, None) ==> Succeeds(result)
      // alone, the log grows by exactly the run's own events and the row is where they lead
      ensures Alone() && !started ==> session.store.World() == old(session.store.World())
      ensures Alone() && started ==>
                && session.store.row == Row(StatusAfter(Last()), Some(scope.developerId))
                && session.store.log == old(session.store.log) + Batches(scope, steps)
      // alone, a run that fails after its start is always recovered, and ends with a human
      // exactly when the recovery checkpoint meets no fault
      ensures Alone() && started && result.FailedWith? ==>
                recovery.Some? && (recovery.value <==> Last().SafeFailure?)
    {
      origin, base, trace, steps, recovery := session.store.World(), tick, [], [], None;
      started, checkpointStatus := false, Ready;
      AtOnset();
      var exit := Stages();
      result := Conclude(exit);
      AloneWorld();
      SmoothEnds(result);
    }

    lemma AtOnset()
      requires tick == base && steps == [] && 1 <= scope.maxCycles
      ensures !session.poisoned ==> At(Preflight)
    {
    }

    /** How a run ends when nothing fails. */
    ghost predicate Succeeds(result: RunResult) {
      && (result.Approved? || result.CyclesUsedUp?)
      && (AlwaysApproved() ==> result == Approved(WaitingQa, 1))
    }

    /** A run that nothing ends early ends with a verdict. */
    lemma SmoothEnds(result: RunResult)
      requires 1 <= scope.maxCycles
      ensures Smooth() && Ended(result) ==> Succeeds(result)
    {
      if Smooth() && Ended(result) {
        var p :| Ends(stimuli, Plan(), p, steps, result);
        assert Quiet(stimuli(TickOf(Plan(), p)));
        if p.During? && p.slot == 6 {
          assert Quiet(stimuli(TickOf(Plan(), p) - 1));
        }
        if AlwaysApproved() {
          ApprovedAtOnce(p, result);
        }
      }
    }

    lemma ApprovedAtOnce(p: Point, result: RunResult)
      requires 1 <= scope.maxCycles && Smooth() && AlwaysApproved() && Ends(stimuli, Plan(), p, steps, result)
      requires result.Approved? || result.CyclesUsedUp?
      ensures result == Approved(WaitingQa, 1)
    {
      assert Quiet(stimuli(base + 7)) && Quiet(stimuli(base + 8));
      assert FinishAt(stimuli, Plan(), During(0, 6)) == Some(ApprovedIn(1));
      assert !Before(Plan(), During(0, 6), p);
    }

    /** The result of a run that stopped, once a failure is settled. */
    method Conclude(exit: Exit) returns (result: RunResult)
      requires Linked() && recovery.None? && (started <==> steps != [])
      requires started ==> AtStatus() && exists cycle :: Stopped(exit, cycle)
      requires !started ==> exit.WorkflowError?
      modifies this`tick, this`trace, this`steps, this`recovery, session, session.store
      ensures Linked() && (started <==> steps != [])
      ensures result.CancelledRun? ==> SomeoneCancels()
      ensures Alone() && old(Stuck(exit)) ==> Ended(result)
      ensures !started ==> !result.Approved? && !result.CyclesUsedUp?
      ensures started ==> Fits(result)
      ensures exit.ApprovedAt? ==> result.Approved? && result.cycles == exit.cycle
      ensures exit.ExhaustedAt? ==> result.CyclesUsedUp?
      ensures Alone() && started && result.FailedWith? ==>
                recovery.Some? && (recovery.value <==> Last().SafeFailure?)
    {
      ghost var stuck := Alone() && Stuck(exit);
      match exit {
        case ApprovedAt(cycle) => result := Approved(session.status.value, cycle);
        case ExhaustedAt(cycle) => result := CyclesUsedUp(session.status.value, cycle);
        case _ => result := Settle(exit);
      }
      if stuck && (exit.ApprovedAt? || exit.ExhaustedAt?) {
        var p :| Halted(p, exit);
        assert Ends(stimuli, Plan(), p, steps, result);
      }
    }

    /** The result of a started run says how its last own checkpoint left it. */
    ghost predicate Fits(result: RunResult)
      reads this
    {
      && steps != []
      && (result.Approved? <==> Last().Review? && Last().decision == ReviewApproved)
      && (result.Approved? ==> result == Approved(WaitingQa, Last().cycle))
      && (result.CyclesUsedUp? <==> Last().Exhausted?)
      && (result.CyclesUsedUp? ==> result == CyclesUsedUp(WaitingHuman, scope.maxCycles))
      && (Last().SafeFailure? ==> result == FailedWith(Last().code))
    }
  }
}
