/** When a Developer-Reviewer run that nobody interferes with ends, and how: at the first moment at
    which something fails, someone cancels, a review approves or the cycles are used up. */
module WorkflowSchedule {
  import opened Wrappers
  import opened TaskProtocol
  import opened WorkflowRuns
  import opened CheckpointSession

  /** How an awaited collaborator comes back. */
  datatype Reply = Returned | Raised | TimedOut | Cancelled

  /** What the surroundings do at one point of a run: the transactions of others that commit
      there, the faults of the checkpoint, and the collaborators' answers. */
  datatype Stimulus = Stimulus(
    others: seq<Action>,
    faults: Faults,
    reply: Reply,
    preflight: Option<Failure>,
    safeHandoff: bool,
    decision: ReviewDecision,
    score: real,
    findings: nat)

  datatype RunResult =
    | Approved(status: TaskStatus, cycles: int)
    | CyclesUsedUp(status: TaskStatus, cycles: int)
    | FailedWith(code: Failure)
    | CancelledRun

  // ---------------------------------------------------------------- the points of a run

  /** Where a run gives others a turn: before it checks the request, before it claims the task, seven
      times in each round, and before it escalates requested changes in its last one. The points of
      a round are its start, the developer, the completion, the handoff, its checkpoint, the review
      and its checkpoint. */
  datatype Point = Preflight | Claiming | During(round: nat, slot: nat) | Closing

  /** The turns given before the run, and its limit on review cycles. */
  datatype Schedule = Schedule(base: nat, max: nat)

  /** The number of turns given before. */
  function TickOf(plan: Schedule, p: Point): nat {
    match p
    case Preflight => plan.base
    case Claiming => plan.base + 1
    case During(round, slot) => plan.base + 2 + 7 * round + slot
    case Closing => plan.base + 2 + 7 * plan.max
  }

  /** The points at which a run commits a checkpoint. */
  predicate Commits(p: Point) {
    match p
    case Preflight => false
    case Claiming => true
    case During(_, slot) => slot % 2 == 0
    case Closing => true
  }

  /** The checkpoints of a run before the point. */
  function CommitsBefore(plan: Schedule, p: Point): nat {
    match p
    case Preflight => 0
    case Claiming => 0
    case During(round, slot) => 1 + 4 * round + (slot + 1) / 2
    case Closing => 1 + 4 * plan.max
  }

  predicate InRun(plan: Schedule, p: Point) {
    p.During? ==> p.round < plan.max && p.slot < 7
  }

  predicate Before(plan: Schedule, p: Point, q: Point) {
    InRun(plan, p) && TickOf(plan, p) < TickOf(plan, q)
  }

  function Next(plan: Schedule, p: Point): Point
    requires InRun(plan, p) && !p.Closing?
  {
    match p
    case Preflight => Claiming
    case Claiming => if plan.max == 0 then Closing else During(0, 0)
    case During(round, slot) =>
      if slot < 6 then During(round, slot + 1)
      else if round + 1 < plan.max then During(round + 1, 0)
      else Closing
  }

  // ---------------------------------------------------------------- how a run ends

  datatype Finish = Cancellation | Trouble(code: Failure) | ApprovedIn(cycle: int) | UsedUp

  /** The code a checkpoint fails with on the row it expects, if it fails. */
  function CheckpointFailure(f: Faults, valid: bool, poisoned: bool): Option<Failure> {
    if !poisoned && valid && NoFault(f) then None
    else if f.rollback || poisoned then Some(PersistenceFailure)
    else if f.connect.Some? then Some(Reported(f.connect.value))
    else if f.lock.Some? then Some(Reported(f.lock.value))
    else if !valid then Some(InvalidInput)
    else if f.staging.Some? then Some(Reported(f.staging.value.fault))
    else if f.commit.Some? then Some(Reported(f.commit.value))
    else None
  }

  function CheckpointFinish(f: Faults, valid: bool): Option<Finish> {
    match CheckpointFailure(f, valid, false)
    case Some(code) => Some(Trouble(code))
    case None => None
  }

  /** How an answer ends a run: only a collaborator that returns lets it go on. */
  function AnswerFinish(reply: Reply): Option<Finish> {
    match reply
    case Raised => Some(Trouble(CollaboratorFailure))
    case TimedOut => Some(Trouble(Timeout))
    case Cancelled => Some(Cancellation)
    case Returned => None
  }

  /** The handoff must be safe besides. */
  function AnswerAt(slot: nat, s: Stimulus): Option<Finish> {
    if slot == 3 && s.reply.Returned? && !s.safeHandoff then Some(Trouble(UnsafeHandoff)) else AnswerFinish(s.reply)
  }

  predicate ValidReview(s: Stimulus) {
    0.0 <= s.score <= 1.0 && s.findings <= 128
  }

  /** Whether, and how, a run that gets to a point ends there. */
  function FinishAt(stimuli: nat -> Stimulus, plan: Schedule, p: Point): Option<Finish> {
    var s := stimuli(TickOf(plan, p));
    match p
    case Preflight => if s.preflight.Some? then Some(Trouble(s.preflight.value)) else None
    case Claiming => CheckpointFinish(s.faults, true)
    case Closing =>
      var failed := CheckpointFinish(s.faults, true);
      if failed.Some? then failed else Some(UsedUp)
    case During(round, slot) =>
      if slot % 2 == 1 then AnswerAt(slot, s)
      else if slot == 6 then
        var review := stimuli(TickOf(plan, During(round, 5)));
        var failed := CheckpointFinish(s.faults, ValidReview(review));
        if failed.None? && review.decision == ReviewApproved then Some(ApprovedIn(round + 1)) else failed
      else CheckpointFinish(s.faults, true)
  }

  /** A run gets to the point: nothing ends it before. */
  ghost predicate Clear(stimuli: nat -> Stimulus, plan: Schedule, p: Point) {
    forall q | Before(plan, q, p) :: FinishAt(stimuli, plan, q).None?
  }

  lemma ClearNext(stimuli: nat -> Stimulus, plan: Schedule, p: Point)
    requires InRun(plan, p) && !p.Closing? && Clear(stimuli, plan, p) && FinishAt(stimuli, plan, p).None?
    ensures InRun(plan, Next(plan, p)) && Clear(stimuli, plan, Next(plan, p))
    ensures TickOf(plan, Next(plan, p)) == TickOf(plan, p) + 1
    ensures CommitsBefore(plan, Next(plan, p)) == CommitsBefore(plan, p) + if Commits(p) then 1 else 0
  {
    forall q | Before(plan, q, Next(plan, p)) ensures FinishAt(stimuli, plan, q).None? {
      if !Before(plan, q, p) {
        SameTick(plan, p, q);
      }
    }
  }

  lemma SameTick(plan: Schedule, p: Point, q: Point)
    requires InRun(plan, p) && InRun(plan, q) && TickOf(plan, p) == TickOf(plan, q)
    ensures p == q
  {
  }

  /** A failed checkpoint whose rollback fails too leaves the session unable to connect. */
  predicate Spoils(stimuli: nat -> Stimulus, plan: Schedule, p: Point) {
    && Commits(p) && stimuli(TickOf(plan, p)).faults.rollback
    && FinishAt(stimuli, plan, p).Some? && FinishAt(stimuli, plan, p).value.Trouble?
  }

  /** The code a started run reports. */
  function Public(code: Failure): Failure {
    match code
    case UnsafeHandoff => UnsafeHandoff
    case CollaboratorFailure => CollaboratorFailure
    case PersistenceFailure => PersistenceFailure
    case InvalidState => InvalidState
    case Timeout => Timeout
    case _ => InternalFailure
  }

  /** How the failure of a started run is settled: by one more checkpoint that hands the task to a
      human with the code that is reported, or, when that fails, by reporting its own failure. */
  ghost predicate Recovers(
    stimuli: nat -> Stimulus, plan: Schedule, p: Point, code: Failure, steps: seq<WorkflowStep>, result: RunResult)
  {
    var failed := CheckpointFailure(stimuli(TickOf(plan, p) + 1).faults, true, Spoils(stimuli, plan, p));
    if failed.None? then
      && |steps| == CommitsBefore(plan, p) + 1 && steps[CommitsBefore(plan, p)].SafeFailure?
      && steps[CommitsBefore(plan, p)].code == Public(code) && result == FailedWith(Public(code))
    else
      |steps| == CommitsBefore(plan, p) && result == FailedWith(Public(failed.value))
  }

  /** What a run that ends at the point has committed, and how it reports. */
  ghost predicate Ends(stimuli: nat -> Stimulus, plan: Schedule, p: Point, steps: seq<WorkflowStep>, result: RunResult) {
    && InRun(plan, p) && Clear(stimuli, plan, p)
    && match FinishAt(stimuli, plan, p)
       case None => false
       case Some(Cancellation) => result == CancelledRun && |steps| == CommitsBefore(plan, p)
       case Some(ApprovedIn(cycle)) => result == Approved(WaitingQa, cycle) && |steps| == CommitsBefore(plan, p) + 1
       case Some(UsedUp) => result == CyclesUsedUp(WaitingHuman, plan.max) && |steps| == CommitsBefore(plan, p) + 1
       case Some(Trouble(code)) =>
         if p.Preflight? || p.Claiming? then steps == [] && result == FailedWith(code)
         else Recovers(stimuli, plan, p, code, steps, result)
  }

  /** A run ends at one point only. */
  lemma EndIsUnique(stimuli: nat -> Stimulus, plan: Schedule, p: Point, q: Point)
    requires InRun(plan, p) && Clear(stimuli, plan, p) && FinishAt(stimuli, plan, p).Some?
    requires InRun(plan, q) && Clear(stimuli, plan, q) && FinishAt(stimuli, plan, q).Some?
    ensures p == q
  {
    assert !Before(plan, p, q) && !Before(plan, q, p);
    SameTick(plan, p, q);
  }

  /** A checkpoint on the row it expects fails with the code of its first fault. */
  lemma FirstFailure(w: World, s: WorkflowScope, step: WorkflowStep, f: Faults, poisoned: bool, failure: Option<Failure>)
    requires Attempt(w, Workflow(s, step)).Committed? || Attempt(w, Workflow(s, step)) == Rejected(InvalidInput)
    requires failure.None? <==> NoFault(f) && !poisoned && Attempt(w, Workflow(s, step)).Committed?
    requires failure.Some? ==>
               if f.rollback then failure.value == PersistenceFailure
               else FirstFails(w, Workflow(s, step), f, poisoned, failure.value)
    ensures failure == CheckpointFailure(f, Attempt(w, Workflow(s, step)).Committed?, poisoned)
  {
  }
}
