/** The task state machine and the durable checkpoint protocol built on it.

    A world is the committed part of one task: its row and its append-only event log.
    Every action is one transaction under the row lock, so it either commits as a whole
    or leaves the world as it was. Runs of any number of workflows, and any other actor,
    are interleavings of such actions. */
module TaskProtocol {
  import opened Wrappers

  type Slug = string
  type AgentId = nat
  type Correlation = nat

  datatype TaskStatus =
    | Backlog | Ready | Assigned | InProgress | WaitingReview | ChangesRequested
    | WaitingQa | WaitingSecurity | Blocked | WaitingHuman | Completed | Failed | Cancelled

  /** ALLOWED_TASK_TRANSITIONS, row by row. */
  function AllowedTargets(current: TaskStatus): set<TaskStatus> {
    match current
    case Backlog => {Ready, WaitingHuman, Cancelled}
    case Ready => {Assigned, WaitingHuman, Cancelled}
    case Assigned => {InProgress, Blocked, WaitingHuman, Cancelled}
    case InProgress => {WaitingReview, Blocked, Failed, WaitingHuman, Cancelled}
    case WaitingReview => {ChangesRequested, WaitingQa, WaitingHuman, Cancelled}
    case ChangesRequested => {InProgress, Blocked, WaitingHuman, Cancelled}
    case WaitingQa => {ChangesRequested, WaitingSecurity, Failed, WaitingHuman, Cancelled}
    case WaitingSecurity => {ChangesRequested, Completed, Failed, WaitingHuman, Cancelled}
    case Blocked => {Ready, WaitingHuman, Cancelled}
    case WaitingHuman => {Ready, Cancelled}
    case Completed => {}
    case Failed => {Ready, WaitingHuman, Cancelled}
    case Cancelled => {}
  }

  predicate CanTransition(current: TaskStatus, target: TaskStatus) {
    target in AllowedTargets(current)
  }

  /** The statuses that only a checkpoint with its own evidence may enter. */
  predicate Gated(status: TaskStatus) {
    status in {WaitingQa, WaitingSecurity, Completed}
  }

  datatype ReviewDecision = ReviewApproved | ReviewChanges
  datatype QaDecision = QaPassed | QaChanges
  datatype SecurityDecision = Pass | Warn | Block

  datatype Failure =
    | InvalidInput | InvalidScope | InvalidState | ConcurrentModification | UnsafeHandoff
    | Timeout | CollaboratorFailure | PersistenceFailure | InternalFailure

  datatype Event =
    | StatusChanged(from: TaskStatus, to: TaskStatus, mover: Option<Slug>, correlation: Correlation)
    | WorkflowStarted(correlation: Correlation, actor: Slug)
    | HandoffCreated(correlation: Correlation, actor: Slug, cycle: int)
    | ReviewCompleted(correlation: Correlation, actor: Slug, cycle: int, review: ReviewDecision)
    | CyclesExhausted(correlation: Correlation, actor: Slug, cycle: int)
    | WorkflowCompleted(correlation: Correlation, actor: Slug, cycle: int)
    | QaStarted(correlation: Correlation, actor: Slug)
    | QaCompleted(correlation: Correlation, actor: Slug, qa: QaDecision)
    | QaEscalated(correlation: Correlation, actor: Slug, code: Failure)
    | SecurityStarted(correlation: Correlation, actor: Slug)
    | SecurityCompleted(correlation: Correlation, actor: Slug, security: SecurityDecision)
    | SecurityEscalated(correlation: Correlation, actor: Slug, code: Failure)

  datatype Row = Row(status: TaskStatus, assignee: Option<AgentId>)
  datatype World = World(row: Row, log: seq<Event>)

  datatype WorkflowScope = WorkflowScope(
    developerId: AgentId, developer: Slug, reviewer: Slug, correlation: Correlation, maxCycles: int)

  /** The scope of one QA or Security run: the assigned developer and the examining agent. */
  datatype StageScope = StageScope(developerId: AgentId, examiner: Slug, correlation: Correlation)

  datatype WorkflowStep =
    | Assignment
    | DeveloperStarted(cycle: int)
    | DeveloperCompleted(cycle: int)
    | DeveloperHandoff(cycle: int)
    | Review(cycle: int, decision: ReviewDecision, score: real, findings: int)
    | Exhausted(cycle: int, maxCycles: int)
    | NextCycle(cycle: int)
    | SafeFailure(code: Failure, expected: TaskStatus)

  /** A completed stage carries the correlation echoed by its result. */
  datatype StageStep<D> = Start | Complete(decision: D, echoed: Correlation) | Escalate(code: Failure)

  datatype Action =
    | Workflow(scope: WorkflowScope, step: WorkflowStep)
    | Qa(qaScope: StageScope, qaStep: StageStep<QaDecision>)
    | Security(securityScope: StageScope, securityStep: StageStep<SecurityDecision>)
    | Move(target: TaskStatus, mover: Option<Slug>, correlation: Correlation)
    | Reassign(assignee: Option<AgentId>)

  /** Actions that commit through a checkpoint, as opposed to those of other actors. */
  predicate IsCheckpoint(a: Action) {
    a.Workflow? || a.Qa? || a.Security?
  }

  // ---------------------------------------------------------------- log queries

  /** One claim on a stage: Security claims are keyed by correlation alone,
      QA claims by correlation and actor. */
  datatype Lane = SecurityLane(correlation: Correlation) | QaLane(correlation: Correlation, actor: Slug)

  predicate IsStart(lane: Lane, e: Event) {
    match lane
    case SecurityLane(c) => e.SecurityStarted? && e.correlation == c
    case QaLane(c, a) => e.QaStarted? && e.correlation == c && e.actor == a
  }

  predicate IsTerminal(lane: Lane, e: Event) {
    match lane
    case SecurityLane(c) => (e.SecurityCompleted? || e.SecurityEscalated?) && e.correlation == c
    case QaLane(c, a) => (e.QaCompleted? || e.QaEscalated?) && e.correlation == c && e.actor == a
  }

  function Starts(log: seq<Event>, lane: Lane): nat {
    if log == [] then 0
    else Starts(log[..|log| - 1], lane) + if IsStart(lane, log[|log| - 1]) then 1 else 0
  }

  function Terminals(log: seq<Event>, lane: Lane): nat {
    if log == [] then 0
    else Terminals(log[..|log| - 1], lane) + if IsTerminal(lane, log[|log| - 1]) then 1 else 0
  }

  /** SECURITY_STARTED events of one correlation recorded by one actor. */
  function StartsBy(log: seq<Event>, correlation: Correlation, actor: Slug): nat {
    if log == [] then 0
    else
      var e := log[|log| - 1];
      StartsBy(log[..|log| - 1], correlation, actor)
      + if IsStart(SecurityLane(correlation), e) && e.actor == actor then 1 else 0
  }

  predicate Open(log: seq<Event>, lane: Lane) {
    Starts(log, lane) > Terminals(log, lane)
  }

  /** Some correlation present in the log has more starts than terminal events. */
  predicate HasUnmatchedStart(log: seq<Event>) {
    exists i | 0 <= i < |log| ::
      log[i].SecurityStarted? && Open(log, SecurityLane(log[i].correlation))
  }

  // ---------------------------------------------------------------- one checkpoint

  function ExpectedStatus(a: Action): TaskStatus
    requires IsCheckpoint(a)
  {
    match a
    case Qa(_, _) => WaitingQa
    case Security(_, _) => WaitingSecurity
    case Workflow(_, step) =>
      match step
      case Assignment => Ready
      case DeveloperStarted(_) => Assigned
      case DeveloperCompleted(_) => InProgress
      case DeveloperHandoff(_) => WaitingReview
      case Review(_, _, _, _) => WaitingReview
      case Exhausted(_, _) => ChangesRequested
      case NextCycle(_) => ChangesRequested
      case SafeFailure(_, expected) => expected
  }

  function ExpectedAssignee(a: Action): Option<AgentId>
    requires IsCheckpoint(a)
  {
    match a
    case Qa(s, _) => Some(s.developerId)
    case Security(s, _) => Some(s.developerId)
    case Workflow(s, step) => if step.Assignment? then None else Some(s.developerId)
  }

  /** The code for a locked row that is not the expected one. */
  function MismatchCode(a: Action): Failure {
    if a.Workflow? then InvalidState else ConcurrentModification
  }

  predicate ValidCycle(s: WorkflowScope, cycle: int) {
    1 <= cycle <= s.maxCycles
  }

  predicate SafeFailureCode(code: Failure) {
    code in {UnsafeHandoff, Timeout, CollaboratorFailure, PersistenceFailure, InternalFailure}
  }

  predicate EscalationCode(code: Failure) {
    code in {Timeout, CollaboratorFailure, PersistenceFailure, InternalFailure}
  }

  /** What is rejected before any transaction begins. */
  function Precheck(a: Action): Option<Failure>
    requires IsCheckpoint(a)
  {
    match a
    case Workflow(_, _) => None
    case Qa(s, Complete(_, echoed)) => if echoed != s.correlation then Some(InvalidScope) else None
    case Security(s, Complete(_, echoed)) => if echoed != s.correlation then Some(InvalidScope) else None
    case Qa(_, Escalate(code)) => if EscalationCode(code) then None else Some(InvalidInput)
    case Security(_, Escalate(code)) => if EscalationCode(code) then None else Some(InvalidInput)
    case _ => None
  }

  /** What staging rejects before it touches the task: bad input, or a log that forbids the step. */
  function Guard(log: seq<Event>, a: Action): Option<Failure>
    requires IsCheckpoint(a)
  {
    match a
    case Workflow(s, step) =>
      if match step
         case Assignment => true
         case DeveloperStarted(c) => ValidCycle(s, c)
         case DeveloperCompleted(c) => ValidCycle(s, c)
         case DeveloperHandoff(c) => ValidCycle(s, c)
         case Review(c, _, score, findings) =>
           ValidCycle(s, c) && 0.0 <= score <= 1.0 && 0 <= findings <= 128
         case Exhausted(c, m) => ValidCycle(s, c) && m == s.maxCycles && c == m
         case NextCycle(c) => ValidCycle(s, c)
         case SafeFailure(code, _) => SafeFailureCode(code)
      then None else Some(InvalidInput)
    case Qa(s, step) =>
      var lane := QaLane(s.correlation, s.examiner);
      if step.Start? then if Starts(log, lane) > 0 then Some(InvalidState) else None
      else if Starts(log, lane) == 0 || Terminals(log, lane) > 0 then Some(InvalidState)
      else None
    case Security(s, step) =>
      var lane := SecurityLane(s.correlation);
      if step.Start? then
        if HasUnmatchedStart(log) || Starts(log, lane) + Terminals(log, lane) > 0
        then Some(InvalidState) else None
      else if StartsBy(log, s.correlation, s.examiner) != 1 || Terminals(log, lane) != 0
      then Some(InvalidState)
      else None
  }

  /** The status a step moves the task to, when it moves it. */
  function Target(a: Action): Option<TaskStatus>
    requires IsCheckpoint(a)
  {
    match a
    case Workflow(_, step) => (
      match step
      case Assignment => Some(Assigned)
      case DeveloperStarted(_) => Some(InProgress)
      case DeveloperCompleted(_) => Some(WaitingReview)
      case DeveloperHandoff(_) => None
      case Review(_, d, _, _) => Some(if d.ReviewApproved? then WaitingQa else ChangesRequested)
      case Exhausted(_, _) => Some(WaitingHuman)
      case NextCycle(_) => Some(InProgress)
      case SafeFailure(_, _) => Some(WaitingHuman))
    case Qa(_, step) => (
      match step
      case Start => None
      case Complete(d, _) => Some(if d.QaPassed? then WaitingSecurity else ChangesRequested)
      case Escalate(_) => Some(WaitingHuman))
    case Security(_, step) =>
      match step
      case Start => None
      case Complete(d, _) =>
        Some(match d case Pass => Completed case Warn => WaitingHuman case Block => ChangesRequested)
      case Escalate(_) => Some(WaitingHuman)
  }

  /** The facts a step records after its transition. */
  function Facts(a: Action): seq<Event>
    requires IsCheckpoint(a)
  {
    match a
    case Workflow(s, step) => (
      match step
      case Assignment => [WorkflowStarted(s.correlation, s.developer)]
      case DeveloperHandoff(c) => [HandoffCreated(s.correlation, s.developer, c)]
      case Review(c, d, _, _) =>
        [ReviewCompleted(s.correlation, s.reviewer, c, d)]
        + if d.ReviewApproved? then [WorkflowCompleted(s.correlation, s.reviewer, c)] else []
      case Exhausted(c, _) => [CyclesExhausted(s.correlation, s.reviewer, c)]
      case _ => [])
    case Qa(s, step) => (
      match step
      case Start => [QaStarted(s.correlation, s.examiner)]
      case Complete(d, _) => [QaCompleted(s.correlation, s.examiner, d)]
      case Escalate(code) => [QaEscalated(s.correlation, s.examiner, code)])
    case Security(s, step) =>
      match step
      case Start => [SecurityStarted(s.correlation, s.examiner)]
      case Complete(d, _) => [SecurityCompleted(s.correlation, s.examiner, d)]
      case Escalate(code) => [SecurityEscalated(s.correlation, s.examiner, code)]
  }

  function CorrelationOf(a: Action): Correlation
    requires !a.Reassign?
  {
    match a
    case Workflow(s, _) => s.correlation
    case Qa(s, _) => s.correlation
    case Security(s, _) => s.correlation
    case Move(_, _, c) => c
  }

  /** The agent a transition is attributed to; None is the system. */
  function MoverOf(a: Action): Option<Slug>
    requires IsCheckpoint(a)
  {
    match a
    case Qa(s, step) => if step.Complete? then Some(s.examiner) else None
    case Security(s, step) => if step.Complete? then Some(s.examiner) else None
    case Workflow(s, step) =>
      match step
      case Review(_, _, _, _) => Some(s.reviewer)
      case Exhausted(_, _) => Some(s.reviewer)
      case SafeFailure(_, _) => None
      case _ => Some(s.developer)
  }

  /** Everything one successful checkpoint appends, in order. */
  function Batch(from: TaskStatus, a: Action): seq<Event>
    requires IsCheckpoint(a)
  {
    match Target(a)
    case None => Facts(a)
    case Some(to) => [StatusChanged(from, to, MoverOf(a), CorrelationOf(a))] + Facts(a)
  }

  datatype Outcome = Committed(world: World) | Rejected(code: Failure)

  /** One transaction that meets no infrastructure fault. */
  function Attempt(w: World, a: Action): Outcome {
    match a
    case Move(target, mover, c) =>
      if CanTransition(w.row.status, target) && !Gated(target)
      then Committed(World(Row(target, w.row.assignee), w.log + [StatusChanged(w.row.status, target, mover, c)]))
      else Rejected(InvalidState)
    case Reassign(assignee) => Committed(World(Row(w.row.status, assignee), w.log))
    case _ =>
      if Precheck(a).Some? then Rejected(Precheck(a).value)
      else if w.row != Row(ExpectedStatus(a), ExpectedAssignee(a)) then Rejected(MismatchCode(a))
      else if Guard(w.log, a).Some? then Rejected(Guard(w.log, a).value)
      else if Target(a).Some? && !CanTransition(w.row.status, Target(a).value) then
        Rejected(MismatchCode(a))
      else
        var status := if Target(a).Some? then Target(a).value else w.row.status;
        var assignee := if a.Workflow? && a.step.Assignment? then Some(a.scope.developerId) else w.row.assignee;
        Committed(World(Row(status, assignee), w.log + Batch(w.row.status, a)))
  }

  function Apply(w: World, a: Action): World {
    match Attempt(w, a)
    case Committed(w') => w'
    case Rejected(_) => w
  }

  /** Any interleaving of transactions: a transaction that fails leaves no trace in it. */
  function RunAll(w: World, actions: seq<Action>): World {
    if actions == [] then w
    else Apply(RunAll(w, actions[..|actions| - 1]), actions[|actions| - 1])
  }
}
