/** The order in which one Developer-Reviewer run commits its checkpoints. */
module WorkflowRuns {
  import opened Wrappers
  import opened TaskProtocol
  import TaskSafety

  /** The status stored by a run's own last checkpoint. */
  function StatusAfter(step: WorkflowStep): TaskStatus {
    match step
    case Assignment => Assigned
    case DeveloperStarted(_) => InProgress
    case NextCycle(_) => InProgress
    case DeveloperCompleted(_) => WaitingReview
    case DeveloperHandoff(_) => WaitingReview
    case Review(_, d, _, _) => if d.ReviewApproved? then WaitingQa else ChangesRequested
    case Exhausted(_, _) => WaitingHuman
    case SafeFailure(_, _) => WaitingHuman
  }

  /** Which checkpoint may come right after which, within the limit on review cycles. */
  predicate Follows(maxCycles: int, prev: WorkflowStep, next: WorkflowStep) {
    if next.SafeFailure? then
      next.expected == StatusAfter(prev) && !prev.SafeFailure? && SafeFailureCode(next.code)
      && CanTransition(StatusAfter(prev), WaitingHuman)
    else
      match prev
      case Assignment => next == DeveloperStarted(1)
      case DeveloperStarted(c) => next == DeveloperCompleted(c)
      case NextCycle(c) => next == DeveloperCompleted(c)
      case DeveloperCompleted(c) => next == DeveloperHandoff(c)
      case DeveloperHandoff(c) =>
        next.Review? && next.cycle == c && 0.0 <= next.score <= 1.0 && 0 <= next.findings <= 128
      case Review(c, d, _, _) =>
        d.ReviewChanges? && next == if c < maxCycles then NextCycle(c + 1) else Exhausted(c, maxCycles)
      case _ => false
  }

  /** A legal history of one run's committed checkpoints. */
  ghost predicate Legal(maxCycles: int, steps: seq<WorkflowStep>) {
    && (steps != [] ==> steps[0] == Assignment)
    && forall i | 0 < i < |steps| :: Follows(maxCycles, steps[i - 1], steps[i])
  }

  /** The checkpoint of a round without an ending: start, complete, hand off, review. */
  predicate RoundStep(step: WorkflowStep, cycle: int, stage: int) {
    match stage
    case 0 => step == if cycle == 1 then DeveloperStarted(1) else NextCycle(cycle)
    case 1 => step == DeveloperCompleted(cycle)
    case 2 => step == DeveloperHandoff(cycle)
    case _ => step.Review? && step.cycle == cycle
  }

  predicate Ending(step: WorkflowStep) {
    step.Exhausted? || step.SafeFailure?
  }

  /** A run starts once, then goes through rounds of the same four checkpoints, numbered from one
      and never more than the limit, and ends at most once, at the end. Every review before the
      last asked for changes, and exhaustion comes exactly at the limit. */
  lemma {:induction false} LegalShape(maxCycles: int, steps: seq<WorkflowStep>, i: nat)
    requires Legal(maxCycles, steps) && 1 <= maxCycles && i < |steps|
    ensures i == 0 ==> steps[i] == Assignment
    ensures Ending(steps[i]) ==> 0 < i && i == |steps| - 1
    ensures 0 < i && !Ending(steps[i]) ==>
              RoundStep(steps[i], (i - 1) / 4 + 1, (i - 1) % 4) && (i - 1) / 4 + 1 <= maxCycles
    ensures steps[i].Exhausted? ==> i == 4 * maxCycles + 1 && steps[i] == Exhausted(maxCycles, maxCycles)
    ensures steps[i].Review? && i < |steps| - 1 && !steps[i + 1].SafeFailure? ==> steps[i].decision == ReviewChanges
  {
    if i > 0 {
      LegalShape(maxCycles, steps, i - 1);
      assert Follows(maxCycles, steps[i - 1], steps[i]);
    }
    if i + 1 < |steps| {
      assert Follows(maxCycles, steps[i], steps[i + 1]);
    }
  }

  /** What one checkpoint after another commits when no other transaction comes in between. */
  function AloneRun(w: World, s: WorkflowScope, steps: seq<WorkflowStep>): World {
    if steps == [] then w
    else Apply(AloneRun(w, s, steps[..|steps| - 1]), Workflow(s, steps[|steps| - 1]))
  }

  /** Each checkpoint's batch of events, one after another. */
  function Batches(s: WorkflowScope, steps: seq<WorkflowStep>): seq<Event> {
    if steps == [] then []
    else
      var last := Workflow(s, steps[|steps| - 1]);
      Batches(s, steps[..|steps| - 1]) + Batch(ExpectedStatus(last), last)
  }

  lemma FirstCommits(w: World, s: WorkflowScope)
    requires w.row == Row(Ready, None)
    ensures Attempt(w, Workflow(s, Assignment))
         == Committed(World(Row(Assigned, Some(s.developerId)), w.log + Batch(Ready, Workflow(s, Assignment))))
  {
  }

  /** The cycle a step is in lies within the run's limit. */
  predicate InLimit(maxCycles: int, step: WorkflowStep) {
    match step
    case Assignment => true
    case SafeFailure(_, _) => true
    case Exhausted(c, m) => 1 <= c && c == m == maxCycles
    case Review(c, _, _, _) => 1 <= c <= maxCycles
    case DeveloperStarted(c) => 1 <= c <= maxCycles
    case NextCycle(c) => 1 <= c <= maxCycles
    case DeveloperCompleted(c) => 1 <= c <= maxCycles
    case DeveloperHandoff(c) => 1 <= c <= maxCycles
  }

  /** A step that follows the stored one commits, with its own events and status. */
  lemma NextCommits(w: World, s: WorkflowScope, prev: WorkflowStep, next: WorkflowStep)
    requires w.row == Row(StatusAfter(prev), Some(s.developerId))
    requires Follows(s.maxCycles, prev, next) && InLimit(s.maxCycles, next)
    ensures ExpectedStatus(Workflow(s, next)) == StatusAfter(prev)
    ensures Attempt(w, Workflow(s, next))
         == Committed(World(Row(StatusAfter(next), Some(s.developerId)), w.log + Batch(StatusAfter(prev), Workflow(s, next))))
  {
  }

  lemma LegalInLimit(maxCycles: int, steps: seq<WorkflowStep>, i: nat)
    requires Legal(maxCycles, steps) && 1 <= maxCycles && i < |steps|
    ensures InLimit(maxCycles, steps[i])
  {
    LegalShape(maxCycles, steps, i);
  }

  /** From a READY and unassigned task, every legal history commits in full when left alone:
      the log grows by exactly its batches and the row is where the last checkpoint left it. */
  lemma {:induction false} AloneRunCommits(w: World, s: WorkflowScope, steps: seq<WorkflowStep>)
    requires Legal(s.maxCycles, steps) && 1 <= s.maxCycles && steps != []
    requires w.row == Row(Ready, None)
    ensures AloneRun(w, s, steps) == World(Row(StatusAfter(steps[|steps| - 1]), Some(s.developerId)), w.log + Batches(s, steps))
  {
    var n := |steps| - 1;
    var before := steps[..n];
    var last := Workflow(s, steps[n]);
    if n == 0 {
      FirstCommits(w, s);
      assert before == [];
    } else {
      AloneRunCommits(w, s, before);
      assert Follows(s.maxCycles, steps[n - 1], steps[n]) && before[n - 1] == steps[n - 1];
      LegalInLimit(s.maxCycles, steps, n);
      NextCommits(AloneRun(w, s, before), s, steps[n - 1], steps[n]);
    }
    assert w.log + Batches(s, before) + Batch(ExpectedStatus(last), last) == w.log + Batches(s, steps);
  }

  // ---------------------------------------------------------------- interleaved with others

  /** One run as it happened: its own commits, and what others committed in between. */
  datatype TraceStep = Own(step: WorkflowStep) | Others(actions: seq<Action>)

  function Steps(trace: seq<TraceStep>): seq<WorkflowStep> {
    if trace == [] then []
    else
      var last := trace[|trace| - 1];
      Steps(trace[..|trace| - 1]) + if last.Own? then [last.step] else []
  }

  function Actions(s: WorkflowScope, trace: seq<TraceStep>): seq<Action> {
    if trace == [] then []
    else
      var last := trace[|trace| - 1];
      Actions(s, trace[..|trace| - 1]) + if last.Own? then [Workflow(s, last.step)] else last.actions
  }

  lemma {:induction false} RunAllAppend(w: World, a: seq<Action>, b: seq<Action>)
    ensures RunAll(w, a + b) == RunAll(RunAll(w, a), b)
  {
    if b == [] {
      assert a + b == a;
    } else {
      var n := |b| - 1;
      RunAllAppend(w, a, b[..n]);
      assert (a + b)[..|a + b| - 1] == a + b[..n];
    }
  }

  lemma TraceSnoc(w: World, s: WorkflowScope, trace: seq<TraceStep>, t: TraceStep)
    ensures Steps(trace + [t]) == Steps(trace) + if t.Own? then [t.step] else []
    ensures RunAll(w, Actions(s, trace + [t]))
         == if t.Own? then Apply(RunAll(w, Actions(s, trace)), Workflow(s, t.step))
            else RunAll(RunAll(w, Actions(s, trace)), t.actions)
  {
    assert (trace + [t])[..|trace|] == trace;
    var tail := if t.Own? then [Workflow(s, t.step)] else t.actions;
    RunAllAppend(w, Actions(s, trace), tail);
    if t.Own? {
      assert tail[..0] == [];
      assert RunAll(RunAll(w, Actions(s, trace)), tail[..0]) == RunAll(w, Actions(s, trace));
    }
  }

  /** The step at the position, when it is the run's own, was enabled where it stands. */
  ghost predicate CommittedAt(w: World, s: WorkflowScope, trace: seq<TraceStep>, k: nat)
    requires k < |trace|
  {
    trace[k].Own? ==> Attempt(RunAll(w, Actions(s, trace[..k])), Workflow(s, trace[k].step)).Committed?
  }

  /** Every checkpoint the run counts as its own was enabled, and committed, where it stands. */
  ghost predicate AllCommitted(w: World, s: WorkflowScope, trace: seq<TraceStep>) {
    forall k: nat | k < |trace| :: CommittedAt(w, s, trace, k)
  }

  lemma AllCommittedSnoc(w: World, s: WorkflowScope, trace: seq<TraceStep>, t: TraceStep)
    requires AllCommitted(w, s, trace)
    requires t.Own? ==> Attempt(RunAll(w, Actions(s, trace)), Workflow(s, t.step)).Committed?
    ensures AllCommitted(w, s, trace + [t])
  {
    assert (trace + [t])[..|trace|] == trace;
    forall k: nat | k < |trace + [t]| ensures CommittedAt(w, s, trace + [t], k) {
      if k < |trace| {
        assert (trace + [t])[..k] == trace[..k];
        assert CommittedAt(w, s, trace, k);
      }
    }
  }

  lemma LegalSnoc(maxCycles: int, steps: seq<WorkflowStep>, next: WorkflowStep)
    requires Legal(maxCycles, steps)
    requires if steps == [] then next == Assignment else Follows(maxCycles, steps[|steps| - 1], next)
    ensures Legal(maxCycles, steps + [next])
  {
  }

  /** A checkpoint commits only on the row it expects. */
  lemma CommittedRow(w: World, a: Action)
    requires IsCheckpoint(a) && Attempt(w, a).Committed?
    ensures w.row == Row(ExpectedStatus(a), ExpectedAssignee(a))
  {
  }

  /** A world is what a run and others made of its origin; alone, it is the run's own doing. */
  ghost predicate Link(origin: World, s: WorkflowScope, trace: seq<TraceStep>, w: World, alone: bool) {
    && w == RunAll(origin, Actions(s, trace))
    && AllCommitted(origin, s, trace)
    && Legal(s.maxCycles, Steps(trace))
    && (alone ==> w == AloneRun(origin, s, Steps(trace)))
    && (alone && Steps(trace) != [] ==> origin.row == Row(Ready, None))
  }

  lemma LinkOthers(origin: World, s: WorkflowScope, trace: seq<TraceStep>, w: World, alone: bool, actions: seq<Action>)
    requires Link(origin, s, trace, w, alone)
    requires alone ==> actions == []
    ensures Steps(trace + [Others(actions)]) == Steps(trace)
    ensures Link(origin, s, trace + [Others(actions)], RunAll(w, actions), alone)
  {
    TraceSnoc(origin, s, trace, Others(actions));
    AllCommittedSnoc(origin, s, trace, Others(actions));
  }

  lemma LinkOwn(origin: World, s: WorkflowScope, trace: seq<TraceStep>, w: World, alone: bool, step: WorkflowStep)
    requires Link(origin, s, trace, w, alone)
    requires Attempt(w, Workflow(s, step)).Committed?
    requires if Steps(trace) == [] then step == Assignment
             else Follows(s.maxCycles, Steps(trace)[|Steps(trace)| - 1], step)
    ensures Steps(trace + [Own(step)]) == Steps(trace) + [step]
    ensures Link(origin, s, trace + [Own(step)], Apply(w, Workflow(s, step)), alone)
    ensures Apply(w, Workflow(s, step)).row.status == StatusAfter(step)
  {
    TraceSnoc(origin, s, trace, Own(step));
    AllCommittedSnoc(origin, s, trace, Own(step));
    LegalSnoc(s.maxCycles, Steps(trace), step);
    CommittedStatus(w, s, step);
    assert (Steps(trace) + [step])[..|Steps(trace)|] == Steps(trace);
  }

  /** A checkpoint of the run that committed extends its link to the store. */
  lemma LinkCommitted(origin: World, s: WorkflowScope, trace: seq<TraceStep>, w: World, alone: bool, step: WorkflowStep, after: World)
    requires Link(origin, s, trace, w, alone)
    requires Attempt(w, Workflow(s, step)) == Committed(after)
    requires if Steps(trace) == [] then step == Assignment
             else Guard([], Workflow(s, step)).None? ==> Follows(s.maxCycles, Steps(trace)[|Steps(trace)| - 1], step)
    ensures Steps(trace + [Own(step)]) == Steps(trace) + [step]
    ensures Link(origin, s, trace + [Own(step)], after, alone) && after.row.status == StatusAfter(step)
  {
    assert Guard(w.log, Workflow(s, step)).None?;
    LinkOwn(origin, s, trace, w, alone, step);
  }

  lemma CommittedStatus(w: World, s: WorkflowScope, step: WorkflowStep)
    requires Attempt(w, Workflow(s, step)).Committed?
    ensures Apply(w, Workflow(s, step)).row.status == StatusAfter(step)
    ensures step == Assignment ==> w.row == Row(Ready, None)
  {
  }

  lemma LinkAlone(origin: World, s: WorkflowScope, trace: seq<TraceStep>, w: World)
    requires Link(origin, s, trace, w, true) && 1 <= s.maxCycles
    ensures Steps(trace) == [] ==> w == origin
    ensures Steps(trace) != [] ==>
              w == World(Row(StatusAfter(Steps(trace)[|Steps(trace)| - 1]), Some(s.developerId)),
                         origin.log + Batches(s, Steps(trace)))
  {
    if Steps(trace) != [] {
      AloneRunCommits(origin, s, Steps(trace));
    }
  }

  /** Alone, the next checkpoint of a started run finds the row it expects. */
  lemma LinkAloneStep(origin: World, s: WorkflowScope, trace: seq<TraceStep>, w: World, step: WorkflowStep)
    requires Link(origin, s, trace, w, true) && 1 <= s.maxCycles && Steps(trace) != []
    requires Guard([], Workflow(s, step)).None? ==> Follows(s.maxCycles, Steps(trace)[|Steps(trace)| - 1], step)
    requires ExpectedStatus(Workflow(s, step)) == StatusAfter(Steps(trace)[|Steps(trace)| - 1]) && !step.Assignment?
    ensures Attempt(w, Workflow(s, step)) != Rejected(InvalidState)
    ensures Guard([], Workflow(s, step)).None? ==> Attempt(w, Workflow(s, step)).Committed?
  {
    var last := Steps(trace)[|Steps(trace)| - 1];
    LinkAlone(origin, s, trace, w);
    if Guard([], Workflow(s, step)).None? {
      LegalSnoc(s.maxCycles, Steps(trace), step);
      LegalInLimit(s.maxCycles, Steps(trace) + [step], |Steps(trace)|);
      NextCommits(w, s, last, step);
    } else {
      assert Attempt(w, Workflow(s, step)) == Rejected(InvalidInput);
    }
  }
}
