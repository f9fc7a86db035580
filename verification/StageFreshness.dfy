/** Whether the start that a QA or Security completion relies on belongs to the visit it ends. */
module StageFreshness {
  import opened Wrappers
  import opened TaskProtocol
  import opened TaskSafety
  import opened WorkflowRuns

  /** The lane a stage action works on. */
  function LaneOf(a: Action): Lane
    requires a.Qa? || a.Security?
  {
    if a.Qa? then QaLane(a.qaScope.correlation, a.qaScope.examiner) else SecurityLane(a.securityScope.correlation)
  }

  /** A completion or an escalation of a stage. */
  predicate IsSettlement(a: Action) {
    (a.Qa? && !a.qaStep.Start?) || (a.Security? && !a.securityStep.Start?)
  }

  /** The lane was started after the entry at the given position. */
  ghost predicate StartedSince(log: seq<Event>, lane: Lane, entry: nat) {
    exists i | entry < i < |log| :: IsStart(lane, log[i])
  }

  lemma {:induction false} CountsGrow(log: seq<Event>, lane: Lane, k: nat)
    requires k <= |log|
    ensures Starts(log[..k], lane) <= Starts(log, lane)
    ensures Terminals(log[..k], lane) <= Terminals(log, lane)
    ensures Starts(log[..k], lane) < Starts(log, lane) <==> exists i | k <= i < |log| :: IsStart(lane, log[i])
  {
    if k < |log| {
      var n := |log| - 1;
      CountsGrow(log[..n], lane, k);
      assert log[..n][..k] == log[..k];
      assert forall i | k <= i < n :: log[..n][i] == log[i];
    } else {
      assert log[..k] == log;
    }
  }

  lemma SettlementIsClaimed(w: World, a: Action)
    requires StageClaims(w.log) && IsSettlement(a) && Attempt(w, a).Committed?
    ensures Starts(w.log, LaneOf(a)) == 1 && Terminals(w.log, LaneOf(a)) == 0
  {
    assert LaneInOrder(w.log, LaneOf(a)) && w.log[..|w.log|] == w.log;
    if a.Security? {
      StartsByBound(w.log, a.securityScope.correlation, a.securityScope.examiner);
    }
  }

  /** The guards of a completion count starts over the whole log, so nothing ties the start to the
      current visit. It belongs to the visit exactly when the lane was not still open on entry. */
  lemma FreshUnlessOpenOnEntry(w: World, actions: seq<Action>, a: Action, entry: nat)
    requires w.log == [] && IsSettlement(a) && Attempt(RunAll(w, actions), a).Committed?
    requires LastEntry(RunAll(w, actions).log, entry, RunAll(w, actions).row.status)
    ensures StartedSince(RunAll(w, actions).log, LaneOf(a), entry)
            <==> !Open(RunAll(w, actions).log[..entry], LaneOf(a))
  {
    var log, lane := RunAll(w, actions).log, LaneOf(a);
    RunsKeepStageClaims(w, actions);
    SettlementIsClaimed(RunAll(w, actions), a);
    CountsGrow(log, lane, entry);
    assert !IsStart(lane, log[entry]);
    assert LaneInOrder(log, lane);
  }

  // ---------------------------------------------------------------- one development and its QA

  /** A Developer-Reviewer run that is approved in its first round. */
  function ApprovedRun(): seq<WorkflowStep> {
    [ Assignment, DeveloperStarted(1), DeveloperCompleted(1), DeveloperHandoff(1),
      Review(1, ReviewApproved, 1.0, 0) ]
  }

  function WorkflowOf(developer: AgentId, c: Correlation): WorkflowScope {
    WorkflowScope(developer, "developer", "reviewer", c, 2)
  }

  function OwnActions(s: WorkflowScope, steps: seq<WorkflowStep>): seq<Action> {
    if steps == [] then []
    else OwnActions(s, steps[..|steps| - 1]) + [Workflow(s, steps[|steps| - 1])]
  }

  /** The checkpoints of one correlation, from READY to WAITING_SECURITY. */
  function Work(developer: AgentId, c: Correlation): seq<Action> {
    OwnActions(WorkflowOf(developer, c), ApprovedRun())
    + [Qa(StageScope(developer, "qa", c), Start)] + [Qa(StageScope(developer, "qa", c), Complete(QaPassed, c))]
  }

  /** What they record. */
  function Reviewed(developer: AgentId, c: Correlation): seq<Event> {
    Batches(WorkflowOf(developer, c), ApprovedRun())
  }

  function Examined(c: Correlation): seq<Event> {
    [QaStarted(c, "qa"), StatusChanged(WaitingQa, WaitingSecurity, Some("qa"), c), QaCompleted(c, "qa", QaPassed)]
  }

  lemma ApprovedRunIsLegal(developer: AgentId, c: Correlation)
    ensures Legal(WorkflowOf(developer, c).maxCycles, ApprovedRun())
  {
  }

  lemma {:induction false} OwnActionsRunAlone(w: World, s: WorkflowScope, steps: seq<WorkflowStep>)
    ensures RunAll(w, OwnActions(s, steps)) == AloneRun(w, s, steps)
  {
    if steps != [] {
      OwnActionsRunAlone(w, s, steps[..|steps| - 1]);
      RunAllOne(w, OwnActions(s, steps[..|steps| - 1]), Workflow(s, steps[|steps| - 1]));
    }
  }

  lemma RunAllOne(w: World, actions: seq<Action>, a: Action)
    ensures RunAll(w, actions + [a]) == Apply(RunAll(w, actions), a)
  {
    assert (actions + [a])[..|actions|] == actions;
  }

  /** Whether an event belongs to a QA or Security stage. */
  predicate OfStage(e: Event) {
    e.QaStarted? || e.QaCompleted? || e.QaEscalated? || e.SecurityStarted? || e.SecurityCompleted? || e.SecurityEscalated?
  }

  lemma {:induction false} WorkflowsAreNoStage(s: WorkflowScope, steps: seq<WorkflowStep>)
    ensures forall e <- Batches(s, steps) :: !OfStage(e)
  {
    if steps != [] {
      WorkflowsAreNoStage(s, steps[..|steps| - 1]);
      BatchIsNoStage(Workflow(s, steps[|steps| - 1]));
    }
  }

  lemma BatchIsNoStage(a: Action)
    requires a.Workflow?
    ensures forall e <- Batch(ExpectedStatus(a), a) :: !OfStage(e)
  {
  }

  lemma {:induction false} OneStart(log: seq<Event>, lane: Lane, i: nat)
    requires forall k | 0 <= k < |log| :: !IsTerminal(lane, log[k]) && (IsStart(lane, log[k]) <==> k == i)
    ensures Starts(log, lane) == (if i < |log| then 1 else 0) && Terminals(log, lane) == 0
  {
    if log != [] {
      OneStart(log[..|log| - 1], lane, i);
    }
  }

  lemma {:induction false} AllBy(log: seq<Event>, c: Correlation, actor: Slug)
    requires forall k | 0 <= k < |log| :: IsStart(SecurityLane(c), log[k]) ==> log[k].actor == actor
    ensures StartsBy(log, c, actor) == Starts(log, SecurityLane(c))
  {
    if log != [] {
      AllBy(log[..|log| - 1], c, actor);
    }
  }

  /** No event of the log has to do with the QA of the correlation. */
  ghost predicate Untouched(log: seq<Event>, c: Correlation) {
    forall e <- log :: !IsStart(QaLane(c, "qa"), e) && !IsTerminal(QaLane(c, "qa"), e)
  }

  lemma QaStarts(w: World, s: StageScope)
    requires w.row == Row(WaitingQa, Some(s.developerId)) && s.examiner == "qa" && Untouched(w.log, s.correlation)
    ensures Apply(w, Qa(s, Start)) == World(w.row, w.log + [QaStarted(s.correlation, "qa")])
  {
    OneStart(w.log, QaLane(s.correlation, "qa"), |w.log|);
  }

  lemma QaPasses(w: World, before: seq<Event>, s: StageScope)
    requires w.row == Row(WaitingQa, Some(s.developerId)) && s.examiner == "qa"
    requires Untouched(before, s.correlation) && w.log == before + [QaStarted(s.correlation, "qa")]
    ensures Apply(w, Qa(s, Complete(QaPassed, s.correlation)))
            == World(Row(WaitingSecurity, Some(s.developerId)), before + Examined(s.correlation))
  {
    OneStart(w.log, QaLane(s.correlation, "qa"), |before|);
    assert before + Examined(s.correlation)
        == w.log + [StatusChanged(WaitingQa, WaitingSecurity, Some("qa"), s.correlation), QaCompleted(s.correlation, "qa", QaPassed)];
  }

  /** Left alone, the work takes a READY and unassigned task to WAITING_SECURITY. */
  lemma WorkCommits(w: World, developer: AgentId, c: Correlation)
    requires w.row == Row(Ready, None) && Untouched(w.log, c)
    ensures RunAll(w, Work(developer, c))
            == World(Row(WaitingSecurity, Some(developer)), w.log + Reviewed(developer, c) + Examined(c))
  {
    var s, qa := WorkflowOf(developer, c), StageScope(developer, "qa", c);
    var own := OwnActions(s, ApprovedRun());
    OwnActionsRunAlone(w, s, ApprovedRun());
    ApprovedRunIsLegal(developer, c);
    AloneRunCommits(w, s, ApprovedRun());
    WorkflowsAreNoStage(s, ApprovedRun());
    var reviewed := World(Row(WaitingQa, Some(developer)), w.log + Reviewed(developer, c));
    assert RunAll(w, own) == reviewed;
    QaStarts(reviewed, qa);
    RunAllOne(w, own, Qa(qa, Start));
    QaPasses(RunAll(w, own + [Qa(qa, Start)]), reviewed.log, qa);
    RunAllOne(w, own + [Qa(qa, Start)], Qa(qa, Complete(QaPassed, c)));
  }

  // ---------------------------------------------------------------- a stale start

  /** A human takes the task over and gives it back to be claimed anew. */
  function HandBack(c: Correlation): seq<Action> {
    [Move(WaitingHuman, None, c), Move(Ready, None, c), Reassign(None)]
  }

  function HandedBack(c: Correlation): seq<Event> {
    [StatusChanged(WaitingSecurity, WaitingHuman, None, c), StatusChanged(WaitingHuman, Ready, None, c)]
  }

  /** Security starts, and before it is done the task is handed back. */
  function Interlude(developer: AgentId, c: Correlation): seq<Action> {
    [Security(StageScope(developer, "security", c), Start)] + HandBack(c)
  }

  function InterludeLog(c: Correlation): seq<Event> {
    [SecurityStarted(c, "security")] + HandedBack(c)
  }

  lemma SecurityStarts(w: World, developer: AgentId, c: Correlation)
    requires w.row == Row(WaitingSecurity, Some(developer))
    requires forall e <- w.log :: !e.SecurityStarted? && !IsTerminal(SecurityLane(c), e)
    ensures Apply(w, Security(StageScope(developer, "security", c), Start))
            == World(w.row, w.log + [SecurityStarted(c, "security")])
  {
    OneStart(w.log, SecurityLane(c), |w.log|);
  }

  lemma HandBackCommits(w: World, c: Correlation)
    requires w.row.status == WaitingSecurity
    ensures RunAll(w, HandBack(c)) == World(Row(Ready, None), w.log + HandedBack(c))
  {
    var human, ready := Move(WaitingHuman, None, c), Move(Ready, None, c);
    var held := World(Row(WaitingHuman, w.row.assignee), w.log + [StatusChanged(WaitingSecurity, WaitingHuman, None, c)]);
    var given := World(Row(Ready, w.row.assignee), w.log + HandedBack(c));
    assert Apply(w, human) == held;
    assert held.log + [StatusChanged(WaitingHuman, Ready, None, c)] == given.log;
    assert Apply(held, ready) == given;
    RunAllOne(w, [], human);
    RunAllOne(w, [human], ready);
    RunAllOne(w, [human, ready], Reassign(None));
    assert [] + [human] == [human] && [human] + [ready] == [human, ready];
    assert [human, ready] + [Reassign(None)] == HandBack(c);
  }

  lemma InterludeCommits(w: World, developer: AgentId, c: Correlation)
    requires w.row == Row(WaitingSecurity, Some(developer))
    requires forall e <- w.log :: !e.SecurityStarted? && !IsTerminal(SecurityLane(c), e)
    ensures RunAll(w, Interlude(developer, c)) == World(Row(Ready, None), w.log + InterludeLog(c))
  {
    var start := Security(StageScope(developer, "security", c), Start);
    SecurityStarts(w, developer, c);
    RunAllOne(w, [], start);
    assert [] + [start] == [start];
    RunAllAppend(w, [start], HandBack(c));
    HandBackCommits(RunAll(w, [start]), c);
    assert w.log + [SecurityStarted(c, "security")] + HandedBack(c) == w.log + InterludeLog(c);
  }

  /** A new task is developed, examined and claimed by Security twice over. */
  function TwoVisits(developer: AgentId, c: Correlation, d: Correlation): seq<Action> {
    [Move(Ready, None, c)] + Work(developer, c) + Interlude(developer, c) + Work(developer, d)
  }

  function FirstLog(developer: AgentId, c: Correlation): seq<Event> {
    [StatusChanged(Backlog, Ready, None, c)] + Reviewed(developer, c) + Examined(c)
  }

  function TwoVisitsLog(developer: AgentId, c: Correlation, d: Correlation): seq<Event> {
    FirstLog(developer, c) + InterludeLog(c) + Reviewed(developer, d) + Examined(d)
  }

  lemma FirstVisit(developer: AgentId, c: Correlation)
    ensures RunAll(World(Row(Backlog, None), []), [Move(Ready, None, c)] + Work(developer, c))
            == World(Row(WaitingSecurity, Some(developer)), FirstLog(developer, c))
  {
    var w := World(Row(Backlog, None), []);
    var ready := World(Row(Ready, None), [StatusChanged(Backlog, Ready, None, c)]);
    RunAllOne(w, [], Move(Ready, None, c));
    assert [] + [Move(Ready, None, c)] == [Move(Ready, None, c)];
    assert Apply(w, Move(Ready, None, c)) == ready;
    RunAllAppend(w, [Move(Ready, None, c)], Work(developer, c));
    WorkCommits(ready, developer, c);
  }

  lemma FirstLogEvents(developer: AgentId, c: Correlation)
    ensures forall e <- FirstLog(developer, c) ::
              !e.SecurityStarted? && !IsTerminal(SecurityLane(c), e) && (e.QaStarted? || e.QaCompleted? || e.QaEscalated? ==> e.correlation == c)
  {
    WorkflowsAreNoStage(WorkflowOf(developer, c), ApprovedRun());
  }

  lemma HandedBackOnce(developer: AgentId, c: Correlation)
    ensures RunAll(World(Row(Backlog, None), []), [Move(Ready, None, c)] + Work(developer, c) + Interlude(developer, c))
            == World(Row(Ready, None), FirstLog(developer, c) + InterludeLog(c))
  {
    var w, first := World(Row(Backlog, None), []), [Move(Ready, None, c)] + Work(developer, c);
    FirstVisit(developer, c);
    FirstLogEvents(developer, c);
    RunAllAppend(w, first, Interlude(developer, c));
    InterludeCommits(RunAll(w, first), developer, c);
  }

  lemma UntouchedByOther(developer: AgentId, c: Correlation, d: Correlation)
    requires c != d
    ensures Untouched(FirstLog(developer, c) + InterludeLog(c), d)
  {
    FirstLogEvents(developer, c);
  }

  lemma SecondVisit(developer: AgentId, c: Correlation, d: Correlation)
    requires c != d
    ensures RunAll(World(Row(Backlog, None), []), TwoVisits(developer, c, d))
            == World(Row(WaitingSecurity, Some(developer)), TwoVisitsLog(developer, c, d))
  {
    HandedBackOnce(developer, c);
    UntouchedByOther(developer, c, d);
    RunAllAppend(World(Row(Backlog, None), []), [Move(Ready, None, c)] + Work(developer, c) + Interlude(developer, c),
                 Work(developer, d));
    WorkCommits(World(Row(Ready, None), FirstLog(developer, c) + InterludeLog(c)), developer, d);
  }

  /** The lane has exactly one start, at the given position, and no terminal event. */
  ghost predicate SoleStart(log: seq<Event>, lane: Lane, n: nat) {
    n < |log| && forall k | 0 <= k < |log| :: !IsTerminal(lane, log[k]) && (IsStart(lane, log[k]) <==> k == n)
  }

  lemma StartAmong(before: seq<Event>, e: Event, after: seq<Event>, lane: Lane)
    requires IsStart(lane, e) && !IsTerminal(lane, e)
    requires forall x <- before :: !IsStart(lane, x) && !IsTerminal(lane, x)
    requires forall x <- after :: !IsStart(lane, x) && !IsTerminal(lane, x)
    ensures SoleStart(before + [e] + after, lane, |before|)
  {
    var log := before + [e] + after;
    assert forall k | 0 <= k < |before| :: log[k] == before[k];
    assert forall k | |before| < k < |log| :: log[k] == after[k - |before| - 1];
  }

  lemma NoStartAfterwards(developer: AgentId, c: Correlation, d: Correlation)
    ensures forall e <- HandedBack(c) + Reviewed(developer, d) + Examined(d) ::
              !e.SecurityStarted? && !IsTerminal(SecurityLane(c), e)
  {
    WorkflowsAreNoStage(WorkflowOf(developer, d), ApprovedRun());
  }

  lemma Regrouped<T>(a: seq<T>, x: T, b: seq<T>, r: seq<T>, e: seq<T>)
    ensures a + ([x] + b) + r + e == a + [x] + (b + r + e)
    ensures (a + ([x] + b) + r + e)[|a|] == x
  {
  }

  lemma StartInFirstVisit(developer: AgentId, c: Correlation, d: Correlation)
    ensures SoleStart(TwoVisitsLog(developer, c, d), SecurityLane(c), |FirstLog(developer, c)|)
    ensures TwoVisitsLog(developer, c, d)[|FirstLog(developer, c)|] == SecurityStarted(c, "security")
  {
    var before, start := FirstLog(developer, c), SecurityStarted(c, "security");
    FirstLogEvents(developer, c);
    NoStartAfterwards(developer, c, d);
    StartAmong(before, start, HandedBack(c) + Reviewed(developer, d) + Examined(d), SecurityLane(c));
    Regrouped(before, start, HandedBack(c), Reviewed(developer, d), Examined(d));
  }

  /** The sole start is enough for a verdict by the agent that recorded it. */
  lemma SoleStartSettles(w: World, developer: AgentId, c: Correlation, n: nat)
    requires w.row == Row(WaitingSecurity, Some(developer))
    requires SoleStart(w.log, SecurityLane(c), n) && w.log[n].actor == "security"
    ensures var settle := Security(StageScope(developer, "security", c), Complete(Pass, c));
            Attempt(w, settle).Committed? && Apply(w, settle).row.status == Completed
  {
    OneStart(w.log, SecurityLane(c), n);
    AllBy(w.log, c, "security");
  }

  /** Both runs are legal, and the task enters WAITING_SECURITY twice; the work of the second visit is
      COMPLETED on the strength of the start recorded in the first. */
  lemma StaleStartCompletes(developer: AgentId, c: Correlation, d: Correlation)
    returns (before: World, settle: Action, first: nat, start: nat, entry: nat)
    requires c != d
    ensures before == RunAll(World(Row(Backlog, None), []), TwoVisits(developer, c, d))
    ensures Legal(WorkflowOf(developer, c).maxCycles, ApprovedRun())
    ensures settle == Security(StageScope(developer, "security", c), Complete(Pass, c))
    ensures Attempt(before, settle).Committed? && Apply(before, settle).row.status == Completed
    ensures first < start < entry && LastEntry(before.log, entry, WaitingSecurity)
    ensures before.log[first].StatusChanged? && before.log[first].to == WaitingSecurity
    ensures IsStart(LaneOf(settle), before.log[start]) && !StartedSince(before.log, LaneOf(settle), entry)
  {
    ApprovedRunIsLegal(developer, c);
    SecondVisit(developer, c, d);
    StartInFirstVisit(developer, c, d);
    before := World(Row(WaitingSecurity, Some(developer)), TwoVisitsLog(developer, c, d));
    settle := Security(StageScope(developer, "security", c), Complete(Pass, c));
    start, entry := |FirstLog(developer, c)|, |before.log| - 2;
    first := start - 2;
    SoleStartSettles(before, developer, c, start);
    EntriesOfTwoVisits(developer, c, d);
  }

  lemma EntriesOfTwoVisits(developer: AgentId, c: Correlation, d: Correlation)
    ensures var log, n := TwoVisitsLog(developer, c, d), |FirstLog(developer, c)|;
            && 2 <= n < |log| - 2 && LastEntry(log, |log| - 2, WaitingSecurity)
            && log[n - 2].StatusChanged? && log[n - 2].to == WaitingSecurity
  {
    var log, n := TwoVisitsLog(developer, c, d), |FirstLog(developer, c)|;
    assert log[|log| - 3..] == Examined(d);
    assert log[|log| - 2] == Examined(d)[1] && log[|log| - 1] == Examined(d)[2];
    assert log[..n] == FirstLog(developer, c) && FirstLog(developer, c)[n - 3..] == Examined(c);
    assert log[n - 2] == log[..n][n - 2] == Examined(c)[1];
  }
}
