/** What the committed log of one task satisfies after any interleaving of transactions. */
module TaskSafety {
  import opened Wrappers
  import opened TaskProtocol

  // ---------------------------------------------------------------- the status chain

  /** The status events of a log lead from one status to another along allowed edges. */
  ghost predicate Chained(initial: TaskStatus, log: seq<Event>, current: TaskStatus)
    decreases |log|
  {
    if log == [] then current == initial
    else
      var prefix, e := log[..|log| - 1], log[|log| - 1];
      if e.StatusChanged?
      then e.to == current && CanTransition(e.from, e.to) && Chained(initial, prefix, e.from)
      else Chained(initial, prefix, current)
  }

  lemma ChainedSnoc(initial: TaskStatus, log: seq<Event>, current: TaskStatus, e: Event)
    requires Chained(initial, log, current)
    requires e.StatusChanged? ==> e.from == current && CanTransition(e.from, e.to)
    ensures Chained(initial, log + [e], if e.StatusChanged? then e.to else current)
  {
    assert (log + [e])[..|log|] == log;
  }

  lemma ChainedFacts(initial: TaskStatus, log: seq<Event>, current: TaskStatus, facts: seq<Event>)
    requires Chained(initial, log, current)
    requires |facts| <= 2 && forall e <- facts :: !e.StatusChanged?
    ensures Chained(initial, log + facts, current)
  {
    if facts == [] {
      assert log + facts == log;
    } else {
      ChainedSnoc(initial, log, current, facts[0]);
      if |facts| == 1 {
        assert log + facts == log + [facts[0]];
      } else {
        ChainedSnoc(initial, log + [facts[0]], current, facts[1]);
        assert log + facts == log + [facts[0]] + [facts[1]];
      }
    }
  }

  lemma FactsAreNotTransitions(a: Action)
    requires IsCheckpoint(a)
    ensures |Facts(a)| <= 2 && forall e <- Facts(a) :: !e.StatusChanged?
  {
  }

  lemma BatchKeepsChain(initial: TaskStatus, log: seq<Event>, from: TaskStatus, a: Action)
    requires IsCheckpoint(a) && Chained(initial, log, from)
    requires Target(a).Some? ==> CanTransition(from, Target(a).value)
    ensures Chained(initial, log + Batch(from, a), if Target(a).Some? then Target(a).value else from)
  {
    FactsAreNotTransitions(a);
    if Target(a).None? {
      ChainedFacts(initial, log, from, Facts(a));
    } else {
      var change := StatusChanged(from, Target(a).value, MoverOf(a), CorrelationOf(a));
      ChainedSnoc(initial, log, from, change);
      ChainedFacts(initial, log + [change], Target(a).value, Facts(a));
      assert log + Batch(from, a) == log + [change] + Facts(a);
    }
  }

  lemma ApplyKeepsChain(initial: TaskStatus, w: World, a: Action)
    requires Chained(initial, w.log, w.row.status)
    ensures Chained(initial, Apply(w, a).log, Apply(w, a).row.status)
  {
    if Attempt(w, a).Committed? {
      if a.Move? {
        ChainedSnoc(initial, w.log, w.row.status, StatusChanged(w.row.status, a.target, a.mover, a.correlation));
      } else if IsCheckpoint(a) {
        BatchKeepsChain(initial, w.log, w.row.status, a);
      }
    }
  }

  /** Whatever runs interleave and fail, the status events chain the first status to the stored one. */
  lemma {:induction false} RunsKeepChain(w: World, actions: seq<Action>)
    requires w.log == []
    ensures Chained(w.row.status, RunAll(w, actions).log, RunAll(w, actions).row.status)
  {
    if actions != [] {
      var n := |actions| - 1;
      RunsKeepChain(w, actions[..n]);
      ApplyKeepsChain(w.row.status, RunAll(w, actions[..n]), actions[n]);
    }
  }

  /** The entry into the current status: the last status event of the log. */
  ghost predicate LastEntry(log: seq<Event>, i: nat, current: TaskStatus) {
    && i < |log| && log[i].StatusChanged? && log[i].to == current
    && forall k | i < k < |log| :: !log[k].StatusChanged?
  }

  lemma {:induction false} FindEntry(initial: TaskStatus, log: seq<Event>, current: TaskStatus) returns (i: nat)
    requires Chained(initial, log, current) && current != initial
    ensures LastEntry(log, i, current)
    ensures CanTransition(log[i].from, current) && Chained(initial, log[..i], log[i].from)
    decreases |log|
  {
    var n := |log| - 1;
    if log[n].StatusChanged? {
      i := n;
    } else {
      i := FindEntry(initial, log[..n], current);
      assert log[..n][..i] == log[..i];
    }
  }

  /** A status that differs from one entered earlier was itself entered in between. */
  lemma {:induction false} EnteredSince(initial: TaskStatus, log: seq<Event>, current: TaskStatus, i: nat)
    returns (k: nat)
    requires Chained(initial, log, current)
    requires i < |log| && log[i].StatusChanged? && log[i].to != current
    ensures i < k < |log| && log[k].StatusChanged? && log[k].to == current
    decreases |log|
  {
    var n := |log| - 1;
    if log[n].StatusChanged? {
      k := n;
    } else {
      k := EnteredSince(initial, log[..n], current, i);
    }
  }

  lemma {:induction false} ChainedPrefix(initial: TaskStatus, log: seq<Event>, current: TaskStatus, i: nat)
    requires Chained(initial, log, current)
    requires i < |log| && log[i].StatusChanged?
    ensures Chained(initial, log[..i], log[i].from)
    decreases |log|
  {
    var n := |log| - 1;
    if i < n {
      ChainedPrefix(initial, log[..n], if log[n].StatusChanged? then log[n].from else current, i);
      assert log[..n][..i] == log[..i];
    }
  }

  // ---------------------------------------------------------------- evidence beside each event

  /** The event that must follow the entry into a gated status in the same transaction. */
  predicate GateEvidence(change: Event, fact: Event)
    requires change.StatusChanged? && Gated(change.to)
  {
    && !fact.StatusChanged? && fact.correlation == change.correlation && change.mover == Some(fact.actor)
    && match change.to
       case WaitingQa => fact.ReviewCompleted? && fact.review == ReviewApproved
       case WaitingSecurity => fact.QaCompleted? && fact.qa == QaPassed
       case _ => fact.SecurityCompleted? && fact.security == Pass
  }

  /** The status change that must come right before a fact that settles a status. */
  predicate SettledBy(change: Event, fact: Event) {
    match fact
    case WorkflowStarted(_, _) => change.StatusChanged? && change.from == Ready && change.to == Assigned
    case QaCompleted(_, _, d) =>
      change.StatusChanged? && change.from == WaitingQa
      && change.to == if d.QaPassed? then WaitingSecurity else ChangesRequested
    case QaEscalated(_, _, _) => change.StatusChanged? && change.from == WaitingQa && change.to == WaitingHuman
    case SecurityCompleted(_, _, d) =>
      && change.StatusChanged? && change.from == WaitingSecurity
      && change.to == (match d case Pass => Completed case Warn => WaitingHuman case Block => ChangesRequested)
    case SecurityEscalated(_, _, _) =>
      change.StatusChanged? && change.from == WaitingSecurity && change.to == WaitingHuman
    case _ => true
  }

  predicate NeedsChange(fact: Event) {
    fact.WorkflowStarted? || fact.QaCompleted? || fact.QaEscalated?
    || fact.SecurityCompleted? || fact.SecurityEscalated?
  }

  /** Every gated entry carries its evidence, and every settling fact its status change. */
  ghost predicate Evidenced(log: seq<Event>) {
    && (forall i | 0 <= i < |log| && log[i].StatusChanged? && Gated(log[i].to) ::
          i + 1 < |log| && GateEvidence(log[i], log[i + 1]))
    && (forall i | 0 <= i < |log| && NeedsChange(log[i]) ::
          0 < i && SettledBy(log[i - 1], log[i]))
  }

  lemma EvidencedAppend(log: seq<Event>, batch: seq<Event>)
    requires Evidenced(log) && Evidenced(batch)
    ensures Evidenced(log + batch)
  {
    var all := log + batch;
    forall i | 0 <= i < |all| && all[i].StatusChanged? && Gated(all[i].to)
      ensures i + 1 < |all| && GateEvidence(all[i], all[i + 1])
    {
      if i < |log| {
        assert all[i] == log[i] && all[i + 1] == log[i + 1];
      } else {
        assert all[i] == batch[i - |log|] && all[i + 1] == batch[i + 1 - |log|];
      }
    }
    forall i | 0 <= i < |all| && NeedsChange(all[i])
      ensures 0 < i && SettledBy(all[i - 1], all[i])
    {
      if i < |log| {
        assert all[i] == log[i] && all[i - 1] == log[i - 1];
      } else {
        assert all[i] == batch[i - |log|] && all[i - 1] == batch[i - 1 - |log|];
      }
    }
  }

  lemma EvidencedPair(change: Event, facts: seq<Event>)
    requires change.StatusChanged? && |facts| <= 2
    requires Gated(change.to) ==> facts != [] && GateEvidence(change, facts[0])
    requires forall i | 0 <= i < |facts| :: !facts[i].StatusChanged?
    requires |facts| > 0 && NeedsChange(facts[0]) ==> SettledBy(change, facts[0])
    requires |facts| > 1 ==> !NeedsChange(facts[1])
    ensures Evidenced([change] + facts)
  {
    var batch := [change] + facts;
    assert forall i | 1 <= i < |batch| :: batch[i] == facts[i - 1];
  }

  lemma BatchIsEvidenced(from: TaskStatus, a: Action)
    requires IsCheckpoint(a)
    requires from == ExpectedStatus(a)
    ensures Evidenced(Batch(from, a))
  {
    if Target(a).Some? {
      var change := StatusChanged(from, Target(a).value, MoverOf(a), CorrelationOf(a));
      match a {
        case Workflow(_, _) => EvidencedPair(change, Facts(a));
        case Qa(_, _) => EvidencedPair(change, Facts(a));
        case Security(_, _) => EvidencedPair(change, Facts(a));
      }
    }
  }

  lemma ApplyKeepsEvidence(w: World, a: Action)
    requires Evidenced(w.log)
    ensures Evidenced(Apply(w, a).log)
  {
    if Attempt(w, a).Committed? {
      if a.Move? {
        EvidencedAppend(w.log, [StatusChanged(w.row.status, a.target, a.mover, a.correlation)]);
      } else if IsCheckpoint(a) {
        BatchIsEvidenced(w.row.status, a);
        EvidencedAppend(w.log, Batch(w.row.status, a));
      }
    }
  }

  lemma {:induction false} RunsKeepEvidence(w: World, actions: seq<Action>)
    requires w.log == []
    ensures Evidenced(RunAll(w, actions).log)
  {
    if actions != [] {
      var n := |actions| - 1;
      RunsKeepEvidence(w, actions[..n]);
      ApplyKeepsEvidence(RunAll(w, actions[..n]), actions[n]);
    }
  }

  // ---------------------------------------------------------------- completion is gated

  /** Status events a < b < c < d < e are the last five of the log, and lead to COMPLETED
      from IN_PROGRESS through review, QA and Security. */
  ghost predicate FinalStages(log: seq<Event>, a: nat, b: nat, c: nat, d: nat, e: nat) {
    && a < b < c < d < e
    && LastEntry(log, e, Completed) && LastEntry(log[..e], d, WaitingSecurity)
    && LastEntry(log[..d], c, WaitingQa) && LastEntry(log[..c], b, WaitingReview)
    && LastEntry(log[..b], a, InProgress)
  }

  /** The same, with the evidence that follows each gated entry. */
  ghost predicate GatedCompletion(log: seq<Event>) {
    exists a: nat, b: nat, c: nat, d: nat, e: nat ::
      && FinalStages(log, a, b, c, d, e) && e + 1 < |log|
      && GateEvidence(log[c], log[c + 1])
      && GateEvidence(log[d], log[d + 1])
      && GateEvidence(log[e], log[e + 1])
  }

  /** A log with any status event has a last one, which entered the current status. */
  lemma {:induction false} FindEntrySince(initial: TaskStatus, log: seq<Event>, current: TaskStatus, i: nat) returns (j: nat)
    requires Chained(initial, log, current) && i < |log| && log[i].StatusChanged?
    ensures i <= j && LastEntry(log, j, current)
    ensures CanTransition(log[j].from, current) && Chained(initial, log[..j], log[j].from)
    decreases |log|
  {
    var n := |log| - 1;
    if log[n].StatusChanged? {
      j := n;
    } else {
      j := FindEntrySince(initial, log[..n], current, i);
      assert log[..n][..j] == log[..j];
    }
  }

  ghost predicate Entered(log: seq<Event>, i: nat, status: TaskStatus) {
    i < |log| && log[i].StatusChanged? && log[i].to == status
  }

  lemma StepBack(initial: TaskStatus, log: seq<Event>, current: TaskStatus, before: TaskStatus, i: nat) returns (j: nat)
    requires Chained(initial, log, current) && Entered(log, i, InProgress) && current != InProgress
    requires forall s :: CanTransition(s, current) ==> s == before
    ensures LastEntry(log, j, current) && Chained(initial, log[..j], before) && Entered(log[..j], i, InProgress)
  {
    j := FindEntrySince(initial, log, current, i);
  }

  lemma FindFinalStages(initial: TaskStatus, log: seq<Event>, i: nat) returns (a: nat, b: nat, c: nat, d: nat, e: nat)
    requires Chained(initial, log, Completed) && Entered(log, i, InProgress)
    ensures FinalStages(log, a, b, c, d, e)
  {
    e := StepBack(initial, log, Completed, WaitingSecurity, i);
    d := StepBack(initial, log[..e], WaitingSecurity, WaitingQa, i);
    assert log[..e][..d] == log[..d];
    c := StepBack(initial, log[..d], WaitingQa, WaitingReview, i);
    assert log[..d][..c] == log[..c];
    b := StepBack(initial, log[..c], WaitingReview, InProgress, i);
    assert log[..c][..b] == log[..b];
    a := FindEntrySince(initial, log[..b], InProgress, i);
  }

  /** The statuses a task may have before, or besides, its development. */
  predicate BesidesDevelopment(status: TaskStatus) {
    status in {Backlog, Ready, Assigned, ChangesRequested, Blocked, WaitingHuman, Failed, Cancelled}
  }

  lemma StepForth(initial: TaskStatus, log: seq<Event>, current: TaskStatus, before: TaskStatus) returns (j: nat)
    requires Chained(initial, log, current) && current != initial
    requires forall s :: CanTransition(s, current) ==> s == before
    ensures LastEntry(log, j, current) && Chained(initial, log[..j], before)
  {
    j := FindEntry(initial, log, current);
  }

  /** A task that is COMPLETED and did not start in development entered IN_PROGRESS. */
  lemma WasInProgress(initial: TaskStatus, log: seq<Event>) returns (i: nat)
    requires Chained(initial, log, Completed) && BesidesDevelopment(initial)
    ensures Entered(log, i, InProgress)
  {
    var e := StepForth(initial, log, Completed, WaitingSecurity);
    var d := StepForth(initial, log[..e], WaitingSecurity, WaitingQa);
    var c := StepForth(initial, log[..e][..d], WaitingQa, WaitingReview);
    var b := StepForth(initial, log[..e][..d][..c], WaitingReview, InProgress);
    i := FindEntry(initial, log[..e][..d][..c][..b], InProgress);
    assert log[..e][..d][..c][..b][i] == log[i];
  }

  lemma EvidenceAt(log: seq<Event>, i: nat, status: TaskStatus)
    requires Evidenced(log)
    requires i < |log| && log[i].StatusChanged? && log[i].to == status && Gated(status)
    ensures i + 1 < |log| && GateEvidence(log[i], log[i + 1])
  {
  }

  /** Every log that ends in COMPLETED after an entry into IN_PROGRESS has, after the last one, the
      entries into review, QA and Security, in that order and with nothing in between, each made in
      one transaction with its approving event by the agent that approved. */
  lemma CompletionIsGated(w: World, actions: seq<Action>)
    requires w.log == [] && RunAll(w, actions).row.status == Completed
    requires BesidesDevelopment(w.row.status) || exists i :: Entered(RunAll(w, actions).log, i, InProgress)
    ensures GatedCompletion(RunAll(w, actions).log)
  {
    RunsKeepChain(w, actions);
    RunsKeepEvidence(w, actions);
    var log := RunAll(w, actions).log;
    var i: nat;
    if BesidesDevelopment(w.row.status) {
      i := WasInProgress(w.row.status, log);
    } else {
      i :| Entered(log, i, InProgress);
    }
    var a, b, c, d, e := FindFinalStages(w.row.status, log, i);
    EvidenceAt(log, c, WaitingQa);
    EvidenceAt(log, d, WaitingSecurity);
    EvidenceAt(log, e, Completed);
  }

  // ---------------------------------------------------------------- one winner per visit

  /** The status a settling fact uses up: the claim of a READY task, or the end of a stage visit. */
  function Settles(fact: Event): Option<TaskStatus> {
    match fact
    case WorkflowStarted(_, _) => Some(Ready)
    case QaCompleted(_, _, _) => Some(WaitingQa)
    case QaEscalated(_, _, _) => Some(WaitingQa)
    case SecurityCompleted(_, _, _) => Some(WaitingSecurity)
    case SecurityEscalated(_, _, _) => Some(WaitingSecurity)
    case _ => None
  }

  /** Two runs never win the same claim, and each visit to a stage has at most one terminal event:
      between two facts that use up a status, the task entered that status again. */
  lemma OneWinnerPerVisit(w: World, actions: seq<Action>, i: nat, j: nat)
    requires w.log == []
    requires i < j < |RunAll(w, actions).log|
    requires Settles(RunAll(w, actions).log[i]).Some?
    requires Settles(RunAll(w, actions).log[j]) == Settles(RunAll(w, actions).log[i])
    ensures exists k | i < k < j ::
              RunAll(w, actions).log[k].StatusChanged?
              && Some(RunAll(w, actions).log[k].to) == Settles(RunAll(w, actions).log[i])
  {
    var log := RunAll(w, actions).log;
    var status := Settles(log[i]).value;
    RunsKeepChain(w, actions);
    RunsKeepEvidence(w, actions);
    assert SettledBy(log[i - 1], log[i]) && SettledBy(log[j - 1], log[j]);
    ChainedPrefix(w.row.status, log, RunAll(w, actions).row.status, j - 1);
    var k := EnteredSince(w.row.status, log[..j - 1], status, i - 1);
    assert log[..j - 1][k] == log[k] && k != i;
  }

  function Claims(log: seq<Event>): nat {
    if log == [] then 0 else Claims(log[..|log| - 1]) + if log[|log| - 1].WorkflowStarted? then 1 else 0
  }

  lemma {:induction false} ClaimsAppend(log: seq<Event>, batch: seq<Event>)
    ensures Claims(log + batch) == Claims(log) + Claims(batch)
  {
    if batch == [] {
      assert log + batch == log;
    } else {
      ClaimsAppend(log, batch[..|batch| - 1]);
      assert (log + batch)[..|log + batch| - 1] == log + batch[..|batch| - 1];
    }
  }

  lemma ShortClaims(facts: seq<Event>)
    requires |facts| <= 2 && forall i | 1 <= i < |facts| :: !facts[i].WorkflowStarted?
    ensures Claims(facts) == if facts != [] && facts[0].WorkflowStarted? then 1 else 0
  {
    if |facts| == 2 {
      assert facts[..1] == [facts[0]];
    }
  }

  lemma FactsClaim(a: Action)
    requires IsCheckpoint(a)
    ensures |Facts(a)| <= 2 && forall i | 1 <= i < |Facts(a)| :: !Facts(a)[i].WorkflowStarted?
    ensures Facts(a) != [] && Facts(a)[0].WorkflowStarted? <==> a.Workflow? && a.step.Assignment?
  {
  }

  lemma BatchClaims(from: TaskStatus, a: Action)
    requires IsCheckpoint(a)
    ensures Claims(Batch(from, a)) == if a.Workflow? && a.step.Assignment? then 1 else 0
  {
    FactsClaim(a);
    ShortClaims(Facts(a));
    if Target(a).Some? {
      var change := StatusChanged(from, Target(a).value, MoverOf(a), CorrelationOf(a));
      ClaimsAppend([change], Facts(a));
    }
  }

  /** No checkpoint ever clears the assignee. So unless another actor does, a task is claimed by
      at most one Developer-Reviewer run, ever: back in READY after an escalation, it keeps its
      first developer and every later claim is rejected. */
  lemma {:induction false} ClaimedOnce(w: World, actions: seq<Action>)
    requires w.log == []
    requires Reassign(None) !in actions
    ensures Claims(RunAll(w, actions).log) <= 1
    ensures RunAll(w, actions).row.assignee.None? ==> Claims(RunAll(w, actions).log) == 0
  {
    if actions != [] {
      var n := |actions| - 1;
      var before, a := RunAll(w, actions[..n]), actions[n];
      ClaimedOnce(w, actions[..n]);
      if Attempt(before, a).Committed? && IsCheckpoint(a) {
        BatchClaims(before.row.status, a);
        ClaimsAppend(before.log, Batch(before.row.status, a));
      } else if Attempt(before, a).Committed? && a.Move? {
        ClaimsAppend(before.log, [StatusChanged(before.row.status, a.target, a.mover, a.correlation)]);
      }
    }
  }

  // ---------------------------------------------------------------- stage claims

  /** One start, then at most one terminal event, at every moment of the log. */
  ghost predicate LaneInOrder(log: seq<Event>, lane: Lane) {
    forall k | 0 <= k <= |log| ::
      Terminals(log[..k], lane) <= Starts(log[..k], lane) <= 1
  }

  /** At every moment of the log at most one Security correlation is open. */
  ghost predicate OneSecurityRun(log: seq<Event>) {
    forall k, c, d | 0 <= k <= |log| && Open(log[..k], SecurityLane(c)) && Open(log[..k], SecurityLane(d)) ::
      c == d
  }

  ghost predicate StageClaims(log: seq<Event>) {
    (forall lane :: LaneInOrder(log, lane)) && OneSecurityRun(log)
  }

  /** An event that may be appended: a stage event only where its lane allows it. */
  ghost predicate MayAppend(log: seq<Event>, e: Event) {
    && (forall lane :: IsStart(lane, e) ==> Starts(log, lane) == 0)
    && (forall lane :: IsTerminal(lane, e) ==> Open(log, lane))
    && (e.SecurityStarted? ==> forall c :: !Open(log, SecurityLane(c)))
  }

  lemma StageClaimsSnoc(log: seq<Event>, e: Event)
    requires StageClaims(log) && MayAppend(log, e)
    ensures StageClaims(log + [e])
  {
    var all := log + [e];
    assert all[..|log|] == log && log[..|log|] == log && all[..|all|] == all;
    assert forall k | 0 <= k <= |log| :: all[..k] == log[..k];
    forall lane, k | 0 <= k <= |all|
      ensures Terminals(all[..k], lane) <= Starts(all[..k], lane) <= 1
    {
      assert LaneInOrder(log, lane);
      assert Terminals(log[..|log|], lane) <= Starts(log[..|log|], lane) <= 1;
      if k <= |log| {
        assert Terminals(log[..k], lane) <= Starts(log[..k], lane) <= 1;
      }
    }
    forall k, c, d | 0 <= k <= |all| && Open(all[..k], SecurityLane(c)) && Open(all[..k], SecurityLane(d))
      ensures c == d
    {
      if k > |log| {
        assert all[..k] == all;
        assert !e.SecurityStarted? ==> Open(log[..|log|], SecurityLane(c)) && Open(log[..|log|], SecurityLane(d));
      }
    }
  }

  lemma {:induction false} StartsByBound(log: seq<Event>, c: Correlation, actor: Slug)
    ensures StartsBy(log, c, actor) <= Starts(log, SecurityLane(c))
  {
    if log != [] {
      StartsByBound(log[..|log| - 1], c, actor);
    }
  }

  /** The log query over grouped events sees every open correlation. */
  lemma {:induction false} OpenIsUnmatched(log: seq<Event>, c: Correlation) returns (i: nat)
    requires Starts(log, SecurityLane(c)) > 0
    ensures i < |log| && log[i].SecurityStarted? && log[i].correlation == c
  {
    var n := |log| - 1;
    if IsStart(SecurityLane(c), log[n]) {
      i := n;
    } else {
      i := OpenIsUnmatched(log[..n], c);
    }
  }

  lemma GuardAdmits(w: World, a: Action)
    requires StageClaims(w.log)
    requires IsCheckpoint(a) && !a.Workflow? && Guard(w.log, a).None?
    ensures MayAppend(w.log, Facts(a)[0])
  {
    var log := w.log;
    match a {
      case Qa(s, step) =>
        assert LaneInOrder(log, QaLane(s.correlation, s.examiner));
        assert log[..|log|] == log;
      case Security(s, step) =>
        if step.Start? {
          forall c ensures !Open(log, SecurityLane(c)) {
            if Open(log, SecurityLane(c)) {
              var i := OpenIsUnmatched(log, c);
              assert HasUnmatchedStart(log);
            }
          }
        } else {
          StartsByBound(log, s.correlation, s.examiner);
        }
    }
  }

  lemma ApplyKeepsStageClaims(w: World, a: Action)
    requires StageClaims(w.log)
    ensures StageClaims(Apply(w, a).log)
  {
    if Attempt(w, a).Committed? {
      if a.Move? {
        StageClaimsSnoc(w.log, StatusChanged(w.row.status, a.target, a.mover, a.correlation));
      } else if IsCheckpoint(a) {
        var log, facts := w.log, Facts(a);
        if !a.Workflow? {
          GuardAdmits(w, a);
        }
        if Target(a).Some? {
          var change := StatusChanged(w.row.status, Target(a).value, MoverOf(a), CorrelationOf(a));
          StageClaimsSnoc(log, change);
          AppendFacts(log + [change], facts, log, change);
          assert w.log + Batch(w.row.status, a) == log + [change] + facts;
        } else {
          StageClaimsSnoc(log, facts[0]);
        }
      }
    }
  }

  /** Facts after a status change: the change leaves every count as it was. */
  lemma AppendFacts(changed: seq<Event>, facts: seq<Event>, log: seq<Event>, change: Event)
    requires StageClaims(changed) && changed == log + [change] && change.StatusChanged?
    requires |facts| <= 2
    requires facts != [] ==> MayAppend(log, facts[0])
    requires |facts| == 2 ==> facts[1].WorkflowCompleted?
    ensures StageClaims(changed + facts)
  {
    assert changed[..|changed| - 1] == log;
    if facts == [] {
      assert changed + facts == changed;
    } else {
      assert forall lane :: Starts(changed, lane) == Starts(log, lane) && Terminals(changed, lane) == Terminals(log, lane);
      StageClaimsSnoc(changed, facts[0]);
      if |facts| == 1 {
        assert changed + facts == changed + [facts[0]];
      } else {
        StageClaimsSnoc(changed + [facts[0]], facts[1]);
        assert changed + facts == changed + [facts[0]] + [facts[1]];
      }
    }
  }

  /** Security claims are exclusive and every stage lane has one start and at most one later
      terminal event, whatever runs interleave and fail. */
  lemma {:induction false} RunsKeepStageClaims(w: World, actions: seq<Action>)
    requires w.log == []
    ensures StageClaims(RunAll(w, actions).log)
  {
    if actions != [] {
      var n := |actions| - 1;
      RunsKeepStageClaims(w, actions[..n]);
      ApplyKeepsStageClaims(RunAll(w, actions[..n]), actions[n]);
    }
  }

  /** The start and the end of the same claim. */
  predicate Begins(e: Event, f: Event) {
    || (f.SecurityStarted? && e.SecurityStarted? && e.correlation == f.correlation)
    || (f.QaStarted? && e.QaStarted? && e.correlation == f.correlation && e.actor == f.actor)
    || ((f.SecurityCompleted? || f.SecurityEscalated?) && e.SecurityStarted? && e.correlation == f.correlation)
    || ((f.QaCompleted? || f.QaEscalated?) && e.QaStarted? && e.correlation == f.correlation && e.actor == f.actor)
  }

  predicate Settled(e: Event) {
    e.SecurityCompleted? || e.SecurityEscalated? || e.QaCompleted? || e.QaEscalated?
  }

  function LaneOf(e: Event): Lane
    requires Settled(e) || e.SecurityStarted? || e.QaStarted?
  {
    if e.QaStarted? || e.QaCompleted? || e.QaEscalated? then QaLane(e.correlation, e.actor) else SecurityLane(e.correlation)
  }

  lemma {:induction false} CountsOnce(log: seq<Event>, lane: Lane, i: nat)
    requires i < |log|
    ensures IsStart(lane, log[i]) ==> Starts(log, lane) >= 1 + Starts(log[..i], lane)
    ensures IsTerminal(lane, log[i]) ==> Terminals(log, lane) >= 1 + Terminals(log[..i], lane)
    decreases |log|
  {
    var n := |log| - 1;
    if i < n {
      CountsOnce(log[..n], lane, i);
      assert log[..n][..i] == log[..i];
    }
  }

  lemma {:induction false} FindStart(log: seq<Event>, lane: Lane) returns (i: nat)
    requires Starts(log, lane) > 0
    ensures i < |log| && IsStart(lane, log[i])
  {
    var n := |log| - 1;
    if IsStart(lane, log[n]) {
      i := n;
    } else {
      i := FindStart(log[..n], lane);
    }
  }

  /** Every end of a QA or Security stage has one start of its own before it, and no other end: no
      claim is started twice, and none is settled twice, whatever runs interleave and fail. */
  lemma StagesSettleOnce(w: World, actions: seq<Action>, i: nat) returns (k: nat)
    requires w.log == [] && i < |RunAll(w, actions).log| && Settled(RunAll(w, actions).log[i])
    ensures k < i && Begins(RunAll(w, actions).log[k], RunAll(w, actions).log[i])
    ensures forall j | 0 <= j < |RunAll(w, actions).log| && Begins(RunAll(w, actions).log[j], RunAll(w, actions).log[k]) ::
              j == k
    ensures forall j | 0 <= j < |RunAll(w, actions).log| && Settled(RunAll(w, actions).log[j])
                       && Begins(RunAll(w, actions).log[k], RunAll(w, actions).log[j]) :: j == i
  {
    var log := RunAll(w, actions).log;
    var lane := LaneOf(log[i]);
    RunsKeepStageClaims(w, actions);
    assert LaneInOrder(log, lane) && log[..i + 1][..i] == log[..i] && log[..|log|] == log;
    CountsOnce(log[..i + 1], lane, i);
    assert Starts(log[..i + 1], lane) == Starts(log[..i], lane);
    k := FindStart(log[..i], lane);
    forall j | 0 <= j < |log| && Begins(log[j], log[k]) ensures j == k {
      OnceOnly(log, lane, j, k);
    }
    forall j | 0 <= j < |log| && Settled(log[j]) && Begins(log[k], log[j]) ensures j == i {
      OnceOnly(log, lane, j, i);
    }
  }

  lemma OnceOnly(log: seq<Event>, lane: Lane, i: nat, j: nat)
    requires LaneInOrder(log, lane) && i < |log| && j < |log|
    requires (IsStart(lane, log[i]) && IsStart(lane, log[j])) || (IsTerminal(lane, log[i]) && IsTerminal(lane, log[j]))
    ensures i == j
  {
    var low, high := if i < j then i else j, if i < j then j else i;
    assert log[..|log|] == log;
    CountsOnce(log, lane, high);
    if low < high {
      CountsOnce(log[..high], lane, low);
    }
  }

  /** A Security run that never records its end shuts every other correlation out for good:
      as long as it does not settle, no later start commits, in any interleaving. */
  lemma {:induction false} AbandonedClaimBlocks(w: World, actions: seq<Action>, c: Correlation)
    requires Open(w.log, SecurityLane(c))
    requires forall a <- actions :: a.Security? && !a.securityStep.Start? ==> a.securityScope.correlation != c
    ensures Open(RunAll(w, actions).log, SecurityLane(c))
    ensures forall s :: Attempt(RunAll(w, actions), Security(s, Start)).Rejected?
  {
    if actions != [] {
      var n := |actions| - 1;
      AbandonedClaimBlocks(w, actions[..n], c);
      StaysOpen(RunAll(w, actions[..n]), actions[n], c);
    }
    var log := RunAll(w, actions).log;
    var i := OpenIsUnmatched(log, c);
    assert HasUnmatchedStart(log);
  }

  lemma StaysOpen(w: World, a: Action, c: Correlation)
    requires Open(w.log, SecurityLane(c))
    requires a.Security? && !a.securityStep.Start? ==> a.securityScope.correlation != c
    ensures Open(Apply(w, a).log, SecurityLane(c))
  {
    if Attempt(w, a).Committed? {
      if a.Move? {
        OpenAppend(w.log, [StatusChanged(w.row.status, a.target, a.mover, a.correlation)], c);
      } else if IsCheckpoint(a) {
        assert forall e <- Batch(w.row.status, a) :: !IsTerminal(SecurityLane(c), e);
        OpenAppend(w.log, Batch(w.row.status, a), c);
      }
    }
  }

  lemma {:induction false} OpenAppend(log: seq<Event>, batch: seq<Event>, c: Correlation)
    requires Open(log, SecurityLane(c))
    requires forall e <- batch :: !IsTerminal(SecurityLane(c), e)
    ensures Open(log + batch, SecurityLane(c))
  {
    if batch == [] {
      assert log + batch == log;
    } else {
      OpenAppend(log, batch[..|batch| - 1], c);
      assert (log + batch)[..|log + batch| - 1] == log + batch[..|batch| - 1];
    }
  }

  // ---------------------------------------------------------------- final statuses

  /** Nothing moves a task out of COMPLETED or CANCELLED: whatever runs interleave, its status stays
      and its log gains no event at all. */
  lemma {:induction false} FinalStays(w: World, actions: seq<Action>)
    requires w.row.status == Completed || w.row.status == Cancelled
    ensures RunAll(w, actions).row.status == w.row.status
    ensures RunAll(w, actions).log == w.log
  {
    if actions != [] {
      FinalStays(w, actions[..|actions| - 1]);
    }
  }

  /** And only these two are final: out of every other status a task may still be cancelled. */
  lemma FinalOrCancellable(w: World, mover: Option<Slug>, correlation: Correlation)
    ensures Apply(w, Move(Cancelled, mover, correlation)).row.status != w.row.status
       <==> w.row.status != Completed && w.row.status != Cancelled
  {
    var attempt := Attempt(w, Move(Cancelled, mover, correlation));
    assert attempt.Committed? <==> CanTransition(w.row.status, Cancelled);
  }
}
