/** The audit trace of one agent run: its records, the calls they surround, and the one grammar
    that every trace follows. */
module RuntimeTrace {
  import opened Wrappers

  datatype Step = Observe | Plan | Decide | Act | ObserveResult | Verify | Report

  datatype Outcome = Started | Succeeded | Failed | Denied | TimedOut | Cancelled | Escalated | LimitReached

  datatype Status = CompletedStatus | EscalatedStatus | LimitStatus | TimedOutStatus | FailedStatus

  datatype Reason =
    | TaskCompleted | AgentEscalated | HumanApprovalRequired | PermissionDenied | StagnationDetected
    | MaxIterationsReached | MaxToolCallsReached | TokenBudgetReached | GlobalTimeout
    | MaxFailuresReached | AuditFailed | InvalidLlmOutput | CancelledReason

  /** The reasons that truthfully belong to a terminal status. */
  predicate Accepts(status: Status, reason: Reason) {
    match status
    case CompletedStatus => reason == TaskCompleted
    case EscalatedStatus =>
      reason == AgentEscalated || reason == HumanApprovalRequired || reason == PermissionDenied
      || reason == StagnationDetected
    case LimitStatus => reason == MaxIterationsReached || reason == MaxToolCallsReached || reason == TokenBudgetReached
    case TimedOutStatus => reason == GlobalTimeout
    case FailedStatus => reason == MaxFailuresReached || reason == AuditFailed || reason == InvalidLlmOutput
  }

  /** The error codes of tool results; the runtime tells the first two apart from the rest. */
  datatype ToolCode = Denial | ApprovalNeeded | AuditCode | OtherCode(name: CodeText)

  /** The names of all the other codes. */
  type CodeText = s: string
    | s != "PERMISSION_DENIED" && s != "APPROVAL_REQUIRED" && s != "AUDIT_FAILED" witness "TOOL_FAILED"

  /** The codes of calls that are referred to a human. */
  predicate Referred(code: Option<ToolCode>) {
    code == Some(Denial) || code == Some(ApprovalNeeded)
  }

  datatype Record = Record(
    step: Step, outcome: Outcome, reason: Option<Reason>, code: Option<ToolCode>,
    iteration: nat, toolCalls: nat, failures: nat, tokens: nat)

  /** A record written, a record the recorder refused, or a call to the reasoner or the tools
      with the tokens spent before it. */
  datatype Event = Written(record: Record) | Refused(record: Record) | Call(step: Step, spent: nat)

  // ---------------------------------------------------------------- the grammar

  /** Where a run stands: before it, between iterations, in an open step, in its call, after a step
      closed well, after the tool, looking at its result, at the end, or out of the grammar. */
  datatype Phase =
    | Fresh | Idle | Open(step: Step) | Calling(step: Step) | Done(step: Step)
    | Acted(outcome: Outcome) | Looking(outcome: Outcome) | Final | Halted | Broken

  predicate MayStart(p: Phase, step: Step) {
    match step
    case Observe => p == Fresh || p == Idle || p == Done(Verify)
    case Plan => p == Done(Observe)
    case Decide => p == Done(Plan)
    case Act => p == Done(Decide)
    case ObserveResult => p.Acted?
    case Verify => p == Done(ObserveResult)
    case Report => p == Idle || p == Done(Decide) || p == Done(ObserveResult) || p == Done(Verify)
  }

  /** A run ends between steps, or inside a call that is timed out or cancelled. */
  predicate MayEnd(p: Phase, record: Record) {
    && record.step == Report
    && if record.outcome == TimedOut || record.outcome == Cancelled
       then p.Calling?
       else p == Idle || p.Done?
  }

  function Close(p: Phase, step: Step, outcome: Outcome): Phase {
    if p == Calling(step) then
      if step == Act then
        if outcome == Succeeded || outcome == Failed || outcome == Denied then Acted(outcome) else Broken
      else if outcome == Succeeded then Done(step)
      else if outcome == Failed then if step == Report then Done(Report) else Idle
      else Broken
    else if p == Looking(outcome) && step == ObserveResult then Done(ObserveResult)
    else Broken
  }

  function AfterRecord(p: Phase, r: Record): Phase {
    if r.reason.Some? then if MayEnd(p, r) then Final else Broken
    else if r.outcome == Started then
      if !MayStart(p, r.step) then Broken
      else if r.step == ObserveResult then Looking(p.outcome)
      else Open(r.step)
    else Close(p, r.step, r.outcome)
  }

  function Next(p: Phase, e: Event): Phase {
    match e
    case Call(step, _) => if p == Open(step) then Calling(step) else Broken
    case Refused(r) => if AfterRecord(p, r).Broken? then Broken else Halted
    case Written(r) => AfterRecord(p, r)
  }

  function PhaseOf(trace: seq<Event>): Phase {
    if trace == [] then Fresh else Next(PhaseOf(trace[..|trace| - 1]), trace[|trace| - 1])
  }

  // ---------------------------------------------------------------- what the grammar implies

  lemma {:induction false} PrefixInGrammar(trace: seq<Event>, k: nat)
    requires !PhaseOf(trace).Broken? && k <= |trace|
    ensures !PhaseOf(trace[..k]).Broken?
    decreases |trace|
  {
    var n := |trace| - 1;
    if k <= n {
      assert trace[..n][..k] == trace[..k];
      PrefixInGrammar(trace[..n], k);
    } else {
      assert trace[..k] == trace;
    }
  }

  lemma PhaseAt(trace: seq<Event>, k: nat)
    requires !PhaseOf(trace).Broken? && k < |trace|
    ensures PhaseOf(trace[..k + 1]) == Next(PhaseOf(trace[..k]), trace[k])
    ensures !PhaseOf(trace[..k + 1]).Broken? && !PhaseOf(trace[..k]).Broken?
  {
    PrefixInGrammar(trace, k + 1);
    PrefixInGrammar(trace, k);
    assert trace[..k + 1][..k] == trace[..k];
  }

  ghost predicate Terminal(e: Event) {
    !e.Call? && e.record.reason.Some?
  }

  lemma EndsTheTrace(p: Phase, last: Event, e: Event)
    requires Terminal(last) || last.Refused?
    ensures Next(p, last).Broken? || Next(Next(p, last), e).Broken?
  {
    assert Next(p, last) == Final || Next(p, last) == Halted || Next(p, last) == Broken;
  }

  /** A terminal record, and a refused one, is the last event of its trace. So a trace has at most
      one terminal record, and nothing is called after the recorder has failed. */
  lemma LastWord(trace: seq<Event>, k: nat)
    requires !PhaseOf(trace).Broken? && k < |trace|
    requires Terminal(trace[k]) || trace[k].Refused?
    ensures k == |trace| - 1
  {
    PhaseAt(trace, k);
    if k + 1 < |trace| {
      EndsTheTrace(PhaseOf(trace[..k]), trace[k], trace[k + 1]);
      PhaseAt(trace, k + 1);
    }
  }

  /** The event that closes a step: a plain record that is not its start. */
  predicate Closes(e: Event, step: Step) {
    e.Written? && e.record.reason.None? && e.record.step == step && e.record.outcome != Started
  }

  predicate Opens(e: Event, step: Step) {
    e.Written? && e.record.reason.None? && e.record.step == step && e.record.outcome == Started
  }

  /** The only ways on from a step that is open, called, or looking at a result. */
  lemma OutOfStep(p: Phase, e: Event, step: Step)
    requires !Next(p, e).Broken?
    ensures p == Open(step) ==> e.Call? && e.step == step
    ensures p == Calling(step) ==> Closes(e, step) || Terminal(e) || e.Refused?
    ensures p.Looking? ==> Closes(e, ObserveResult) || Terminal(e) || e.Refused?
  {
  }

  /** Steps never overlap: between a start and the record that closes it there is at most the
      step's own call, and only a refused record, a timeout or a cancellation leaves it open. */
  lemma StepsDoNotOverlap(trace: seq<Event>, k: nat, step: Step)
    requires !PhaseOf(trace).Broken? && k < |trace| && Opens(trace[k], step)
    ensures step == ObserveResult && k + 1 < |trace| ==> Closes(trace[k + 1], step) || k + 1 == |trace| - 1
    ensures step != ObserveResult && k + 1 < |trace| ==> trace[k + 1].Call? && trace[k + 1].step == step
    ensures step != ObserveResult && k + 2 < |trace| ==> Closes(trace[k + 2], step) || k + 2 == |trace| - 1
  {
    PhaseAt(trace, k);
    if k + 1 < |trace| {
      PhaseAt(trace, k + 1);
      OutOfStep(PhaseOf(trace[..k + 1]), trace[k + 1], step);
      if step == ObserveResult {
        EndOrClose(trace, k + 1, step);
      } else if k + 2 < |trace| {
        PhaseAt(trace, k + 2);
        OutOfStep(PhaseOf(trace[..k + 2]), trace[k + 2], step);
        EndOrClose(trace, k + 2, step);
      }
    }
  }

  lemma EndOrClose(trace: seq<Event>, k: nat, step: Step)
    requires !PhaseOf(trace).Broken? && k < |trace|
    requires Closes(trace[k], step) || Terminal(trace[k]) || trace[k].Refused?
    ensures Closes(trace[k], step) || k == |trace| - 1
  {
    if Terminal(trace[k]) || trace[k].Refused? {
      LastWord(trace, k);
    }
  }

  /** The only ways into the phases in which a step can be closed. */
  lemma IntoCall(p: Phase, e: Event, step: Step)
    ensures Next(p, e) == Calling(step) ==> e.Call? && e.step == step && p == Open(step)
    ensures Next(p, e) == Open(step) ==> Opens(e, step) && step != ObserveResult
    ensures Next(p, e).Looking? ==> Opens(e, ObserveResult)
  {
  }

  /** The phases a step can be closed in. */
  lemma OutOfCall(p: Phase, e: Event, step: Step)
    requires Closes(e, step) && !Next(p, e).Broken?
    ensures p == Calling(step) || (step == ObserveResult && p.Looking?)
  {
  }

  /** A phase that is not the first was reached by the event before. */
  lemma ReachedBy(trace: seq<Event>, k: nat)
    requires !PhaseOf(trace).Broken? && k <= |trace| && PhaseOf(trace[..k]) != Fresh
    ensures 0 < k && PhaseOf(trace[..k]) == Next(PhaseOf(trace[..k - 1]), trace[k - 1])
  {
    assert trace[..0] == [];
    if k > 0 {
      PhaseAt(trace, k - 1);
    }
  }

  /** Every close follows its own call, or the start of looking at the result; every call follows
      its own start. */
  lemma ClosesItsOwnStep(trace: seq<Event>, k: nat, step: Step)
    requires !PhaseOf(trace).Broken? && k < |trace| && Closes(trace[k], step)
    ensures step == ObserveResult ==> 0 < k && Opens(trace[k - 1], step)
    ensures step != ObserveResult ==>
              1 < k && trace[k - 1].Call? && trace[k - 1].step == step && Opens(trace[k - 2], step)
  {
    PhaseAt(trace, k);
    OutOfCall(PhaseOf(trace[..k]), trace[k], step);
    ReachedBy(trace, k);
    IntoCall(PhaseOf(trace[..k - 1]), trace[k - 1], step);
    if PhaseOf(trace[..k]) == Calling(step) {
      ReachedBy(trace, k - 1);
      IntoCall(PhaseOf(trace[..k - 2]), trace[k - 2], step);
    }
  }

  function ToolStarts(trace: seq<Event>): nat {
    if trace == [] then 0
    else ToolStarts(trace[..|trace| - 1]) + if Opens(trace[|trace| - 1], Act) then 1 else 0
  }

  /** No reasoner is called once the budget is spent. */
  ghost predicate CallsWithin(trace: seq<Event>, maxTokens: nat) {
    forall i | 0 <= i < |trace| && trace[i].Call? && trace[i].step != Act :: trace[i].spent < maxTokens
  }

  predicate StartsTool(r: Record) {
    r.reason.None? && r.step == Act && r.outcome == Started
  }

  /** The failures an event stands for: a failed reasoning step, or a tool result that was looked
      at and neither succeeded nor asked for a human. */
  function Weight(e: Event): nat {
    if !e.Written? || e.record.reason.Some? then 0
    else if e.record.step == ObserveResult then
      if (e.record.outcome == Failed || e.record.outcome == Denied) && !Referred(e.record.code) then 1 else 0
    else if e.record.step != Act && e.record.outcome == Failed then 1
    else 0
  }

  function FailuresIn(trace: seq<Event>): nat {
    if trace == [] then 0 else FailuresIn(trace[..|trace| - 1]) + Weight(trace[|trace| - 1])
  }

  /** A record counts the tool calls and the failures before it, but for a failed audit of a tool. */
  predicate CountedIn(r: Record, toolStarts: nat, failures: nat) {
    r.toolCalls == toolStarts && r.failures + (if r.reason == Some(AuditFailed) then 1 else 0) == failures
  }

  /** The record at the position, if there is one, counts what came before it. */
  ghost predicate CountedAt(trace: seq<Event>, i: nat)
    requires i < |trace|
  {
    !trace[i].Call? ==> CountedIn(trace[i].record, ToolStarts(trace[..i]), FailuresIn(trace[..i]))
  }

  ghost predicate TrueCounts(trace: seq<Event>) {
    forall i | 0 <= i < |trace| :: CountedAt(trace, i)
  }

  /** Where a run stands, with the tool calls it has started and the failures it has met. */
  datatype Standing = Standing(phase: Phase, toolStarts: nat, failures: nat)

  /** Event i leads from one standing to the next inside the grammar and the token budget. */
  ghost predicate Linked(trace: seq<Event>, standings: seq<Standing>, maxTokens: nat, i: nat)
    requires i < |trace| && |standings| == |trace| + 1
  {
    var e, from, to := trace[i], standings[i], standings[i + 1];
    && to.phase == Next(from.phase, e) && !to.phase.Broken?
    && to.toolStarts == from.toolStarts + (if Opens(e, Act) then 1 else 0)
    && to.failures == from.failures + Weight(e)
    && (e.Call? && e.step != Act ==> e.spent < maxTokens)
    && (!e.Call? ==> CountedIn(e.record, from.toolStarts, from.failures))
  }

  /** The standings before, between and after the events of a trace inside the grammar. */
  ghost predicate Sound(trace: seq<Event>, standings: seq<Standing>, maxTokens: nat) {
    && |standings| == |trace| + 1 && standings[0] == Standing(Fresh, 0, 0)
    && forall i | 0 <= i < |trace| :: Linked(trace, standings, maxTokens, i)
  }

  lemma SoundSnoc(trace: seq<Event>, standings: seq<Standing>, maxTokens: nat, e: Event, to: Standing)
    requires Sound(trace, standings, maxTokens)
    requires to.phase == Next(standings[|trace|].phase, e) && !to.phase.Broken?
    requires to.toolStarts == standings[|trace|].toolStarts + if Opens(e, Act) then 1 else 0
    requires to.failures == standings[|trace|].failures + Weight(e)
    requires e.Call? && e.step != Act ==> e.spent < maxTokens
    requires !e.Call? ==> CountedIn(e.record, standings[|trace|].toolStarts, standings[|trace|].failures)
    ensures Sound(trace + [e], standings + [to], maxTokens)
  {
    forall i | 0 <= i < |trace + [e]|
      ensures Linked(trace + [e], standings + [to], maxTokens, i)
    {
      assert i < |trace| ==> Linked(trace, standings, maxTokens, i);
    }
  }

  /** The standings are the phases of the grammar and the counts of tool starts. */
  lemma {:induction false} SoundMeans(trace: seq<Event>, standings: seq<Standing>, maxTokens: nat)
    requires Sound(trace, standings, maxTokens)
    ensures PhaseOf(trace) == standings[|trace|].phase
    ensures ToolStarts(trace) == standings[|trace|].toolStarts
    ensures FailuresIn(trace) == standings[|trace|].failures
    ensures CallsWithin(trace, maxTokens) && TrueCounts(trace)
    ensures trace != [] ==> !PhaseOf(trace).Broken?
    decreases |trace|
  {
    if trace != [] {
      var n := |trace| - 1;
      var before, stood := trace[..n], standings[..n + 1];
      forall i | 0 <= i < |before|
        ensures Linked(before, stood, maxTokens, i)
      {
        assert Linked(trace, standings, maxTokens, i);
      }
      SoundMeans(before, stood, maxTokens);
      assert Linked(trace, standings, maxTokens, n);
      forall i | 0 <= i < |trace| && trace[i].Call? && trace[i].step != Act
        ensures trace[i].spent < maxTokens
      {
        assert Linked(trace, standings, maxTokens, i);
      }
      forall i | 0 <= i < |trace| ensures CountedAt(trace, i) {
        assert i < n ==> CountedAt(before, i) && before[..i] == trace[..i];
      }
    }
  }
}
