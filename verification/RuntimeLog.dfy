/** What the calls of one agent run were answered with, and what the trace of the run makes of it:
    its history entries, and the rounds it went through without coming to an end. */
module RuntimeLog {
  import opened Wrappers
  import opened RuntimeTrace
  import Stagnation

  datatype Action = ToolCall | Complete | Escalate
  datatype Verification = Continue | CompleteNow | EscalateNow
  datatype ToolStatus = ToolSucceeded | ToolFailed | ToolDenied | ToolTimedOut
  datatype ErrorCode = AuditFailedCode | OtherErrorCode

  /** What a reasoning call returns; each step reads the part it asked for. */
  datatype Answer = Answer(
    tokens: nat, usage: bool, action: Action, tool: Option<string>, arguments: seq<Stagnation.Member>,
    verification: Verification)

  /** How an awaited reasoning call ends. An undeclared exception is none of the runtime's errors. */
  datatype Reply = Output(answer: Answer) | RuntimeErr(code: ErrorCode) | DeadlineHit | CancelHit | Undeclared

  datatype ToolReply =
    | Result(status: ToolStatus, code: Option<ToolCode>)
    | ToolAuditErr | ToolDeadline | ToolCancel | ToolUndeclared

  datatype Entry = Entry(iteration: nat, step: Step, action: Option<Action>, tool: Option<string>, code: Option<ToolCode>)

  // ---------------------------------------------------------------- the bounded history

  function LastEntries(all: seq<Entry>, n: nat): seq<Entry> {
    if |all| <= n then all else all[|all| - n..]
  }

  lemma LastEntriesAppend(all: seq<Entry>, e: Entry, n: nat)
    requires 1 <= n
    ensures LastEntries(LastEntries(all, n) + [e], n) == LastEntries(all + [e], n)
  {
  }

  /** The entries kept are the last ones, as many as the bound allows. */
  ghost predicate KeepsLast(kept: seq<Entry>, all: seq<Entry>, n: nat) {
    && |kept| == (if |all| < n then |all| else n)
    && forall i | 0 <= i < |kept| :: kept[i] == all[|all| - |kept| + i]
  }

  // ---------------------------------------------------------------- what the calls were answered with

  /** The collaborators of a run, and its token budget. */
  datatype Given = Given(reasoner: (Step, nat) -> Reply, tools: nat -> ToolReply, maxTokens: nat)

  const NO_ANSWER := Answer(0, true, ToolCall, None, [], Continue)

  /** The decision that the call at the position was answered with. */
  function DecisionAt(given: Given, n: nat): Answer {
    var reply := given.reasoner(Decide, n);
    if reply.Output? then reply.answer else NO_ANSWER
  }

  function VerdictAt(given: Given, n: nat): Verification {
    var reply := given.reasoner(Verify, n);
    if reply.Output? then reply.answer.verification else Continue
  }

  function CodeAt(given: Given, n: nat): Option<ToolCode> {
    var reply := given.tools(n);
    if reply.Result? then reply.code else None
  }

  /** The last answer is the one the reason names: a decision after the last tool call, a verification
      of its result, or the code it was turned down with. */
  predicate Grounded(given: Given, reason: Reason, decide: nat, act: nat, verify: nat) {
    match reason
    case TaskCompleted =>
      Decided(given, Complete, decide, act, verify) || Verified(given, CompleteNow, decide, act, verify)
    case AgentEscalated =>
      Decided(given, Escalate, decide, act, verify) || Verified(given, EscalateNow, decide, act, verify)
    case PermissionDenied => TurnedDown(given, Denial, decide, act, verify)
    case HumanApprovalRequired => TurnedDown(given, ApprovalNeeded, decide, act, verify)
    case _ => true
  }

  predicate Decided(given: Given, action: Action, decide: nat, act: nat, verify: nat) {
    && act < decide && verify < decide
    && given.reasoner(Decide, decide).Output? && DecisionAt(given, decide).action == action
  }

  predicate Verified(given: Given, outcome: Verification, decide: nat, act: nat, verify: nat) {
    && decide < act < verify
    && given.reasoner(Verify, verify).Output? && VerdictAt(given, verify) == outcome
  }

  predicate TurnedDown(given: Given, code: ToolCode, decide: nat, act: nat, verify: nat) {
    && decide < act && verify < act
    && given.tools(act).Result? && CodeAt(given, act) == Some(code)
  }

  // ---------------------------------------------------------------- what a trace comes to

  /** The positions of the calls that one decision, its tool and its verification were asked by. */
  datatype Round = Round(decide: nat, act: nat, verify: nat)

  /** What a run has come to: its iterations and tokens, the positions of its last decision, its last
      tool call, its last verification and its last call of any kind, the entries of its history, and
      the rounds that were verified and are to be followed by more. */
  datatype Log = Log(
    iterations: nat, tokens: nat, decide: nat, act: nat, verify: nat, call: nat,
    entries: seq<Entry>, rounds: seq<Round>)

  const EMPTY := Log(0, 0, 0, 0, 0, 0, [], [])

  /** The positions of a log lie within a trace of the length. */
  predicate Within(log: Log, n: nat) {
    log.decide <= n && log.act <= n && log.verify <= n
  }

  function TokensOf(reply: Reply): nat {
    if reply.Output? then reply.answer.tokens else 0
  }

  function Opened(log: Log, step: Step): Log {
    if step == Observe then
      Log(log.iterations + 1, log.tokens, log.decide, log.act, log.verify, log.call, log.entries, log.rounds)
    else log
  }

  function Called(log: Log, step: Step, n: nat): Log {
    Log(log.iterations, log.tokens, if step == Decide then n else log.decide, if step == Act then n else log.act,
        if step == Verify then n else log.verify, n, log.entries, log.rounds)
  }

  /** The call is answered and leaves some of the token budget. */
  predicate Affords(given: Given, log: Log, step: Step) {
    var reply := given.reasoner(step, log.call);
    reply.Output? && log.tokens + reply.answer.tokens < given.maxTokens
  }

  /** What the end of a reasoning step adds to the history: a decision, a verified result, or the
      failure to come to a decision. */
  function NewEntries(given: Given, log: Log, step: Step): seq<Entry> {
    if step == Decide && Affords(given, log, Decide) then
      var decision := DecisionAt(given, log.call);
      [Entry(log.iterations, Decide, Some(decision.action), decision.tool, None)]
    else if step == Verify && Affords(given, log, Verify) then
      var decision := DecisionAt(given, log.decide);
      [Entry(log.iterations, Verify, Some(decision.action), decision.tool, CodeAt(given, log.act))]
    else if (step == Observe || step == Plan || step == Decide)
            && given.reasoner(step, log.call) == RuntimeErr(OtherErrorCode) then
      [Entry(log.iterations, Decide, None, None, None)]
    else []
  }

  function NewRounds(given: Given, log: Log, step: Step): seq<Round> {
    if step == Verify && Affords(given, log, Verify) && VerdictAt(given, log.call) == Continue
    then [Round(log.decide, log.act, log.call)] else []
  }

  function Closed(given: Given, log: Log, step: Step): Log {
    Log(log.iterations, log.tokens + TokensOf(given.reasoner(step, log.call)), log.decide, log.act, log.verify, log.call,
        log.entries + NewEntries(given, log, step), log.rounds + NewRounds(given, log, step))
  }

  /** What event n of a trace adds. */
  function Extend(given: Given, log: Log, e: Event, n: nat): Log {
    match e
    case Refused(_) => log
    case Call(step, _) => Called(log, step, n)
    case Written(r) =>
      if r.reason.Some? || r.step == Act || r.step == ObserveResult then log
      else if r.outcome == Started then Opened(log, r.step)
      else Closed(given, log, r.step)
  }

  function LogOf(given: Given, trace: seq<Event>): Log {
    if trace == [] then EMPTY
    else
      var n := |trace| - 1;
      Extend(given, LogOf(given, trace[..n]), trace[n], n)
  }

  // ---------------------------------------------------------------- truthful records

  /** The outcome and the code on record are those of the tool. */
  predicate Reports(reply: ToolReply, outcome: Outcome, code: Option<ToolCode>) {
    match reply
    case Result(ToolSucceeded, c) => outcome == Succeeded && code == c
    case Result(ToolDenied, c) => outcome == Denied && code == c
    case Result(_, c) => outcome == Failed && code == c
    case ToolAuditErr => outcome == Failed && code == Some(AuditCode)
    case _ => false
  }

  /** A step is begun only when the last answers call for it: a tool call by a decision for it, a
      verification by a result that was not referred to a human, and another iteration by no
      verification or one to continue. */
  predicate Warranted(given: Given, log: Log, step: Step) {
    match step
    case Act => log.act < log.decide && given.reasoner(Decide, log.decide).Output? && DecisionAt(given, log.decide).action == ToolCall
    case Verify =>
      && log.decide < log.act && given.tools(log.act).Result?
      && (given.tools(log.act).status == ToolSucceeded
          || (CodeAt(given, log.act) != Some(Denial) && CodeAt(given, log.act) != Some(ApprovalNeeded)))
    case Observe =>
      log.act < log.verify && given.reasoner(Verify, log.verify).Output? ==> VerdictAt(given, log.verify) == Continue
    case _ => true
  }

  /** A record counts the iteration it is made in and the tokens of all answers so far. It begins a
      step that is called for, or tells how the call it closes was answered. */
  predicate Fits(given: Given, log: Log, r: Record) {
    && (r.reason.None? && r.outcome == Started ==> Warranted(given, log, r.step))
    && r.iteration == Opened(log, if r.outcome == Started then r.step else Report).iterations
    && if r.reason.Some? || r.outcome == Started then r.tokens == log.tokens
       else if r.step == Act || r.step == ObserveResult then
         r.tokens == log.tokens && Reports(given.tools(log.act), r.outcome, r.code)
       else
         var reply := given.reasoner(r.step, log.call);
         && r.tokens == log.tokens + TokensOf(reply) && r.code.None?
         && (r.outcome == Succeeded <==> reply.Output?) && (r.outcome == Failed <==> reply.RuntimeErr?)
  }

  /** Event i leads from one log to the next, and its record, if it has one, is true. */
  ghost predicate LoggedAt(given: Given, trace: seq<Event>, logs: seq<Log>, i: nat)
    requires i < |trace| && |logs| == |trace| + 1
  {
    logs[i + 1] == Extend(given, logs[i], trace[i], i) && (!trace[i].Call? ==> Fits(given, logs[i], trace[i].record))
  }

  /** The logs before, between and after the events of a trace. */
  ghost predicate Logged(given: Given, trace: seq<Event>, logs: seq<Log>) {
    && |logs| == |trace| + 1 && logs[0] == EMPTY
    && forall i | 0 <= i < |trace| :: LoggedAt(given, trace, logs, i)
  }

  lemma LoggedSnoc(given: Given, trace: seq<Event>, logs: seq<Log>, e: Event, to: Log)
    requires Logged(given, trace, logs)
    requires to == Extend(given, logs[|trace|], e, |trace|)
    requires !e.Call? ==> Fits(given, logs[|trace|], e.record)
    ensures Logged(given, trace + [e], logs + [to])
  {
    forall i | 0 <= i < |trace + [e]|
      ensures LoggedAt(given, trace + [e], logs + [to], i)
    {
      assert i < |trace| ==> LoggedAt(given, trace, logs, i);
    }
  }

  /** The record at the position, if there is one, is true of the trace before it. */
  ghost predicate TrueAt(given: Given, trace: seq<Event>, i: nat)
    requires i < |trace|
  {
    !trace[i].Call? ==> Fits(given, LogOf(given, trace[..i]), trace[i].record)
  }

  ghost predicate TrueRecords(given: Given, trace: seq<Event>) {
    forall i | 0 <= i < |trace| :: TrueAt(given, trace, i)
  }

  lemma {:induction false} LoggedIsLog(given: Given, trace: seq<Event>, logs: seq<Log>, k: nat)
    requires Logged(given, trace, logs) && k <= |trace|
    ensures LogOf(given, trace[..k]) == logs[k]
  {
    if k > 0 {
      LoggedIsLog(given, trace, logs, k - 1);
      assert LoggedAt(given, trace, logs, k - 1);
      assert trace[..k][..k - 1] == trace[..k - 1];
    }
  }

  /** The logs are what the trace comes to, and its records are true. */
  lemma LoggedMeans(given: Given, trace: seq<Event>, logs: seq<Log>)
    requires Logged(given, trace, logs)
    ensures LogOf(given, trace) == logs[|trace|] && TrueRecords(given, trace)
  {
    LoggedIsLog(given, trace, logs, |trace|);
    assert trace[..|trace|] == trace;
    forall i | 0 <= i < |trace| ensures TrueAt(given, trace, i) {
      LoggedIsLog(given, trace, logs, i);
      assert LoggedAt(given, trace, logs, i);
    }
  }

  // ---------------------------------------------------------------- rounds that come to the same

  /** Two rounds called the same tool by the same action with arguments of one skeleton, were verified
      with the same outcome, and met the same tool code. */
  ghost predicate Alike(given: Given, a: Round, b: Round) {
    var x, y := DecisionAt(given, a.decide), DecisionAt(given, b.decide);
    && x.action == y.action && x.tool == y.tool
    && Stagnation.SameSkeleton(Stagnation.Object(x.arguments), Stagnation.Object(y.arguments))
    && VerdictAt(given, a.verify) == VerdictAt(given, b.verify)
    && CodeAt(given, a.act) == CodeAt(given, b.act)
  }

  /** The last rounds, as many as the window, are alike. */
  ghost predicate Stuck(given: Given, rounds: seq<Round>, window: nat) {
    |rounds| >= window > 0
    && forall i | |rounds| - window <= i < |rounds| :: Alike(given, rounds[i], rounds[|rounds| - 1])
  }

  /** No round but the last was the last of so many. */
  ghost predicate Unstuck(given: Given, rounds: seq<Round>, window: nat) {
    forall m | 0 <= m < |rounds| :: !Stuck(given, rounds[..m], window)
  }

  lemma UnstuckSnoc(given: Given, rounds: seq<Round>, r: Round, window: nat)
    requires Unstuck(given, rounds, window) && !Stuck(given, rounds, window)
    ensures Unstuck(given, rounds + [r], window)
  {
    forall m | 0 <= m < |rounds + [r]| ensures !Stuck(given, (rounds + [r])[..m], window) {
      assert m < |rounds| ==> (rounds + [r])[..m] == rounds[..m];
      assert m == |rounds| ==> (rounds + [r])[..m] == rounds;
    }
  }

  function ActionName(a: Action): string {
    match a case ToolCall => "TOOL_CALL" case Complete => "COMPLETE" case Escalate => "ESCALATE"
  }

  function VerificationName(v: Verification): string {
    match v case Continue => "CONTINUE" case CompleteNow => "COMPLETE" case EscalateNow => "ESCALATE"
  }

  function CodeName(c: ToolCode): string {
    match c
    case Denial => "PERMISSION_DENIED"
    case ApprovalNeeded => "APPROVAL_REQUIRED"
    case AuditCode => "AUDIT_FAILED"
    case OtherCode(name) => name
  }

  /** What the detector is shown of a round. */
  function ObservationOf(decision: Answer, verdict: Verification, code: Option<ToolCode>): Stagnation.Observation {
    Stagnation.Observation(
      ActionName(decision.action), decision.tool, decision.arguments, Some(VerificationName(verdict)),
      if code.Some? then Some(CodeName(code.value)) else None)
  }

  function Observed(given: Given, r: Round): Stagnation.Observation {
    ObservationOf(DecisionAt(given, r.decide), VerdictAt(given, r.verify), CodeAt(given, r.act))
  }

  predicate Proper(given: Given, r: Round) {
    Stagnation.WellFormed(Stagnation.Object(DecisionAt(given, r.decide).arguments))
  }

  lemma ActionNamesDiffer(a: Action, b: Action)
    ensures ActionName(a) == ActionName(b) <==> a == b
  {
    assert ActionName(a)[0] == ActionName(b)[0] ==> a == b;
  }

  lemma VerificationNamesDiffer(v: Verification, w: Verification)
    ensures VerificationName(v) == VerificationName(w) <==> v == w
  {
    assert VerificationName(v)[2] == VerificationName(w)[2] ==> v == w;
  }

  lemma CodeNamesDiffer(c: ToolCode, d: ToolCode)
    ensures CodeName(c) == CodeName(d) <==> c == d
  {
    assert !c.OtherCode? && !d.OtherCode? && CodeName(c)[1] == CodeName(d)[1] ==> c == d;
  }

  /** Two rounds have one fingerprint exactly when they are alike. */
  lemma AlikeHaveOnePrint(given: Given, a: Round, b: Round)
    requires Proper(given, a) && Proper(given, b)
    ensures Stagnation.Canonical(Observed(given, a)) == Stagnation.Canonical(Observed(given, b)) <==> Alike(given, a, b)
  {
    Stagnation.CanonicalMeans(Observed(given, a), Observed(given, b));
    ActionNamesDiffer(DecisionAt(given, a.decide).action, DecisionAt(given, b.decide).action);
    VerificationNamesDiffer(VerdictAt(given, a.verify), VerdictAt(given, b.verify));
    var c, d := CodeAt(given, a.act), CodeAt(given, b.act);
    if c.Some? && d.Some? {
      CodeNamesDiffer(c.value, d.value);
    }
  }

  ghost predicate PrintedAt(given: Given, rounds: seq<Round>, observed: seq<Stagnation.Fingerprint>, i: nat)
    requires i < |rounds| == |observed|
  {
    Proper(given, rounds[i]) && observed[i] == Stagnation.Canonical(Observed(given, rounds[i]))
  }

  /** The fingerprints observed are those of the rounds. */
  ghost predicate Printed(given: Given, rounds: seq<Round>, observed: seq<Stagnation.Fingerprint>) {
    |observed| == |rounds| && forall i | 0 <= i < |rounds| :: PrintedAt(given, rounds, observed, i)
  }

  lemma PrintedSnoc(given: Given, rounds: seq<Round>, observed: seq<Stagnation.Fingerprint>, r: Round)
    requires Printed(given, rounds, observed) && Proper(given, r)
    ensures Printed(given, rounds + [r], observed + [Stagnation.Canonical(Observed(given, r))])
  {
    var all, prints := rounds + [r], observed + [Stagnation.Canonical(Observed(given, r))];
    forall i | 0 <= i < |all| ensures PrintedAt(given, all, prints, i) {
      assert i < |rounds| ==> PrintedAt(given, rounds, observed, i);
    }
  }

  /** The detector's answer over the fingerprints is the answer over the rounds. */
  lemma StagnantIsStuck(given: Given, rounds: seq<Round>, observed: seq<Stagnation.Fingerprint>, window: nat)
    requires Printed(given, rounds, observed) && 0 < window
    ensures Stagnation.Stagnant(observed, window) <==> Stuck(given, rounds, window)
  {
    var last := |rounds| - 1;
    if |rounds| >= window {
      assert PrintedAt(given, rounds, observed, last);
      forall i | |rounds| - window <= i < |rounds|
        ensures observed[i] == observed[last] <==> Alike(given, rounds[i], rounds[last])
      {
        assert PrintedAt(given, rounds, observed, i);
        AlikeHaveOnePrint(given, rounds[i], rounds[last]);
      }
    }
  }

  // ---------------------------------------------------------------- what the detector was shown

  /** The rounds a detector was shown, what it observed of them, and its last answer. */
  datatype Showing = Showing(
    given: Given, window: nat, rounds: seq<Round>, observed: seq<Stagnation.Fingerprint>, stuck: bool)

  /** The detector saw each round. It has found the last of them alike when it is stuck, and never
      before the last round. */
  ghost predicate Watched(w: Showing) {
    && Printed(w.given, w.rounds, w.observed) && Unstuck(w.given, w.rounds, w.window)
    && (w.stuck <==> Stuck(w.given, w.rounds, w.window))
  }

  type Watch = w: Showing | Watched(w)
    ghost witness Showing(Given((step, n) => Undeclared, n => ToolUndeclared, 0), 0, [], [], false)

  /** A watch that has been shown nothing. */
  function Unshown(given: Given, window: nat): Watch {
    Showing(given, window, [], [], false)
  }

  /** One more round is shown, and the answer is over all of them. */
  function Show(w: Watch, r: Round, stagnant: bool): Watch
    requires !w.stuck && Proper(w.given, r) && 0 < w.window
    requires stagnant <==> Stagnation.Stagnant(w.observed + [Stagnation.Canonical(Observed(w.given, r))], w.window)
  {
    var observed := w.observed + [Stagnation.Canonical(Observed(w.given, r))];
    PrintedSnoc(w.given, w.rounds, w.observed, r);
    UnstuckSnoc(w.given, w.rounds, r, w.window);
    StagnantIsStuck(w.given, w.rounds + [r], observed, w.window);
    Showing(w.given, w.window, w.rounds + [r], observed, stagnant)
  }
}
