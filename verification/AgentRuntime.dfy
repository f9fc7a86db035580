/** The bounded agent loop: observe, plan, decide, act, look, verify, within five budgets and
    under an audit that fails closed. */
module AgentRuntime {
  import opened Wrappers
  import opened RuntimeTrace
  import opened RuntimeLog
  import Stagnation

  datatype Limits = Limits(
    maxIterations: nat, maxToolCalls: nat, maxFailures: nat, maxTokens: nat, maxHistory: nat, window: nat)

  /** The bounds that a set of limits declares for itself. */
  predicate ValidLimits(l: Limits) {
    && 1 <= l.maxIterations <= 100 && l.maxToolCalls <= 1000 && l.maxFailures <= 100
    && 1 <= l.maxTokens <= 10_000_000 && 1 <= l.maxHistory <= 1000
    && 2 <= l.window <= 20 && l.window <= l.maxHistory
  }

  /** What a record can hold, and what one output can report. */
  const RECORDABLE_TOKENS := 10_000_000
  const RECORDABLE_FAILURES := 100

  /** Arguments are a JSON object, a call reports a bounded number of tokens, and none without usage. */
  predicate WellTyped(a: Answer, most: nat) {
    && Stagnation.WellFormed(Stagnation.Object(a.arguments))
    && a.tokens <= most <= RECORDABLE_TOKENS && (!a.usage ==> a.tokens == 0)
  }

  ghost predicate AnswersAt(reasoner: (Step, nat) -> Reply, most: nat, step: Step, n: nat) {
    reasoner(step, n).Output? ==> WellTyped(reasoner(step, n).answer, most)
  }

  ghost predicate Answers(reasoner: (Step, nat) -> Reply, most: nat) {
    most <= RECORDABLE_TOKENS && forall step: Step, n: nat :: AnswersAt(reasoner, most, step, n)
  }

  /** An answer that costs some tokens and asks for a tool. */
  function Spent(tokens: nat): Answer {
    Answer(tokens, true, ToolCall, Some("tool"), [], Continue)
  }

  function Min(a: nat, b: nat): nat {
    if a <= b then a else b
  }

  /** Failures can outgrow a record only when the limit is the most a record holds, and the
      iterations and tool calls leave room for that many: one for each iteration and one more for
      each tool call. The report that follows may then fail too. */
  predicate FailuresOutgrow(l: Limits) {
    l.maxFailures == RECORDABLE_FAILURES && l.maxIterations + Min(l.maxIterations, l.maxToolCalls) >= RECORDABLE_FAILURES
  }

  /** Some declared collaborators make a run count more than a record holds. */
  predicate Outgrows(l: Limits) {
    l.maxTokens >= 2 || FailuresOutgrow(l)
  }

  /** How a step of the loop is interrupted by an exception. */
  datatype Interrupt = AuditFailure | Deadline | Cancellation | Escape

  datatype Flow = Value(answer: Answer) | Failing | Stopped(how: Interrupt)

  datatype Thought = Thinks(answer: Answer) | Retries | Ends(end: End)

  datatype End = Terminated(status: Status, reason: Reason) | Interrupted(how: Interrupt)

  /** What the whole run returns or raises. */
  datatype RunOutcome =
    | Finished(status: Status, reason: Reason)
    | RaisedInvalidRequest | RaisedCancelled | RaisedAuditFailure | RaisedOther

  /** The counters bear the reason out. A run whose last rounds are alike ends for that, unless its
      report is cut short. */
  predicate Borne(l: Limits, reason: Reason, iterations: nat, toolCalls: nat, failures: nat, tokens: nat, stuck: bool) {
    && (reason == MaxIterationsReached ==> iterations == l.maxIterations)
    && (reason == MaxToolCallsReached ==> toolCalls == l.maxToolCalls)
    && (reason == TokenBudgetReached ==> tokens >= l.maxTokens)
    && (reason == MaxFailuresReached ==> failures >= l.maxFailures)
    && (reason == StagnationDetected ==> stuck)
    && (stuck ==> reason == StagnationDetected || CutsShort(reason))
  }

  /** The reasons that may come up while a run reports. */
  predicate CutsShort(reason: Reason) {
    reason == InvalidLlmOutput || reason == TokenBudgetReached || reason == GlobalTimeout
  }

  /** How far the counters of a run ever go. */
  predicate Bounded(l: Limits, most: nat, iterations: nat, toolCalls: nat, failures: nat, tokens: nat) {
    && iterations <= l.maxIterations
    && toolCalls <= l.maxToolCalls && toolCalls <= iterations
    && failures <= Max(l.maxFailures, 1) + 1 && failures <= iterations + toolCalls + 1
    && tokens < l.maxTokens + most
  }

  function Max(a: nat, b: nat): nat {
    if a >= b then a else b
  }

  /** One run of the runtime with its collaborators; each answers by its position in the trace, and
      the reasoner by the step it is asked for as well. */
  class RuntimeRun {
    const limits: Limits
    const reasoner: (Step, nat) -> Reply
    const tools: nat -> ToolReply
    const recorder: nat -> bool
    var iterations: nat
    var toolCalls: nat
    var failures: nat
    var tokens: nat
    var history: seq<Entry>
    var trace: seq<Event>
    ghost var appended: seq<Entry>
    ghost var standings: seq<Standing>
    /** the rounds the detector was shown, and whether it found the last of them alike */
    ghost var watch: Watch
    /** what the trace comes to, and came to after each of its events */
    ghost var log: Log
    ghost var logs: seq<Log>
    /** no reasoning call reports more tokens than this */
    ghost const most: nat

    constructor (limits: Limits, reasoner: (Step, nat) -> Reply, tools: nat -> ToolReply, recorder: nat -> bool, ghost most: nat)
      requires ValidLimits(limits)
      requires Answers(reasoner, most)
      ensures this.limits == limits && this.reasoner == reasoner && this.tools == tools && this.recorder == recorder
      ensures At(Fresh) && Thinking() && iterations == 0 && toolCalls == 0 && failures == 0
      ensures tokens == 0 && Unseen() && trace == [] && this.most == most
    {
      this.limits, this.reasoner, this.tools, this.recorder, this.most := limits, reasoner, tools, recorder, most;
      iterations, toolCalls, failures, tokens := 0, 0, 0, 0;
      history, trace, appended, standings := [], [], [], [Standing(Fresh, 0, 0)];
      log, logs := EMPTY, [EMPTY];
      watch := Unshown(Given(reasoner, tools, limits.maxTokens), limits.window);
    }

    /** What the run is given. */
    ghost function Setting(): Given {
      Given(reasoner, tools, limits.maxTokens)
    }

    // -------------------------------------------------------------- assumptions on collaborators

    /** The recorder never fails. */
    ghost predicate Reliable() {
      forall n: nat :: recorder(n)
    }

    /** Collaborators answer or raise their declared errors, or are interrupted while awaited. */
    ghost predicate Declared() {
      && (forall step: Step, n: nat :: reasoner(step, n) != RuntimeErr(AuditFailedCode) && !reasoner(step, n).Undeclared?)
      && (forall n: nat :: !tools(n).ToolUndeclared?)
    }

    // -------------------------------------------------------------- three kinds of collaborators

    /** Observing costs one token, and planning as many as one output can report. */
    ghost predicate Overruns() {
      && Reliable() && limits.maxTokens >= 2
      && forall n: nat :: reasoner(Observe, n) == Output(Spent(1)) && reasoner(Plan, n) == Output(Spent(RECORDABLE_TOKENS))
    }

    /** The iterations that cost one failure, so that all of them cost as many as a record holds. */
    function Spared(): nat
      requires FailuresOutgrow(limits)
    {
      2 * limits.maxIterations - RECORDABLE_FAILURES
    }

    /** Observing fails in the first iterations; then every tool fails, and so does every verification. */
    ghost predicate Exhausts() {
      && Reliable() && FailuresOutgrow(limits)
      && (forall n: nat :: tools(n) == Result(ToolFailed, None))
      && (forall n: nat :: reasoner(Verify, n) == RuntimeErr(OtherErrorCode) && reasoner(Report, n) == RuntimeErr(OtherErrorCode))
      && (forall n: nat :: reasoner(Plan, n) == Output(Spent(0)) && reasoner(Decide, n) == Output(Spent(0)))
      && (forall n: nat :: reasoner(Observe, n) == if n < 3 * Spared() then RuntimeErr(OtherErrorCode) else Output(Spent(0)))
    }

    /** Every call is answered within a quarter of the token budget. */
    ghost predicate Thrifty() {
      && Reliable()
      && forall step: Step, n: nat :: reasoner(step, n).Output? && 4 * reasoner(step, n).answer.tokens < limits.maxTokens
    }

    /** The same, and every decision is for the action. */
    ghost predicate Settles(action: Action) {
      Thrifty() && forall n: nat :: reasoner(Decide, n).Output? && reasoner(Decide, n).answer.action == action
    }

    /** Another failure is counted, or it is the last a record holds and the run escapes. */
    ghost predicate Suffers(count: nat, ending: Option<End>)
      reads this
    {
      if count < RECORDABLE_FAILURES then ending.None? && failures == count && tokens == 0
      else ending == Some(Interrupted(Escape))
    }

    // -------------------------------------------------------------- invariants

    /** The counters are small enough for a record of them to be built. */
    predicate Representable()
      reads this
    {
      failures <= RECORDABLE_FAILURES && tokens <= RECORDABLE_TOKENS
    }

    ghost function FailureCap(): nat {
      Max(limits.maxFailures, 1)
    }

    /** At most the failure of a step that ended the run is on record and not counted. */
    ghost predicate Whole(p: Phase)
      reads this
    {
      At(p) || AtWith(p, 1)
    }

    ghost predicate InGrammar()
      reads this
    {
      && Sound(trace, standings, limits.maxTokens) && Logged(Setting(), trace, logs)
      && logs[|trace|] == log && Within(log, |trace|)
    }

    /** The tokens and iterations counted are those of the trace. */
    ghost predicate Tallied()
      reads this
    {
      tokens == log.tokens && iterations == log.iterations
    }

    /** The same, but for a step that is still to be opened, and is called for. */
    ghost predicate Ready(step: Step)
      reads this
    {
      tokens == log.tokens && iterations == Opened(log, step).iterations && Warranted(Setting(), log, step)
    }

    /** Nothing is appended or shown yet. */
    ghost predicate Unseen()
      reads this
    {
      appended == [] && watch == Unshown(Setting(), limits.window)
    }

    /** The entries appended and the rounds shown are those of the trace. */
    ghost predicate Kept()
      reads this
    {
      appended == log.entries && Watches(log.rounds)
    }

    /** The detector was shown the rounds, as answered by what the run is given. */
    ghost predicate Watches(rounds: seq<Round>)
      reads this
    {
      watch.rounds == rounds && watch.given == Setting() && watch.window == limits.window
    }

    /** The detector is the one that was shown the rounds of the run. */
    ghost predicate Follows(detector: Stagnation.StagnationDetector)
      reads this, detector
    {
      detector.Valid() && detector.window == limits.window && detector.observed == watch.observed
    }

    /** Nothing is behind, and the run need not end for stagnation. */
    ghost predicate Fluent()
      reads this
    {
      Kept() && !watch.stuck
    }

    /** The step was called at the position, and everything is counted. */
    ghost predicate Marked(before: Log, step: Step, n: nat)
      reads this
    {
      && Tallied() && log.call == n && log.act == before.act
      && log.decide == (if step == Decide then n else before.decide)
      && log.verify == (if step == Verify then n else before.verify)
    }

    ghost predicate Unchanged(before: Log)
      reads this
    {
      log.entries == before.entries && log.rounds == before.rounds
    }

    /** What the answer of a step adds to the log, when it leaves some of the budget. */
    ghost predicate Added(before: Log, step: Step)
      reads this
    {
      var decision := DecisionAt(Setting(), log.decide);
      if step == Decide then
        && log.entries == before.entries + [Entry(iterations, Decide, Some(decision.action), decision.tool, None)]
        && log.rounds == before.rounds
      else if step == Verify then
        && log.entries == before.entries
           + [Entry(iterations, Verify, Some(decision.action), decision.tool, CodeAt(Setting(), log.act))]
        && log.rounds == before.rounds
           + if VerdictAt(Setting(), log.verify) == Continue then [Round(log.decide, log.act, log.verify)] else []
      else Unchanged(before)
    }

    /** What a step that failed adds to the log. */
    ghost predicate Missed(before: Log, step: Step)
      reads this
    {
      && log.rounds == before.rounds
      && log.entries == before.entries
         + if step == Observe || step == Plan || step == Decide then [Entry(iterations, Decide, None, None, None)] else []
    }

    /** The log after a step that was opened, called at the position and answered. */
    ghost function Answered(before: Log, step: Step, n: nat): Log {
      Closed(Setting(), Called(Opened(before, step), step, n), step)
    }

    /** What the end of a step makes of the log. */
    lemma AnswerAdds(before: Log, step: Step, n: nat)
      requires step != Act && step != ObserveResult && Tallied() && log == Answered(before, step, n)
      ensures Marked(before, step, n)
      ensures reasoner(step, n).Output? ==> if tokens < limits.maxTokens then Added(before, step) else Unchanged(before)
      ensures reasoner(step, n) == RuntimeErr(OtherErrorCode) ==> Missed(before, step)
    {
    }


    /** Where the run stands now. */
    ghost function Now(): Standing
      requires InGrammar()
      reads this
    {
      standings[|trace|]
    }

    /** What holds of the run wherever it stands. */
    ghost predicate At(p: Phase)
      reads this
    {
      AtWith(p, 0)
    }

    /** The same with failures already on record that are still to be counted. */
    ghost predicate AtWith(p: Phase, uncounted: nat)
      reads this
    {
      && ValidLimits(limits) && InGrammar() && Now() == Standing(p, toolCalls, failures + uncounted)
      && Bounded(limits, most, iterations, toolCalls, failures, tokens)
      && history == LastEntries(appended, limits.maxHistory)
      && Answers(reasoner, most)
    }

    /** Budgets are left for another reasoning call and another failure. */
    ghost predicate Thinking()
      reads this
    {
      tokens < limits.maxTokens && failures < FailureCap() && failures <= iterations + toolCalls && Representable()
    }

    /** The iteration has not cost its own failure yet. */
    ghost predicate Paced()
      reads this
    {
      failures < iterations + toolCalls
    }

    // -------------------------------------------------------------- the audit

    /** Writes one record; None is success. */
    method Audit(step: Step, outcome: Outcome, reason: Option<Reason>, code: Option<ToolCode>)
      returns (raised: Option<Interrupt>)
      requires InGrammar()
      requires !AfterRecord(Now().phase, Current(step, outcome, reason, code)).Broken?
      requires Fits(Setting(), log, Current(step, outcome, reason, code))
      requires toolCalls == Now().toolStarts && failures + Uncounted(reason) == Now().failures
      modifies this`trace, this`standings, this`log, this`logs
      ensures InGrammar() && |trace| >= old(|trace|)
      ensures raised.None? || raised == Some(AuditFailure) || raised == Some(Escape)
      ensures raised == Some(Escape) <==> !Representable()
      ensures raised == Some(Escape) ==> trace == old(trace) && Now() == old(Now())
      ensures raised == Some(AuditFailure) ==> Now() == old(Now()).(phase := Halted) && !Reliable()
      ensures raised.None? ==>
                var r := Current(step, outcome, reason, code);
                && trace == old(trace) + [Written(r)]
                && Now() == Standing(AfterRecord(old(Now()).phase, r),
                                     old(Now()).toolStarts + (if StartsTool(r) then 1 else 0),
                                     old(Now()).failures + Weight(Written(r)))
      ensures raised.None? ==>
                log == Extend(Setting(), old(log), Written(Current(step, outcome, reason, code)), old(|trace|))
      ensures raised.Some? ==> log == old(log)
    {
      if !Representable() {
        return Some(Escape);
      }
      var r := Current(step, outcome, reason, code);
      if recorder(|trace|) {
        Add(Written(r));
        raised := None;
      } else {
        Add(Refused(r));
        raised := Some(AuditFailure);
      }
    }

    /** Adds one event to the trace. */
    method Add(e: Event)
      requires InGrammar() && !Next(Now().phase, e).Broken?
      requires e.Call? && e.step != Act ==> e.spent < limits.maxTokens
      requires !e.Call? ==> CountedIn(e.record, Now().toolStarts, Now().failures) && Fits(Setting(), log, e.record)
      modifies this`trace, this`standings, this`log, this`logs
      ensures InGrammar() && trace == old(trace) + [e]
      ensures Now() == Standing(Next(old(Now()).phase, e), old(Now()).toolStarts + (if Opens(e, Act) then 1 else 0),
                                old(Now()).failures + Weight(e))
      ensures log == Extend(Setting(), old(log), e, old(|trace|))
    {
      ghost var to := Standing(Next(Now().phase, e), Now().toolStarts + (if Opens(e, Act) then 1 else 0),
                               Now().failures + Weight(e));
      SoundSnoc(trace, standings, limits.maxTokens, e, to);
      LoggedSnoc(Setting(), trace, logs, e, Extend(Setting(), log, e, |trace|));
      log := Extend(Setting(), log, e, |trace|);
      trace, standings, logs := trace + [e], standings + [to], logs + [log];
    }

    function Current(step: Step, outcome: Outcome, reason: Option<Reason>, code: Option<ToolCode>): Record
      reads this
    {
      Record(step, outcome, reason, code, iterations, toolCalls, failures, tokens)
    }

    method EnterCall(step: Step)
      requires At(Open(step)) && (step != Act ==> tokens < limits.maxTokens)
      modifies this`trace, this`standings, this`log, this`logs
      ensures trace == old(trace) + [Call(step, tokens)]
      ensures At(Calling(step)) && log == Called(old(log), step, old(|trace|))
    {
      Add(Call(step, tokens));
    }

    method Append(entry: Entry)
      requires history == LastEntries(appended, limits.maxHistory) && 1 <= limits.maxHistory
      modifies this`history, this`appended
      ensures appended == old(appended) + [entry]
      ensures history == LastEntries(appended, limits.maxHistory)
    {
      LastEntriesAppend(appended, entry, limits.maxHistory);
      history := LastEntries(history + [entry], limits.maxHistory);
      appended := appended + [entry];
    }

    // -------------------------------------------------------------- one reasoning call

    /** How an interrupted run stands: after a refused record or a declared kind of interruption,
        or out of what its collaborators declare or a record can hold. */
    ghost predicate StandsAt(how: Interrupt)
      reads this
    {
      && InGrammar()
      && match how
         case AuditFailure =>
           Representable() && Whole(Now().phase) && (Declared() ==> Now().phase == Halted && !Reliable())
         case Deadline => Representable() && Now().phase.Calling? && At(Now().phase) && Tallied()
         case Cancellation => Representable() && Now().phase.Calling? && At(Now().phase) && Tallied()
         case Escape => (!Representable() || !Declared()) && At(Now().phase)
    }

    /** Opens a step and enters its call. */
    method Begin(step: Step) returns (raised: Option<Interrupt>)
      requires InGrammar() && At(Now().phase) && Representable() && MayStart(Now().phase, step)
      requires step != ObserveResult && step != Act && tokens < limits.maxTokens && Ready(step)
      modifies this`trace, this`standings, this`log, this`logs
      ensures |trace| >= old(|trace|)
      ensures raised.None? ==> At(Calling(step)) && |trace| == old(|trace|) + 2
      ensures raised.None? ==> log == Called(Opened(old(log), step), step, old(|trace|) + 1)
      ensures raised.Some? ==> StandsAt(raised.value) && !Reliable() && log == old(log)
    {
      raised := Audit(step, Started, None, None);
      if raised.None? {
        EnterCall(step);
      }
    }

    /** Closes a step that was called. */
    method Finish(step: Step, outcome: Outcome, code: Option<ToolCode>) returns (raised: Option<Interrupt>)
      requires InGrammar() && At(Now().phase)
      requires outcome != Started && !Close(Now().phase, step, outcome).Broken?
      requires Fits(Setting(), log, Current(step, outcome, None, code))
      modifies this`trace, this`standings, this`log, this`logs
      ensures raised.None? ==>
                && AtWith(Close(old(Now()).phase, step, outcome), Weight(Written(Current(step, outcome, None, code))))
                && Representable() && |trace| == old(|trace|) + 1
      ensures raised.Some? ==> StandsAt(raised.value) && (raised.value == Escape <==> !Representable())
      ensures raised.None? || raised == Some(Escape) || (raised == Some(AuditFailure) && !Reliable())
      ensures raised == Some(Escape) ==> Now() == old(Now())
      ensures |trace| >= old(|trace|)
      ensures log == if raised.Some? || step == Act || step == ObserveResult then old(log)
                     else Closed(Setting(), old(log), step)
    {
      raised := Audit(step, outcome, None, code);
    }

    /** What a reasoning call comes to when the recorder never fails, by the reply it got. */
    ghost predicate Replied(step: Step, at: nat, spent: nat, flow: Flow)
      reads this
    {
      var reply := reasoner(step, at + 1);
      && (reply == RuntimeErr(OtherErrorCode) ==> flow == Failing && |trace| == at + 3 && tokens == spent)
      && (reply.Output? ==> tokens == spent + reply.answer.tokens)
      && (reply.Output? && !Representable() ==> flow == Stopped(Escape))
      && (reply.Output? && Representable() ==> flow == Value(reply.answer) && |trace| == at + 3)
    }

    /** Opens a step, asks the reasoner, adds its tokens, and closes the step. */
    method Reason(step: Step) returns (flow: Flow)
      requires InGrammar() && At(Now().phase) && tokens < limits.maxTokens && Representable()
      requires MayStart(Now().phase, step) && step != Act && step != ObserveResult && Ready(step) && Kept()
      modifies this`trace, this`standings, this`log, this`logs, this`tokens
      ensures |trace| >= old(|trace|)
      ensures flow.Stopped? ==> Ended(Interrupted(flow.how))
      ensures flow.Value? ==> At(Done(step)) && Representable() && tokens == old(tokens) + flow.answer.tokens
      ensures flow.Value? ==> reasoner(step, old(|trace|) + 1) == Output(flow.answer) && |trace| == old(|trace|) + 3
      ensures flow.Failing? ==> AtWith(if step == Report then Done(Report) else Idle, 1) && Representable() && tokens == old(tokens)
      ensures flow.Failing? ==> reasoner(step, old(|trace|) + 1) == RuntimeErr(OtherErrorCode)
      ensures !flow.Stopped? ==> Marked(old(log), step, old(|trace|) + 1)
      ensures flow.Value? ==> if tokens < limits.maxTokens then Added(old(log), step) else Unchanged(old(log))
      ensures flow.Failing? ==> Missed(old(log), step)
      ensures Reliable() ==> Replied(step, old(|trace|), old(tokens), flow)
    {
      ghost var before, at := log, |trace| + 1;
      var reply := reasoner(step, |trace| + 1);
      var raised := Begin(step);
      if raised.None? {
        raised := Receive(step, reply);
        if raised.None? {
          AnswerAdds(before, step, at);
        }
      }
      flow := if raised.Some? then Stopped(raised.value) else if reply.Output? then Value(reply.answer) else Failing;
    }

    /** Takes the reply of the reasoner, and closes the step if it is one. */
    method Receive(step: Step, reply: Reply) returns (raised: Option<Interrupt>)
      requires InGrammar() && At(Calling(step)) && step != Act && step != ObserveResult && |trace| >= 1
      requires Representable() && tokens < limits.maxTokens && reply == reasoner(step, |trace| - 1)
      requires Tallied() && log.call == |trace| - 1
      modifies this`trace, this`standings, this`log, this`logs, this`tokens
      ensures |trace| >= old(|trace|)
      ensures raised.Some? ==> StandsAt(raised.value)
      ensures raised.None? ==> (reply.Output? || reply.RuntimeErr?) && |trace| == old(|trace|) + 1
      ensures raised.None? && reply.Output? ==>
                At(Done(step)) && Representable() && tokens == old(tokens) + reply.answer.tokens
      ensures raised.None? && reply.RuntimeErr? ==>
                AtWith(if step == Report then Done(Report) else Idle, 1) && Representable() && tokens == old(tokens)
      ensures raised.None? && reply.RuntimeErr? ==> reply == RuntimeErr(OtherErrorCode)
      ensures raised.None? ==> Tallied() && log == Closed(Setting(), old(log), step)
      ensures raised.Some? ==> log.entries == old(log.entries) && log.rounds == old(log.rounds)
      ensures Reliable() && reply == RuntimeErr(OtherErrorCode) ==> raised.None?
      ensures Reliable() && reply.Output? ==>
                && tokens == old(tokens) + reply.answer.tokens
                && raised == if Representable() then None else Some(Escape)
    {
      match reply {
        case DeadlineHit => raised := Some(Deadline);
        case CancelHit => raised := Some(Cancellation);
        case Undeclared => raised := Some(Escape);
        case RuntimeErr(_) => raised := ReceiveError(step, reply);
        case Output(_) => raised := ReceiveOutput(step, reply);
      }
    }

    /** Closes a step that failed. */
    method ReceiveError(step: Step, reply: Reply) returns (raised: Option<Interrupt>)
      requires InGrammar() && At(Calling(step)) && step != Act && step != ObserveResult && |trace| >= 1
      requires Representable() && tokens < limits.maxTokens && reply == reasoner(step, |trace| - 1)
      requires Tallied() && log.call == |trace| - 1 && reply.RuntimeErr?
      modifies this`trace, this`standings, this`log, this`logs
      ensures |trace| >= old(|trace|)
      ensures raised.Some? ==> StandsAt(raised.value)
      ensures raised.None? ==> |trace| == old(|trace|) + 1 && reply == RuntimeErr(OtherErrorCode)
      ensures raised.None? ==> AtWith(if step == Report then Done(Report) else Idle, 1) && Representable()
      ensures raised.None? ==> Tallied() && log == Closed(Setting(), old(log), step)
      ensures raised.Some? ==> log.entries == old(log.entries) && log.rounds == old(log.rounds)
      ensures Reliable() && reply == RuntimeErr(OtherErrorCode) ==> raised.None?
    {
      raised := Finish(step, Outcome.Failed, None);
      if raised.None? && reply.code == AuditFailedCode {
        raised := Some(AuditFailure);
      }
    }

    /** Adds the tokens of an answer and closes its step. */
    method ReceiveOutput(step: Step, reply: Reply) returns (raised: Option<Interrupt>)
      requires InGrammar() && At(Calling(step)) && step != Act && step != ObserveResult && |trace| >= 1
      requires Representable() && tokens < limits.maxTokens && reply == reasoner(step, |trace| - 1)
      requires Tallied() && log.call == |trace| - 1 && reply.Output?
      modifies this`trace, this`standings, this`log, this`logs, this`tokens
      ensures |trace| >= old(|trace|) && tokens == old(tokens) + reply.answer.tokens
      ensures raised.Some? ==> StandsAt(raised.value) && log == old(log)
      ensures raised.None? ==> |trace| == old(|trace|) + 1 && At(Done(step)) && Representable()
      ensures raised.None? ==> Tallied() && log == Closed(Setting(), old(log), step)
      ensures Reliable() ==> raised == if Representable() then None else Some(Escape)
    {
      assert AnswersAt(reasoner, most, step, |trace| - 1);
      tokens := tokens + reply.answer.tokens;
      raised := Finish(step, Succeeded, None);
    }

    // -------------------------------------------------------------- endings

    /** A terminal reason says what the counters show, or what the last answer called for. A run whose
        last rounds are alike ends for that, unless its report is cut short. */
    ghost predicate Truthful(reason: Reason)
      reads this
    {
      && Borne(limits, reason, iterations, toolCalls, failures, tokens, watch.stuck)
      && Grounded(Setting(), reason, log.decide, log.act, log.verify)
    }

    ghost predicate EndsWith(reason: Reason)
      reads this
    {
      trace != [] && Terminal(trace[|trace| - 1]) && trace[|trace| - 1].record.reason == Some(reason)
    }

    /** A tool whose audit failed is on record as failed, and is not counted. */
    ghost function Uncounted(reason: Option<Reason>): nat {
      if reason == Some(AuditFailed) then 1 else 0
    }

    /** A loop that ended by itself wrote one terminal record, for a reason its status accepts. */
    ghost predicate Ended(end: End)
      reads this
    {
      Kept() &&
      match end
      case Terminated(status, reason) =>
        AtWith(Final, Uncounted(Some(reason))) && Representable() && Accepts(status, reason) && Truthful(reason) && EndsWith(reason)
      case Interrupted(how) => StandsAt(how)
    }

    /** Writes the terminal record. */
    method Terminate(status: Status, reason: Reason, outcome: Outcome) returns (end: End)
      requires InGrammar() && AtWith(Now().phase, Uncounted(Some(reason))) && Kept() && Tallied() && (Now().phase == Idle || Now().phase.Done?)
      requires outcome != Started && outcome != Outcome.TimedOut && outcome != Outcome.Cancelled
      requires Accepts(status, reason) && Truthful(reason) && (reason == AuditFailed ==> Representable())
      modifies this`trace, this`standings, this`log, this`logs
      ensures Ended(end) && |trace| >= old(|trace|)
      ensures Reliable() ==> end == if Representable() then Terminated(status, reason) else Interrupted(Escape)
    {
      var raised := Audit(Report, outcome, Some(reason), None);
      end := if raised.Some? then Interrupted(raised.value) else Terminated(status, reason);
    }

    method TokenTerminal() returns (end: End)
      requires InGrammar() && At(Now().phase) && (Now().phase == Idle || Now().phase.Done?)
      requires tokens >= limits.maxTokens && Kept() && Tallied()
      modifies this`trace, this`standings, this`log, this`logs
      ensures Ended(end) && |trace| >= old(|trace|)
    {
      end := Terminate(LimitStatus, TokenBudgetReached, LimitReached);
    }

    /** Ends the loop with a report, when the budget still allows one. */
    method FinishRun(status: Status, reason: Reason) returns (end: End)
      requires InGrammar() && At(Now().phase) && MayStart(Now().phase, Report)
      requires Representable() && failures <= FailureCap() && failures <= iterations + toolCalls
      requires Accepts(status, reason) && Truthful(reason) && reason != TokenBudgetReached && reason != AuditFailed
      requires Kept() && Tallied()
      modifies this`trace, this`standings, this`log, this`logs, this`tokens, this`failures
      ensures Ended(end)
      ensures Exhausts() && old(tokens) == 0 && old(failures) == RECORDABLE_FAILURES ==> end == Interrupted(Escape)
      ensures Thrifty() && 4 * old(tokens) < 3 * limits.maxTokens ==> end == Terminated(status, reason)
    {
      if tokens >= limits.maxTokens {
        end := TokenTerminal();
      } else {
        end := ReportRun(status, reason);
      }
    }

    /** What a report comes to when the recorder never fails. */
    predicate Reported(reply: Reply, spent: nat, failed: nat, status: Status, reason: Reason, end: End) {
      && (reply == RuntimeErr(OtherErrorCode) && failed == RECORDABLE_FAILURES ==> end == Interrupted(Escape))
      && (reply.Output? && spent + reply.answer.tokens < limits.maxTokens ==> end == Terminated(status, reason))
    }

    /** Reports once, and ends the loop by how that went. */
    method ReportRun(status: Status, reason: Reason) returns (end: End)
      requires InGrammar() && At(Now().phase) && MayStart(Now().phase, Report) && tokens < limits.maxTokens
      requires Representable() && failures <= FailureCap() && failures <= iterations + toolCalls
      requires Accepts(status, reason) && Truthful(reason) && reason != TokenBudgetReached && reason != AuditFailed
      requires Kept() && Tallied()
      modifies this`trace, this`standings, this`log, this`logs, this`tokens, this`failures
      ensures Ended(end)
      ensures Reliable() ==> Reported(reasoner(Report, old(|trace|) + 1), old(tokens), old(failures), status, reason, end)
    {
      var flow := Reason(Report);
      if flow.Stopped? {
        end := Interrupted(flow.how);
      } else {
        end := CloseReport(flow.Failing?, status, reason);
      }
    }

    /** Counts a report that failed, and ends the loop by how it went. */
    method CloseReport(failed: bool, status: Status, reason: Reason) returns (end: End)
      requires AtWith(Done(Report), if failed then 1 else 0) && Representable()
      requires failures <= FailureCap() && failures <= iterations + toolCalls
      requires Accepts(status, reason) && Truthful(reason) && reason != TokenBudgetReached && reason != AuditFailed
      requires Kept() && Tallied()
      modifies this`trace, this`standings, this`log, this`logs, this`failures
      ensures Ended(end)
      ensures Reliable() && failed && old(failures) == RECORDABLE_FAILURES ==> end == Interrupted(Escape)
      ensures Reliable() && !failed && tokens < limits.maxTokens ==> end == Terminated(status, reason)
    {
      if failed {
        failures := failures + 1;
        end := Terminate(FailedStatus, InvalidLlmOutput, Outcome.Failed);
      } else if tokens >= limits.maxTokens {
        end := TokenTerminal();
      } else {
        end := Terminate(status, reason, Succeeded);
      }
    }

    /** Counts one failure, and ends the loop when too many have been counted. */
    method CountFailure() returns (ending: Option<End>)
      requires InGrammar() && AtWith(Now().phase, 1) && MayStart(Now().phase, Report)
      requires Thinking() && Paced() && Fluent() && Tallied()
      modifies this`trace, this`standings, this`log, this`logs, this`tokens, this`failures
      ensures ending.None? ==> log == old(log)
      ensures ending.None? ==> At(old(Now()).phase) && Thinking()
      ensures ending.None? ==> failures == old(failures) + 1 && tokens == old(tokens) && trace == old(trace)
      ensures ending.Some? ==> Ended(ending.value)
      ensures Exhausts() && old(tokens) == 0 ==> Suffers(old(failures) + 1, ending)
    {
      failures := failures + 1;
      if failures >= limits.maxFailures {
        var end := FinishRun(FailedStatus, MaxFailuresReached);
        ending := Some(end);
      } else {
        ending := None;
      }
    }

    // -------------------------------------------------------------- one iteration

    /** What a question comes to when the recorder never fails, by the reply it got. */
    ghost predicate Asked(step: Step, at: nat, spent: nat, t: Thought)
      reads this
    {
      var reply := reasoner(step, at + 1);
      && (reply == RuntimeErr(OtherErrorCode) ==> t == Retries && |trace| == at + 3 && tokens == spent)
      && (reply.Output? ==> tokens == spent + reply.answer.tokens)
      && (reply.Output? && !Representable() ==> t == Ends(Interrupted(Escape)))
      && (reply.Output? && tokens < limits.maxTokens ==> t == Thinks(reply.answer) && |trace| == at + 3)
    }

    /** One reasoning step and its token check. Retries means the step failed. */
    method Ask(step: Step) returns (t: Thought)
      requires InGrammar() && At(Now().phase) && Thinking()
      requires MayStart(Now().phase, step) && step != Act && step != ObserveResult && step != Report
      requires Ready(step) && Kept()
      modifies this`trace, this`standings, this`log, this`logs, this`tokens
      ensures t.Thinks? ==> At(Done(step)) && Thinking()
      ensures t.Thinks? ==> reasoner(step, log.call) == Output(t.answer) && |trace| == old(|trace|) + 3
      ensures t.Retries? ==> AtWith(Idle, 1) && Thinking() && |trace| >= old(|trace|)
      ensures t.Retries? ==> reasoner(step, log.call) == RuntimeErr(OtherErrorCode)
      ensures !t.Ends? ==> Marked(old(log), step, old(|trace|) + 1)
      ensures t.Thinks? ==> Added(old(log), step)
      ensures t.Retries? ==> Missed(old(log), step)
      ensures t.Ends? ==> Ended(t.end)
      ensures Reliable() ==> Asked(step, old(|trace|), old(tokens), t)
    {
      var flow := Reason(step);
      t := Weigh(flow);
    }

    /** Goes on with an answer, unless it spent the budget. */
    method Weigh(flow: Flow) returns (t: Thought)
      requires flow.Value? ==> InGrammar() && At(Now().phase) && Now().phase.Done? && Representable()
      requires flow.Value? && tokens >= limits.maxTokens ==> Kept() && Tallied()
      requires flow.Stopped? ==> Ended(Interrupted(flow.how))
      modifies this`trace, this`standings, this`log, this`logs
      ensures !t.Ends? ==> trace == old(trace) && standings == old(standings) && log == old(log) && logs == old(logs)
      ensures t.Ends? ==> Ended(t.end)
      ensures t.Thinks? <==> flow.Value? && tokens < limits.maxTokens
      ensures t.Thinks? ==> t.answer == flow.answer
      ensures t.Retries? <==> flow.Failing?
      ensures flow.Stopped? ==> t == Ends(Interrupted(flow.how))
    {
      match flow {
        case Failing => t := Retries;
        case Stopped(how) => t := Ends(Interrupted(how));
        case Value(answer) =>
          if tokens >= limits.maxTokens {
            var end := TokenTerminal();
            t := Ends(end);
          } else {
            t := Thinks(answer);
          }
      }
    }

    /** One step of thinking. */
    method Ponder(step: Step) returns (t: Thought)
      requires InGrammar() && At(Now().phase) && Thinking() && MayStart(Now().phase, step)
      requires (step == Observe || step == Plan || step == Decide) && Ready(step)
      requires Kept() && log.act <= |trace| && log.verify <= |trace|
      modifies this`trace, this`standings, this`log, this`logs, this`tokens
      ensures t.Thinks? ==> At(Done(step)) && Thinking() && Kept() == (step != Decide) && |trace| == old(|trace|) + 3
      ensures t.Thinks? && step == Decide ==> Decides(t.answer)
      ensures t.Retries? ==> AtWith(Idle, 1) && Thinking() && |trace| >= old(|trace|)
      ensures !t.Ends? ==> Tallied() && log.rounds == old(log.rounds)
      ensures !t.Ends? ==> log.act == old(log.act) && log.verify == old(log.verify)
      ensures t.Retries? || (t.Thinks? && step == Decide) ==> log.entries == appended + [Thought(t)]
      ensures t.Ends? ==> Ended(t.end)
      ensures Reliable() ==> Asked(step, old(|trace|), old(tokens), t)
    {
      t := Ask(step);
    }

    /** Plans and decides on what was observed. */
    method PlanAndDecide() returns (t: Thought)
      requires At(Done(Observe)) && Thinking() && Tallied()
      requires Kept() && log.act <= |trace| && log.verify <= |trace|
      modifies this`trace, this`standings, this`log, this`logs, this`tokens
      ensures t.Thinks? ==> At(Done(Decide)) && Thinking()
      ensures t.Thinks? ==> Decides(t.answer) && |trace| == old(|trace|) + 6
      ensures t.Retries? ==> AtWith(Idle, 1) && Thinking()
      ensures !t.Ends? ==> Tallied() && log.rounds == old(log.rounds) && log.entries == appended + [Thought(t)]
      ensures t.Retries? ==> log.act == old(log.act) && log.verify == old(log.verify)
      ensures t.Ends? ==> Ended(t.end)
      ensures Overruns() && old(tokens) == 1 ==> t == Ends(Interrupted(Escape))
      ensures Exhausts() && old(tokens) == 0 ==> tokens == 0 && t == Thinks(Spent(0))
      ensures Thrifty() && 4 * old(tokens) < limits.maxTokens ==> t.Thinks? && 4 * tokens < 3 * limits.maxTokens
    {
      t := Ponder(Plan);
      if t.Thinks? {
        t := Ponder(Decide);
      }
    }

    /** Observes, plans and decides, one after another. */
    method Consider() returns (t: Thought)
      requires InGrammar() && At(Now().phase) && Thinking() && MayStart(Now().phase, Observe) && Ready(Observe) && Kept()
      modifies this`trace, this`standings, this`log, this`logs, this`tokens
      ensures t.Thinks? ==> At(Done(Decide)) && Thinking()
      ensures t.Thinks? ==> Decides(t.answer) && |trace| == old(|trace|) + 9
      ensures t.Retries? ==> AtWith(Idle, 1) && Thinking()
      ensures !t.Ends? ==> Tallied() && log.rounds == old(log.rounds) && log.entries == appended + [Thought(t)]
      ensures t.Retries? ==> log.act == old(log.act) && log.verify == old(log.verify)
      ensures t.Ends? ==> Ended(t.end)
      ensures Overruns() && old(tokens) == 0 ==> t == Ends(Interrupted(Escape))
      ensures Exhausts() && old(tokens) == 0 ==>
                tokens == 0
                && if old(|trace|) + 1 < 3 * Spared() then t == Retries && |trace| == old(|trace|) + 3 else t == Thinks(Spent(0))
      ensures Thrifty() && old(tokens) == 0 ==> t.Thinks? && 4 * tokens < 3 * limits.maxTokens
    {
      t := Ponder(Observe);
      if t.Thinks? {
        t := PlanAndDecide();
      }
    }

    /** The last answer is the decision. */
    ghost predicate Decides(answer: Answer)
      reads this
    {
      log.act < log.decide && log.verify < log.decide && reasoner(Decide, log.decide) == Output(answer)
    }

    /** What thinking adds to the history. */
    ghost function Thought(t: Thought): Entry
      requires !t.Ends?
      reads this
    {
      if t.Thinks? then Entry(iterations, Decide, Some(t.answer.action), t.answer.tool, None)
      else Entry(iterations, Decide, None, None, None)
    }

    /** Puts a failed thought into the history and counts it. */
    method Retry(iteration: nat) returns (t: Thought)
      requires AtWith(Idle, 1) && Thinking() && Paced() && Tallied() && iteration == iterations
      requires Watches(log.rounds) && !watch.stuck && log.entries == appended + [Thought(Retries)]
      modifies this`trace, this`standings, this`log, this`logs, this`tokens, this`failures, this`history, this`appended
      ensures !t.Thinks?
      ensures t.Retries? ==> At(Idle) && Thinking() && failures == old(failures) + 1 && Tallied() && Fluent()
      ensures t.Retries? ==> log.act == old(log.act) && log.verify == old(log.verify)
      ensures t.Retries? ==> trace == old(trace) && tokens == old(tokens)
      ensures t.Ends? ==> Ended(t.end)
      ensures Exhausts() && old(tokens) == 0 ==>
                if old(failures) + 1 < RECORDABLE_FAILURES then t == Retries else t == Ends(Interrupted(Escape))
    {
      Append(Entry(iteration, Decide, None, None, None));
      var ending := CountFailure();
      t := if ending.Some? then Ends(ending.value) else Retries;
    }

    /** Thinks of what to do; a failed step costs a failure and the iteration. */
    method Think(iteration: nat) returns (t: Thought)
      requires InGrammar() && At(Now().phase) && Thinking() && Paced() && MayStart(Now().phase, Observe)
      requires iteration == iterations && Ready(Observe) && Fluent()
      modifies this`trace, this`standings, this`log, this`logs, this`tokens, this`failures, this`history, this`appended
      ensures t.Thinks? ==> At(Done(Decide)) && Thinking() && failures == old(failures)
      ensures t.Thinks? ==> Decides(t.answer) && |trace| == old(|trace|) + 9
      ensures t.Thinks? ==> Tallied() && log.rounds == old(log.rounds) && log.entries == appended + [Thought(t)]
      ensures t.Retries? ==> At(Idle) && Thinking() && failures == old(failures) + 1 && Tallied() && Fluent()
      ensures t.Retries? ==> log.act == old(log.act) && log.verify == old(log.verify)
      ensures t.Ends? ==> Ended(t.end)
      ensures Overruns() && old(tokens) == 0 ==> t == Ends(Interrupted(Escape))
      ensures Exhausts() && old(tokens) == 0 && old(|trace|) + 1 < 3 * Spared() ==>
                if failures < RECORDABLE_FAILURES && t.Retries? then tokens == 0 && |trace| == old(|trace|) + 3
                else old(failures) + 1 == RECORDABLE_FAILURES && t == Ends(Interrupted(Escape))
      ensures Exhausts() && old(tokens) == 0 && old(|trace|) + 1 >= 3 * Spared() ==> t == Thinks(Spent(0)) && tokens == 0
      ensures Thrifty() && old(tokens) == 0 ==> t.Thinks? && 4 * tokens < 3 * limits.maxTokens
    {
      t := Consider();
      if t.Retries? {
        t := Retry(iteration);
      }
    }

    function ToolOutcome(status: ToolStatus): Outcome {
      match status
      case ToolSucceeded => Succeeded
      case ToolDenied => Denied
      case _ => Outcome.Failed
    }

    /** The failures a result stands for once it has been looked at. */
    function ResultWeight(outcome: Outcome, code: Option<ToolCode>): nat {
      if (outcome == Outcome.Failed || outcome == Denied) && !Referred(code) then 1 else 0
    }

    /** Records what the tool did and that its result was looked at. */
    method Look(outcome: Outcome, code: Option<ToolCode>) returns (raised: Option<Interrupt>)
      requires At(Calling(Act)) && Tallied() && Reports(tools(log.act), outcome, code)
      modifies this`trace, this`standings, this`log, this`logs
      ensures |trace| >= old(|trace|)
      ensures log == old(log)
      ensures raised.None? ==> AtWith(Done(ObserveResult), ResultWeight(outcome, code)) && Representable()
      ensures raised.Some? ==> StandsAt(raised.value)
      ensures Reliable() && Representable() ==> raised.None?
    {
      raised := Finish(Act, outcome, code);
      if raised.None? {
        raised := LookAt(outcome, code);
      }
    }

    method LookAt(outcome: Outcome, code: Option<ToolCode>) returns (raised: Option<Interrupt>)
      requires AtWith(Acted(outcome), 0) && Tallied() && Reports(tools(log.act), outcome, code)
      modifies this`trace, this`standings, this`log, this`logs
      ensures |trace| >= old(|trace|)
      ensures log == old(log)
      ensures raised.None? ==> AtWith(Done(ObserveResult), ResultWeight(outcome, code)) && Representable()
      ensures raised.Some? ==> StandsAt(raised.value)
      ensures Reliable() && Representable() ==> raised.None?
    {
      raised := Audit(ObserveResult, Started, None, None);
      if raised.None? {
        raised := Finish(ObserveResult, outcome, code);
      }
    }

    /** Starts the tool step, counts the call, and enters it. */
    method BeginTool() returns (raised: Option<Interrupt>)
      requires At(Done(Decide)) && Representable() && toolCalls < limits.maxToolCalls && toolCalls < iterations && Tallied()
      requires Warranted(Setting(), log, Act)
      modifies this`trace, this`standings, this`log, this`logs, this`toolCalls
      ensures |trace| >= old(|trace|)
      ensures log == if raised.None? then Called(old(log), Act, old(|trace|) + 1) else old(log)
      ensures raised.None? ==> At(Calling(Act)) && toolCalls == old(toolCalls) + 1 && |trace| == old(|trace|) + 2 && Representable()
      ensures raised.Some? ==> StandsAt(raised.value)
      ensures Reliable() && Representable() ==> raised.None?
    {
      raised := Audit(Act, Started, None, None);
      if raised.None? {
        toolCalls := toolCalls + 1;
        EnterCall(Act);
      }
    }

    /** Calls the tool and records what came of it. */
    method UseTool() returns (raised: Option<Interrupt>, reply: ToolReply)
      requires At(Done(Decide)) && Representable() && toolCalls < limits.maxToolCalls && toolCalls < iterations && Tallied()
      requires Warranted(Setting(), log, Act) && Kept()
      modifies this`trace, this`standings, this`log, this`logs, this`toolCalls
      ensures |trace| >= old(|trace|) && Kept()
      ensures raised.None? ==> log == Called(old(log), Act, old(|trace|) + 1) && Tallied()
      ensures raised.Some? ==> Ended(Interrupted(raised.value))
      ensures raised.None? ==> (reply.Result? || reply.ToolAuditErr?) && toolCalls == old(toolCalls) + 1 && Representable()
      ensures raised.None? ==> reply == tools(log.act)
      ensures raised.None? ==> AtWith(Done(ObserveResult), ReplyWeight(reply))
      ensures Reliable() && Representable() && reply.Result? ==> raised.None?
      ensures (forall n: nat :: tools(n) == Result(ToolFailed, None)) ==> reply == Result(ToolFailed, None)
    {
      reply := tools(|trace| + 1);
      raised := BeginTool();
      if raised.None? {
        match reply {
          case ToolDeadline => raised := Some(Deadline);
          case ToolCancel => raised := Some(Cancellation);
          case ToolUndeclared => raised := Some(Escape);
          case ToolAuditErr => raised := Look(Outcome.Failed, Some(AuditCode));
          case Result(status, toolCode) => raised := Look(ToolOutcome(status), toolCode);
        }
      }
    }

    /** The decision was carried out, and met the code. */
    ghost predicate Acts(answer: Answer, code: Option<ToolCode>)
      reads this
    {
      && log.verify < log.decide < log.act && reasoner(Decide, log.decide) == Output(answer)
      && CodeAt(Setting(), log.act) == code && Warranted(Setting(), log, Verify)
    }

    /** Calls the tool once; None means that its result is to be verified. */
    method ActOn(answer: Answer) returns (ending: Option<End>, code: Option<ToolCode>)
      requires At(Done(Decide)) && Thinking() && Paced() && toolCalls < limits.maxToolCalls && toolCalls < iterations
      requires Fluent() && Tallied() && Decides(answer) && answer.action == ToolCall
      modifies this`trace, this`standings, this`log, this`logs, this`tokens, this`failures, this`toolCalls
      ensures ending.None? ==> |trace| >= old(|trace|)
      ensures ending.None? ==> At(Done(ObserveResult)) && Thinking() && Paced() && toolCalls == old(toolCalls) + 1
      ensures ending.None? ==> Fluent() && Tallied() && Acts(answer, code)
      ensures ending.Some? ==> Ended(ending.value)
      ensures Exhausts() && old(tokens) == 0 ==> Suffers(old(failures) + 1, ending)
    {
      var raised, reply := UseTool();
      code := None;
      if raised.Some? {
        ending := Some(Interrupted(raised.value));
      } else {
        code := if reply.Result? then reply.code else None;
        ending := Heed(reply);
      }
    }

    /** The failures a reply stands for once it has been looked at. */
    function ReplyWeight(reply: ToolReply): nat {
      if reply.Result? then ResultWeight(ToolOutcome(reply.status), reply.code) else 1
    }

    /** Ends the loop with a failed audit, or a call that was referred to a human, and counts any other
        failure. */
    method Heed(reply: ToolReply) returns (ending: Option<End>)
      requires (reply.Result? || reply.ToolAuditErr?) && AtWith(Done(ObserveResult), ReplyWeight(reply))
      requires Thinking() && Paced() && Fluent() && Tallied()
      requires tools(log.act) == reply && log.decide < log.act && log.verify < log.act
      modifies this`trace, this`standings, this`log, this`logs, this`tokens, this`failures
      ensures ending.None? ==> At(Done(ObserveResult)) && Thinking() && log == old(log) && |trace| >= old(|trace|)
      ensures ending.None? ==> failures <= old(failures) + 1 && tokens == old(tokens) && reply.Result?
      ensures ending.None? ==> Warranted(Setting(), log, Verify)
      ensures ending.Some? ==> Ended(ending.value)
      ensures Exhausts() && old(tokens) == 0 && reply == Result(ToolFailed, None) ==> Suffers(old(failures) + 1, ending)
    {
      if reply.ToolAuditErr? {
        var end := Terminate(FailedStatus, AuditFailed, Outcome.Failed);
        ending := Some(end);
      } else if reply.status == ToolSucceeded {
        ending := None;
      } else if Referred(reply.code) {
        var end := FinishRun(EscalatedStatus, if reply.code == Some(ApprovalNeeded) then HumanApprovalRequired else PermissionDenied);
        ending := Some(end);
      } else {
        ending := CountFailure();
      }
    }

    /** Where the loop may go on. */
    ghost predicate GoesOn()
      reads this
    {
      && InGrammar() && At(Now().phase) && Thinking() && MayStart(Now().phase, Observe)
      && (Now().phase == Idle || Now().phase.Done?) && Fluent() && Tallied() && Warranted(Setting(), log, Observe)
    }

    /** Asks for a verification of the result. */
    method AskVerify(answer: Answer, code: Option<ToolCode>) returns (t: Thought)
      requires At(Done(ObserveResult)) && Thinking() && Fluent() && Tallied() && Acts(answer, code)
      modifies this`trace, this`standings, this`log, this`logs, this`tokens
      ensures t.Thinks? ==> At(Done(Verify)) && Thinking() && Tallied() && Judged(answer, t.answer, code)
      ensures t.Thinks? ==> log.entries == appended + [Entry(iterations, Verify, Some(answer.action), answer.tool, code)]
      ensures t.Retries? ==> AtWith(Idle, 1) && Thinking() && Fluent() && Tallied() && Warranted(Setting(), log, Observe)
      ensures !t.Ends? ==> |trace| >= old(|trace|)
      ensures t.Ends? ==> Ended(t.end)
      ensures Exhausts() && old(tokens) == 0 ==> t == Retries && tokens == 0
    {
      t := Ask(Verify);
    }

    /** Verifies a result; None lets the loop go on. */
    method VerifyResult(iteration: nat, answer: Answer, code: Option<ToolCode>, detector: Stagnation.StagnationDetector)
      returns (ending: Option<End>)
      requires At(Done(ObserveResult)) && Thinking() && Paced()
      requires iteration == iterations && Fluent() && Tallied() && Acts(answer, code)
      requires Follows(detector)
      modifies this`trace, this`standings, this`log, this`logs, this`tokens, this`failures, this`history, this`appended
      modifies this`watch, detector
      ensures ending.None? ==> |trace| >= old(|trace|)
      ensures ending.None? ==> GoesOn() && Follows(detector)
      ensures ending.Some? ==> Ended(ending.value)
      ensures Exhausts() && old(tokens) == 0 ==> Suffers(old(failures) + 1, ending)
    {
      var t := AskVerify(answer, code);
      if t.Thinks? {
        ending := Conclude(iteration, answer, t.answer, code, detector);
      } else if t.Retries? {
        ending := CountFailure();
      } else {
        ending := Some(t.end);
      }
    }

    /** Follows the verdict on a verified result. */
    method Conclude(
      iteration: nat, answer: Answer, verdict: Answer, code: Option<ToolCode>,
      detector: Stagnation.StagnationDetector)
      returns (ending: Option<End>)
      requires At(Done(Verify)) && Thinking()
      requires iteration == iterations && Tallied() && Judged(answer, verdict, code)
      requires log.entries == appended + [Entry(iteration, Verify, Some(answer.action), answer.tool, code)]
      requires Follows(detector)
      modifies this`trace, this`standings, this`log, this`logs, this`tokens, this`failures, this`history, this`appended
      modifies this`watch, detector
      ensures ending.None? ==> |trace| >= old(|trace|)
      ensures ending.None? ==> At(Done(Verify)) && Thinking() && Follows(detector)
      ensures ending.None? ==> Fluent() && Tallied() && Warranted(Setting(), log, Observe)
      ensures ending.Some? ==> Ended(ending.value)
    {
      Append(Entry(iteration, Verify, Some(answer.action), answer.tool, code));
      var reason := Rule(answer, verdict, code, detector);
      ending := None;
      if reason.Some? {
        var end := FinishRun(if reason.value == TaskCompleted then CompletedStatus else EscalatedStatus, reason.value);
        ending := Some(end);
      }
    }

    /** The result of the decision was verified, and makes a round when the run is to go on. */
    ghost predicate Judged(answer: Answer, verdict: Answer, code: Option<ToolCode>)
      reads this
    {
      && log.decide < log.act < log.verify
      && reasoner(Decide, log.decide) == Output(answer) && CodeAt(Setting(), log.act) == code
      && reasoner(Verify, log.verify) == Output(verdict)
      && watch.given == Setting() && watch.window == limits.window && !watch.stuck
      && log.rounds == watch.rounds + if verdict.verification == Continue then [Round(log.decide, log.act, log.verify)] else []
    }

    /** The reason to stop after a verified result, if there is one. */
    method Rule(
      answer: Answer, verdict: Answer, code: Option<ToolCode>,
      detector: Stagnation.StagnationDetector)
      returns (reason: Option<Reason>)
      requires Judged(answer, verdict, code) && Answers(reasoner, most) && 2 <= limits.window
      requires Follows(detector)
      modifies this`watch, detector
      ensures Follows(detector)
      ensures Watches(log.rounds)
      ensures reason.None? ==> verdict.verification == Continue && !watch.stuck
      ensures reason.Some? ==> Truthful(reason.value)
      ensures reason.Some? ==> reason.value == TaskCompleted || reason.value == AgentEscalated || reason.value == StagnationDetected
    {
      match verdict.verification {
        case CompleteNow => reason := Some(TaskCompleted);
        case EscalateNow => reason := Some(AgentEscalated);
        case Continue =>
          assert AnswersAt(reasoner, most, Decide, log.decide);
          var stagnant := detector.Observe(Stagnation.Observation(
            ActionName(answer.action), answer.tool, answer.arguments,
            Some(VerificationName(verdict.verification)), if code.Some? then Some(CodeName(code.value)) else None));
          ghost var round := Round(log.decide, log.act, log.verify);
          watch := Show(watch, round, stagnant);
          reason := if stagnant then Some(StagnationDetected) else None;
      }
    }

    /** One iteration; None lets the loop go on. */
    method Iterate(iteration: nat, detector: Stagnation.StagnationDetector) returns (ending: Option<End>)
      requires InGrammar() && At(Now().phase) && Thinking() && Paced() && MayStart(Now().phase, Observe)
      requires iteration == iterations && toolCalls < iterations && Ready(Observe) && Fluent()
      requires Follows(detector)
      modifies this`trace, this`standings, this`log, this`logs, this`tokens, this`failures, this`history, this`appended
      modifies this`watch, this`toolCalls, detector
      ensures ending.None? ==> GoesOn() && Follows(detector)
      ensures ending.Some? ==> Ended(ending.value)
      ensures Overruns() && old(tokens) == 0 ==> ending == Some(Interrupted(Escape))
      ensures Exhausts() && old(tokens) == 0 && old(|trace|) + 1 < 3 * Spared() ==>
                Suffers(old(failures) + 1, ending) && (ending.None? ==> |trace| == old(|trace|) + 3 && toolCalls == old(toolCalls))
      ensures Exhausts() && old(tokens) == 0 && old(|trace|) + 1 >= 3 * Spared() && old(toolCalls) < limits.maxToolCalls ==>
                Suffers(old(failures) + 2, ending)
                && (ending.None? ==> |trace| >= old(|trace|) && toolCalls == old(toolCalls) + 1)
      ensures old(tokens) == 0 && Settles(Complete) ==> ending == Some(Terminated(CompletedStatus, TaskCompleted))
      ensures old(tokens) == 0 && Settles(Escalate) ==> ending == Some(Terminated(EscalatedStatus, AgentEscalated))
    {
      var t := Think(iteration);
      match t {
        case Ends(end) => ending := Some(end);
        case Retries => ending := None;
        case Thinks(answer) =>
          ending := Proceed(iteration, answer, detector);
      }
    }

    /** Puts a decision into the history and carries it out. */
    method Proceed(iteration: nat, answer: Answer, detector: Stagnation.StagnationDetector) returns (ending: Option<End>)
      requires At(Done(Decide)) && Thinking() && Paced() && toolCalls < iterations
      requires iteration == iterations && Watches(log.rounds) && !watch.stuck && Tallied() && Decides(answer)
      requires log.entries == appended + [Thought(Thinks(answer))]
      requires Follows(detector)
      modifies this`trace, this`standings, this`log, this`logs, this`tokens, this`failures, this`history, this`appended
      modifies this`watch, this`toolCalls, detector
      ensures ending.None? ==> |trace| >= old(|trace|)
      ensures ending.None? ==> GoesOn() && Follows(detector)
      ensures ending.Some? ==> Ended(ending.value)
      ensures Exhausts() && old(tokens) == 0 && answer == Spent(0) && old(toolCalls) < limits.maxToolCalls ==>
                Suffers(old(failures) + 2, ending) && (ending.None? ==> toolCalls == old(toolCalls) + 1)
      ensures Thrifty() && 4 * old(tokens) < 3 * limits.maxTokens && answer.action != ToolCall ==>
                ending == Some(if answer.action == Complete then Terminated(CompletedStatus, TaskCompleted)
                               else Terminated(EscalatedStatus, AgentEscalated))
    {
      Append(Entry(iteration, Decide, Some(answer.action), answer.tool, None));
      ending := Carry(iteration, answer, detector);
    }

    /** Carries out a decision. */
    method Carry(iteration: nat, answer: Answer, detector: Stagnation.StagnationDetector) returns (ending: Option<End>)
      requires At(Done(Decide)) && Thinking() && Paced() && toolCalls < iterations
      requires iteration == iterations && Fluent() && Tallied() && Decides(answer)
      requires Follows(detector)
      modifies this`trace, this`standings, this`log, this`logs, this`tokens, this`failures, this`history, this`appended
      modifies this`watch, this`toolCalls, detector
      ensures ending.None? ==> |trace| >= old(|trace|)
      ensures ending.None? ==> GoesOn() && Follows(detector)
      ensures ending.Some? ==> Ended(ending.value)
      ensures Exhausts() && old(tokens) == 0 && answer == Spent(0) && old(toolCalls) < limits.maxToolCalls ==>
                Suffers(old(failures) + 2, ending) && (ending.None? ==> toolCalls == old(toolCalls) + 1)
      ensures Thrifty() && 4 * old(tokens) < 3 * limits.maxTokens && answer.action != ToolCall ==>
                ending == Some(if answer.action == Complete then Terminated(CompletedStatus, TaskCompleted)
                               else Terminated(EscalatedStatus, AgentEscalated))
    {
      var end: End;
      if answer.action != ToolCall {
        var status := if answer.action == Complete then CompletedStatus else EscalatedStatus;
        end := FinishRun(status, if answer.action == Complete then TaskCompleted else AgentEscalated);
        ending := Some(end);
      } else if toolCalls >= limits.maxToolCalls {
        end := Terminate(LimitStatus, MaxToolCallsReached, LimitReached);
        ending := Some(end);
      } else {
        ending := Try(iteration, answer, detector);
      }
    }

    /** Calls the tool and verifies its result. */
    method Try(iteration: nat, answer: Answer, detector: Stagnation.StagnationDetector) returns (ending: Option<End>)
      requires At(Done(Decide)) && Thinking() && Paced()
      requires iteration == iterations && Fluent() && Tallied() && Decides(answer) && answer.action == ToolCall
      requires toolCalls < limits.maxToolCalls && toolCalls < iterations
      requires Follows(detector)
      modifies this`trace, this`standings, this`log, this`logs, this`tokens, this`failures, this`history, this`appended
      modifies this`watch, this`toolCalls, detector
      ensures ending.None? ==> |trace| >= old(|trace|)
      ensures ending.None? ==> GoesOn() && Follows(detector) && toolCalls == old(toolCalls) + 1
      ensures ending.Some? ==> Ended(ending.value)
      ensures Exhausts() && old(tokens) == 0 ==> Suffers(old(failures) + 2, ending)
    {
      var code;
      ending, code := ActOn(answer);
      if ending.None? {
        ending := VerifyResult(iteration, answer, code, detector);
      }
    }

    // -------------------------------------------------------------- the whole run

    /** How far a run of failing collaborators has come after some iterations. */
    ghost predicate Exhausting(done: nat)
      reads this
    {
      Exhausts() ==>
        && tokens == 0
        && (done <= Spared() ==> |trace| == 3 * done && toolCalls == 0 && failures == done)
        && (done > Spared() ==> |trace| >= 3 * Spared() && toolCalls == done - Spared() && failures == 2 * done - Spared())
    }

    /** One turn of the loop. */
    method Turn(iteration: nat, detector: Stagnation.StagnationDetector) returns (ending: Option<End>)
      requires InGrammar() && At(Now().phase) && Thinking() && MayStart(Now().phase, Observe)
      requires 1 <= iteration <= limits.maxIterations && iterations == iteration - 1 && Fluent() && Tallied()
      requires Warranted(Setting(), log, Observe)
      requires Follows(detector) && Exhausting(iteration - 1)
      requires Overruns() || Settles(Complete) || Settles(Escalate) ==> tokens == 0
      modifies this, detector
      ensures ending.None? ==> GoesOn() && Follows(detector) && iterations == iteration
      ensures ending.None? ==> Exhausting(iteration)
      ensures ending.Some? ==> Ended(ending.value)
      ensures Overruns() ==> ending == Some(Interrupted(Escape))
      ensures Exhausts() && ending.Some? ==> ending == Some(Interrupted(Escape))
      ensures Settles(Complete) ==> ending == Some(Terminated(CompletedStatus, TaskCompleted))
      ensures Settles(Escalate) ==> ending == Some(Terminated(EscalatedStatus, AgentEscalated))
    {
      iterations := iteration;
      ending := Iterate(iteration, detector);
    }

    /** The loop under the global timeout. */
    method Execute() returns (end: End)
      requires At(Fresh) && Thinking() && iterations == 0 && toolCalls == 0 && failures == 0
      requires Unseen() && tokens == 0 && trace == []
      modifies this
      ensures Ended(end)
      ensures Overruns() || Exhausts() ==> end == Interrupted(Escape)
      ensures Settles(Complete) ==> end == Terminated(CompletedStatus, TaskCompleted)
      ensures Settles(Escalate) ==> end == Terminated(EscalatedStatus, AgentEscalated)
    {
      var detector := new Stagnation.StagnationDetector(limits.window);
      end := Loop(detector);
    }

    /** Turn after turn, until one ends the loop or no iteration is left. */
    method Loop(detector: Stagnation.StagnationDetector) returns (end: End)
      requires At(Fresh) && Thinking() && Tallied() && Fluent() && Warranted(Setting(), log, Observe)
      requires iterations == 0 && Exhausting(0) && tokens == 0 && Follows(detector)
      modifies this, detector
      ensures Ended(end)
      ensures Overruns() || Exhausts() ==> end == Interrupted(Escape)
      ensures Settles(Complete) ==> end == Terminated(CompletedStatus, TaskCompleted)
      ensures Settles(Escalate) ==> end == Terminated(EscalatedStatus, AgentEscalated)
    {
      for iteration := 1 to limits.maxIterations + 1
        invariant InGrammar() && At(Now().phase) && Thinking() && MayStart(Now().phase, Observe)
        invariant iteration > 1 ==> Now().phase == Idle || Now().phase.Done?
        invariant iterations == iteration - 1 && Fluent() && Tallied() && Warranted(Setting(), log, Observe)
        invariant Follows(detector)
        invariant Exhausting(iteration - 1)
        invariant Overruns() || Settles(Complete) || Settles(Escalate) ==> iteration == 1 && tokens == 0
      {
        var ending := Turn(iteration, detector);
        if ending.Some? {
          return ending.value;
        }
      }
      end := Terminate(LimitStatus, MaxIterationsReached, LimitReached);
    }

    /** One whole run, as its caller sees it. */
    method Run(scopeMatches: bool) returns (outcome: RunOutcome)
      requires At(Fresh) && Thinking() && iterations == 0 && toolCalls == 0 && failures == 0
      requires Unseen() && tokens == 0 && trace == []
      modifies this
      // the five budgets, on every exit
      ensures iterations <= limits.maxIterations
      ensures toolCalls <= limits.maxToolCalls && toolCalls <= iterations
      ensures tokens < limits.maxTokens + most
      ensures failures <= FailureCap() + 1 && failures <= iterations + toolCalls + 1
      // the trace is in the grammar and ends as the outcome says, and the counters are those of its events
      ensures Audited(outcome)
      // the records are true, the history keeps the last entries that the trace comes to, and the
      // run is stuck exactly when the last rounds of the trace are alike for the first time
      ensures Accounted()
      // a run that returns does so for an accepted and truthful reason
      ensures outcome.Finished? ==> Accepts(outcome.status, outcome.reason)
      ensures outcome.Finished? && outcome.reason != AuditFailed ==> EndsWith(outcome.reason) && Truthful(outcome.reason)
      // with declared collaborators and a reliable recorder, a run that does not escape returns with
      // its reason on record, or lets a cancellation through
      ensures scopeMatches && Reliable() && Declared() && !outcome.RaisedOther? ==>
                (outcome.Finished? && EndsWith(outcome.reason)) || outcome.RaisedCancelled?
      ensures outcome.RaisedAuditFailure? ==> !Reliable()
      // with declared collaborators, the run escapes exactly when a counter outgrows its record,
      // which its limits rule out unless they leave room for it
      ensures scopeMatches && Declared() ==> (outcome.RaisedOther? <==> !Representable())
      ensures Representable() || Outgrows(limits)
      ensures limits.maxTokens + most <= RECORDABLE_TOKENS + 1 && !FailuresOutgrow(limits) ==> Representable()
      ensures scopeMatches && (Overruns() || Exhausts()) ==> outcome.RaisedOther?
      // a run whose first decision is to stop, within its budget, stops for that reason
      ensures scopeMatches && Settles(Complete) ==> outcome == Finished(CompletedStatus, TaskCompleted)
      ensures scopeMatches && Settles(Escalate) ==> outcome == Finished(EscalatedStatus, AgentEscalated)
      ensures outcome.RaisedInvalidRequest? <==> !scopeMatches
      ensures !scopeMatches ==> trace == []
    {
      if !scopeMatches {
        outcome := RaisedInvalidRequest;
      } else {
        outcome := RunInScope();
      }
      Account(outcome);
    }

    /** The trace is in the grammar, within the budget, and closed by one terminal record when the run
        returned or nothing failed around it. It counts every tool call and every failure, but for one
        that ends the run as an audit failure. */
    ghost predicate Audited(outcome: RunOutcome)
      reads this
    {
      && !PhaseOf(trace).Broken? && CallsWithin(trace, limits.maxTokens) && TrueCounts(trace)
      && ToolStarts(trace) == toolCalls
      && (failures == FailuresIn(trace)
          || (outcome == Finished(FailedStatus, AuditFailed) && failures + 1 == FailuresIn(trace)))
      && (outcome.Finished? && outcome.reason != AuditFailed ==> PhaseOf(trace) == Final)
      && (outcome.RaisedAuditFailure? ==> PhaseOf(trace) == Halted)
      && (Reliable() && Declared() && !outcome.RaisedOther? && !outcome.RaisedInvalidRequest? ==> PhaseOf(trace) == Final)
    }

    /** What the log, the history and the rounds seen have to do with the trace. */
    ghost predicate Accounted()
      reads this
    {
      && log == LogOf(Setting(), trace) && TrueRecords(Setting(), trace)
      && KeepsLast(history, log.entries, limits.maxHistory)
      && (watch.stuck <==> Stuck(Setting(), log.rounds, limits.window))
      && Unstuck(Setting(), log.rounds, limits.window)
    }

    lemma Account(outcome: RunOutcome)
      requires Over(outcome) || (At(Fresh) && Kept() && outcome.RaisedInvalidRequest?)
      ensures Audited(outcome) && Accounted()
    {
      LoggedMeans(Setting(), trace, logs);
      SoundMeans(trace, standings, limits.maxTokens);
    }

    /** How the run stands once it returned or raised. */
    ghost predicate Over(outcome: RunOutcome)
      reads this
    {
      && InGrammar() && Whole(Now().phase) && !outcome.RaisedInvalidRequest? && Kept()
      && (!(outcome == Finished(FailedStatus, AuditFailed)) ==> At(Now().phase))
      && (outcome.Finished? ==> Accepts(outcome.status, outcome.reason))
      && (outcome.Finished? && outcome.reason != AuditFailed ==>
            Now().phase == Final && EndsWith(outcome.reason) && Truthful(outcome.reason))
      && (Reliable() && Declared() && !outcome.RaisedOther? ==>
            Now().phase == Final && (outcome.Finished? || outcome.RaisedCancelled?)
            && (outcome.Finished? ==> EndsWith(outcome.reason)))
      && (outcome.RaisedAuditFailure? ==> !Reliable() && Now().phase == Halted)
      && (Declared() ==> (outcome.RaisedOther? <==> !Representable()))
    }

    /** A run whose request fits its context. */
    method RunInScope() returns (outcome: RunOutcome)
      requires At(Fresh) && Thinking() && iterations == 0 && toolCalls == 0 && failures == 0
      requires Unseen() && tokens == 0 && trace == []
      modifies this
      ensures Over(outcome)
      ensures Overruns() || Exhausts() ==> outcome.RaisedOther?
      ensures Settles(Complete) ==> outcome == Finished(CompletedStatus, TaskCompleted)
      ensures Settles(Escalate) ==> outcome == Finished(EscalatedStatus, AgentEscalated)
    {
      var end := Execute();
      match end {
        case Terminated(status, reason) => outcome := Finished(status, reason);
        case Interrupted(how) => outcome := Surface(how);
      }
    }

    /** What an interruption of the loop becomes for the caller. */
    method Surface(how: Interrupt) returns (outcome: RunOutcome)
      requires StandsAt(how) && Kept()
      modifies this`trace, this`standings, this`log, this`logs
      ensures Over(outcome)
      ensures how == Escape ==> outcome == RaisedOther
    {
      match how {
        case AuditFailure => outcome := Finished(FailedStatus, AuditFailed);
        case Escape => outcome := RaisedOther;
        case Cancellation => outcome := SurfaceCancellation();
        case Deadline => outcome := SurfaceDeadline();
      }
    }

    /** Records a cancellation as well as possible, and lets it through. */
    method SurfaceCancellation() returns (outcome: RunOutcome)
      requires StandsAt(Cancellation) && Kept()
      modifies this`trace, this`standings, this`log, this`logs
      ensures Over(outcome)
    {
      var raised := Audit(Report, Outcome.Cancelled, Some(CancelledReason), None);
      outcome := RaisedCancelled;
    }

    /** Records a timeout, or fails. */
    method SurfaceDeadline() returns (outcome: RunOutcome)
      requires StandsAt(Deadline) && Kept()
      modifies this`trace, this`standings, this`log, this`logs
      ensures Over(outcome)
    {
      var raised := Audit(Report, Outcome.TimedOut, Some(GlobalTimeout), None);
      outcome := if raised.None? then Finished(TimedOutStatus, GlobalTimeout) else RaisedAuditFailure;
    }
  }

  lemma SpentIsTyped(tokens: nat, most: nat)
    requires tokens <= most <= RECORDABLE_TOKENS
    ensures WellTyped(Spent(tokens), most)
  {
  }

  /** For all limits with more than one token to spend, some declared collaborators and a recorder
      that never fails make the run count more tokens than a record holds, and escape. */
  method TokensOutgrowTheRecord(limits: Limits) returns (run: RuntimeRun, outcome: RunOutcome)
    requires ValidLimits(limits) && limits.maxTokens >= 2
    ensures fresh(run) && run.limits == limits && run.Reliable() && run.Declared()
    ensures outcome == RaisedOther && !run.Representable()
  {
    var reasoner := (step: Step, n: nat) => Output(Spent(if step == Observe then 1 else RECORDABLE_TOKENS));
    SpentIsTyped(1, RECORDABLE_TOKENS);
    SpentIsTyped(RECORDABLE_TOKENS, RECORDABLE_TOKENS);
    run := new RuntimeRun(limits, reasoner, (n: nat) => Result(ToolFailed, None), (n: nat) => true, RECORDABLE_TOKENS);
    assert run.Overruns();
    outcome := run.Run(true);
  }

  /** For all limits that leave room for as many failures as a record holds, some declared
      collaborators and a recorder that never fails make the run count one more, and escape. */
  method FailuresOutgrowTheRecord(limits: Limits) returns (run: RuntimeRun, outcome: RunOutcome)
    requires ValidLimits(limits) && FailuresOutgrow(limits)
    ensures fresh(run) && run.limits == limits && run.Reliable() && run.Declared()
    ensures outcome == RaisedOther && run.failures > RECORDABLE_FAILURES
  {
    var spared := 2 * limits.maxIterations - RECORDABLE_FAILURES;
    var reasoner := (step: Step, n: nat) =>
      if step == Verify || step == Report || (step == Observe && n < 3 * spared) then RuntimeErr(OtherErrorCode)
      else Output(Spent(0));
    SpentIsTyped(0, 0);
    run := new RuntimeRun(limits, reasoner, (n: nat) => Result(ToolFailed, None), (n: nat) => true, 0);
    assert run.Exhausts();
    outcome := run.Run(true);
  }

  /** The limits that leave room for an escape are exactly those for which some run escapes: this is
      the run, and the last budgets of Run rule it out for all other limits. */
  method OutgrownRunEscapes(limits: Limits) returns (run: RuntimeRun, outcome: RunOutcome)
    requires ValidLimits(limits) && Outgrows(limits)
    ensures fresh(run) && run.limits == limits && run.Reliable() && run.Declared()
    ensures outcome == RaisedOther && !run.Representable()
  {
    if limits.maxTokens >= 2 {
      run, outcome := TokensOutgrowTheRecord(limits);
    } else {
      run, outcome := FailuresOutgrowTheRecord(limits);
    }
  }
}
