/** The lifecycle of one tool call: audited, authorised, run once, validated, audited again, and
    its transaction settled. */
module ToolExecution {
  import opened Wrappers
  import RuntimeLog
  import RuntimeTrace

  datatype ErrorCode =
    | ToolNotFound | ToolNotDeclared | PermissionDenied | ApprovalRequired | PermissionAuditFailed
    | InvalidInput | OutputLimit | ToolFailed | AuditFailed | ToolTimedOut | CancelledCode
    | Reported(name: string)

  datatype AuditOutcome = AuditSucceeded | AuditFailedOutcome | AuditDenied | AuditTimedOut | AuditCancelled
  datatype ResultStatus = Succeeded | Failed | Denied | TimedOut

  datatype Permission = Allow | Ask | Deny | PermissionError | PermissionCrash
  datatype Input = Accepted | Rejected | InputCrash

  /** How the tool body comes back. */
  datatype Body =
    | Returned(transactional: bool) | BodyTimedOut | BodyCancelled | BodyToolError(code: ErrorCode) | BodyError

  /** How unwrapping and validating the output goes: only the first three are expected. */
  datatype Output = OutputAccepted | OutputCancelled | OutputRejected | OutputCrash

  /** What the collaborators of one call do. */
  datatype Surroundings = Surroundings(
    requestValid: bool, begins: bool, registered: bool, declared: bool, permission: Permission,
    input: Input, body: Body, output: Output, finishes: bool, commits: bool, rollsBack: bool)

  /** The effects of one call, in order, with whether each attempt went through. */
  datatype Effect =
    | Begin(ok: bool) | Evaluate(permission: Permission) | RunBody
    | FinishAudit(outcome: AuditOutcome, ok: bool) | Commit(ok: bool) | Rollback(ok: bool)

  datatype Exit =
    | Result(status: ResultStatus, code: Option<ErrorCode>)
    | RaisedInputError | RaisedAuditError | RaisedCompensationFailed | RaisedCancelled | RaisedOther

  // ---------------------------------------------------------------- what a call owes

  /** The body may run: begun, registered, declared, allowed, and with valid input. */
  predicate Permitted(s: Surroundings) {
    s.requestValid && s.begins && s.registered && s.declared && s.permission == Allow && s.input == Accepted
  }

  /** The body handed over a transaction. */
  predicate HasTransaction(s: Surroundings) {
    Permitted(s) && s.body == Returned(true)
  }

  /** An exception that no handler of the executor expects. */
  predicate Unhandled(s: Surroundings) {
    && s.requestValid && s.begins && s.registered && s.declared
    && (s.permission == PermissionCrash
        || (s.permission == Allow && s.input == InputCrash)
        || (Permitted(s) && s.body.Returned? && s.output == OutputCrash))
  }

  /** What a sequence of effects amounts to: how often each happened, and whether each came only
      after the effects it depends on. */
  datatype Ledger = Ledger(
    begins: nat, evaluations: nat, allowed: nat, runs: nat, finishes: nat, successes: nat, cancellations: nat,
    refusals: nat, commits: nat, rollbacks: nat, failedSettlements: nat, concluded: Option<AuditOutcome>, inOrder: bool)

  const BLANK := Ledger(0, 0, 0, 0, 0, 0, 0, 0, 0, 0, 0, None, true)

  /** A call begins first; it evaluates after a begin that went through, runs after it was allowed,
      commits after a success on record, and rolls back after the body ran. */
  predicate MayHappen(l: Ledger, e: Effect) {
    match e
    case Begin(_) => l == BLANK
    case Evaluate(_) => l.begins == 1 && l.refusals == 0 && l.finishes == 0
    case RunBody => l.allowed == 1 && l.finishes == 0
    case FinishAudit(_, _) => l.begins == 1 && l.refusals == 0
    case Commit(_) => l.successes == 1 && l.runs == 1
    case Rollback(_) => l.runs == 1 && l.successes == 0
  }

  function Note(l: Ledger, e: Effect): Ledger {
    var l' := l.(inOrder := l.inOrder && MayHappen(l, e));
    match e
    case Begin(ok) => l'.(begins := l.begins + 1, refusals := l.refusals + if ok then 0 else 1)
    case Evaluate(p) => l'.(evaluations := l.evaluations + 1, allowed := l.allowed + if p == Allow then 1 else 0)
    case RunBody => l'.(runs := l.runs + 1)
    case FinishAudit(o, ok) =>
      l'.(finishes := l.finishes + 1, concluded := Some(o), refusals := l.refusals + (if ok then 0 else 1),
          successes := l.successes + (if ok && o == AuditSucceeded then 1 else 0),
          cancellations := l.cancellations + (if ok && o == AuditCancelled then 1 else 0))
    case Commit(ok) => l'.(commits := l.commits + 1, failedSettlements := l.failedSettlements + if ok then 0 else 1)
    case Rollback(ok) => l'.(rollbacks := l.rollbacks + 1, failedSettlements := l.failedSettlements + if ok then 0 else 1)
  }

  /** The ledger of a call whose body has run. */
  const RAN := Ledger(1, 1, 1, 1, 0, 0, 0, 0, 0, 0, 0, None, true)

  function LedgerOf(effects: seq<Effect>): Ledger {
    if effects == [] then BLANK else Note(LedgerOf(effects[..|effects| - 1]), effects[|effects| - 1])
  }

  function One(condition: bool): nat {
    if condition then 1 else 0
  }

  // ---------------------------------------------------------------- what the surroundings amount to

  /** The body came back with an output that is used. */
  predicate Usable(s: Surroundings) {
    Permitted(s) && s.body.Returned? && s.output == OutputAccepted
  }

  /** The body came back with an output that cannot be used. */
  predicate Unusable(s: Surroundings) {
    Permitted(s) && s.body.Returned? && (s.output.OutputCancelled? || s.output.OutputRejected?)
  }

  predicate IsCancelled(s: Surroundings) {
    Permitted(s) && (s.body == BodyCancelled || (s.body.Returned? && s.output == OutputCancelled))
  }

  predicate MustCommit(s: Surroundings) {
    HasTransaction(s) && Usable(s) && s.finishes
  }

  predicate MustRollBack(s: Surroundings) {
    HasTransaction(s) && (Unusable(s) || (Usable(s) && !s.finishes))
  }

  predicate SettlementFails(s: Surroundings) {
    (MustCommit(s) && !s.commits) || (MustRollBack(s) && !s.rollsBack)
  }

  /** A begun audit is finished, unless nobody handles an error or a rollback fails first. */
  predicate MustFinish(s: Surroundings) {
    s.requestValid && s.begins && !Unhandled(s) && !(Unusable(s) && HasTransaction(s) && !s.rollsBack)
  }

  // ---------------------------------------------------------------- what a call does and returns

  /** What a call owes, whatever its surroundings do. */
  predicate Lawful(s: Surroundings, l: Ledger) {
    && l.inOrder
    // one begin for every valid request
    && l.begins == One(s.requestValid)
    // permission is evaluated once, and only for a registered and declared tool
    && l.evaluations == One(s.requestValid && s.begins && s.registered && s.declared)
    // the body runs exactly once when permitted, and never otherwise
    && l.runs == One(Permitted(s))
    // a transaction is settled exactly once, by exactly one of commit and rollback
    && l.commits == One(MustCommit(s)) && l.rollbacks == One(MustRollBack(s))
    && l.failedSettlements == One(SettlementFails(s))
    // every audit that is to be finished is finished exactly once
    && l.finishes == One(MustFinish(s))
    && l.refusals == One((s.requestValid && !s.begins) || (MustFinish(s) && !s.finishes))
    // success and cancellation are put on record only where they happened
    && l.successes == One(Usable(s) && s.finishes)
    && l.cancellations == One(IsCancelled(s) && MustFinish(s) && s.finishes)
    // the audit that is finished says what the tool did, whether or not it is put on record
    && (l.concluded.Some? <==> MustFinish(s))
    && (l.concluded.Some? ==> Says(l.concluded.value, WhatHappened(s)))
  }

  /** What the tool did, whatever becomes of the records and settlements. */
  function WhatHappened(s: Surroundings): Exit {
    if Usable(s) then Result(Succeeded, None) else if IsCancelled(s) then RaisedCancelled else FailureOf(s)
  }

  /** The outcome of an audit that goes with the exit of its call. */
  predicate Says(outcome: AuditOutcome, exit: Exit) {
    match exit
    case Result(Succeeded, _) => outcome == AuditSucceeded
    case Result(Denied, _) => outcome == AuditDenied
    case Result(TimedOut, _) => outcome == AuditTimedOut
    case Result(Failed, _) => outcome == AuditFailedOutcome
    case RaisedCancelled => outcome == AuditCancelled
    case _ => true
  }

  /** How a call that ends in a failure result ends. */
  function FailureOf(s: Surroundings): Exit {
    if !s.registered then Result(Denied, Some(ToolNotFound))
    else if !s.declared then Result(Denied, Some(ToolNotDeclared))
    else if s.permission == PermissionError then Result(Failed, Some(PermissionAuditFailed))
    else if s.permission == Ask then Result(Denied, Some(ApprovalRequired))
    else if s.permission == Deny then Result(Denied, Some(PermissionDenied))
    else if s.input == Rejected then Result(Failed, Some(InvalidInput))
    else if s.body == BodyTimedOut then Result(TimedOut, Some(ToolTimedOut))
    else if s.body.BodyToolError? then Result(Failed, Some(s.body.code))
    else if s.body == BodyError then Result(Failed, Some(ToolFailed))
    else Result(Failed, Some(OutputLimit))
  }

  /** What the caller gets: a failed settlement outweighs a refused record, and both outweigh what
      the tool did. */
  function ExitOf(s: Surroundings): Exit {
    if !s.requestValid then RaisedInputError
    else if !s.begins then RaisedAuditError
    else if Unhandled(s) then RaisedOther
    else if SettlementFails(s) then RaisedCompensationFailed
    else if !s.finishes then RaisedAuditError
    else if IsCancelled(s) then RaisedCancelled
    else if Usable(s) then Result(Succeeded, None)
    else FailureOf(s)
  }

  /** A call has done what it owes and says how it ended. */
  predicate Settled(s: Surroundings, l: Ledger, exit: Exit) {
    Lawful(s, l) && exit == ExitOf(s)
  }

  /** The exit and the ledger agree: success is returned only on record and settled, a refused record
      is never hidden, and every result has its audit finished. */
  lemma ExitMatchesLedger(s: Surroundings, l: Ledger)
    requires Lawful(s, l)
    ensures ExitOf(s).RaisedCompensationFailed? <==> l.failedSettlements == 1
    ensures ExitOf(s).RaisedAuditError? <==> l.refusals == 1 && l.failedSettlements == 0
    ensures ExitOf(s).RaisedCancelled? <==> l.cancellations == 1
    ensures ExitOf(s) == Result(Succeeded, None) <==> l.successes == 1 && l.failedSettlements == 0
    ensures ExitOf(s).Result? ==> l.finishes == 1 && l.refusals == 0
    ensures ExitOf(s).Result? && ExitOf(s).status != Succeeded ==> l.commits == 0 && l.successes == 0
  {
  }

  /** What a failure result tells the caller: denied exactly for a tool that is unknown, undeclared
      or not permitted, and timed out exactly for a body that was. */
  lemma FailureMeans(s: Surroundings)
    requires ExitOf(s).Result? && ExitOf(s).status != Succeeded
    ensures ExitOf(s).status == Denied <==> !s.registered || !s.declared || s.permission == Ask || s.permission == Deny
    ensures ExitOf(s).status == TimedOut <==> Permitted(s) && s.body == BodyTimedOut
    ensures ExitOf(s).code == Some(ToolNotFound) ==> !s.registered || (Permitted(s) && s.body == BodyToolError(ToolNotFound))
    ensures s.registered && s.declared ==>
              (s.permission == Ask <==> ExitOf(s) == Result(Denied, Some(ApprovalRequired)))
              && (s.permission == Deny <==> ExitOf(s) == Result(Denied, Some(PermissionDenied)))
    ensures Permitted(s) && s.body.BodyToolError? ==> ExitOf(s) == Result(Failed, Some(s.body.code))
    ensures Unusable(s) ==> ExitOf(s) == Result(Failed, Some(OutputLimit))
  {
  }

  // ---------------------------------------------------------------- the ends of a call

  /** The ledger after the body was taken back. */
  function TakenBack(s: Surroundings): Ledger
    requires s.body.Returned?
  {
    if s.body.transactional then Note(RAN, Rollback(s.rollsBack)) else RAN
  }

  lemma NotTakenBack(s: Surroundings)
    requires Unusable(s) && s.body.transactional && !s.rollsBack
    ensures Settled(s, TakenBack(s), RaisedCompensationFailed)
  {
  }

  lemma CancelledTakenBack(s: Surroundings)
    requires Unusable(s) && s.output == OutputCancelled && (s.body.transactional ==> s.rollsBack)
    ensures Settled(s, Note(TakenBack(s), FinishAudit(AuditCancelled, s.finishes)),
                    if s.finishes then RaisedCancelled else RaisedAuditError)
  {
  }

  lemma RejectedTakenBack(s: Surroundings)
    requires Unusable(s) && s.output == OutputRejected && (s.body.transactional ==> s.rollsBack)
    ensures Settled(s, Note(TakenBack(s), FinishAudit(AuditFailedOutcome, s.finishes)),
                    if s.finishes then Result(Failed, Some(OutputLimit)) else RaisedAuditError)
  {
    assert !Usable(s) && !IsCancelled(s) && FailureOf(s) == Result(Failed, Some(OutputLimit));
  }

  /** The ledger of a usable output after its success was recorded, or was not. */
  function Concluded(s: Surroundings): Ledger {
    Note(RAN, FinishAudit(AuditSucceeded, s.finishes))
  }

  /** Success on record settles a call without a transaction, and one with it once it is committed. */
  lemma RecordedSuccess(s: Surroundings)
    requires Usable(s) && s.finishes
    ensures s.body.transactional ==>
              Settled(s, Note(Concluded(s), Commit(s.commits)), if s.commits then Result(Succeeded, None) else RaisedCompensationFailed)
    ensures !s.body.transactional ==> Settled(s, Concluded(s), Result(Succeeded, None))
  {
    if s.body.transactional {
      CommittedSuccess(s);
    } else {
      PlainSuccess(s);
    }
  }

  lemma UsableIsClear(s: Surroundings)
    requires Usable(s)
    ensures MustFinish(s) && !Unusable(s) && !IsCancelled(s) && !Unhandled(s) && WhatHappened(s) == Result(Succeeded, None)
  {
  }

  lemma PlainSuccess(s: Surroundings)
    requires Usable(s) && s.finishes && !s.body.transactional
    ensures Settled(s, Concluded(s), Result(Succeeded, None))
  {
    UsableIsClear(s);
    PlainLawful(s);
    assert ExitOf(s) == Result(Succeeded, None);
  }

  lemma PlainLawful(s: Surroundings)
    requires Usable(s) && s.finishes && !s.body.transactional
    ensures Lawful(s, Concluded(s))
  {
    UsableIsClear(s);
    assert Concluded(s) == Ledger(1, 1, 1, 1, 1, 1, 0, 0, 0, 0, 0, Some(AuditSucceeded), true);
    assert !MustCommit(s) && !MustRollBack(s);
  }

  lemma CommittedSuccess(s: Surroundings)
    requires Usable(s) && s.finishes && s.body.transactional
    ensures Settled(s, Note(Concluded(s), Commit(s.commits)), if s.commits then Result(Succeeded, None) else RaisedCompensationFailed)
  {
    UsableIsClear(s);
    CommittedLawful(s);
    assert SettlementFails(s) == !s.commits;
  }

  lemma CommittedLawful(s: Surroundings)
    requires Usable(s) && s.finishes && s.body.transactional
    ensures Lawful(s, Note(Concluded(s), Commit(s.commits)))
  {
    UsableIsClear(s);
    assert Concluded(s) == Ledger(1, 1, 1, 1, 1, 1, 0, 0, 0, 0, 0, Some(AuditSucceeded), true);
    assert MustCommit(s) && !MustRollBack(s);
  }

  /** A success that is not put on record is taken back. */
  lemma RefusedSuccess(s: Surroundings)
    requires Usable(s) && !s.finishes
    ensures s.body.transactional ==>
              Settled(s, Note(Concluded(s), Rollback(s.rollsBack)), if s.rollsBack then RaisedAuditError else RaisedCompensationFailed)
    ensures !s.body.transactional ==> Settled(s, Concluded(s), RaisedAuditError)
  {
    if s.body.transactional {
      RevertedSuccess(s);
    } else {
      PlainRefusal(s);
    }
  }

  lemma PlainRefusal(s: Surroundings)
    requires Usable(s) && !s.finishes && !s.body.transactional
    ensures Settled(s, Concluded(s), RaisedAuditError)
  {
    UsableIsClear(s);
    assert Concluded(s) == Ledger(1, 1, 1, 1, 1, 0, 0, 1, 0, 0, 0, Some(AuditSucceeded), true);
    assert !MustCommit(s) && !MustRollBack(s);
  }

  lemma RevertedSuccess(s: Surroundings)
    requires Usable(s) && !s.finishes && s.body.transactional
    ensures Settled(s, Note(Concluded(s), Rollback(s.rollsBack)), if s.rollsBack then RaisedAuditError else RaisedCompensationFailed)
  {
    UsableIsClear(s);
    assert Concluded(s) == Ledger(1, 1, 1, 1, 1, 0, 0, 1, 0, 0, 0, Some(AuditSucceeded), true);
    assert !MustCommit(s) && MustRollBack(s);
  }

  lemma BodyFailed(s: Surroundings, outcome: AuditOutcome)
    requires Permitted(s) && !s.body.Returned?
    requires outcome == match s.body
                        case BodyCancelled => AuditCancelled
                        case BodyTimedOut => AuditTimedOut
                        case _ => AuditFailedOutcome
    ensures Settled(s, Note(RAN, FinishAudit(outcome, s.finishes)),
                    if !s.finishes then RaisedAuditError
                    else if s.body == BodyCancelled then RaisedCancelled else FailureOf(s))
  {
  }

  const BEGUN := Ledger(1, 0, 0, 0, 0, 0, 0, 0, 0, 0, 0, None, true)
  const EVALUATED := Ledger(1, 1, 0, 0, 0, 0, 0, 0, 0, 0, 0, None, true)
  const ALLOWED := Ledger(1, 1, 1, 0, 0, 0, 0, 0, 0, 0, 0, None, true)

  /** The ledger of a call that was begun and got no further than its permission and its input. */
  function Refusable(s: Surroundings): Ledger {
    if !s.registered || !s.declared then BEGUN else if s.permission == Allow then ALLOWED else EVALUATED
  }

  lemma NotPermitted(s: Surroundings, outcome: AuditOutcome)
    requires s.requestValid && s.begins && !Permitted(s) && !Unhandled(s)
    requires Says(outcome, FailureOf(s)) && outcome != AuditSucceeded
    ensures Settled(s, Note(Refusable(s), FinishAudit(outcome, s.finishes)),
                    if s.finishes then FailureOf(s) else RaisedAuditError)
  {
  }

  lemma NobodyHandles(s: Surroundings)
    requires Unhandled(s)
    ensures Settled(s, if Permitted(s) then RAN else Refusable(s), RaisedOther)
  {
  }

  // ---------------------------------------------------------------- what the ledger means

  lemma {:induction false} LedgerPrefix(effects: seq<Effect>, k: nat)
    requires LedgerOf(effects).inOrder && k < |effects|
    ensures LedgerOf(effects[..k]).inOrder && MayHappen(LedgerOf(effects[..k]), effects[k])
    decreases |effects|
  {
    var n := |effects| - 1;
    if k < n {
      LedgerPrefix(effects[..n], k);
      assert effects[..n][..k] == effects[..k];
    }
  }

  lemma {:induction false} OnRecord(effects: seq<Effect>, allowed: bool) returns (i: nat)
    requires if allowed then LedgerOf(effects).allowed > 0 else LedgerOf(effects).successes > 0
    ensures i < |effects|
    ensures effects[i] == if allowed then Evaluate(Allow) else FinishAudit(AuditSucceeded, true)
  {
    var n := |effects| - 1;
    if effects[n] == if allowed then Evaluate(Allow) else FinishAudit(AuditSucceeded, true) {
      i := n;
    } else {
      i := OnRecord(effects[..n], allowed);
    }
  }

  /** In an orderly trace a transaction is committed only after its success is on record, and a
      body runs only after its permission was evaluated as allowed. */
  lemma OrderedEffects(effects: seq<Effect>, k: nat)
    requires LedgerOf(effects).inOrder && k < |effects|
    ensures effects[k].Commit? ==> FinishAudit(AuditSucceeded, true) in effects[..k]
    ensures effects[k].RunBody? ==> Evaluate(Allow) in effects[..k]
  {
    LedgerPrefix(effects, k);
    if effects[k].Commit? {
      var i := OnRecord(effects[..k], false);
    } else if effects[k].RunBody? {
      var i := OnRecord(effects[..k], true);
    }
  }

  /** The finished audits of an effect sequence are as many as its ledger counts, and the last one is
      the one it remembers. */
  lemma {:induction false} FinishRemembered(effects: seq<Effect>, e: Effect)
    requires LedgerOf(effects).finishes <= 1 && e in effects && e.FinishAudit?
    ensures LedgerOf(effects).concluded == Some(e.outcome)
  {
    var n := |effects| - 1;
    if effects[n].FinishAudit? {
      if e in effects[..n] {
        FinishCounted(effects[..n], e);
      }
    } else {
      FinishRemembered(effects[..n], e);
    }
  }

  lemma {:induction false} FinishCounted(effects: seq<Effect>, e: Effect)
    requires e in effects && e.FinishAudit?
    ensures LedgerOf(effects).finishes >= 1
  {
    var n := |effects| - 1;
    if !effects[n].FinishAudit? {
      FinishCounted(effects[..n], e);
    }
  }

  /** Whatever is put on record of a call agrees with what its caller is told, and whatever is tried to
      be put on record with what the tool did. */
  ghost predicate AuditAgrees(s: Surroundings, effects: seq<Effect>, exit: Exit) {
    forall e <- effects :: e.FinishAudit? ==> Says(e.outcome, exit) && Says(e.outcome, WhatHappened(s))
  }

  lemma SettledAgrees(s: Surroundings, effects: seq<Effect>, exit: Exit)
    requires Settled(s, LedgerOf(effects), exit)
    ensures AuditAgrees(s, effects, exit)
  {
    forall e | e in effects && e.FinishAudit?
      ensures Says(e.outcome, exit) && Says(e.outcome, WhatHappened(s))
    {
      FinishRemembered(effects, e);
    }
  }

  /** What the agent runtime sees of a call that was not interrupted by its own deadline. */
  function ForRuntime(exit: Exit): RuntimeLog.ToolReply {
    match exit
    case RaisedAuditError => RuntimeLog.ToolAuditErr
    case RaisedCancelled => RuntimeLog.ToolCancel
    case Result(status, code) =>
      RuntimeLog.Result(
        match status
        case Succeeded => RuntimeLog.ToolSucceeded
        case Failed => RuntimeLog.ToolFailed
        case Denied => RuntimeLog.ToolDenied
        case TimedOut => RuntimeLog.ToolTimedOut,
        match code
        case None => None
        case Some(PermissionDenied) => Some(RuntimeTrace.Denial)
        case Some(ApprovalRequired) => Some(RuntimeTrace.ApprovalNeeded)
        case Some(AuditFailed) => Some(RuntimeTrace.AuditCode)
        case Some(_) => Some(RuntimeTrace.OtherCode("tool error")))
    case _ => RuntimeLog.ToolUndeclared
  }

  /** The runtime sees the status of every result, and tells a denial and a missing approval apart. */
  lemma RuntimeSeesResult(exit: Exit)
    requires exit.Result?
    ensures ForRuntime(exit).Result?
    ensures ForRuntime(exit).status == RuntimeLog.ToolSucceeded <==> exit.status == Succeeded
    ensures ForRuntime(exit).status == RuntimeLog.ToolDenied <==> exit.status == Denied
    ensures ForRuntime(exit).status == RuntimeLog.ToolTimedOut <==> exit.status == TimedOut
    ensures ForRuntime(exit).code == Some(RuntimeTrace.Denial) <==> exit.code == Some(PermissionDenied)
    ensures ForRuntime(exit).code == Some(RuntimeTrace.ApprovalNeeded) <==> exit.code == Some(ApprovalRequired)
    ensures ForRuntime(exit).code.None? <==> exit.code.None?
  {
  }

  /** The executor stays within what the runtime declares of its tools exactly when the request is
      valid, every exception is expected, and the settlement that is due does not fail: the error for
      a failed compensation is one the runtime has no handler for. */
  lemma DeclaredForRuntime(s: Surroundings)
    ensures ForRuntime(ExitOf(s)).ToolUndeclared? <==> !s.requestValid || Unhandled(s) || SettlementFails(s)
  {
    if s.requestValid && s.begins && !Unhandled(s) && !SettlementFails(s) && s.finishes && !IsCancelled(s) {
      assert ExitOf(s).Result?;
    }
  }

  /** A call in which only the commit fails, after its success was put on record. */
  lemma FailedCommitIsUndeclared() returns (s: Surroundings, effects: seq<Effect>)
    ensures s == Surroundings(true, true, true, true, Allow, Accepted, Returned(true), OutputAccepted, true, false, true)
    ensures effects == [Begin(true), Evaluate(Allow), RunBody, FinishAudit(AuditSucceeded, true), Commit(false)]
    ensures Settled(s, LedgerOf(effects), RaisedCompensationFailed)
    ensures ForRuntime(ExitOf(s)) == RuntimeLog.ToolUndeclared
  {
    s := Surroundings(true, true, true, true, Allow, Accepted, Returned(true), OutputAccepted, true, false, true);
    RecordedSuccess(s);
    effects := [];
    effects := Noted(effects, BLANK, Begin(true));
    effects := Noted(effects, BEGUN, Evaluate(Allow));
    effects := Noted(effects, ALLOWED, RunBody);
    effects := Noted(effects, RAN, FinishAudit(AuditSucceeded, true));
    effects := Noted(effects, Concluded(s), Commit(false));
  }

  lemma Noted(effects: seq<Effect>, l: Ledger, e: Effect) returns (more: seq<Effect>)
    requires LedgerOf(effects) == l
    ensures more == effects + [e] && LedgerOf(more) == Note(l, e)
  {
    more := effects + [e];
    assert more[..|effects|] == effects;
  }

  class ToolExecutor {
    var effects: seq<Effect>

    constructor ()
      ensures effects == []
    {
      effects := [];
    }

    /** One effect on the collaborators. */
    method Do(e: Effect)
      modifies this
      ensures effects == old(effects) + [e]
      ensures LedgerOf(effects) == Note(old(LedgerOf(effects)), e)
    {
      assert (effects + [e])[..|effects|] == effects;
      effects := effects + [e];
    }

    method TryFinish(s: Surroundings, outcome: AuditOutcome) returns (ok: bool)
      modifies this
      ensures LedgerOf(effects) == Note(old(LedgerOf(effects)), FinishAudit(outcome, s.finishes))
      ensures ok == s.finishes
    {
      ok := s.finishes;
      Do(FinishAudit(outcome, ok));
    }

    method FailureResult(s: Surroundings, status: ResultStatus, outcome: AuditOutcome, code: ErrorCode)
      returns (exit: Exit)
      modifies this
      ensures LedgerOf(effects) == Note(old(LedgerOf(effects)), FinishAudit(outcome, s.finishes))
      ensures exit == if s.finishes then Result(status, Some(code)) else RaisedAuditError
    {
      var ok := TryFinish(s, outcome);
      exit := if ok then Result(status, Some(code)) else RaisedAuditError;
    }

    /** Rolls back the transaction if there is one. */
    method TryRollback(s: Surroundings, transactional: bool) returns (ok: bool)
      modifies this
      ensures LedgerOf(effects) == if transactional then Note(old(LedgerOf(effects)), Rollback(s.rollsBack)) else old(LedgerOf(effects))
      ensures ok <==> !transactional || s.rollsBack
    {
      ok := true;
      if transactional {
        ok := s.rollsBack;
        Do(Rollback(ok));
      }
    }

    method TryCommit(s: Surroundings, transactional: bool) returns (ok: bool)
      modifies this
      ensures LedgerOf(effects) == if transactional then Note(old(LedgerOf(effects)), Commit(s.commits)) else old(LedgerOf(effects))
      ensures ok <==> !transactional || s.commits
    {
      ok := true;
      if transactional {
        ok := s.commits;
        Do(Commit(ok));
      }
    }

    /** Takes back a body whose output cannot be used. */
    method Compensate(s: Surroundings) returns (exit: Exit)
      requires Unusable(s) && LedgerOf(effects) == RAN
      modifies this
      ensures Settled(s, LedgerOf(effects), exit)
    {
      var ok := TryRollback(s, s.body.transactional);
      assert LedgerOf(effects) == TakenBack(s);
      if !ok {
        NotTakenBack(s);
        exit := RaisedCompensationFailed;
      } else if s.output == OutputCancelled {
        CancelledTakenBack(s);
        ok := TryFinish(s, AuditCancelled);
        exit := if ok then RaisedCancelled else RaisedAuditError;
      } else {
        RejectedTakenBack(s);
        exit := FailureResult(s, Failed, AuditFailedOutcome, OutputLimit);
      }
    }

    /** Audits a usable output, then commits; a failed audit rolls back instead. */
    method Conclude(s: Surroundings) returns (exit: Exit)
      requires Usable(s) && LedgerOf(effects) == RAN
      modifies this
      ensures Settled(s, LedgerOf(effects), exit)
    {
      var ok := TryFinish(s, AuditSucceeded);
      assert LedgerOf(effects) == Concluded(s);
      if !ok {
        RefusedSuccess(s);
        ok := TryRollback(s, s.body.transactional);
        exit := if ok then RaisedAuditError else RaisedCompensationFailed;
      } else {
        RecordedSuccess(s);
        ok := TryCommit(s, s.body.transactional);
        exit := if ok then Result(Succeeded, None) else RaisedCompensationFailed;
      }
    }

    /** Settles a body that returned, by what its output turns out to be. */
    method Unwrap(s: Surroundings) returns (exit: Exit)
      requires Permitted(s) && s.body.Returned? && LedgerOf(effects) == RAN
      modifies this
      ensures Settled(s, LedgerOf(effects), exit)
    {
      match s.output {
        case OutputCrash =>
          NobodyHandles(s);
          exit := RaisedOther;
        case OutputAccepted => exit := Conclude(s);
        case OutputCancelled | OutputRejected => exit := Compensate(s);
      }
    }

    /** Reports a body that did not return. */
    method Abort(s: Surroundings) returns (exit: Exit)
      requires Permitted(s) && !s.body.Returned? && LedgerOf(effects) == RAN
      modifies this
      ensures Settled(s, LedgerOf(effects), exit)
    {
      if s.body == BodyCancelled {
        BodyFailed(s, AuditCancelled);
        var ok := TryFinish(s, AuditCancelled);
        exit := if ok then RaisedCancelled else RaisedAuditError;
      } else if s.body == BodyTimedOut {
        BodyFailed(s, AuditTimedOut);
        exit := FailureResult(s, TimedOut, AuditTimedOut, ToolTimedOut);
      } else {
        BodyFailed(s, AuditFailedOutcome);
        var code := if s.body.BodyToolError? then s.body.code else ToolFailed;
        exit := FailureResult(s, Failed, AuditFailedOutcome, code);
      }
    }

    /** Runs the permitted body once. */
    method RunTool(s: Surroundings) returns (exit: Exit)
      requires Permitted(s) && LedgerOf(effects) == ALLOWED
      modifies this
      ensures Settled(s, LedgerOf(effects), exit)
    {
      Do(RunBody);
      if s.body.Returned? {
        exit := Unwrap(s);
      } else {
        exit := Abort(s);
      }
    }

    /** Reports a permission that was not granted. */
    method Refuse(s: Surroundings) returns (exit: Exit)
      requires s.requestValid && s.begins && s.registered && s.declared && s.permission != Allow
      requires LedgerOf(effects) == EVALUATED
      modifies this
      ensures Settled(s, LedgerOf(effects), exit)
    {
      match s.permission {
        case PermissionCrash =>
          NobodyHandles(s);
          exit := RaisedOther;
        case PermissionError =>
          NotPermitted(s, AuditFailedOutcome);
          exit := FailureResult(s, Failed, AuditFailedOutcome, PermissionAuditFailed);
        case Ask =>
          NotPermitted(s, AuditDenied);
          exit := FailureResult(s, Denied, AuditDenied, ApprovalRequired);
        case Deny =>
          NotPermitted(s, AuditDenied);
          exit := FailureResult(s, Denied, AuditDenied, PermissionDenied);
      }
    }

    /** Evaluates the permission and validates the input. */
    method Authorise(s: Surroundings) returns (exit: Exit)
      requires s.requestValid && s.begins && s.registered && s.declared && LedgerOf(effects) == BEGUN
      modifies this
      ensures Settled(s, LedgerOf(effects), exit)
    {
      Do(Evaluate(s.permission));
      if s.permission != Allow {
        exit := Refuse(s);
      } else {
        match s.input {
          case InputCrash =>
            NobodyHandles(s);
            exit := RaisedOther;
          case Rejected =>
            NotPermitted(s, AuditFailedOutcome);
            exit := FailureResult(s, Failed, AuditFailedOutcome, InvalidInput);
          case Accepted => exit := RunTool(s);
        }
      }
    }

    /** One call, from its request to its exit. */
    method Execute(s: Surroundings) returns (exit: Exit)
      modifies this
      ensures Settled(s, LedgerOf(effects), exit)
      ensures AuditAgrees(s, effects, exit)
    {
      effects := [];
      if !s.requestValid {
        exit := RaisedInputError;
      } else {
        Do(Begin(s.begins));
        if !s.begins {
          exit := RaisedAuditError;
        } else if !s.registered {
          NotPermitted(s, AuditDenied);
          exit := FailureResult(s, Denied, AuditDenied, ToolNotFound);
        } else if !s.declared {
          NotPermitted(s, AuditDenied);
          exit := FailureResult(s, Denied, AuditDenied, ToolNotDeclared);
        } else {
          exit := Authorise(s);
        }
      }
      SettledAgrees(s, effects, exit);
    }
  }
}
