# A model of the governed agent workflow, with proofs

This project models the stateful cores of an engine in which software agents develop, review, test
and secure changes under deterministic control, and proves what those cores promise. It covers:

* the **task workflow protocol**: the task state machine, the durable checkpoints of the
  Developer-Reviewer loop and of the QA and Security stages, and every interleaving of them
  (`TaskProtocol`, `TaskSafety`, `StageFreshness`, `CheckpointSession`, `WorkflowRuns`,
  `WorkflowSchedule`, `WorkflowOrchestration`);
* the **bounded agent runtime** with its audit trace and its stagnation detector (`RuntimeTrace`,
  `RuntimeLog`, `AgentRuntime`, `Stagnation`);
* the **tool executor lifecycle** (`ToolExecution`);
* the **scheduler over the matcher** (`AgentMatching`, `ProjectScheduling`);
* the **workstream dependency check** (`WorkstreamGraph`);
* the **evidence gates**: the Security decision and the redaction before it (`SecurityEvidence`,
  `SecurityGate`, `SecurityVeto`, `SecurityDisclosure`, `TextBounds`, `SecretRedaction`,
  `RedactionSafety`), the Reviewer gate (`ReviewScore`, `ReviewerGate`, `ReviewVerdict`) and the budget
  gate (`BudgetGate`).

`Wrappers`, `Sequences`, `Sorting` and `FixedPoint` hold the shared vocabulary. `dafny verify
dfyconfig.toml` checks everything.

## How it is modelled

**One task, many runs.** The committed part of a task is a `World`: its row and its append-only event
log. Every checkpoint is one transaction under the row lock, so it is one `Action` that commits as a
whole or leaves the world as it was. Any number of runs with any failures is then a sequence of
actions. Other actors may take every allowed edge except the entries into WAITING_QA,
WAITING_SECURITY and COMPLETED. `CheckpointSession.Session` shows that a real session with in-memory
fields, staged events, faults at every external call and a rollback that may itself fail does
implement these atomic actions; `WorkflowOrchestrator` runs on such a session.

**Surroundings as data.** What reasoners, tools, recorders, databases, collaborators and deadlines do
is a parameter: an arbitrary function of the moment at which they are asked. A theorem about a method
therefore holds for everything they may do. What a run owes to its surroundings is stated over that
parameter: `WorkflowSchedule` gives the point at which a run left alone ends and how, and `RuntimeLog`
gives what the answers to the calls of a trace come to, so that neither is taken from the run itself.

**Numbers.** Scores are whole ten-thousandths and their rounding is explicit. Confidences, durations
and costs are reals. Identifiers made by the system are fresh numbers, and a digest stands for the
value it digests. A commit that raises is taken as not committed.

## What the proofs found

* A checkpoint never clears the assignee. Once a run has claimed a task, no later run can claim it,
  even after an escalation brought it back to READY, unless some other actor clears the assignee
  (`ClaimedOnce`).
* A Security run that never records its end shuts out every later Security start on the task
  (`AbandonedClaimBlocks`).
* The guards of a completion look at the whole log, not at the current visit. A task can enter
  WAITING_SECURITY a second time with changed work and be completed on the start of its first visit
  (`StaleStartCompletes`); `FreshUnlessOpenOnEntry` says exactly when that happens, for QA too.
* A runtime run within its declared limits can count more tokens, or one more failure, than an audit
  record may hold. The run then raises and leaves its step open. `Run` and `OutgrownRunEscapes`
  together say for exactly which limits: those with more than one token to spend, and those with 100
  failures whose iterations, together with the tool calls they can make, are at least 100. A recorder that fails
  while a timeout is recorded makes the run raise instead of returning its timeout.
* The error a tool executor raises for a failed commit or rollback is not one the agent runtime
  handles (`DeclaredForRuntime`).
* A model that requests changes can score higher than one that approves the same findings, because the
  blocker this adds may push a critical finding out of the 64 that are retained
  (`RequestingChangesRaisesScore`); `RequestingChangesMayRaiseScore` says exactly when.

## Model

| member | source | states |
|---|---|---|
| TaskSafety.RunsKeepChain | core/tasks/state_machine.py:109-166 | In every interleaving of transactions with failures anywhere, the committed status events lead along allowed edges from the first status to the stored one |
| TaskSafety.RunsKeepEvidence | core/workflows/audit.py:325-366 | Every entry into a gated status is followed in its transaction by the approving event of its agent, and every claim, QA and Security verdict is preceded by exactly the status change it stands for |
| TaskSafety.CompletionIsGated | core/tasks/state_machine.py:16-83 | Every log that ends in COMPLETED after an entry into IN_PROGRESS, and every one of a task that did not start in development, has after its last such entry WAITING_REVIEW, WAITING_QA, WAITING_SECURITY and COMPLETED and nothing else, the last three with an APPROVED review, a PASSED QA and a PASS Security event |
| TaskSafety.OneWinnerPerVisit | core/workflows/audit.py:484-500 | Between two claims of a READY task, or two terminal events of a QA or Security stage, the task entered that status again: no claim and no visit is won twice |
| TaskSafety.ClaimedOnce | core/workflows/audit.py:280-292 | Unless another actor clears the assignee, a task is claimed at most once over its whole log |
| TaskSafety.RunsKeepStageClaims | core/workflows/security_audit.py:312-386 | At every moment of every log each Security correlation, and each QA correlation and actor, has at most one start and at most one later terminal event, and at most one Security correlation is open |
| TaskSafety.StagesSettleOnce | core/workflows/security_audit.py:355-386 | Every end of a QA or Security stage has exactly one start of its own before it, and that start has no other end, whatever runs interleave and fail |
| TaskSafety.GuardAdmits | core/workflows/qa_audit.py:296-324 | The counting queries of the QA and Security guards admit only events that keep the stage claims |
| TaskSafety.AbandonedClaimBlocks | core/workflows/security_audit.py:112-126 | A Security claim that is not settled stays open through any interleaving, and every later Security start is rejected |
| TaskSafety.FinalStays | core/tasks/state_machine.py:76-83 | Once a task is COMPLETED or CANCELLED, no interleaving changes its status or adds an event to its log |
| TaskSafety.FinalOrCancellable | core/tasks/state_machine.py:16-83 | Only these two statuses are final: out of every other one a task may be cancelled |
| StageFreshness.FreshUnlessOpenOnEntry | core/workflows/security_audit.py:358-386 | The start behind a QA or Security verdict belongs to the visit it ends if and only if its lane was not still open when the task entered that status |
| StageFreshness.StaleStartCompletes | core/workflows/security_audit.py:128-184 | From a new task, two legal Developer-Reviewer runs and their QA lead to WAITING_SECURITY twice, and the work of the second visit is COMPLETED on the Security start recorded in the first |
| CheckpointSession.Session.Stage | core/workflows/audit.py:280-421 | Staging checks the log and the input first, then sets the fields and adds exactly the batch of its step; it may break off at any effect with any fault, which it reports |
| CheckpointSession.Session.Transact | core/workflows/audit.py:436-462 | Lock, compare, stage and commit change the store exactly by the specified step, or not at all, and succeed exactly when nothing fails and the step is enabled |
| CheckpointSession.Session.CommitCheckpoint | core/workflows/audit.py:423-477 | A checkpoint is the specified step or no step; a failure carries the code of the first thing to fail (connection, lock, unexpected row, guard, staging, forbidden edge, commit), by a table of its own, unless the rollback fails too, which is a persistence failure and poisons the session; a failed checkpoint leaves nothing staged and shows the stored fields again |
| CheckpointSession.Session.Recover | core/workflows/audit.py:529-577 | Recovery rolls back and restores the snapshotted fields of the task object, for Developer-Reviewer runs the assignee too |
| WorkflowRuns.LegalShape | core/workflows/orchestrator.py:92-211 | A legal history is the claim, then rounds of the same four checkpoints numbered from one to at most the limit, then at most one ending; every earlier review asked for changes and exhaustion comes exactly at the limit |
| WorkflowRuns.AloneRunCommits | core/workflows/audit.py:97-278 | From a READY and unassigned task every legal history commits in full: the row is where its last checkpoint leads and the log grows by exactly its batches |
| WorkflowSchedule.FirstFailure | core/workflows/audit.py:436-477 | On the row it expects a checkpoint fails exactly when something around it fails or its review is out of range, and with the code of the first such fault or of the failed rollback |
| WorkflowSchedule.EndIsUnique | core/workflows/orchestrator.py:92-160 | A run that is left alone ends at one point only, the first at which something ends it |
| WorkflowOrchestration.WorkflowOrchestrator.Escalate | core/workflows/orchestrator.py:276-304 | After whatever others commit, the recovery of a failed run writes its own step on the row with the tracked status and the developer, or nothing at all; left alone it reports the code it recorded unless something around it fails, and then the public form of that |
| WorkflowOrchestration.WorkflowOrchestrator.Await | core/workflows/orchestrator.py:118-160 | Without interference the status a run tracks is the stored one at every await |
| WorkflowOrchestration.WorkflowOrchestrator.CommitOwn | core/workflows/orchestrator.py:108-203 | One checkpoint of a run extends its legal history by exactly that step on the row it expects, or leaves the store as it was |
| WorkflowOrchestration.WorkflowOrchestrator.Cycle | core/workflows/orchestrator.py:115-160 | One review cycle stops the run at a verdict or a failure, or leaves it with requested changes below the limit |
| WorkflowOrchestration.WorkflowOrchestrator.Settle | core/workflows/orchestrator.py:164-211 | A run is cancelled exactly when its exit is, and then writes nothing more; a failed one is escalated unless its row was not as expected, and reports the code it recorded |
| WorkflowOrchestration.WorkflowOrchestrator.Run | core/workflows/orchestrator.py:61-211 | A whole run is an interleaving of a legal history with what others commit; it is approved exactly when its last own checkpoint is an approving review, exhausted exactly when it is the escalation at the limit, and cancelled only when a collaborator was; alone, on a task it may claim, the first moment at which a collaborator raises, is timed out or cancelled, a handoff is unsafe, a checkpoint fails, a review approves or the cycles are used up decides the result, the number of checkpoints committed and whether, and with which code, the task is handed to a human; the log grows by exactly its events; without any interference or failure it ends with a verdict, and in its first cycle when its reviews approve |
| RuntimeTrace.LastWord | core/runtime/runtime.py:437-508 | In a trace of the grammar a terminal record, and a refused one, comes last: at most one terminal reason, and no call after the recorder failed |
| RuntimeTrace.StepsDoNotOverlap | core/runtime/runtime.py:331-349 | Between the start of a step and the record that closes it there is at most the step's own call |
| RuntimeTrace.ClosesItsOwnStep | core/runtime/runtime.py:437-476 | Every closing record follows its own call and its own start |
| RuntimeTrace.SoundMeans | core/runtime/runtime.py:96-349 | The running tally of a trace is its phase in the grammar, its number of tool starts and its failures; every record counts the tool calls and failures before it, and every reasoning call was made below the token limit |
| RuntimeLog.LastEntriesAppend | core/runtime/runtime.py:534-547 | A bounded history that drops its oldest entry holds the last entries of everything appended |
| RuntimeLog.LoggedMeans | core/runtime/runtime.py:437-476 | Every record of the trace is true of the answers before it: it counts their tokens and iterations, a step begins only where a decision, a tool result or a verification calls for it, and a closing record tells how its own call was answered |
| RuntimeLog.AlikeHaveOnePrint | core/runtime/stagnation.py:29-48 | Two rounds have one fingerprint exactly when their decisions agree in action and tool, their arguments share a skeleton, and their verifications and tool codes agree |
| RuntimeLog.StagnantIsStuck | core/runtime/stagnation.py:29-48 | The detector finds a run stagnant exactly when the last window of its rounds are alike |
| AgentRuntime.RuntimeRun.Reason | core/runtime/runtime.py:331-349 | A reasoning call opens its step, counts its tokens and closes the step, adding to the log exactly what its answer calls for, or stops the run in a state that says why |
| AgentRuntime.RuntimeRun.FinishRun | core/runtime/runtime.py:364-397 | Finishing a run asks for at most one more report, counts at most one more failure, and ends with one terminal record of an accepted status and reason; within the budget it ends for the reason asked for |
| AgentRuntime.RuntimeRun.Execute | core/runtime/runtime.py:96-329 | Every way out of the loop ends the run inside the grammar with truthful counters |
| AgentRuntime.RuntimeRun.Run | core/runtime/runtime.py:68-547 | On every exit iterations, tool calls, tokens and failures are within their exact bounds; the trace is in the grammar, every record in it is true of the answers before it, and the history holds the last of the entries those answers give; a run ends as stagnant only when the last window of rounds verified CONTINUE are alike, which they never were before, and a run in which they are ends for nothing else unless its report is cut short; every other reason is borne out by the counters or the last answer; with declared collaborators and a reliable recorder exactly one terminal record ends the trace unless a counter outgrows its record, which all limits that do not leave room for it rule out; a first decision to stop within the budget ends the run for that reason |
| AgentRuntime.TokensOutgrowTheRecord | core/runtime/audit.py:45 | For all limits with more than one token, declared collaborators make a whole run count more tokens than a record holds, and escape |
| AgentRuntime.FailuresOutgrowTheRecord | core/runtime/audit.py:44 | For all limits with 100 failures and room for as many, one for each iteration and one for each tool call, declared collaborators make a whole run count one more, and escape |
| AgentRuntime.OutgrownRunEscapes | core/runtime/runtime.py:437-508 | The limits whose runs stay inside their records are exactly those that leave no such room: for all others this run escapes |
| Stagnation.ShapeIsSkeleton | core/runtime/stagnation.py:54-67 | Two argument trees have the same shape exactly when they share a skeleton, whatever their scalars of one kind and the order of their keys |
| Stagnation.CanonicalMeans | core/runtime/stagnation.py:36-44 | Two observations have one fingerprint exactly when they agree in action, tool, outcome and error code and their arguments share a skeleton |
| Stagnation.LastRunIsStagnation | core/runtime/stagnation.py:29-48 | The queue that is cleared on a change is full exactly when the last observations of the window exist and are equal |
| Stagnation.StagnationDetector.Observe | core/runtime/stagnation.py:29-48 | An observation is stagnant if and only if the last window of all observations ever made exist and are equal |
| ToolExecution.OrderedEffects | core/tools/executor.py:72-268 | A commit has its success on record before it, and a body runs only after its permission was allowed |
| ToolExecution.ExitMatchesLedger | core/tools/executor.py:72-268 | The exit agrees with the effects: success is returned only on record and settled, a refused record and a failed settlement are never hidden, and every result has its audit finished |
| ToolExecution.FailureMeans | core/tools/executor.py:72-222 | A result other than success is denied, timed out or failed, and carries its code, exactly for the tools, permissions and bodies that call for it |
| ToolExecution.SettledAgrees | core/tools/executor.py:162-268 | Every finished audit of a call says what the caller is told and what the tool did |
| ToolExecution.RuntimeSeesResult | core/runtime/runtime.py:219-268 | The runtime sees the status of every result and tells a denial from a missing approval |
| ToolExecution.DeclaredForRuntime | core/tools/executor.py:279-305 | The exit is outside the errors the runtime handles if and only if the request is invalid, an exception is unexpected, or the commit or rollback that is due fails |
| ToolExecution.FailedCommitIsUndeclared | core/tools/executor.py:293-305 | A call in which only the commit fails, after its success was recorded, and its exit |
| ToolExecution.ToolExecutor.Compensate | core/tools/executor.py:224-251 | A body whose output is cancelled or rejected is rolled back, and its audit finished unless the rollback fails; the exit is the one its surroundings determine |
| ToolExecution.ToolExecutor.Conclude | core/tools/executor.py:253-268 | A usable output is put on record and then committed; a failed record rolls back instead; the exit is the one its surroundings determine |
| ToolExecution.ToolExecutor.Execute | core/tools/executor.py:72-268 | For all outcomes of its collaborators: effects come in order, the body runs exactly once when permitted and never otherwise, the transaction that is due is settled by exactly one of commit and rollback, the audit that is due is finished exactly once with the outcome the caller is told, or with what the tool did when the record is refused, every failure of these shows in the ledger, and the exit is exactly determined |
| AgentMatching.RejectedIffIneligible | core/agent_registry/matcher.py:106-146 | A candidate has reasons for rejection exactly when it fails an eligibility condition |
| AgentMatching.ReasonsSayWhy | core/agent_registry/matcher.py:106-146 | A reason for rejection is given exactly when it applies, with exactly the capabilities and permissions that are missing |
| AgentMatching.ScoreInRange | core/agent_registry/matcher.py:148-196 | The score lies between zero and one |
| AgentMatching.ScoreMonotone | core/agent_registry/matcher.py:148-188 | The score is monotone in every factor despite both roundings |
| AgentMatching.ScoreAccuracy | core/agent_registry/matcher.py:190-192 | The score differs from the exact weighted sum by at most 0.0000675 |
| AgentMatching.CandidateScore | core/agent_registry/matcher.py:148-192 | The score of a candidate is the weighted sum of its own expertise, reputation, reliability, seniority and cost, up to that rounding |
| AgentMatching.ScoreAccuracyIsTight | core/agent_registry/matcher.py:148-192 | A candidate for which the score is that far off |
| AgentMatching.Match | core/agent_registry/matcher.py:45-72 | Of valid candidates the result lists eligible ones with their scores in strict order, as many as the limit allows; every eligible one left out scores lower than each one listed, or equal with a higher identifier; and all others are rejected once, by identifier, with their reasons |
| AgentMatching.RankedOrRejected | core/agent_registry/matcher.py:56-66 | Before the limit every candidate is ranked with its score or rejected with its reasons, and never both |
| AgentMatching.MatchedKeepsBest | core/agent_registry/matcher.py:66-72 | The limit keeps the best: whoever it cuts trails everyone kept |
| AgentMatching.MatchedRejectsRest | core/agent_registry/matcher.py:56-72 | The rejections are those of the ineligible candidates, each once and in order of identifiers |
| AgentMatching.MatchingIsOrderFree | core/agent_registry/matcher.py:45-72 | Permuting the candidates leaves the result unchanged |
| ProjectScheduling.PicksAreFeasible | core/scheduling/scheduler.py:36-58 | Greedy choice gives distinct free agents out of the match lists |
| ProjectScheduling.UnassignedIsSaturated | core/scheduling/scheduler.py:40-46 | A request left unassigned has every match active or claimed before it |
| ProjectScheduling.GreedyIsPareto | core/scheduling/scheduler.py:29-58 | Any feasible assignment that leaves no request worse off is the same assignment |
| ProjectScheduling.ScheduleGives | core/scheduling/scheduler.py:47-58 | Every assignment carries the project, task and priority of a request and an agent and score of its match list |
| ProjectScheduling.ScheduleServes | core/scheduling/scheduler.py:29-53 | A request with a free match is served with it or better, or loses it to a request of at least its priority |
| ProjectScheduling.ProjectScheduler.Schedule | core/scheduling/scheduler.py:21-58 | Scheduling appends exactly the greedy choice in order of priority to the history and the active map, each assignment for its own request and each request served as it ranks, keeps every active assignment, and rejects invalid candidates before any effect |
| ProjectScheduling.ProjectScheduler.ReleaseProject | core/scheduling/scheduler.py:60-76 | Release turns exactly the project's active entries to RELEASED in place, removes exactly them from the active map, and returns their number; each agent stays active at most once and the ACTIVE entries are the map's values |
| WorkstreamGraph.StuckHasCycle | core/domain_decomposition/types.py:179-182 | When every remaining node depends on a remaining node there is a cycle |
| WorkstreamGraph.LayersAreLongestChains | core/domain_decomposition/types.py:177-185 | The layer in which a node is resolved is the length of its longest dependency chain |
| WorkstreamGraph.Resolve | core/domain_decomposition/types.py:177-185 | The loop terminates and accepts exactly the acyclic graphs, with a topological layering by longest chains |
| WorkstreamGraph.CountDomains | core/domain_decomposition/types.py:170-174 | The counts are how often each domain is named over all workstreams |
| WorkstreamGraph.RequireValid | core/domain_decomposition/types.py:156-185 | A decomposition is accepted if and only if identifiers and names are unique, dependencies known, no domain overused and the graph acyclic; otherwise the first failing condition is reported |
| WorkstreamGraph.SelfDependencyIsCyclic | core/domain_decomposition/types.py:138-139 | A workstream that depends on itself is a cycle |
| SecurityGate.GatherDoubts | core/security/decision.py:111-133 | The leading reasons are exactly those that hold, in their fixed order |
| SecurityGate.IndexReferences | core/security/decision.py:150-153 | The index holds for each identifier exactly the references of all findings that carry it |
| SecurityGate.AdoptProposals | core/security/decision.py:154-172 | A proposal becomes a suspected finding; an identifier resolves exactly when one reference carries it, and is in doubt otherwise |
| SecurityGate.Decide | core/security/decision.py:104-206 | The result is the verdict over all findings and reasons, and shows the strongest 64 findings, rewritten for disclosure, with every reason once |
| SecurityVeto.VerdictMeaning | core/security/decision.py:111-186 | Over all findings and reasons, BLOCK if and only if there is a veto in the deterministic evidence, PASS if and only if all evidence is clean, WARN otherwise |
| SecurityVeto.DecisionMeaning | core/security/decision.py:174-186 | BLOCK if and only if the source itself leaks a secret or a scanner on the trust list, other than the gate itself, confirms a high or critical finding in scope with evidence of its own; PASS if and only if all evidence is complete, current, trusted, confident and free of findings and doubts |
| SecurityVeto.BlockIgnoresProvider | core/security/decision.py:154-174 | Two evaluations that differ in the provider's analysis alone agree on BLOCK |
| SecurityVeto.WorseningIsMonotone | core/security/decision.py:104-186 | Adding findings or doubts never moves the decision towards PASS |
| SecurityVeto.CutKeepsVetoes | core/security/decision.py:174-181 | Sorting before the cut keeps, of the vetoes, what would be kept of them alone |
| SecurityVeto.ShownVetoesIgnoreProvider | core/security/decision.py:174-191 | The vetoes shown after the cut and the disclosure do not depend on the provider: it can neither crowd one out nor add one |
| SecurityVeto.NoReasonIsCut | core/security/decision.py:188-188 | The limit of 16 reasons never cuts any |
| SecurityVeto.ResultIsValid | core/security/types.py:319-350 | After sorting, cutting and rewriting, every result keeps its findings well formed and its decision borne out by what it shows, and no finding shows sensitive text |
| SecurityVeto.BuildResult | core/security/decision.py:54-101 | Malformed evidence is refused before a malformed analysis, an invalid handoff gets the fixed warning, and everything else a valid decision |
| SecurityDisclosure.KeptIsStrongest | core/security/decision.py:175-181 | The cut keeps as many findings as fit, and every copy it loses is outlasted by each one kept: vetoes before all others, then the severer |
| SecurityDisclosure.PublicFindingShows | core/security/decision.py:266-294 | A finding is shown field by field, each text as it is unless it is sensitive, and each reference once |
| SecurityDisclosure.HarmlessIsUnchanged | core/security/decision.py:266-294 | A finding with nothing sensitive in it is shown unchanged |
| SecurityDisclosure.InScopeMeans | core/security/decision.py:209-220 | A place is in scope when it has no path, or ends within the diff or within the last file of its name |
| SecurityDisclosure.LinesAreCounted | core/security/decision.py:220-220 | A text counts as many lines as it falls into, each over at its break, with a return and a line feed as one |
| SecurityDisclosure.ReasonsHold | core/security/decision.py:111-176 | A reason is given exactly when it holds of the evidence |
| SecurityDisclosure.ResultShowsStrongest | core/security/decision.py:104-206 | Every result shows the strongest of the findings that the request, the scanner and the provider contribute, rewritten field by field, and each reason that holds once |
| SecurityDisclosure.RationaleIsTold | core/security/decision.py:202-203 | The rationale names the decision and then tells what the provider said, or that it was withheld |
| SecurityEvidence.PublicFindingValid | core/security/decision.py:266-294 | Rewriting a finding for disclosure keeps it well formed and keeps whether it is a veto |
| SecurityEvidence.PublicFindingDiscloses | core/security/decision.py:262-294 | No text of a disclosed finding is sensitive, save for the fixed replacements |
| TextBounds.RoundTrip | core/security/redaction.py:182-187 | Decoding an encoded text gives the text |
| TextBounds.DecodedIsShortest | core/security/redaction.py:186-186 | The decoder accepts exactly the shortest form of a character (section 3 of RFC 3629) |
| TextBounds.CutAndDecode | core/security/redaction.py:185-186 | Cutting encoded octets anywhere and decoding gives the longest prefix that fits |
| TextBounds.BoundTextIsLongestPrefix | core/security/redaction.py:182-187 | The bounded text is the longest prefix within both limits, flagged exactly when the text exceeds one |
| SecretRedaction.RedactionState.Replace | core/security/redaction.py:97-117 | A match is counted, and its finding kept while there is room |
| SecretRedaction.RedactionState.SanitizeText | core/security/redaction.py:93-127 | Findings are numbered through and cut at 64; the state stays complete exactly when no finding is lost and the redacted text fits its original size |
| SecretRedaction.SanitizeSource | core/security/redaction.py:67-90 | The diff and every file are redacted in order with one numbering; the source is complete exactly when there are at most 64 matches and no text overflows |
| RedactionSafety.SanitizedWithinOriginal | core/security/redaction.py:93-127 | A sanitized text is no larger than the original, and a prefix of the redacted one, proper exactly when that overflows |
| RedactionSafety.UnreplacedIsOriginal | core/security/redaction.py:93-120 | Outside its matches a redacted text is the original: replacing each match by itself changes nothing |
| RedactionSafety.SecretsLeaveNoTrace | core/security/redaction.py:93-127 | Texts of one size that differ only inside equally placed and equally replaced matches are redacted and bounded alike |
| RedactionSafety.SanitizedIsNotEmpty | core/security/types.py:124-126 | No text is redacted away altogether, so that every sanitized file stays well formed |
| RedactionSafety.EvidenceIsDistinct | core/security/redaction.py:176-179 | No two findings carry the same evidence when their keys are named apart |
| RedactionSafety.FindingsDescribe | core/security/redaction.py:130-173 | The findings of a text are for its matches in order: confirmed, critical for a private key and high for a credential, on the lines counted up to the match, with one evidence of its own place and number |
| RedactionSafety.SecretAlwaysBlocks | core/security/redaction.py:130-173 | A request with any match is blocked, whatever scanner, provider and supplied sanitization say |
| RedactionSafety.CleanSourceIsUnchanged | core/security/redaction.py:67-127 | A request without matches is sanitized to itself |
| RedactionSafety.SanitizedIsValid | core/security/types.py:195-206 | The sanitized source of a bounded request is well formed |
| RedactionSafety.StandardIsValid | core/security/redaction.py:140-173 | The categories, texts and source of the findings are well formed |
| ReviewScore.AddingFindingsNeverRaises | core/reviewer/scoring.py:38-58 | Adding findings anywhere never raises the score of the same checks |
| ReviewScore.DeductionsBySeverity | core/reviewer/scoring.py:17-44 | The deductions are two, eight, twenty and forty hundredths for each low, medium, high and critical finding |
| ReviewScore.ScoreBound | core/reviewer/scoring.py:46-58 | The score is at most one less the deductions, and never negative |
| ReviewScore.FullScoreIsPerfect | core/reviewer/scoring.py:38-70 | The score is one exactly when every check passes and no finding is worse than a remark |
| ReviewScore.ScoreIsExactToHalfAUnit | core/reviewer/scoring.py:46-58 | The score is one less the deductions by severity and one half shared out over the flawed checks, cut off at zero and rounded half up |
| ReviewerGate.IndexChecks | core/reviewer/decision.py:264-269 | The index holds the last check of each profile and notes a profile met twice |
| ReviewerGate.ExamineChecks | core/reviewer/decision.py:274-301 | The flags say exactly which faults some required profile shows |
| ReviewerGate.CheckBlockerCodes | core/reviewer/decision.py:260-311 | The codes are exactly those that apply, in order; without checks only the absence is reported |
| ReviewerGate.DeterministicBlockers | core/reviewer/decision.py:238-257 | The blockers are exactly those that apply, in order of priority |
| ReviewerGate.CanonicalChecksAreConsistent | core/reviewer/types.py:114-132 | A validated request never meets the blocker for inconsistent checks |
| ReviewerGate.PublishedDiscloses | core/reviewer/decision.py:195-222 | A review shows no words that echo the source, in its rationale or any field of a finding, save for the fixed replacements, and a text that does not echo is shown unchanged |
| ReviewerGate.BuildResult | core/reviewer/decision.py:94-150 | Malformed requests are refused before malformed analyses, each by conditions written out over its fields, and everything else is reviewed; what a review shows never echoes the source, and what does not echo is shown as it is |
| ReviewVerdict.ApprovedIffApprovable | core/reviewer/decision.py:94-103 | Approval if and only if identities differ, the developer succeeded, every required profile has a complete passing check, no finding is severe, and the model approves with enough confidence |
| ReviewVerdict.BlockersSurvive | core/reviewer/decision.py:314-320 | All blockers survive the cap, last and in order, after the first findings of the model, each as it was save for texts that echo the source |
| ReviewVerdict.ScoreAgreesWithDecision | core/reviewer/decision.py:94-123 | Changes are requested exactly when there are blockers, and the score is at most one less a fifth for each |
| ReviewVerdict.OneMoreFinding | core/reviewer/decision.py:94-123 | One more finding of the model never raises the score and never wins approval, although its blocker may push another finding out |
| ReviewVerdict.RequestingChangesMayRaiseScore | core/reviewer/decision.py:314-320 | A model that requests changes instead of approving raises the score if and only if the added blocker pushes out a critical finding, and the checks and the findings then retained leave any score |
| ReviewVerdict.RequestingChangesRaisesScore | core/reviewer/decision.py:314-320 | A concrete review that scores 0.4 when approved and 0.6 when changes are requested |
| BudgetGate.AllowMeans | core/budget/engine.py:26-42 | A record is allowed exactly when it leaves every budget it falls under within its ceilings |
| BudgetGate.StopMeans | core/budget/engine.py:55-85 | A stop names an exceeded ceiling of the first exceeded budget the record falls under |
| BudgetGate.RecordAdds | core/budget/engine.py:55-85 | A record adds its tokens in both directions, itself when it is a model request, its times, tool calls and cost to the totals of the budgets it concerns, and nothing to others |
| BudgetGate.AdmittedIffWithin | core/budget/engine.py:26-85 | A history is one of allowed records if and only if it keeps every total of every budget within its ceiling |
| BudgetGate.AdmittedInAnyOrder | core/budget/engine.py:55-66 | The order of the records has no say in whether all of them are allowed |
| BudgetGate.StopPersists | core/budget/engine.py:26-85 | As the history grows, a stop never becomes an allowance |

## Left out

- The database, its row locks and its migrations, the web application, prompts, JSON decoding and field limits of provider outputs; a lock, a commit and a rollback appear as atomic steps with their failures.
- The QA and Security orchestrators, workflow preflight beyond its failure code, the task-status write guard and its authorizations, timestamps, rationale texts and event payloads other than those the rules read.
- Clearing of exception chains, because it changes no result.
- The secret pattern, the marker pattern and the echo and disclosure checks: their outcomes are parameters.
- Real clocks, durations and the recovery deadline: a timeout is one of the ways a call may come back.
- Floating-point rounding of confidences, durations and costs, which are reals here; the score arithmetic is exact.
- Path normalization of findings, and the wording of review blockers, of warnings and of budget stops.
- Incident lifecycle, escalation rules, career policy, feedback, lessons, closure, the engineering stages, the merge gate, the QA gate, the permission engine, confidence and reputation scoring, metrics and the capability router: linear lists or weaker versions of what is covered.
- CheckpointSession.Session.CommitCheckpoint: a rollback that succeeds is taken to discard all staged objects, and a commit error to mean that nothing was committed.
- AgentRuntime.RuntimeRun.Run: the wording of summaries, the trace identifiers and the durations of audit records, and whether a result reports its token usage, are not modelled.
- ToolExecution.ToolExecutor.Execute: the shapes of arguments and outputs are not modelled, only whether they are accepted.
- SecretRedaction.RedactionState.SanitizeText: the bytes of a digest inside an evidence identifier are not modelled; identifiers are named by an arbitrary function of what they are made from.
- WorkstreamGraph.RequireValid: the checks on names and technical granularity of a single workstream are not modelled.
