/** The deterministic Security decision: which evidence is trusted, what vetoes, what is disclosed. */
module SecurityGate {
  import opened Wrappers
  import opened Sequences
  import opened Sorting
  import opened SecurityEvidence

  /** Everything one decision sees. The current source is the gate's own sanitization of the request. */
  datatype Evidence = Evidence(
    request: Request, source: Source, current: Source, report: Report, analysis: Analysis, trust: set<string>)

  const SECRET_PATTERN_SOURCE_ID := "synapseos.secret-patterns"
  const DIFF_PATH := "diff.patch"
  const PASS_CONFIDENCE := 0.80

  ghost predicate ValidEvidence(e: Evidence) {
    ValidSource(e.source) && ValidSource(e.current) && ValidReport(e.report) && ValidAnalysis(e.analysis)
  }

  // ---------------------------------------------------------------- what counts as evidence

  /** The number of lines of the last file with the path. */
  function FileLines(files: seq<SourceFile>, path: string): Option<nat> {
    if files == [] then None
    else
      var last := files[|files| - 1];
      if last.path == path then Some(Lines(last.content)) else FileLines(files[..|files| - 1], path)
  }

  /** Whether a place lies in the source under review; the diff shadows a file of its name. */
  predicate InScope(p: Place, request: Request) {
    p.path.None? ||
    var lines := if p.path.value == DIFF_PATH then Some(Lines(request.diff)) else FileLines(request.files, p.path.value);
    lines.Some? && (p.end.None? || p.end.value <= lines.value)
  }

  predicate ScannerTrusted(e: Evidence) {
    e.report.suiteId in e.trust && e.report.suiteId != SECRET_PATTERN_SOURCE_ID
  }

  predicate Trusted(e: Evidence, f: Finding) {
    ScannerTrusted(e) && InScope(f.place, e.request) && forall r <- f.evidence :: r.sourceId == e.report.suiteId
  }

  /** A scanner finding that is not trusted is at most suspected. */
  function Screen(e: Evidence): Finding -> seq<Finding> {
    (f: Finding) => [if Trusted(e, f) then f else f.(confirmation := Suspected)]
  }

  function ScreenDoubt(e: Evidence): Finding -> seq<Reason> {
    (f: Finding) => if Trusted(e, f) then [] else [UntrustedFinding]
  }

  /** The findings no provider has a say in. */
  function Deterministic(e: Evidence): seq<Finding> {
    e.current.findings + Collect(Screen(e), e.report.findings)
  }

  /** The references of some findings that go by one evidence identifier. */
  function Candidates(findings: seq<Finding>, id: string): set<Reference> {
    if findings == [] then {}
    else Candidates(findings[..|findings| - 1], id) + Named(findings[|findings| - 1].evidence, id)
  }

  function Named(refs: seq<Reference>, id: string): set<Reference> {
    set r <- refs | r.evidenceId == id
  }

  /** A provider's identifier means a reference when exactly one carries it. */
  ghost predicate Resolves(known: set<Reference>, id: string, r: Reference) {
    if |known| == 1 then r in known else r == Reference("provider", id)
  }

  ghost predicate ResolvesAll(findings: seq<Finding>, ids: seq<string>, refs: seq<Reference>) {
    |refs| == |ids| && forall i | 0 <= i < |ids| :: Resolves(Candidates(findings, ids[i]), ids[i], refs[i])
  }

  /** What a proposal of the provider becomes: never more than a suspicion. */
  ghost predicate Adopts(findings: seq<Finding>, p: Proposed, f: Finding) {
    && f == Finding(p.category, p.severity, p.explanation, p.remediation, p.place, p.confidence, f.evidence, Suspected)
    && ResolvesAll(findings, p.evidenceIds, f.evidence)
  }

  ghost predicate AdoptsAll(findings: seq<Finding>, proposals: seq<Proposed>, adopted: seq<Finding>) {
    |adopted| == |proposals| && forall i | 0 <= i < |proposals| :: Adopts(findings, proposals[i], adopted[i])
  }

  function IdDoubt(findings: seq<Finding>): string -> seq<Reason> {
    (id: string) => if |Candidates(findings, id)| == 1 then [] else [UnknownReference]
  }

  function ProposalDoubt(e: Evidence, findings: seq<Finding>): Proposed -> seq<Reason> {
    (p: Proposed) =>
      Collect(IdDoubt(findings), p.evidenceIds) + if InScope(p.place, e.request) then [] else [OutsideScope]
  }

  // ---------------------------------------------------------------- doubts about the evidence as a whole

  predicate TestFailed(t: TestRun) {
    !t.succeeded || t.exitCode != Some(0) || t.truncated
  }

  /** When each of the leading reasons is given. */
  predicate Doubted(e: Evidence, r: Reason) {
    match r
    case SourceMismatch => e.source != e.current
    case SourceIncomplete => !e.source.complete || !e.current.complete
    case ScannerIncomplete => !e.report.complete || e.report.truncated
    case ScannerUntrusted => !ScannerTrusted(e)
    case TestsFailed => exists t <- e.request.tests :: TestFailed(t)
    case NoPassProposed => !e.analysis.decision.Pass?
    case LowConfidence => e.analysis.confidence < PASS_CONFIDENCE
    case ProviderUncertain => e.analysis.uncertainty != []
    case _ => false
  }

  function Rank(r: Reason): nat {
    match r
    case SourceMismatch => 0
    case SourceIncomplete => 1
    case ScannerIncomplete => 2
    case ScannerUntrusted => 3
    case TestsFailed => 4
    case NoPassProposed => 5
    case LowConfidence => 6
    case ProviderUncertain => 7
    case _ => 8
  }

  /** The reasons ranked below the bound that hold, in the order of their ranks. */
  ghost predicate LeadingReasons(e: Evidence, reasons: seq<Reason>, bound: nat) {
    && (forall i, j | 0 <= i < j < |reasons| :: Rank(reasons[i]) < Rank(reasons[j]))
    && (forall r :: r in reasons <==> Doubted(e, r) && Rank(r) < bound)
  }

  method Consider(e: Evidence, reasons: seq<Reason>, r: Reason, holds: bool) returns (next: seq<Reason>)
    requires LeadingReasons(e, reasons, Rank(r)) && Rank(r) < 8 && holds == Doubted(e, r)
    ensures LeadingReasons(e, next, Rank(r) + 1)
  {
    assert forall q :: Rank(q) == Rank(r) ==> q == r;
    next := if holds then reasons + [r] else reasons;
  }

  method GatherDoubts(e: Evidence) returns (reasons: seq<Reason>)
    ensures LeadingReasons(e, reasons, 8)
  {
    reasons := GatherSourceDoubts(e);
    reasons := Consider(e, reasons, TestsFailed, exists t <- e.request.tests :: TestFailed(t));
    reasons := Consider(e, reasons, NoPassProposed, !e.analysis.decision.Pass?);
    reasons := Consider(e, reasons, LowConfidence, e.analysis.confidence < PASS_CONFIDENCE);
    reasons := Consider(e, reasons, ProviderUncertain, e.analysis.uncertainty != []);
  }

  method GatherSourceDoubts(e: Evidence) returns (reasons: seq<Reason>)
    ensures LeadingReasons(e, reasons, 4)
  {
    reasons := Consider(e, [], SourceMismatch, e.source != e.current);
    reasons := Consider(e, reasons, SourceIncomplete, !e.source.complete || !e.current.complete);
    reasons := Consider(e, reasons, ScannerIncomplete, !e.report.complete || e.report.truncated);
    reasons := Consider(e, reasons, ScannerUntrusted, !ScannerTrusted(e));
  }

  // ---------------------------------------------------------------- the decision

  method ScreenFindings(e: Evidence) returns (findings: seq<Finding>, reasons: seq<Reason>)
    ensures findings == Deterministic(e)
    ensures reasons == Collect(ScreenDoubt(e), e.report.findings)
  {
    var items := e.report.findings;
    findings, reasons := e.current.findings, [];
    for i := 0 to |items|
      invariant findings == e.current.findings + Collect(Screen(e), items[..i])
      invariant reasons == Collect(ScreenDoubt(e), items[..i])
    {
      assert items[..i + 1] == items[..i] + [items[i]];
      CollectSnoc(Screen(e), items[..i], items[i]);
      CollectSnoc(ScreenDoubt(e), items[..i], items[i]);
      var trusted := Trusted(e, items[i]);
      if !trusted {
        reasons := reasons + [UntrustedFinding];
      }
      findings := findings + [if trusted then items[i] else items[i].(confirmation := Suspected)];
    }
    assert items[..|items|] == items;
  }

  function Known(refs: map<string, set<Reference>>, id: string): set<Reference> {
    if id in refs then refs[id] else {}
  }

  ghost predicate Indexed(refs: map<string, set<Reference>>, findings: seq<Finding>) {
    forall id: string :: Known(refs, id) == Candidates(findings, id)
  }

  /** All references of the findings by their evidence identifier. */
  method IndexReferences(findings: seq<Finding>) returns (refs: map<string, set<Reference>>)
    ensures Indexed(refs, findings)
  {
    refs := map[];
    for i := 0 to |findings|
      invariant Indexed(refs, findings[..i])
    {
      var evidence := findings[i].evidence;
      ghost var before := refs;
      for j := 0 to |evidence|
        invariant forall id: string :: Known(refs, id) == Known(before, id) + Named(evidence[..j], id)
      {
        assert evidence[..j + 1] == evidence[..j] + [evidence[j]];
        var id := evidence[j].evidenceId;
        refs := refs[id := Known(refs, id) + {evidence[j]}];
      }
      assert evidence[..|evidence|] == evidence && findings[..i + 1][..i] == findings[..i];
    }
    assert findings[..|findings|] == findings;
  }

  method ResolveIds(ghost findings: seq<Finding>, refs: map<string, set<Reference>>, ids: seq<string>)
    returns (resolved: seq<Reference>, reasons: seq<Reason>)
    requires Indexed(refs, findings)
    ensures ResolvesAll(findings, ids, resolved)
    ensures reasons == Collect(IdDoubt(findings), ids)
  {
    resolved, reasons := [], [];
    for i := 0 to |ids|
      invariant ResolvesAll(findings, ids[..i], resolved)
      invariant reasons == Collect(IdDoubt(findings), ids[..i])
    {
      assert ids[..i + 1] == ids[..i] + [ids[i]];
      CollectSnoc(IdDoubt(findings), ids[..i], ids[i]);
      var known := Known(refs, ids[i]);
      if |known| == 1 {
        var r :| r in known;
        resolved := resolved + [r];
      } else {
        reasons := reasons + [UnknownReference];
        resolved := resolved + [Reference("provider", ids[i])];
      }
    }
    assert ids[..|ids|] == ids;
  }

  method AdoptProposals(e: Evidence, findings: seq<Finding>) returns (adopted: seq<Finding>, reasons: seq<Reason>)
    ensures AdoptsAll(findings, e.analysis.findings, adopted)
    ensures reasons == Collect(ProposalDoubt(e, findings), e.analysis.findings)
  {
    var refs := IndexReferences(findings);
    var items := e.analysis.findings;
    adopted, reasons := [], [];
    for i := 0 to |items|
      invariant AdoptsAll(findings, items[..i], adopted)
      invariant reasons == Collect(ProposalDoubt(e, findings), items[..i])
    {
      assert items[..i + 1] == items[..i] + [items[i]];
      CollectSnoc(ProposalDoubt(e, findings), items[..i], items[i]);
      var p := items[i];
      var resolved, doubts := ResolveIds(findings, refs, p.evidenceIds);
      if !InScope(p.place, e.request) {
        doubts := doubts + [OutsideScope];
      }
      reasons := reasons + doubts;
      adopted := adopted + [Finding(p.category, p.severity, p.explanation, p.remediation, p.place,
                                    p.confidence, resolved, Suspected)];
    }
    assert items[..|items|] == items;
  }

  function Weight(s: Severity): nat {
    match s case Info => 0 case Low => 1 case Medium => 2 case High => 3 case Critical => 4
  }

  /** Vetoes before all others, then by severity. */
  predicate AtLeast(a: Finding, b: Finding) {
    if IsVeto(a) != IsVeto(b) then IsVeto(a) else Weight(a.severity) >= Weight(b.severity)
  }

  /** The findings that are shown: the strongest ones when there are too many. */
  function Kept(findings: seq<Finding>): (r: seq<Finding>)
    ensures |r| <= MAX_FINDINGS
  {
    if |findings| > MAX_FINDINGS then Sort(AtLeast, findings)[..MAX_FINDINGS] else findings
  }

  function Disclosed(sensitive: string -> bool): Finding -> seq<Finding> {
    (f: Finding) => [PublicFinding(f, sensitive)]
  }

  function DecisionName(d: Decision): string {
    match d case Pass => "PASS" case Warn => "WARN" case Block => "BLOCK"
  }

  function Rationale(e: Evidence, sensitive: string -> bool, d: Decision): string {
    "Deterministic Security decision: " + DecisionName(d) + ". "
    + Take(PublicText(e.analysis.rationale, sensitive, WITHHELD_RATIONALE), 16_000)
  }

  function PublicSummary(report: Report, sensitive: string -> bool): Summary {
    Summary(PublicText(report.suiteId, sensitive, REDACTED_SCANNER), report.complete, report.truncated,
            |report.findings|, report.duration)
  }

  ghost predicate HasVeto(findings: seq<Finding>) {
    exists f <- findings :: IsVeto(f)
  }

  /** Every reason given, in order and with repetitions. */
  function Reasons(e: Evidence, leading: seq<Reason>): seq<Reason> {
    var found := Deterministic(e);
    leading + Collect(ScreenDoubt(e), e.report.findings) + Collect(ProposalDoubt(e, found), e.analysis.findings)
    + if |found| + |e.analysis.findings| > MAX_FINDINGS then [TooManyFindings] else []
  }

  ghost function Verdict(findings: seq<Finding>, reasons: seq<Reason>): Decision {
    if HasVeto(findings) then Block else if findings != [] || reasons != [] then Warn else Pass
  }

  /** The result that shows a verdict over all findings and reasons. */
  ghost predicate Publishes(e: Evidence, sensitive: string -> bool, findings: seq<Finding>, reasons: seq<Reason>, r: SecurityResult) {
    && r.decision == Verdict(findings, reasons)
    && r.findings == Collect(Disclosed(sensitive), Kept(findings))
    && r.scanner == PublicSummary(e.report, sensitive)
    && r.reasons == Take(Dedupe(reasons), MAX_REASONS)
    && r.rationale == Rationale(e, sensitive, r.decision)
    && r.confidence == e.analysis.confidence && r.correlation == e.request.correlation
  }

  ghost predicate DecidesWith(
    e: Evidence, sensitive: string -> bool, r: SecurityResult, adopted: seq<Finding>, leading: seq<Reason>)
  {
    && AdoptsAll(Deterministic(e), e.analysis.findings, adopted) && LeadingReasons(e, leading, 8)
    && Publishes(e, sensitive, Deterministic(e) + adopted, Reasons(e, leading), r)
  }

  /** The result is the decision on the evidence. */
  ghost predicate Decides(e: Evidence, sensitive: string -> bool, r: SecurityResult) {
    exists adopted, leading :: DecidesWith(e, sensitive, r, adopted, leading)
  }

  method Disclose(findings: seq<Finding>, sensitive: string -> bool) returns (shown: seq<Finding>)
    ensures shown == Collect(Disclosed(sensitive), findings)
  {
    shown := [];
    for i := 0 to |findings|
      invariant shown == Collect(Disclosed(sensitive), findings[..i])
    {
      assert findings[..i + 1] == findings[..i] + [findings[i]];
      CollectSnoc(Disclosed(sensitive), findings[..i], findings[i]);
      shown := shown + [PublicFinding(findings[i], sensitive)];
    }
    assert findings[..|findings|] == findings;
  }

  method Conclude(e: Evidence, sensitive: string -> bool, findings: seq<Finding>, reasons: seq<Reason>)
    returns (r: SecurityResult)
    requires |findings| > MAX_FINDINGS ==> reasons != []
    ensures Publishes(e, sensitive, findings, reasons, r)
  {
    var blocked := exists f <- findings :: IsVeto(f);
    var kept := Kept(findings);
    var decision := if blocked then Block else if kept != [] || reasons != [] then Warn else Pass;
    var shown := Disclose(kept, sensitive);
    r := SecurityResult(decision, shown, PublicSummary(e.report, sensitive), Take(Dedupe(reasons), MAX_REASONS),
                        Rationale(e, sensitive, decision), e.analysis.confidence, e.request.correlation);
  }

  method Decide(e: Evidence, sensitive: string -> bool) returns (r: SecurityResult)
    ensures Decides(e, sensitive, r)
  {
    var leading := GatherDoubts(e);
    var findings, doubts := ScreenFindings(e);
    var adopted, proposalDoubts := AdoptProposals(e, findings);
    var reasons := leading + doubts + proposalDoubts;
    findings := findings + adopted;
    if |findings| > MAX_FINDINGS {
      reasons := reasons + [TooManyFindings];
    }
    assert reasons == Reasons(e, leading);
    r := Conclude(e, sensitive, findings, reasons);
    assert DecidesWith(e, sensitive, r, adopted, leading);
  }
}
