/** The values a Security decision is made of, their shape rules, and their disclosure. */
module SecurityEvidence {
  import opened Wrappers
  import opened Sequences

  datatype Severity = Info | Low | Medium | High | Critical
  datatype Confirmation = Suspected | Confirmed
  datatype Decision = Pass | Warn | Block

  datatype Reference = Reference(sourceId: string, evidenceId: string)
  datatype Place = Place(path: Option<string>, start: Option<int>, end: Option<int>)
  datatype Finding = Finding(
    category: string, severity: Severity, explanation: string, remediation: string, place: Place,
    confidence: real, evidence: seq<Reference>, confirmation: Confirmation)
  datatype Proposed = Proposed(
    category: string, severity: Severity, explanation: string, remediation: string, place: Place,
    confidence: real, evidenceIds: seq<string>)

  datatype SourceFile = SourceFile(path: string, content: string)
  datatype TestRun = TestRun(succeeded: bool, exitCode: Option<int>, truncated: bool)
  datatype Request = Request(diff: string, files: seq<SourceFile>, tests: seq<TestRun>, correlation: nat)
  datatype Source = Source(diff: string, files: seq<SourceFile>, findings: seq<Finding>, complete: bool)
  datatype Report = Report(suiteId: string, findings: seq<Finding>, complete: bool, truncated: bool, duration: real)
  datatype Analysis = Analysis(
    decision: Decision, findings: seq<Proposed>, uncertainty: seq<string>, rationale: string, confidence: real)

  datatype Reason =
    | SourceMismatch | SourceIncomplete | ScannerIncomplete | ScannerUntrusted | TestsFailed
    | NoPassProposed | LowConfidence | ProviderUncertain | UntrustedFinding | UnknownReference
    | OutsideScope | TooManyFindings | InvalidHandoff

  datatype Summary = Summary(suiteId: string, complete: bool, truncated: bool, findingCount: nat, duration: real)
  datatype SecurityResult = SecurityResult(
    decision: Decision, findings: seq<Finding>, scanner: Summary, reasons: seq<Reason>,
    rationale: string, confidence: real, correlation: nat)

  const MAX_FINDINGS := 64
  const MAX_REASONS := 16
  const MAX_LINE := 1_000_000

  // ---------------------------------------------------------------- shape rules

  predicate Space(c: char) {
    || 9 as char <= c <= 13 as char || 28 as char <= c <= ' ' || c in {'\U{0085}', '\U{00A0}', '\U{1680}'}
    || '\U{2000}' <= c <= '\U{200A}' || c in {'\U{2028}', '\U{2029}', '\U{202F}', '\U{205F}', '\U{3000}'}
  }

  predicate IsText(s: string, bound: nat) {
    |s| <= bound && exists i | 0 <= i < |s| :: !Space(s[i])
  }

  predicate Alphanumeric(c: char) {
    'a' <= c <= 'z' || '0' <= c <= '9'
  }

  predicate IsIdentifier(s: string) {
    && 1 <= |s| <= 128 && Alphanumeric(s[0])
    && forall i | 0 <= i < |s| :: Alphanumeric(s[i]) || s[i] in {'.', '_', ':', '-'}
  }

  predicate ValidReference(r: Reference) {
    IsIdentifier(r.sourceId) && IsIdentifier(r.evidenceId)
  }

  predicate ValidPlace(p: Place) {
    && (p.path.Some? ==> 1 <= |p.path.value| <= 1_024)
    && (p.start.Some? <==> p.end.Some?)
    && (p.start.Some? ==> p.path.Some? && 1 <= p.start.value <= p.end.value <= MAX_LINE)
  }

  predicate ValidFinding(f: Finding) {
    && IsIdentifier(f.category) && IsText(f.explanation, 4_096) && IsText(f.remediation, 4_096)
    && ValidPlace(f.place) && 0.0 <= f.confidence <= 1.0
    && 1 <= |f.evidence| <= 8 && Distinct(f.evidence) && forall r <- f.evidence :: ValidReference(r)
  }

  predicate ValidProposed(p: Proposed) {
    && IsIdentifier(p.category) && IsText(p.explanation, 4_096) && IsText(p.remediation, 4_096)
    && ValidPlace(p.place) && 0.0 <= p.confidence <= 1.0
    && 1 <= |p.evidenceIds| <= 8 && Distinct(p.evidenceIds) && forall id <- p.evidenceIds :: IsIdentifier(id)
  }

  predicate ValidSource(s: Source) {
    |s.findings| <= MAX_FINDINGS && forall f <- s.findings :: ValidFinding(f)
  }

  predicate ValidReport(r: Report) {
    IsIdentifier(r.suiteId) && |r.findings| <= MAX_FINDINGS && r.duration >= 0.0
    && forall f <- r.findings :: ValidFinding(f)
  }

  predicate ValidAnalysis(a: Analysis) {
    |a.findings| <= MAX_FINDINGS && IsText(a.rationale, 16_384) && 0.0 <= a.confidence <= 1.0
    && forall p <- a.findings :: ValidProposed(p)
  }

  /** A finding that blocks: confirmed, and of high impact. */
  predicate IsVeto(f: Finding) {
    f.confirmation.Confirmed? && (f.severity.High? || f.severity.Critical?)
  }

  /** The rule every public result meets: its decision is borne out by what it shows. */
  predicate Truthful(r: SecurityResult) {
    match r.decision
    case Pass => r.findings == [] && r.reasons == [] && r.scanner.complete && !r.scanner.truncated
    case Warn => (r.findings != [] || r.reasons != []) && forall f <- r.findings :: !IsVeto(f)
    case Block => exists f <- r.findings :: IsVeto(f)
  }

  predicate ValidSummary(s: Summary) {
    IsIdentifier(s.suiteId) && s.findingCount <= MAX_FINDINGS && s.duration >= 0.0
  }

  predicate ValidResult(r: SecurityResult) {
    && |r.findings| <= MAX_FINDINGS && (forall f <- r.findings :: ValidFinding(f))
    && ValidSummary(r.scanner) && |r.reasons| <= MAX_REASONS
    && IsText(r.rationale, 16_384) && 0.0 <= r.confidence <= 1.0 && Truthful(r)
  }

  // ---------------------------------------------------------------- lines

  predicate LineBreak(c: char) {
    '\n' <= c <= '\r' || '\U{001C}' <= c <= '\U{001E}' || c in {'\U{0085}', '\U{2028}', '\U{2029}'}
  }

  /** The breaks that end a line; a carriage return and the line feed after it are one. */
  function LineBreaks(text: string): nat {
    if text == "" then 0
    else
      var n := |text| - 1;
      LineBreaks(text[..n])
      + if LineBreak(text[n]) && !(text[n] == '\n' && n > 0 && text[n - 1] == '\r') then 1 else 0
  }

  /** The number of lines a text splits into; a trailing break opens no further line. */
  function Lines(text: string): nat {
    LineBreaks(text) + if text != "" && !LineBreak(text[|text| - 1]) then 1 else 0
  }

  // ---------------------------------------------------------------- disclosure

  const REDACTED_SOURCE := "redacted-source"
  const REDACTED_EVIDENCE := "redacted-evidence"
  const REDACTED_CATEGORY := "security.finding"
  const REDACTED_SCANNER := "redacted-scanner"
  const WITHHELD_EXPLANATION := "Source-sensitive finding text was withheld."
  const WITHHELD_REMEDIATION := "Review the finding through an approved secure channel."
  const WITHHELD_RATIONALE := "Source-sensitive analysis text was withheld."

  lemma ReplacementIdentifiers()
    ensures IsIdentifier(REDACTED_SOURCE) && IsIdentifier(REDACTED_EVIDENCE)
    ensures IsIdentifier(REDACTED_CATEGORY) && IsIdentifier(REDACTED_SCANNER)
  {
  }

  lemma ReplacementTexts()
    ensures IsText(WITHHELD_EXPLANATION, 4_096) && IsText(WITHHELD_REMEDIATION, 4_096)
    ensures IsText(WITHHELD_RATIONALE, 16_384)
  {
    assert WITHHELD_EXPLANATION[|WITHHELD_EXPLANATION| - 1] == '.';
    assert WITHHELD_REMEDIATION[|WITHHELD_REMEDIATION| - 1] == '.';
    assert WITHHELD_RATIONALE[|WITHHELD_RATIONALE| - 1] == '.';
  }

  function PublicText(value: string, sensitive: string -> bool, replacement: string): string {
    if sensitive(value) then replacement else value
  }

  function PublicReference(sensitive: string -> bool): Reference -> seq<Reference> {
    (r: Reference) => [Reference(PublicText(r.sourceId, sensitive, REDACTED_SOURCE),
                    PublicText(r.evidenceId, sensitive, REDACTED_EVIDENCE))]
  }

  function PublicPlace(p: Place, sensitive: string -> bool): Place {
    if p.path.None? || sensitive(p.path.value) then Place(None, None, None) else p
  }

  function PublicFinding(f: Finding, sensitive: string -> bool): Finding {
    Finding(PublicText(f.category, sensitive, REDACTED_CATEGORY), f.severity,
            PublicText(f.explanation, sensitive, WITHHELD_EXPLANATION),
            PublicText(f.remediation, sensitive, WITHHELD_REMEDIATION),
            PublicPlace(f.place, sensitive), f.confidence,
            Dedupe(Collect(PublicReference(sensitive), f.evidence)), f.confirmation)
  }

  lemma {:induction false} PublicReferencesValid(s: seq<Reference>, sensitive: string -> bool)
    requires forall r <- s :: ValidReference(r)
    ensures |Collect(PublicReference(sensitive), s)| == |s|
    ensures forall r <- Collect(PublicReference(sensitive), s) :: ValidReference(r)
  {
    if s != [] {
      PublicReferencesValid(s[..|s| - 1], sensitive);
      ReplacementIdentifiers();
      assert ValidReference(s[|s| - 1]);
    }
  }

  lemma DedupeKeepsSome<T>(s: seq<T>)
    requires s != []
    ensures Dedupe(s) != []
  {
    assert s[0] in s;
  }

  /** Disclosure keeps a finding well formed and keeps what makes it a veto. */
  lemma PublicFindingValid(f: Finding, sensitive: string -> bool)
    requires ValidFinding(f)
    ensures ValidFinding(PublicFinding(f, sensitive))
    ensures IsVeto(PublicFinding(f, sensitive)) == IsVeto(f)
  {
    PublicReferencesValid(f.evidence, sensitive);
    DedupeKeepsSome(Collect(PublicReference(sensitive), f.evidence));
    ReplacementIdentifiers();
    ReplacementTexts();
  }

  predicate Withheld(value: string, sensitive: string -> bool, replacement: string) {
    value == replacement || !sensitive(value)
  }

  predicate DisclosesReference(r: Reference, sensitive: string -> bool) {
    Withheld(r.sourceId, sensitive, REDACTED_SOURCE) && Withheld(r.evidenceId, sensitive, REDACTED_EVIDENCE)
  }

  /** No text of a disclosed finding is sensitive, save for the fixed replacements. */
  predicate Discloses(f: Finding, sensitive: string -> bool) {
    && Withheld(f.category, sensitive, REDACTED_CATEGORY)
    && Withheld(f.explanation, sensitive, WITHHELD_EXPLANATION)
    && Withheld(f.remediation, sensitive, WITHHELD_REMEDIATION)
    && (f.place.path.Some? ==> !sensitive(f.place.path.value))
    && forall r <- f.evidence :: DisclosesReference(r, sensitive)
  }

  lemma PublicReferencesDisclose(s: seq<Reference>, sensitive: string -> bool)
    ensures forall r <- Dedupe(Collect(PublicReference(sensitive), s)) :: DisclosesReference(r, sensitive)
  {
    forall r | r in Dedupe(Collect(PublicReference(sensitive), s))
      ensures DisclosesReference(r, sensitive)
    {
      InCollect(PublicReference(sensitive), s, r);
      var x :| x in s && r in PublicReference(sensitive)(x);
      assert r == PublicReference(sensitive)(x)[0];
    }
  }

  lemma PublicFindingDiscloses(f: Finding, sensitive: string -> bool)
    ensures Discloses(PublicFinding(f, sensitive), sensitive)
  {
    PublicReferencesDisclose(f.evidence, sensitive);
  }
}
