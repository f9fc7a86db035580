/** What every Security decision satisfies, whatever the provider proposes. */
module SecurityVeto {
  import opened Wrappers
  import opened Sequences
  import opened Sorting
  import opened SecurityEvidence
  import opened SecurityGate

  // ---------------------------------------------------------------- the meaning of the decision

  /** Confirmed, and of high or critical severity. */
  predicate Grave(f: Finding) {
    f.confirmation == Confirmed && (f.severity == High || f.severity == Critical)
  }

  /** The scanner is one of those that are trusted, and not the gate's own pattern under its name. */
  predicate Vouched(e: Evidence) {
    e.report.suiteId in e.trust && e.report.suiteId != "synapseos.secret-patterns"
  }

  /** A finding of a trusted scanner on the source under review, with evidence of its own alone. */
  predicate Believed(e: Evidence, f: Finding) {
    Vouched(e) && InScope(f.place, e.request) && forall i | 0 <= i < |f.evidence| :: f.evidence[i].sourceId == e.report.suiteId
  }

  /** The request itself leaks a secret, or a trusted scanner confirms a high-impact finding. */
  ghost predicate Vetoed(e: Evidence) {
    || (exists f <- e.current.findings :: Grave(f))
    || (exists f <- e.report.findings :: Grave(f) && Believed(e, f))
  }

  /** All evidence is complete, current, trusted and free of any finding or doubt. */
  ghost predicate Clean(e: Evidence) {
    && e.source == e.current && e.current.complete && e.current.findings == []
    && Vouched(e) && e.report.complete && !e.report.truncated && e.report.findings == []
    && (forall t <- e.request.tests :: t == TestRun(true, Some(0), false))
    && e.analysis.decision.Pass? && e.analysis.confidence >= 0.80
    && e.analysis.uncertainty == [] && e.analysis.findings == []
  }

  lemma BelievedIsTrusted(e: Evidence, f: Finding)
    ensures Grave(f) <==> IsVeto(f)
    ensures Believed(e, f) <==> Trusted(e, f)
  {
  }

  lemma DeterministicVetoes(e: Evidence)
    ensures HasVeto(Deterministic(e)) <==> Vetoed(e)
  {
    forall f: Finding ensures (Grave(f) <==> IsVeto(f)) && (Believed(e, f) <==> Trusted(e, f)) {
      BelievedIsTrusted(e, f);
    }
    var screened := Collect(Screen(e), e.report.findings);
    forall f | f in screened && IsVeto(f)
      ensures exists x <- e.report.findings :: IsVeto(x) && Trusted(e, x)
    {
      InCollect(Screen(e), e.report.findings, f);
      var x :| x in e.report.findings && f in Screen(e)(x);
      assert f == Screen(e)(x)[0];
    }
    forall x | x in e.report.findings && IsVeto(x) && Trusted(e, x)
      ensures x in screened
    {
      InCollect(Screen(e), e.report.findings, x);
      assert Screen(e)(x) == [x];
    }
    assert forall f :: f in Deterministic(e) <==> f in e.current.findings || f in screened;
  }

  lemma AdoptedNeverVeto(found: seq<Finding>, proposals: seq<Proposed>, adopted: seq<Finding>)
    requires AdoptsAll(found, proposals, adopted)
    ensures forall f <- adopted :: !IsVeto(f)
  {
  }

  lemma NothingFound(e: Evidence)
    ensures Deterministic(e) == [] <==> e.current.findings == [] && e.report.findings == []
  {
    if e.report.findings != [] {
      var last := e.report.findings[|e.report.findings| - 1];
      assert Collect(Screen(e), e.report.findings) != [];
    }
  }

  ghost predicate NothingLeading(e: Evidence) {
    forall r | Rank(r) < 8 :: !Doubted(e, r)
  }

  lemma NoLeadingReason(e: Evidence, leading: seq<Reason>)
    requires LeadingReasons(e, leading, 8)
    ensures leading == [] <==> NothingLeading(e)
  {
    if leading != [] {
      assert leading[0] in leading;
    } else {
      assert forall r :: r !in leading;
    }
  }

  /** Without findings, the evidence is clean exactly when none of the leading reasons holds. */
  lemma NothingLeadingIsClean(e: Evidence)
    requires e.current.findings == [] && e.report.findings == [] && e.analysis.findings == []
    ensures NothingLeading(e) <==> Clean(e)
  {
    assert (exists t <- e.request.tests :: TestFailed(t))
        || (forall t <- e.request.tests :: t == TestRun(true, Some(0), false));
    if NothingLeading(e) {
      assert !Doubted(e, SourceMismatch) && !Doubted(e, SourceIncomplete) && !Doubted(e, ScannerIncomplete);
      assert !Doubted(e, ScannerUntrusted) && !Doubted(e, TestsFailed) && !Doubted(e, NoPassProposed);
      assert !Doubted(e, LowConfidence) && !Doubted(e, ProviderUncertain);
    }
  }

  /** Over all that was found and doubted: BLOCK exactly on a veto, PASS exactly on clean evidence,
      WARN otherwise. */
  lemma VerdictMeaning(e: Evidence, adopted: seq<Finding>, leading: seq<Reason>)
    requires AdoptsAll(Deterministic(e), e.analysis.findings, adopted) && LeadingReasons(e, leading, 8)
    ensures Verdict(Deterministic(e) + adopted, Reasons(e, leading)) == Block <==> Vetoed(e)
    ensures Verdict(Deterministic(e) + adopted, Reasons(e, leading)) == Pass <==> Clean(e)
  {
    DeterministicVetoes(e);
    AdoptedNeverVeto(Deterministic(e), e.analysis.findings, adopted);
    assert HasVeto(Deterministic(e) + adopted) <==> HasVeto(Deterministic(e));
    NothingFound(e);
    if Deterministic(e) + adopted == [] {
      assert Reasons(e, leading) == leading;
      NoLeadingReason(e, leading);
      NothingLeadingIsClean(e);
    }
  }

  /** The decision that is published is this verdict. */
  lemma DecisionMeaning(e: Evidence, sensitive: string -> bool, r: SecurityResult)
    requires Decides(e, sensitive, r)
    ensures r.decision == Block <==> Vetoed(e)
    ensures r.decision == Pass <==> Clean(e)
  {
    var adopted, leading :| DecidesWith(e, sensitive, r, adopted, leading);
    VerdictMeaning(e, adopted, leading);
  }

  /** Two evaluations that differ in the provider's analysis alone. */
  ghost predicate SameButAnalysis(a: Evidence, b: Evidence) {
    && b.request == a.request && b.source == a.source && b.current == a.current
    && b.report == a.report && b.trust == a.trust
  }

  lemma DeterministicIgnoresProvider(a: Evidence, b: Evidence)
    requires SameButAnalysis(a, b)
    ensures Deterministic(a) == Deterministic(b) && (Vetoed(a) <==> Vetoed(b))
  {
    assert forall f <- a.report.findings :: Trusted(a, f) == Trusted(b, f);
    ScreenedAlike(a, b, a.report.findings);
  }

  lemma {:induction false} ScreenedAlike(a: Evidence, b: Evidence, items: seq<Finding>)
    requires SameButAnalysis(a, b)
    ensures Collect(Screen(a), items) == Collect(Screen(b), items)
  {
    if items != [] {
      ScreenedAlike(a, b, items[..|items| - 1]);
      assert Trusted(a, items[|items| - 1]) == Trusted(b, items[|items| - 1]);
    }
  }

  /** The provider has no say in whether Security blocks. */
  lemma BlockIgnoresProvider(a: Evidence, b: Evidence, sensitive: string -> bool, r: SecurityResult, s: SecurityResult)
    requires SameButAnalysis(a, b) && Decides(a, sensitive, r) && Decides(b, sensitive, s)
    ensures r.decision == Block <==> s.decision == Block
  {
    DecisionMeaning(a, sensitive, r);
    DecisionMeaning(b, sensitive, s);
    DeterministicIgnoresProvider(a, b);
  }

  // ---------------------------------------------------------------- more evidence, no better decision

  function Harshness(d: Decision): nat {
    match d case Pass => 0 case Warn => 1 case Block => 2
  }

  /** The same evidence with findings and doubts added. */
  ghost predicate Worsens(a: Evidence, b: Evidence) {
    && b.request == a.request && b.current == a.current && b.trust == a.trust
    && (b.source == a.source || b.source != b.current)
    && b.report.suiteId == a.report.suiteId && (b.report.complete ==> a.report.complete)
    && (a.report.truncated ==> b.report.truncated)
    && (forall f <- a.report.findings :: f in b.report.findings)
    && Harshness(a.analysis.decision) <= Harshness(b.analysis.decision)
    && b.analysis.confidence <= a.analysis.confidence
    && (forall u <- a.analysis.uncertainty :: u in b.analysis.uncertainty)
    && (forall f <- a.analysis.findings :: f in b.analysis.findings)
  }

  lemma WorseKeepsVeto(a: Evidence, b: Evidence)
    requires Worsens(a, b) && Vetoed(a)
    ensures Vetoed(b)
  {
    if f :| f in a.report.findings && IsVeto(f) && Trusted(a, f) {
      assert f in b.report.findings && Trusted(b, f);
    }
  }

  lemma NoneAdded<T>(a: seq<T>, b: seq<T>)
    requires forall x <- a :: x in b
    ensures b == [] ==> a == []
  {
    assert a != [] ==> a[0] in b;
  }

  lemma WorseWasClean(a: Evidence, b: Evidence)
    requires Worsens(a, b) && Clean(b)
    ensures Clean(a)
  {
    NoneAdded(a.report.findings, b.report.findings);
    NoneAdded(a.analysis.uncertainty, b.analysis.uncertainty);
    NoneAdded(a.analysis.findings, b.analysis.findings);
  }

  /** Adding findings or doubts never moves the decision towards PASS. */
  lemma WorseningIsMonotone(a: Evidence, b: Evidence, sensitive: string -> bool, r: SecurityResult, s: SecurityResult)
    requires Worsens(a, b) && Decides(a, sensitive, r) && Decides(b, sensitive, s)
    ensures Harshness(r.decision) <= Harshness(s.decision)
  {
    DecisionMeaning(a, sensitive, r);
    DecisionMeaning(b, sensitive, s);
    if Vetoed(a) {
      WorseKeepsVeto(a, b);
    }
    if Clean(b) {
      WorseWasClean(a, b);
    }
  }

  // ---------------------------------------------------------------- truncation and disclosure

  lemma AtLeastIsPreorder()
    ensures TotalPreorder(AtLeast)
  {
  }

  /** Sorting before the cut keeps as many vetoes as fit, whatever else was found: the vetoes kept
      are those that would be kept of the vetoes alone. */
  lemma CutKeepsVetoes(findings: seq<Finding>)
    ensures multiset(Filter(IsVeto, Kept(findings))) == multiset(Kept(Filter(IsVeto, findings)))
  {
    var vetoes := Filter(IsVeto, findings);
    if |findings| > MAX_FINDINGS {
      AtLeastIsPreorder();
      var sorted := Sort(AtLeast, findings);
      SortSorts(AtLeast, findings);
      FilterSort(AtLeast, IsVeto, findings);
      FilterPrefix(AtLeast, IsVeto, sorted, MAX_FINDINGS);
      if |vetoes| == MAX_FINDINGS {
        assert Sort(AtLeast, vetoes)[..MAX_FINDINGS] == Sort(AtLeast, vetoes);
      }
    }
  }

  lemma CutKeepsOneVeto(findings: seq<Finding>)
    ensures HasVeto(Kept(findings)) <==> HasVeto(findings)
  {
    CutKeepsVetoes(findings);
    var kept, vetoes := Filter(IsVeto, Kept(findings)), Filter(IsVeto, findings);
    assert |multiset(kept)| == |multiset(Kept(vetoes))|;
    if f :| f in findings && IsVeto(f) {
      InFilter(IsVeto, findings, f);
      assert kept != [];
      InFilter(IsVeto, Kept(findings), kept[0]);
    }
    if f :| f in Kept(findings) && IsVeto(f) {
      InFilter(IsVeto, Kept(findings), f);
      assert vetoes != [];
      InFilter(IsVeto, findings, vetoes[0]);
    }
  }

  lemma KeptAreFindings(findings: seq<Finding>)
    ensures forall f <- Kept(findings) :: f in findings
    ensures Kept(findings) == [] <==> findings == []
  {
    forall f | f in Kept(findings) ensures f in findings {
      InSort(AtLeast, findings, f);
    }
  }

  lemma {:induction false} DisclosedAt(findings: seq<Finding>, sensitive: string -> bool)
    ensures |Collect(Disclosed(sensitive), findings)| == |findings|
    ensures forall i | 0 <= i < |findings| ::
              Collect(Disclosed(sensitive), findings)[i] == PublicFinding(findings[i], sensitive)
  {
    if findings != [] {
      DisclosedAt(findings[..|findings| - 1], sensitive);
    }
  }

  ghost predicate ShownAs(f: Finding, shown: Finding, sensitive: string -> bool) {
    ValidFinding(shown) && Discloses(shown, sensitive) && IsVeto(shown) == IsVeto(f)
  }

  lemma DisclosedShape(findings: seq<Finding>, sensitive: string -> bool)
    requires forall f <- findings :: ValidFinding(f)
    ensures |Collect(Disclosed(sensitive), findings)| == |findings|
    ensures forall f <- Collect(Disclosed(sensitive), findings) :: ValidFinding(f) && Discloses(f, sensitive)
    ensures HasVeto(Collect(Disclosed(sensitive), findings)) <==> HasVeto(findings)
  {
    var shown := Collect(Disclosed(sensitive), findings);
    DisclosedAt(findings, sensitive);
    forall i | 0 <= i < |findings| ensures ShownAs(findings[i], shown[i], sensitive) {
      PublicFindingValid(findings[i], sensitive);
      PublicFindingDiscloses(findings[i], sensitive);
    }
    if f :| f in findings && IsVeto(f) {
      var i :| 0 <= i < |findings| && findings[i] == f;
      assert shown[i] in shown;
    }
  }

  lemma DisclosureKeepsVeto(sensitive: string -> bool)
    ensures forall f: Finding :: Disclosed(sensitive)(f) == [PublicFinding(f, sensitive)]
    ensures forall f: Finding :: IsVeto(PublicFinding(f, sensitive)) == IsVeto(f)
  {
  }

  /** The vetoes a result shows, up to their order. */
  function ShownVetoes(r: SecurityResult): multiset<Finding> {
    multiset(Filter(IsVeto, r.findings))
  }

  /** The vetoes shown are those of the deterministic evidence: all of them, or the most severe
      that fit. */
  lemma ShownVetoesAreDeterministic(e: Evidence, sensitive: string -> bool, r: SecurityResult)
    requires Decides(e, sensitive, r)
    ensures ShownVetoes(r)
            == multiset(Collect(Disclosed(sensitive), Kept(Filter(IsVeto, Deterministic(e)))))
  {
    var adopted, leading :| DecidesWith(e, sensitive, r, adopted, leading);
    var all := Deterministic(e) + adopted;
    AdoptedNeverVeto(Deterministic(e), e.analysis.findings, adopted);
    FilterNone(IsVeto, adopted);
    FilterConcat(IsVeto, Deterministic(e), adopted);
    assert Filter(IsVeto, all) == Filter(IsVeto, Deterministic(e));
    CutKeepsVetoes(all);
    DisclosureKeepsVeto(sensitive);
    FilterCollect(IsVeto, Disclosed(sensitive), Kept(all));
    CollectPermuted(Disclosed(sensitive), Filter(IsVeto, Kept(all)), Kept(Filter(IsVeto, all)));
  }

  /** No provider can crowd a veto out of the public result, or into it. */
  lemma ShownVetoesIgnoreProvider(a: Evidence, b: Evidence, sensitive: string -> bool, r: SecurityResult, s: SecurityResult)
    requires SameButAnalysis(a, b) && Decides(a, sensitive, r) && Decides(b, sensitive, s)
    ensures ShownVetoes(r) == ShownVetoes(s)
  {
    ShownVetoesAreDeterministic(a, sensitive, r);
    ShownVetoesAreDeterministic(b, sensitive, s);
    DeterministicIgnoresProvider(a, b);
  }

  // ---------------------------------------------------------------- every result is well formed

  const ALL_REASONS: set<Reason> :=
    { SourceMismatch, SourceIncomplete, ScannerIncomplete, ScannerUntrusted, TestsFailed,
      NoPassProposed, LowConfidence, ProviderUncertain, UntrustedFinding, UnknownReference,
      OutsideScope, TooManyFindings, InvalidHandoff }

  /** There are fewer kinds of reasons than the result may hold, so none is ever cut. */
  lemma NoReasonIsCut(reasons: seq<Reason>)
    ensures Take(Dedupe(reasons), MAX_REASONS) == Dedupe(reasons)
  {
    forall r: Reason ensures r in ALL_REASONS {
      match r
      case SourceMismatch | SourceIncomplete | ScannerIncomplete | ScannerUntrusted | TestsFailed =>
      case NoPassProposed | LowConfidence | ProviderUncertain | UntrustedFinding | UnknownReference =>
      case OutsideScope | TooManyFindings | InvalidHandoff =>
    }
    DistinctFits(Dedupe(reasons), ALL_REASONS);
  }

  lemma ReferencesValid(found: seq<Finding>, id: string, r: Reference)
    requires (forall f <- found :: ValidFinding(f)) && r in Candidates(found, id)
    ensures ValidReference(r) && r.evidenceId == id
  {
    if found != [] {
      var n := |found| - 1;
      if r in Candidates(found[..n], id) {
        ReferencesValid(found[..n], id, r);
      } else {
        assert ValidFinding(found[n]);
      }
    }
  }

  lemma ProviderIsIdentifier()
    ensures IsIdentifier("provider")
  {
  }

  lemma ResolvedValid(found: seq<Finding>, id: string, r: Reference)
    requires forall f <- found :: ValidFinding(f)
    requires IsIdentifier(id) && Resolves(Candidates(found, id), id, r)
    ensures ValidReference(r) && r.evidenceId == id
  {
    if |Candidates(found, id)| == 1 {
      ReferencesValid(found, id, r);
    } else {
      ProviderIsIdentifier();
    }
  }

  lemma AdoptedValid(found: seq<Finding>, p: Proposed, f: Finding)
    requires forall x <- found :: ValidFinding(x)
    requires ValidProposed(p) && Adopts(found, p, f)
    ensures ValidFinding(f)
  {
    forall i | 0 <= i < |f.evidence|
      ensures ValidReference(f.evidence[i]) && f.evidence[i].evidenceId == p.evidenceIds[i]
    {
      ResolvedValid(found, p.evidenceIds[i], f.evidence[i]);
    }
  }

  lemma ScreenedValid(e: Evidence)
    requires ValidEvidence(e)
    ensures forall f <- Deterministic(e) :: ValidFinding(f)
  {
    forall f | f in Collect(Screen(e), e.report.findings) ensures ValidFinding(f) {
      InCollect(Screen(e), e.report.findings, f);
      var x :| x in e.report.findings && f in Screen(e)(x);
      assert f == Screen(e)(x)[0];
    }
  }

  lemma AllValid(e: Evidence, adopted: seq<Finding>)
    requires ValidEvidence(e) && AdoptsAll(Deterministic(e), e.analysis.findings, adopted)
    ensures forall f <- Deterministic(e) + adopted :: ValidFinding(f)
  {
    ScreenedValid(e);
    forall i | 0 <= i < |adopted| ensures ValidFinding(adopted[i]) {
      AdoptedValid(Deterministic(e), e.analysis.findings[i], adopted[i]);
    }
  }

  lemma RationaleIsText(e: Evidence, sensitive: string -> bool, d: Decision)
    ensures IsText(Rationale(e, sensitive, d), 16_384)
  {
    var start := "Deterministic Security decision: ";
    assert |start| == 33;
    assert Rationale(e, sensitive, d)[33 + |DecisionName(d)|] == '.';
  }

  lemma SummaryValid(e: Evidence, sensitive: string -> bool)
    requires ValidEvidence(e)
    ensures ValidSummary(PublicSummary(e.report, sensitive))
  {
    ReplacementIdentifiers();
  }

  /** What is shown after the cut and the disclosure still bears the decision out. */
  lemma PublishedIsTruthful(
    e: Evidence, sensitive: string -> bool, findings: seq<Finding>, reasons: seq<Reason>, r: SecurityResult)
    requires Publishes(e, sensitive, findings, reasons, r) && (forall f <- findings :: ValidFinding(f))
    requires r.decision == Pass ==> Clean(e)
    ensures Truthful(r)
    ensures |r.findings| <= MAX_FINDINGS
    ensures forall f <- r.findings :: ValidFinding(f) && Discloses(f, sensitive)
  {
    KeptAreFindings(findings);
    CutKeepsOneVeto(findings);
    DisclosedShape(Kept(findings), sensitive);
    NoReasonIsCut(reasons);
    assert reasons != [] ==> reasons[0] in Dedupe(reasons);
    assert Dedupe(reasons) != [] ==> Dedupe(reasons)[0] in reasons;
  }

  /** Every decision on well-formed evidence yields a result its own rules accept, with no
      sensitive text in any finding and no reason lost. */
  lemma ResultIsValid(e: Evidence, sensitive: string -> bool, r: SecurityResult)
    requires ValidEvidence(e) && Decides(e, sensitive, r)
    ensures ValidResult(r)
    ensures forall f <- r.findings :: Discloses(f, sensitive)
  {
    DecisionMeaning(e, sensitive, r);
    var adopted, leading :| DecidesWith(e, sensitive, r, adopted, leading);
    AllValid(e, adopted);
    PublishedIsTruthful(e, sensitive, Deterministic(e) + adopted, Reasons(e, leading), r);
    NoReasonIsCut(Reasons(e, leading));
    RationaleIsText(e, sensitive, r.decision);
    SummaryValid(e, sensitive);
  }

  // ---------------------------------------------------------------- the whole gate

  datatype GateError = InvalidInput | InvalidAnalysis
  datatype Outcome = Decided(result: SecurityResult) | Failed(error: GateError)

  function HandoffWarning(e: Evidence): SecurityResult {
    SecurityResult(Warn, [], Summary("security-gate", false, false, 0, 0.0), [InvalidHandoff],
                   "The handoff requires validation before Security can assess it.", 0.0, e.request.correlation)
  }

  /** A warning of the handoff alone: nothing was scanned, found or assessed. */
  predicate Warns(r: SecurityResult, correlation: nat) {
    && r.decision == Warn && r.reasons == [InvalidHandoff] && r.findings == [] && r.confidence == 0.0
    && r.scanner == Summary("security-gate", false, false, 0, 0.0) && r.correlation == correlation
  }

  /** Rejects malformed evidence and analyses, warns of an invalid handoff, and else decides. The
      handoff check comes first, so a warning says nothing of the evidence. */
  method BuildResult(e: Evidence, sensitive: string -> bool, handoffValid: bool) returns (r: Outcome)
    requires ValidSource(e.current)
    ensures r.Decided? ==> ValidResult(r.result)
    ensures !handoffValid ==> r.Decided? && Warns(r.result, e.request.correlation)
    ensures handoffValid ==> Answers(e, sensitive, r)
  {
    if !handoffValid {
      WarningIsValid(e);
      r := Decided(HandoffWarning(e));
    } else if !ValidSource(e.source) || !ValidReport(e.report) {
      r := Failed(InvalidInput);
    } else if !ValidAnalysis(e.analysis) {
      r := Failed(InvalidAnalysis);
    } else {
      var result := Decide(e, sensitive);
      ResultIsValid(e, sensitive, result);
      r := Decided(result);
    }
  }

  lemma WarningIsValid(e: Evidence)
    ensures ValidResult(HandoffWarning(e))
  {
    var rationale := HandoffWarning(e).rationale;
    assert rationale[|rationale| - 1] == '.';
  }

  /** A decision exactly on well-formed evidence; the evidence is checked before the analysis. */
  ghost predicate Answers(e: Evidence, sensitive: string -> bool, r: Outcome) {
    match r
    case Failed(InvalidInput) => !ValidSource(e.source) || !ValidReport(e.report)
    case Failed(InvalidAnalysis) => ValidSource(e.source) && ValidReport(e.report) && !ValidAnalysis(e.analysis)
    case Decided(result) => ValidEvidence(e) && Decides(e, sensitive, result)
  }
}
