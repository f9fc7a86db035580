/** What a Security result shows of all that was found: the strongest findings, word for word unless a
    text is sensitive, and exactly the reasons that hold. */
module SecurityDisclosure {
  import opened Wrappers
  import opened Sequences
  import opened Sorting
  import opened SecurityEvidence
  import opened SecurityGate
  import opened SecurityVeto

  // ---------------------------------------------------------------- the cut

  /** No less severe. */
  predicate NoMilder(a: Severity, b: Severity) {
    match b
    case Critical => a.Critical?
    case High => a.Critical? || a.High?
    case Medium => a.Critical? || a.High? || a.Medium?
    case Low => !a.Info?
    case Info => true
  }

  /** One finding outlasts another: a veto any other finding, and else the severer one. */
  predicate Outlasts(a: Finding, b: Finding) {
    (Grave(a) && !Grave(b)) || (Grave(a) == Grave(b) && NoMilder(a.severity, b.severity))
  }

  /** Some copy of the finding is not kept. */
  ghost predicate Lost(all: seq<Finding>, kept: seq<Finding>, f: Finding) {
    multiset(kept)[f] < multiset(all)[f]
  }

  /** As many of the findings as fit, with every copy that is lost outlasted by every one that is kept. */
  ghost predicate Strongest(all: seq<Finding>, kept: seq<Finding>) {
    && multiset(kept) <= multiset(all)
    && |kept| == (if |all| <= 64 then |all| else 64)
    && (forall f, g | Lost(all, kept, f) && g in kept :: Outlasts(g, f))
    && (|all| <= 64 ==> kept == all)
  }

  /** A copy beyond those in the front of a sequence stands behind it. */
  lemma LostCopy(s: seq<Finding>, n: nat, f: Finding) returns (i: nat)
    requires n <= |s| && Lost(s, s[..n], f)
    ensures n <= i < |s| && s[i] == f
  {
    assert s == s[..n] + s[n..];
    assert f in multiset(s[n..]) && f in s[n..];
    i :| n <= i < |s| && s[i] == f;
  }

  lemma FrontOutlasts(s: seq<Finding>, n: nat, f: Finding, g: Finding)
    requires n <= |s| && Sorted(AtLeast, s) && Lost(s, s[..n], f) && g in s[..n]
    ensures Outlasts(g, f)
  {
    var i := LostCopy(s, n, f);
    var j :| 0 <= j < n && s[j] == g;
    assert AtLeast(s[j], s[i]);
  }

  lemma FrontIsPart(s: seq<Finding>, n: nat)
    requires n <= |s|
    ensures multiset(s[..n]) <= multiset(s)
  {
    assert s == s[..n] + s[n..];
  }

  lemma KeptIsStrongest(findings: seq<Finding>)
    ensures Strongest(findings, Kept(findings))
  {
    if |findings| > MAX_FINDINGS {
      var sorted := Sort(AtLeast, findings);
      AtLeastIsPreorder();
      SortSorts(AtLeast, findings);
      FrontIsPart(sorted, MAX_FINDINGS);
      forall f, g | Lost(findings, Kept(findings), f) && g in Kept(findings) ensures Outlasts(g, f) {
        FrontOutlasts(sorted, MAX_FINDINGS, f, g);
      }
    }
  }

  // ---------------------------------------------------------------- the rewriting

  /** A text is shown as it is, unless it is sensitive. */
  predicate Told(value: string, shown: string, sensitive: string -> bool, replacement: string) {
    (!sensitive(value) && shown == value) || (sensitive(value) && shown == replacement)
  }

  ghost predicate ToldIn(r: Reference, shown: seq<Reference>, sensitive: string -> bool) {
    exists q <- shown :: ToldReference(r, q, sensitive)
  }

  ghost predicate TellsOf(q: Reference, refs: seq<Reference>, sensitive: string -> bool) {
    exists r <- refs :: ToldReference(r, q, sensitive)
  }

  predicate HarmlessReference(r: Reference, sensitive: string -> bool) {
    !sensitive(r.sourceId) && !sensitive(r.evidenceId)
  }

  /** Each reference is shown once, in place of at least one of the finding. */
  ghost predicate Refers(refs: seq<Reference>, shown: seq<Reference>, sensitive: string -> bool) {
    && Distinct(shown)
    && (forall r <- refs :: ToldIn(r, shown, sensitive))
    && (forall q <- shown :: TellsOf(q, refs, sensitive))
    && (Distinct(refs) && (forall r <- refs :: HarmlessReference(r, sensitive)) ==> shown == refs)
  }

  predicate ToldReference(r: Reference, q: Reference, sensitive: string -> bool) {
    && Told(r.sourceId, q.sourceId, sensitive, "redacted-source")
    && Told(r.evidenceId, q.evidenceId, sensitive, "redacted-evidence")
  }

  /** What a finding looks like in a result. */
  ghost predicate Shows(f: Finding, shown: Finding, sensitive: string -> bool) {
    && shown.severity == f.severity && shown.confidence == f.confidence && shown.confirmation == f.confirmation
    && Told(f.category, shown.category, sensitive, REDACTED_CATEGORY)
    && Told(f.explanation, shown.explanation, sensitive, WITHHELD_EXPLANATION)
    && Told(f.remediation, shown.remediation, sensitive, WITHHELD_REMEDIATION)
    && (shown.place == if f.place.path.Some? && !sensitive(f.place.path.value) then f.place else Place(None, None, None))
    && Refers(f.evidence, shown.evidence, sensitive)
  }

  lemma {:induction false} HarmlessReferences(refs: seq<Reference>, sensitive: string -> bool)
    requires forall r <- refs :: HarmlessReference(r, sensitive)
    ensures Collect(PublicReference(sensitive), refs) == refs
  {
    if refs != [] {
      var n := |refs| - 1;
      HarmlessReferences(refs[..n], sensitive);
      assert HarmlessReference(refs[n], sensitive);
    }
  }

  lemma {:induction false} DistinctStays<T>(s: seq<T>)
    requires Distinct(s)
    ensures Dedupe(s) == s
  {
    if s != [] {
      var n := |s| - 1;
      DistinctStays(s[..n]);
      assert s[n] !in s[..n];
    }
  }

  lemma ReferenceTold(refs: seq<Reference>, r: Reference, sensitive: string -> bool)
    requires r in refs
    ensures ToldIn(r, Dedupe(Collect(PublicReference(sensitive), refs)), sensitive)
  {
    var q := PublicReference(sensitive)(r)[0];
    InCollect(PublicReference(sensitive), refs, q);
    assert q in Dedupe(Collect(PublicReference(sensitive), refs)) && ToldReference(r, q, sensitive);
  }

  lemma ReferenceTells(refs: seq<Reference>, q: Reference, sensitive: string -> bool)
    requires q in Dedupe(Collect(PublicReference(sensitive), refs))
    ensures TellsOf(q, refs, sensitive)
  {
    InCollect(PublicReference(sensitive), refs, q);
    var r :| r in refs && q in PublicReference(sensitive)(r);
    assert ToldReference(r, q, sensitive);
  }

  lemma ReferencesShown(refs: seq<Reference>, sensitive: string -> bool)
    ensures Refers(refs, Dedupe(Collect(PublicReference(sensitive), refs)), sensitive)
  {
    var shown := Dedupe(Collect(PublicReference(sensitive), refs));
    forall r | r in refs ensures ToldIn(r, shown, sensitive) {
      ReferenceTold(refs, r, sensitive);
    }
    forall q | q in shown ensures TellsOf(q, refs, sensitive) {
      ReferenceTells(refs, q, sensitive);
    }
    if Distinct(refs) && forall r <- refs :: HarmlessReference(r, sensitive) {
      HarmlessReferences(refs, sensitive);
      DistinctStays(refs);
    }
  }

  /** A finding is shown field by field, and only what is sensitive is replaced. */
  lemma PublicFindingShows(f: Finding, sensitive: string -> bool)
    ensures Shows(f, PublicFinding(f, sensitive), sensitive)
  {
    ReferencesShown(f.evidence, sensitive);
  }

  /** No text of a finding is sensitive. */
  predicate Harmless(f: Finding, sensitive: string -> bool) {
    && !sensitive(f.category) && !sensitive(f.explanation) && !sensitive(f.remediation)
    && (f.place.path.Some? ==> !sensitive(f.place.path.value))
    && forall r <- f.evidence :: HarmlessReference(r, sensitive)
  }

  /** A finding with nothing sensitive in it is shown unchanged. */
  lemma HarmlessIsUnchanged(f: Finding, sensitive: string -> bool)
    requires ValidFinding(f) && Harmless(f, sensitive)
    ensures PublicFinding(f, sensitive) == f
  {
    PublicFindingShows(f, sensitive);
  }

  // ---------------------------------------------------------------- the source under review

  predicate Breaks(c: char) {
    || c == '\n' || c == '\r' || c == '\U{000B}' || c == '\U{000C}'
    || c == '\U{001C}' || c == '\U{001D}' || c == '\U{001E}' || c == '\U{0085}' || c == '\U{2028}' || c == '\U{2029}'
  }

  predicate ReturnAndFeed(line: string, i: nat)
    requires i < |line|
  {
    line[i] == '\r' && i + 2 == |line| && line[i + 1] == '\n'
  }

  /** A line has some text, and no break before its end but the return of a return and a line feed. */
  predicate IsLine(line: string) {
    line != "" && forall i | 0 <= i < |line| - 1 :: Breaks(line[i]) ==> ReturnAndFeed(line, i)
  }

  /** A line that is over: what follows it opens another one. */
  predicate IsOver(line: string, next: char)
    requires line != ""
  {
    Breaks(line[|line| - 1]) && !(line[|line| - 1] == '\r' && next == '\n')
  }

  function Joined(lines: seq<string>): string {
    if lines == [] then "" else Joined(lines[..|lines| - 1]) + lines[|lines| - 1]
  }

  predicate OverAt(lines: seq<string>, k: nat) {
    k + 1 < |lines| && lines[k] != "" && lines[k + 1] != "" && IsOver(lines[k], lines[k + 1][0])
  }

  /** The lines a text falls into. */
  ghost predicate SplitsInto(text: string, lines: seq<string>) {
    && Joined(lines) == text && (forall k | 0 <= k < |lines| :: IsLine(lines[k]))
    && forall k | 0 <= k < |lines| - 1 :: OverAt(lines, k)
  }

  lemma JoinedSnoc(lines: seq<string>, line: string)
    ensures Joined(lines + [line]) == Joined(lines) + line
  {
    assert (lines + [line])[..|lines|] == lines;
  }

  /** One more character adds a line when there is none yet or the last one is over. */
  lemma LinesSnoc(text: string, c: char)
    ensures Lines(text + [c]) == Lines(text) + if text == "" || IsOver(text, c) then 1 else 0
  {
    assert (text + [c])[..|text|] == text;
  }

  lemma NewLine(text: string, lines: seq<string>, c: char)
    requires SplitsInto(text, lines) && (lines != [] ==> IsOver(lines[|lines| - 1], c))
    ensures SplitsInto(text + [c], lines + [[c]])
  {
    var all := lines + [[c]];
    JoinedSnoc(lines, [c]);
    forall k | 0 <= k < |all| - 1 ensures OverAt(all, k) {
      assert k < |lines| - 1 ==> OverAt(lines, k);
    }
  }

  lemma LongerLine(text: string, lines: seq<string>, c: char)
    requires SplitsInto(text, lines) && lines != [] && !IsOver(lines[|lines| - 1], c)
    ensures SplitsInto(text + [c], lines[..|lines| - 1] + [lines[|lines| - 1] + [c]])
  {
    var k := |lines| - 1;
    var last, all := lines[k], lines[..k] + [lines[k] + [c]];
    JoinedSnoc(lines[..k], last + [c]);
    JoinedSnoc(lines[..k], last);
    assert lines == lines[..k] + [last];
    LongerIsLine(last, c);
    forall i | 0 <= i < |all| - 1 ensures OverAt(all, i) {
      assert OverAt(lines, i);
      assert i == k - 1 ==> (last + [c])[0] == last[0];
    }
  }

  lemma LongerIsLine(line: string, c: char)
    requires IsLine(line) && !IsOver(line, c)
    ensures IsLine(line + [c])
  {
    assert forall i | 0 <= i < |line| - 1 :: Breaks(line[i]) ==> line[i + 1] == '\n';
    assert forall i | 0 <= i < |line| :: (line + [c])[i] == line[i];
  }

  /** A text counts as many lines as it falls into. */
  lemma {:induction false} LinesAreCounted(text: string) returns (lines: seq<string>)
    ensures SplitsInto(text, lines) && |lines| == Lines(text)
    ensures text != "" ==> lines != [] && lines[|lines| - 1][|lines[|lines| - 1]| - 1] == text[|text| - 1]
  {
    if text == "" {
      lines := [];
    } else {
      var n := |text| - 1;
      var before := LinesAreCounted(text[..n]);
      var c := text[n];
      assert text == text[..n] + [c];
      LinesSnoc(text[..n], c);
      if n == 0 || IsOver(text[..n], c) {
        assert n == 0 ==> before == [];
        NewLine(text[..n], before, c);
        lines := before + [[c]];
      } else {
        LongerLine(text[..n], before, c);
        lines := before[..|before| - 1] + [before[|before| - 1] + [c]];
      }
    }
  }

  /** The last file of the name. */
  ghost predicate LastOf(files: seq<SourceFile>, path: string, i: nat) {
    i < |files| && files[i].path == path && forall j | i < j < |files| :: files[j].path != path
  }

  ghost predicate EndsWithin(p: Place, text: string) {
    p.end.Some? ==> p.end.value <= Lines(text)
  }

  lemma {:induction false} FileLinesMeans(files: seq<SourceFile>, path: string)
    ensures FileLines(files, path).None? <==> forall f <- files :: f.path != path
    ensures FileLines(files, path).Some? ==>
              exists i: nat :: LastOf(files, path, i) && FileLines(files, path).value == Lines(files[i].content)
  {
    if files != [] {
      var n := |files| - 1;
      assert files == files[..n] + [files[n]];
      if files[n].path == path {
        assert LastOf(files, path, n);
      } else {
        FileLinesMeans(files[..n], path);
        if i: nat :| LastOf(files[..n], path, i) && FileLines(files[..n], path).value == Lines(files[..n][i].content) {
          assert LastOf(files, path, i);
        }
      }
    }
  }

  /** A place with a path lies in scope when it ends within the diff, for the name of the diff, or
      within the last file of its name. */
  lemma InScopeMeans(p: Place, request: Request)
    ensures p.path.None? ==> InScope(p, request)
    ensures p.path == Some("diff.patch") ==> (InScope(p, request) <==> EndsWithin(p, request.diff))
    ensures p.path.Some? && p.path.value != "diff.patch" ==>
              (InScope(p, request)
               <==> exists i: nat :: LastOf(request.files, p.path.value, i) && EndsWithin(p, request.files[i].content))
  {
    if p.path.Some? && p.path.value != DIFF_PATH {
      FileLinesMeans(request.files, p.path.value);
      forall i: nat, j: nat | LastOf(request.files, p.path.value, i) && LastOf(request.files, p.path.value, j)
        ensures i == j
      {
      }
    }
  }

  // ---------------------------------------------------------------- the reasons

  /** When a reason is given, the leading ones aside. */
  ghost predicate Doubtful(e: Evidence, r: Reason) {
    match r
    case UntrustedFinding => exists f <- e.report.findings :: !Believed(e, f)
    case UnknownReference => exists p <- e.analysis.findings, id <- p.evidenceIds :: Unclear(e, id)
    case OutsideScope => exists p <- e.analysis.findings :: !InScope(p.place, e.request)
    case TooManyFindings => |e.current.findings| + |e.report.findings| + |e.analysis.findings| > 64
    case InvalidHandoff => false
    case _ => Doubted(e, r)
  }

  /** Not exactly one reference of the deterministic findings goes by the identifier. */
  ghost predicate Unclear(e: Evidence, id: string) {
    |Candidates(Deterministic(e), id)| != 1
  }

  lemma {:induction false} OneEach<T, U>(f: T -> seq<U>, s: seq<T>)
    requires forall x <- s :: |f(x)| == 1
    ensures |Collect(f, s)| == |s|
  {
    if s != [] {
      OneEach(f, s[..|s| - 1]);
    }
  }

  lemma ScreenReason(e: Evidence, r: Reason)
    ensures r in Collect(ScreenDoubt(e), e.report.findings)
       <==> r == UntrustedFinding && exists f <- e.report.findings :: !Believed(e, f)
  {
    forall f ensures Believed(e, f) <==> Trusted(e, f) {
      BelievedIsTrusted(e, f);
    }
    InCollect(ScreenDoubt(e), e.report.findings, r);
  }

  lemma OneProposalReason(e: Evidence, p: Proposed, r: Reason)
    ensures r in ProposalDoubt(e, Deterministic(e))(p)
       <==> || (r == UnknownReference && exists id <- p.evidenceIds :: Unclear(e, id))
            || (r == OutsideScope && !InScope(p.place, e.request))
  {
    InCollect(IdDoubt(Deterministic(e)), p.evidenceIds, r);
  }

  lemma ProposalReason(e: Evidence, r: Reason)
    ensures r in Collect(ProposalDoubt(e, Deterministic(e)), e.analysis.findings)
       <==> (r == UnknownReference || r == OutsideScope) && Doubtful(e, r)
  {
    InCollect(ProposalDoubt(e, Deterministic(e)), e.analysis.findings, r);
    forall p: Proposed
      ensures r in ProposalDoubt(e, Deterministic(e))(p)
         <==> || (r == UnknownReference && exists id <- p.evidenceIds :: Unclear(e, id))
              || (r == OutsideScope && !InScope(p.place, e.request))
    {
      OneProposalReason(e, p, r);
    }
  }

  /** A reason is given exactly when it holds. */
  lemma ReasonsHold(e: Evidence, leading: seq<Reason>, r: Reason)
    requires LeadingReasons(e, leading, 8)
    ensures r in Reasons(e, leading) <==> Doubtful(e, r)
  {
    ScreenReason(e, r);
    ProposalReason(e, r);
    OneEach(Screen(e), e.report.findings);
  }

  // ---------------------------------------------------------------- the result

  /** A sequence of findings, one shown for each. */
  ghost predicate ShowsAll(kept: seq<Finding>, shown: seq<Finding>, sensitive: string -> bool) {
    |shown| == |kept| && forall i | 0 <= i < |kept| :: Shows(kept[i], shown[i], sensitive)
  }

  /** A finding of the scanner counts as it is when it is trusted, and else as a suspicion. */
  ghost predicate Counts(e: Evidence, f: Finding, counted: Finding) {
    counted == if Believed(e, f) then f else f.(confirmation := Suspected)
  }

  ghost predicate CountsAll(e: Evidence, counted: seq<Finding>) {
    |counted| == |e.report.findings|
    && forall i | 0 <= i < |counted| :: Counts(e, e.report.findings[i], counted[i])
  }

  /** The findings of a result are the strongest of those that the request, the scanner and the
      provider contribute, in that order. */
  ghost predicate ShowsStrongest(
    e: Evidence, sensitive: string -> bool, shown: seq<Finding>,
    counted: seq<Finding>, adopted: seq<Finding>, kept: seq<Finding>)
  {
    && CountsAll(e, counted)
    && AdoptsAll(e.current.findings + counted, e.analysis.findings, adopted)
    && Strongest(e.current.findings + counted + adopted, kept)
    && ShowsAll(kept, shown, sensitive)
  }

  lemma {:induction false} ScreenedCounts(e: Evidence, items: seq<Finding>)
    ensures |Collect(Screen(e), items)| == |items|
    ensures forall i | 0 <= i < |items| :: Counts(e, items[i], Collect(Screen(e), items)[i])
  {
    if items != [] {
      ScreenedCounts(e, items[..|items| - 1]);
      BelievedIsTrusted(e, items[|items| - 1]);
    }
  }

  lemma DisclosedShows(kept: seq<Finding>, sensitive: string -> bool)
    ensures ShowsAll(kept, Collect(Disclosed(sensitive), kept), sensitive)
  {
    DisclosedAt(kept, sensitive);
    forall i | 0 <= i < |kept|
      ensures Shows(kept[i], Collect(Disclosed(sensitive), kept)[i], sensitive)
    {
      PublicFindingShows(kept[i], sensitive);
    }
  }

  /** Every result shows the strongest findings, each word for word save for what is sensitive, and
      each reason that holds, once. */
  lemma ResultShowsStrongest(e: Evidence, sensitive: string -> bool, r: SecurityResult)
    returns (counted: seq<Finding>, adopted: seq<Finding>, kept: seq<Finding>)
    requires Decides(e, sensitive, r)
    ensures ShowsStrongest(e, sensitive, r.findings, counted, adopted, kept)
    ensures Distinct(r.reasons) && forall q :: q in r.reasons <==> Doubtful(e, q)
    ensures Told(e.report.suiteId, r.scanner.suiteId, sensitive, REDACTED_SCANNER)
    ensures r.scanner.findingCount == |e.report.findings|
  {
    var leading;
    adopted, leading :| DecidesWith(e, sensitive, r, adopted, leading);
    counted := Collect(Screen(e), e.report.findings);
    ScreenedCounts(e, e.report.findings);
    kept := Kept(Deterministic(e) + adopted);
    KeptIsStrongest(Deterministic(e) + adopted);
    DisclosedShows(kept, sensitive);
    NoReasonIsCut(Reasons(e, leading));
    forall q ensures q in r.reasons <==> Doubtful(e, q) {
      ReasonsHold(e, leading, q);
    }
  }

  /** The published rationale names the decision and then says what the provider said, up to the
      limit, or that it was withheld. */
  lemma RationaleIsTold(e: Evidence, sensitive: string -> bool, r: SecurityResult) returns (said: string)
    requires Decides(e, sensitive, r)
    ensures Told(e.analysis.rationale, said, sensitive, WITHHELD_RATIONALE)
    ensures r.rationale
         == "Deterministic Security decision: "
            + (match r.decision case Pass => "PASS" case Warn => "WARN" case Block => "BLOCK")
            + ". " + if |said| > 16_000 then said[..16_000] else said
  {
    said := PublicText(e.analysis.rationale, sensitive, WITHHELD_RATIONALE);
  }
}
