/** Redaction of secrets from the source under review, with the matches of the secret pattern given. */
module SecretRedaction {
  import opened Wrappers
  import opened Sequences
  import opened TextBounds
  import opened SecurityEvidence
  import SecurityGate

  /** One match of the pattern: where it lies, what replaces it, and which kind it is. */
  datatype Match = Match(start: nat, end: nat, replacement: string, privateKey: bool)

  /** What an evidence identifier is made from. */
  datatype EvidenceKey = EvidenceKey(location: string, line: nat, privateKey: bool, ordinal: nat)

  /** Matches come in order, apart from each other and within the text. */
  predicate WellPlaced(text: string, matches: seq<Match>) {
    && (forall i | 0 <= i < |matches| :: matches[i].start < matches[i].end <= |text|)
    && (forall i, j | 0 <= i < j < |matches| :: matches[i].end <= matches[j].start)
  }

  // ---------------------------------------------------------------- the redacted text

  /** The end of the last match; the start of the text without one. */
  function Covered(matches: seq<Match>): nat {
    if matches == [] then 0 else matches[|matches| - 1].end
  }

  /** The text up to the last match, with every match replaced. */
  function Substituted(text: string, matches: seq<Match>): string
    requires WellPlaced(text, matches)
  {
    if matches == [] then ""
    else
      var n := |matches| - 1;
      Substituted(text, matches[..n]) + text[Covered(matches[..n])..matches[n].start] + matches[n].replacement
  }

  /** The whole text with every match replaced. */
  function Redacted(text: string, matches: seq<Match>): string
    requires WellPlaced(text, matches)
  {
    Substituted(text, matches) + text[Covered(matches)..]
  }

  /** What is retained of a text: as much of the redacted text as the original took up. */
  function Sanitized(text: string, matches: seq<Match>): string
    requires WellPlaced(text, matches)
  {
    BoundText(Redacted(text, matches), |Encode(text)|, |text|).0
  }

  /** Redaction made the text longer than it was, so that some of it is cut. */
  predicate Overflows(text: string, matches: seq<Match>)
    requires WellPlaced(text, matches)
  {
    !Fits(Redacted(text, matches), |Encode(text)|, |text|)
  }

  // ---------------------------------------------------------------- findings

  /** How findings are worded, for private keys and for credentials, and how their evidence is named. */
  datatype Vocabulary = Vocabulary(
    sourceId: string, evidenceId: EvidenceKey -> string, category: bool -> string, explanation: bool -> string, remediation: bool -> string)

  function Newlines(text: string): nat {
    if text == "" then 0 else Newlines(text[..|text| - 1]) + if text[|text| - 1] == '\n' then 1 else 0
  }

  /** The finding for the match with the ordinal. */
  function FindingFor(text: string, m: Match, location: string, ordinal: nat, words: Vocabulary): Finding
    requires m.start < m.end <= |text|
  {
    var line := Newlines(text[..m.start]) + 1;
    Finding(words.category(m.privateKey), if m.privateKey then Critical else High,
            words.explanation(m.privateKey), words.remediation(m.privateKey),
            Place(Some(location), Some(line), Some(line + Newlines(text[m.start..m.end]))), 1.0,
            [Reference(words.sourceId, words.evidenceId(EvidenceKey(location, line, m.privateKey, ordinal)))],
            Confirmed)
  }

  /** The findings for all matches of a text, numbered from the given count. */
  function FindingsFor(text: string, matches: seq<Match>, location: string, count: nat, words: Vocabulary): (r: seq<Finding>)
    requires WellPlaced(text, matches)
    ensures |r| == |matches|
  {
    if matches == [] then []
    else
      var n := |matches| - 1;
      FindingsFor(text, matches[..n], location, count, words) + [FindingFor(text, matches[n], location, count + n + 1, words)]
  }

  class RedactionState {
    var findings: seq<Finding>
    var complete: bool
    var matchCount: nat

    constructor ()
      ensures findings == [] && complete && matchCount == 0
    {
      findings, complete, matchCount := [], true, 0;
    }

    /** The findings are the first of the matches counted, and a complete state lost none. */
    predicate Valid() reads this {
      |findings| == (if matchCount <= MAX_FINDINGS then matchCount else MAX_FINDINGS)
      && (complete ==> matchCount <= MAX_FINDINGS)
    }

    /** Counts one match and keeps its finding while there is room. */
    method Replace(text: string, m: Match, location: string, words: Vocabulary) returns (replacement: string)
      requires m.start < m.end <= |text| && Valid()
      modifies this
      ensures Valid() && matchCount == old(matchCount) + 1 && replacement == m.replacement
      ensures findings == Take(old(findings) + [FindingFor(text, m, location, matchCount, words)], MAX_FINDINGS)
      ensures complete == (old(complete) && matchCount <= MAX_FINDINGS)
    {
      matchCount := matchCount + 1;
      if |findings| < MAX_FINDINGS {
        findings := findings + [FindingFor(text, m, location, matchCount, words)];
      } else {
        complete := false;
      }
      replacement := m.replacement;
    }

    /** Replaces the match at the index, after those before it. */
    method ReplaceNext(text: string, matches: seq<Match>, i: nat, location: string, words: Vocabulary,
                       ghost count: nat, ghost before: seq<Finding>)
      returns (replacement: string)
      requires i < |matches| && WellPlaced(text, matches) && Valid() && matchCount == count + i
      requires Recorded(text, matches[..i], location, count, words, before, findings)
      modifies this
      ensures Valid() && matchCount == count + i + 1 && replacement == matches[i].replacement
      ensures Recorded(text, matches[..i + 1], location, count, words, before, findings)
      ensures complete == (old(complete) && matchCount <= MAX_FINDINGS)
    {
      PlacedSnoc(text, matches, i);
      RecordedSnoc(text, matches[..i], matches[i], location, count, words, before, findings);
      replacement := Replace(text, matches[i], location, words);
    }

    /** Replaces the matches of one text one after another. */
    method ReplaceAll(text: string, matches: seq<Match>, location: string, words: Vocabulary)
      returns (redacted: string)
      requires WellPlaced(text, matches) && Valid()
      modifies this
      ensures Valid() && matchCount == old(matchCount) + |matches|
      ensures Recorded(text, matches, location, old(matchCount), words, old(findings), findings)
      ensures complete == (old(complete) && matchCount <= MAX_FINDINGS)
      ensures redacted == Redacted(text, matches)
    {
      redacted := "";
      NothingRecorded(text, location, matchCount, words, findings);
      for i := 0 to |matches|
        invariant Valid() && matchCount == old(matchCount) + i
        invariant Recorded(text, matches[..i], location, old(matchCount), words, old(findings), findings)
        invariant complete == (old(complete) && matchCount <= MAX_FINDINGS)
        invariant Substitutes(text, matches[..i], redacted)
      {
        SubstitutesSnoc(text, matches, i, redacted);
        var replacement := ReplaceNext(text, matches, i, location, words, old(matchCount), old(findings));
        redacted := redacted + text[Covered(matches[..i])..matches[i].start] + replacement;
      }
      assert matches[..|matches|] == matches;
      redacted := redacted + text[Covered(matches)..];
    }

    /** Redacts one text. Every match is counted, the findings are cut at their limit, and the state
        stays complete exactly when no finding is lost and the redacted text fits. */
    method SanitizeText(text: string, matches: seq<Match>, location: string, words: Vocabulary)
      returns (bounded: string)
      requires WellPlaced(text, matches) && Valid()
      modifies this
      ensures Valid() && matchCount == old(matchCount) + |matches|
      ensures Recorded(text, matches, location, old(matchCount), words, old(findings), findings)
      ensures complete == (old(complete) && matchCount <= MAX_FINDINGS && !Overflows(text, matches))
      ensures bounded == Sanitized(text, matches)
    {
      var redacted := ReplaceAll(text, matches, location, words);
      var bytes, characters := |Encode(text)|, |text|;
      BoundTextIsLongestPrefix(redacted, bytes, characters);
      var result := BoundText(redacted, bytes, characters);
      bounded := result.0;
      if result.1 {
        complete := false;
      }
    }
  }

  /** The text up to the last match, with every match replaced. */
  ghost predicate Substitutes(text: string, matches: seq<Match>, redacted: string) {
    WellPlaced(text, matches) && redacted == Substituted(text, matches)
  }

  lemma SubstitutesSnoc(text: string, matches: seq<Match>, i: nat, redacted: string)
    requires i < |matches| && WellPlaced(text, matches) && Substitutes(text, matches[..i], redacted)
    ensures Covered(matches[..i]) <= matches[i].start < |text|
    ensures Substitutes(text, matches[..i + 1],
                        redacted + text[Covered(matches[..i])..matches[i].start] + matches[i].replacement)
  {
    PlacedSnoc(text, matches, i);
  }

  lemma PlacedSnoc(text: string, matches: seq<Match>, i: nat)
    requires i < |matches| && WellPlaced(text, matches)
    ensures WellPlaced(text, matches[..i]) && Covered(matches[..i]) <= matches[i].start
    ensures matches[..i + 1] == matches[..i] + [matches[i]] && WellPlaced(text, matches[..i] + [matches[i]])
    ensures Substituted(text, matches[..i + 1])
            == Substituted(text, matches[..i]) + text[Covered(matches[..i])..matches[i].start] + matches[i].replacement
  {
    assert matches[..i + 1][..i] == matches[..i];
  }

  /** The findings are those from before and of the matches, up to their limit. */
  ghost predicate Recorded(
    text: string, matches: seq<Match>, location: string, count: nat, words: Vocabulary,
    before: seq<Finding>, findings: seq<Finding>)
  {
    WellPlaced(text, matches) && findings == Take(before + FindingsFor(text, matches, location, count, words), MAX_FINDINGS)
  }

  lemma NothingRecorded(text: string, location: string, count: nat, words: Vocabulary, before: seq<Finding>)
    requires |before| <= MAX_FINDINGS
    ensures Recorded(text, [], location, count, words, before, before)
  {
    assert before + FindingsFor(text, [], location, count, words) == before;
  }

  lemma RecordedSnoc(
    text: string, matches: seq<Match>, m: Match, location: string, count: nat, words: Vocabulary,
    before: seq<Finding>, findings: seq<Finding>)
    requires Recorded(text, matches, location, count, words, before, findings)
    requires m.start < m.end <= |text| && WellPlaced(text, matches + [m])
    ensures Recorded(text, matches + [m], location, count, words, before,
                     Take(findings + [FindingFor(text, m, location, count + |matches| + 1, words)], MAX_FINDINGS))
  {
    FindingsSnoc(text, matches, m, location, count, words);
    TakeAppend(before, FindingsFor(text, matches, location, count, words),
               FindingFor(text, m, location, count + |matches| + 1, words), MAX_FINDINGS);
  }

  lemma TakeAppend<T>(a: seq<T>, b: seq<T>, x: T, n: nat)
    ensures Take(Take(a + b, n) + [x], n) == Take(a + (b + [x]), n)
  {
    TakeSnoc(a + b, x, n);
    assert a + b + [x] == a + (b + [x]);
  }

  lemma FindingsSnoc(text: string, matches: seq<Match>, m: Match, location: string, count: nat, words: Vocabulary)
    requires WellPlaced(text, matches) && m.start < m.end <= |text| && WellPlaced(text, matches + [m])
    ensures FindingsFor(text, matches + [m], location, count, words)
            == FindingsFor(text, matches, location, count, words) + [FindingFor(text, m, location, count + |matches| + 1, words)]
  {
    var all, n := matches + [m], |matches|;
    assert all[..n] == matches && all[n] == m && |all| - 1 == n;
  }

  lemma TakeSnoc<T>(s: seq<T>, x: T, n: nat)
    ensures Take(Take(s, n) + [x], n) == Take(s + [x], n)
  {
  }

  // ---------------------------------------------------------------- the whole source

  type Matcher = string -> seq<Match>

  /** The texts of a request in the order in which they are redacted. */
  function Texts(request: Request): seq<SourceFile> {
    [SourceFile(SecurityGate.DIFF_PATH, request.diff)] + request.files
  }

  ghost predicate MatchesIn(texts: seq<SourceFile>, matcher: Matcher) {
    forall i | 0 <= i < |texts| :: WellPlaced(texts[i].content, matcher(texts[i].content))
  }

  function CountOver(texts: seq<SourceFile>, matcher: Matcher): nat {
    if texts == [] then 0
    else CountOver(texts[..|texts| - 1], matcher) + |matcher(texts[|texts| - 1].content)|
  }

  /** The findings of all texts, numbered through. */
  function FindingsOver(texts: seq<SourceFile>, matcher: Matcher, words: Vocabulary): (r: seq<Finding>)
    requires MatchesIn(texts, matcher)
    ensures |r| == CountOver(texts, matcher)
  {
    if texts == [] then []
    else
      var n := |texts| - 1;
      assert MatchesIn(texts[..n], matcher);
      FindingsOver(texts[..n], matcher, words)
      + FindingsFor(texts[n].content, matcher(texts[n].content), texts[n].path, CountOver(texts[..n], matcher), words)
  }

  ghost predicate SomeOverflow(texts: seq<SourceFile>, matcher: Matcher)
    requires MatchesIn(texts, matcher)
  {
    exists i | 0 <= i < |texts| :: Overflows(texts[i].content, matcher(texts[i].content))
  }

  /** Where the state stands after the texts. */
  ghost predicate Redacts(
    texts: seq<SourceFile>, matcher: Matcher, words: Vocabulary, findings: seq<Finding>, complete: bool, count: nat)
  {
    && MatchesIn(texts, matcher) && count == CountOver(texts, matcher)
    && findings == Take(FindingsOver(texts, matcher, words), MAX_FINDINGS)
    && complete == (count <= MAX_FINDINGS && !SomeOverflow(texts, matcher))
  }

  lemma TakeConcat<T>(s: seq<T>, t: seq<T>, n: nat)
    ensures Take(Take(s, n) + t, n) == Take(s + t, n)
  {
  }

  lemma MatchesSnoc(texts: seq<SourceFile>, file: SourceFile, matcher: Matcher)
    requires MatchesIn(texts, matcher) && WellPlaced(file.content, matcher(file.content))
    ensures MatchesIn(texts + [file], matcher)
    ensures CountOver(texts + [file], matcher) == CountOver(texts, matcher) + |matcher(file.content)|
  {
    assert (texts + [file])[..|texts|] == texts;
  }

  lemma OverflowSnoc(texts: seq<SourceFile>, file: SourceFile, matcher: Matcher)
    requires MatchesIn(texts, matcher) && MatchesIn(texts + [file], matcher)
    requires WellPlaced(file.content, matcher(file.content))
    ensures SomeOverflow(texts + [file], matcher)
            <==> SomeOverflow(texts, matcher) || Overflows(file.content, matcher(file.content))
  {
    var all := texts + [file];
    assert all[|texts|] == file;
    assert forall i | 0 <= i < |texts| :: all[i] == texts[i];
    if SomeOverflow(texts, matcher) {
      var i :| 0 <= i < |texts| && Overflows(texts[i].content, matcher(texts[i].content));
      assert Overflows(all[i].content, matcher(all[i].content));
    }
    if Overflows(file.content, matcher(file.content)) {
      assert Overflows(all[|texts|].content, matcher(all[|texts|].content));
    }
  }

  lemma OverSnoc(texts: seq<SourceFile>, file: SourceFile, matcher: Matcher, words: Vocabulary)
    requires MatchesIn(texts, matcher) && WellPlaced(file.content, matcher(file.content))
    requires MatchesIn(texts + [file], matcher)
    ensures FindingsOver(texts + [file], matcher, words)
            == FindingsOver(texts, matcher, words)
               + FindingsFor(file.content, matcher(file.content), file.path, CountOver(texts, matcher), words)
  {
    assert (texts + [file])[..|texts|] == texts;
  }

  lemma RedactsSnoc(
    texts: seq<SourceFile>, file: SourceFile, matcher: Matcher, words: Vocabulary,
    findings: seq<Finding>, complete: bool, count: nat, more: seq<Finding>)
    requires Redacts(texts, matcher, words, findings, complete, count)
    requires Recorded(file.content, matcher(file.content), file.path, count, words, findings, more)
    ensures var total := count + |matcher(file.content)|;
            Redacts(texts + [file], matcher, words, more,
                    complete && total <= MAX_FINDINGS && !Overflows(file.content, matcher(file.content)), total)
  {
    MatchesSnoc(texts, file, matcher);
    OverflowSnoc(texts, file, matcher);
    OverSnoc(texts, file, matcher, words);
    TakeConcat(FindingsOver(texts, matcher, words),
               FindingsFor(file.content, matcher(file.content), file.path, count, words), MAX_FINDINGS);
  }

  ghost predicate SanitizedFiles(files: seq<SourceFile>, matcher: Matcher, sanitized: seq<SourceFile>) {
    && MatchesIn(files, matcher) && |sanitized| == |files|
    && forall i | 0 <= i < |files| ::
         sanitized[i] == SourceFile(files[i].path, Sanitized(files[i].content, matcher(files[i].content)))
  }

  lemma SanitizedSnoc(files: seq<SourceFile>, file: SourceFile, matcher: Matcher, sanitized: seq<SourceFile>, content: string)
    requires SanitizedFiles(files, matcher, sanitized)
    requires WellPlaced(file.content, matcher(file.content)) && content == Sanitized(file.content, matcher(file.content))
    ensures SanitizedFiles(files + [file], matcher, sanitized + [SourceFile(file.path, content)])
  {
  }

  /** The redacted diff and files, every finding up to the limit, and whether nothing was lost. */
  ghost predicate IsSanitized(request: Request, matcher: Matcher, words: Vocabulary, s: Source) {
    && Redacts(Texts(request), matcher, words, s.findings, s.complete, CountOver(Texts(request), matcher))
    && WellPlaced(request.diff, matcher(request.diff)) && s.diff == Sanitized(request.diff, matcher(request.diff))
    && SanitizedFiles(request.files, matcher, s.files)
  }

  lemma TextsPlaced(request: Request, matcher: Matcher)
    requires MatchesIn(Texts(request), matcher)
    ensures WellPlaced(request.diff, matcher(request.diff)) && MatchesIn(request.files, matcher)
    ensures Texts(request)[..1] == [SourceFile(SecurityGate.DIFF_PATH, request.diff)]
    ensures forall i | 0 <= i < |request.files| :: Texts(request)[..i + 2] == Texts(request)[..i + 1] + [request.files[i]]
  {
    var texts := Texts(request);
    assert texts[0].content == request.diff;
    assert forall i | 0 <= i < |request.files| :: texts[i + 1] == request.files[i];
  }

  lemma NoTextsYet(matcher: Matcher, words: Vocabulary)
    ensures Redacts([], matcher, words, [], true, 0)
  {
  }

  /** Redacts the file at the index, after the texts before it. */
  method SanitizeFile(request: Request, i: nat, matcher: Matcher, words: Vocabulary, state: RedactionState)
    returns (content: string)
    requires i < |request.files| && MatchesIn(Texts(request), matcher) && state.Valid()
    requires Redacts(Texts(request)[..i + 1], matcher, words, state.findings, state.complete, state.matchCount)
    modifies state
    ensures state.Valid()
    ensures Redacts(Texts(request)[..i + 2], matcher, words, state.findings, state.complete, state.matchCount)
    ensures WellPlaced(request.files[i].content, matcher(request.files[i].content))
    ensures content == Sanitized(request.files[i].content, matcher(request.files[i].content))
  {
    TextsPlaced(request, matcher);
    var file := request.files[i];
    ghost var findings, complete, count := state.findings, state.complete, state.matchCount;
    content := state.SanitizeText(file.content, matcher(file.content), file.path, words);
    RedactsSnoc(Texts(request)[..i + 1], file, matcher, words, findings, complete, count, state.findings);
  }

  /** Redacts the files one after another, with the diff redacted before them. */
  method SanitizeFiles(request: Request, matcher: Matcher, words: Vocabulary, state: RedactionState)
    returns (files: seq<SourceFile>)
    requires MatchesIn(Texts(request), matcher) && state.Valid()
    requires Redacts(Texts(request)[..1], matcher, words, state.findings, state.complete, state.matchCount)
    modifies state
    ensures Redacts(Texts(request), matcher, words, state.findings, state.complete, state.matchCount)
    ensures SanitizedFiles(request.files, matcher, files)
  {
    files := [];
    for i := 0 to |request.files|
      invariant state.Valid()
      invariant Redacts(Texts(request)[..i + 1], matcher, words, state.findings, state.complete, state.matchCount)
      invariant SanitizedFiles(request.files[..i], matcher, files)
    {
      var file := request.files[i];
      var content := SanitizeFile(request, i, matcher, words, state);
      SanitizedSnoc(request.files[..i], file, matcher, files, content);
      assert request.files[..i + 1] == request.files[..i] + [file];
      files := files + [SourceFile(file.path, content)];
    }
    assert request.files[..|request.files|] == request.files;
    assert Texts(request)[..|request.files| + 1] == Texts(request);
  }

  method SanitizeSource(request: Request, matcher: Matcher, words: Vocabulary) returns (s: Source)
    requires MatchesIn(Texts(request), matcher)
    ensures IsSanitized(request, matcher, words, s)
  {
    var state := new RedactionState();
    TextsPlaced(request, matcher);
    NoTextsYet(matcher, words);
    var diff := state.SanitizeText(request.diff, matcher(request.diff), SecurityGate.DIFF_PATH, words);
    RedactsSnoc([], Texts(request)[0], matcher, words, [], true, 0, state.findings);
    assert [] + [Texts(request)[0]] == Texts(request)[..1];
    var files := SanitizeFiles(request, matcher, words, state);
    s := Source(diff, files, state.findings, state.complete);
  }
}
