/** What redaction guarantees, and what a found secret means for the decision. */
module RedactionSafety {
  import opened Wrappers
  import opened Sequences
  import opened TextBounds
  import opened SecurityEvidence
  import opened SecretRedaction
  import SecurityGate
  import SecurityVeto

  // ---------------------------------------------------------------- texts

  /** A sanitized text takes up no more room than the original, and is the redacted text or a proper
      prefix of it. */
  lemma SanitizedWithinOriginal(text: string, matches: seq<Match>)
    requires WellPlaced(text, matches)
    ensures Fits(Sanitized(text, matches), |Encode(text)|, |text|)
    ensures Sanitized(text, matches) <= Redacted(text, matches)
    ensures Overflows(text, matches) <==> Sanitized(text, matches) != Redacted(text, matches)
  {
    BoundTextIsLongestPrefix(Redacted(text, matches), |Encode(text)|, |text|);
  }

  /** Outside the matches the redacted text is the original: replacing every match by what it
      matched gives the original back. */
  lemma {:induction false} UnreplacedIsOriginal(text: string, matches: seq<Match>)
    requires WellPlaced(text, matches)
    requires forall m <- matches :: m.replacement == text[m.start..m.end]
    ensures Substituted(text, matches) == text[..Covered(matches)]
    ensures Redacted(text, matches) == text
  {
    if matches != [] {
      var n := |matches| - 1;
      var before, m := Covered(matches[..n]), matches[n];
      UnreplacedIsOriginal(text, matches[..n]);
      Glue(text, before, m.start);
      Glue(text, m.start, m.end);
    }
    Glue(text, Covered(matches), |text|);
    assert text[..|text|] == text;
  }

  lemma Glue(text: string, a: nat, b: nat)
    requires a <= b <= |text|
    ensures text[..a] + text[a..b] == text[..b]
  {
  }

  /** What is retained is the same whatever the secrets were: two texts of one size that differ only
      inside equally placed matches are redacted and bounded alike. */
  lemma {:induction false} SecretsLeaveNoTrace(a: string, b: string, matches: seq<Match>)
    requires WellPlaced(a, matches) && |a| == |b|
    requires forall i | 0 <= i < |a| :: a[i] == b[i] || exists m <- matches :: m.start <= i < m.end
    ensures Substituted(a, matches) == Substituted(b, matches) && Redacted(a, matches) == Redacted(b, matches)
    ensures |Encode(a)| == |Encode(b)| ==> Sanitized(a, matches) == Sanitized(b, matches)
  {
    forall i | 0 <= i <= |matches|
      ensures GapAlike(a, b, matches, i)
    {
      GapsAlike(a, b, matches, i);
    }
    SubstitutedAlike(a, b, matches, |matches|);
    assert matches[..|matches|] == matches;
    assert GapAlike(a, b, matches, |matches|);
  }

  /** The end of the match before the index, and the start of the match at it. */
  function GapStart(matches: seq<Match>, i: nat): nat
    requires i <= |matches|
  {
    if i == 0 then 0 else matches[i - 1].end
  }

  function GapEnd(text: string, matches: seq<Match>, i: nat): nat
    requires i <= |matches|
  {
    if i == |matches| then |text| else matches[i].start
  }

  ghost predicate GapAlike(a: string, b: string, matches: seq<Match>, i: nat)
    requires WellPlaced(a, matches) && |a| == |b| && i <= |matches|
  {
    GapStart(matches, i) <= GapEnd(a, matches, i) &&
    a[GapStart(matches, i)..GapEnd(a, matches, i)] == b[GapStart(matches, i)..GapEnd(a, matches, i)]
  }

  lemma GapsAlike(a: string, b: string, matches: seq<Match>, i: nat)
    requires WellPlaced(a, matches) && |a| == |b| && i <= |matches|
    requires forall k | 0 <= k < |a| :: a[k] == b[k] || exists m <- matches :: m.start <= k < m.end
    ensures GapAlike(a, b, matches, i)
  {
    var low, high := GapStart(matches, i), GapEnd(a, matches, i);
    forall m | m in matches ensures m.end <= low || m.start >= high {
      var j :| 0 <= j < |matches| && matches[j] == m;
      assert j < i - 1 ==> matches[j].end <= matches[i - 1].start;
      assert j > i && i < |matches| ==> matches[i].end <= matches[j].start;
    }
    assert forall k | low <= k < high :: a[k] == b[k];
  }

  lemma {:induction false} SubstitutedAlike(a: string, b: string, matches: seq<Match>, n: nat)
    requires WellPlaced(a, matches) && |a| == |b| && n <= |matches|
    requires forall i | 0 <= i <= |matches| :: GapAlike(a, b, matches, i)
    ensures WellPlaced(a, matches[..n]) && WellPlaced(b, matches[..n])
    ensures Substituted(a, matches[..n]) == Substituted(b, matches[..n])
  {
    if n > 0 {
      SubstitutedAlike(a, b, matches, n - 1);
      assert matches[..n][..n - 1] == matches[..n - 1];
      assert GapAlike(a, b, matches, n - 1);
      assert Covered(matches[..n - 1]) == GapStart(matches, n - 1);
    }
  }

  // ---------------------------------------------------------------- what a finding says

  /** The line breaks of a text up to a position. */
  ghost function BreaksBefore(text: string, n: nat): set<nat>
    requires n <= |text|
  {
    set i: nat | i < n && text[i] == '\n'
  }

  lemma {:induction false} NewlinesAreBreaks(text: string, n: nat)
    requires n <= |text|
    ensures Newlines(text[..n]) == |BreaksBefore(text, n)|
  {
    if n == 0 {
      assert BreaksBefore(text, 0) == {};
    } else {
      NewlinesAreBreaks(text, n - 1);
      assert text[..n][..n - 1] == text[..n - 1];
      assert BreaksBefore(text, n) == BreaksBefore(text, n - 1) + if text[n - 1] == '\n' then {n - 1} else {};
    }
  }

  lemma {:induction false} NewlinesConcat(a: string, b: string)
    ensures Newlines(a + b) == Newlines(a) + Newlines(b)
  {
    if b == "" {
      assert a + b == a;
    } else {
      var n := |b| - 1;
      NewlinesConcat(a, b[..n]);
      assert (a + b)[..|a + b| - 1] == a + b[..n];
    }
  }

  /** A finding is for one match: confirmed, critical for a private key and high for a credential, on
      the lines the match covers, with one evidence of its own place and number. */
  ghost predicate Describes(f: Finding, text: string, m: Match, location: string, ordinal: nat, words: Vocabulary)
    requires m.start < m.end <= |text|
  {
    var first, last := |BreaksBefore(text, m.start)| + 1, |BreaksBefore(text, m.end)| + 1;
    && f.confirmation == Confirmed && f.confidence == 1.0
    && (m.privateKey ==> f.severity == Critical) && (!m.privateKey ==> f.severity == High)
    && f.category == words.category(m.privateKey) && f.explanation == words.explanation(m.privateKey)
    && f.remediation == words.remediation(m.privateKey)
    && f.place == Place(Some(location), Some(first), Some(last))
    && f.evidence == [Reference(words.sourceId, words.evidenceId(EvidenceKey(location, first, m.privateKey, ordinal)))]
  }

  /** The findings of a text are for its matches, one after another, and numbered on from the count. */
  lemma {:induction false} FindingsDescribe(
    text: string, matches: seq<Match>, location: string, count: nat, words: Vocabulary, i: nat)
    requires WellPlaced(text, matches) && i < |matches|
    ensures Describes(FindingsFor(text, matches, location, count, words)[i], text, matches[i], location, count + i + 1, words)
  {
    var n := |matches| - 1;
    if i < n {
      FindingsDescribe(text, matches[..n], location, count, words, i);
    } else {
      var m := matches[n];
      NewlinesAreBreaks(text, m.start);
      NewlinesAreBreaks(text, m.end);
      NewlinesConcat(text[..m.start], text[m.start..m.end]);
      Glue(text, m.start, m.end);
    }
  }

  // ---------------------------------------------------------------- what is left of a text

  /** Every replacement starts with an ASCII character, or as what it replaces does. */
  predicate StartsSmall(text: string, matches: seq<Match>)
    requires WellPlaced(text, matches)
  {
    forall i | 0 <= i < |matches| ::
      matches[i].replacement != ""
      && (matches[i].replacement[0] as int < 128 || matches[i].replacement[0] == text[matches[i].start])
  }

  lemma {:induction false} FirstSubstituted(text: string, matches: seq<Match>)
    requires WellPlaced(text, matches) && StartsSmall(text, matches) && matches != []
    ensures Substituted(text, matches) != ""
    ensures |EncodeChar(Substituted(text, matches)[0])| <= |EncodeChar(text[0])|
  {
    var n := |matches| - 1;
    if n > 0 {
      FirstSubstituted(text, matches[..n]);
    } else {
      assert matches[..0] == [] && Substituted(text, matches[..0]) == "";
    }
  }

  /** A text is never redacted away altogether. */
  lemma SanitizedIsNotEmpty(text: string, matches: seq<Match>)
    requires text != "" && WellPlaced(text, matches) && StartsSmall(text, matches)
    ensures Sanitized(text, matches) != ""
  {
    var redacted := Redacted(text, matches);
    if matches == [] {
      assert redacted == text;
    } else {
      FirstSubstituted(text, matches);
      assert redacted[0] == Substituted(text, matches)[0];
    }
    assert redacted[..1] == [redacted[0]];
    assert |Encode(redacted[..1])| == |EncodeChar(redacted[0])|;
    assert Fits(redacted[..1], |Encode(text)|, |text|);
    BoundTextIsLongestPrefix(redacted, |Encode(text)|, |text|);
  }

  // ---------------------------------------------------------------- findings

  /** The finding for one numbered match. */
  ghost predicate Numbered(f: Finding, ordinal: nat, words: Vocabulary) {
    && IsVeto(f) && f.place.path.Some?
    && (exists key: EvidenceKey ::
          key.ordinal == ordinal && f.evidence == [Reference(words.sourceId, words.evidenceId(key))])
  }

  lemma FindingIsNumbered(text: string, m: Match, location: string, ordinal: nat, words: Vocabulary)
    requires m.start < m.end <= |text|
    ensures Numbered(FindingFor(text, m, location, ordinal, words), ordinal, words)
  {
    var key := EvidenceKey(location, Newlines(text[..m.start]) + 1, m.privateKey, ordinal);
    assert key.ordinal == ordinal;
  }

  lemma {:induction false} TextFindingAt(
    text: string, matches: seq<Match>, location: string, count: nat, words: Vocabulary, i: nat)
    requires WellPlaced(text, matches) && i < |matches|
    ensures FindingsFor(text, matches, location, count, words)[i]
            == FindingFor(text, matches[i], location, count + i + 1, words)
  {
    var n := |matches| - 1;
    if i < n {
      TextFindingAt(text, matches[..n], location, count, words, i);
    }
  }

  lemma FindingOverSplit(texts: seq<SourceFile>, matcher: Matcher, words: Vocabulary, i: nat)
    requires MatchesIn(texts, matcher) && texts != [] && i < CountOver(texts, matcher)
    ensures var n := |texts| - 1;
            var file, before := texts[n], CountOver(texts[..n], matcher);
            && MatchesIn(texts[..n], matcher) && WellPlaced(file.content, matcher(file.content))
            && (i < before ==> FindingsOver(texts, matcher, words)[i] == FindingsOver(texts[..n], matcher, words)[i])
            && (i >= before ==>
                  FindingsOver(texts, matcher, words)[i]
                  == FindingsFor(file.content, matcher(file.content), file.path, before, words)[i - before])
  {
    assert MatchesIn(texts[..|texts| - 1], matcher);
  }

  lemma {:induction false} FindingOverAt(texts: seq<SourceFile>, matcher: Matcher, words: Vocabulary, i: nat)
    returns (file: SourceFile, m: Match)
    requires MatchesIn(texts, matcher) && i < CountOver(texts, matcher)
    ensures file in texts && m.start < m.end <= |file.content|
    ensures FindingsOver(texts, matcher, words)[i] == FindingFor(file.content, m, file.path, i + 1, words)
  {
    var n := |texts| - 1;
    var before := CountOver(texts[..n], matcher);
    FindingOverSplit(texts, matcher, words, i);
    if i < before {
      file, m := FindingOverAt(texts[..n], matcher, words, i);
    } else {
      file := texts[n];
      var matches := matcher(file.content);
      m := matches[i - before];
      TextFindingAt(file.content, matches, file.path, before, words, i - before);
    }
  }

  /** Findings are numbered through over all texts, from one. */
  lemma FindingsAreNumbered(texts: seq<SourceFile>, matcher: Matcher, words: Vocabulary, i: nat)
    requires MatchesIn(texts, matcher) && i < CountOver(texts, matcher)
    ensures Numbered(FindingsOver(texts, matcher, words)[i], i + 1, words)
  {
    var file, m := FindingOverAt(texts, matcher, words, i);
    FindingIsNumbered(file.content, m, file.path, i + 1, words);
  }

  /** No two findings carry the same evidence when keys are named apart. */
  lemma EvidenceIsDistinct(request: Request, matcher: Matcher, words: Vocabulary, s: Source, i: nat, j: nat)
    requires IsSanitized(request, matcher, words, s) && i < j < |s.findings|
    requires forall a, b :: words.evidenceId(a) == words.evidenceId(b) ==> a == b
    ensures s.findings[i].evidence != s.findings[j].evidence
  {
    FindingsAreNumbered(Texts(request), matcher, words, i);
    FindingsAreNumbered(Texts(request), matcher, words, j);
  }

  /** A request whose texts match anywhere is blocked, whatever the scanner and the provider say and
      whatever sanitization the caller supplies. */
  lemma SecretAlwaysBlocks(
    matcher: Matcher, words: Vocabulary, e: SecurityGate.Evidence, sensitive: string -> bool, r: SecurityResult)
    requires IsSanitized(e.request, matcher, words, e.current) && CountOver(Texts(e.request), matcher) > 0
    requires SecurityGate.Decides(e, sensitive, r)
    ensures r.decision == Block
  {
    FindingsAreNumbered(Texts(e.request), matcher, words, 0);
    assert e.current.findings[0] in e.current.findings;
    SecurityVeto.DecisionMeaning(e, sensitive, r);
  }

  lemma {:induction false} NoMatches(texts: seq<SourceFile>, matcher: Matcher, i: nat)
    requires CountOver(texts, matcher) == 0 && i < |texts|
    ensures matcher(texts[i].content) == []
  {
    if i < |texts| - 1 {
      NoMatches(texts[..|texts| - 1], matcher, i);
    }
  }

  lemma UnmatchedIsUnchanged(text: string)
    ensures Sanitized(text, []) == text && !Overflows(text, [])
  {
    UnreplacedIsOriginal(text, []);
    SanitizedWithinOriginal(text, []);
  }

  lemma UnmatchedOverflowsNowhere(texts: seq<SourceFile>, matcher: Matcher)
    requires MatchesIn(texts, matcher) && CountOver(texts, matcher) == 0
    ensures !SomeOverflow(texts, matcher)
  {
    forall i | 0 <= i < |texts| ensures !Overflows(texts[i].content, matcher(texts[i].content)) {
      NoMatches(texts, matcher, i);
      UnmatchedIsUnchanged(texts[i].content);
    }
  }

  lemma UnmatchedIsComplete(
    texts: seq<SourceFile>, matcher: Matcher, words: Vocabulary, findings: seq<Finding>, complete: bool)
    requires Redacts(texts, matcher, words, findings, complete, 0)
    ensures findings == [] && complete
  {
    UnmatchedOverflowsNowhere(texts, matcher);
    assert |FindingsOver(texts, matcher, words)| == 0;
  }

  lemma UnmatchedFiles(files: seq<SourceFile>, matcher: Matcher, sanitized: seq<SourceFile>)
    requires MatchesIn(files, matcher) && SanitizedFiles(files, matcher, sanitized)
    requires forall i | 0 <= i < |files| :: matcher(files[i].content) == []
    ensures sanitized == files
  {
    forall i | 0 <= i < |files| ensures sanitized[i] == files[i] {
      UnmatchedIsUnchanged(files[i].content);
    }
  }

  /** Nothing matches in the diff or in any file. */
  lemma NoneMatches(request: Request, matcher: Matcher)
    requires CountOver(Texts(request), matcher) == 0
    ensures matcher(request.diff) == []
    ensures forall i | 0 <= i < |request.files| :: matcher(request.files[i].content) == []
  {
    NoMatches(Texts(request), matcher, 0);
    forall i | 0 <= i < |request.files| ensures matcher(request.files[i].content) == [] {
      NoMatches(Texts(request), matcher, i + 1);
    }
  }

  /** A request without matches is sanitized to itself, completely and without findings. */
  lemma CleanSourceIsUnchanged(request: Request, matcher: Matcher, words: Vocabulary, s: Source)
    requires IsSanitized(request, matcher, words, s) && CountOver(Texts(request), matcher) == 0
    ensures s == Source(request.diff, request.files, [], true)
  {
    UnmatchedIsComplete(Texts(request), matcher, words, s.findings, s.complete);
    NoneMatches(request, matcher);
    UnmatchedFiles(request.files, matcher, s.files);
    UnmatchedIsUnchanged(request.diff);
  }

  // ---------------------------------------------------------------- validity

  predicate BoundedTexts(texts: seq<SourceFile>) {
    forall f <- texts :: 1 <= |f.path| <= 1_024 && |f.content| <= 16_384
  }

  lemma {:induction false} NewlinesBound(text: string)
    ensures Newlines(text) <= |text|
  {
    if text != "" {
      NewlinesBound(text[..|text| - 1]);
    }
  }

  ghost predicate ValidVocabulary(words: Vocabulary) {
    && IsIdentifier(words.sourceId) && (forall key :: IsIdentifier(words.evidenceId(key)))
    && (forall k :: IsIdentifier(words.category(k)))
    && (forall k :: IsText(words.explanation(k), 4_096) && IsText(words.remediation(k), 4_096))
  }

  lemma FindingIsValid(text: string, m: Match, location: string, ordinal: nat, words: Vocabulary)
    requires m.start < m.end <= |text| <= 16_384 && 1 <= |location| <= 1_024
    requires ValidVocabulary(words)
    ensures ValidFinding(FindingFor(text, m, location, ordinal, words))
  {
    var f := FindingFor(text, m, location, ordinal, words);
    PlaceIsValid(text, m, location);
    assert ValidPlace(f.place);
    assert |f.evidence| == 1 && Distinct(f.evidence) && ValidReference(f.evidence[0]);
  }

  lemma PlaceIsValid(text: string, m: Match, location: string)
    requires m.start < m.end <= |text| <= 16_384 && 1 <= |location| <= 1_024
    ensures var line := Newlines(text[..m.start]) + 1;
            ValidPlace(Place(Some(location), Some(line), Some(line + Newlines(text[m.start..m.end]))))
  {
    NewlinesBound(text[..m.start]);
    NewlinesBound(text[m.start..m.end]);
  }

  lemma FindingOverIsValid(texts: seq<SourceFile>, matcher: Matcher, words: Vocabulary, i: nat)
    requires MatchesIn(texts, matcher) && BoundedTexts(texts)
    requires ValidVocabulary(words) && i < CountOver(texts, matcher)
    ensures ValidFinding(FindingsOver(texts, matcher, words)[i])
  {
    var file, m := FindingOverAt(texts, matcher, words, i);
    FindingIsValid(file.content, m, file.path, i + 1, words);
  }

  /** The sanitized source of any bounded request is well formed, as the gate needs it. */
  lemma SanitizedIsValid(request: Request, matcher: Matcher, words: Vocabulary, s: Source)
    requires IsSanitized(request, matcher, words, s) && BoundedTexts(Texts(request))
    requires ValidVocabulary(words)
    ensures ValidSource(s)
  {
    forall i | 0 <= i < |s.findings| ensures ValidFinding(s.findings[i]) {
      FindingOverIsValid(Texts(request), matcher, words, i);
    }
  }

  const KEY_CATEGORY := "secret.private-key"
  const CREDENTIAL_CATEGORY := "secret.credential-assignment"
  const KEY_FOUND := "A private-key block was present in the supplied source."
  const CREDENTIAL_FOUND := "A quoted credential assignment was present in the supplied source."
  const KEY_REMEDY := "Remove the private key, rotate it, and load it through an approved secret store."
  const CREDENTIAL_REMEDY := "Remove the credential, rotate it, and load it through an approved secret store."

  /** The words the redaction uses. */
  function Standard(evidenceId: EvidenceKey -> string): Vocabulary {
    Vocabulary(SecurityGate.SECRET_PATTERN_SOURCE_ID, evidenceId,
               (key: bool) => if key then KEY_CATEGORY else CREDENTIAL_CATEGORY,
               (key: bool) => if key then KEY_FOUND else CREDENTIAL_FOUND,
               (key: bool) => if key then KEY_REMEDY else CREDENTIAL_REMEDY)
  }

  lemma StandardCategories()
    ensures IsIdentifier(SecurityGate.SECRET_PATTERN_SOURCE_ID)
    ensures IsIdentifier(KEY_CATEGORY) && IsIdentifier(CREDENTIAL_CATEGORY)
  {
  }

  lemma StandardTexts()
    ensures IsText(KEY_FOUND, 4_096) && IsText(CREDENTIAL_FOUND, 4_096)
    ensures IsText(KEY_REMEDY, 4_096) && IsText(CREDENTIAL_REMEDY, 4_096)
  {
    assert KEY_FOUND[|KEY_FOUND| - 1] == '.' && CREDENTIAL_FOUND[|CREDENTIAL_FOUND| - 1] == '.';
    assert KEY_REMEDY[|KEY_REMEDY| - 1] == '.' && CREDENTIAL_REMEDY[|CREDENTIAL_REMEDY| - 1] == '.';
  }

  lemma StandardIsValid(evidenceId: EvidenceKey -> string)
    requires forall key :: IsIdentifier(evidenceId(key))
    ensures ValidVocabulary(Standard(evidenceId))
  {
    StandardCategories();
    StandardTexts();
  }
}
