/** The deterministic Reviewer gate: its blockers, its decision, and the score that goes with them. */
module ReviewerGate {
  import opened Wrappers
  import opened Sequences
  import opened ReviewScore

  datatype Decision = Approved | ChangesRequested

  datatype Request = Request(
    developerId: string, reviewerId: string, required: seq<Profile>, checks: seq<Check>, developerSucceeded: bool)

  datatype Analysis = Analysis(decision: Decision, findings: seq<Finding>, rationale: Text, confidence: real)

  /** The score is in ten-thousandths. */
  datatype ReviewerResult = ReviewerResult(
    decision: Decision, findings: seq<Finding>, rationale: Text, confidence: real, score: nat)

  const MAX_FINDINGS := 64
  const APPROVAL_CONFIDENCE := 0.70

  // ---------------------------------------------------------------- canonical inputs

  function Profiles(checks: seq<Check>): seq<Profile> {
    seq(|checks|, i requires 0 <= i < |checks| => checks[i].profile)
  }

  /** The category and status a check of the profile and exit code must have. */
  predicate Consistent(c: Check) {
    c.category == CategoryOf(c.profile) && c.status == if c.exitCode == 0 then Succeeded else Failed
  }

  /** What a request is validated for before the gate. */
  predicate CanonicalRequest(r: Request) {
    && 1 <= |r.required| <= 10 && Distinct(r.required)
    && 1 <= |r.checks| <= 16 && Distinct(Profiles(r.checks))
    && forall c <- r.checks :: Consistent(c) && -255 <= c.exitCode <= 255
  }

  /** Model findings carry the model's own words. */
  predicate CanonicalAnalysis(a: Analysis) {
    |a.findings| <= MAX_FINDINGS && 0.0 <= a.confidence <= 1.0
  }

  // ---------------------------------------------------------------- blockers

  /** The check that stands for a profile: the last one recorded. */
  function Recorded(checks: seq<Check>, p: Profile): Option<Check> {
    if checks == [] then None
    else if checks[|checks| - 1].profile == p then Some(checks[|checks| - 1])
    else Recorded(checks[..|checks| - 1], p)
  }

  /** Some required profile has a recorded check with the property. */
  ghost predicate SomeRequired(required: seq<Profile>, checks: seq<Check>, property: Check -> bool) {
    exists p <- required :: Recorded(checks, p).Some? && property(Recorded(checks, p).value)
  }

  predicate SucceededFully(c: Check) {
    c.status.Succeeded? && c.exitCode == 0
  }

  predicate Severe(f: Finding) {
    f.severity.High? || f.severity.Critical?
  }

  const INCONSISTENT: Check -> bool := (c: Check) => !Consistent(c)
  const TRUNCATED: Check -> bool := (c: Check) => c.truncated
  const FAILED: Check -> bool := (c: Check) => !SucceededFully(c)

  /** When the checks give rise to each of their blockers. Without any check at all, only the
      absence is reported. */
  ghost predicate CheckBlocked(required: seq<Profile>, checks: seq<Check>, b: Blocker) {
    match b
    case MissingChecks => checks == [] || required == [] || exists p <- required :: Recorded(checks, p).None?
    case InconsistentChecks =>
      checks != [] && (!Distinct(Profiles(checks)) || SomeRequired(required, checks, INCONSISTENT))
    case TruncatedChecks => SomeRequired(required, checks, TRUNCATED)
    case FailedChecks => SomeRequired(required, checks, FAILED)
    case _ => false
  }

  ghost predicate Blocked(r: Request, a: Analysis, b: Blocker) {
    match b
    case SameIdentity => r.developerId == r.reviewerId
    case DeveloperFailed => !r.developerSucceeded
    case SevereFindings => exists f <- a.findings :: Severe(f)
    case ModelChanges => a.decision.ChangesRequested?
    case LowConfidence => a.confidence < APPROVAL_CONFIDENCE
    case _ => CheckBlocked(r.required, r.checks, b)
  }

  function Rank(b: Blocker): nat {
    match b
    case SameIdentity => 0
    case DeveloperFailed => 1
    case MissingChecks => 2
    case InconsistentChecks => 3
    case TruncatedChecks => 4
    case FailedChecks => 5
    case SevereFindings => 6
    case ModelChanges => 7
    case LowConfidence => 8
  }

  predicate Ranked(blockers: seq<Blocker>) {
    forall i, j | 0 <= i < j < |blockers| :: Rank(blockers[i]) < Rank(blockers[j])
  }

  /** The blockers in the given range of ranks that apply, in order. */
  ghost predicate BlockersUpTo(r: Request, a: Analysis, blockers: seq<Blocker>, bound: nat) {
    && Ranked(blockers)
    && forall b :: b in blockers <==> Blocked(r, a, b) && Rank(b) < bound
  }

  /** Strictly ranked blockers are at most as many as there are ranks. */
  lemma {:induction false} RankedFits(blockers: seq<Blocker>, bound: nat)
    requires Ranked(blockers) && forall b <- blockers :: Rank(b) < bound
    ensures |blockers| <= bound
  {
    if blockers != [] {
      var n := |blockers| - 1;
      assert forall b <- blockers[..n] :: Rank(b) < Rank(blockers[n]);
      RankedFits(blockers[..n], Rank(blockers[n]));
    }
  }

  /** A rank-ordered selection of blockers grows with what it selects. */
  lemma RankedWithin(a: seq<Blocker>, b: seq<Blocker>)
    requires Ranked(a) && forall x <- a :: x in b
    ensures |a| <= |b|
  {
    DistinctWithin(a, b);
  }

  // ---------------------------------------------------------------- the checks, indexed and examined

  ghost predicate Indexes(index: map<Profile, Check>, checks: seq<Check>) {
    forall p :: Recorded(checks, p) == if p in index then Some(index[p]) else None
  }

  lemma {:induction false} RecordedIsThere(checks: seq<Check>, p: Profile)
    ensures Recorded(checks, p).Some? <==> p in Profiles(checks)
    ensures Recorded(checks, p).Some? ==> Recorded(checks, p).value in checks && Recorded(checks, p).value.profile == p
  {
    if checks != [] {
      var n := |checks| - 1;
      RecordedIsThere(checks[..n], p);
      assert Profiles(checks) == Profiles(checks[..n]) + [checks[n].profile];
    }
  }

  /** Indexes the checks by profile, the later over the earlier, and notes a profile met twice. */
  method IndexChecks(checks: seq<Check>) returns (index: map<Profile, Check>, repeated: bool)
    ensures Indexes(index, checks) && repeated == !Distinct(Profiles(checks))
    ensures index == map[] <==> checks == []
  {
    index, repeated := map[], false;
    for i := 0 to |checks|
      invariant Indexes(index, checks[..i]) && repeated == !Distinct(Profiles(checks[..i]))
      invariant index == map[] <==> i == 0
    {
      var c := checks[i];
      assert checks[..i + 1][..i] == checks[..i];
      RecordedIsThere(checks[..i], c.profile);
      assert Profiles(checks[..i + 1]) == Profiles(checks[..i]) + [c.profile];
      DistinctSnoc(Profiles(checks[..i]), c.profile);
      if c.profile in index {
        repeated := true;
      }
      index := index[c.profile := c];
      assert c.profile in index;
    }
    assert checks[..|checks|] == checks;
  }

  /** The recorded checks of the required profiles have, so far, shown these faults. */
  ghost predicate Examined(required: seq<Profile>, checks: seq<Check>, missing: bool, inconsistent: bool, truncated: bool, failed: bool) {
    && missing == (exists p <- required :: Recorded(checks, p).None?)
    && inconsistent == SomeRequired(required, checks, INCONSISTENT)
    && truncated == SomeRequired(required, checks, TRUNCATED)
    && failed == SomeRequired(required, checks, FAILED)
  }

  lemma SomeRequiredSnoc(required: seq<Profile>, p: Profile, checks: seq<Check>, property: Check -> bool)
    ensures SomeRequired(required + [p], checks, property)
            <==> SomeRequired(required, checks, property)
                 || (Recorded(checks, p).Some? && property(Recorded(checks, p).value))
  {
    assert p in required + [p];
    assert forall q <- required :: q in required + [p];
  }

  lemma ExaminedSnoc(required: seq<Profile>, p: Profile, checks: seq<Check>, missing: bool, inconsistent: bool, truncated: bool, failed: bool)
    requires Examined(required, checks, missing, inconsistent, truncated, failed)
    ensures var c := Recorded(checks, p);
            Examined(required + [p], checks, missing || c.None?,
                     inconsistent || (c.Some? && !Consistent(c.value)),
                     truncated || (c.Some? && c.value.truncated),
                     failed || (c.Some? && !SucceededFully(c.value)))
  {
    SomeRequiredSnoc(required, p, checks, INCONSISTENT);
    SomeRequiredSnoc(required, p, checks, TRUNCATED);
    SomeRequiredSnoc(required, p, checks, FAILED);
    assert p in required + [p];
    assert forall q <- required :: q in required + [p];
  }

  method ExamineChecks(required: seq<Profile>, ghost checks: seq<Check>, index: map<Profile, Check>)
    returns (missing: bool, inconsistent: bool, truncated: bool, failed: bool)
    requires Indexes(index, checks)
    ensures Examined(required, checks, missing, inconsistent, truncated, failed)
  {
    missing, inconsistent, truncated, failed := false, false, false, false;
    for i := 0 to |required|
      invariant Examined(required[..i], checks, missing, inconsistent, truncated, failed)
    {
      assert required[..i + 1] == required[..i] + [required[i]];
      ExaminedSnoc(required[..i], required[i], checks, missing, inconsistent, truncated, failed);
      if required[i] !in index {
        missing := true;
      } else {
        var c := index[required[i]];
        if !Consistent(c) {
          inconsistent := true;
        }
        if c.truncated {
          truncated := true;
        }
        if !SucceededFully(c) {
          failed := true;
        }
      }
    }
    assert required[..|required|] == required;
  }

  /** The check blockers below the bound that apply, in order. */
  ghost predicate CheckBlockersUpTo(required: seq<Profile>, checks: seq<Check>, codes: seq<Blocker>, bound: nat) {
    && Ranked(codes)
    && forall b :: b in codes <==> CheckBlocked(required, checks, b) && Rank(b) < bound
  }

  lemma RankIsIdentity(a: Blocker, b: Blocker)
    ensures Rank(a) == Rank(b) <==> a == b
  {
  }

  method ConsiderCheck(required: seq<Profile>, ghost checks: seq<Check>, codes: seq<Blocker>, b: Blocker, applies: bool)
    returns (next: seq<Blocker>)
    requires CheckBlockersUpTo(required, checks, codes, Rank(b)) && applies == CheckBlocked(required, checks, b)
    ensures CheckBlockersUpTo(required, checks, next, Rank(b) + 1)
  {
    next := if applies then codes + [b] else codes;
    forall x ensures x in next <==> CheckBlocked(required, checks, x) && Rank(x) < Rank(b) + 1 {
      RankIsIdentity(x, b);
    }
  }

  lemma OnlyMissing(required: seq<Profile>)
    ensures CheckBlockersUpTo(required, [], [MissingChecks], 9)
  {
    assert forall property :: !SomeRequired(required, [], property);
    assert forall b :: b in [MissingChecks] <==> b == MissingChecks;
  }

  lemma NoneYet(required: seq<Profile>, checks: seq<Check>)
    ensures CheckBlockersUpTo(required, checks, [], Rank(MissingChecks))
  {
  }

  method CheckBlockerCodes(required: seq<Profile>, checks: seq<Check>) returns (codes: seq<Blocker>)
    ensures CheckBlockersUpTo(required, checks, codes, 9)
  {
    var index, repeated := IndexChecks(checks);
    if index == map[] {
      OnlyMissing(required);
      codes := [MissingChecks];
    } else {
      var missing, inconsistent, truncated, failed := ExamineChecks(required, checks, index);
      codes := ListFaults(required, checks, required == [] || missing, repeated || inconsistent, truncated, failed);
    }
  }

  method ListFaults(required: seq<Profile>, ghost checks: seq<Check>, missing: bool, inconsistent: bool, truncated: bool, failed: bool)
    returns (codes: seq<Blocker>)
    requires missing == CheckBlocked(required, checks, MissingChecks)
    requires inconsistent == CheckBlocked(required, checks, InconsistentChecks)
    requires truncated == CheckBlocked(required, checks, TruncatedChecks)
    requires failed == CheckBlocked(required, checks, FailedChecks)
    ensures CheckBlockersUpTo(required, checks, codes, 9)
  {
    NoneYet(required, checks);
    codes := ConsiderCheck(required, checks, [], MissingChecks, missing);
    codes := ConsiderCheck(required, checks, codes, InconsistentChecks, inconsistent);
    codes := ConsiderCheck(required, checks, codes, TruncatedChecks, truncated);
    codes := ConsiderCheck(required, checks, codes, FailedChecks, failed);
    NoneAfterChecks(required, checks, codes);
  }

  lemma NoneAfterChecks(required: seq<Profile>, checks: seq<Check>, codes: seq<Blocker>)
    requires CheckBlockersUpTo(required, checks, codes, Rank(FailedChecks) + 1)
    ensures CheckBlockersUpTo(required, checks, codes, 9)
  {
  }

  // ---------------------------------------------------------------- all blockers

  method Consider(r: Request, a: Analysis, blockers: seq<Blocker>, b: Blocker, applies: bool) returns (next: seq<Blocker>)
    requires BlockersUpTo(r, a, blockers, Rank(b)) && applies == Blocked(r, a, b)
    ensures BlockersUpTo(r, a, next, Rank(b) + 1)
  {
    next := if applies then blockers + [b] else blockers;
    forall x ensures x in next <==> Blocked(r, a, x) && Rank(x) < Rank(b) + 1 {
      RankIsIdentity(x, b);
    }
  }

  lemma ChecksBetween(r: Request, a: Analysis, before: seq<Blocker>, codes: seq<Blocker>)
    requires BlockersUpTo(r, a, before, 2) && CheckBlockersUpTo(r.required, r.checks, codes, 9)
    ensures BlockersUpTo(r, a, before + codes, 6)
  {
    assert forall b <- before :: Rank(b) < 2;
    assert forall b <- codes :: 2 <= Rank(b) < 6;
    forall b ensures b in before + codes <==> Blocked(r, a, b) && Rank(b) < 6 {
      assert b in before + codes <==> b in before || b in codes;
    }
  }

  /** Every blocker that applies, in the order of their priority. */
  method DeterministicBlockers(r: Request, a: Analysis) returns (blockers: seq<Blocker>)
    ensures BlockersUpTo(r, a, blockers, 9)
  {
    blockers := Consider(r, a, [], SameIdentity, r.developerId == r.reviewerId);
    blockers := Consider(r, a, blockers, DeveloperFailed, !r.developerSucceeded);
    var codes := CheckBlockerCodes(r.required, r.checks);
    ChecksBetween(r, a, blockers, codes);
    blockers := Consider(r, a, blockers + codes, SevereFindings, exists f <- a.findings :: Severe(f));
    blockers := Consider(r, a, blockers, ModelChanges, a.decision.ChangesRequested?);
    blockers := Consider(r, a, blockers, LowConfidence, a.confidence < APPROVAL_CONFIDENCE);
  }

  // ---------------------------------------------------------------- the result

  const GATE_CATEGORY := "review-gate"
  const REDACTED_CATEGORY := "redacted"

  function RedactText(t: Text, echoes: string -> bool): Text {
    if t.Words? && echoes(t.words) then Redacted else t
  }

  function RedactFinding(f: Finding, echoes: string -> bool): Finding {
    var hidden := f.path.Some? && echoes(f.path.value);
    Finding(if echoes(f.category) then REDACTED_CATEGORY else f.category, f.severity,
            RedactText(f.rationale, echoes),
            if hidden then None else f.path, if hidden then None else f.line,
            RedactText(f.recommendation, echoes))
  }

  function RedactOne(echoes: string -> bool): Finding -> seq<Finding> {
    (f: Finding) => [RedactFinding(f, echoes)]
  }

  function ExplainOne(): Blocker -> seq<Finding> {
    (b: Blocker) => [Finding(GATE_CATEGORY, High, Explains(b), None, None, Explains(b))]
  }

  function Explanations(blockers: seq<Blocker>): seq<Finding> {
    Collect(ExplainOne(), blockers)
  }

  /** The blockers come last and take their room from the end of the model's findings. */
  function AppendBlockers(model: seq<Finding>, explained: seq<Finding>): seq<Finding> {
    var retained := Take(explained, MAX_FINDINGS);
    Take(model, MAX_FINDINGS - |retained|) + retained
  }

  function Published(r: Request, a: Analysis, blockers: seq<Blocker>, echoes: string -> bool): ReviewerResult {
    var findings := AppendBlockers(Collect(RedactOne(echoes), a.findings), Explanations(blockers));
    ReviewerResult(if blockers == [] then Approved else ChangesRequested, findings,
                   RedactText(a.rationale, echoes), a.confidence, Score(r.checks, findings))
  }

  ghost predicate Reviews(r: Request, a: Analysis, echoes: string -> bool, result: ReviewerResult) {
    exists blockers :: BlockersUpTo(r, a, blockers, 9) && result == Published(r, a, blockers, echoes)
  }

  // ---------------------------------------------------------------- what a result discloses

  /** A text that repeats nothing of the source. */
  predicate Discreet(t: Text, echoes: string -> bool) {
    t.Words? ==> !echoes(t.words)
  }

  /** A finding none of whose texts repeats the source; a fixed category may be its own. */
  predicate DiscreetFinding(f: Finding, echoes: string -> bool) {
    && (echoes(f.category) ==> f.category == GATE_CATEGORY || f.category == REDACTED_CATEGORY)
    && (f.path.Some? ==> !echoes(f.path.value))
    && Discreet(f.rationale, echoes) && Discreet(f.recommendation, echoes)
  }

  /** Each text of a finding is shown as it is unless it repeats the source. */
  predicate ShownAs(f: Finding, shown: Finding, echoes: string -> bool) {
    && shown.severity == f.severity
    && (!echoes(f.category) ==> shown.category == f.category)
    && (Discreet(f.rationale, echoes) ==> shown.rationale == f.rationale)
    && (Discreet(f.recommendation, echoes) ==> shown.recommendation == f.recommendation)
    && if f.path.Some? && echoes(f.path.value) then shown.path.None? && shown.line.None?
       else shown.path == f.path && shown.line == f.line
  }

  /** The model's findings that are retained come first. */
  function Retained(a: Analysis, result: ReviewerResult, blockers: nat): nat {
    if |result.findings| >= blockers then |result.findings| - blockers else 0
  }

  ghost predicate Discloses(a: Analysis, echoes: string -> bool, blockers: nat, result: ReviewerResult) {
    && Discreet(result.rationale, echoes) && (Discreet(a.rationale, echoes) ==> result.rationale == a.rationale)
    && (forall f <- result.findings :: DiscreetFinding(f, echoes))
    && Retained(a, result, blockers) <= |a.findings|
    && forall i | 0 <= i < Retained(a, result, blockers) :: ShownAs(a.findings[i], result.findings[i], echoes)
  }

  lemma RedactedIsDiscreet(f: Finding, echoes: string -> bool)
    ensures DiscreetFinding(RedactFinding(f, echoes), echoes) && ShownAs(f, RedactFinding(f, echoes), echoes)
  {
  }

  lemma {:induction false} RedactedAt(s: seq<Finding>, echoes: string -> bool)
    ensures |Collect(RedactOne(echoes), s)| == |s|
    ensures forall i | 0 <= i < |s| :: Collect(RedactOne(echoes), s)[i] == RedactFinding(s[i], echoes)
  {
    if s != [] {
      RedactedAt(s[..|s| - 1], echoes);
    }
  }

  lemma {:induction false} ExplainedAt(blockers: seq<Blocker>)
    ensures |Explanations(blockers)| == |blockers|
    ensures forall i | 0 <= i < |blockers| ::
              Explanations(blockers)[i] == Finding(GATE_CATEGORY, High, Explains(blockers[i]), None, None, Explains(blockers[i]))
  {
    if blockers != [] {
      var n := |blockers| - 1;
      ExplainedAt(blockers[..n]);
      assert Explanations(blockers) == Explanations(blockers[..n]) + ExplainOne()(blockers[n]);
    }
  }

  lemma RedactedAreDiscreet(a: Analysis, echoes: string -> bool, n: nat)
    ensures var shown := Take(Collect(RedactOne(echoes), a.findings), n);
            && |shown| <= |a.findings| && (forall f <- shown :: DiscreetFinding(f, echoes))
            && forall i | 0 <= i < |shown| :: ShownAs(a.findings[i], shown[i], echoes)
  {
    RedactedAt(a.findings, echoes);
    var shown := Take(Collect(RedactOne(echoes), a.findings), n);
    forall i | 0 <= i < |shown|
      ensures DiscreetFinding(shown[i], echoes) && ShownAs(a.findings[i], shown[i], echoes)
    {
      RedactedIsDiscreet(a.findings[i], echoes);
    }
  }

  lemma PublishedDiscloses(r: Request, a: Analysis, blockers: seq<Blocker>, echoes: string -> bool)
    requires |blockers| <= 9
    ensures Discloses(a, echoes, |blockers|, Published(r, a, blockers, echoes))
  {
    ExplainedAt(blockers);
    RedactedAreDiscreet(a, echoes, MAX_FINDINGS - |blockers|);
    var result, explained := Published(r, a, blockers, echoes), Explanations(blockers);
    var shown := Take(Collect(RedactOne(echoes), a.findings), MAX_FINDINGS - |blockers|);
    assert result.findings == shown + explained;
    assert forall f <- explained :: DiscreetFinding(f, echoes);
    assert forall i | 0 <= i < |shown| :: result.findings[i] == shown[i];
  }

  /** One to ten profiles are required, each once; one to sixteen checks are recorded, each of its own
      profile and with the category and status that its profile and exit code call for. */
  ghost predicate WellMade(r: Request) {
    && 1 <= |r.required| <= 10 && 1 <= |r.checks| <= 16
    && (forall i, j | 0 <= i < j < |r.required| :: r.required[i] != r.required[j])
    && (forall i, j | 0 <= i < j < |r.checks| :: r.checks[i].profile != r.checks[j].profile)
    && forall i | 0 <= i < |r.checks| ::
         && r.checks[i].category == CategoryOf(r.checks[i].profile) && -255 <= r.checks[i].exitCode <= 255
         && (r.checks[i].status == Succeeded <==> r.checks[i].exitCode == 0)
  }

  lemma WellMadeIsCanonical(r: Request)
    ensures WellMade(r) <==> CanonicalRequest(r)
  {
    assert forall i | 0 <= i < |r.checks| :: Profiles(r.checks)[i] == r.checks[i].profile;
    assert forall i | 0 <= i < |r.checks| :: r.checks[i] in r.checks;
  }

  datatype GateError = InvalidInput | InvalidAnalysis
  datatype Outcome = Reviewed(result: ReviewerResult) | Refused(error: GateError)

  /** Rejects malformed inputs, the request before the analysis, and else reviews them. */
  method BuildResult(r: Request, a: Analysis, echoes: string -> bool) returns (outcome: Outcome)
    ensures match outcome
            case Refused(InvalidInput) => !CanonicalRequest(r)
            case Refused(InvalidAnalysis) => CanonicalRequest(r) && !CanonicalAnalysis(a)
            case Reviewed(result) => CanonicalRequest(r) && CanonicalAnalysis(a) && Reviews(r, a, echoes, result)
    // what is refused is a malformed request, and then a malformed analysis
    ensures outcome == Refused(InvalidInput) <==> !WellMade(r)
    ensures outcome == Refused(InvalidAnalysis)
       <==> WellMade(r) && (|a.findings| > 64 || a.confidence < 0.0 || a.confidence > 1.0)
    // nothing that repeats the source is disclosed, and nothing else is withheld
    ensures outcome.Reviewed? ==>
              exists blockers :: BlockersUpTo(r, a, blockers, 9) && Discloses(a, echoes, |blockers|, outcome.result)
  {
    WellMadeIsCanonical(r);
    if !CanonicalRequest(r) {
      outcome := Refused(InvalidInput);
    } else if !CanonicalAnalysis(a) {
      outcome := Refused(InvalidAnalysis);
    } else {
      var blockers := DeterministicBlockers(r, a);
      RankedFits(blockers, 9);
      PublishedDiscloses(r, a, blockers, echoes);
      outcome := Reviewed(Published(r, a, blockers, echoes));
    }
  }

  // ---------------------------------------------------------------- what every review satisfies

  /** No check, identity, report or finding stands against the change. */
  ghost predicate Approvable(r: Request, a: Analysis) {
    && r.developerId != r.reviewerId && r.developerSucceeded && r.required != []
    && (forall p <- r.required :: exists c <- r.checks :: c.profile == p && Succeeds(c))
    && (forall f <- a.findings :: f.severity.Info? || f.severity.Low? || f.severity.Medium?) && a.decision.Approved? && a.confidence >= 0.70
  }

  lemma {:induction false} RecordedIsUnique(checks: seq<Check>, c: Check)
    requires Distinct(Profiles(checks)) && c in checks
    ensures Recorded(checks, c.profile) == Some(c)
  {
    var n := |checks| - 1;
    assert Profiles(checks) == Profiles(checks[..n]) + [checks[n].profile];
    DistinctSnoc(Profiles(checks[..n]), checks[n].profile);
    if checks[n] != c {
      RecordedIsUnique(checks[..n], c);
      RecordedIsThere(checks[..n], c.profile);
    }
  }

  /** A canonical request never meets the blocker for inconsistent metadata. */
  lemma CanonicalChecksAreConsistent(r: Request)
    requires CanonicalRequest(r)
    ensures !CheckBlocked(r.required, r.checks, InconsistentChecks)
  {
    forall p | p in r.required && Recorded(r.checks, p).Some?
      ensures Consistent(Recorded(r.checks, p).value)
    {
      RecordedIsThere(r.checks, p);
    }
  }

  lemma RequiredPasses(r: Request, p: Profile)
    requires CanonicalRequest(r)
    ensures (exists c <- r.checks :: c.profile == p && Succeeds(c))
            <==> Recorded(r.checks, p).Some? && Passing(Recorded(r.checks, p).value)
  {
    RecordedIsThere(r.checks, p);
    if c :| c in r.checks && c.profile == p && Passing(c) {
      RecordedIsUnique(r.checks, c);
    }
  }

  ghost predicate ChecksClear(r: Request) {
    forall b :: !CheckBlocked(r.required, r.checks, b)
  }

  lemma ChecksClearIffPassing(r: Request)
    requires CanonicalRequest(r)
    ensures ChecksClear(r) <==> forall p <- r.required :: exists c <- r.checks :: c.profile == p && Passing(c)
  {
    CanonicalChecksAreConsistent(r);
    forall p | p in r.required
      ensures (exists c <- r.checks :: c.profile == p && Succeeds(c))
              <==> Recorded(r.checks, p).Some? && !TRUNCATED(Recorded(r.checks, p).value) && !FAILED(Recorded(r.checks, p).value)
    {
      RequiredPasses(r, p);
      RecordedIsThere(r.checks, p);
    }
    assert ChecksClear(r)
        <==> (!CheckBlocked(r.required, r.checks, MissingChecks)
              && !CheckBlocked(r.required, r.checks, TruncatedChecks) && !CheckBlocked(r.required, r.checks, FailedChecks));
  }
}
