/** What every review satisfies: its decision, the findings it retains, and its score. */
module ReviewVerdict {
  import opened Wrappers
  import opened Sequences
  import opened FixedPoint
  import opened ReviewScore
  import opened ReviewerGate

  // ---------------------------------------------------------------- the decision

  lemma NoBlockers(r: Request, a: Analysis, blockers: seq<Blocker>)
    requires BlockersUpTo(r, a, blockers, 9)
    ensures blockers == [] <==> forall b :: !Blocked(r, a, b)
  {
    assert forall b :: Rank(b) < 9;
    assert blockers != [] ==> blockers[0] in blockers;
    if blockers == [] {
      assert forall b :: b !in blockers;
    }
  }

  lemma ChecksAmongBlockers(r: Request, a: Analysis)
    ensures (forall b :: !Blocked(r, a, b))
            <==> (ChecksClear(r) && !Blocked(r, a, SameIdentity) && !Blocked(r, a, DeveloperFailed)
                  && !Blocked(r, a, SevereFindings) && !Blocked(r, a, ModelChanges) && !Blocked(r, a, LowConfidence))
  {
    assert forall b :: b in {SameIdentity, DeveloperFailed, SevereFindings, ModelChanges, LowConfidence}
                       || Blocked(r, a, b) == CheckBlocked(r.required, r.checks, b);
  }

  /** Approval exactly when every required profile has a complete passing check and nothing else
      stands against the change. */
  lemma ApprovedIffApprovable(r: Request, a: Analysis, echoes: string -> bool, result: ReviewerResult)
    requires CanonicalRequest(r) && Reviews(r, a, echoes, result)
    ensures result.decision == Approved <==> Approvable(r, a)
  {
    var blockers :| BlockersUpTo(r, a, blockers, 9) && result == Published(r, a, blockers, echoes);
    NoBlockers(r, a, blockers);
    NothingBlocksIffApprovable(r, a);
  }

  lemma NothingBlocksIffApprovable(r: Request, a: Analysis)
    requires CanonicalRequest(r)
    ensures (forall b :: !Blocked(r, a, b)) <==> Approvable(r, a)
  {
    ChecksAmongBlockers(r, a);
    ChecksClearIffPassing(r);
    assert ChecksClear(r) ==> !CheckBlocked(r.required, r.checks, MissingChecks);
  }

  // ---------------------------------------------------------------- retained findings

  lemma {:induction false} SameDeductions(a: seq<Finding>, b: seq<Finding>)
    requires |a| == |b| && forall i | 0 <= i < |a| :: a[i].severity == b[i].severity
    ensures Deductions(a) == Deductions(b)
  {
    if a != [] {
      SameDeductions(a[..|a| - 1], b[..|b| - 1]);
    }
  }

  lemma {:induction false} ExplanationsWeigh(blockers: seq<Blocker>)
    ensures |Explanations(blockers)| == |blockers|
    ensures Deductions(Explanations(blockers)) == 2_000 * |blockers|
  {
    if blockers != [] {
      var n := |blockers| - 1;
      ExplanationsWeigh(blockers[..n]);
      assert Explanations(blockers) == Explanations(blockers[..n]) + ExplainOne()(blockers[n]);
      assert Explanations(blockers)[..n] == Explanations(blockers[..n]);
    }
  }

  /** What the model's findings and the blockers together deduct. */
  function Load(a: Analysis, k: nat): nat
    requires k <= MAX_FINDINGS
  {
    Deductions(Take(a.findings, MAX_FINDINGS - k)) + 2_000 * k
  }

  /** A finding the application owns, for one blocker. */
  predicate IsExplanation(f: Finding, b: Blocker) {
    f == Finding(GATE_CATEGORY, High, Explains(b), None, None, Explains(b))
  }

  /** The findings a result shows: as many of the model's first ones as there is room for, then every
      blocker in order. */
  ghost predicate Retains(a: Analysis, echoes: string -> bool, blockers: seq<Blocker>, findings: seq<Finding>) {
    var shown := |findings| - |blockers|;
    && 0 <= shown && shown == (if |a.findings| + |blockers| <= MAX_FINDINGS then |a.findings| else MAX_FINDINGS - |blockers|)
    && (forall i | 0 <= i < shown :: ShownAs(a.findings[i], findings[i], echoes))
    && (forall i | 0 <= i < |blockers| :: IsExplanation(findings[shown + i], blockers[i]))
  }

  lemma RetainsParts(a: Analysis, echoes: string -> bool, blockers: seq<Blocker>, shown: seq<Finding>, explained: seq<Finding>)
    requires |explained| == |blockers| <= MAX_FINDINGS
    requires |shown| == (if |a.findings| + |blockers| <= MAX_FINDINGS then |a.findings| else MAX_FINDINGS - |blockers|)
    requires forall i | 0 <= i < |shown| :: ShownAs(a.findings[i], shown[i], echoes)
    requires forall i | 0 <= i < |blockers| :: IsExplanation(explained[i], blockers[i])
    ensures Retains(a, echoes, blockers, shown + explained)
  {
  }

  lemma AppendsAll(model: seq<Finding>, blockers: seq<Blocker>)
    requires |blockers| <= MAX_FINDINGS
    ensures AppendBlockers(model, Explanations(blockers)) == Take(model, MAX_FINDINGS - |blockers|) + Explanations(blockers)
  {
    ExplanationsWeigh(blockers);
  }

  /** All blockers survive the cap, last and in order; the model's findings give way from the end. */
  lemma BlockersSurvive(r: Request, a: Analysis, echoes: string -> bool, blockers: seq<Blocker>)
    requires BlockersUpTo(r, a, blockers, 9)
    ensures Retains(a, echoes, blockers, Published(r, a, blockers, echoes).findings)
  {
    RankedFits(blockers, 9);
    var redacted, room := Collect(RedactOne(echoes), a.findings), MAX_FINDINGS - |blockers|;
    RedactedLength(a.findings, echoes);
    RedactedAreDiscreet(a, echoes, room);
    AppendsAll(redacted, blockers);
    ExplainedAt(blockers);
    RetainsParts(a, echoes, blockers, Take(redacted, room), Explanations(blockers));
  }

  lemma RedactedLength(s: seq<Finding>, echoes: string -> bool)
    ensures |Collect(RedactOne(echoes), s)| == |s|
  {
    RedactedAt(s, echoes);
  }

  lemma BlockersWeigh(r: Request, a: Analysis, echoes: string -> bool, blockers: seq<Blocker>)
    requires BlockersUpTo(r, a, blockers, 9)
    ensures |blockers| <= 9 && Deductions(Published(r, a, blockers, echoes).findings) == Load(a, |blockers|)
  {
    RankedFits(blockers, 9);
    var redacted, room := Collect(RedactOne(echoes), a.findings), MAX_FINDINGS - |blockers|;
    AppendsAll(redacted, blockers);
    RedactedAt(a.findings, echoes);
    ExplanationsWeigh(blockers);
    DeductionsConcat(Take(redacted, room), Explanations(blockers));
    SameDeductions(Take(redacted, room), Take(a.findings, room));
  }

  /** A rejected change never scores above 0.8, nor any change above one less a fifth per blocker. */
  lemma ScoreAgreesWithDecision(r: Request, a: Analysis, echoes: string -> bool, result: ReviewerResult) returns (blockers: seq<Blocker>)
    requires Reviews(r, a, echoes, result)
    ensures BlockersUpTo(r, a, blockers, 9)
    ensures result.decision == ChangesRequested <==> |blockers| > 0
    ensures result.score <= ClampedAtZero(ONE - 2_000 * |blockers|)
    ensures result.decision == ChangesRequested ==> result.score <= 8_000
  {
    blockers :| BlockersUpTo(r, a, blockers, 9) && result == Published(r, a, blockers, echoes);
    ScoreBelowBlockers(r, a, echoes, blockers);
  }

  lemma ScoreBelowBlockers(r: Request, a: Analysis, echoes: string -> bool, blockers: seq<Blocker>)
    requires BlockersUpTo(r, a, blockers, 9)
    ensures Published(r, a, blockers, echoes).score <= ClampedAtZero(ONE - 2_000 * |blockers|)
  {
    BlockersWeigh(r, a, echoes, blockers);
    ScoreBound(r.checks, Published(r, a, blockers, echoes).findings);
  }

  // ---------------------------------------------------------------- one more finding

  /** Findings that are not critical weigh no more than the blockers that take their place. */
  lemma {:induction false} EvictionIsCovered(s: seq<Finding>, n: nat, m: nat)
    requires n <= m && forall f <- s :: !f.severity.Critical?
    ensures Deductions(Take(s, m)) <= Deductions(Take(s, n)) + 2_000 * (m - n)
  {
    if n < m {
      EvictionIsCovered(s, n, m - 1);
      if m <= |s| {
        assert Take(s, m)[..m - 1] == Take(s, m - 1);
      } else {
        assert Take(s, m) == Take(s, m - 1);
      }
    }
  }

  lemma PrefixWeighsLess(s: seq<Finding>, f: Finding, n: nat)
    ensures Deductions(Take(s, n)) <= Deductions(Take(s + [f], n))
  {
    if n <= |s| {
      assert Take(s + [f], n) == Take(s, n);
    } else {
      assert Take(s, n) == s && Take(s + [f], n) == s + [f];
      DeductionsConcat(s, [f]);
    }
  }

  lemma OneMoreFindingBlocks(r: Request, a: Analysis, f: Finding, b: Blocker)
    ensures Blocked(r, a.(findings := a.findings + [f]), b)
            <==> Blocked(r, a, b) || (b.SevereFindings? && Severe(f))
  {
    if b.SevereFindings? {
      var more := a.findings + [f];
      assert forall x :: x in more <==> x in a.findings || x == f;
    }
  }

  lemma OneMoreFindingBlockers(r: Request, a: Analysis, f: Finding, before: seq<Blocker>, after: seq<Blocker>)
    requires BlockersUpTo(r, a, before, 9) && BlockersUpTo(r, a.(findings := a.findings + [f]), after, 9)
    ensures |before| <= |after| <= 9
    ensures (exists x <- a.findings :: Severe(x)) ==> |before| == |after|
  {
    RankedFits(after, 9);
    forall b ensures b in before ==> b in after {
      OneMoreFindingBlocks(r, a, f, b);
    }
    RankedWithin(before, after);
    if exists x <- a.findings :: Severe(x) {
      forall b ensures b in after ==> b in before {
        OneMoreFindingBlocks(r, a, f, b);
      }
      RankedWithin(after, before);
    }
  }

  lemma OneMoreWeighs(s: seq<Finding>, f: Finding, k: nat, m: nat)
    requires k <= m <= MAX_FINDINGS && (k < m ==> forall x <- s :: !x.severity.Critical?)
    ensures Deductions(Take(s, MAX_FINDINGS - k)) + 2_000 * k <= Deductions(Take(s + [f], MAX_FINDINGS - m)) + 2_000 * m
  {
    PrefixWeighsLess(s, f, MAX_FINDINGS - m);
    if k < m {
      EvictionIsCovered(s, MAX_FINDINGS - m, MAX_FINDINGS - k);
    }
  }

  lemma OneMoreFindingLoad(a: Analysis, f: Finding, k: nat, m: nat)
    requires k <= m <= MAX_FINDINGS
    requires (exists x <- a.findings :: Severe(x)) ==> k == m
    ensures Load(a, k) <= Load(a.(findings := a.findings + [f]), m)
  {
    assert k < m ==> forall x <- a.findings :: !Severe(x);
    OneMoreWeighs(a.findings, f, k, m);
  }

  /** One more finding of the model never raises the score and never wins approval, although a
      blocker it gives rise to may push an earlier finding out. */
  lemma OneMoreFinding(r: Request, a: Analysis, f: Finding, echoes: string -> bool, result: ReviewerResult, more: ReviewerResult)
    requires Reviews(r, a, echoes, result) && Reviews(r, a.(findings := a.findings + [f]), echoes, more)
    ensures more.score <= result.score
    ensures more.decision == Approved ==> result.decision == Approved
  {
    var worse := a.(findings := a.findings + [f]);
    var before :| BlockersUpTo(r, a, before, 9) && result == Published(r, a, before, echoes);
    var after :| BlockersUpTo(r, worse, after, 9) && more == Published(r, worse, after, echoes);
    BlockersWeigh(r, a, echoes, before);
    BlockersWeigh(r, worse, echoes, after);
    OneMoreFindingBlockers(r, a, f, before, after);
    OneMoreFindingLoad(a, f, |before|, |after|);
    MoreDeductionsNoHigherScore(r.checks, result.findings, more.findings);
  }

  // ---------------------------------------------------------------- one more blocker

  /** The blocker that comes next takes the place of a critical finding. */
  predicate EvictsCritical(a: Analysis, k: nat)
    requires k < MAX_FINDINGS
  {
    |a.findings| >= MAX_FINDINGS - k && a.findings[MAX_FINDINGS - k - 1].severity.Critical?
  }

  lemma NextBlockerLoad(a: Analysis, k: nat)
    requires k < MAX_FINDINGS
    ensures EvictsCritical(a, k) ==> Load(a, k + 1) + 2_000 == Load(a, k)
    ensures !EvictsCritical(a, k) ==> Load(a, k + 1) >= Load(a, k)
  {
    var n := MAX_FINDINGS - k;
    if |a.findings| >= n {
      assert Take(a.findings, n)[..n - 1] == Take(a.findings, n - 1);
    } else {
      assert Take(a.findings, n) == Take(a.findings, n - 1);
    }
  }

  lemma ChangesAddOne(r: Request, a: Analysis, before: seq<Blocker>, after: seq<Blocker>)
    requires a.decision.Approved?
    requires BlockersUpTo(r, a, before, 9) && BlockersUpTo(r, a.(decision := ChangesRequested), after, 9)
    ensures |after| == |before| + 1
  {
    var worse := a.(decision := ChangesRequested);
    forall b ensures Blocked(r, worse, b) <==> Blocked(r, a, b) || b == ModelChanges {
      RankIsIdentity(b, ModelChanges);
    }
    assert forall b :: b in after <==> b in before || b == ModelChanges;
    DistinctSnoc(before, ModelChanges);
    DistinctWithin(before + [ModelChanges], after);
    DistinctWithin(after, before + [ModelChanges]);
  }

  /** What the checks and the deductions leave of a score, over the number of checks, before it is
      cut off at zero; rounding keeps it when it is at least half a unit for each check. */
  predicate LeavesScore(checks: seq<Check>, deductions: nat) {
    2 * ((ONE - deductions) * |checks| - CHECK_WEIGHT * Incomplete(checks)) >= |checks|
  }

  lemma ScoreIsLeft(checks: seq<Check>, findings: seq<Finding>)
    requires checks != []
    ensures Score(checks, findings) > 0 <==> LeavesScore(checks, Deductions(findings))
  {
    RoundingPositive(Remaining(checks, Deductions(findings)), |checks|);
  }

  /** Exchanging a critical finding for a blocker raises the score, if any is left; otherwise one
      more blocker never does. */
  lemma ExchangedScore(checks: seq<Check>, before: seq<Finding>, after: seq<Finding>, exchanged: bool)
    requires checks != []
    requires exchanged ==> Deductions(before) == Deductions(after) + 2_000
    requires !exchanged ==> Deductions(after) >= Deductions(before)
    ensures Score(checks, after) > Score(checks, before) <==> exchanged && LeavesScore(checks, Deductions(after))
  {
    ScoreIsLeft(checks, after);
    if exchanged {
      ScoreShifts(checks, before, after, 2_000);
    } else {
      MoreDeductionsNoHigherScore(checks, before, after);
    }
  }

  /** A model that requests changes where it approved before does not always lower the score. It
      raises it exactly when the blocker this adds pushes a critical finding out of the retained
      ones, and the checks and the findings then retained leave any score at all. */
  lemma RequestingChangesMayRaiseScore(r: Request, a: Analysis, echoes: string -> bool, result: ReviewerResult, harsher: ReviewerResult)
    returns (blockers: seq<Blocker>)
    requires r.checks != [] && a.decision.Approved?
    requires Reviews(r, a, echoes, result) && Reviews(r, a.(decision := ChangesRequested), echoes, harsher)
    ensures BlockersUpTo(r, a, blockers, 9) && |blockers| <= 9
    ensures harsher.score > result.score
            <==> EvictsCritical(a, |blockers|) && LeavesScore(r.checks, Load(a, |blockers| + 1))
  {
    var worse := a.(decision := ChangesRequested);
    blockers :| BlockersUpTo(r, a, blockers, 9) && result == Published(r, a, blockers, echoes);
    var after :| BlockersUpTo(r, worse, after, 9) && harsher == Published(r, worse, after, echoes);
    BlockersWeigh(r, a, echoes, blockers);
    BlockersWeigh(r, worse, echoes, after);
    ChangesAddOne(r, a, blockers, after);
    NextBlockerLoad(a, |blockers|);
    assert Load(worse, |after|) == Load(a, |blockers| + 1);
    ExchangedScore(r.checks, result.findings, harsher.findings, EvictsCritical(a, |blockers|));
  }

  function Remark(): Finding {
    Finding("style", Info, Words("remark"), None, None, Words("none"))
  }

  function Flaw(): Finding {
    Finding("defect", Critical, Words("flaw"), None, None, Words("repair"))
  }

  /** Sixty-two remarks, then a critical flaw. */
  function FlawedAnalysis(): Analysis {
    Analysis(Approved, seq(62, i => Remark()) + [Flaw()], Words("fine"), 1.0)
  }

  function CleanRequest(): Request {
    Request("developer", "reviewer", [Pytest], [Check(Pytest, Test, Succeeded, 0, false)], true)
  }

  lemma FlawedLoads()
    ensures Load(FlawedAnalysis(), 1) == 6_000
    ensures Load(FlawedAnalysis().(decision := ChangesRequested), 2) == 4_000
  {
    var remarks := seq(62, i => Remark());
    NoDeductions(remarks);
    DeductionsConcat(remarks, [Flaw()]);
    assert Deductions([Flaw()]) == 4_000;
    assert Take(remarks + [Flaw()], 63) == remarks + [Flaw()] && Take(remarks + [Flaw()], 62) == remarks;
  }

  lemma CleanScore(findings: seq<Finding>)
    requires Deductions(findings) <= ONE
    ensures Score(CleanRequest().checks, findings) == ONE - Deductions(findings)
  {
    assert Incomplete(CleanRequest().checks) == 0;
    RoundingExact(ONE - Deductions(findings), 1);
  }

  /** A clean change with one critical flaw after sixty-two remarks scores 0.4; had the model also
      requested changes, it would score 0.6, its flaw no longer shown. */
  lemma RequestingChangesRaisesScore(echoes: string -> bool)
    returns (r: Request, a: Analysis, result: ReviewerResult, harsher: ReviewerResult)
    ensures CanonicalRequest(r) && CanonicalAnalysis(a) && a.decision == Approved
    ensures Reviews(r, a, echoes, result) && Reviews(r, a.(decision := ChangesRequested), echoes, harsher)
    ensures result.score == 4_000 && harsher.score == 6_000
  {
    r, a := CleanRequest(), FlawedAnalysis();
    var worse := a.(decision := ChangesRequested);
    FlawBlocks();
    FlawedLoads();
    result := CleanReview(a, echoes, [SevereFindings]);
    harsher := CleanReview(worse, echoes, [SevereFindings, ModelChanges]);
  }

  lemma CleanReview(a: Analysis, echoes: string -> bool, blockers: seq<Blocker>) returns (result: ReviewerResult)
    requires BlockersUpTo(CleanRequest(), a, blockers, 9)
    ensures Reviews(CleanRequest(), a, echoes, result)
    ensures |blockers| <= 9 && (Load(a, |blockers|) <= ONE ==> result.score == ONE - Load(a, |blockers|))
  {
    result := Published(CleanRequest(), a, blockers, echoes);
    BlockersWeigh(CleanRequest(), a, echoes, blockers);
    if Load(a, |blockers|) <= ONE {
      CleanScore(result.findings);
    }
  }

  lemma FlawBlocks()
    ensures BlockersUpTo(CleanRequest(), FlawedAnalysis(), [SevereFindings], 9)
    ensures BlockersUpTo(CleanRequest(), FlawedAnalysis().(decision := ChangesRequested), [SevereFindings, ModelChanges], 9)
  {
    var r, a := CleanRequest(), FlawedAnalysis();
    assert "developer"[0] != "reviewer"[0];
    assert Recorded(r.checks, Pytest) == Some(r.checks[0]);
    assert Distinct(Profiles(r.checks));
    assert a.findings[62] == Flaw() && Severe(Flaw());
    forall b
      ensures Blocked(r, a, b) <==> b == SevereFindings
      ensures Blocked(r, a.(decision := ChangesRequested), b) <==> b == SevereFindings || b == ModelChanges
    {
      RankIsIdentity(b, SevereFindings);
      RankIsIdentity(b, ModelChanges);
    }
    assert forall b :: b in [SevereFindings] <==> b == SevereFindings;
    assert forall b :: b in [SevereFindings, ModelChanges] <==> b == SevereFindings || b == ModelChanges;
  }
}
