/** The review score: verification completion and finding penalties, in ten-thousandths. */
module ReviewScore {
  import opened Wrappers
  import opened FixedPoint

  datatype Profile =
    | Pytest | NpmTest | ArtisanTest | Ruff | Mypy | NpmBuild | GitStatus | GitDiff | GitDiffStaged | GitLog
  datatype Category = Test | Lint | Build | GitRead
  datatype Status = Succeeded | Failed
  datatype Check = Check(profile: Profile, category: Category, status: Status, exitCode: int, truncated: bool)

  datatype Severity = Info | Low | Medium | High | Critical

  /** Text of the model, its redaction, or the wording the application owns for a blocker. */
  datatype Text = Words(words: string) | Redacted | Explains(blocker: Blocker)
  datatype Blocker =
    | SameIdentity | DeveloperFailed | MissingChecks | InconsistentChecks | TruncatedChecks | FailedChecks
    | SevereFindings | ModelChanges | LowConfidence
  datatype Finding = Finding(
    category: string, severity: Severity, rationale: Text, path: Option<string>, line: Option<int>, recommendation: Text)

  function CategoryOf(p: Profile): Category {
    match p
    case Pytest | NpmTest | ArtisanTest => Test
    case Ruff | Mypy => Lint
    case NpmBuild => Build
    case GitStatus | GitDiff | GitDiffStaged | GitLog => GitRead
  }

  predicate Passing(c: Check) {
    c.category == CategoryOf(c.profile) && c.status.Succeeded? && c.exitCode == 0 && !c.truncated
  }

  function Incomplete(checks: seq<Check>): (n: nat)
    ensures n <= |checks|
    ensures n == 0 <==> forall c <- checks :: Passing(c)
  {
    if checks == [] then 0
    else
      var last := |checks| - 1;
      assert checks == checks[..last] + [checks[last]];
      Incomplete(checks[..last]) + if Passing(checks[last]) then 0 else 1
  }

  function Penalty(s: Severity): nat {
    match s case Info => 0 case Low => 200 case Medium => 800 case High => 2_000 case Critical => 4_000
  }

  function Deductions(findings: seq<Finding>): nat {
    if findings == [] then 0
    else Deductions(findings[..|findings| - 1]) + Penalty(findings[|findings| - 1].severity)
  }

  const CHECK_WEIGHT := 5_000

  function ClampedAtZero(x: int): nat {
    if x < 0 then 0 else x
  }

  /** What remains of a full score, over the number of checks. */
  function Remaining(checks: seq<Check>, deductions: nat): nat {
    ClampedAtZero((ONE - deductions) * |checks| - CHECK_WEIGHT * Incomplete(checks))
  }

  function Score(checks: seq<Check>, findings: seq<Finding>): nat {
    if checks == [] then 0 else RoundHalfUp(Remaining(checks, Deductions(findings)), |checks|)
  }

  // ---------------------------------------------------------------- what the score means

  lemma {:induction false} DeductionsConcat(a: seq<Finding>, b: seq<Finding>)
    ensures Deductions(a + b) == Deductions(a) + Deductions(b)
  {
    if b == [] {
      assert a + b == a;
    } else {
      var n := |b| - 1;
      DeductionsConcat(a, b[..n]);
      assert (a + b)[..|a + b| - 1] == a + b[..n];
    }
  }

  lemma {:induction false} NoDeductions(findings: seq<Finding>)
    ensures Deductions(findings) == 0 <==> forall f <- findings :: f.severity.Info?
  {
    if findings != [] {
      var n := |findings| - 1;
      NoDeductions(findings[..n]);
      assert findings == findings[..n] + [findings[n]];
    }
  }

  lemma Product(a: int, b: int, n: nat)
    requires a <= b
    ensures a * n <= b * n
  {
  }

  lemma RemainingMonotone(checks: seq<Check>, d: nat, more: nat)
    requires d <= more
    ensures Remaining(checks, more) <= Remaining(checks, d)
  {
    Product(ONE - more, ONE - d, |checks|);
  }

  /** Heavier deductions never raise the score of the same checks. */
  lemma MoreDeductionsNoHigherScore(checks: seq<Check>, findings: seq<Finding>, worse: seq<Finding>)
    requires Deductions(findings) <= Deductions(worse)
    ensures Score(checks, worse) <= Score(checks, findings)
  {
    if checks != [] {
      RemainingMonotone(checks, Deductions(findings), Deductions(worse));
      RoundingMonotone(Remaining(checks, Deductions(worse)), Remaining(checks, Deductions(findings)), |checks|);
    }
  }

  /** Adding findings anywhere never raises the score of the same checks. */
  lemma AddingFindingsNeverRaises(checks: seq<Check>, before: seq<Finding>, added: seq<Finding>, after: seq<Finding>)
    ensures Score(checks, before + added + after) <= Score(checks, before + after)
  {
    DeductionsConcat(before, added);
    DeductionsConcat(before + added, after);
    DeductionsConcat(before, after);
    MoreDeductionsNoHigherScore(checks, before + after, before + added + after);
  }

  /** The score lies between zero and one, and below one by at least the deductions. */
  lemma ScoreBound(checks: seq<Check>, findings: seq<Finding>)
    ensures Score(checks, findings) <= ClampedAtZero(ONE - Deductions(findings))
  {
    if checks != [] {
      var cap := ClampedAtZero(ONE - Deductions(findings));
      Product(ONE - Deductions(findings), cap, |checks|);
      assert Remaining(checks, Deductions(findings)) <= cap * |checks|;
      RoundingAtMost(Remaining(checks, Deductions(findings)), |checks|, cap);
    }
  }

  /** A check of the category of its profile that ran to its end without an error. */
  predicate Succeeds(c: Check) {
    c.category == CategoryOf(c.profile) && c.status == Succeeded && c.exitCode == 0 && !c.truncated
  }

  function CountOf(findings: seq<Finding>, s: Severity): nat {
    if findings == [] then 0
    else CountOf(findings[..|findings| - 1], s) + if findings[|findings| - 1].severity == s then 1 else 0
  }

  /** The deductions by severity: two, eight, twenty and forty hundredths. */
  lemma {:induction false} DeductionsBySeverity(findings: seq<Finding>)
    ensures Deductions(findings)
         == 200 * CountOf(findings, Low) + 800 * CountOf(findings, Medium)
            + 2_000 * CountOf(findings, High) + 4_000 * CountOf(findings, Critical)
  {
    if findings != [] {
      DeductionsBySeverity(findings[..|findings| - 1]);
    }
  }

  function Flawed(checks: seq<Check>): nat {
    if checks == [] then 0 else Flawed(checks[..|checks| - 1]) + if Succeeds(checks[|checks| - 1]) then 0 else 1
  }

  lemma {:induction false} FlawedAreIncomplete(checks: seq<Check>)
    ensures Incomplete(checks) == Flawed(checks)
  {
    if checks != [] {
      FlawedAreIncomplete(checks[..|checks| - 1]);
    }
  }

  /** Only the complete success of every check with nothing worse than a remark scores one. */
  lemma FullScoreIsPerfect(checks: seq<Check>, findings: seq<Finding>)
    requires |checks| < ONE
    ensures Score(checks, findings) == 10_000
            <==> checks != [] && (forall c <- checks :: Succeeds(c)) && (forall f <- findings :: f.severity.Info?)
  {
    NoDeductions(findings);
    ScoreBound(checks, findings);
    assert forall c <- checks :: Succeeds(c) == Passing(c);
    if checks != [] && Deductions(findings) == 0 {
      var n := |checks|;
      if Incomplete(checks) == 0 {
        RoundingExact(ONE, n);
      } else {
        RoundingError(Remaining(checks, 0), n);
        assert Remaining(checks, 0) <= ONE * n - CHECK_WEIGHT;
        assert Score(checks, findings) == ONE ==> 2 * n * ONE <= 2 * (ONE * n - CHECK_WEIGHT) + n;
      }
    }
  }

  /** Each flawed check costs an equal share of one half, and each finding its deduction: the score is
      the exact difference, cut off at zero and rounded half up. */
  lemma ScoreIsExactToHalfAUnit(checks: seq<Check>, findings: seq<Finding>)
    requires checks != []
    ensures var deductions := 200 * CountOf(findings, Low) + 800 * CountOf(findings, Medium)
                              + 2_000 * CountOf(findings, High) + 4_000 * CountOf(findings, Critical);
            var exact := (10_000 - deductions) * |checks| - 5_000 * Flawed(checks);
            && (exact <= 0 ==> Score(checks, findings) == 0)
            && (exact >= 0 ==> 2 * |checks| * Score(checks, findings) <= 2 * exact + |checks|)
            && (exact >= 0 ==> 2 * exact < 2 * |checks| * Score(checks, findings) + |checks|)
  {
    DeductionsBySeverity(findings);
    FlawedAreIncomplete(checks);
    RoundingError(Remaining(checks, Deductions(findings)), |checks|);
    RoundingAtMost(0, |checks|, 0);
  }

  lemma ClampedShift(x: int, n: nat, units: nat)
    requires n > 0
    ensures RoundHalfUp(ClampedAtZero(x + units * n), n) <= RoundHalfUp(ClampedAtZero(x), n) + units
    ensures x >= 0 ==> RoundHalfUp(ClampedAtZero(x + units * n), n) == RoundHalfUp(ClampedAtZero(x), n) + units
  {
    assert units * n >= 0;
    RoundingMonotone(ClampedAtZero(x + units * n), ClampedAtZero(x) + units * n, n);
    RoundingShifts(ClampedAtZero(x), n, units);
  }

  lemma ExactShift(n: nat, deductions: nat, units: nat, x: int)
    requires x == (ONE - (deductions + units)) * n
    ensures (ONE - deductions) * n == x + units * n
  {
  }

  /** Lifting deductions raises the score by no more than their amount, and by exactly that from any
      positive score. */
  lemma ScoreShifts(checks: seq<Check>, findings: seq<Finding>, lighter: seq<Finding>, units: nat)
    requires checks != [] && Deductions(findings) == Deductions(lighter) + units
    ensures Score(checks, lighter) <= Score(checks, findings) + units
    ensures Score(checks, findings) > 0 ==> Score(checks, lighter) == Score(checks, findings) + units
  {
    var n, failed := |checks|, CHECK_WEIGHT * Incomplete(checks);
    var x := (ONE - Deductions(findings)) * n;
    ExactShift(n, Deductions(lighter), units, x);
    ClampedShift(x - failed, n, units);
    assert Remaining(checks, Deductions(findings)) == ClampedAtZero(x - failed);
    assert Remaining(checks, Deductions(lighter)) == ClampedAtZero(x - failed + units * n);
    RoundingAtMost(0, n, 0);
  }
}
