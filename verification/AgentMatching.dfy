/** Deterministic matching of agents to a workstream: eligibility, a fixed-point score with two
    levels of rounding, and a limited ranking. */
module AgentMatching {
  import opened FixedPoint
  import opened Sequences
  import Sorting

  type AgentId = nat

  datatype Seniority = Trainee | Junior | Engineer | Senior | Staff | Principal
  datatype AgentStatus = Available | Assigned | Working | Waiting | Blocked | Offline
  datatype Risk = Low | Medium | High | Critical
  datatype Capability = Capability(name: string, expertise: nat)

  datatype Candidate = Candidate(
    id: AgentId, status: AgentStatus, seniority: Seniority, autonomy: nat, reputation: nat, reliability: nat,
    capabilities: seq<Capability>, permissions: set<string>)

  /** Required names are case folded; the estimates give at most one cost per agent. */
  datatype Request = Request(
    required: seq<string>, permissions: set<string>, minimum: Seniority, risk: Risk,
    costs: map<AgentId, nat>, limit: nat)

  datatype Rejection =
    | NotAvailable | MissingCapabilities(names: seq<string>) | MissingPermissions(missing: set<string>)
    | AutonomyBelow | SeniorityBelow | NoCost

  datatype Ranked = Ranked(agent: Candidate, score: nat)
  datatype Rejected = Rejected(id: AgentId, reasons: seq<Rejection>)
  datatype MatchResult = Matching(matches: seq<Ranked>, rejections: seq<Rejected>) | InvalidCandidates

  const MAX_CANDIDATES := 100

  function Rank(s: Seniority): nat {
    match s
    case Trainee => 0 case Junior => 1 case Engineer => 2 case Senior => 3 case Staff => 4 case Principal => 5
  }

  function RiskAutonomy(r: Risk): nat {
    match r case Low => 0 case Medium => 1 case High => 2 case Critical => 3
  }

  predicate ValidCandidate(c: Candidate) {
    && c.reputation <= ONE && c.reliability <= ONE
    && (forall x <- c.capabilities :: x.expertise <= ONE)
    && (forall i, j | 0 <= i < j < |c.capabilities| :: c.capabilities[i].name != c.capabilities[j].name)
  }

  predicate ValidRequest(r: Request) {
    && 1 <= |r.required| && 1 <= r.limit <= 100
    && forall id | id in r.costs :: r.costs[id] <= ONE
  }

  predicate UniqueIds(cs: seq<Candidate>) {
    forall i, j | 0 <= i < j < |cs| :: cs[i].id != cs[j].id
  }

  // ---------------------------------------------------------------- eligibility

  predicate Lists(caps: seq<Capability>, name: string) {
    exists x <- caps :: x.name == name
  }

  predicate HasCapability(c: Candidate, name: string) {
    Lists(c.capabilities, name)
  }

  function Missing(names: seq<string>, c: Candidate): (missing: seq<string>)
    ensures forall n :: n in missing <==> n in names && !HasCapability(c, n)
  {
    if names == [] then []
    else (if HasCapability(c, names[0]) then [] else [names[0]]) + Missing(names[1..], c)
  }

  /** Why a candidate cannot take the workstream, in the order the checks are made. */
  function Reasons(r: Request, c: Candidate): seq<Rejection> {
    (if c.status != Available then [NotAvailable] else [])
    + (if Missing(r.required, c) != [] then [MissingCapabilities(Missing(r.required, c))] else [])
    + (if r.permissions - c.permissions != {} then [MissingPermissions(r.permissions - c.permissions)] else [])
    + (if c.autonomy < RiskAutonomy(r.risk) then [AutonomyBelow] else [])
    + (if Rank(c.seniority) < Rank(r.minimum) then [SeniorityBelow] else [])
    + (if c.id !in r.costs then [NoCost] else [])
  }

  /** What a request asks of an agent. */
  predicate Eligible(r: Request, c: Candidate) {
    && c.status == Available
    && (forall n <- r.required :: HasCapability(c, n))
    && r.permissions <= c.permissions
    && c.autonomy >= RiskAutonomy(r.risk)
    && Rank(c.seniority) >= Rank(r.minimum)
    && c.id in r.costs
  }

  /** A candidate is rejected, with reasons, exactly when it is not eligible. */
  lemma RejectedIffIneligible(r: Request, c: Candidate)
    ensures Reasons(r, c) == [] <==> Eligible(r, c)
  {
    var missing := Missing(r.required, c);
    assert missing == [] <==> forall n <- r.required :: HasCapability(c, n) by {
      if missing != [] {
        assert missing[0] in missing;
      }
    }
    if r.permissions - c.permissions == {} {
      assert forall p <- r.permissions :: p in c.permissions || p in r.permissions - c.permissions;
    } else {
      var p :| p in r.permissions - c.permissions;
    }
  }

  function Kind(x: Rejection): nat {
    match x
    case NotAvailable => 0 case MissingCapabilities(_) => 1 case MissingPermissions(_) => 2
    case AutonomyBelow => 3 case SeniorityBelow => 4 case NoCost => 5
  }

  /** The levels of seniority, from the lowest. */
  function Level(s: Seniority): nat {
    match s
    case Trainee => 0
    case Junior => 2_000
    case Engineer => 4_000
    case Senior => 6_000
    case Staff => 8_000
    case Principal => 10_000
  }

  /** The autonomy that is enough for a risk. */
  predicate Suffices(autonomy: nat, r: Risk) {
    match r
    case Low => true
    case Medium => autonomy >= 1
    case High => autonomy >= 2
    case Critical => autonomy >= 3
  }

  /** When a reason applies, with exactly what is missing. */
  ghost predicate Applies(r: Request, c: Candidate, x: Rejection) {
    match x
    case NotAvailable => !c.status.Available?
    case MissingCapabilities(names) =>
      names == Missing(r.required, c) && exists n <- r.required :: forall y <- c.capabilities :: y.name != n
    case MissingPermissions(missing) => missing != {} && missing == set p <- r.permissions | p !in c.permissions
    case AutonomyBelow => !Suffices(c.autonomy, r.risk)
    case SeniorityBelow => Level(c.seniority) < Level(r.minimum)
    case NoCost => c.id !in r.costs
  }

  /** A reason is given exactly when it applies. */
  lemma ReasonsSayWhy(r: Request, c: Candidate, x: Rejection)
    ensures x in Reasons(r, c) <==> Applies(r, c, x)
  {
    var missing := Missing(r.required, c);
    match x {
      case MissingCapabilities(_) =>
        assert missing != [] ==> missing[0] in missing;
        assert forall n <- r.required :: !HasCapability(c, n) ==> n in missing;
      case MissingPermissions(_) =>
        assert r.permissions - c.permissions == set p <- r.permissions | p !in c.permissions;
      case _ =>
    }
  }

  lemma ReasonsInOrder(r: Request, c: Candidate, i: nat, j: nat)
    requires i < j < |Reasons(r, c)|
    ensures Kind(Reasons(r, c)[i]) < Kind(Reasons(r, c)[j])
  {
  }

  // ---------------------------------------------------------------- the score

  /** The measured expertise in one capability; a later entry of the same name wins. */
  function Expertise(caps: seq<Capability>, name: string): nat
    requires Lists(caps, name)
  {
    var n := |caps| - 1;
    if caps[n].name == name then caps[n].expertise else Expertise(caps[..n], name)
  }

  function TotalExpertise(names: seq<string>, c: Candidate): nat
    requires forall n <- names :: HasCapability(c, n)
  {
    if names == [] then 0
    else
      assert HasCapability(c, names[0]);
      Expertise(c.capabilities, names[0]) + TotalExpertise(names[1..], c)
  }

  /** The weighted sum of the five factors, in hundredths of a unit. */
  function Weigh(expertise: nat, reputation: nat, reliability: nat, fit: nat, thrift: nat): nat {
    35 * expertise + 20 * reputation + 20 * reliability + 10 * fit + 15 * thrift
  }

  function SeniorityFit(s: Seniority): nat {
    RoundHalfUp(Rank(s) * ONE, 5)
  }

  /** The score from the factors: expertise is rounded to a mean, then the weighted sum is rounded. */
  function Score(total: nat, count: nat, reputation: nat, reliability: nat, fit: nat, thrift: nat): nat
    requires count > 0
  {
    RoundHalfUp(Weigh(RoundHalfUp(total, count), reputation, reliability, fit, thrift), 100)
  }

  function ScoreOf(r: Request, c: Candidate): nat
    requires Eligible(r, c) && ValidRequest(r)
  {
    Score(TotalExpertise(r.required, c), |r.required|, c.reputation, c.reliability, SeniorityFit(c.seniority), ONE - r.costs[c.id])
  }

  lemma {:induction false} ExpertiseBound(caps: seq<Capability>, name: string)
    requires Lists(caps, name)
    requires forall x <- caps :: x.expertise <= ONE
    ensures Expertise(caps, name) <= ONE
  {
    var n := |caps| - 1;
    if caps[n].name != name {
      ExpertiseBound(caps[..n], name);
    }
  }

  lemma {:induction false} TotalExpertiseBound(names: seq<string>, c: Candidate)
    requires forall n <- names :: HasCapability(c, n)
    requires forall x <- c.capabilities :: x.expertise <= ONE
    ensures TotalExpertise(names, c) <= |names| * ONE
  {
    if names != [] {
      assert HasCapability(c, names[0]);
      ExpertiseBound(c.capabilities, names[0]);
      TotalExpertiseBound(names[1..], c);
    }
  }

  /** A score lies between zero and one. */
  lemma ScoreInRange(r: Request, c: Candidate)
    requires Eligible(r, c) && ValidRequest(r) && ValidCandidate(c)
    ensures 0 <= ScoreOf(r, c) <= ONE
  {
    TotalExpertiseBound(r.required, c);
    RoundingAtMost(TotalExpertise(r.required, c), |r.required|, ONE);
    RoundingAtMost(Rank(c.seniority) * ONE, 5, ONE);
    RoundingAtMost(
      Weigh(RoundHalfUp(TotalExpertise(r.required, c), |r.required|), c.reputation, c.reliability,
            SeniorityFit(c.seniority), ONE - r.costs[c.id]), 100, ONE);
  }

  /** A score is monotone in every factor, in spite of both roundings: more expertise in total,
      reputation, reliability, seniority, or a lower cost never lowers it. */
  lemma ScoreMonotone(count: nat, t: nat, rep: nat, rel: nat, s: Seniority, thrift: nat,
                      t': nat, rep': nat, rel': nat, s': Seniority, thrift': nat)
    requires count > 0
    requires t <= t' && rep <= rep' && rel <= rel' && Rank(s) <= Rank(s') && thrift <= thrift'
    ensures Score(t, count, rep, rel, SeniorityFit(s), thrift) <= Score(t', count, rep', rel', SeniorityFit(s'), thrift')
  {
    RoundingMonotone(t, t', count);
    RoundingMonotone(Rank(s) * ONE, Rank(s') * ONE, 5);
    RoundingMonotone(Weigh(RoundHalfUp(t, count), rep, rel, SeniorityFit(s), thrift),
                     Weigh(RoundHalfUp(t', count), rep', rel', SeniorityFit(s'), thrift'), 100);
  }

  /** Two hundred times the count times the score, against the exact weighted mean on the same
      scale: off by at most 135 counts, that is by 0.675 of a ten-thousandth. */
  lemma ScoreAccuracy(t: nat, count: nat, rep: nat, rel: nat, fit: nat, thrift: nat)
    requires count > 0
    ensures
      var exact := 35 * t + count * (20 * rep + 20 * rel + 10 * fit + 15 * thrift);
      -135 * count <= 200 * (count * Score(t, count, rep, rel, fit, thrift)) - 2 * exact <= 135 * count
  {
    var e := RoundHalfUp(t, count);
    var rest := 20 * rep + 20 * rel + 10 * fit + 15 * thrift;
    var score := Score(t, count, rep, rel, fit, thrift);
    RoundingError(t, count);
    RoundingError(35 * e + rest, 100);
    Scaled(count, e, rest, score);
    Combined(count, t, e, rest, score);
  }

  /** The score of a candidate, against the weighted sum of its own expertise, reputation,
      reliability, seniority and cost. */
  lemma CandidateScore(r: Request, c: Candidate)
    requires Eligible(r, c) && ValidRequest(r)
    ensures
      var n := |r.required|;
      var exact := 35 * TotalExpertise(r.required, c)
                   + n * (20 * c.reputation + 20 * c.reliability + 10 * Level(c.seniority) + 15 * (ONE - r.costs[c.id]));
      -135 * n <= 200 * (n * ScoreOf(r, c)) - 2 * exact <= 135 * n
  {
    RoundingExact(2_000 * Rank(c.seniority), 5);
    ScoreAccuracy(TotalExpertise(r.required, c), |r.required|, c.reputation, c.reliability,
                  SeniorityFit(c.seniority), ONE - r.costs[c.id]);
  }

  lemma Combined(count: nat, t: nat, e: nat, rest: nat, score: nat)
    requires 2 * count * e <= 2 * t + count && 2 * t < 2 * count * e + count
    requires 200 * (count * score) <= 70 * (count * e) + 2 * (count * rest) + 100 * count
    requires 70 * (count * e) + 2 * (count * rest) <= 200 * (count * score) + 100 * count
    ensures -135 * count <= 200 * (count * score) - 2 * (35 * t + count * rest) <= 135 * count
  {
    assert 2 * count * e == 2 * (count * e);
  }

  lemma Scaled(count: nat, e: nat, rest: nat, score: nat)
    requires 200 * score <= 2 * (35 * e + rest) + 100
    requires 2 * (35 * e + rest) <= 200 * score + 100
    ensures 200 * (count * score) <= 70 * (count * e) + 2 * (count * rest) + 100 * count
    ensures 70 * (count * e) + 2 * (count * rest) <= 200 * (count * score) + 100 * count
  {
    Times(count, 200 * score, 70 * e + 2 * rest + 100);
    Times(count, 70 * e + 2 * rest, 200 * score + 100);
    Spread(count, e, rest, 100);
    Spread(count, e, rest, 0);
    Spread(count, 0, 100 * score, 100);
  }

  lemma Times(n: nat, a: int, b: int)
    requires a <= b
    ensures n * a <= n * b
  {
  }

  lemma Spread(n: nat, e: nat, rest: nat, c: nat)
    ensures n * (70 * e + 2 * rest + c) == 70 * (n * e) + 2 * (n * rest) + c * n
  {
  }

  /** The bound is reached: one unit of expertise over two capabilities, and one unit of thrift. */
  lemma ScoreAccuracyIsTight()
    ensures 200 * (2 * Score(1, 2, 0, 0, 0, 1)) - 2 * (35 * 1 + 2 * 15) == 135 * 2
  {
    assert RoundHalfUp(1, 2) == 1 && RoundHalfUp(50, 100) == 1;
  }

  // ---------------------------------------------------------------- the ranking

  /** Higher scores first, and lower identifiers among equal scores. */
  predicate Better(a: Ranked, b: Ranked) {
    a.score > b.score || (a.score == b.score && a.agent.id <= b.agent.id)
  }

  predicate LowerId(a: Rejected, b: Rejected) {
    a.id <= b.id
  }

  function Entry(r: Request, c: Candidate): seq<Ranked>
    requires ValidRequest(r)
  {
    if Eligible(r, c) then [Ranked(c, ScoreOf(r, c))] else []
  }

  function Refusal(r: Request, c: Candidate): seq<Rejected> {
    if Eligible(r, c) then [] else [Rejected(c.id, Reasons(r, c))]
  }

  function Entries(r: Request): Candidate -> seq<Ranked> {
    c => if ValidRequest(r) then Entry(r, c) else []
  }

  function Refusals(r: Request): Candidate -> seq<Rejected> {
    c => Refusal(r, c)
  }

  function Accepted(r: Request, cs: seq<Candidate>): seq<Ranked> {
    Collect(Entries(r), cs)
  }

  function Refused(r: Request, cs: seq<Candidate>): seq<Rejected> {
    Collect(Refusals(r), cs)
  }

  function Ranking(r: Request, cs: seq<Candidate>): seq<Ranked>
    requires ValidRequest(r)
  {
    Sorting.Sort(Better, Accepted(r, cs))
  }

  function Matched(r: Request, cs: seq<Candidate>): MatchResult
    requires ValidRequest(r)
  {
    if |cs| > MAX_CANDIDATES || !UniqueIds(cs) then InvalidCandidates
    else Matching(Take(Ranking(r, cs), r.limit), Sorting.Sort(LowerId, Refused(r, cs)))
  }

  /** A higher score comes first, and the lower identifier among equal scores. */
  predicate Ahead(a: Ranked, b: Ranked) {
    a.score > b.score || (a.score == b.score && a.agent.id < b.agent.id)
  }

  function Eligibles(r: Request, cs: seq<Candidate>): set<Candidate> {
    set c <- cs | Eligible(r, c)
  }

  /** As many of the eligible candidates as the limit allows, each with its score, in order, and
      ahead of every one that is left out. */
  ghost predicate KeepsBest(r: Request, cs: seq<Candidate>, matches: seq<Ranked>)
    requires ValidRequest(r)
  {
    && (forall m <- matches :: m.agent in cs && Eligible(r, m.agent) && m.score == ScoreOf(r, m.agent))
    && (forall i, j | 0 <= i < j < |matches| :: Ahead(matches[i], matches[j]))
    && |matches| == (if |Eligibles(r, cs)| <= r.limit then |Eligibles(r, cs)| else r.limit)
    && forall c <- cs | Eligible(r, c) && Ranked(c, ScoreOf(r, c)) !in matches :: Trails(r, c, matches)
  }

  ghost predicate Trails(r: Request, c: Candidate, matches: seq<Ranked>)
    requires ValidRequest(r) && Eligible(r, c)
  {
    forall m <- matches :: Ahead(m, Ranked(c, ScoreOf(r, c)))
  }

  /** Every other candidate once, with its reasons, by identifier. */
  ghost predicate RejectsRest(r: Request, cs: seq<Candidate>, rejections: seq<Rejected>) {
    && (forall x <- rejections :: exists c <- cs :: !Eligible(r, c) && x == Rejected(c.id, Reasons(r, c)))
    && (forall c <- cs | !Eligible(r, c) :: Rejected(c.id, Reasons(r, c)) in rejections)
    && forall i, j | 0 <= i < j < |rejections| :: rejections[i].id < rejections[j].id
  }

  /** Matches candidates one after another, then sorts and limits. */
  method Match(r: Request, cs: seq<Candidate>) returns (result: MatchResult)
    requires ValidRequest(r)
    ensures result == Matched(r, cs)
    ensures result.InvalidCandidates? <==> |cs| > 100 || !UniqueIds(cs)
    ensures result.Matching? ==> KeepsBest(r, cs, result.matches) && RejectsRest(r, cs, result.rejections)
  {
    if |cs| > MAX_CANDIDATES || !UniqueIds(cs) {
      return InvalidCandidates;
    }
    var matches, rejections := Sift(r, cs);
    result := Matching(Take(Sorting.Sort(Better, matches), r.limit), Sorting.Sort(LowerId, rejections));
    MatchedKeepsBest(r, cs);
    MatchedRejectsRest(r, cs);
  }

  /** Scores the eligible candidates, and gives the others their reasons. */
  method Sift(r: Request, cs: seq<Candidate>) returns (matches: seq<Ranked>, rejections: seq<Rejected>)
    requires ValidRequest(r)
    ensures matches == Accepted(r, cs) && rejections == Refused(r, cs)
  {
    matches, rejections := [], [];
    for i := 0 to |cs|
      invariant matches == Accepted(r, cs[..i]) && rejections == Refused(r, cs[..i])
    {
      assert cs[..i + 1] == cs[..i] + [cs[i]];
      CollectSnoc(Entries(r), cs[..i], cs[i]);
      CollectSnoc(Refusals(r), cs[..i], cs[i]);
      RejectedIffIneligible(r, cs[i]);
      var reasons := Reasons(r, cs[i]);
      if reasons != [] {
        rejections := rejections + [Rejected(cs[i].id, reasons)];
      } else {
        matches := matches + [Ranked(cs[i], ScoreOf(r, cs[i]))];
      }
    }
    assert cs[..|cs|] == cs;
  }

  lemma {:induction false} AcceptedOnce(r: Request, cs: seq<Candidate>)
    requires ValidRequest(r) && UniqueIds(cs)
    ensures Distinct(Accepted(r, cs)) && |Accepted(r, cs)| == |Eligibles(r, cs)|
  {
    if cs != [] {
      var n := |cs| - 1;
      var init, last := cs[..n], cs[n];
      AcceptedOnce(r, init);
      AcceptedExactly(r, init);
      assert last !in init;
      assert cs == init + [last];
      assert Eligibles(r, cs) == if Eligible(r, last) then Eligibles(r, init) + {last} else Eligibles(r, init);
      if Eligible(r, last) {
        DistinctSnoc(Accepted(r, init), Ranked(last, ScoreOf(r, last)));
      }
    }
  }

  /** Ranked candidates never tie. */
  lemma RankingIsStrict(r: Request, cs: seq<Candidate>, i: nat, j: nat)
    requires ValidRequest(r) && UniqueIds(cs) && i < j < |Ranking(r, cs)|
    ensures Ahead(Ranking(r, cs)[i], Ranking(r, cs)[j])
  {
    var ranking := Ranking(r, cs);
    AcceptedOnce(r, cs);
    DistinctPermuted(Accepted(r, cs), ranking);
    BetterIsTotal();
    Sorting.SortSorts(Better, Accepted(r, cs));
    InRanking(r, cs, ranking[i]);
    InRanking(r, cs, ranking[j]);
    if ranking[i].agent.id == ranking[j].agent.id {
      SameIdSameCandidate(cs, ranking[i].agent, ranking[j].agent);
    }
  }

  lemma MatchedKeepsBest(r: Request, cs: seq<Candidate>)
    requires ValidRequest(r) && UniqueIds(cs)
    ensures KeepsBest(r, cs, Take(Ranking(r, cs), r.limit))
  {
    var ranking, matches := Ranking(r, cs), Take(Ranking(r, cs), r.limit);
    AcceptedOnce(r, cs);
    forall m | m in matches ensures m.agent in cs && Eligible(r, m.agent) && m.score == ScoreOf(r, m.agent) {
      InRanking(r, cs, m);
    }
    forall i, j | 0 <= i < j < |matches| ensures Ahead(matches[i], matches[j]) {
      RankingIsStrict(r, cs, i, j);
    }
    forall c | c in cs && Eligible(r, c) && Ranked(c, ScoreOf(r, c)) !in matches
      ensures Trails(r, c, matches)
    {
      CutTrails(r, cs, c);
    }
  }

  lemma CutTrails(r: Request, cs: seq<Candidate>, c: Candidate)
    requires ValidRequest(r) && UniqueIds(cs) && c in cs && Eligible(r, c)
    requires Ranked(c, ScoreOf(r, c)) !in Take(Ranking(r, cs), r.limit)
    ensures Trails(r, c, Take(Ranking(r, cs), r.limit))
  {
    var ranking, matches, out := Ranking(r, cs), Take(Ranking(r, cs), r.limit), Ranked(c, ScoreOf(r, c));
    InRanking(r, cs, out);
    var j :| 0 <= j < |ranking| && ranking[j] == out;
    assert j >= |matches|;
    forall i | 0 <= i < |matches| ensures Ahead(matches[i], out) {
      RankingIsStrict(r, cs, i, j);
    }
  }

  lemma {:induction false} RefusedOnce(r: Request, cs: seq<Candidate>)
    requires UniqueIds(cs)
    ensures Distinct(Refused(r, cs))
  {
    if cs != [] {
      var n := |cs| - 1;
      RefusedOnce(r, cs[..n]);
      InRefused(r, cs[..n], Rejected(cs[n].id, Reasons(r, cs[n])));
      DistinctSnoc(Refused(r, cs[..n]), Rejected(cs[n].id, Reasons(r, cs[n])));
    }
  }

  lemma MatchedRejectsRest(r: Request, cs: seq<Candidate>)
    requires UniqueIds(cs)
    ensures RejectsRest(r, cs, Sorting.Sort(LowerId, Refused(r, cs)))
  {
    var sorted := Sorting.Sort(LowerId, Refused(r, cs));
    RefusedOnce(r, cs);
    DistinctPermuted(Refused(r, cs), sorted);
    BetterIsTotal();
    Sorting.SortSorts(LowerId, Refused(r, cs));
    forall x ensures x in sorted <==> exists c <- cs :: !Eligible(r, c) && x == Rejected(c.id, Reasons(r, c)) {
      InRefused(r, cs, x);
      Sorting.InSort(LowerId, Refused(r, cs), x);
    }
    forall i, j | 0 <= i < j < |sorted| ensures sorted[i].id < sorted[j].id {
      assert sorted[i] in sorted && sorted[j] in sorted && sorted[i] != sorted[j];
      var c :| c in cs && !Eligible(r, c) && sorted[i] == Rejected(c.id, Reasons(r, c));
      var d :| d in cs && !Eligible(r, d) && sorted[j] == Rejected(d.id, Reasons(r, d));
      if c.id == d.id {
        SameIdSameCandidate(cs, c, d);
      }
    }
  }

  lemma AcceptedExactly(r: Request, cs: seq<Candidate>)
    requires ValidRequest(r)
    ensures forall m :: m in Accepted(r, cs) <==> m.agent in cs && Eligible(r, m.agent) && m.score == ScoreOf(r, m.agent)
    ensures forall x :: x in Refused(r, cs) <==> exists c <- cs :: !Eligible(r, c) && x == Rejected(c.id, Reasons(r, c))
  {
    forall m ensures m in Accepted(r, cs) <==> m.agent in cs && Eligible(r, m.agent) && m.score == ScoreOf(r, m.agent) {
      InCollect(Entries(r), cs, m);
    }
    forall x ensures x in Refused(r, cs) <==> exists c <- cs :: !Eligible(r, c) && x == Rejected(c.id, Reasons(r, c)) {
      InCollect(Refusals(r), cs, x);
    }
  }

  lemma InRanking(r: Request, cs: seq<Candidate>, m: Ranked)
    requires ValidRequest(r)
    ensures m in Ranking(r, cs) <==> m.agent in cs && Eligible(r, m.agent) && m.score == ScoreOf(r, m.agent)
  {
    AcceptedExactly(r, cs);
    Sorting.InSort(Better, Accepted(r, cs), m);
  }

  lemma InRefused(r: Request, cs: seq<Candidate>, x: Rejected)
    ensures x in Refused(r, cs) <==> exists c <- cs :: !Eligible(r, c) && x == Rejected(c.id, Reasons(r, c))
  {
    InCollect(Refusals(r), cs, x);
  }

  lemma SameIdSameCandidate(cs: seq<Candidate>, a: Candidate, b: Candidate)
    requires UniqueIds(cs) && a in cs && b in cs && a.id == b.id
    ensures a == b
  {
  }

  /** Before the limit every candidate is ranked, with its score, or rejected, with its reasons,
      and none is both. */
  lemma RankedOrRejected(r: Request, cs: seq<Candidate>, c: Candidate)
    requires ValidRequest(r) && UniqueIds(cs) && c in cs
    ensures Eligible(r, c) ==> Ranked(c, ScoreOf(r, c)) in Ranking(r, cs) && forall x <- Refused(r, cs) :: x.id != c.id
    ensures !Eligible(r, c) ==>
              Rejected(c.id, Reasons(r, c)) in Refused(r, cs) && Reasons(r, c) != []
              && forall m <- Ranking(r, cs) :: m.agent.id != c.id
  {
    RejectedIffIneligible(r, c);
    if Eligible(r, c) {
      InRanking(r, cs, Ranked(c, ScoreOf(r, c)));
    }
    InRefused(r, cs, Rejected(c.id, Reasons(r, c)));
    forall x | x in Refused(r, cs) && x.id == c.id ensures !Eligible(r, c) {
      InRefused(r, cs, x);
      var d :| d in cs && !Eligible(r, d) && x == Rejected(d.id, Reasons(r, d));
      SameIdSameCandidate(cs, c, d);
    }
    forall m | m in Ranking(r, cs) && m.agent.id == c.id ensures Eligible(r, c) {
      InRanking(r, cs, m);
      SameIdSameCandidate(cs, c, m.agent);
    }
  }

  lemma BetterIsTotal()
    ensures Sorting.TotalPreorder(Better) && Sorting.TotalPreorder(LowerId)
  {
  }

  lemma SameRanking(r: Request, cs: seq<Candidate>, cs': seq<Candidate>)
    requires ValidRequest(r) && multiset(cs) == multiset(cs') && UniqueIds(cs)
    ensures Ranking(r, cs) == Ranking(r, cs')
  {
    CollectPermuted(Entries(r), cs, cs');
    AcceptedExactly(r, cs);
    BetterIsTotal();
    Sorting.SortSorts(Better, Accepted(r, cs));
    Sorting.SortSorts(Better, Accepted(r, cs'));
    forall x, y | x in Ranking(r, cs) && y in Ranking(r, cs) && Better(x, y) && Better(y, x)
      ensures x == y
    {
      Sorting.InSort(Better, Accepted(r, cs), x);
      Sorting.InSort(Better, Accepted(r, cs), y);
    }
    Sorting.SortedUnique(Better, Ranking(r, cs), Ranking(r, cs'));
  }

  lemma SameRejections(r: Request, cs: seq<Candidate>, cs': seq<Candidate>)
    requires ValidRequest(r) && multiset(cs) == multiset(cs') && UniqueIds(cs)
    ensures Sorting.Sort(LowerId, Refused(r, cs)) == Sorting.Sort(LowerId, Refused(r, cs'))
  {
    CollectPermuted(Refusals(r), cs, cs');
    AcceptedExactly(r, cs);
    BetterIsTotal();
    Sorting.SortSorts(LowerId, Refused(r, cs));
    Sorting.SortSorts(LowerId, Refused(r, cs'));
    var sorted := Sorting.Sort(LowerId, Refused(r, cs));
    forall x, y | x in sorted && y in sorted && LowerId(x, y) && LowerId(y, x)
      ensures x == y
    {
      Sorting.InSort(LowerId, Refused(r, cs), x);
      Sorting.InSort(LowerId, Refused(r, cs), y);
    }
    Sorting.SortedUnique(LowerId, sorted, Sorting.Sort(LowerId, Refused(r, cs')));
  }

  /** Uniqueness of identifiers does not depend on the order either. */
  lemma UniquePermuted(cs: seq<Candidate>, cs': seq<Candidate>)
    requires multiset(cs) == multiset(cs') && UniqueIds(cs)
    ensures UniqueIds(cs')
  {
    DistinctPermuted(cs, cs');
    forall i, j | 0 <= i < j < |cs'| ensures cs'[i].id != cs'[j].id {
      assert cs'[i] in multiset(cs) && cs'[j] in multiset(cs);
      assert cs'[i] in cs && cs'[j] in cs && cs'[i] != cs'[j];
      if cs'[i].id == cs'[j].id {
        SameIdSameCandidate(cs, cs'[i], cs'[j]);
      }
    }
  }

  /** The result does not depend on the order of the candidates. */
  lemma MatchingIsOrderFree(r: Request, cs: seq<Candidate>, cs': seq<Candidate>)
    requires ValidRequest(r) && multiset(cs) == multiset(cs')
    ensures Matched(r, cs) == Matched(r, cs')
  {
    assert |cs| == |multiset(cs)| && |cs'| == |multiset(cs')|;
    if UniqueIds(cs) {
      UniquePermuted(cs, cs');
      SameRanking(r, cs, cs');
      SameRejections(r, cs, cs');
    } else if UniqueIds(cs') {
      UniquePermuted(cs', cs);
    }
  }
}
