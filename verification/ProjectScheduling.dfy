/** The multi-project scheduler: greedy by priority over each request's ranked matches, with one
    active assignment per agent and a history that only grows. */
module ProjectScheduling {
  import opened Wrappers
  import opened AgentMatching
  import Sequences
  import Sorting

  datatype ProjectRequest = ProjectRequest(project: nat, task: nat, priority: nat, matching: Request)

  datatype AssignmentStatus = Active | Released

  datatype Assignment = Assignment(
    id: nat, agent: AgentId, project: nat, task: nat, priority: nat, score: nat, status: AssignmentStatus)

  /** Higher priority first, then lower project, then lower task. */
  predicate Sooner(a: ProjectRequest, b: ProjectRequest) {
    || a.priority > b.priority
    || (a.priority == b.priority && (a.project < b.project || (a.project == b.project && a.task <= b.task)))
  }

  // ---------------------------------------------------------------- greedy choice

  function FirstFree(matches: seq<Ranked>, claimed: set<AgentId>): (r: Option<Ranked>)
    ensures r.Some? ==> r.value in matches && r.value.agent.id !in claimed
    ensures r.None? ==> forall m <- matches :: m.agent.id in claimed
  {
    if matches == [] then None
    else if matches[0].agent.id !in claimed then Some(matches[0])
    else FirstFree(matches[1..], claimed)
  }

  function Claim(claimed: set<AgentId>, pick: Option<Ranked>): set<AgentId> {
    if pick.Some? then claimed + {pick.value.agent.id} else claimed
  }

  /** Each request in turn takes its best match that nobody has claimed. */
  function Picks(lists: seq<seq<Ranked>>, claimed: set<AgentId>): (picks: seq<Option<Ranked>>)
    ensures |picks| == |lists|
  {
    if lists == [] then []
    else
      var pick := FirstFree(lists[0], claimed);
      [pick] + Picks(lists[1..], Claim(claimed, pick))
  }

  /** How a request ranks an agent: its place in the list, or the end of it for nobody. */
  function Place(matches: seq<Ranked>, agent: Option<AgentId>): nat {
    if matches == [] then 0
    else if agent == Some(matches[0].agent.id) then 0
    else 1 + Place(matches[1..], agent)
  }

  ghost predicate Lists(matches: seq<Ranked>, agent: AgentId) {
    exists m <- matches :: m.agent.id == agent
  }

  /** An assignment of distinct agents that were free, each from the list of its request. */
  ghost predicate Feasible(lists: seq<seq<Ranked>>, claimed: set<AgentId>, chosen: seq<Option<AgentId>>) {
    && |chosen| == |lists|
    && (forall i | 0 <= i < |chosen| && chosen[i].Some? ::
          chosen[i].value !in claimed && Lists(lists[i], chosen[i].value))
    && (forall i, j | 0 <= i < j < |chosen| && chosen[i].Some? :: chosen[i] != chosen[j])
  }

  function AgentOf(pick: Option<Ranked>): Option<AgentId> {
    if pick.Some? then Some(pick.value.agent.id) else None
  }

  function Agents(picks: seq<Option<Ranked>>): seq<Option<AgentId>> {
    seq(|picks|, i requires 0 <= i < |picks| => AgentOf(picks[i]))
  }

  /** The greedy choice itself is feasible. */
  lemma {:induction false} PicksAreFeasible(lists: seq<seq<Ranked>>, claimed: set<AgentId>)
    ensures Feasible(lists, claimed, Agents(Picks(lists, claimed)))
  {
    if lists != [] {
      var pick := FirstFree(lists[0], claimed);
      var rest := Picks(lists[1..], Claim(claimed, pick));
      PicksAreFeasible(lists[1..], Claim(claimed, pick));
      var all := Agents(Picks(lists, claimed));
      assert all == [AgentOf(pick)] + Agents(rest);
      forall i, j | 0 <= i < j < |all| && all[i].Some? ensures all[i] != all[j] {
        assert all[j] == Agents(rest)[j - 1];
        if i > 0 {
          assert all[i] == Agents(rest)[i - 1];
        }
      }
      forall i | 0 <= i < |all| && all[i].Some?
        ensures all[i].value !in claimed && Lists(lists[i], all[i].value)
      {
        if i > 0 {
          assert all[i] == Agents(rest)[i - 1] && lists[i] == lists[1..][i - 1];
        }
      }
    }
  }

  /** A request left without an agent has every one of its matches claimed, before or by others. */
  lemma {:induction false} UnassignedIsSaturated(lists: seq<seq<Ranked>>, claimed: set<AgentId>, i: nat, m: Ranked)
    requires i < |lists| && Picks(lists, claimed)[i].None? && m in lists[i]
    ensures m.agent.id in claimed || exists j | 0 <= j < i :: AgentOf(Picks(lists, claimed)[j]) == Some(m.agent.id)
  {
    if i > 0 {
      var pick := FirstFree(lists[0], claimed);
      var rest := Picks(lists[1..], Claim(claimed, pick));
      var all := Picks(lists, claimed);
      UnassignedIsSaturated(lists[1..], Claim(claimed, pick), i - 1, m);
      if m.agent.id !in claimed {
        if AgentOf(pick) == Some(m.agent.id) {
          assert all[0] == pick;
        } else {
          var j :| 0 <= j < i - 1 && AgentOf(rest[j]) == Some(m.agent.id);
          assert all[j + 1] == rest[j];
        }
      }
    }
  }

  lemma {:induction false} FirstFreeIsBest(matches: seq<Ranked>, claimed: set<AgentId>, other: Option<AgentId>)
    requires other.Some? ==> other.value !in claimed && Lists(matches, other.value)
    requires Place(matches, other) <= Place(matches, AgentOf(FirstFree(matches, claimed)))
    ensures other == AgentOf(FirstFree(matches, claimed))
  {
    if matches == [] {
    } else if matches[0].agent.id !in claimed {
    } else {
      assert other.Some? ==> Lists(matches[1..], other.value);
      FirstFreeIsBest(matches[1..], claimed, other);
    }
  }

  /** No request gets a less preferred agent, or none where it would get one. */
  ghost predicate NoneWorse(lists: seq<seq<Ranked>>, other: seq<Option<AgentId>>, picks: seq<Option<Ranked>>)
    requires |other| == |lists| && |picks| == |lists|
  {
    forall i | 0 <= i < |lists| :: Place(lists[i], other[i]) <= Place(lists[i], AgentOf(picks[i]))
  }

  lemma RestIsFeasible(lists: seq<seq<Ranked>>, claimed: set<AgentId>, other: seq<Option<AgentId>>)
    requires lists != [] && Feasible(lists, claimed, other) && NoneWorse(lists, other, Picks(lists, claimed))
    requires other[0] == AgentOf(FirstFree(lists[0], claimed))
    ensures var rest := Claim(claimed, FirstFree(lists[0], claimed));
            Feasible(lists[1..], rest, other[1..]) && NoneWorse(lists[1..], other[1..], Picks(lists[1..], rest))
  {
    var all := Picks(lists, claimed);
    assert all[1..] == Picks(lists[1..], Claim(claimed, FirstFree(lists[0], claimed)));
    assert forall i | 0 <= i < |lists| - 1 ::
        lists[1..][i] == lists[i + 1] && other[1..][i] == other[i + 1] && all[1..][i] == all[i + 1];
  }

  /** Greedy choice over strict preferences is Pareto optimal: whatever else is feasible and
      leaves no request worse off is the same assignment. */
  lemma {:induction false} GreedyIsPareto(lists: seq<seq<Ranked>>, claimed: set<AgentId>, other: seq<Option<AgentId>>)
    requires Feasible(lists, claimed, other) && NoneWorse(lists, other, Picks(lists, claimed))
    ensures other == Agents(Picks(lists, claimed))
  {
    if lists != [] {
      var pick, all := FirstFree(lists[0], claimed), Picks(lists, claimed);
      assert all[0] == pick;
      FirstFreeIsBest(lists[0], claimed, other[0]);
      RestIsFeasible(lists, claimed, other);
      GreedyIsPareto(lists[1..], Claim(claimed, pick), other[1..]);
      assert other == [other[0]] + other[1..];
      assert Agents(all) == [AgentOf(pick)] + Agents(all[1..]);
    }
  }

  // ---------------------------------------------------------------- the scheduler's state

  predicate ValidRequests(requests: seq<ProjectRequest>) {
    forall r <- requests :: ValidRequest(r.matching)
  }

  /** The ranked matches of each request, which no claim changes. */
  function MatchLists(requests: seq<ProjectRequest>, candidates: seq<Candidate>): seq<seq<Ranked>>
    requires ValidRequests(requests)
  {
    seq(|requests|, i requires 0 <= i < |requests| => Sequences.Take(Ranking(requests[i].matching, candidates), requests[i].matching.limit))
  }

  function Assign(r: ProjectRequest, m: Ranked, id: nat): Assignment {
    Assignment(id, m.agent.id, r.project, r.task, r.priority, m.score, Active)
  }

  /** The assignments made for the requests that got an agent, with consecutive fresh identifiers. */
  function Made(requests: seq<ProjectRequest>, picks: seq<Option<Ranked>>, id: nat): seq<Assignment>
    requires |requests| == |picks|
  {
    if requests == [] then []
    else
      var n := |requests| - 1;
      var before := Made(requests[..n], picks[..n], id);
      if picks[n].None? then before
      else
        before + [Assign(requests[n], picks[n].value, id + |before|)]
  }

  lemma MadeSnoc(requests: seq<ProjectRequest>, picks: seq<Option<Ranked>>, id: nat, r: ProjectRequest, pick: Option<Ranked>)
    requires |requests| == |picks|
    ensures Made(requests + [r], picks + [pick], id)
         == Made(requests, picks, id) + if pick.None? then [] else [Assign(r, pick.value, id + |Made(requests, picks, id)|)]
  {
    assert (requests + [r])[..|requests|] == requests && (picks + [pick])[..|picks|] == picks;
  }

  lemma PicksStep(lists: seq<seq<Ranked>>, i: nat, claimed: set<AgentId>)
    requires i < |lists|
    ensures Picks(lists[i..], claimed)
         == [FirstFree(lists[i], claimed)] + Picks(lists[i + 1..], Claim(claimed, FirstFree(lists[i], claimed)))
  {
    assert lists[i..][0] == lists[i] && lists[i..][1..] == lists[i + 1..];
  }

  function ReleasedCopy(a: Assignment): Assignment {
    a.(status := Released)
  }

  /** The history after a project's active entries among some agents are released in place. */
  function ReleasedAmong(history: seq<Assignment>, project: nat, agents: set<AgentId>): seq<Assignment> {
    seq(|history|, i requires 0 <= i < |history| =>
      if history[i].status == Active && history[i].project == project && history[i].agent in agents
      then ReleasedCopy(history[i]) else history[i])
  }

  /** The agents that work for a project. */
  function AgentsOf(active: map<AgentId, Assignment>, project: nat): set<AgentId> {
    set a | a in active && active[a].project == project
  }

  lemma NothingReleased(history: seq<Assignment>, project: nat)
    ensures ReleasedAmong(history, project, {}) == history
  {
  }

  lemma AllReleased(history: seq<Assignment>, project: nat, active: map<AgentId, Assignment>, nextId: nat)
    requires Consistent(active, history, nextId)
    ensures ReleasedAmong(history, project, AgentsOf(active, project)) == ReleasedAmong(history, project, active.Keys)
  {
  }

  /** Active entries of the history are exactly the values of the active map, one per agent. */
  ghost predicate Consistent(active: map<AgentId, Assignment>, history: seq<Assignment>, nextId: nat) {
    && (forall a | a in active :: active[a].agent == a && active[a].status == Active && active[a] in history)
    && (forall i | 0 <= i < |history| && history[i].status == Active ::
          history[i].agent in active && active[history[i].agent] == history[i])
    && (forall i | 0 <= i < |history| :: history[i].id < nextId)
    && (forall i, j | 0 <= i < j < |history| :: history[i].id != history[j].id)
  }

  lemma ConsistentAdd(active: map<AgentId, Assignment>, history: seq<Assignment>, nextId: nat, a: Assignment)
    requires Consistent(active, history, nextId)
    requires a.id == nextId && a.status == Active && a.agent !in active
    ensures Consistent(active[a.agent := a], history + [a], nextId + 1)
  {
    assert (history + [a])[|history|] == a;
    var active' := active[a.agent := a];
    forall x | x in active' ensures active'[x] in history + [a] {
      if x != a.agent {
        assert active[x] in history;
      }
    }
  }

  lemma ConsistentRelease(active: map<AgentId, Assignment>, history: seq<Assignment>, nextId: nat, agent: AgentId, i: nat)
    requires Consistent(active, history, nextId)
    requires agent in active && i < |history| && history[i] == active[agent]
    ensures Consistent(active - {agent}, history[i := ReleasedCopy(history[i])], nextId)
  {
    var history' := history[i := ReleasedCopy(history[i])];
    var active' := active - {agent};
    forall x | x in active' ensures active'[x] in history' {
      var k :| 0 <= k < |history| && history[k] == active[x];
      assert history'[k] == history[k];
    }
  }

  function AgentsIn(assignments: seq<Assignment>): set<AgentId> {
    set a | a in assignments :: a.agent
  }

  lemma AgentsSnoc(assignments: seq<Assignment>, a: Assignment)
    ensures AgentsIn(assignments + [a]) == AgentsIn(assignments) + {a.agent}
  {
    forall x ensures x in AgentsIn(assignments + [a]) <==> x in AgentsIn(assignments) + {a.agent} {
      if x in AgentsIn(assignments) {
        var b :| b in assignments && b.agent == x;
        assert b in assignments + [a];
      }
      assert a in assignments + [a];
    }
  }

  /** How far a scheduling pass has come: what is assigned, and what the rest will be given. */
  ghost predicate Progress(ordered: seq<ProjectRequest>, lists: seq<seq<Ranked>>, base: set<AgentId>, first: nat,
                           i: nat, picks: seq<Option<Ranked>>, made: seq<Assignment>, claimed: set<AgentId>) {
    && |lists| == |ordered| && |picks| == i <= |ordered|
    && made == Made(ordered[..i], picks, first)
    && claimed == base + AgentsIn(made)
    && picks + Picks(lists[i..], claimed) == Picks(lists, base)
  }

  /** What one request adds to the assignments. */
  function Added(r: ProjectRequest, pick: Option<Ranked>, id: nat): seq<Assignment> {
    if pick.None? then [] else [Assign(r, pick.value, id)]
  }

  lemma ProgressStep(ordered: seq<ProjectRequest>, lists: seq<seq<Ranked>>, base: set<AgentId>, first: nat,
                     i: nat, picks: seq<Option<Ranked>>, made: seq<Assignment>, claimed: set<AgentId>)
    requires Progress(ordered, lists, base, first, i, picks, made, claimed) && i < |ordered|
    ensures
      var pick := FirstFree(lists[i], claimed);
      Progress(ordered, lists, base, first, i + 1, picks + [pick],
               made + Added(ordered[i], pick, first + |made|), Claim(claimed, pick))
  {
    var pick := FirstFree(lists[i], claimed);
    PicksStep(lists, i, claimed);
    MadeSnoc(ordered[..i], picks, first, ordered[i], pick);
    assert ordered[..i + 1] == ordered[..i] + [ordered[i]];
    if pick.Some? {
      AgentsSnoc(made, Assign(ordered[i], pick.value, first + |made|));
    } else {
      assert made + [] == made;
    }
    var rest := Picks(lists[i + 1..], Claim(claimed, pick));
    assert picks + ([pick] + rest) == picks + [pick] + rest;
  }

  lemma ProgressEnds(ordered: seq<ProjectRequest>, lists: seq<seq<Ranked>>, base: set<AgentId>, first: nat,
                     picks: seq<Option<Ranked>>, made: seq<Assignment>, claimed: set<AgentId>)
    requires Progress(ordered, lists, base, first, |ordered|, picks, made, claimed)
    ensures made == Made(ordered, Picks(lists, base), first) && claimed == base + AgentsIn(made)
  {
    assert ordered[..|ordered|] == ordered && lists[|ordered|..] == [];
    assert picks + [] == picks;
  }

  lemma SortedRequestsAreValid(requests: seq<ProjectRequest>)
    requires ValidRequests(requests)
    ensures ValidRequests(Sorting.Sort(Sooner, requests))
  {
    forall r | r in Sorting.Sort(Sooner, requests) ensures ValidRequest(r.matching) {
      Sorting.InSort(Sooner, requests, r);
    }
  }

  // ---------------------------------------------------------------- what a schedule gives each request

  /** The assignment gives the request the ranked agent. */
  predicate Gives(a: Assignment, r: ProjectRequest, m: Ranked) {
    && a.agent == m.agent.id && a.project == r.project && a.task == r.task && a.priority == r.priority
    && a.score == m.score && a.status.Active?
  }

  /** The assignment is for a request that goes before the other: of higher priority, or of the same
      and a lower project, or of the same project and no higher task. */
  predicate GoesBefore(a: Assignment, r: ProjectRequest) {
    || a.priority > r.priority
    || (a.priority == r.priority && a.project < r.project)
    || (a.priority == r.priority && a.project == r.project && a.task <= r.task)
  }

  function MatchesOf(r: ProjectRequest, candidates: seq<Candidate>): seq<Ranked>
    requires ValidRequest(r.matching)
  {
    Sequences.Take(Ranking(r.matching, candidates), r.matching.limit)
  }

  /** Every assignment gives some request one of its matches. */
  ghost predicate AllGiven(requests: seq<ProjectRequest>, candidates: seq<Candidate>, assignments: seq<Assignment>)
    requires ValidRequests(requests)
  {
    forall a <- assignments :: exists r, m :: r in requests && m in MatchesOf(r, candidates) && Gives(a, r, m)
  }

  /** A request that prefers a free agent loses it only to a request that goes before it, or gets an
      agent it prefers. */
  ghost predicate Served(r: ProjectRequest, matches: seq<Ranked>, k: nat, assignments: seq<Assignment>)
    requires k < |matches|
  {
    || (exists a <- assignments :: a.agent == matches[k].agent.id && GoesBefore(a, r))
    || (exists a, j :: a in assignments && 0 <= j < k && Gives(a, r, matches[j]))
  }

  ghost predicate AllServed(requests: seq<ProjectRequest>, candidates: seq<Candidate>, base: set<AgentId>, assignments: seq<Assignment>)
    requires ValidRequests(requests)
  {
    forall r, k: nat | r in requests && k < |MatchesOf(r, candidates)| && MatchesOf(r, candidates)[k].agent.id !in base ::
      Served(r, MatchesOf(r, candidates), k, assignments)
  }

  /** The first free match comes before every other free one. */
  lemma {:induction false} FirstFreeIsFirst(matches: seq<Ranked>, claimed: set<AgentId>, k: nat)
    requires k < |matches| && matches[k].agent.id !in claimed
    ensures exists j :: 0 <= j <= k && FirstFree(matches, claimed) == Some(matches[j])
  {
    if matches[0].agent.id !in claimed {
      assert FirstFree(matches, claimed) == Some(matches[0]);
    } else {
      FirstFreeIsFirst(matches[1..], claimed, k - 1);
      var j :| 0 <= j <= k - 1 && FirstFree(matches[1..], claimed) == Some(matches[1..][j]);
      assert FirstFree(matches, claimed) == Some(matches[j + 1]);
    }
  }

  /** One of the picks up to the position is of the agent. */
  ghost predicate TakenBy(picks: seq<Option<Ranked>>, i: nat, id: AgentId)
    requires i < |picks|
  {
    exists j: nat :: j <= i && AgentOf(picks[j]) == Some(id)
  }

  /** The pick is one of the first matches. */
  ghost predicate Among(pick: Option<Ranked>, matches: seq<Ranked>, k: nat)
    requires k <= |matches|
  {
    exists j: nat :: j < k && pick == Some(matches[j])
  }

  lemma TakenLater(picks: seq<Option<Ranked>>, i: nat, id: AgentId)
    requires 0 < i < |picks| && TakenBy(picks[1..], i - 1, id)
    ensures TakenBy(picks, i, id)
  {
    var j: nat :| j <= i - 1 && AgentOf(picks[1..][j]) == Some(id);
    assert picks[1..][j] == picks[j + 1];
  }

  /** A match is claimed before, picked by an earlier request or this one, or not needed. */
  lemma {:induction false} MatchIsTakenOrBeaten(lists: seq<seq<Ranked>>, claimed: set<AgentId>, i: nat, k: nat)
    requires i < |lists| && k < |lists[i]| && lists[i][k].agent.id !in claimed
    ensures |Picks(lists, claimed)| == |lists|
    ensures TakenBy(Picks(lists, claimed), i, lists[i][k].agent.id) || Among(Picks(lists, claimed)[i], lists[i], k)
  {
    var pick, all := FirstFree(lists[0], claimed), Picks(lists, claimed);
    assert all[0] == pick;
    if i == 0 {
      FirstFreeIsFirst(lists[0], claimed, k);
      var j :| 0 <= j <= k && pick == Some(lists[0][j]);
      assert AgentOf(all[0]) == Some(lists[0][j].agent.id);
    } else if AgentOf(pick) == Some(lists[i][k].agent.id) {
      assert AgentOf(all[0]) == Some(lists[i][k].agent.id);
    } else {
      MatchIsTakenOrBeaten(lists[1..], Claim(claimed, pick), i - 1, k);
      assert all[1..] == Picks(lists[1..], Claim(claimed, pick)) && lists[1..][i - 1] == lists[i];
      if TakenBy(all[1..], i - 1, lists[i][k].agent.id) {
        TakenLater(all, i, lists[i][k].agent.id);
      }
    }
  }

  lemma {:induction false} InMade(requests: seq<ProjectRequest>, picks: seq<Option<Ranked>>, id: nat, i: nat) returns (a: Assignment)
    requires |requests| == |picks| && i < |picks| && picks[i].Some?
    ensures a in Made(requests, picks, id) && Gives(a, requests[i], picks[i].value)
  {
    var n := |requests| - 1;
    var before := Made(requests[..n], picks[..n], id);
    if i < n {
      a := InMade(requests[..n], picks[..n], id, i);
      assert a in before;
    } else {
      a := Assign(requests[n], picks[n].value, id + |before|);
    }
  }

  lemma {:induction false} MadeIsGiven(requests: seq<ProjectRequest>, picks: seq<Option<Ranked>>, id: nat, a: Assignment) returns (i: nat)
    requires |requests| == |picks| && a in Made(requests, picks, id)
    ensures i < |picks| && picks[i].Some? && Gives(a, requests[i], picks[i].value)
  {
    var n := |requests| - 1;
    var before := Made(requests[..n], picks[..n], id);
    if a in before {
      i := MadeIsGiven(requests[..n], picks[..n], id, a);
    } else {
      i := n;
    }
  }

  lemma {:induction false} PicksAreMatches(lists: seq<seq<Ranked>>, claimed: set<AgentId>, i: nat)
    requires i < |lists| && Picks(lists, claimed)[i].Some?
    ensures Picks(lists, claimed)[i].value in lists[i]
  {
    if i > 0 {
      var pick := FirstFree(lists[0], claimed);
      PicksAreMatches(lists[1..], Claim(claimed, pick), i - 1);
      assert Picks(lists, claimed)[1..] == Picks(lists[1..], Claim(claimed, pick));
    }
  }

  lemma SoonerIsPreorder()
    ensures Sorting.TotalPreorder(Sooner)
  {
  }

  lemma ScheduleGives(requests: seq<ProjectRequest>, candidates: seq<Candidate>, base: set<AgentId>, id: nat)
    requires ValidRequests(requests) && ValidRequests(Sorting.Sort(Sooner, requests))
    ensures var ordered := Sorting.Sort(Sooner, requests);
            AllGiven(requests, candidates, Made(ordered, Picks(MatchLists(ordered, candidates), base), id))
  {
    var ordered := Sorting.Sort(Sooner, requests);
    var lists := MatchLists(ordered, candidates);
    var picks := Picks(lists, base);
    forall a | a in Made(ordered, picks, id)
      ensures exists r, m :: r in requests && m in MatchesOf(r, candidates) && Gives(a, r, m)
    {
      var i := MadeIsGiven(ordered, picks, id, a);
      PicksAreMatches(lists, base, i);
      assert ordered[i] in ordered;
      Sorting.InSort(Sooner, requests, ordered[i]);
      assert lists[i] == MatchesOf(ordered[i], candidates);
    }
  }

  lemma RequestIsServed(ordered: seq<ProjectRequest>, candidates: seq<Candidate>, base: set<AgentId>, id: nat, i: nat, k: nat)
    requires ValidRequests(ordered) && Sorting.Sorted(Sooner, ordered) && i < |ordered|
    requires k < |MatchesOf(ordered[i], candidates)| && MatchesOf(ordered[i], candidates)[k].agent.id !in base
    ensures Served(ordered[i], MatchesOf(ordered[i], candidates), k, Made(ordered, Picks(MatchLists(ordered, candidates), base), id))
  {
    var lists := MatchLists(ordered, candidates);
    var picks := Picks(lists, base);
    var made := Made(ordered, picks, id);
    assert lists[i] == MatchesOf(ordered[i], candidates);
    MatchIsTakenOrBeaten(lists, base, i, k);
    if TakenBy(picks, i, lists[i][k].agent.id) {
      var j: nat :| j <= i && AgentOf(picks[j]) == Some(lists[i][k].agent.id);
      var a := InMade(ordered, picks, id, j);
      assert j < i ==> Sooner(ordered[j], ordered[i]);
      assert GoesBefore(a, ordered[i]);
    } else {
      var j: nat :| j < k && picks[i] == Some(lists[i][j]);
      var a := InMade(ordered, picks, id, i);
      assert Gives(a, ordered[i], lists[i][j]);
    }
  }

  lemma ScheduleServes(requests: seq<ProjectRequest>, candidates: seq<Candidate>, base: set<AgentId>, id: nat)
    requires ValidRequests(requests) && ValidRequests(Sorting.Sort(Sooner, requests))
    ensures var ordered := Sorting.Sort(Sooner, requests);
            AllServed(requests, candidates, base, Made(ordered, Picks(MatchLists(ordered, candidates), base), id))
  {
    var ordered := Sorting.Sort(Sooner, requests);
    SoonerIsPreorder();
    Sorting.SortSorts(Sooner, requests);
    forall r, k: nat | r in requests && k < |MatchesOf(r, candidates)| && MatchesOf(r, candidates)[k].agent.id !in base
      ensures Served(r, MatchesOf(r, candidates), k, Made(ordered, Picks(MatchLists(ordered, candidates), base), id))
    {
      Sorting.InSort(Sooner, requests, r);
      var i :| 0 <= i < |ordered| && ordered[i] == r;
      RequestIsServed(ordered, candidates, base, id, i, k);
    }
  }

  /** What is released keeps everything but its status, and everything else stays as it was. */
  ghost predicate ReleasedInPlace(before: seq<Assignment>, after: seq<Assignment>, project: nat) {
    && |after| == |before|
    && forall i | 0 <= i < |before| ::
         && after[i].id == before[i].id && after[i].agent == before[i].agent && after[i].project == before[i].project
         && after[i].task == before[i].task && after[i].priority == before[i].priority && after[i].score == before[i].score
         && (after[i].status.Released? <==> before[i].status.Released? || before[i].project == project)
  }

  lemma AllReleasedInPlace(active: map<AgentId, Assignment>, history: seq<Assignment>, nextId: nat, project: nat)
    requires Consistent(active, history, nextId)
    ensures ReleasedInPlace(history, ReleasedAmong(history, project, active.Keys), project)
  {
  }

  /** What a scheduling pass starts from. */
  datatype Pass = Pass(
    ordered: seq<ProjectRequest>, lists: seq<seq<Ranked>>, active: map<AgentId, Assignment>,
    history: seq<Assignment>, nextId: nat)

  /** The state of a scheduling pass after i requests. */
  ghost predicate PassAt(pass: Pass, i: nat, picks: seq<Option<Ranked>>, made: seq<Assignment>,
                         active: map<AgentId, Assignment>, history: seq<Assignment>, nextId: nat) {
    && Consistent(active, history, nextId) && history == pass.history + made && nextId == pass.nextId + |made|
    && Progress(pass.ordered, pass.lists, pass.active.Keys, pass.nextId, i, picks, made, active.Keys)
    && forall x | x in pass.active :: x in active && active[x] == pass.active[x]
  }

  /** A whole pass has made the greedy choice, and nothing else. */
  lemma PassEnds(pass: Pass, picks: seq<Option<Ranked>>, made: seq<Assignment>,
                 active: map<AgentId, Assignment>, history: seq<Assignment>, nextId: nat)
    requires PassAt(pass, |pass.ordered|, picks, made, active, history, nextId)
    ensures made == Made(pass.ordered, Picks(pass.lists, pass.active.Keys), pass.nextId)
    ensures history == pass.history + made && active.Keys == pass.active.Keys + AgentsIn(made)
    ensures forall x | x in pass.active :: x in active && active[x] == pass.active[x]
  {
    ProgressEnds(pass.ordered, pass.lists, pass.active.Keys, pass.nextId, picks, made, active.Keys);
  }

  /** A request whose matches are all taken gets nothing. */
  lemma PassSkips(pass: Pass, i: nat, picks: seq<Option<Ranked>>, made: seq<Assignment>,
                  active: map<AgentId, Assignment>, history: seq<Assignment>, nextId: nat)
    requires PassAt(pass, i, picks, made, active, history, nextId) && i < |pass.ordered|
    requires FirstFree(pass.lists[i], active.Keys).None?
    ensures PassAt(pass, i + 1, picks + [None], made, active, history, nextId)
  {
    ProgressStep(pass.ordered, pass.lists, pass.active.Keys, pass.nextId, i, picks, made, active.Keys);
    assert made + [] == made;
  }

  /** A request with a free match gets its first one. */
  lemma PassAssigns(pass: Pass, i: nat, picks: seq<Option<Ranked>>, made: seq<Assignment>,
                    active: map<AgentId, Assignment>, history: seq<Assignment>, nextId: nat, m: Ranked)
    requires PassAt(pass, i, picks, made, active, history, nextId) && i < |pass.ordered|
    requires FirstFree(pass.lists[i], active.Keys) == Some(m) && m.agent.id !in active
    ensures var a := Assign(pass.ordered[i], m, nextId);
            PassAt(pass, i + 1, picks + [Some(m)], made + [a], active[a.agent := a], history + [a], nextId + 1)
  {
    var a := Assign(pass.ordered[i], m, nextId);
    ProgressStep(pass.ordered, pass.lists, pass.active.Keys, pass.nextId, i, picks, made, active.Keys);
    ConsistentAdd(active, history, nextId, a);
    assert active[a.agent := a].Keys == Claim(active.Keys, Some(m));
    assert pass.history + made + [a] == pass.history + (made + [a]);
  }

  /** The state of a release while some agents are still to be visited. */
  ghost predicate ReleaseAt(active: map<AgentId, Assignment>, history: seq<Assignment>, nextId: nat,
                            before: seq<Assignment>, base: map<AgentId, Assignment>, project: nat,
                            todo: set<AgentId>, released: nat) {
    var gone := AgentsOf(base, project) - todo;
    && Consistent(active, history, nextId) && Consistent(base, before, nextId) && todo <= base.Keys
    && active == base - gone && history == ReleasedAmong(before, project, gone) && released == |gone|
  }

  /** An agent still to be visited is still active, with its entry in the history. */
  lemma StillActive(active: map<AgentId, Assignment>, history: seq<Assignment>, nextId: nat, before: seq<Assignment>,
                    base: map<AgentId, Assignment>, project: nat, todo: set<AgentId>, released: nat, agent: AgentId)
    requires ReleaseAt(active, history, nextId, before, base, project, todo, released) && agent in todo
    ensures agent in base && agent in active && active[agent] == base[agent] && active[agent] in history
  {
  }

  lemma GoneGrows(base: map<AgentId, Assignment>, project: nat, todo: set<AgentId>, agent: AgentId)
    requires agent in todo && agent in base
    ensures var gone := AgentsOf(base, project) - todo;
            AgentsOf(base, project) - (todo - {agent}) == if base[agent].project == project then gone + {agent} else gone
    ensures var gone := AgentsOf(base, project) - todo;
            base - (gone + {agent}) == (base - gone) - {agent} && |gone + {agent}| == |gone| + 1
  {
  }

  /** An agent that works for another project is passed over. */
  lemma ReleaseSkips(active: map<AgentId, Assignment>, history: seq<Assignment>, nextId: nat, before: seq<Assignment>,
                     base: map<AgentId, Assignment>, project: nat, todo: set<AgentId>, released: nat, agent: AgentId)
    requires ReleaseAt(active, history, nextId, before, base, project, todo, released)
    requires agent in todo && agent in base && base[agent].project != project
    ensures ReleaseAt(active, history, nextId, before, base, project, todo - {agent}, released)
  {
    GoneGrows(base, project, todo, agent);
  }

  /** An agent that works for the project has its entry released where it stands. */
  lemma ReleaseTakes(active: map<AgentId, Assignment>, history: seq<Assignment>, nextId: nat, before: seq<Assignment>,
                     base: map<AgentId, Assignment>, project: nat, todo: set<AgentId>, released: nat, agent: AgentId, i: nat)
    requires ReleaseAt(active, history, nextId, before, base, project, todo, released)
    requires agent in todo && agent in base && agent in active && active[agent] == base[agent] && base[agent].project == project
    requires i < |history| && history[i] == active[agent]
    ensures ReleaseAt(active - {agent}, history[i := ReleasedCopy(history[i])], nextId, before, base, project,
                      todo - {agent}, released + 1)
  {
    ConsistentRelease(active, history, nextId, agent, i);
    ReleaseOneMore(before, history, base, project, AgentsOf(base, project) - todo, agent, i, nextId);
    GoneGrows(base, project, todo, agent);
  }

  lemma ReleaseOneMore(before: seq<Assignment>, now: seq<Assignment>, base: map<AgentId, Assignment>, project: nat,
                       gone: set<AgentId>, agent: AgentId, i: nat, nextId: nat)
    requires Consistent(base, before, nextId) && now == ReleasedAmong(before, project, gone)
    requires agent in base && agent !in gone && base[agent].project == project
    requires i < |now| && now[i] == base[agent]
    ensures now[i := ReleasedCopy(base[agent])] == ReleasedAmong(before, project, gone + {agent})
  {
    assert before[i] == base[agent];
    forall k | 0 <= k < |before| && before[k].status == Active && before[k].agent == agent
      ensures k == i
    {
      assert before[k] == base[agent];
      assert before[k].id == before[i].id;
    }
  }

  datatype ScheduleResult = Scheduled(assignments: seq<Assignment>) | InvalidInput

  class ProjectScheduler {
    var active: map<AgentId, Assignment>
    var history: seq<Assignment>
    var nextId: nat

    constructor ()
      ensures Valid() && active == map[] && history == []
    {
      active, history, nextId := map[], [], 0;
    }

    ghost predicate Valid()
      reads this
    {
      Consistent(active, history, nextId)
    }

    ghost predicate Passing(pass: Pass, i: nat, picks: seq<Option<Ranked>>, made: seq<Assignment>)
      reads this
    {
      PassAt(pass, i, picks, made, active, history, nextId)
    }

    /** Serves one request from its matches. */
    method Serve(request: ProjectRequest, matches: seq<Ranked>, ghost pass: Pass, ghost i: nat,
                 ghost picks: seq<Option<Ranked>>, made: seq<Assignment>)
      returns (ghost pick: Option<Ranked>, made': seq<Assignment>)
      requires Passing(pass, i, picks, made)
      requires i < |pass.ordered| && pass.ordered[i] == request && pass.lists[i] == matches
      modifies this
      ensures Passing(pass, i + 1, picks + [pick], made')
    {
      var selected := FirstFree(matches, active.Keys);
      pick, made' := selected, made;
      if selected.Some? {
        PassAssigns(pass, i, picks, made, active, history, nextId, selected.value);
        var assignment := Record(request, selected.value);
        made' := made + [assignment];
      } else {
        PassSkips(pass, i, picks, made, active, history, nextId);
      }
    }

    /** Gives each request, in order of priority, its best match that is not active or claimed. */
    method Schedule(requests: seq<ProjectRequest>, candidates: seq<Candidate>) returns (result: ScheduleResult)
      requires Valid() && ValidRequests(requests)
      modifies this
      ensures Valid()
      ensures result.InvalidInput? <==> requests != [] && (|candidates| > MAX_CANDIDATES || !UniqueIds(candidates))
      ensures result.InvalidInput? ==> active == old(active) && history == old(history)
      ensures result.Scheduled? ==>
                var ordered := Sorting.Sort(Sooner, requests);
                && ValidRequests(ordered)
                && result.assignments == Made(ordered, Picks(MatchLists(ordered, candidates), old(active.Keys)), old(nextId))
                && history == old(history) + result.assignments
                && active.Keys == old(active.Keys) + AgentsIn(result.assignments)
                && (forall x | x in old(active) :: active[x] == old(active[x]))
      // each assignment is one of its request's matches, and carries the request's own fields
      ensures result.Scheduled? ==> AllGiven(requests, candidates, result.assignments)
      // nobody loses a free agent to a request that goes after it
      ensures result.Scheduled? ==> AllServed(requests, candidates, old(active.Keys), result.assignments)
    {
      SortedRequestsAreValid(requests);
      ScheduleGives(requests, candidates, active.Keys, nextId);
      ScheduleServes(requests, candidates, active.Keys, nextId);
      result := ScheduleInOrder(Sorting.Sort(Sooner, requests), candidates);
    }

    /** Serves the requests one after another. */
    method ScheduleInOrder(ordered: seq<ProjectRequest>, candidates: seq<Candidate>) returns (result: ScheduleResult)
      requires Valid() && ValidRequests(ordered)
      modifies this
      ensures Valid()
      ensures result.InvalidInput? <==> ordered != [] && (|candidates| > MAX_CANDIDATES || !UniqueIds(candidates))
      ensures result.InvalidInput? ==> active == old(active) && history == old(history)
      ensures result.Scheduled? ==>
                && result.assignments == Made(ordered, Picks(MatchLists(ordered, candidates), old(active.Keys)), old(nextId))
                && history == old(history) + result.assignments
                && active.Keys == old(active.Keys) + AgentsIn(result.assignments)
                && (forall x | x in old(active) :: active[x] == old(active[x]))
    {
      ghost var pass := Pass(ordered, MatchLists(ordered, candidates), active, history, nextId);
      ghost var picks: seq<Option<Ranked>> := [];
      var made: seq<Assignment> := [];
      for i := 0 to |ordered|
        invariant Passing(pass, i, picks, made)
        invariant i > 0 ==> |candidates| <= MAX_CANDIDATES && UniqueIds(candidates)
        invariant i == 0 ==> active == old(active) && history == old(history)
      {
        var valid;
        ghost var pick;
        valid, pick, made := MatchAndServe(candidates, pass, i, ordered[i], picks, made);
        if !valid {
          return InvalidInput;
        }
        picks := picks + [pick];
      }
      PassEnds(pass, picks, made, active, history, nextId);
      result := Scheduled(made);
    }

    /** Serves one request when the candidates are valid. */
    method MatchAndServe(candidates: seq<Candidate>, ghost pass: Pass, ghost i: nat, request: ProjectRequest,
                         ghost picks: seq<Option<Ranked>>, made: seq<Assignment>)
      returns (valid: bool, ghost pick: Option<Ranked>, made': seq<Assignment>)
      requires Passing(pass, i, picks, made) && ValidRequest(request.matching)
      requires i < |pass.ordered| && pass.ordered[i] == request && ValidRequests(pass.ordered)
      requires pass.lists == MatchLists(pass.ordered, candidates)
      modifies this
      ensures valid == (|candidates| <= MAX_CANDIDATES && UniqueIds(candidates))
      ensures valid ==> Passing(pass, i + 1, picks + [pick], made')
      ensures !valid ==> active == old(active) && history == old(history) && nextId == old(nextId)
    {
      var matched := Match(request.matching, candidates);
      valid, pick, made' := matched.Matching?, None, made;
      if valid {
        pick, made' := Serve(request, matched.matches, pass, i, picks, made);
      }
    }

    /** Makes one assignment active. */
    method Record(r: ProjectRequest, m: Ranked) returns (assignment: Assignment)
      requires Valid() && m.agent.id !in active
      modifies this
      ensures Valid()
      ensures assignment == Assign(r, m, old(nextId)) && nextId == old(nextId) + 1
      ensures active == old(active)[m.agent.id := assignment] && history == old(history) + [assignment]
    {
      assignment := Assign(r, m, nextId);
      ConsistentAdd(active, history, nextId, assignment);
      active := active[assignment.agent := assignment];
      history := history + [assignment];
      nextId := nextId + 1;
    }

    ghost predicate Releasing(before: seq<Assignment>, base: map<AgentId, Assignment>, project: nat,
                              todo: set<AgentId>, released: nat)
      reads this
    {
      ReleaseAt(active, history, nextId, before, base, project, todo, released)
    }

    /** Visits one agent of the snapshot, and releases it when it works for the project. */
    method Visit(agent: AgentId, project: nat, released: nat, ghost before: seq<Assignment>,
                 ghost base: map<AgentId, Assignment>, ghost todo: set<AgentId>) returns (released': nat)
      requires agent in todo && Releasing(before, base, project, todo, released)
      modifies this
      ensures Releasing(before, base, project, todo - {agent}, released')
    {
      StillActive(active, history, nextId, before, base, project, todo, released, agent);
      var assignment := active[agent];
      if assignment.project != project {
        ReleaseSkips(active, history, nextId, before, base, project, todo, released, agent);
        released' := released;
      } else {
        var i := Index(history, assignment);
        ReleaseTakes(active, history, nextId, before, base, project, todo, released, agent, i);
        active := active - {agent};
        history := history[i := ReleasedCopy(assignment)];
        released' := released + 1;
      }
    }

    /** Releases the active assignments of a project in place, and counts them. */
    method ReleaseProject(project: nat) returns (released: nat)
      requires Valid()
      modifies this
      ensures Valid()
      ensures history == ReleasedAmong(old(history), project, old(active.Keys))
      ensures ReleasedInPlace(old(history), history, project)
      ensures active == old(active) - AgentsOf(old(active), project)
      ensures released == |AgentsOf(old(active), project)|
    {
      ghost var before, base := history, active;
      AllReleasedInPlace(active, history, nextId, project);
      released := 0;
      var todo := active.Keys;
      assert AgentsOf(base, project) - todo == {};
      NothingReleased(before, project);
      while todo != {}
        invariant Releasing(before, base, project, todo, released)
        decreases todo
      {
        var agent :| agent in todo;
        released := Visit(agent, project, released, before, base, todo);
        todo := todo - {agent};
      }
      assert AgentsOf(base, project) - todo == AgentsOf(base, project);
      AllReleased(before, project, base, nextId);
    }
  }

  /** The first position of an entry. */
  method Index(history: seq<Assignment>, a: Assignment) returns (i: nat)
    requires a in history
    ensures i < |history| && history[i] == a && forall k | 0 <= k < i :: history[k] != a
  {
    i := 0;
    while history[i] != a
      invariant i < |history| && forall k | 0 <= k < i :: history[k] != a
      decreases |history| - i
    {
      i := i + 1;
    }
  }
}
