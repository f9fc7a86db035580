/** The dependency check of a domain decomposition: a layered topological loop over workstreams. */
module WorkstreamGraph {
  import opened Sequences

  type Id = string

  /** Names and source domains are case folded. */
  datatype Workstream = Workstream(id: Id, name: string, domains: seq<string>, dependencies: set<Id>)

  datatype Verdict = Accepted | DuplicateIds | DuplicateNames | UnknownDependency | FragmentedDomain | Cyclic

  const MAX_PER_DOMAIN := 4

  type Graph = map<Id, set<Id>>

  // ---------------------------------------------------------------- what is checked

  function Ids(ws: seq<Workstream>): seq<Id> {
    seq(|ws|, i requires 0 <= i < |ws| => ws[i].id)
  }

  function Names(ws: seq<Workstream>): seq<string> {
    seq(|ws|, i requires 0 <= i < |ws| => ws[i].name)
  }

  predicate KnownDependencies(ws: seq<Workstream>) {
    forall w <- ws :: forall d <- w.dependencies :: d in Ids(ws)
  }

  /** How often a domain is named among the workstreams. */
  function Mentions(domains: seq<string>, d: string): nat {
    if domains == [] then 0
    else Mentions(domains[..|domains| - 1], d) + if domains[|domains| - 1] == d then 1 else 0
  }

  function DomainCount(ws: seq<Workstream>, d: string): nat {
    if ws == [] then 0 else DomainCount(ws[..|ws| - 1], d) + Mentions(ws[|ws| - 1].domains, d)
  }

  ghost predicate Unfragmented(ws: seq<Workstream>) {
    forall d: string :: DomainCount(ws, d) <= 4
  }

  /** Each identifier with its dependencies. */
  ghost predicate IsGraphOf(g: Graph, ws: seq<Workstream>) {
    && (forall x :: x in g <==> x in Ids(ws))
    && (forall i | 0 <= i < |ws| :: ws[i].id in g && g[ws[i].id] == ws[i].dependencies)
  }

  ghost predicate Closed(g: Graph) {
    forall x | x in g :: g[x] <= g.Keys
  }

  /** A walk along dependencies. */
  ghost predicate Walk(g: Graph, p: seq<Id>) {
    && (forall i | 0 <= i < |p| :: p[i] in g)
    && (forall i | 0 <= i < |p| - 1 :: p[i + 1] in g[p[i]])
  }

  ghost predicate Cycle(g: Graph, p: seq<Id>) {
    Walk(g, p) && |p| >= 2 && p[0] == p[|p| - 1]
  }

  ghost predicate Acyclic(g: Graph) {
    !exists p :: Cycle(g, p)
  }

  // ---------------------------------------------------------------- layers

  /** A layer for every resolved node: below its dependents, and right above one dependency. */
  ghost predicate Layered(g: Graph, layer: map<Id, nat>) {
    && layer.Keys <= g.Keys
    && (forall x | x in layer :: forall d <- g[x] :: d in layer && layer[d] < layer[x])
    && (forall x | x in layer && layer[x] > 0 :: exists d <- g[x] :: d in layer && layer[d] == layer[x] - 1)
  }

  /** Layers drop along a walk, so a walk is no longer than the layer of its start. */
  lemma {:induction false} LayersDrop(g: Graph, layer: map<Id, nat>, p: seq<Id>)
    requires Layered(g, layer) && Walk(g, p) && p != [] && p[0] in layer
    ensures p[|p| - 1] in layer && layer[p[|p| - 1]] + |p| - 1 <= layer[p[0]]
  {
    if |p| > 1 {
      LayersDrop(g, layer, p[..|p| - 1]);
    }
  }

  lemma {:induction false} LongestWalk(g: Graph, layer: map<Id, nat>, x: Id) returns (p: seq<Id>)
    requires Layered(g, layer) && x in layer
    ensures Walk(g, p) && p != [] && p[0] == x && |p| == layer[x] + 1
    decreases layer[x]
  {
    if layer[x] == 0 {
      p := [x];
    } else {
      var d :| d in g[x] && d in layer && layer[d] == layer[x] - 1;
      var rest := LongestWalk(g, layer, d);
      p := [x] + rest;
    }
  }

  /** The layer of a node is the length of its longest dependency chain. */
  ghost predicate LayerIsLongestChain(g: Graph, layer: map<Id, nat>, x: Id)
    requires x in layer
  {
    && (exists p :: Walk(g, p) && p != [] && p[0] == x && |p| == layer[x] + 1)
    && (forall p :: Walk(g, p) && p != [] && p[0] == x ==> |p| <= layer[x] + 1)
  }

  lemma LayersAreLongestChains(g: Graph, layer: map<Id, nat>, x: Id)
    requires Layered(g, layer) && x in layer
    ensures LayerIsLongestChain(g, layer, x)
  {
    var p := LongestWalk(g, layer, x);
    forall q | Walk(g, q) && q != [] && q[0] == x ensures |q| <= layer[x] + 1 {
      LayersDrop(g, layer, q);
    }
  }

  /** A graph whose nodes all have layers has no cycle. */
  lemma LayeredIsAcyclic(g: Graph, layer: map<Id, nat>)
    requires Layered(g, layer) && layer.Keys == g.Keys
    ensures Acyclic(g)
  {
    forall p ensures !Cycle(g, p) {
      if Cycle(g, p) {
        LayersDrop(g, layer, p);
      }
    }
  }

  // ---------------------------------------------------------------- stuck means cyclic

  ghost predicate Within(dependencies: set<Id>, s: set<Id>) {
    exists d <- dependencies :: d in s
  }

  /** Every node of the set has a dependency in the set. */
  ghost predicate Stuck(g: Graph, s: set<Id>) {
    s <= g.Keys && s != {} && forall x | x in s :: Within(g[x], s)
  }

  lemma {:induction false} LongWalk(g: Graph, s: set<Id>, n: nat) returns (p: seq<Id>)
    requires Stuck(g, s)
    ensures Walk(g, p) && |p| == n + 1 && forall i | 0 <= i < |p| :: p[i] in s
  {
    if n == 0 {
      var x :| x in s;
      p := [x];
    } else {
      var q := LongWalk(g, s, n - 1);
      assert Within(g[q[n - 1]], s);
      var d :| d in g[q[n - 1]] && d in s;
      p := q + [d];
    }
  }

  lemma StuckHasCycle(g: Graph, s: set<Id>)
    requires Stuck(g, s)
    ensures !Acyclic(g)
  {
    var p := LongWalk(g, s, |s|);
    if Distinct(p) {
      DistinctFits(p, s);
    } else {
      var i, j :| 0 <= i < j < |p| && p[i] == p[j];
      var c := p[i..j + 1];
      assert Cycle(g, c);
    }
  }

  // ---------------------------------------------------------------- the check

  /** Where the loop stands: what is resolved has layers below the depth, and what is left had a
      dependency outside every layer but the last. */
  ghost predicate Stage(g: Graph, layer: map<Id, nat>, resolved: set<Id>, remaining: set<Id>, depth: nat) {
    && Closed(g) && layer.Keys == resolved && resolved + remaining == g.Keys && resolved !! remaining
    && Layered(g, layer) && (forall x | x in layer :: layer[x] < depth)
    && (depth > 0 ==> forall x | x in remaining :: exists d <- g[x] :: d in layer ==> layer[d] == depth - 1)
  }

  lemma NextStage(g: Graph, layer: map<Id, nat>, resolved: set<Id>, remaining: set<Id>, depth: nat, ready: set<Id>)
    returns (next: map<Id, nat>)
    requires Stage(g, layer, resolved, remaining, depth)
    requires ready == set x | x in remaining && g[x] <= resolved
    ensures Stage(g, next, resolved + ready, remaining - ready, depth + 1)
  {
    next := map x | x in resolved + ready :: if x in ready then depth else layer[x];
    forall x | x in next && next[x] > 0
      ensures exists d <- g[x] :: d in next && next[d] == next[x] - 1
    {
      if x in ready {
        var d :| d in g[x] && (d in layer ==> layer[d] == depth - 1);
        assert d in next && next[d] == next[x] - 1;
      } else {
        var d :| d in g[x] && d in layer && layer[d] == layer[x] - 1;
        assert d in next && next[d] == next[x] - 1;
      }
    }
    forall x | x in remaining - ready
      ensures exists d <- g[x] :: d in next ==> next[d] == depth
    {
      var d :| d in g[x] && d !in layer;
      assert d in next ==> next[d] == depth;
    }
  }

  /** Every node is resolved or remaining. */
  ghost predicate Split(g: Graph, resolved: set<Id>, remaining: set<Id>) {
    remaining <= g.Keys && forall x | x in g :: x in resolved || x in remaining
  }

  ghost predicate Unready(g: Graph, resolved: set<Id>, x: Id) {
    x in g && !(g[x] <= resolved)
  }

  lemma NothingReady(g: Graph, resolved: set<Id>, remaining: set<Id>)
    requires Closed(g) && Split(g, resolved, remaining) && remaining != {}
    requires forall x | x in remaining :: Unready(g, resolved, x)
    ensures Stuck(g, remaining)
  {
    forall x | x in remaining ensures Within(g[x], remaining) {
      assert Unready(g, resolved, x);
      DependencyLeft(g, resolved, remaining, x);
    }
  }

  lemma DependencyLeft(g: Graph, resolved: set<Id>, remaining: set<Id>, x: Id)
    requires Closed(g) && Split(g, resolved, remaining) && Unready(g, resolved, x)
    ensures Within(g[x], remaining)
  {
    var d :| d in g[x] && d !in resolved;
    assert g[x] <= g.Keys && d in g;
  }

  lemma AllResolved(g: Graph, layer: map<Id, nat>, resolved: set<Id>, depth: nat)
    requires Stage(g, layer, resolved, {}, depth)
    ensures Acyclic(g) && layer.Keys == g.Keys && Layered(g, layer)
    ensures forall x | x in g :: LayerIsLongestChain(g, layer, x)
  {
    assert resolved + {} == resolved;
    LayeredIsAcyclic(g, layer);
    forall x | x in g ensures LayerIsLongestChain(g, layer, x) {
      LayersAreLongestChains(g, layer, x);
    }
  }

  /** Resolves the graph layer by layer, and accepts it exactly when it has no cycle: every node
      then has a layer, and the layer is the length of its longest dependency chain. */
  method Resolve(g: Graph) returns (accepted: bool, ghost layer: map<Id, nat>)
    requires Closed(g)
    ensures accepted <==> Acyclic(g)
    ensures accepted ==> layer.Keys == g.Keys && Layered(g, layer)
    ensures accepted ==> forall x | x in g :: LayerIsLongestChain(g, layer, x)
  {
    var resolved: set<Id>, remaining := {}, g.Keys;
    layer := map[];
    ghost var depth := 0;
    while remaining != {}
      invariant Stage(g, layer, resolved, remaining, depth)
      decreases |remaining|
    {
      var ready := set x | x in remaining && g[x] <= resolved;
      if ready == {} {
        assert forall x | x in remaining :: x !in ready && Unready(g, resolved, x);
        NothingReady(g, resolved, remaining);
        StuckHasCycle(g, remaining);
        return false, layer;
      }
      layer := NextStage(g, layer, resolved, remaining, depth, ready);
      depth := depth + 1;
      Shrinks(remaining, ready);
      resolved, remaining := resolved + ready, remaining - ready;
    }
    AllResolved(g, layer, resolved, depth);
    accepted := true;
  }

  lemma Shrinks(remaining: set<Id>, ready: set<Id>)
    requires ready <= remaining && ready != {}
    ensures |remaining - ready| < |remaining|
  {
    assert remaining - ready < remaining;
    Smaller(remaining - ready, remaining);
  }

  lemma {:induction false} Smaller(a: set<Id>, b: set<Id>)
    requires a < b
    ensures |a| < |b|
  {
    var x :| x in b && x !in a;
    assert a <= b - {x};
    if a != b - {x} {
      Smaller(a, b - {x});
    }
  }

  /** Counts the mentions of each domain, over all workstreams. */
  method CountDomains(ws: seq<Workstream>) returns (counts: map<string, nat>)
    ensures forall d: string :: (if d in counts then counts[d] else 0) == DomainCount(ws, d)
  {
    counts := map[];
    for i := 0 to |ws|
      invariant forall d: string :: (if d in counts then counts[d] else 0) == DomainCount(ws[..i], d)
    {
      ghost var before := counts;
      var domains := ws[i].domains;
      for j := 0 to |domains|
        invariant forall d: string ::
          (if d in counts then counts[d] else 0) == DomainCount(ws[..i], d) + Mentions(domains[..j], d)
      {
        assert domains[..j + 1][..j] == domains[..j];
        var d := domains[j];
        counts := counts[d := (if d in counts then counts[d] else 0) + 1];
      }
      assert domains[..|domains|] == domains && ws[..i + 1][..i] == ws[..i];
    }
    assert ws[..|ws|] == ws;
  }

  ghost predicate WellNamed(ws: seq<Workstream>) {
    Distinct(Ids(ws)) && Distinct(Names(ws)) && KnownDependencies(ws)
  }

  /** The whole check, in the order of its errors. A decomposition is accepted exactly when its
      identifiers and names are unique, its dependencies are known, no domain is mentioned too
      often, and its dependency graph has no cycle. */
  method RequireValid(ws: seq<Workstream>) returns (verdict: Verdict, ghost g: Graph)
    ensures verdict == DuplicateIds <==> !Distinct(Ids(ws))
    ensures verdict == DuplicateNames <==> Distinct(Ids(ws)) && !Distinct(Names(ws))
    ensures verdict == UnknownDependency <==> Distinct(Ids(ws)) && Distinct(Names(ws)) && !KnownDependencies(ws)
    ensures verdict == FragmentedDomain <==> WellNamed(ws) && !Unfragmented(ws)
    ensures Distinct(Ids(ws)) ==> IsGraphOf(g, ws)
    ensures verdict == Cyclic <==> WellNamed(ws) && Unfragmented(ws) && !Acyclic(g)
    ensures verdict == Accepted <==> WellNamed(ws) && Unfragmented(ws) && Acyclic(g)
  {
    g := map[];
    if !Distinct(Ids(ws)) {
      return DuplicateIds, g;
    }
    var dependencies := Dependencies(ws);
    g := dependencies;
    if !Distinct(Names(ws)) {
      return DuplicateNames, g;
    }
    if !KnownDependencies(ws) {
      return UnknownDependency, g;
    }
    var scattered := IsUnfragmented(ws);
    if !scattered {
      return FragmentedDomain, g;
    }
    KnownIsClosed(ws, g);
    var accepted: bool;
    ghost var layer;
    accepted, layer := Resolve(dependencies);
    verdict := if accepted then Accepted else Cyclic;
  }

  /** The dependencies of each workstream by its identifier. */
  method Dependencies(ws: seq<Workstream>) returns (g: Graph)
    requires Distinct(Ids(ws))
    ensures IsGraphOf(g, ws)
  {
    g := map[];
    for i := 0 to |ws|
      invariant forall x :: x in g <==> exists k | 0 <= k < i :: ws[k].id == x
      invariant forall k | 0 <= k < i :: g[ws[k].id] == ws[k].dependencies
    {
      assert forall k | 0 <= k < i :: ws[k].id == Ids(ws)[k] != Ids(ws)[i] == ws[i].id;
      g := g[ws[i].id := ws[i].dependencies];
    }
    assert forall k | 0 <= k < |ws| :: Ids(ws)[k] == ws[k].id;
  }

  lemma KnownIsClosed(ws: seq<Workstream>, g: Graph)
    requires IsGraphOf(g, ws) && KnownDependencies(ws)
    ensures Closed(g)
  {
    forall x | x in g ensures g[x] <= g.Keys {
      var i :| 0 <= i < |ws| && Ids(ws)[i] == x;
      assert ws[i] in ws;
    }
  }

  /** Whether no domain is mentioned too often. */
  method IsUnfragmented(ws: seq<Workstream>) returns (ok: bool)
    ensures ok <==> Unfragmented(ws)
  {
    var counts := CountDomains(ws);
    ok := forall d <- counts :: counts[d] <= MAX_PER_DOMAIN;
  }

  /** A workstream that names itself is a cycle of its own, so the separate check for it is covered. */
  lemma SelfDependencyIsCyclic(g: Graph, x: Id)
    requires x in g && x in g[x]
    ensures !Acyclic(g)
  {
    assert Cycle(g, [x, x]);
  }
}
