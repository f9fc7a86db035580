/** The stagnation detector: a bounded queue of progress fingerprints that is cleared on change. */
module Stagnation {
  import opened Wrappers

  datatype Member = Member(key: string, value: Json)

  /** A decoded JSON value; an object keeps its members in the order they were written. */
  datatype Json =
    | Null | Boolean(b: bool) | Text(s: string) | Integer(i: int) | Number(r: real)
    | Array(items: seq<Json>)
    | Object(members: seq<Member>)

  datatype Shape =
    | Kind(name: string)
    | ListOf(shapes: seq<Shape>)
    | DictOf(fields: map<string, Shape>)

  /** JSON objects have one value for each key. */
  predicate WellFormed(v: Json) {
    match v
    case Array(items) => forall x <- items :: WellFormed(x)
    case Object(ms) =>
      && (forall m, n | m in ms && n in ms && m.key == n.key :: m == n)
      && forall m <- ms :: WellFormed(m.value)
    case _ => true
  }

  /** The canonical shape of a value: kinds for scalars, shapes for lists, shapes by key for objects. */
  function ShapeOf(v: Json): Shape
    requires WellFormed(v)
  {
    match v
    case Null => Kind("null")
    case Boolean(_) => Kind("boolean")
    case Text(_) => Kind("string")
    case Integer(_) => Kind("integer")
    case Number(_) => Kind("number")
    case Array(items) => ListOf(seq(|items|, i requires 0 <= i < |items| => ShapeOf(items[i])))
    case Object(ms) => DictOf(map m | m in ms :: m.key := ShapeOf(m.value))
  }

  /** Two values have the same skeleton: equal kinds at the leaves, equal lengths of lists,
      equal keys of objects, and so on below. */
  ghost predicate SameSkeleton(a: Json, b: Json)
    decreases a
  {
    match a
    case Null => b.Null?
    case Boolean(_) => b.Boolean?
    case Text(_) => b.Text?
    case Integer(_) => b.Integer?
    case Number(_) => b.Number?
    case Array(xs) =>
      b.Array? && |xs| == |b.items| && forall i | 0 <= i < |xs| :: SameSkeleton(xs[i], b.items[i])
    case Object(ms) =>
      && b.Object? && KeysOf(ms) == KeysOf(b.members)
      && forall m | m in ms :: forall n | n in b.members && n.key == m.key :: SameSkeleton(m.value, n.value)
  }

  ghost function KeysOf(ms: seq<Member>): set<string> {
    set m | m in ms :: m.key
  }

  /** The shape identifies two values exactly when they share a skeleton, whatever the values of
      their scalars and the order of their keys. */
  lemma {:induction false} ShapeIsSkeleton(a: Json, b: Json)
    requires WellFormed(a) && WellFormed(b)
    ensures ShapeOf(a) == ShapeOf(b) <==> SameSkeleton(a, b)
    decreases a, 1
  {
    if a.Array? && b.Array? {
      ArrayShape(a, b);
    } else if a.Object? && b.Object? {
      ObjectShape(a, b);
    }
  }

  lemma {:induction false} ArrayShape(a: Json, b: Json)
    requires a.Array? && b.Array? && WellFormed(a) && WellFormed(b)
    ensures ShapeOf(a) == ShapeOf(b) <==> SameSkeleton(a, b)
    decreases a, 0
  {
    var xs, ys := a.items, b.items;
    var s, t := ShapeOf(a).shapes, ShapeOf(b).shapes;
    if |xs| == |ys| {
      forall i | 0 <= i < |xs|
        ensures s[i] == t[i] <==> SameSkeleton(xs[i], ys[i])
      {
        ShapeIsSkeleton(xs[i], ys[i]);
      }
      assert s == t <==> forall i | 0 <= i < |xs| :: s[i] == t[i];
    } else {
      assert |s| != |t|;
    }
  }

  lemma {:induction false} ObjectShape(a: Json, b: Json)
    requires a.Object? && b.Object? && WellFormed(a) && WellFormed(b)
    ensures ShapeOf(a) == ShapeOf(b) <==> SameSkeleton(a, b)
    decreases a, 0
  {
    var ms, ns := a.members, b.members;
    var f, g := ShapeOf(a).fields, ShapeOf(b).fields;
    assert f.Keys == KeysOf(ms) && g.Keys == KeysOf(ns);
    forall m | m in ms
      ensures forall n | n in ns && n.key == m.key :: f[m.key] == g[n.key] <==> SameSkeleton(m.value, n.value)
    {
      forall n | n in ns && n.key == m.key
        ensures f[m.key] == g[n.key] <==> SameSkeleton(m.value, n.value)
      {
        ShapeIsSkeleton(m.value, n.value);
      }
    }
    if SameSkeleton(a, b) {
      forall k | k in f ensures f[k] == g[k] {
        var m :| m in ms && m.key == k;
        var n :| n in ns && n.key == k;
      }
    }
  }

  /** What one observation is reduced to. The digest is collision free, so the model keeps the
      canonical value itself. */
  datatype Fingerprint = Fingerprint(
    action: string, tool: Option<string>, shape: Shape, outcome: Option<string>, error: Option<string>)

  datatype Observation = Observation(
    action: string, tool: Option<string>, arguments: seq<Member>, outcome: Option<string>, error: Option<string>)

  function Canonical(o: Observation): Fingerprint
    requires WellFormed(Object(o.arguments))
  {
    Fingerprint(o.action, o.tool, ShapeOf(Object(o.arguments)), o.outcome, o.error)
  }

  /** Two observations have one fingerprint exactly when they agree in action, tool, outcome and error
      and their arguments share a skeleton. */
  lemma CanonicalMeans(a: Observation, b: Observation)
    requires WellFormed(Object(a.arguments)) && WellFormed(Object(b.arguments))
    ensures Canonical(a) == Canonical(b)
       <==> && a.action == b.action && a.tool == b.tool && a.outcome == b.outcome && a.error == b.error
            && SameSkeleton(Object(a.arguments), Object(b.arguments))
  {
    ShapeIsSkeleton(Object(a.arguments), Object(b.arguments));
  }

  /** The last `window` fingerprints ever observed exist and are equal. */
  ghost predicate Stagnant(observed: seq<Fingerprint>, window: nat) {
    |observed| >= window && forall i | |observed| - window <= i < |observed| :: observed[i] == observed[|observed| - 1]
  }

  /** The queue is the longest run of equal fingerprints at the end of the log, cut at the window. */
  ghost predicate LastRun(observed: seq<Fingerprint>, queue: seq<Fingerprint>, window: nat) {
    && |queue| <= |observed| && |queue| <= window
    && (forall i | 0 <= i < |queue| :: queue[i] == observed[|observed| - 1])
    && (forall i | |observed| - |queue| <= i < |observed| :: observed[i] == observed[|observed| - 1])
    && (|queue| < window && |queue| < |observed| ==> observed[|observed| - |queue| - 1] != observed[|observed| - 1])
    && (observed != [] ==> queue != [])
  }

  lemma LastRunIsStagnation(observed: seq<Fingerprint>, queue: seq<Fingerprint>, window: nat)
    requires LastRun(observed, queue, window) && 0 < window
    ensures |queue| == window <==> Stagnant(observed, window)
  {
  }

  lemma LastRunStep(observed: seq<Fingerprint>, queue: seq<Fingerprint>, window: nat, d: Fingerprint)
    requires LastRun(observed, queue, window) && 2 <= window
    ensures queue != [] && queue[|queue| - 1] != d ==> LastRun(observed + [d], [d], window)
    ensures queue == [] || queue[|queue| - 1] == d ==>
              LastRun(observed + [d], if |queue| < window then queue + [d] else queue[1..] + [d], window)
  {
    var all := observed + [d];
    if queue != [] && queue[|queue| - 1] == d {
      var next := if |queue| < window then queue + [d] else queue[1..] + [d];
      assert forall i | 0 <= i < |next| :: next[i] == d;
      assert forall i | |all| - |next| <= i < |observed| :: all[i] == observed[i];
    }
  }

  class StagnationDetector {
    const window: nat
    var digests: seq<Fingerprint>
    ghost var observed: seq<Fingerprint>

    constructor (window: nat)
      requires 2 <= window <= 20
      ensures this.window == window && observed == [] && Valid()
    {
      this.window := window;
      digests, observed := [], [];
    }

    ghost predicate Valid()
      reads this
    {
      2 <= window && LastRun(observed, digests, window)
    }

    /** Answers true exactly when the whole history ends in `window` equal fingerprints. */
    method Observe(o: Observation) returns (stagnant: bool)
      requires Valid() && WellFormed(Object(o.arguments))
      modifies this
      ensures Valid()
      ensures observed == old(observed) + [Canonical(o)]
      ensures stagnant <==> Stagnant(observed, window)
    {
      var digest := Canonical(o);
      LastRunStep(observed, digests, window, digest);
      if digests != [] && digests[|digests| - 1] != digest {
        digests := [];
      }
      digests := if |digests| < window then digests + [digest] else digests[1..] + [digest];
      observed := observed + [digest];
      LastRunIsStagnation(observed, digests, window);
      stagnant := |digests| == window;
    }
  }
}
