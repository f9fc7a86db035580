/** Collecting what a function makes of each element of a sequence, in order. */
module Sequences {
  function Collect<T, U>(f: T -> seq<U>, s: seq<T>): seq<U> {
    if s == [] then [] else Collect(f, s[..|s| - 1]) + f(s[|s| - 1])
  }

  lemma CollectSnoc<T, U>(f: T -> seq<U>, s: seq<T>, x: T)
    ensures Collect(f, s + [x]) == Collect(f, s) + f(x)
  {
    assert (s + [x])[..|s|] == s;
  }

  lemma Associates<T>(a: seq<T>, b: seq<T>, c: seq<T>)
    ensures a + b + c == a + (b + c)
  {
  }

  lemma {:induction false} CollectConcat<T, U>(f: T -> seq<U>, a: seq<T>, b: seq<T>)
    ensures Collect(f, a + b) == Collect(f, a) + Collect(f, b)
  {
    if b == [] {
      assert a + b == a;
    } else {
      var init, last := b[..|b| - 1], b[|b| - 1];
      CollectConcat(f, a, init);
      CollectSnoc(f, a + init, last);
      assert a + b == a + init + [last];
      Associates(Collect(f, a), Collect(f, init), f(last));
    }
  }

  lemma {:induction false} InCollect<T, U>(f: T -> seq<U>, s: seq<T>, y: U)
    ensures y in Collect(f, s) <==> exists x <- s :: y in f(x)
  {
    if s != [] {
      var n := |s| - 1;
      InCollect(f, s[..n], y);
      assert s == s[..n] + [s[n]];
    }
  }

  /** Splitting a sequence around one of its elements. */
  lemma SplitAt<T>(s: seq<T>, x: T) returns (a: seq<T>, b: seq<T>)
    requires x in multiset(s)
    ensures s == a + [x] + b
  {
    var k :| 0 <= k < |s| && s[k] == x;
    a, b := s[..k], s[k + 1..];
  }

  lemma WithoutMiddle<T>(a: seq<T>, x: T, b: seq<T>)
    ensures multiset(a + b) == multiset(a + [x] + b) - multiset{x}
  {
    assert multiset(a + [x] + b) == multiset(a) + multiset{x} + multiset(b);
    assert multiset(a + b) == multiset(a) + multiset(b);
  }

  /** Collecting over a sequence with one element in the middle adds what that element gives. */
  lemma CollectMiddle<T, U>(f: T -> seq<U>, a: seq<T>, x: T, b: seq<T>)
    ensures multiset(Collect(f, a + [x] + b)) == multiset(Collect(f, a + b)) + multiset(f(x))
  {
    CollectConcat(f, a, b);
    CollectConcat(f, a + [x], b);
    CollectSnoc(f, a, x);
    var l, r, m := Collect(f, a), Collect(f, b), f(x);
    assert multiset(l + m + r) == multiset(l) + multiset(m) + multiset(r);
  }

  /** The elements collected do not depend on the order of the sequence. */
  lemma {:induction false} CollectPermuted<T, U>(f: T -> seq<U>, s: seq<T>, t: seq<T>)
    requires multiset(s) == multiset(t)
    ensures multiset(Collect(f, s)) == multiset(Collect(f, t))
    decreases |s|
  {
    if s == [] {
      assert |multiset(t)| == |t|;
    } else {
      var n := |s| - 1;
      var x, init := s[n], s[..n];
      assert s == init + [x] + [] && init + [] == init;
      assert x in multiset(s);
      var a, b := SplitAt(t, x);
      WithoutMiddle(init, x, []);
      WithoutMiddle(a, x, b);
      CollectPermuted(f, init, a + b);
      CollectMiddle(f, a, x, b);
      CollectMiddle(f, init, x, []);
    }
  }

  /** At most the given number of elements from the front. */
  function Take<T>(s: seq<T>, n: nat): seq<T> {
    if |s| > n then s[..n] else s
  }

  // ---------------------------------------------------------------- distinct elements

  predicate Distinct<T(==)>(s: seq<T>) {
    forall i, j | 0 <= i < j < |s| :: s[i] != s[j]
  }

  /** Distinct elements of a set are at most as many as the set has. */
  lemma {:induction false} DistinctFits<T>(p: seq<T>, s: set<T>)
    requires Distinct(p) && forall i | 0 <= i < |p| :: p[i] in s
    ensures |p| <= |s|
  {
    if p != [] {
      var n := |p| - 1;
      DistinctFits(p[..n], s - {p[n]});
    }
  }

  /** The first occurrence of each element, in order. */
  function Dedupe<T(==)>(s: seq<T>): (r: seq<T>)
    ensures Distinct(r) && |r| <= |s|
    ensures (forall x <- r :: x in s) && (forall x <- s :: x in r)
  {
    if s == [] then []
    else
      var n := |s| - 1;
      var d := Dedupe(s[..n]);
      assert s == s[..n] + [s[n]];
      if s[n] in d then d else d + [s[n]]
  }

  lemma DistinctSnoc<T>(s: seq<T>, x: T)
    ensures Distinct(s + [x]) <==> Distinct(s) && x !in s
  {
    var all := s + [x];
    if Distinct(all) {
      assert forall i | 0 <= i < |s| :: all[i] != all[|s|];
      assert forall i | 0 <= i < |s| :: all[i] == s[i];
    }
  }

  /** Distinct elements that all occur in a sequence are at most as many as it has. */
  lemma DistinctWithin<T>(a: seq<T>, b: seq<T>)
    requires Distinct(a) && forall x <- a :: x in b
    ensures |a| <= |b|
  {
    DistinctFits(a, set x | x in b);
    ElementsBound(b);
  }

  lemma {:induction false} ElementsBound<T>(s: seq<T>)
    ensures |set x | x in s| <= |s|
  {
    if s != [] {
      var n := |s| - 1;
      ElementsBound(s[..n]);
      assert (set x | x in s) == (set x | x in s[..n]) + {s[n]};
    }
  }

  lemma Twice<T>(s: seq<T>, i: nat, j: nat)
    requires i < j < |s| && s[i] == s[j]
    ensures multiset(s)[s[i]] >= 2
  {
    assert s == s[..i] + [s[i]] + s[i + 1..j] + [s[j]] + s[j + 1..];
  }

  lemma OnlyOnce<T>(s: seq<T>, x: T)
    requires Distinct(s) && x in s
    ensures multiset(s)[x] == 1
  {
    var i :| 0 <= i < |s| && s[i] == x;
    assert s == s[..i] + [x] + s[i + 1..];
    assert x !in s[..i] && x !in s[i + 1..];
    assert multiset(s) == multiset(s[..i]) + multiset{x} + multiset(s[i + 1..]);
  }

  /** Being distinct does not depend on the order. */
  lemma DistinctPermuted<T>(s: seq<T>, t: seq<T>)
    requires Distinct(s) && multiset(s) == multiset(t)
    ensures Distinct(t)
  {
    forall i, j | 0 <= i < j < |t| ensures t[i] != t[j] {
      if t[i] == t[j] {
        Twice(t, i, j);
        assert t[i] in multiset(s) && t[i] in s;
        OnlyOnce(s, t[i]);
        assert false;
      }
    }
  }
}
