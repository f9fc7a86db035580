/** Stable insertion sort by a total preorder, and how sorting and selecting commute. */
module Sorting {
  import opened Sequences

  ghost predicate TotalPreorder<T(!new)>(le: (T, T) -> bool) {
    && (forall x, y :: le(x, y) || le(y, x))
    && (forall x, y, z :: le(x, y) && le(y, z) ==> le(x, z))
  }

  ghost predicate Sorted<T>(le: (T, T) -> bool, s: seq<T>) {
    forall i, j | 0 <= i < j < |s| :: le(s[i], s[j])
  }

  /** Inserts before the first element that is not smaller, so that equals keep their order. */
  function Insert<T>(le: (T, T) -> bool, x: T, s: seq<T>): (r: seq<T>)
    ensures multiset(r) == multiset{x} + multiset(s) && |r| == |s| + 1
  {
    if s == [] || le(x, s[0]) then
      [x] + s
    else
      assert s == [s[0]] + s[1..];
      [s[0]] + Insert(le, x, s[1..])
  }

  function Sort<T>(le: (T, T) -> bool, s: seq<T>): (r: seq<T>)
    ensures multiset(r) == multiset(s) && |r| == |s|
  {
    if s == [] then []
    else
      assert s == [s[0]] + s[1..];
      Insert(le, s[0], Sort(le, s[1..]))
  }

  lemma {:induction false} InsertSorted<T(!new)>(le: (T, T) -> bool, x: T, s: seq<T>)
    requires TotalPreorder(le) && Sorted(le, s)
    ensures Sorted(le, Insert(le, x, s))
  {
    if s != [] && !le(x, s[0]) {
      InsertSorted(le, x, s[1..]);
      var rest := Insert(le, x, s[1..]);
      forall i | 0 <= i < |rest| ensures le(s[0], rest[i]) {
        assert rest[i] in multiset(rest);
        assert rest[i] == x || rest[i] in multiset(s[1..]);
        if rest[i] != x {
          assert rest[i] in s[1..];
        }
      }
    }
  }

  lemma {:induction false} SortSorts<T(!new)>(le: (T, T) -> bool, s: seq<T>)
    requires TotalPreorder(le)
    ensures Sorted(le, Sort(le, s))
  {
    if s != [] {
      SortSorts(le, s[1..]);
      InsertSorted(le, s[0], Sort(le, s[1..]));
    }
  }

  lemma InSort<T>(le: (T, T) -> bool, s: seq<T>, x: T)
    ensures x in Sort(le, s) <==> x in s
  {
    assert x in Sort(le, s) <==> x in multiset(Sort(le, s));
    assert x in s <==> x in multiset(s);
  }

  /** The first element of a sorted sequence is below every other. */
  lemma FirstIsLeast<T>(le: (T, T) -> bool, s: seq<T>, x: T)
    requires Sorted(le, s) && x in multiset(s)
    ensures s != [] && (x == s[0] || le(s[0], x))
  {
    var i :| 0 <= i < |s| && s[i] == x;
  }

  lemma DropFirst<T>(s: seq<T>)
    requires s != []
    ensures multiset(s[1..]) == multiset(s) - multiset{s[0]}
  {
    assert s == [s[0]] + s[1..];
  }

  /** No two different elements tie. */
  ghost predicate Untied<T>(le: (T, T) -> bool, s: seq<T>) {
    forall x, y | x in s && y in s && le(x, y) && le(y, x) :: x == y
  }

  lemma SameFirst<T>(le: (T, T) -> bool, a: seq<T>, b: seq<T>)
    requires Sorted(le, a) && Sorted(le, b) && multiset(a) == multiset(b) && a != [] && b != [] && Untied(le, a)
    ensures a[0] == b[0]
  {
    assert a[0] in multiset(a) && b[0] in multiset(b);
    FirstIsLeast(le, a, b[0]);
    FirstIsLeast(le, b, a[0]);
    assert b[0] in multiset(a) && b[0] in a;
  }

  lemma TailsSorted<T>(le: (T, T) -> bool, a: seq<T>, b: seq<T>)
    requires Sorted(le, a) && Sorted(le, b) && Untied(le, a) && a != [] && b != []
    ensures Sorted(le, a[1..]) && Sorted(le, b[1..]) && Untied(le, a[1..])
  {
    assert forall x <- a[1..] :: x in a;
  }

  lemma SameLength<T>(a: seq<T>, b: seq<T>)
    requires multiset(a) == multiset(b)
    ensures |a| == |b|
  {
    assert |multiset(a)| == |a| && |multiset(b)| == |b|;
  }

  /** Sorted sequences of the same elements are equal when no two different elements tie. */
  lemma {:induction false} SortedUnique<T>(le: (T, T) -> bool, a: seq<T>, b: seq<T>)
    requires Sorted(le, a) && Sorted(le, b) && multiset(a) == multiset(b) && Untied(le, a)
    ensures a == b
    decreases |a|
  {
    SameLength(a, b);
    if a != [] {
      SameFirst(le, a, b);
      TailsSorted(le, a, b);
      SameTails(a, b);
      SortedUnique(le, a[1..], b[1..]);
    }
  }

  lemma SameTails<T>(a: seq<T>, b: seq<T>)
    requires a != [] && |a| == |b| && a[0] == b[0] && multiset(a) == multiset(b)
    ensures multiset(a[1..]) == multiset(b[1..])
    ensures a[1..] == b[1..] ==> a == b
  {
    DropFirst(a);
    DropFirst(b);
    assert a == [a[0]] + a[1..];
    assert b == [b[0]] + b[1..];
  }

  // ---------------------------------------------------------------- filtering

  function Filter<T>(p: T -> bool, s: seq<T>): (r: seq<T>)
    ensures |r| <= |s|
  {
    if s == [] then []
    else if p(s[0]) then [s[0]] + Filter(p, s[1..])
    else Filter(p, s[1..])
  }

  lemma {:induction false} InFilter<T>(p: T -> bool, s: seq<T>, x: T)
    ensures x in Filter(p, s) <==> x in s && p(x)
  {
    if s != [] {
      InFilter(p, s[1..], x);
      assert s == [s[0]] + s[1..];
    }
  }

  lemma {:induction false} FilterNone<T>(p: T -> bool, s: seq<T>)
    requires forall x <- s :: !p(x)
    ensures Filter(p, s) == []
  {
    if s != [] {
      FilterNone(p, s[1..]);
    }
  }

  lemma FilterCons<T>(p: T -> bool, x: T, s: seq<T>)
    ensures Filter(p, [x] + s) == (if p(x) then [x] else []) + Filter(p, s)
  {
    assert ([x] + s)[1..] == s;
  }

  lemma {:induction false} FilterConcat<T>(p: T -> bool, a: seq<T>, b: seq<T>)
    ensures Filter(p, a + b) == Filter(p, a) + Filter(p, b)
  {
    if a == [] {
      assert a + b == b;
    } else {
      var x, rest := a[0], a[1..];
      FilterConcat(p, rest, b);
      FilterCons(p, x, rest);
      FilterCons(p, x, rest + b);
      assert a == [x] + rest && a + b == [x] + (rest + b);
    }
  }

  lemma {:induction false} FilterInsert<T(!new)>(le: (T, T) -> bool, p: T -> bool, x: T, s: seq<T>)
    requires TotalPreorder(le) && Sorted(le, s)
    ensures Filter(p, Insert(le, x, s)) == if p(x) then Insert(le, x, Filter(p, s)) else Filter(p, s)
  {
    if s == [] || le(x, s[0]) {
      assert ([x] + s)[1..] == s;
      var kept := Filter(p, s);
      if p(x) && kept != [] {
        InFilter(p, s, kept[0]);
        assert s != [] && (kept[0] == s[0] || le(s[0], kept[0]));
      }
    } else {
      FilterInsert(le, p, x, s[1..]);
      var rest := Insert(le, x, s[1..]);
      assert ([s[0]] + rest)[1..] == rest;
      if p(s[0]) {
        assert Filter(p, s)[1..] == Filter(p, s[1..]);
      } else if p(x) {
        assert Filter(p, s) == Filter(p, s[1..]);
      }
    }
  }

  /** A stable sort keeps the order of any selection: sorting and filtering commute. */
  lemma {:induction false} FilterSort<T(!new)>(le: (T, T) -> bool, p: T -> bool, s: seq<T>)
    requires TotalPreorder(le)
    ensures Filter(p, Sort(le, s)) == Sort(le, Filter(p, s))
  {
    if s != [] {
      FilterSort(le, p, s[1..]);
      SortSorts(le, s[1..]);
      FilterInsert(le, p, s[0], Sort(le, s[1..]));
      if p(s[0]) {
        assert Filter(p, s)[1..] == Filter(p, s[1..]);
      }
    }
  }

  /** When the selected elements rank before all others, they are a prefix of the sorted sequence. */
  lemma {:induction false} FilterPrefix<T>(le: (T, T) -> bool, p: T -> bool, s: seq<T>, n: nat)
    requires Sorted(le, s) && n <= |s|
    requires forall x, y | x in s && y in s && le(x, y) && p(y) :: p(x)
    ensures Filter(p, s[..n]) == if n <= |Filter(p, s)| then Filter(p, s)[..n] else Filter(p, s)
  {
    if n > 0 {
      assert s[..n][1..] == s[1..][..n - 1];
      if p(s[0]) {
        FilterPrefix(le, p, s[1..], n - 1);
        assert Filter(p, s) == [s[0]] + Filter(p, s[1..]);
      } else {
        assert forall y <- s :: y == s[0] || le(s[0], y);
        assert forall y <- s[..n] :: y in s;
        FilterNone(p, s);
        FilterNone(p, s[..n]);
      }
    }
  }

  /** Replacing each element by one of its kind commutes with selecting that kind. */
  lemma {:induction false} FilterCollect<T(!new)>(p: T -> bool, f: T -> seq<T>, s: seq<T>)
    requires forall x :: |f(x)| == 1 && p(f(x)[0]) == p(x)
    ensures Filter(p, Collect(f, s)) == Collect(f, Filter(p, s))
  {
    if s != [] {
      var n := |s| - 1;
      var init, last := s[..n], s[n];
      FilterCollect(p, f, init);
      assert s == init + [last];
      FilterConcat(p, init, [last]);
      FilterConcat(p, Collect(f, init), f(last));
      assert f(last) == [f(last)[0]];
      assert Filter(p, f(last)) == if p(last) then f(last) else [];
      assert Filter(p, Collect(f, s)) == Filter(p, Collect(f, init)) + Filter(p, f(last));
      assert Filter(p, s) == Filter(p, init) + Filter(p, [last]);
      assert Filter(p, [last]) == if p(last) then [last] else [];
      if p(last) {
        CollectSnoc(f, Filter(p, init), last);
        assert Filter(p, s) == Filter(p, init) + [last];
      } else {
        assert Filter(p, s) == Filter(p, init);
      }
    }
  }
}
