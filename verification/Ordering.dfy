/** Sorting a finite set by a strict total order, as ORDER BY and `sorted` do. */
module Ordering {

  ghost predicate TotalOn<T(!new)>(s: set<T>, less: (T, T) -> bool) {
    && (forall a, b :: a in s && b in s && a != b ==> (less(a, b) <==> !less(b, a)))
    && (forall a, b, c :: a in s && b in s && c in s && less(a, b) && less(b, c) ==> less(a, c))
    && (forall a :: a in s ==> !less(a, a))
  }

  ghost predicate IsLeast<T(!new)>(s: set<T>, less: (T, T) -> bool, x: T) {
    x in s && forall y :: y in s && y != x ==> less(x, y)
  }

  lemma {:induction false} LeastExists<T(!new)>(s: set<T>, less: (T, T) -> bool)
    requires s != {} && TotalOn(s, less)
    ensures exists x :: IsLeast(s, less, x)
  {
    var x :| x in s;
    var rest := s - {x};
    if rest == {} {
      assert s == {x};
      assert IsLeast(s, less, x);
    } else {
      assert TotalOn(rest, less);
      LeastExists(rest, less);
      var y :| IsLeast(rest, less, y);
      var z := if less(x, y) then x else y;
      forall v | v in s && v != z ensures less(z, v) {
        assert v == x || v in rest;
      }
      assert IsLeast(s, less, z);
    }
  }

  function Least<T(!new)>(s: set<T>, less: (T, T) -> bool): (x: T)
    requires s != {} && TotalOn(s, less)
    ensures IsLeast(s, less, x)
  {
    LeastExists(s, less);
    var x :| x in s && forall y :: y in s && y != x ==> less(x, y);
    x
  }

  function Sorted<T(!new)>(s: set<T>, less: (T, T) -> bool): (xs: seq<T>)
    requires TotalOn(s, less)
    ensures |xs| == |s|
    ensures forall x :: x in xs <==> x in s
  {
    if s == {} then []
    else
      var first := Least(s, less);
      assert s == {first} + (s - {first});
      [first] + Sorted(s - {first}, less)
  }

  ghost predicate Increasing<T(!new)>(xs: seq<T>, less: (T, T) -> bool) {
    forall i, j :: 0 <= i < j < |xs| ==> xs[i] != xs[j] && less(xs[i], xs[j])
  }

  /** The result is strictly increasing, so it has no repeats and is the only such list. */
  lemma {:induction false} SortedIncreases<T(!new)>(s: set<T>, less: (T, T) -> bool)
    requires TotalOn(s, less)
    ensures Increasing(Sorted(s, less), less)
  {
    if s != {} {
      var first := Least(s, less);
      SortedIncreases(s - {first}, less);
      IncreasingCons(first, Sorted(s - {first}, less), less);
    }
  }

  lemma IncreasingCons<T(!new)>(x: T, xs: seq<T>, less: (T, T) -> bool)
    requires Increasing(xs, less) && forall y :: y in xs ==> x != y && less(x, y)
    ensures Increasing([x] + xs, less)
  {
    var ys := [x] + xs;
    forall i, j | 0 <= i < j < |ys| ensures ys[i] != ys[j] && less(ys[i], ys[j]) {
      assert ys[j] == xs[j - 1] && xs[j - 1] in xs;
      if i > 0 {
        assert ys[i] == xs[i - 1];
      }
    }
  }

  /** Python's comparison of equally long tuples. */
  predicate LexLess(a: seq<int>, b: seq<int>) {
    if |a| == 0 || |b| == 0 then |a| < |b|
    else a[0] < b[0] || (a[0] == b[0] && LexLess(a[1..], b[1..]))
  }

  lemma {:induction false} LexIrreflexive(a: seq<int>)
    ensures !LexLess(a, a)
  {
    if a != [] {
      LexIrreflexive(a[1..]);
    }
  }

  lemma {:induction false} LexTrichotomy(a: seq<int>, b: seq<int>)
    requires a != b
    ensures LexLess(a, b) <==> !LexLess(b, a)
  {
    if a != [] && b != [] && a[0] == b[0] {
      assert a == [a[0]] + a[1..] && b == [b[0]] + b[1..];
      LexTrichotomy(a[1..], b[1..]);
    }
  }

  lemma {:induction false} LexTransitive(a: seq<int>, b: seq<int>, c: seq<int>)
    requires LexLess(a, b) && LexLess(b, c)
    ensures LexLess(a, c)
  {
    if a != [] && b != [] && c != [] && a[0] == b[0] == c[0] {
      LexTransitive(a[1..], b[1..], c[1..]);
    }
  }

  /** Comparing by an injective tuple key is a total order. */
  lemma KeyIsTotal<T(!new)>(s: set<T>, key: T -> seq<int>, less: (T, T) -> bool)
    requires forall a, b :: a in s && b in s && key(a) == key(b) ==> a == b
    requires forall a, b :: less(a, b) <==> LexLess(key(a), key(b))
    ensures TotalOn(s, less)
  {
    forall a, b | a in s && b in s && a != b ensures less(a, b) <==> !less(b, a) {
      LexTrichotomy(key(a), key(b));
    }
    forall a, b, c | a in s && b in s && c in s && less(a, b) && less(b, c) ensures less(a, c) {
      LexTransitive(key(a), key(b), key(c));
    }
    forall a | a in s ensures !less(a, a) {
      LexIrreflexive(key(a));
    }
  }
}
