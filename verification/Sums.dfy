/** Sums over sequences and their laws, and the enumeration of a set in an unspecified order. */
module Sums {

  function Sum<T>(xs: seq<T>, f: T -> real): real {
    if xs == [] then 0.0 else f(xs[0]) + Sum(xs[1..], f)
  }

  lemma {:induction false} SumAppend<T>(xs: seq<T>, ys: seq<T>, f: T -> real)
    ensures Sum(xs + ys, f) == Sum(xs, f) + Sum(ys, f)
  {
    if xs == [] {
      assert xs + ys == ys;
    } else {
      assert (xs + ys)[1..] == xs[1..] + ys;
      SumAppend(xs[1..], ys, f);
    }
  }

  lemma SumNext<T>(xs: seq<T>, i: nat, f: T -> real)
    requires i < |xs|
    ensures Sum(xs[..i + 1], f) == Sum(xs[..i], f) + f(xs[i])
  {
    assert xs[..i + 1] == xs[..i] + [xs[i]];
    SumAppend(xs[..i], [xs[i]], f);
    assert Sum([xs[i]], f) == f(xs[i]) + Sum([xs[i]][1..], f);
  }

  lemma {:induction false} SumCongruent<T>(xs: seq<T>, f: T -> real, g: T -> real)
    requires forall x | x in xs :: f(x) == g(x)
    ensures Sum(xs, f) == Sum(xs, g)
  {
    if xs != [] {
      SumCongruent(xs[1..], f, g);
    }
  }

  lemma {:induction false} SumZero<T>(xs: seq<T>, f: T -> real)
    requires forall x | x in xs :: f(x) == 0.0
    ensures Sum(xs, f) == 0.0
  {
    if xs != [] {
      SumZero(xs[1..], f);
    }
  }

  lemma {:induction false} SumNonPositive<T>(xs: seq<T>, f: T -> real)
    requires forall x | x in xs :: f(x) <= 0.0
    ensures Sum(xs, f) <= 0.0
  {
    if xs != [] {
      SumNonPositive(xs[1..], f);
    }
  }

  lemma {:induction false} SumOfTwo<T>(xs: seq<T>, f: T -> real, g: T -> real, h: T -> real)
    requires forall x | x in xs :: h(x) == f(x) + g(x)
    ensures Sum(xs, h) == Sum(xs, f) + Sum(xs, g)
  {
    if xs != [] {
      SumOfTwo(xs[1..], f, g, h);
    }
  }

  /** A sum does not depend on the order of its terms. */
  lemma {:induction false} SumPermuted<T>(xs: seq<T>, ys: seq<T>, f: T -> real)
    requires multiset(xs) == multiset(ys)
    ensures Sum(xs, f) == Sum(ys, f)
  {
    if xs == [] {
      assert |multiset(ys)| == 0;
    } else {
      assert xs[0] in multiset(ys);
      var i :| 0 <= i < |ys| && ys[i] == xs[0];
      var rest := ys[..i] + ys[i + 1..];
      assert xs == [xs[0]] + xs[1..];
      assert ys == ys[..i] + [ys[i]] + ys[i + 1..];
      assert multiset(xs) == multiset{xs[0]} + multiset(xs[1..]);
      assert multiset(ys) == multiset{ys[i]} + multiset(rest);
      assert multiset(xs[1..]) == multiset(xs) - multiset{xs[0]};
      SumPermuted(xs[1..], rest, f);
      SumAppend(ys[..i], ys[i + 1..], f);
      SumAppend(ys[..i] + [ys[i]], ys[i + 1..], f);
      SumAppend(ys[..i], [ys[i]], f);
      assert Sum([ys[i]], f) == f(ys[i]) + Sum([ys[i]][1..], f);
    }
  }

  ghost predicate Distinct<T>(xs: seq<T>) {
    forall i, j | 0 <= i < j < |xs| :: xs[i] != xs[j]
  }

  /** `xs` lists every element of `s` exactly once: what a query without an ORDER BY returns. */
  ghost predicate Enumerates<T>(xs: seq<T>, s: set<T>) {
    && Distinct(xs)
    && (forall x | x in xs :: x in s)
    && (forall x | x in s :: x in xs)
  }

  lemma EnumeratesInserted<T>(xs: seq<T>, s: set<T>, x: T, k: nat)
    requires Enumerates(xs, s) && x !in s && k <= |xs|
    ensures Enumerates(xs[..k] + [x] + xs[k..], s + {x})
  {
  }

  method FetchAll<T(==)>(s: set<T>) returns (rows: seq<T>)
    ensures Enumerates(rows, s)
  {
    rows := [];
    var rest := s;
    while rest != {}
      invariant rest <= s
      invariant Enumerates(rows, s - rest)
      decreases rest
    {
      var x :| x in rest;
      rows := rows + [x];
      rest := rest - {x};
    }
  }
}
