/** Stream-style operations on lists: map, filter and a left-to-right sum. */
module Seqs {
  /** `list.stream().map(f)`, keeping order. */
  function Map<A, B>(f: A -> B, xs: seq<A>): (ys: seq<B>)
    ensures |ys| == |xs|
    ensures forall i :: 0 <= i < |xs| ==> ys[i] == f(xs[i])
  {
    if |xs| == 0 then [] else Map(f, xs[..|xs| - 1]) + [f(xs[|xs| - 1])]
  }

  /** `list.stream().filter(p)`, keeping order. */
  function Filter<A>(p: A -> bool, xs: seq<A>): (ys: seq<A>)
    ensures |ys| <= |xs|
  {
    if |xs| == 0 then []
    else
      var init := Filter(p, xs[..|xs| - 1]);
      if p(xs[|xs| - 1]) then init + [xs[|xs| - 1]] else init
  }

  /** The filtered list holds exactly the elements that pass. */
  lemma {:induction false} FilterMembers<A>(p: A -> bool, xs: seq<A>)
    ensures forall y :: y in Filter(p, xs) ==> y in xs && p(y)
    ensures forall x :: x in xs && p(x) ==> x in Filter(p, xs)
  {
    if |xs| > 0 {
      var init := xs[..|xs| - 1];
      FilterMembers(p, init);
      assert xs == init + [xs[|xs| - 1]];
    }
  }

  /** `reduce(BigDecimal.ZERO, BigDecimal::add)` over `f` of each element, from the left. */
  function Sum<A>(f: A -> real, xs: seq<A>): real
  {
    if |xs| == 0 then 0.0 else Sum(f, xs[..|xs| - 1]) + f(xs[|xs| - 1])
  }

  lemma {:induction false} MapAppend<A, B>(f: A -> B, xs: seq<A>, ys: seq<A>)
    ensures Map(f, xs + ys) == Map(f, xs) + Map(f, ys)
  {
    // both sides have the same length and the same elements
  }

  lemma {:induction false} FilterAppend<A>(p: A -> bool, xs: seq<A>, ys: seq<A>)
    ensures Filter(p, xs + ys) == Filter(p, xs) + Filter(p, ys)
  {
    if |ys| == 0 {
      assert xs + ys == xs;
    } else {
      var init := ys[..|ys| - 1];
      assert (xs + ys)[..|xs + ys| - 1] == xs + init;
      FilterAppend(p, xs, init);
    }
  }

  /** Filtering a list with one more element last. */
  lemma FilterSnoc<A>(p: A -> bool, xs: seq<A>, x: A)
    ensures Filter(p, xs + [x]) == if p(x) then Filter(p, xs) + [x] else Filter(p, xs)
  {
    assert (xs + [x])[..|xs|] == xs;
  }

  /** Filtering keeps every element that passes. */
  lemma {:induction false} FilterAll<A>(p: A -> bool, xs: seq<A>)
    requires forall i :: 0 <= i < |xs| ==> p(xs[i])
    ensures Filter(p, xs) == xs
  {
    if |xs| > 0 {
      FilterAll(p, xs[..|xs| - 1]);
    }
  }

  lemma {:induction false} SumAppend<A>(f: A -> real, xs: seq<A>, ys: seq<A>)
    ensures Sum(f, xs + ys) == Sum(f, xs) + Sum(f, ys)
  {
    if |ys| == 0 {
      assert xs + ys == xs;
    } else {
      var init := ys[..|ys| - 1];
      assert (xs + ys)[..|xs + ys| - 1] == xs + init;
      SumAppend(f, xs, init);
    }
  }

  /** A sum whose every term is zero is zero. */
  lemma {:induction false} SumOfZeros<A>(f: A -> real, xs: seq<A>)
    requires forall i :: 0 <= i < |xs| ==> f(xs[i]) == 0.0
    ensures Sum(f, xs) == 0.0
  {
    if |xs| > 0 {
      SumOfZeros(f, xs[..|xs| - 1]);
    }
  }

  /** A sum of non-negative terms is non-negative. */
  lemma {:induction false} SumNonNegative<A>(f: A -> real, xs: seq<A>)
    requires forall i :: 0 <= i < |xs| ==> f(xs[i]) >= 0.0
    ensures Sum(f, xs) >= 0.0
  {
    if |xs| > 0 {
      SumNonNegative(f, xs[..|xs| - 1]);
    }
  }

  /** Summing `f` over the images of `g` is summing `f` composed with `g`. */
  lemma {:induction false} SumOfMap<A, B>(f: B -> real, g: A -> B, h: A -> real, xs: seq<A>)
    requires forall i :: 0 <= i < |xs| ==> h(xs[i]) == f(g(xs[i]))
    ensures Sum(f, Map(g, xs)) == Sum(h, xs)
  {
    if |xs| > 0 {
      var init := xs[..|xs| - 1];
      assert Map(g, xs)[..|xs| - 1] == Map(g, init);
      SumOfMap(f, g, h, init);
    }
  }

  /** Two lists whose terms agree position by position have the same sum. */
  lemma {:induction false} SumSameTerms<A, B>(f: A -> real, xs: seq<A>, g: B -> real, ys: seq<B>)
    requires |xs| == |ys|
    requires forall i :: 0 <= i < |xs| ==> f(xs[i]) == g(ys[i])
    ensures Sum(f, xs) == Sum(g, ys)
  {
    if |xs| > 0 {
      SumSameTerms(f, xs[..|xs| - 1], g, ys[..|ys| - 1]);
    }
  }

  /** The elements of a mapped list are exactly the images of the list's elements. */
  lemma MapMembers<A, B>(f: A -> B, xs: seq<A>)
    ensures forall x :: x in xs ==> f(x) in Map(f, xs)
    ensures forall y :: y in Map(f, xs) ==> exists x :: x in xs && y == f(x)
  {
    var ys := Map(f, xs);
    forall x | x in xs
      ensures f(x) in ys
    {
      var k :| 0 <= k < |xs| && xs[k] == x;
      assert ys[k] == f(x);
    }
    forall y | y in ys
      ensures exists x :: x in xs && y == f(x)
    {
      var k :| 0 <= k < |ys| && ys[k] == y;
      assert xs[k] in xs;
    }
  }

  /** `xs` is in ascending order of `key`. */
  predicate SortedBy<A>(key: A -> int, xs: seq<A>)
  {
    forall i, j :: 0 <= i < j < |xs| ==> key(xs[i]) <= key(xs[j])
  }

  /** Places `x` before the first element whose key is not smaller. */
  function InsertBy<A>(key: A -> int, x: A, xs: seq<A>): (ys: seq<A>)
    ensures multiset(ys) == multiset(xs) + multiset{x}
  {
    if |xs| == 0 then [x]
    else if key(x) <= key(xs[0]) then [x] + xs
    else
      assert xs == [xs[0]] + xs[1..];
      [xs[0]] + InsertBy(key, x, xs[1..])
  }

  /** A head whose key is at most every key of a sorted list keeps it sorted. */
  lemma ConsSorted<A>(key: A -> int, h: A, rest: seq<A>)
    requires SortedBy(key, rest)
    requires forall j :: 0 <= j < |rest| ==> key(h) <= key(rest[j])
    ensures SortedBy(key, [h] + rest)
  {
    var ys := [h] + rest;
    forall i, j | 0 <= i < j < |ys|
      ensures key(ys[i]) <= key(ys[j])
    {
      assert ys[j] == rest[j - 1];
      if i > 0 {
        assert ys[i] == rest[i - 1];
      }
    }
  }

  /** The tail of a sorted list is sorted, and its head's key bounds every key of the tail. */
  lemma SortedTail<A>(key: A -> int, xs: seq<A>)
    requires |xs| > 0 && SortedBy(key, xs)
    ensures SortedBy(key, xs[1..])
    ensures forall y :: y in multiset(xs[1..]) ==> key(xs[0]) <= key(y)
  {
    var tail := xs[1..];
    forall i, j | 0 <= i < j < |tail|
      ensures key(tail[i]) <= key(tail[j])
    {
      assert tail[i] == xs[i + 1] && tail[j] == xs[j + 1];
    }
    forall y | y in multiset(tail)
      ensures key(xs[0]) <= key(y)
    {
      var k :| 0 <= k < |tail| && tail[k] == y;
      assert tail[k] == xs[k + 1];
    }
  }

  /** Inserting into a sorted list keeps it sorted. */
  lemma {:induction false} InsertBySorted<A>(key: A -> int, x: A, xs: seq<A>)
    requires SortedBy(key, xs)
    ensures SortedBy(key, InsertBy(key, x, xs))
  {
    if |xs| > 0 && key(xs[0]) < key(x) {
      var tail := xs[1..];
      SortedTail(key, xs);
      InsertBySorted(key, x, tail);
      var rest := InsertBy(key, x, tail);
      forall j | 0 <= j < |rest|
        ensures key(xs[0]) <= key(rest[j])
      {
        assert rest[j] in multiset(rest);
      }
      ConsSorted(key, xs[0], rest);
    }
  }

  /** `sorted(Comparator.comparing(key))`: an ascending permutation of `xs`. */
  function SortBy<A>(key: A -> int, xs: seq<A>): (ys: seq<A>)
    ensures SortedBy(key, ys)
    ensures multiset(ys) == multiset(xs)
  {
    if |xs| == 0 then []
    else
      assert xs == [xs[0]] + xs[1..];
      InsertBySorted(key, xs[0], SortBy(key, xs[1..]));
      InsertBy(key, xs[0], SortBy(key, xs[1..]))
  }
}
