/** Shared wrappers and the few sequence facts every component needs. */
module Common {

  datatype Option<+T> = None | Some(value: T)

  datatype Result<+T, +E> = Ok(value: T) | Err(error: E)

  const U32_MAX: nat := 0xFFFF_FFFF
  const U64_MAX: nat := 0xFFFF_FFFF_FFFF_FFFF

  function Min(x: int, y: int): int { if x <= y then x else y }

  function Max(x: int, y: int): int { if x >= y then x else y }

  ghost predicate NoDup<T(!new)>(xs: seq<T>) {
    forall i, j :: 0 <= i < j < |xs| ==> xs[i] != xs[j]
  }

  /** `retain`: the elements satisfying `p`, in their original order. */
  function Filter<T(!new)>(xs: seq<T>, p: T -> bool): (r: seq<T>)
    ensures forall x :: x in r <==> x in xs && p(x)
  {
    if xs == [] then []
    else
      assert forall x :: x in xs <==> x == xs[0] || x in xs[1..];
      (if p(xs[0]) then [xs[0]] else []) + Filter(xs[1..], p)
  }

  lemma {:induction false} FilterNoDup<T(!new)>(xs: seq<T>, p: T -> bool)
    requires NoDup(xs)
    ensures NoDup(Filter(xs, p))
  {
    if xs != [] {
      FilterNoDup(xs[1..], p);
      assert xs[0] !in xs[1..];
      assert xs[0] !in Filter(xs[1..], p);
    }
  }

  lemma {:induction false} FilterAll<T(!new)>(xs: seq<T>, p: T -> bool)
    requires forall x :: x in xs ==> p(x)
    ensures Filter(xs, p) == xs
  {
    if xs != [] {
      FilterAll(xs[1..], p);
    }
  }

  /** Index of the first element satisfying `p`, or the length when there is none. */
  function FirstIndex<T>(xs: seq<T>, p: T -> bool): (i: nat)
    ensures i <= |xs|
    ensures i < |xs| ==> p(xs[i])
    ensures forall j :: 0 <= j < i ==> !p(xs[j])
  {
    if xs == [] then 0
    else if p(xs[0]) then 0
    else 1 + FirstIndex(xs[1..], p)
  }

  /** Every occurrence of one element removed. */
  function Without<T(!new, ==)>(xs: seq<T>, x: T): (r: seq<T>)
    ensures forall y :: y in r <==> y in xs && y != x
    ensures x !in xs ==> r == xs
  {
    if xs == [] then []
    else
      assert forall y :: y in xs <==> y == xs[0] || y in xs[1..];
      (if xs[0] == x then [] else [xs[0]]) + Without(xs[1..], x)
  }

  lemma {:induction false} WithoutNoDup<T(!new)>(xs: seq<T>, x: T)
    requires NoDup(xs)
    ensures NoDup(Without(xs, x))
  {
    if xs != [] {
      WithoutNoDup(xs[1..], x);
      assert xs[0] !in xs[1..];
      assert xs[0] !in Without(xs[1..], x);
    }
  }

  /** Strictly increasing under a ranking of the elements. */
  ghost predicate SortedBy<T(!new)>(xs: seq<T>, rank: map<T, nat>) {
    && (forall x :: x in xs ==> x in rank)
    && (forall i, j :: 0 <= i < j < |xs| ==> rank[xs[i]] < rank[xs[j]])
  }

  /** Removing elements keeps the remaining ones in order. */
  lemma {:induction false} FilterSorted<T(!new)>(xs: seq<T>, p: T -> bool, rank: map<T, nat>)
    requires SortedBy(xs, rank)
    ensures SortedBy(Filter(xs, p), rank)
  {
    if xs != [] {
      var tail := xs[1..];
      FilterSorted(tail, p, rank);
      var rest := Filter(tail, p);
      if p(xs[0]) {
        assert Filter(xs, p) == [xs[0]] + rest;
        forall j | 0 <= j < |rest|
          ensures rank[xs[0]] < rank[rest[j]]
        {
          assert rest[j] in tail;
          var k :| 0 <= k < |tail| && tail[k] == rest[j];
          assert xs[k + 1] == rest[j];
        }
      }
    }
  }

  lemma {:induction false} WithoutSorted<T(!new)>(xs: seq<T>, x: T, rank: map<T, nat>)
    requires SortedBy(xs, rank)
    ensures SortedBy(Without(xs, x), rank)
  {
    if xs != [] {
      var tail := xs[1..];
      WithoutSorted(tail, x, rank);
      var rest := Without(tail, x);
      forall y | y in rest
        ensures rank[xs[0]] < rank[y]
      {
        var k :| 0 <= k < |tail| && tail[k] == y;
        assert xs[k + 1] == y;
      }
      if xs[0] != x {
        assert Without(xs, x) == [xs[0]] + rest;
      }
    }
  }

  /** A duplicate-free sequence has as many elements as its set. */
  lemma {:induction false} NoDupCardinality<T(!new)>(xs: seq<T>, s: set<T>)
    requires NoDup(xs)
    requires forall x :: x in xs <==> x in s
    ensures |xs| == |s|
  {
    if xs == [] {
      assert s == {};
    } else {
      var tail := xs[1..];
      assert forall x :: x in xs <==> x == xs[0] || x in tail;
      assert xs[0] !in tail;
      NoDupCardinality(tail, s - {xs[0]});
    }
  }

  /** Dropping the element at one position of a duplicate-free sequence. */
  lemma {:induction false} WithoutAt<T(!new)>(xs: seq<T>, i: nat)
    requires NoDup(xs) && i < |xs|
    ensures Without(xs, xs[i]) == xs[..i] + xs[i + 1..]
  {
    if i == 0 {
      assert xs[0] !in xs[1..];
    } else {
      var tail := xs[1..];
      WithoutAt(tail, i - 1);
      assert tail[i - 1] == xs[i] && xs[0] != xs[i];
      assert xs[..i] == [xs[0]] + tail[..i - 1];
      assert tail[i..] == xs[i + 1..];
    }
  }
}
