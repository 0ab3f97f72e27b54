/** The JavaScript array combinators the order form is written with --
    `reduce` with an initial value, `filter` and `map` -- together with the
    reference sum `SumOf` that every total is specified against. */
module Folds {

  /** `xs.reduce(f, init)`: a left fold that feeds the first element first.
      The result is `init` on an empty array; otherwise it is the callback
      applied to the fold of all but the last element and the last element,
      which is how `reduce` visits the indices in ascending order. */
  function Reduce<T>(xs: seq<T>, f: (int, T) -> int, init: int): (r: int)
    ensures xs == [] ==> r == init
    ensures xs != [] ==> r == f(Reduce(xs[..|xs| - 1], f, init), xs[|xs| - 1])
    decreases |xs|
  {
    if xs == [] then init
    else
      var rest := xs[1..];
      var r := Reduce(rest, f, f(init, xs[0]));
      assert rest != [] ==> xs[..|xs| - 1][1..] == rest[..|rest| - 1];
      assert rest == [] ==> xs[..|xs| - 1] == [];
      r
  }

  /** The sum of g(x) over xs, by structural recursion from the front. */
  function SumOf<T>(xs: seq<T>, g: T -> int): int
    decreases |xs|
  {
    if xs == [] then 0 else g(xs[0]) + SumOf(xs[1..], g)
  }

  /** A reduce whose step adds g(x) to the running total computes the sum of g. */
  lemma {:induction false} ReduceIsSumOf<T>(xs: seq<T>, f: (int, T) -> int, g: T -> int, acc: int)
    requires forall a, x :: f(a, x) == a + g(x)
    ensures Reduce(xs, f, acc) == acc + SumOf(xs, g)
    decreases |xs|
  {
    if xs != [] {
      ReduceIsSumOf(xs[1..], f, g, f(acc, xs[0]));
    }
  }

  lemma {:induction false} SumOfConcat<T>(xs: seq<T>, ys: seq<T>, g: T -> int)
    ensures SumOf(xs + ys, g) == SumOf(xs, g) + SumOf(ys, g)
    decreases |xs|
  {
    if xs == [] {
      assert xs + ys == ys;
    } else {
      assert (xs + ys)[1..] == xs[1..] + ys;
      SumOfConcat(xs[1..], ys, g);
    }
  }

  /** Dropping one position takes exactly that element's share out of the sum. */
  lemma SumOfDropOne<T>(xs: seq<T>, g: T -> int, i: int)
    requires 0 <= i < |xs|
    ensures SumOf(xs[..i] + xs[i + 1..], g) == SumOf(xs, g) - g(xs[i])
  {
    var front, back := xs[..i], xs[i + 1..];
    var rest := [xs[i]] + back;
    assert xs == front + rest;
    assert rest[1..] == back;
    assert SumOf(rest, g) == g(xs[i]) + SumOf(back, g);
    SumOfConcat(front, rest, g);
    SumOfConcat(front, back, g);
  }

  /** Changing one position of a sequence changes its sum by exactly the
      difference at that position. */
  lemma {:induction false} SumOfUpdateOne<T>(xs: seq<T>, ys: seq<T>, g: T -> int, i: int)
    requires |xs| == |ys| && 0 <= i < |xs|
    requires forall j :: 0 <= j < |xs| && j != i ==> ys[j] == xs[j]
    ensures SumOf(ys, g) == SumOf(xs, g) - g(xs[i]) + g(ys[i])
    decreases |xs|
  {
    if i == 0 {
      assert ys[1..] == xs[1..];
    } else {
      SumOfUpdateOne(xs[1..], ys[1..], g, i - 1);
    }
  }

  /** Sums agree on sequences whose elements agree under g. */
  lemma {:induction false} SumOfPointwise<T>(xs: seq<T>, ys: seq<T>, g: T -> int)
    requires |xs| == |ys|
    requires forall j :: 0 <= j < |xs| ==> g(ys[j]) == g(xs[j])
    ensures SumOf(ys, g) == SumOf(xs, g)
    decreases |xs|
  {
    if xs != [] {
      SumOfPointwise(xs[1..], ys[1..], g);
    }
  }

  /** `xs.filter(keep)`: the elements that pass, in their original order. */
  function Filter<T(!new)>(xs: seq<T>, keep: T -> bool): (r: seq<T>)
    ensures |r| <= |xs|
    ensures forall x :: x in r <==> x in xs && keep(x)
    decreases |xs|
  {
    if xs == [] then []
    else if keep(xs[0]) then [xs[0]] + Filter(xs[1..], keep)
    else Filter(xs[1..], keep)
  }

  /** `filter` keeps multiplicities: an element that passes occurs in the
      result as often as in the input, and one that fails not at all. */
  lemma {:induction false} FilterCounts<T(!new)>(xs: seq<T>, keep: T -> bool)
    ensures forall x :: multiset(Filter(xs, keep))[x] == (if keep(x) then multiset(xs)[x] else 0)
    decreases |xs|
  {
    if xs != [] {
      FilterCounts(xs[1..], keep);
      assert xs == [xs[0]] + xs[1..];
    }
  }

  /** `filter` works element by element, in order: filtering a concatenation
      filters each part and concatenates the results. */
  lemma {:induction false} FilterConcat<T(!new)>(xs: seq<T>, ys: seq<T>, keep: T -> bool)
    ensures Filter(xs + ys, keep) == Filter(xs, keep) + Filter(ys, keep)
    decreases |xs|
  {
    if xs == [] {
      assert xs + ys == ys;
    } else {
      assert (xs + ys)[0] == xs[0];
      assert (xs + ys)[1..] == xs[1..] + ys;
      FilterConcat(xs[1..], ys, keep);
    }
  }

  /** A filter that every element passes removes nothing. */
  lemma {:induction false} FilterKeepsAll<T(!new)>(xs: seq<T>, keep: T -> bool)
    requires forall j :: 0 <= j < |xs| ==> keep(xs[j])
    ensures Filter(xs, keep) == xs
    decreases |xs|
  {
    if xs != [] {
      FilterKeepsAll(xs[1..], keep);
    }
  }

  /** A filter that exactly one element fails removes that element and keeps
      the rest in order. */
  lemma {:induction false} FilterDropsOne<T(!new)>(xs: seq<T>, keep: T -> bool, i: int)
    requires 0 <= i < |xs| && !keep(xs[i])
    requires forall j :: 0 <= j < |xs| && j != i ==> keep(xs[j])
    ensures Filter(xs, keep) == xs[..i] + xs[i + 1..]
    decreases |xs|
  {
    if i == 0 {
      FilterKeepsAll(xs[1..], keep);
    } else {
      FilterDropsOne(xs[1..], keep, i - 1);
      assert xs[1..][..i - 1] + xs[1..][i..] == xs[1..i] + xs[i + 1..];
      assert [xs[0]] + xs[1..i] == xs[..i];
    }
  }

  /** `xs.map(f)` for a callback that keeps the element type. */
  function MapEach<T>(xs: seq<T>, f: T -> T): (r: seq<T>)
    ensures |r| == |xs|
    ensures forall j :: 0 <= j < |xs| ==> r[j] == f(xs[j])
    decreases |xs|
  {
    if xs == [] then [] else [f(xs[0])] + MapEach(xs[1..], f)
  }
}
