/** Order-preserving sequence combinators: the `map`, `filter` and
    "append one block per entry" shapes that the form-state collector and
    the manifest renderer are built from. */
module Seqs {

  /** Applies `f` to every element, keeping positions. */
  function Map<A, B>(f: A -> B, xs: seq<A>): (r: seq<B>)
    ensures |r| == |xs|
    ensures forall i :: 0 <= i < |xs| ==> r[i] == f(xs[i])
  {
    if |xs| == 0 then [] else [f(xs[0])] + Map(f, xs[1..])
  }

  /** Keeps exactly the elements that satisfy `p`, in their original order. */
  function Filter<T(!new)>(p: T -> bool, xs: seq<T>): (r: seq<T>)
    ensures |r| <= |xs|
    ensures forall x :: x in r <==> x in xs && p(x)
  {
    if |xs| == 0 then []
    else if p(xs[0]) then [xs[0]] + Filter(p, xs[1..])
    else Filter(p, xs[1..])
  }

  /** Concatenates the blocks that `f` produces for each element, in order. */
  function FlatMap<A(!new), B(!new)>(f: A -> seq<B>, xs: seq<A>): (r: seq<B>)
    ensures forall x, y :: x in xs && y in f(x) ==> y in r
    ensures forall y :: y in r ==> exists x :: x in xs && y in f(x)
  {
    if |xs| == 0 then [] else f(xs[0]) + FlatMap(f, xs[1..])
  }

  lemma {:induction false} MapConcat<A, B>(f: A -> B, a: seq<A>, b: seq<A>)
    ensures Map(f, a + b) == Map(f, a) + Map(f, b)
  {
  }

  /** Filtering commutes with concatenation: the order of kept entries is the
      order of the input, block by block. */
  lemma {:induction false} FilterConcat<T(!new)>(p: T -> bool, a: seq<T>, b: seq<T>)
    ensures Filter(p, a + b) == Filter(p, a) + Filter(p, b)
  {
    if |a| == 0 {
      assert a + b == b;
    } else {
      assert (a + b)[0] == a[0];
      assert (a + b)[1..] == a[1..] + b;
      FilterConcat(p, a[1..], b);
    }
  }

  lemma {:induction false} FilterKeepsAll<T(!new)>(p: T -> bool, xs: seq<T>)
    requires forall x :: x in xs ==> p(x)
    ensures Filter(p, xs) == xs
  {
    if |xs| > 0 {
      assert forall x :: x in xs[1..] ==> x in xs;
      FilterKeepsAll(p, xs[1..]);
    }
  }

  lemma FilterDropsAll<T(!new)>(p: T -> bool, xs: seq<T>)
    requires forall x :: x in xs ==> !p(x)
    ensures Filter(p, xs) == []
  {
  }

  lemma {:induction false} FlatMapConcat<A(!new), B(!new)>(f: A -> seq<B>, a: seq<A>, b: seq<A>)
    ensures FlatMap(f, a + b) == FlatMap(f, a) + FlatMap(f, b)
  {
    if |a| == 0 {
      assert a + b == b;
    } else {
      assert (a + b)[0] == a[0];
      assert (a + b)[1..] == a[1..] + b;
      FlatMapConcat(f, a[1..], b);
    }
  }

  /** When every block holds exactly one line picked out by `p`, filtering the
      concatenated blocks lists those lines, one per entry, in entry order. */
  lemma {:induction false} FilterHeads<A(!new), B(!new)>(p: B -> bool, f: A -> seq<B>, head: A -> B, xs: seq<A>)
    requires forall x :: x in xs ==> Filter(p, f(x)) == [head(x)]
    ensures Filter(p, FlatMap(f, xs)) == Map(head, xs)
  {
    if |xs| > 0 {
      assert xs[0] in xs;
      assert forall x :: x in xs[1..] ==> x in xs;
      FilterConcat(p, f(xs[0]), FlatMap(f, xs[1..]));
      FilterHeads(p, f, head, xs[1..]);
    }
  }

  /** Filtering each block separately and filtering the whole agree. */
  lemma {:induction false} FilterFlatMap<A(!new), B(!new)>(p: B -> bool, f: A -> seq<B>, g: A -> seq<B>, xs: seq<A>)
    requires forall x :: x in xs ==> Filter(p, f(x)) == g(x)
    ensures Filter(p, FlatMap(f, xs)) == FlatMap(g, xs)
  {
    if |xs| > 0 {
      assert xs[0] in xs;
      assert forall x :: x in xs[1..] ==> x in xs;
      FilterConcat(p, f(xs[0]), FlatMap(f, xs[1..]));
      FilterFlatMap(p, f, g, xs[1..]);
    }
  }

  /** Filtering by a stronger predicate after a weaker one is filtering by
      the stronger one alone. */
  lemma {:induction false} FilterFilter<T(!new)>(p: T -> bool, q: T -> bool, xs: seq<T>)
    requires forall x :: p(x) ==> q(x)
    ensures Filter(p, Filter(q, xs)) == Filter(p, xs)
  {
    if |xs| > 0 {
      FilterFilter(p, q, xs[1..]);
    }
  }
}
