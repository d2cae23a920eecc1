/** The array methods the client applies to lists: `map`, `filter`, and `filter` by position. */
module Seqs {

  /** `xs.map(f)`. */
  function Map<A, B>(f: A -> B, xs: seq<A>): (r: seq<B>)
    ensures |r| == |xs|
    ensures forall i :: 0 <= i < |xs| ==> r[i] == f(xs[i])
  {
    if xs == [] then [] else [f(xs[0])] + Map(f, xs[1..])
  }

  /**
   * `xs.filter((_, j) => j !== i)`: drops the entry at position `i`, keeping
   * the others in order; an index outside the list drops nothing.
   */
  function RemoveAt<T>(xs: seq<T>, i: int): (r: seq<T>)
    ensures 0 <= i < |xs| ==> |r| == |xs| - 1
    ensures !(0 <= i < |xs|) ==> r == xs
    ensures 0 <= i < |xs| ==> forall j :: 0 <= j < |r| ==> r[j] == (if j < i then xs[j] else xs[j + 1])
  {
    if 0 <= i < |xs| then xs[..i] + xs[i + 1..] else xs
  }

  /** `xs.filter(f)`: the entries satisfying `f`, in their order. */
  function Filter<T(!new)>(f: T -> bool, xs: seq<T>): (r: seq<T>)
    ensures |r| <= |xs|
  {
    if xs == [] then []
    else (if f(xs[0]) then [xs[0]] else []) + Filter(f, xs[1..])
  }

  /** The filtered list holds exactly the entries that pass the test. */
  lemma {:induction false} FilterMembers<T(!new)>(f: T -> bool, xs: seq<T>)
    ensures forall x :: x in Filter(f, xs) <==> x in xs && f(x)
  {
    if xs != [] {
      assert xs == [xs[0]] + xs[1..];
      FilterMembers(f, xs[1..]);
    }
  }

  /** Filtering by a test and by its negation splits a list into two parts that together hold every entry once. */
  lemma {:induction false} FilterPartition<T(!new)>(f: T -> bool, g: T -> bool, xs: seq<T>)
    requires forall x :: g(x) == !f(x)
    ensures multiset(Filter(f, xs)) + multiset(Filter(g, xs)) == multiset(xs)
    ensures |Filter(f, xs)| + |Filter(g, xs)| == |xs|
  {
    if xs != [] {
      assert xs == [xs[0]] + xs[1..];
      FilterPartition(f, g, xs[1..]);
    }
  }
}
