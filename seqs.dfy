/** Order-preserving maps over sequences, the model of a Python loop that appends, one input
    after another, what each input contributes. Defined from the back so that such a loop can
    follow them step by step. */
module Seqs {

  /** The concatenation of `f(x)` over `xs`, in order. */
  function FlatMap<A, B>(xs: seq<A>, f: A -> seq<B>): seq<B> {
    if xs == [] then [] else FlatMap(xs[..|xs| - 1], f) + f(xs[|xs| - 1])
  }

  /** `FlatMap` distributes over concatenation. */
  lemma {:induction false} FlatMapConcat<A, B>(a: seq<A>, b: seq<A>, f: A -> seq<B>)
    ensures FlatMap(a + b, f) == FlatMap(a, f) + FlatMap(b, f)
    decreases |b|
  {
    if b == [] {
      assert a + b == a;
    } else {
      var j := |b| - 1;
      assert (a + b)[..|a + b| - 1] == a + b[..j];
      assert (a + b)[|a + b| - 1] == b[j];
      FlatMapConcat(a, b[..j], f);
    }
  }

  /** `[f(x) for x in xs if p(x)]`. */
  function FilterMap<A, B>(xs: seq<A>, p: A -> bool, f: A -> B): (r: seq<B>)
    ensures |r| <= |xs|
  {
    if xs == [] then []
    else FilterMap(xs[..|xs| - 1], p, f) + (if p(xs[|xs| - 1]) then [f(xs[|xs| - 1])] else [])
  }

  /** The outputs are exactly the images of the elements that pass. */
  lemma {:induction false} FilterMapMembers<A, B>(xs: seq<A>, p: A -> bool, f: A -> B, y: B)
    ensures y in FilterMap(xs, p, f) <==> exists x :: x in xs && p(x) && y == f(x)
  {
    if xs != [] {
      var j := |xs| - 1;
      FilterMapMembers(xs[..j], p, f, y);
      assert xs == xs[..j] + [xs[j]];
    }
  }
}
