/** Left folds, and lists cut into batches. */
module Folds {
  function Fold<S, T>(f: (S, T) -> S, s: S, xs: seq<T>): S {
    if xs == [] then s else f(Fold(f, s, xs[..|xs| - 1]), xs[|xs| - 1])
  }

  lemma {:induction false} FoldStep<S, T>(f: (S, T) -> S, s: S, xs: seq<T>, x: T)
    ensures Fold(f, s, xs + [x]) == f(Fold(f, s, xs), x)
  {
    assert (xs + [x])[..|xs + [x]| - 1] == xs;
  }

  lemma {:induction false} FoldJoin<S, T>(f: (S, T) -> S, s: S, a: seq<T>, b: seq<T>)
    ensures Fold(f, Fold(f, s, a), b) == Fold(f, s, a + b)
  {
    if b == [] {
      assert a + b == a;
    } else {
      FoldJoin(f, s, a, b[..|b| - 1]);
      assert (a + b)[..|a + b| - 1] == a + b[..|b| - 1];
    }
  }

  /** What commutes with every step commutes with the fold. */
  lemma {:induction false} FoldCommutes<S, T>(f: (S, T) -> S, g: S -> S, s: S, xs: seq<T>)
    requires forall r, x {:trigger f(g(r), x)} {:trigger g(f(r, x))} :: f(g(r), x) == g(f(r, x))
    ensures Fold(f, g(s), xs) == g(Fold(f, s, xs))
  {
    if xs != [] {
      FoldCommutes(f, g, s, xs[..|xs| - 1]);
    }
  }

  function Min(a: nat, b: nat): nat { if a < b then a else b }

  /** Where the batch with this number starts in a list of `n`. */
  function Start(n: nat, size: nat, k: nat): (start: nat)
    ensures start <= n
  {
    if k == 0 then 0 else Min(Start(n, size, k - 1) + size, n)
  }

  /** `xs[start:start + size]` for the batch with this number. */
  function Slice<T>(xs: seq<T>, size: nat, k: nat): seq<T> {
    xs[Start(|xs|, size, k)..Start(|xs|, size, k + 1)]
  }

  /** The elements of the first `k` batches. */
  function Done<T>(xs: seq<T>, size: nat, k: nat): seq<T> {
    xs[..Start(|xs|, size, k)]
  }

  lemma {:induction false} SliceJoins<T>(xs: seq<T>, size: nat, k: nat)
    requires k > 0
    ensures Done(xs, size, k - 1) + Slice(xs, size, k - 1) == Done(xs, size, k)
  {
  }

  /** Batches of one element hold one more each time. */
  lemma {:induction false} StartByOnes(n: nat, k: nat)
    requires k <= n
    ensures Start(n, 1, k) == k
  {
    if k > 0 {
      StartByOnes(n, k - 1);
    }
  }

  /** The state once the first `k` batches have committed. */
  function Batched<S, T>(f: (S, T) -> S, s: S, xs: seq<T>, size: nat, k: nat): S {
    if k == 0 then s else Fold(f, Batched(f, s, xs, size, k - 1), Slice(xs, size, k - 1))
  }

  /** Batches of any size are one fold over the elements they hold. */
  lemma {:induction false} BatchesAreOneFold<S, T>(f: (S, T) -> S, s: S, xs: seq<T>, size: nat, k: nat)
    ensures Batched(f, s, xs, size, k) == Fold(f, s, Done(xs, size, k))
  {
    if k > 0 {
      BatchesAreOneFold(f, s, xs, size, k - 1);
      FoldJoin(f, s, Done(xs, size, k - 1), Slice(xs, size, k - 1));
      SliceJoins(xs, size, k);
    }
  }
}
