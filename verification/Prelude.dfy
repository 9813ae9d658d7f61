/** Small helpers shared by every model: optional values and sequence folds. */
module Prelude {

  datatype Option<+T> = None | Some(value: T)

  /** Concatenation of a sequence of sequences, peeled from the end because histories grow there. */
  function Flatten<T>(ss: seq<seq<T>>): seq<T> {
    if ss == [] then [] else Flatten(ss[..|ss| - 1]) + ss[|ss| - 1]
  }

  lemma FlattenSnoc<T>(ss: seq<seq<T>>, s: seq<T>)
    ensures Flatten(ss + [s]) == Flatten(ss) + s
  {
    assert (ss + [s])[..|ss|] == ss;
  }

  /** The numbers 0, 1, ..., n - 1. */
  function Iota(n: nat): (r: seq<nat>)
    ensures |r| == n && forall i :: 0 <= i < n ==> r[i] == i
  {
    seq(n, i => i)
  }

  /** Left fold. */
  function Fold<S, T>(f: (S, T) -> S, init: S, xs: seq<T>): S {
    if xs == [] then init else f(Fold(f, init, xs[..|xs| - 1]), xs[|xs| - 1])
  }
}
