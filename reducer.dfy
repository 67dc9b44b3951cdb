/** The reducer capability: a pure, total transition `reduce(state, action) -> state`
    supplied by the application for its State and Action types. The store only ever
    applies it one action at a time; its meaning over a whole history of actions is
    the left fold defined here. */
module Reducer {

  /** Left fold of `reduce` over `actions`, starting from `init`: the state reached
      by applying the actions one after another, first action first. */
  function Fold<S, A>(reduce: (S, A) -> S, init: S, actions: seq<A>): S
    decreases |actions|
  {
    if actions == [] then init else Fold(reduce, reduce(init, actions[0]), actions[1..])
  }

  /** Folding a concatenation is folding the second part from where the first one ended:
      dispatching `xs` and then `ys` gives the same state as dispatching `xs + ys`. */
  lemma {:induction false} FoldConcat<S, A>(reduce: (S, A) -> S, init: S, xs: seq<A>, ys: seq<A>)
    ensures Fold(reduce, init, xs + ys) == Fold(reduce, Fold(reduce, init, xs), ys)
    decreases |xs|
  {
    if xs == [] {
      assert xs + ys == ys;
    } else {
      assert (xs + ys)[1..] == xs[1..] + ys;
      FoldConcat(reduce, reduce(init, xs[0]), xs[1..], ys);
    }
  }

  /** One more action at the end of the history is one more application of `reduce`
      to the state reached so far. */
  lemma FoldSnoc<S, A>(reduce: (S, A) -> S, init: S, xs: seq<A>, a: A)
    ensures Fold(reduce, init, xs + [a]) == reduce(Fold(reduce, init, xs), a)
  {
    FoldConcat(reduce, init, xs, [a]);
    assert [a][1..] == [];
  }
}
