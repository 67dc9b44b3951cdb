/** Middleware: observers invoked, in registration order, before every reduction.
    What a middleware does is outside the model; each call is recorded as an
    `Invocation` of the observer at a position of the chain, with the action in flight
    and the state its context's accessor yields. */
module Middleware {

  /** What one middleware receives: the action being dispatched and an accessor that
      reads the store's state at the moment it is called. */
  datatype MiddlewareContext<S, A> = MiddlewareContext(action: A, getState: () ~> S)

  /** One recorded call of a middleware: its position in the chain, the middleware
      itself, the action of the dispatch and the snapshot its accessor returned. */
  datatype Invocation<S, A, M> = Invocation(position: nat, middleware: M, action: A, snapshot: S)

  /** The calls a dispatch makes from chain position `from` on, when every accessor
      reads the state `s`: one per registered middleware, in registration order. */
  function Invocations<S, A, M>(chain: seq<M>, from: nat, a: A, s: S): seq<Invocation<S, A, M>>
    decreases |chain| - from
  {
    if from >= |chain| then [] else [Invocation(from, chain[from], a, s)] + Invocations(chain, from + 1, a, s)
  }

  /** From position `from`, each remaining middleware is called exactly once, the k-th call
      is the one of the middleware at position `from + k`, and every call sees `a` and `s`. */
  lemma {:induction false} InvocationsAt<S, A, M>(chain: seq<M>, from: nat, a: A, s: S)
    requires from <= |chain|
    ensures |Invocations(chain, from, a, s)| == |chain| - from
    ensures forall k :: 0 <= k < |chain| - from ==>
      Invocations(chain, from, a, s)[k] == Invocation(from + k, chain[from + k], a, s)
    decreases |chain| - from
  {
    if from < |chain| {
      InvocationsAt(chain, from + 1, a, s);
    }
  }

  /** Calls are made in strictly increasing chain position. */
  lemma InvocationsOrdered<S, A, M>(chain: seq<M>, a: A, s: S, i: nat, j: nat)
    requires i < j < |Invocations(chain, 0, a, s)|
    ensures Invocations(chain, 0, a, s)[i].position < Invocations(chain, 0, a, s)[j].position
  {
    InvocationsAt(chain, 0, a, s);
  }
}
