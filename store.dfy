/** The reducer-pattern store: one owned state, an append-only chain of middleware, and
    one transition, `Dispatch`, which runs the whole chain against the current state and
    then replaces the state with its reduction by the action. */
module Reduxr {
  import opened Reducer
  import opened Middleware

  /** A store over states `S`, actions `A` and middleware identities `M`.
      `reduce` is the reducer capability of `S` for `A`. */
  class Store<S, A, M> {
    const reduce: (S, A) -> S
    var state: S
    var middleware: seq<M>

    /** The state the store was built with and every action dispatched since, in order. */
    ghost var initial: S
    ghost var dispatched: seq<A>
    /** Every middleware call made so far, in the order the calls were made. */
    ghost var trace: seq<Invocation<S, A, M>>

    /** The state is only ever the initial state advanced by the dispatched actions. */
    ghost predicate Valid()
      reads this
    {
      state == Fold(reduce, initial, dispatched)
    }

    /** A store holding `init` with no middleware and nothing dispatched. */
    constructor New(reduce: (S, A) -> S, init: S)
      ensures Valid()
      ensures this.reduce == reduce && state == init && middleware == []
      ensures initial == init && dispatched == [] && trace == []
    {
      this.reduce := reduce;
      state := init;
      middleware := [];
      initial := init;
      dispatched := [];
      trace := [];
    }

    /** Appends `m` to the end of the chain; nothing else changes. */
    method AddMiddleware(m: M)
      requires Valid()
      modifies this
      ensures Valid()
      ensures middleware == old(middleware) + [m]
      ensures state == old(state) && initial == old(initial)
      ensures dispatched == old(dispatched) && trace == old(trace)
    {
      middleware := middleware + [m];
    }

    /** A clone of the current state: the initial state advanced by every dispatched
        action, whatever middleware is registered. */
    function GetState(): (s: S)
      reads this
      requires Valid()
      ensures s == Fold(reduce, initial, dispatched)
    {
      state
    }

    /** Runs every middleware once, in registration order, each seeing the state as it was
        before this dispatch, then replaces the state with its reduction by `action`. */
    method Dispatch(action: A)
      requires Valid()
      modifies this
      ensures Valid()
      ensures state == reduce(old(state), action)
      ensures dispatched == old(dispatched) + [action]
      ensures middleware == old(middleware) && initial == old(initial)
      ensures trace == old(trace) + Invocations(middleware, 0, action, old(state))
      ensures |trace| == |old(trace)| + |middleware|
      ensures forall k :: 0 <= k < |middleware| ==>
        trace[|old(trace)| + k] == Invocation(k, middleware[k], action, old(state))
    {
      DispatchIndex(action, 0);
      InvocationsAt(middleware, 0, action, old(state));
    }

    /** The walk of the chain from position `index`: call the middleware there with a
        context for `action`, then continue at `index + 1`; past the end of the chain,
        reduce. The state is assigned only in that last step. */
    method DispatchIndex(action: A, index: nat)
      requires Valid()
      modifies this
      ensures Valid()
      ensures state == reduce(old(state), action)
      ensures dispatched == old(dispatched) + [action]
      ensures middleware == old(middleware) && initial == old(initial)
      ensures trace == old(trace) + Invocations(middleware, index, action, old(state))
      decreases |middleware| - index
    {
      if index >= |middleware| {
        FoldSnoc(reduce, initial, dispatched, action);
        state := reduce(state, action);
        dispatched := dispatched + [action];
      } else {
        var context := MiddlewareContext(action, () reads this requires Valid() => GetState());
        // The middleware body is not modelled: its call is recorded with the snapshot
        // its accessor yields.
        trace := trace + [Invocation(index, middleware[index], context.action, context.getState())];
        DispatchIndex(action, index + 1);
      }
    }
  }

  /** A store over the default value of `S`, with no middleware. */
  method DefaultStore<S, A, M>(reduce: (S, A) -> S, default: S) returns (store: Store<S, A, M>)
    ensures fresh(store) && store.Valid()
    ensures store.reduce == reduce && store.state == default && store.middleware == []
    ensures store.initial == default && store.dispatched == [] && store.trace == []
  {
    store := new Store.New(reduce, default);
  }
}
