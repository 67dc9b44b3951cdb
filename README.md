# Reducer-pattern store

A model of `Store<State, Action>`, a generic single-threaded state container in the
reducer style. A store owns one state value and an append-only chain of middleware.
Its one transition is `dispatch(action)`. It calls every middleware once, in
registration order. Each call gets a context holding the action and an accessor that
reads the store's current state. Then the store replaces its state with
`state.reduce(action)` in a single assignment.

Modules:

- `Reducer` (reducer.dfy): the left fold of a reducer over a history of actions.
  The lemmas say how the fold composes.
- `Middleware` (middleware.dfy): the per-call context and the record of one middleware
  call. It also gives the calls one dispatch makes, one per chain position in order.
- `Reduxr` (store.dfy): the `Store` class and `DefaultStore`.
  - `state` and `middleware` are fields that the methods update in place.
  - The reducer is a `const` total function `reduce: (S, A) -> S`.
  - The ghost fields `initial` and `dispatched` hold the history.
  - The ghost field `trace` holds every middleware call made so far.
  - The invariant `Valid()` says the state is the left fold of `reduce` over the
    dispatched actions.
- `Lamp` (lamp.dfy): the lamp-toggle scenarios of the source's tests.

The reducer and the default value of the state type come from the `Reduce` and
`Default` implementations of the state type. The model takes both as parameters:
the reducer at construction, the default value in `DefaultStore`. Middleware are
opaque identities of a type parameter `M`. A call of a middleware is recorded in
`trace` as its chain position, its identity, the action and the value its context's
accessor returns at the time of the call.

## Model

| member | source | states |
|---|---|---|
| `Reducer.FoldConcat` | src/store.rs:33-49 | Dispatching `xs` and then `ys` leaves the same state as dispatching `xs + ys` from the same start. |
| `Reducer.FoldSnoc` | src/store.rs:41 | One more dispatched action is exactly one more application of `reduce` to the state reached so far. |
| `Middleware.InvocationsAt` | src/store.rs:37-47 | From chain position `from`, the walk calls each remaining middleware exactly once. The k-th call is to the middleware at position `from + k`. Every call carries the in-flight action and the same snapshot. |
| `Middleware.InvocationsOrdered` | src/store.rs:37-47 | The calls of one dispatch are made in strictly increasing chain position, i.e. in registration order. |
| `Reduxr.Store.New` | src/store.rs:15-23 | A new store holds the given state, an empty chain, an empty history and no recorded calls. |
| `Reduxr.Store.AddMiddleware` | src/store.rs:25-31 | Appends the middleware at the end of the chain. Earlier entries keep their order. State, history and trace are unchanged. |
| `Reduxr.Store.GetState` | src/store.rs:51-53 | A side-effect-free read. It returns the initial state folded with every dispatched action, whatever middleware is registered. |
| `Reduxr.Store.Dispatch` | src/store.rs:33-49 | The new state is `reduce(old state, action)` and the action is appended to the history. The chain is unchanged. Exactly one call per registered middleware is appended to the trace, call k to the middleware at position k. Every call's snapshot is the state from before the dispatch. |
| `Reduxr.Store.DispatchIndex` | src/store.rs:37-49 | The walk from position `index`: the calls of the remaining middleware are recorded in order, all seeing the unreduced state. The state is then reduced once. The walk terminates because `index` rises towards the chain length. |
| `Reduxr.DefaultStore` | src/store.rs:56-62 | A fresh store whose state is the default value of the state type, with no middleware. |
| `Lamp.Reduce` | src/store.rs:78-84 | `Switch` turns the power to its opposite. |
| `Lamp.FoldSwitches` | src/store.rs:78-84 | After any history of switches, the power differs from the starting power exactly when the number of switches is odd. |
| `Lamp.StoreTest` | src/store.rs:86-100 | On a default store the power reads off, then on after one switch, then off after two. |
| `Lamp.StoreMiddlewareTest` | src/store.rs:102-121 | With the printing and the no-op middleware registered, the same two switches give the same off, on, off readings. The body also proves that the printing middleware sees off during the first dispatch and on during the second. |

## Left out

- What a middleware body does, such as the `println!` of the printing middleware. These are arbitrary foreign side effects. A call is modelled only as an entry of the ghost `trace`.
- A middleware that panics or a reducer that panics. Both abort the program in the source. The model has no abort path.
- The `Box<dyn Fn>` representation of middleware and the `PhantomData` marker for the action type. These are Rust typing details with no behaviour.
- `Reduxr.Store.AddMiddleware`: returns nothing, while the source returns the store by value for fluent chaining. Calls are made one after another instead.
- The `Clone` bound on the state type. States are Dafny values, so a clone is the value itself.
- The borrow rules around the accessor closure, which captures a reference back to the store. The model's accessor is a closure that reads the store's `state` field. Aliasing plays no part.
- The `usize` width of the chain index. The model uses unbounded `nat`, and a chain longer than `usize` cannot exist in memory.
- The `Reduce` trait and the `MiddlewareContext` struct are defined in modules that are not part of this model. Here they are a function parameter and a two-field datatype.
- Concurrency. The store is single-threaded.
