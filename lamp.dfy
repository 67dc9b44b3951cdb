/** The lamp scenario: a boolean power switch whose only action toggles it. */
module Lamp {
  import opened Reducer
  import opened Middleware
  import opened Reduxr

  datatype LampAction = Switch
  datatype LampState = LampState(power: bool)

  /** The derived default of `LampState`: the power is off. */
  const Off := LampState(false)

  /** The two middleware of the scenario: one that reads and prints the power through its
      context, and one that does nothing. */
  datatype LampMiddleware = PrintPower | DoNothing

  /** `Switch` turns the power to its opposite. */
  function Reduce(s: LampState, a: LampAction): (r: LampState)
    ensures r.power != s.power
  {
    match a
    case Switch => LampState(!s.power)
  }

  /** After any history of switches the power differs from where it started exactly when
      the number of switches is odd. */
  lemma {:induction false} FoldSwitches(s: LampState, actions: seq<LampAction>)
    ensures Fold(Reduce, s, actions).power == (s.power != (|actions| % 2 == 1))
    decreases |actions|
  {
    if actions != [] {
      FoldSwitches(Reduce(s, actions[0]), actions[1..]);
    }
  }

  /** A default store without middleware: off, then on after one switch, off after two. */
  method StoreTest() returns (before: LampState, first: LampState, second: LampState)
    ensures !before.power && first.power && !second.power
  {
    var store: Store<LampState, LampAction, LampMiddleware> := DefaultStore(Reduce, Off);
    before := store.GetState();
    store.Dispatch(Switch);
    first := store.GetState();
    store.Dispatch(Switch);
    second := store.GetState();
  }

  /** The same two switches with two middleware registered give the same states; the
      printing middleware sees the power as it was before each switch. */
  method StoreMiddlewareTest() returns (before: LampState, first: LampState, second: LampState)
    ensures !before.power && first.power && !second.power
  {
    var store: Store<LampState, LampAction, LampMiddleware> := DefaultStore(Reduce, Off);
    store.AddMiddleware(PrintPower);
    store.AddMiddleware(DoNothing);
    before := store.GetState();
    store.Dispatch(Switch);
    first := store.GetState();
    store.Dispatch(Switch);
    second := store.GetState();
    assert |store.trace| == 4;
    assert store.trace[0] == Invocation(0, PrintPower, Switch, LampState(false));
    assert store.trace[1] == Invocation(1, DoNothing, Switch, LampState(false));
    assert store.trace[2] == Invocation(0, PrintPower, Switch, LampState(true));
    assert store.trace[3] == Invocation(1, DoNothing, Switch, LampState(true));
  }
}
