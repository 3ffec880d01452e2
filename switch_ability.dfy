/**
 * The Switch ability: a Switch service whose On characteristic follows a
 * switch component's output and commands it.
 */
module SwitchAbility {
  import opened Common
  import opened Strings
  import opened Host
  import opened Device
  import AbilityBase

  function ServiceName(id: nat): string
  {
    "Switch " + DecimalString(id + 1)
  }

  function ServiceSubtype(id: nat): string
  {
    "switch-" + DecimalString(id)
  }

  /** The events `detach()` unsubscribes. */
  const Events: set<Event> := {ChangeOutput}

  /** `initialize()`: publishes the output and listens to HomeKit writes and to output changes. */
  method Initialize(s: Service, c: Component, owner: object)
    modifies s`values, s`updates, s`writable, c`listeners
    ensures s.values == old(s.values)[On := BoolValue(c.output)]
    ensures s.updates == old(s.updates) + [(On, BoolValue(c.output))]
    ensures s.writable == old(s.writable) + {On}
    ensures c.listeners == old(c.listeners) + ListenersOf(Events, owner)
  {
    s.Set(On, BoolValue(c.output));
    s.OnSet(On);
    c.On(ChangeOutput, owner);
    assert ListenersOf(Events, owner) == {Listener(ChangeOutput, owner)};
  }

  /**
   * The `onSet` handler of On (the Outlet ability's is identical): a value
   * equal to the current output sends nothing; any other value sends exactly
   * one `set(value)`, and a rejected command fails the write without touching
   * any characteristic.
   */
  method OutputSetHandler(c: Component, value: bool, reply: Reply, setUp: bool) returns (r: Outcome)
    modifies c`commands
    ensures value == c.output ==> r == Pass && c.commands == old(c.commands)
    ensures value != c.output ==> c.commands == old(c.commands) + [SetOutput(value)]
    ensures value != c.output && reply == Resolved ==> r == Pass
    ensures value != c.output && reply == Rejected ==> r == Fail(AbilityBase.CommandFailure(setUp))
  {
    if value == c.output {
      return Pass;
    }
    c.Send(SetOutput(value));
    if reply == Rejected {
      return Fail(AbilityBase.CommandFailure(setUp));
    }
    return Pass;
  }

  /**
   * The `change:output` handler: publishes the new output, sending no
   * command (a handler that runs before setup or after destroy fails in the
   * ability, before reaching this).
   */
  method OutputChangeHandler(s: Service, value: bool)
    modifies s`values, s`updates
    ensures s.values == old(s.values)[On := BoolValue(value)]
    ensures s.updates == old(s.updates) + [(On, BoolValue(value))]
  {
    s.Set(On, BoolValue(value));
  }
}
