/**
 * The ReadonlySwitch ability: a Switch service that reflects an input's
 * state and cannot be controlled from HomeKit.
 */
module ReadonlySwitchAbility {
  import opened Common
  import opened Strings
  import opened Host
  import opened Device

  function ServiceName(id: nat): string
  {
    "Switch " + DecimalString(id + 1)
  }

  function ServiceSubtype(id: nat): string
  {
    "readonly-switch-" + DecimalString(id)
  }

  /** The permissions left on On: notifications and reads, but no writes. */
  const ReadOnlyPerms: set<Perm> := {Notify, PairedRead}

  const Events: set<Event> := {ChangeState}

  /** The value shown for an input state; a missing (null) state shows as off. */
  function StateValue(state: Option<bool>): (b: bool)
    ensures b <==> state == Some(true)
  {
    state.GetOr(false)
  }

  /**
   * `initialize()`: takes the write permission off On, shows the input's
   * state and listens to state changes; no write handler is installed.
   */
  method Initialize(s: Service, c: Component, owner: object)
    modifies s`values, s`updates, s`perms, c`listeners
    ensures s.perms == old(s.perms)[On := ReadOnlyPerms] && PairedWrite !in s.perms[On]
    ensures s.values == old(s.values)[On := BoolValue(StateValue(c.inputState))]
    ensures s.updates == old(s.updates) + [(On, BoolValue(StateValue(c.inputState)))]
    ensures c.listeners == old(c.listeners) + ListenersOf(Events, owner)
  {
    s.SetPerms(On, ReadOnlyPerms);
    s.Set(On, BoolValue(StateValue(c.inputState)));
    c.On(ChangeState, owner);
    assert ListenersOf(Events, owner) == {Listener(ChangeState, owner)};
  }

  /** The `change:state` handler: a null state shows as off. */
  method StateChangeHandler(s: Service, value: Option<bool>)
    modifies s`values, s`updates
    ensures s.values == old(s.values)[On := BoolValue(StateValue(value))]
    ensures s.updates == old(s.updates) + [(On, BoolValue(StateValue(value)))]
  {
    s.Set(On, BoolValue(StateValue(value)));
  }
}
