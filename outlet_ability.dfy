/**
 * The Outlet ability: an Outlet service whose On characteristic follows a
 * switch component's output and whose OutletInUse tells whether it draws
 * power.
 */
module OutletAbility {
  import opened Common
  import opened Strings
  import opened Host
  import opened Device
  import SwitchAbility

  function ServiceName(id: nat): string
  {
    "Outlet " + DecimalString(id + 1)
  }

  function ServiceSubtype(id: nat): string
  {
    "outlet-" + DecimalString(id)
  }

  const Events: set<Event> := {ChangeOutput, ChangeApower}

  /** Whether an outlet is in use: the device reports an active power other than zero. */
  predicate InUse(apower: Option<real>)
  {
    apower.Some? && apower.value != 0.0
  }

  /** The service shows the component's output and whether power flows. */
  predicate InSync(s: Service, c: Component)
    reads s`values, c`output, c`apower
  {
    && On in s.values && s.values[On] == BoolValue(c.output)
    && OutletInUse in s.values && s.values[OutletInUse] == BoolValue(InUse(c.apower))
  }

  /** `initialize()`: publishes output and use, then listens to writes and to both properties. */
  method Initialize(s: Service, c: Component, owner: object)
    modifies s`values, s`updates, s`writable, c`listeners
    ensures InSync(s, c)
    ensures s.values == old(s.values)[On := BoolValue(c.output)][OutletInUse := BoolValue(InUse(c.apower))]
    ensures s.updates == old(s.updates) + [(On, BoolValue(c.output)), (OutletInUse, BoolValue(InUse(c.apower)))]
    ensures s.writable == old(s.writable) + {On}
    ensures c.listeners == old(c.listeners) + ListenersOf(Events, owner)
  {
    s.Set(On, BoolValue(c.output));
    s.Set(OutletInUse, BoolValue(InUse(c.apower)));
    s.OnSet(On);
    c.On(ChangeOutput, owner);
    c.On(ChangeApower, owner);
    assert ListenersOf(Events, owner) == {Listener(ChangeOutput, owner), Listener(ChangeApower, owner)};
  }

  /** The `change:output` handler. */
  method OutputChangeHandler(s: Service, c: Component)
    modifies s`values, s`updates
    ensures s.values == old(s.values)[On := BoolValue(c.output)]
    ensures s.updates == old(s.updates) + [(On, BoolValue(c.output))]
    ensures old(InSync(s, c)) ==> InSync(s, c)
  {
    SwitchAbility.OutputChangeHandler(s, c.output);
  }

  /** What the `change:apower` handler publishes, as written: the raw power reading. */
  function PublishedInUseAsWritten(apower: real): (v: Value)
    ensures v.RealValue? && v.r == apower
  {
    RealValue(apower)
  }

  /** What the `change:apower` handler is evidently meant to publish: the reading's use, as at initialisation. */
  function PublishedInUse(apower: real): (v: Value)
    ensures v == BoolValue(InUse(Some(apower)))
  {
    BoolValue(apower != 0.0)
  }

  /** The as-written handler publishes something other than what initialisation publishes for the same reading. */
  lemma AsWrittenInUseDisagrees()
    ensures PublishedInUseAsWritten(5.0) != BoolValue(InUse(Some(5.0)))
    ensures PublishedInUseAsWritten(0.0) != BoolValue(InUse(Some(0.0)))
  {
  }

  /** The `change:apower` handler as written: stores the reading in the boolean OutletInUse. */
  method ApowerChangeHandlerAsWritten(s: Service, apower: real)
    modifies s`values, s`updates
    ensures s.values == old(s.values)[OutletInUse := PublishedInUseAsWritten(apower)]
    ensures s.updates == old(s.updates) + [(OutletInUse, PublishedInUseAsWritten(apower))]
  {
    s.Set(OutletInUse, PublishedInUseAsWritten(apower));
  }

  /** The `change:apower` handler, corrected: publishes whether the new reading is non-zero. */
  method ApowerChangeHandler(s: Service, c: Component)
    modifies s`values, s`updates
    ensures c.apower.Some? ==> s.values == old(s.values)[OutletInUse := PublishedInUse(c.apower.value)]
    ensures c.apower.None? ==> s.values == old(s.values)[OutletInUse := BoolValue(false)]
    ensures |s.updates| == |old(s.updates)| + 1
    ensures old(InSync(s, c)) ==> InSync(s, c)
    ensures On in old(s.values) && old(s.values)[On] == BoolValue(c.output) ==> InSync(s, c)
  {
    s.Set(OutletInUse, BoolValue(InUse(c.apower)));
  }
}
