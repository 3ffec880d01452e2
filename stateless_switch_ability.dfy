/**
 * The StatelessProgrammableSwitch ability: a button service that turns an
 * input's push events into HomeKit button presses.
 */
module StatelessSwitchAbility {
  import opened Common
  import opened Strings
  import opened Host
  import opened Device

  function ServiceName(id: nat): string
  {
    "Button " + DecimalString(id + 1)
  }

  function ServiceSubtype(id: nat): string
  {
    "stateless-programmable-switch-" + DecimalString(id)
  }

  datatype ButtonPress = Single | Double | Long

  const Events: set<Event> := {SinglePush, DoublePush, LongPush}

  /** The press a push event stands for; other events are not presses. */
  function PressOf(e: Event): (p: Option<ButtonPress>)
    ensures p.Some? <==> e in Events
  {
    match e
    case SinglePush => Some(Single)
    case DoublePush => Some(Double)
    case LongPush => Some(Long)
    case _ => None
  }

  /** The ProgrammableSwitchEvent value of a press. */
  function EventValue(p: ButtonPress): SwitchEventValue
  {
    match p
    case Single => SinglePress
    case Double => DoublePress
    case Long => LongPress
  }

  /** `initialize()`: numbers the button (`id + 1`) and listens to the three push events. */
  method Initialize(s: Service, c: Component, owner: object)
    modifies s`values, s`updates, c`listeners
    ensures s.values == old(s.values)[ServiceLabelIndex := IntValue(c.id + 1)]
    ensures s.updates == old(s.updates) + [(ServiceLabelIndex, IntValue(c.id + 1))]
    ensures c.listeners == old(c.listeners) + ListenersOf(Events, owner)
  {
    s.Set(ServiceLabelIndex, IntValue(c.id + 1));
    c.On(SinglePush, owner);
    c.On(DoublePush, owner);
    c.On(LongPush, owner);
    assert ListenersOf(Events, owner) ==
      {Listener(SinglePush, owner), Listener(DoublePush, owner), Listener(LongPush, owner)};
  }

  /** `triggerPress(type)`: publishes exactly one ProgrammableSwitchEvent for the press. */
  method TriggerPress(s: Service, p: ButtonPress)
    modifies s`values, s`updates
    ensures s.values == old(s.values)[ProgrammableSwitchEvent := SwitchEventOf(EventValue(p))]
    ensures s.updates == old(s.updates) + [(ProgrammableSwitchEvent, SwitchEventOf(EventValue(p)))]
  {
    s.Set(ProgrammableSwitchEvent, SwitchEventOf(EventValue(p)));
  }

  /** The three push handlers: each triggers the press its event stands for. */
  method PushHandler(s: Service, e: Event)
    requires e in Events
    modifies s`values, s`updates
    ensures PressOf(e).Some?
    ensures s.updates == old(s.updates) + [(ProgrammableSwitchEvent, SwitchEventOf(EventValue(PressOf(e).value)))]
    ensures s.values == old(s.values)[ProgrammableSwitchEvent := SwitchEventOf(EventValue(PressOf(e).value))]
  {
    TriggerPress(s, PressOf(e).value);
  }
}
