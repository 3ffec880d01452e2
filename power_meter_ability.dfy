/**
 * The PowerMeter ability: a custom service with the power readings of a
 * switch or cover component. Only the readings the device reports are kept.
 */
module PowerMeterAbility {
  import opened Common
  import opened Strings
  import opened Host
  import opened Device
  import AbilityBase

  function ServiceName(id: nat): string
  {
    "Power Meter " + DecimalString(id + 1)
  }

  function ServiceSubtype(id: nat): string
  {
    "power-meter-" + DecimalString(id)
  }

  /** The four readings, each with its own event and characteristic. */
  datatype Reading = ApowerReading | VoltageReading | CurrentReading | AenergyReading

  function EventOf(m: Reading): Event
  {
    match m
    case ApowerReading => ChangeApower
    case VoltageReading => ChangeVoltage
    case CurrentReading => ChangeCurrent
    case AenergyReading => ChangeAenergy
  }

  function CharacteristicOf(m: Reading): Characteristic
  {
    match m
    case ApowerReading => CurrentConsumption
    case VoltageReading => Voltage
    case CurrentReading => ElectricCurrent
    case AenergyReading => TotalConsumption
  }

  /** The energy counter is reported in watt-hours and shown in kilowatt-hours. */
  function KilowattHours(wh: real): (kwh: real)
    ensures kwh * 1000.0 == wh
    ensures wh >= 0.0 ==> 0.0 <= kwh <= wh
  {
    wh / 1000.0
  }

  /** The value shown for a reading of `v`. */
  function Shown(m: Reading, v: real): (r: real)
    ensures m != AenergyReading ==> r == v
    ensures m == AenergyReading ==> r * 1000.0 == v
  {
    if m == AenergyReading then KilowattHours(v) else v
  }

  /** The component's current reading; active power is shown as 0 when missing. */
  function ReadingOf(m: Reading, apower: Option<real>, voltage: Option<real>, current: Option<real>, aenergyTotal: Option<real>): Option<real>
  {
    match m
    case ApowerReading => Some(apower.GetOr(0.0))
    case VoltageReading => voltage
    case CurrentReading => current
    case AenergyReading => aenergyTotal
  }

  const Events: set<Event> := {ChangeApower, ChangeVoltage, ChangeCurrent, ChangeAenergy}

  /** The events `initialize()` subscribes: active power always, the others when reported. */
  function InitEvents(voltage: Option<real>, current: Option<real>, aenergyTotal: Option<real>): (es: set<Event>)
    ensures es <= Events
    ensures ChangeApower in es
    ensures ChangeVoltage in es <==> voltage.Some?
    ensures ChangeCurrent in es <==> current.Some?
    ensures ChangeAenergy in es <==> aenergyTotal.Some?
  {
    {ChangeApower}
    + (if voltage.Some? then {ChangeVoltage} else {})
    + (if current.Some? then {ChangeCurrent} else {})
    + (if aenergyTotal.Some? then {ChangeAenergy} else {})
  }

  /** The characteristic values once reading `m` is shown, or removed when there is no reading. */
  function WithReading(vals: map<Characteristic, Value>, m: Reading, reading: Option<real>): (r: map<Characteristic, Value>)
    ensures Shows(r, m, reading)
  {
    if reading.Some? then vals[CharacteristicOf(m) := RealValue(Shown(m, reading.value))]
    else vals - {CharacteristicOf(m)}
  }

  /** Showing or removing one reading leaves every other characteristic as it was. */
  lemma WithReadingKeepsOthers(vals: map<Characteristic, Value>, m: Reading, reading: Option<real>, k: Characteristic)
    requires k != CharacteristicOf(m)
    ensures var r := WithReading(vals, m, reading);
      (k in r <==> k in vals) && (k in r ==> r[k] == vals[k])
  {
  }

  /** The characteristic values `initialize()` leaves: every reading shown or removed in turn. */
  function InitValues(vals: map<Characteristic, Value>, apower: Option<real>, voltage: Option<real>,
                      current: Option<real>, aenergyTotal: Option<real>): map<Characteristic, Value>
  {
    var v1 := WithReading(vals, ApowerReading, Some(apower.GetOr(0.0)));
    var v2 := WithReading(v1, VoltageReading, voltage);
    var v3 := WithReading(v2, CurrentReading, current);
    WithReading(v3, AenergyReading, aenergyTotal)
  }

  /**
   * After `initialize()` each of the four readings is shown as the device
   * reports it (active power as 0 when missing), or its characteristic is
   * gone, and every other characteristic is as before.
   */
  lemma InitValuesShowReadings(vals: map<Characteristic, Value>, apower: Option<real>, voltage: Option<real>,
                               current: Option<real>, aenergyTotal: Option<real>)
    ensures var r := InitValues(vals, apower, voltage, current, aenergyTotal);
      && Shows(r, ApowerReading, Some(apower.GetOr(0.0)))
      && Shows(r, VoltageReading, voltage)
      && Shows(r, CurrentReading, current)
      && Shows(r, AenergyReading, aenergyTotal)
      && forall k | k !in {CurrentConsumption, Voltage, ElectricCurrent, TotalConsumption} ::
           (k in r <==> k in vals) && (k in r ==> r[k] == vals[k])
  {
    var v1 := WithReading(vals, ApowerReading, Some(apower.GetOr(0.0)));
    var v2 := WithReading(v1, VoltageReading, voltage);
    var v3 := WithReading(v2, CurrentReading, current);
    var r := WithReading(v3, AenergyReading, aenergyTotal);
    WithReadingKeepsOthers(v1, VoltageReading, voltage, CurrentConsumption);
    WithReadingKeepsOthers(v2, CurrentReading, current, CurrentConsumption);
    WithReadingKeepsOthers(v2, CurrentReading, current, Voltage);
    WithReadingKeepsOthers(v3, AenergyReading, aenergyTotal, CurrentConsumption);
    WithReadingKeepsOthers(v3, AenergyReading, aenergyTotal, Voltage);
    WithReadingKeepsOthers(v3, AenergyReading, aenergyTotal, ElectricCurrent);
    forall k | k !in {CurrentConsumption, Voltage, ElectricCurrent, TotalConsumption}
      ensures (k in r <==> k in vals) && (k in r ==> r[k] == vals[k])
    {
      WithReadingKeepsOthers(vals, ApowerReading, Some(apower.GetOr(0.0)), k);
      WithReadingKeepsOthers(v1, VoltageReading, voltage, k);
      WithReadingKeepsOthers(v2, CurrentReading, current, k);
      WithReadingKeepsOthers(v3, AenergyReading, aenergyTotal, k);
    }
  }

  /** The change listener subscribed for reading `m`: one when the device reports it, none otherwise. */
  function ReadingListeners(m: Reading, reading: Option<real>, owner: object): set<Listener>
  {
    if reading.Some? then {Listener(EventOf(m), owner)} else {}
  }

  /** Sets reading `m` when the device reports it, and removes its characteristic otherwise. */
  method SetUpReading(s: Service, c: Component, m: Reading, reading: Option<real>, owner: object)
    modifies s`values, s`updates, s`writable, s`perms, c`listeners
    ensures s.values == WithReading(old(s.values), m, reading)
    ensures c.listeners == old(c.listeners) + ReadingListeners(m, reading, owner)
    ensures s.writable <= old(s.writable)
  {
    if reading.Some? {
      s.Set(CharacteristicOf(m), RealValue(Shown(m, reading.value)));
      c.On(EventOf(m), owner);
    } else {
      AbilityBase.RemoveCharacteristic(s, CharacteristicOf(m));
    }
  }

  /** `vals` shows reading `m` as `v`, or lacks its characteristic when there is no reading. */
  predicate Shows(vals: map<Characteristic, Value>, m: Reading, v: Option<real>)
  {
    && (v.Some? ==> CharacteristicOf(m) in vals && vals[CharacteristicOf(m)] == RealValue(Shown(m, v.value)))
    && (v.None? ==> CharacteristicOf(m) !in vals)
  }

  /**
   * `initialize()`: shows active power (0 when missing) and each other
   * reading the device reports, subscribing to exactly those readings, and
   * removes the characteristics of readings the device does not report.
   */
  method Initialize(s: Service, c: Component, owner: object)
    modifies s`values, s`updates, s`writable, s`perms, c`listeners
    ensures s.values == InitValues(old(s.values), c.apower, c.voltage, c.current, c.aenergyTotal)
    ensures c.listeners == old(c.listeners) + ListenersOf(InitEvents(c.voltage, c.current, c.aenergyTotal), owner)
    ensures s.writable <= old(s.writable)
  {
    SetUpReading(s, c, ApowerReading, Some(c.apower.GetOr(0.0)), owner);
    SetUpReading(s, c, VoltageReading, c.voltage, owner);
    SetUpReading(s, c, CurrentReading, c.current, owner);
    SetUpReading(s, c, AenergyReading, c.aenergyTotal, owner);
    ListenersOfInit(c, owner);
  }

  /** The listeners `initialize()` adds are those of the subscribed events. */
  lemma ListenersOfInit(c: Component, owner: object)
    ensures ListenersOf(InitEvents(c.voltage, c.current, c.aenergyTotal), owner) ==
      ReadingListeners(ApowerReading, Some(c.apower.GetOr(0.0)), owner)
      + ReadingListeners(VoltageReading, c.voltage, owner)
      + ReadingListeners(CurrentReading, c.current, owner)
      + ReadingListeners(AenergyReading, c.aenergyTotal, owner)
  {
  }

  /** The handler of each reading's change event: shows the new reading, nothing else. */
  method ReadingChangeHandler(s: Service, m: Reading, v: real)
    modifies s`values, s`updates
    ensures s.values == old(s.values)[CharacteristicOf(m) := RealValue(Shown(m, v))]
    ensures s.updates == old(s.updates) + [(CharacteristicOf(m), RealValue(Shown(m, v)))]
  {
    s.Set(CharacteristicOf(m), RealValue(Shown(m, v)));
  }
}
