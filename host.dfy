/**
 * The part of the Homebridge/HAP host API the plugin uses: services holding
 * characteristic values, platform accessories holding services, and the
 * platform that restores, registers and unregisters platform accessories.
 * The host is an external collaborator; these classes record what the plugin
 * asks of it.
 */
module Host {
  import opened Common

  type Uuid = string

  /** The HAP service types the abilities use; PowerMeter is the plugin's custom service. */
  datatype ServiceClass =
    | AccessoryInformation
    | Switch
    | Outlet
    | Door
    | Window
    | WindowCovering
    | PowerMeter
    | StatelessProgrammableSwitch
    | ServiceLabel

  /** The characteristics the abilities write; the power readings are custom characteristics. */
  datatype Characteristic =
    | Name | Manufacturer | Model | SerialNumber | FirmwareRevision
    | On | OutletInUse
    | PositionState | CurrentPosition | TargetPosition
    | CurrentConsumption | Voltage | ElectricCurrent | TotalConsumption
    | ServiceLabelIndex | ServiceLabelNamespace | ProgrammableSwitchEvent

  /** Characteristic.PositionState.{DECREASING, INCREASING, STOPPED}. */
  datatype PositionStateValue = Decreasing | Increasing | Stopped

  /** Characteristic.ProgrammableSwitchEvent.{SINGLE_PRESS, DOUBLE_PRESS, LONG_PRESS}. */
  datatype SwitchEventValue = SinglePress | DoublePress | LongPress

  /** Characteristic.ServiceLabelNamespace.{DOTS, ARABIC_NUMERALS}. */
  datatype NamespaceValue = DotsNamespace | ArabicNumeralsNamespace

  datatype Value =
    | BoolValue(b: bool)
    | IntValue(i: int)
    | RealValue(r: real)
    | StringValue(s: string)
    | PositionStateOf(ps: PositionStateValue)
    | SwitchEventOf(press: SwitchEventValue)
    | NamespaceOf(ns: NamespaceValue)

  datatype Perm = Notify | PairedRead | PairedWrite

  /** A HAP service on a platform accessory. */
  class Service {
    const cls: ServiceClass
    const name: Option<string>
    const subtype: Option<string>
    /** The current value of every characteristic the plugin has written. */
    var values: map<Characteristic, Value>
    /** Every value published, in order (each one is a notification to HomeKit). */
    var updates: seq<(Characteristic, Value)>
    /** Characteristics with an `onSet` handler, i.e. writable from HomeKit. */
    var writable: set<Characteristic>
    /** Permissions set explicitly with `setProps`. */
    var perms: map<Characteristic, set<Perm>>

    constructor (cls: ServiceClass, name: Option<string>, subtype: Option<string>)
      ensures this.cls == cls && this.name == name && this.subtype == subtype
      ensures values == map[] && updates == [] && writable == {} && perms == map[]
    {
      this.cls, this.name, this.subtype := cls, name, subtype;
      values, updates, writable, perms := map[], [], {}, map[];
    }

    /** `setCharacteristic(c, v)`, or `getCharacteristic(c).updateValue(v)`. */
    method Set(c: Characteristic, v: Value)
      modifies this`values, this`updates
      ensures values == old(values)[c := v]
      ensures updates == old(updates) + [(c, v)]
    {
      values := values[c := v];
      updates := updates + [(c, v)];
    }

    /** `testCharacteristic(c)`. */
    predicate Has(c: Characteristic)
      reads this`values
    {
      c in values
    }

    /** `removeCharacteristic(getCharacteristic(c))`. */
    method Remove(c: Characteristic)
      modifies this`values, this`writable, this`perms
      ensures values == old(values) - {c}
      ensures writable == old(writable) - {c}
      ensures perms == old(perms) - {c}
    {
      values := values - {c};
      writable := writable - {c};
      perms := perms - {c};
    }

    /** `getCharacteristic(c).onSet(handler)`. */
    method OnSet(c: Characteristic)
      modifies this`writable
      ensures writable == old(writable) + {c}
    {
      writable := writable + {c};
    }

    /** `getCharacteristic(c).setProps({perms: p})`. */
    method SetPerms(c: Characteristic, p: set<Perm>)
      modifies this`perms
      ensures perms == old(perms)[c := p]
    {
      perms := perms[c := p];
    }
  }

  /** The first service in `ss` displayed under the name `n`, or null. */
  function FindNamed(ss: seq<Service>, n: string): (r: Service?)
    ensures r != null ==> r in ss && r.name == Some(n)
    ensures r == null ==> forall s :: s in ss ==> s.name != Some(n)
  {
    if ss == [] then null
    else if ss[0].name == Some(n) then ss[0]
    else FindNamed(ss[1..], n)
  }

  /** The first service in `ss` of type `cls`, or null. */
  function FindOfClass(ss: seq<Service>, cls: ServiceClass): (r: Service?)
    ensures r != null ==> r in ss && r.cls == cls
    ensures r == null ==> forall s :: s in ss ==> s.cls != cls
  {
    if ss == [] then null
    else if ss[0].cls == cls then ss[0]
    else FindOfClass(ss[1..], cls)
  }

  /** `ss` without the first occurrence of `x` (an `indexOf` followed by a `splice`). */
  function RemoveFirst<T(==)>(ss: seq<T>, x: T): (r: seq<T>)
    ensures x !in ss ==> r == ss
    ensures forall y | y in r :: y in ss
    ensures x in ss ==> |r| == |ss| - 1 && multiset(r) == multiset(ss) - multiset{x}
  {
    if ss == [] then []
    else if ss[0] == x then (assert ss == [x] + ss[1..]; ss[1..])
    else (assert ss == [ss[0]] + ss[1..]; [ss[0]] + RemoveFirst(ss[1..], x))
  }

  /** A homebridge platform accessory: one HomeKit accessory and its services. */
  class PlatformAccessory {
    const displayName: string
    const uuid: Uuid
    /** `context.device.id`. */
    const deviceId: string
    var services: seq<Service>

    /** A new accessory carries its AccessoryInformation service from the start. */
    constructor (displayName: string, uuid: Uuid, deviceId: string)
      ensures this.displayName == displayName && this.uuid == uuid && this.deviceId == deviceId
      ensures |services| == 1 && fresh(services[0])
      ensures services[0].cls == AccessoryInformation && services[0].values == map[]
    {
      this.displayName, this.uuid, this.deviceId := displayName, uuid, deviceId;
      var info := new Service(AccessoryInformation, None, None);
      services := [info];
    }

    /** `getService(name)`. */
    function ServiceNamed(n: string): Service?
      reads this`services
    {
      FindNamed(services, n)
    }

    /** `getService(cls)`. */
    function ServiceOfClass(cls: ServiceClass): Service?
      reads this`services
    {
      FindOfClass(services, cls)
    }

    /** Whether a service of type `cls` with subtype `subtype` is present. */
    predicate HasService(cls: ServiceClass, subtype: Option<string>)
      reads this`services
    {
      exists s :: s in services && s.cls == cls && s.subtype == subtype
    }

    /** `addService(cls, name, subtype)`: throws when the type and subtype are already taken. */
    method AddService(cls: ServiceClass, name: Option<string>, subtype: Option<string>) returns (r: Result<Service>)
      modifies this`services
      ensures old(HasService(cls, subtype)) ==> r == Err(ServiceAlreadyExists) && services == old(services)
      ensures !old(HasService(cls, subtype)) ==>
        && r.Ok? && fresh(r.value)
        && r.value.cls == cls && r.value.name == name && r.value.subtype == subtype
        && r.value.values == map[] && r.value.writable == {}
        && services == old(services) + [r.value]
    {
      if HasService(cls, subtype) {
        return Err(ServiceAlreadyExists);
      }
      var s := new Service(cls, name, subtype);
      services := services + [s];
      r := Ok(s);
    }

    /** `removeService(s)`. */
    method RemoveService(s: Service)
      modifies this`services
      ensures services == RemoveFirst(old(services), s)
    {
      services := RemoveFirst(services, s);
    }
  }

  /** The plugin's logger; only whether an ability holds one matters here. */
  class DeviceLogger {
    constructor ()
    {
    }
  }

  /**
   * The platform, as seen by accessories: the accessories restored from the
   * host's cache, and a record of every `addAccessory`/`removeAccessory` call.
   */
  class Platform {
    /** `api.hap.uuid.generate`: a deterministic hash of a string. */
    const generate: string -> Uuid
    var cached: map<Uuid, PlatformAccessory>
    var added: seq<PlatformAccessory>
    var removed: seq<seq<PlatformAccessory>>

    constructor (generate: string -> Uuid, cached: map<Uuid, PlatformAccessory>)
      ensures this.generate == generate && this.cached == cached
      ensures added == [] && removed == []
    {
      this.generate, this.cached := generate, cached;
      added, removed := [], [];
    }

    /** `getAccessory(uuid)`: the cached platform accessory, or null when there is none. */
    function GetAccessory(uuid: Uuid): (r: PlatformAccessory?)
      reads this`cached
      ensures r != null <==> uuid in cached
      ensures r != null ==> r == cached[uuid]
    {
      if uuid in cached then cached[uuid] else null
    }

    /** `addAccessory(pa)`. */
    method AddAccessory(pa: PlatformAccessory)
      modifies this`added
      ensures added == old(added) + [pa]
    {
      added := added + [pa];
    }

    /** `removeAccessory(...pas)`. */
    method RemoveAccessory(pas: seq<PlatformAccessory>)
      modifies this`removed
      ensures removed == old(removed) + [pas]
    {
      removed := removed + [pas];
    }
  }
}
