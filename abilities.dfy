/**
 * The ability base class: an ability owns at most one HomeKit service on a
 * platform accessory, adds it while active and removes it while inactive,
 * once it has been set up. The concrete abilities are the variants of
 * `AbilityKind`; their naming, service class, initialisation and listeners
 * come from their own modules.
 */
module Abilities {
  import opened Common
  import opened Strings
  import opened Host
  import opened Device
  import SwitchAbility
  import OutletAbility
  import CoverAbility
  import PowerMeterAbility
  import ReadonlySwitchAbility
  import StatelessSwitchAbility
  import ServiceLabelAbility
  import AccessoryInformationAbility

  /** The concrete abilities and what each is built from. */
  datatype AbilityKind =
    | SwitchKind(component: Component)
    | OutletKind(component: Component)
    | CoverKind(component: Component, coverType: CoverAbility.CoverType)
    | PowerMeterKind(component: Component)
    | ReadonlySwitchKind(component: Component)
    | StatelessSwitchKind(component: Component)
    | ServiceLabelKind(namespace: string)
    | AccessoryInformationKind(info: DeviceInfo)

  /** Whether the ability belongs to a device component. */
  predicate HasComponent(k: AbilityKind)
  {
    !k.ServiceLabelKind? && !k.AccessoryInformationKind?
  }

  /** The component whose events the ability listens to, as a frame. */
  function Footprint(k: AbilityKind): set<Component>
  {
    if HasComponent(k) then {k.component} else {}
  }

  /** The prefix of the service subtype of a component ability. */
  function SubtypePrefix(k: AbilityKind): (p: string)
    requires HasComponent(k)
    ensures |p| > 0 && p[|p| - 1] == '-'
  {
    match k
    case SwitchKind(_) => "switch-"
    case OutletKind(_) => "outlet-"
    case CoverKind(_, t) => CoverAbility.TypeKey(t) + "-"
    case PowerMeterKind(_) => "power-meter-"
    case ReadonlySwitchKind(_) => "readonly-switch-"
    case StatelessSwitchKind(_) => "stateless-programmable-switch-"
  }

  /** The `serviceName` constructor argument. */
  function ServiceNameOf(k: AbilityKind): Option<string>
  {
    match k
    case SwitchKind(c) => Some(SwitchAbility.ServiceName(c.id))
    case OutletKind(c) => Some(OutletAbility.ServiceName(c.id))
    case CoverKind(c, t) => Some(CoverAbility.ServiceName(t, c.id))
    case PowerMeterKind(c) => Some(PowerMeterAbility.ServiceName(c.id))
    case ReadonlySwitchKind(c) => Some(ReadonlySwitchAbility.ServiceName(c.id))
    case StatelessSwitchKind(c) => Some(StatelessSwitchAbility.ServiceName(c.id))
    case ServiceLabelKind(_) => None
    case AccessoryInformationKind(_) => None
  }

  /** The `serviceSubtype` constructor argument. */
  function ServiceSubtypeOf(k: AbilityKind): (r: Option<string>)
    ensures r.Some? <==> HasComponent(k)
    ensures r.Some? ==> r.value == SubtypePrefix(k) + DecimalString(k.component.id)
  {
    match k
    case SwitchKind(c) => Some(SwitchAbility.ServiceSubtype(c.id))
    case OutletKind(c) => Some(OutletAbility.ServiceSubtype(c.id))
    case CoverKind(c, t) => Some(CoverAbility.ServiceSubtype(t, c.id))
    case PowerMeterKind(c) => Some(PowerMeterAbility.ServiceSubtype(c.id))
    case ReadonlySwitchKind(c) => Some(ReadonlySwitchAbility.ServiceSubtype(c.id))
    case StatelessSwitchKind(c) => Some(StatelessSwitchAbility.ServiceSubtype(c.id))
    case ServiceLabelKind(_) => None
    case AccessoryInformationKind(_) => None
  }

  /** The `serviceClass` getter. */
  function ServiceClassOf(k: AbilityKind): ServiceClass
  {
    match k
    case SwitchKind(_) => Switch
    case OutletKind(_) => Outlet
    case CoverKind(_, t) => CoverAbility.ServiceClassOf(t)
    case PowerMeterKind(_) => PowerMeter
    case ReadonlySwitchKind(_) => Switch
    case StatelessSwitchKind(_) => StatelessProgrammableSwitch
    case ServiceLabelKind(_) => ServiceLabel
    case AccessoryInformationKind(_) => AccessoryInformation
  }

  /**
   * `this.serviceName && this.serviceSubtype`: whether the service is looked
   * up by name (and added with name and subtype) rather than by class.
   */
  predicate Keyed(k: AbilityKind)
  {
    var n, t := ServiceNameOf(k), ServiceSubtypeOf(k);
    n.Some? && n.value != "" && t.Some? && t.value != ""
  }

  /** Component abilities are keyed by name and subtype; the other two go by class alone. */
  lemma KeyedIffComponent(k: AbilityKind)
    ensures Keyed(k) <==> HasComponent(k)
  {
    if HasComponent(k) {
      assert ServiceSubtypeOf(k).value != "";
      assert |ServiceNameOf(k).value| > 0 by {
        match k
        case CoverKind(c, t) => assert |CoverAbility.ServiceName(t, c.id)| >= |CoverAbility.DisplayName(t)| > 0;
        case _ =>
      }
    }
  }

  /** Distinct prefixes belong to distinct kinds of ability. */
  lemma SamePrefixSameVariant(k1: AbilityKind, k2: AbilityKind)
    requires HasComponent(k1) && HasComponent(k2)
    requires SubtypePrefix(k1) == SubtypePrefix(k2)
    ensures k1.SwitchKind? == k2.SwitchKind? && k1.OutletKind? == k2.OutletKind?
    ensures k1.CoverKind? == k2.CoverKind? && k1.PowerMeterKind? == k2.PowerMeterKind?
    ensures k1.ReadonlySwitchKind? == k2.ReadonlySwitchKind?
    ensures k1.StatelessSwitchKind? == k2.StatelessSwitchKind?
    ensures k1.CoverKind? ==> k1.coverType == k2.coverType
  {
    var p1, p2 := SubtypePrefix(k1), SubtypePrefix(k2);
    // the prefixes differ in length or in their first letter
    assert |p1| == |p2| && p1[0] == p2[0];
    if k1.CoverKind? && k2.CoverKind? {
      var t1, t2 := CoverAbility.TypeKey(k1.coverType), CoverAbility.TypeKey(k2.coverType);
      assert t1 == p1[..|p1| - 1] && t2 == p2[..|p2| - 1];
    }
  }

  /**
   * Service subtypes identify the ability: two component abilities with the
   * same subtype are the same variant (and cover type) over components with
   * the same id.
   */
  lemma SubtypeIdentifiesAbility(k1: AbilityKind, k2: AbilityKind)
    requires HasComponent(k1) && HasComponent(k2)
    requires ServiceSubtypeOf(k1) == ServiceSubtypeOf(k2)
    ensures SubtypePrefix(k1) == SubtypePrefix(k2)
    ensures k1.component.id == k2.component.id
    ensures k1.SwitchKind? == k2.SwitchKind? && k1.OutletKind? == k2.OutletKind?
    ensures k1.CoverKind? == k2.CoverKind? && k1.PowerMeterKind? == k2.PowerMeterKind?
    ensures k1.ReadonlySwitchKind? == k2.ReadonlySwitchKind?
    ensures k1.CoverKind? ==> k1.coverType == k2.coverType
  {
    PrefixedNumberInjective(SubtypePrefix(k1), SubtypePrefix(k2), k1.component.id, k2.component.id);
    SamePrefixSameVariant(k1, k2);
  }

  /** The events `detach()` unsubscribes. */
  function DetachEvents(k: AbilityKind): set<Event>
  {
    match k
    case SwitchKind(_) => SwitchAbility.Events
    case OutletKind(_) => OutletAbility.Events
    case CoverKind(_, _) => CoverAbility.Events
    case PowerMeterKind(_) => PowerMeterAbility.Events
    case ReadonlySwitchKind(_) => ReadonlySwitchAbility.Events
    case StatelessSwitchKind(_) => StatelessSwitchAbility.Events
    case ServiceLabelKind(_) => ServiceLabelAbility.Events
    case AccessoryInformationKind(_) => AccessoryInformationAbility.Events
  }

  /** The events `initialize()` subscribes, given the component's current properties. */
  function InitEvents(k: AbilityKind): (es: set<Event>)
    reads Footprint(k)
    ensures es <= DetachEvents(k)
  {
    match k
    case SwitchKind(_) => SwitchAbility.Events
    case OutletKind(_) => OutletAbility.Events
    case CoverKind(c, _) => if c.posControl then CoverAbility.Events else {}
    case PowerMeterKind(c) => PowerMeterAbility.InitEvents(c.voltage, c.current, c.aenergyTotal)
    case ReadonlySwitchKind(_) => ReadonlySwitchAbility.Events
    case StatelessSwitchKind(_) => StatelessSwitchAbility.Events
    case ServiceLabelKind(_) => {}
    case AccessoryInformationKind(_) => {}
  }

  /**
   * `detach()` after `initialize()` takes away every subscription the
   * ability made, whatever subscriptions the component had before.
   */
  lemma {:induction false} DetachUndoesInitialize(before: set<Listener>, init: set<Event>, detach: set<Event>, owner: object)
    requires init <= detach
    ensures (before + ListenersOf(init, owner)) - ListenersOf(detach, owner) == before - ListenersOf(detach, owner)
  {
    forall l | l in ListenersOf(init, owner)
      ensures l in ListenersOf(detach, owner)
    {
      assert l == Listener(l.event, owner);
    }
  }

  /** The subscriptions on `c` that detaching every ability in `abs` takes away. */
  function Unsubscribed(abs: set<Ability>, c: Component): set<Listener>
  {
    set a, e | a in abs && c in Footprint(a.kind) && e in DetachEvents(a.kind) :: Listener(e, a)
  }

  /** Detaching one more ability takes away its own subscriptions on `c`, if it listens to `c`. */
  lemma UnsubscribedAdd(abs: set<Ability>, b: Ability, c: Component)
    ensures Unsubscribed(abs + {b}, c) ==
      Unsubscribed(abs, c) + (if c in Footprint(b.kind) then ListenersOf(DetachEvents(b.kind), b) else {})
  {
    var extra := if c in Footprint(b.kind) then ListenersOf(DetachEvents(b.kind), b) else {};
    forall l | l in extra
      ensures l in Unsubscribed(abs + {b}, c)
    {
      assert l == Listener(l.event, b);
    }
  }

  /** Detaching two groups of abilities takes away the subscriptions of each. */
  lemma UnsubscribedUnion(abs1: set<Ability>, abs2: set<Ability>, c: Component)
    ensures Unsubscribed(abs1 + abs2, c) == Unsubscribed(abs1, c) + Unsubscribed(abs2, c)
  {
  }

  /** What `initialize()` leaves on the service, given the component's current properties. */
  predicate Initialized(k: AbilityKind, s: Service, displayName: string)
    reads s, Footprint(k)
  {
    match k
    case SwitchKind(c) =>
      On in s.values && s.values[On] == BoolValue(c.output) && On in s.writable
    case OutletKind(c) =>
      OutletAbility.InSync(s, c) && On in s.writable
    case CoverKind(c, _) =>
      c.posControl ==> CoverAbility.InSync(s, c) && TargetPosition in s.writable
    case PowerMeterKind(c) =>
      && PowerMeterAbility.Shows(s.values, PowerMeterAbility.ApowerReading, Some(c.apower.GetOr(0.0)))
      && PowerMeterAbility.Shows(s.values, PowerMeterAbility.VoltageReading, c.voltage)
      && PowerMeterAbility.Shows(s.values, PowerMeterAbility.CurrentReading, c.current)
      && PowerMeterAbility.Shows(s.values, PowerMeterAbility.AenergyReading, c.aenergyTotal)
    case ReadonlySwitchKind(c) =>
      && On in s.values && s.values[On] == BoolValue(ReadonlySwitchAbility.StateValue(c.inputState))
      && On in s.perms && s.perms[On] == ReadonlySwitchAbility.ReadOnlyPerms
    case StatelessSwitchKind(c) =>
      ServiceLabelIndex in s.values && s.values[ServiceLabelIndex] == IntValue(c.id + 1)
    case ServiceLabelKind(ns) =>
      && ServiceLabelNamespace in s.values
      && s.values[ServiceLabelNamespace] == NamespaceOf(ServiceLabelAbility.NamespaceFor(ns))
    case AccessoryInformationKind(info) =>
      && Name in s.values && s.values[Name] == StringValue(displayName)
      && Host.Manufacturer in s.values && s.values[Host.Manufacturer] == StringValue(AccessoryInformationAbility.Manufacturer)
      && Model in s.values && s.values[Model] == StringValue(info.modelName)
      && SerialNumber in s.values && s.values[SerialNumber] == StringValue(info.macAddress)
      && FirmwareRevision in s.values
      && s.values[FirmwareRevision] == StringValue(AccessoryInformationAbility.FirmwareRevisionOf(info.firmwareVersion))
  }

  /** The services of `pa`, as a frame. */
  function ServicesOf(pa: PlatformAccessory?): set<Service>
    reads pa
  {
    if pa == null then {} else set s | s in pa.services
  }

  class Ability {
    const kind: AbilityKind
    var active: bool
    var platformAccessory: PlatformAccessory?
    var platform: Platform?
    var log: DeviceLogger?
    var service: Service?

    /** A new ability is active and holds no references. */
    constructor (kind: AbilityKind)
      ensures this.kind == kind && active
      ensures platformAccessory == null && platform == null && log == null && service == null
    {
      this.kind := kind;
      active := true;
      platformAccessory, platform, log, service := null, null, null, null;
    }

    /** The `platformAccessory` getter, which throws before setup and after destroy. */
    function GetPlatformAccessory(): (r: Result<PlatformAccessory>)
      reads this`platformAccessory
      ensures r.Ok? <==> platformAccessory != null
      ensures r.Ok? ==> r.value == platformAccessory
      ensures r.Err? ==> r.error == NotSetUp
    {
      if platformAccessory == null then Err(NotSetUp) else Ok(platformAccessory)
    }

    /** The `platform` getter. */
    function GetPlatform(): (r: Result<Platform>)
      reads this`platform
      ensures r.Ok? <==> platform != null
      ensures r.Ok? ==> r.value == platform
      ensures r.Err? ==> r.error == NotSetUp
    {
      if platform == null then Err(NotSetUp) else Ok(platform)
    }

    /** The `log` getter. */
    function GetLog(): (r: Result<DeviceLogger>)
      reads this`log
      ensures r.Ok? <==> log != null
      ensures r.Ok? ==> r.value == log
      ensures r.Err? ==> r.error == NotSetUp
    {
      if log == null then Err(NotSetUp) else Ok(log)
    }

    /** The `service` getter. */
    function GetService(): (r: Result<Service>)
      reads this`service
      ensures r.Ok? <==> service != null
      ensures r.Ok? ==> r.value == service
      ensures r.Err? ==> r.error == NotSetUp
    {
      if service == null then Err(NotSetUp) else Ok(service)
    }

    /** The service of `pa` this ability would take over: found by name when keyed, by class otherwise. */
    function Existing(pa: PlatformAccessory): (r: Service?)
      reads pa`services
      ensures r != null ==> r in pa.services
      ensures r != null && Keyed(kind) ==> r.name == ServiceNameOf(kind)
      ensures r != null && !Keyed(kind) ==> r.cls == ServiceClassOf(kind)
    {
      if Keyed(kind) then pa.ServiceNamed(ServiceNameOf(kind).value)
      else pa.ServiceOfClass(ServiceClassOf(kind))
    }

    /**
     * `addService()`: reuses the existing service when there is one and adds
     * a new one otherwise (with name and subtype when keyed), so it never
     * adds a second service of its own. The host refuses a new service
     * whose type and subtype are taken.
     */
    method AddService(pa: PlatformAccessory) returns (r: Result<Service>)
      modifies pa`services
      ensures old(Existing(pa)) != null ==> r == Ok(old(Existing(pa))) && pa.services == old(pa.services)
      ensures r.Err? <==> old(Existing(pa)) == null && Keyed(kind) && old(pa.HasService(ServiceClassOf(kind), ServiceSubtypeOf(kind)))
      ensures r.Err? ==> r.error == ServiceAlreadyExists && pa.services == old(pa.services)
      ensures r.Ok? ==> r.value in pa.services
      ensures r.Ok? && old(Existing(pa)) == null ==>
        && fresh(r.value) && pa.services == old(pa.services) + [r.value]
        && r.value.cls == ServiceClassOf(kind) && r.value.values == map[] && r.value.writable == {}
        && (Keyed(kind) ==> r.value.name == ServiceNameOf(kind) && r.value.subtype == ServiceSubtypeOf(kind))
        && (!Keyed(kind) ==> r.value.name == None && r.value.subtype == None)
    {
      var found := Existing(pa);
      if found != null {
        return Ok(found);
      }
      if Keyed(kind) {
        r := pa.AddService(ServiceClassOf(kind), ServiceNameOf(kind), ServiceSubtypeOf(kind));
      } else {
        assert !pa.HasService(ServiceClassOf(kind), None);
        r := pa.AddService(ServiceClassOf(kind), None, None);
      }
    }

    /** The service `removeService()` removes: the held one, else the existing one. */
    function RemovalTarget(pa: PlatformAccessory): Service?
      reads this`service, pa`services
    {
      if service != null then service else Existing(pa)
    }

    /**
     * `removeService()`: removes the held service, or, when none is held, the
     * one a cached accessory may carry from an earlier run.
     */
    method RemoveService(pa: PlatformAccessory)
      modifies pa`services
      ensures old(RemovalTarget(pa)) == null ==> pa.services == old(pa.services)
      ensures old(RemovalTarget(pa)) != null ==> pa.services == RemoveFirst<Service>(old(pa.services), old(RemovalTarget(pa)))
      ensures old(RemovalTarget(pa)) != null && old(RemovalTarget(pa)) in old(pa.services) ==>
        |pa.services| == |old(pa.services)| - 1
    {
      var target := RemovalTarget(pa);
      if target != null {
        pa.RemoveService(target);
      }
    }

    /** `initialize()`, dispatched to the concrete ability. */
    method Initialize(s: Service, displayName: string)
      modifies s, Footprint(kind)
      ensures Initialized(kind, s, displayName)
      ensures forall c | c in Footprint(kind) :: c.listeners == old(c.listeners) + ListenersOf(InitEvents(kind), this)
    {
      match kind
      case SwitchKind(c) => SwitchAbility.Initialize(s, c, this);
      case OutletKind(c) => OutletAbility.Initialize(s, c, this);
      case CoverKind(c, _) => CoverAbility.Initialize(s, c, this);
      case PowerMeterKind(c) => PowerMeterAbility.Initialize(s, c, this);
      case ReadonlySwitchKind(c) => ReadonlySwitchAbility.Initialize(s, c, this);
      case StatelessSwitchKind(c) => StatelessSwitchAbility.Initialize(s, c, this);
      case ServiceLabelKind(ns) => ServiceLabelAbility.Initialize(s, ns);
      case AccessoryInformationKind(info) => AccessoryInformationAbility.Initialize(s, displayName, info);
    }

    /** `detach()`: unsubscribes every handler of the concrete ability. */
    method Detach()
      modifies Footprint(kind)
      ensures forall c | c in Footprint(kind) :: c.listeners == old(c.listeners) - ListenersOf(DetachEvents(kind), this)
    {
      if HasComponent(kind) {
        kind.component.Off(DetachEvents(kind), this);
      }
    }

    /**
     * The effect of `update()` on a set-up ability whose platform accessory
     * is `pa`: while active, a service is obtained and initialised only if
     * none is held (a held one is kept untouched); while inactive, listeners
     * are detached if a service was held, the matching service is removed,
     * and none is held. On success a service is held exactly when active.
     */
    twostate predicate UpdatedOn(pa: PlatformAccessory, r: Outcome)
      reads this, pa, Footprint(kind), set x: Service | x in pa.services
    {
      && (r.Pass? ==> (service != null <==> active))
      && (active && old(service) != null ==>
          && r == Pass && service == old(service)
          && pa.services == old(pa.services) && unchanged(Footprint(kind)))
      && (active && old(service) == null && r.Pass? ==>
          && service in pa.services
          && Initialized(kind, service, pa.displayName)
          && (forall c | c in Footprint(kind) :: c.listeners == old(c.listeners) + ListenersOf(InitEvents(kind), this))
          && (old(Existing(pa)) != null ==> service == old(Existing(pa)) && pa.services == old(pa.services))
          && (old(Existing(pa)) == null ==> fresh(service) && pa.services == old(pa.services) + [service]))
      && (r.Fail? ==>
          && active && old(service) == null && service == null
          && r.error == ServiceAlreadyExists && Keyed(kind) && old(Existing(pa)) == null
          && pa.services == old(pa.services) && unchanged(Footprint(kind)))
      && (!active ==>
          && r == Pass && service == null
          && (old(RemovalTarget(pa)) == null ==> pa.services == old(pa.services))
          && (old(RemovalTarget(pa)) != null ==> pa.services == RemoveFirst<Service>(old(pa.services), old(RemovalTarget(pa))))
          && (old(service) != null ==>
                forall c | c in Footprint(kind) :: c.listeners == old(c.listeners) - ListenersOf(DetachEvents(kind), this))
          && (old(service) == null ==> unchanged(Footprint(kind))))
    }

    /** The active branch of `update()`: obtains and initialises a service when none is held. */
    method Acquire(pa: PlatformAccessory) returns (r: Outcome)
      requires active
      modifies this`service, pa, ServicesOf(pa), Footprint(kind)
      ensures UpdatedOn(pa, r)
      ensures forall x: Service | x in old(ServicesOf(pa)) && x != service :: unchanged(x)
      ensures forall x | x in pa.services :: x in old(pa.services) || fresh(x)
    {
      if service != null {
        return Pass;
      }
      var got := AddService(pa);
      if got.Err? {
        return Fail(got.error);
      }
      service := got.value;
      Initialize(got.value, pa.displayName);
      return Pass;
    }

    /** The inactive branch of `update()`: detaches if a service is held and removes the service. */
    method Release(pa: PlatformAccessory)
      requires !active
      modifies this`service, pa`services, Footprint(kind)
      ensures UpdatedOn(pa, Pass)
      ensures forall x | x in pa.services :: x in old(pa.services)
    {
      if service != null {
        Detach();
      }
      RemoveService(pa);
      service := null;
    }

    /**
     * `update()`: does nothing before `setup()` (or after `destroy()`),
     * and otherwise has the effect `UpdatedOn` describes.
     */
    method Update() returns (r: Outcome)
      modifies this`service, platformAccessory, ServicesOf(platformAccessory), Footprint(kind)
      ensures platformAccessory == null ==> r == Pass && service == old(service) && unchanged(Footprint(kind))
      ensures platformAccessory != null ==> UpdatedOn(platformAccessory, r)
      ensures forall x: Service | x in old(ServicesOf(platformAccessory)) && x != service :: unchanged(x)
      ensures platformAccessory != null ==> forall x | x in platformAccessory.services :: x in old(platformAccessory.services) || fresh(x)
    {
      if platformAccessory == null {
        return Pass;
      }
      if active {
        r := Acquire(platformAccessory);
      } else {
        Release(platformAccessory);
        r := Pass;
      }
    }

    /**
     * `setup(platformAccessory, platform, log)`: records the three
     * references, then updates; a failure to add the service propagates.
     */
    method Setup(pa: PlatformAccessory, platform: Platform, log: DeviceLogger) returns (r: Outcome)
      modifies this`platformAccessory, this`platform, this`log, this`service, pa, ServicesOf(pa), Footprint(kind)
      ensures platformAccessory == pa && this.platform == platform && this.log == log
      ensures UpdatedOn(pa, r)
      ensures forall x: Service | x in old(ServicesOf(pa)) && x != service :: unchanged(x)
      ensures forall x | x in pa.services :: x in old(pa.services) || fresh(x)
    {
      this.platformAccessory, this.platform, this.log := pa, platform, log;
      r := Update();
    }

    /**
     * `setActive(value)` (the `active` setter): assigning the current value
     * changes nothing; a new value is stored and, once set up, applied by
     * `update()`.
     */
    method SetActive(value: bool) returns (r: Outcome)
      modifies this`active, this`service, platformAccessory, ServicesOf(platformAccessory), Footprint(kind)
      ensures active == value
      ensures value == old(active) || platformAccessory == null ==>
        && r == Pass && service == old(service) && unchanged(Footprint(kind))
        && (platformAccessory != null ==> platformAccessory.services == old(platformAccessory.services))
      ensures value != old(active) && platformAccessory != null ==> UpdatedOn(platformAccessory, r)
      ensures forall x: Service | x in old(ServicesOf(platformAccessory)) && x != service :: unchanged(x)
      ensures platformAccessory != null ==> forall x | x in platformAccessory.services :: x in old(platformAccessory.services) || fresh(x)
    {
      if value == active {
        return Pass;
      }
      active := value;
      r := Update();
    }

    /**
     * `destroy()`: detaches every listener and forgets all four references,
     * so every getter throws afterwards; the service itself stays on the
     * platform accessory.
     */
    method Destroy()
      modifies this`platformAccessory, this`platform, this`log, this`service, Footprint(kind)
      ensures platformAccessory == null && platform == null && log == null && service == null
      ensures GetPlatformAccessory() == Err(NotSetUp) && GetPlatform() == Err(NotSetUp)
      ensures GetLog() == Err(NotSetUp) && GetService() == Err(NotSetUp)
      ensures forall c | c in Footprint(kind) :: c.listeners == old(c.listeners) - ListenersOf(DetachEvents(kind), this)
      ensures old(platformAccessory) != null ==> old(platformAccessory).services == old(platformAccessory.services)
    {
      Detach();
      platformAccessory, platform, log, service := null, null, null, null;
    }
  }
}
