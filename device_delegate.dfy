/**
 * A device delegate: the accessories of one device, the builders that make
 * switch and cover accessories with exactly one type variant active, the
 * connection state kept from the device's RPC handler, and teardown.
 */
module DeviceDelegates {
  import opened Common
  import opened Strings
  import opened Host
  import opened Device
  import opened Config
  import opened Abilities
  import opened Accessories
  import CoverAbility

  /** The name of an accessory: the configured name, else the model name, then the suffix if any. */
  function AccessoryName(optName: Option<string>, modelName: string, suffix: Option<string>): (n: string)
    ensures var base := if optName.Some? && optName.value != "" then optName.value else modelName;
      && |base| <= |n| && n[..|base|] == base
      && (|n| == |base| <==> suffix.None? || suffix.value == "")
      && (|n| != |base| ==> n[|base|..] == " " + suffix.value)
  {
    var base := if optName.Some? && optName.value != "" then optName.value else modelName;
    if suffix.Some? && suffix.value != "" then base + " " + suffix.value else base
  }

  /** The accessory ID of a switch: `switch` on single-switch devices, else `switch-<id>`. */
  function SwitchAccessoryId(single: Option<bool>, id: nat): (r: string)
    ensures r == "switch" <==> single == Some(true)
    ensures single != Some(true) ==> r == "switch-" + DecimalString(id)
  {
    if single == Some(true) then "switch" else "switch-" + DecimalString(id)
  }

  /** The accessory name suffix of a switch: none on single-switch devices, else `Switch <id+1>`. */
  function SwitchNameSuffix(single: Option<bool>, id: nat): (r: Option<string>)
    ensures r.None? <==> single == Some(true)
    ensures r.Some? ==> r.value == "Switch " + DecimalString(id + 1)
  {
    if single == Some(true) then None else Some("Switch " + DecimalString(id + 1))
  }

  /** Two switches of one multi-switch device get distinct accessory IDs exactly when their component IDs differ. */
  lemma SwitchAccessoryIdsDistinct(single: Option<bool>, id1: nat, id2: nat)
    requires single != Some(true)
    ensures SwitchAccessoryId(single, id1) == SwitchAccessoryId(single, id2) <==> id1 == id2
  {
    if SwitchAccessoryId(single, id1) == SwitchAccessoryId(single, id2) {
      PrefixedNumberInjective("switch-", "switch-", id1, id2);
    }
  }

  /** No switch accessory takes the cover accessory's ID. */
  lemma CoverIdIsNotASwitchId(single: Option<bool>, id: nat)
    ensures SwitchAccessoryId(single, id) != "cover"
  {
    assert SwitchAccessoryId(single, id)[0] == 's';
  }

  /** The configured switch type, lower-cased, or `switch` when none is configured. */
  function SwitchTypeOf(opts: Option<ComponentOptions>): (t: string)
    ensures opts.None? || opts.value.typeName.None? ==> t == "switch"
    ensures opts.Some? && opts.value.typeName.Some? ==>
      t == ToLower(opts.value.typeName.value) && ToUpper(t) == ToUpper(opts.value.typeName.value)
  {
    if opts.Some? && opts.value.typeName.Some? then
      ToUpperIgnoresCase(opts.value.typeName.value);
      ToLower(opts.value.typeName.value)
    else "switch"
  }

  /** A switch is shown as an outlet when its type is `outlet` in any letter case. */
  predicate IsOutlet(opts: Option<ComponentOptions>)
  {
    SwitchTypeOf(opts) == "outlet"
  }

  /**
   * A switch is an outlet exactly when its configured type lower-cases to
   * `outlet`; without a configured type, a switch is never an outlet.
   */
  lemma OutletNeedsType(opts: Option<ComponentOptions>)
    ensures IsOutlet(opts) <==>
      opts.Some? && opts.value.typeName.Some? && ToLower(opts.value.typeName.value) == "outlet"
    ensures opts.None? || opts.value.typeName.None? ==> !IsOutlet(opts)
  {
  }

  /** The configured cover type, with window as the default for an absent or unrecognised type. */
  function CoverTypeOf(opts: Option<ComponentOptions>): (t: CoverAbility.CoverType)
    ensures t == CoverAbility.DoorType <==>
      opts.Some? && opts.value.typeName.Some? && ToLower(opts.value.typeName.value) == "door"
    ensures t == CoverAbility.WindowCoveringType <==>
      opts.Some? && opts.value.typeName.Some? && ToLower(opts.value.typeName.value) == "windowcovering"
  {
    var name := if opts.Some? && opts.value.typeName.Some? then ToLower(opts.value.typeName.value) else "window";
    if name == "door" then CoverAbility.DoorType
    else if name == "windowcovering" then CoverAbility.WindowCoveringType
    else CoverAbility.WindowType
  }

  /** A built accessory is active unless the component is excluded or the caller asks for inactive. */
  predicate AccessoryActive(opts: Option<ComponentOptions>, active: Option<bool>)
  {
    !(opts.Some? && opts.value.exclude == Some(true)) && active != Some(false)
  }

  /** The unit a reconnect delay is reported in. */
  datatype TimeUnit = Seconds | Minutes | Hours

  datatype Delay = Delay(amount: int, unit: TimeUnit)

  function UnitMs(u: TimeUnit): (ms: nat)
    ensures ms > 0
  {
    match u
    case Seconds => 1000
    case Minutes => 60 * 1000
    case Hours => 60 * 60 * 1000
  }

  /**
   * The reconnect delay as reported: whole seconds below a minute, whole
   * minutes below an hour, else whole hours, each rounded down. With a
   * positive divisor, `/` rounds down like `Math.floor` for negative
   * delays too.
   */
  function ReconnectDelay(ms: int): (d: Delay)
    ensures d.unit == Seconds <==> ms < 60 * 1000
    ensures d.unit == Minutes <==> 60 * 1000 <= ms < 60 * 60 * 1000
    ensures d.amount * UnitMs(d.unit) <= ms < (d.amount + 1) * UnitMs(d.unit)
  {
    if ms < 60 * 1000 then Delay(ms / 1000, Seconds)
    else if ms < 60 * 60 * 1000 then Delay(ms / (60 * 1000), Minutes)
    else Delay(ms / (60 * 60 * 1000), Hours)
  }

  /** A non-negative delay is reported as 0-59 seconds, 1-59 minutes or at least one hour. */
  lemma ReconnectDelayBounds(ms: int)
    requires ms >= 0
    ensures var d := ReconnectDelay(ms);
      && (d.unit == Seconds ==> 0 <= d.amount < 60)
      && (d.unit == Minutes ==> 1 <= d.amount < 60)
      && (d.unit == Hours ==> d.amount >= 1)
  {
    var d := ReconnectDelay(ms);
    if d.unit == Seconds {
      assert d.amount * 1000 <= ms < (d.amount + 1) * 1000;
    } else if d.unit == Minutes {
      assert d.amount * 60000 <= ms < (d.amount + 1) * 60000;
    } else {
      assert ms < (d.amount + 1) * 3600000;
    }
  }

  /** The handlers a delegate registers on its device's RPC handler. */
  function RpcListenersOf(context: object): (r: set<RpcListener>)
    ensures |r| == 3 && forall l | l in r :: l.context == context
  {
    var r := {RpcListener(Connect, context), RpcListener(Disconnect, context), RpcListener(Request, context)};
    assert RpcListener(Connect, context) != RpcListener(Disconnect, context);
    assert RpcListener(Connect, context) != RpcListener(Request, context);
    assert RpcListener(Disconnect, context) != RpcListener(Request, context);
    r
  }

  /**
   * A new ability of the given kind whose `active` was then set; nothing is
   * set up yet. On an ability that is not set up the setter only stores the
   * value (see `Ability.SetActive`), which is the assignment here.
   */
  method NewAbility(kind: AbilityKind, active: bool) returns (a: Ability)
    ensures fresh(a) && a.kind == kind && a.active == active
    ensures a.platformAccessory == null && a.service == null
  {
    a := new Ability(kind);
    a.active := active;
  }

  /** The outlet, switch and power meter abilities `addSwitch` gives a switch, with their `active` flags set. */
  method SwitchAbilities(swtch: Component, isOutlet: bool) returns (abs: seq<Ability>)
    ensures |abs| == 3
    ensures forall a | a in abs :: fresh(a) && a.platformAccessory == null
    ensures abs[0].kind == OutletKind(swtch) && abs[0].active == isOutlet
    ensures abs[1].kind == SwitchKind(swtch) && abs[1].active == !isOutlet
    ensures abs[2].kind == PowerMeterKind(swtch) && abs[2].active == swtch.apower.Some?
  {
    var outlet := NewAbility(OutletKind(swtch), isOutlet);
    var sw := NewAbility(SwitchKind(swtch), !isOutlet);
    var meter := NewAbility(PowerMeterKind(swtch), swtch.apower.Some?);
    abs := [outlet, sw, meter];
  }

  /** The door, window covering, window and power meter abilities `addCover` gives a cover; only the abilities of type `t` and the power meter are active. */
  method CoverAbilities(cover: Component, t: CoverAbility.CoverType) returns (abs: seq<Ability>)
    ensures |abs| == 4
    ensures forall a | a in abs :: fresh(a) && a.platformAccessory == null
    ensures abs[0].kind == CoverKind(cover, CoverAbility.DoorType)
    ensures abs[1].kind == CoverKind(cover, CoverAbility.WindowCoveringType)
    ensures abs[2].kind == CoverKind(cover, CoverAbility.WindowType)
    ensures forall i | 0 <= i < 3 :: abs[i].active <==> abs[i].kind.coverType == t
    ensures abs[3].kind == PowerMeterKind(cover) && abs[3].active
  {
    var door := NewAbility(CoverKind(cover, CoverAbility.DoorType), t == CoverAbility.DoorType);
    var covering := NewAbility(CoverKind(cover, CoverAbility.WindowCoveringType), t == CoverAbility.WindowCoveringType);
    var window := NewAbility(CoverKind(cover, CoverAbility.WindowType), t == CoverAbility.WindowType);
    var meter := NewAbility(PowerMeterKind(cover), true);
    abs := [door, covering, window, meter];
  }

  class DeviceDelegate {
    const device: Device
    const options: DeviceOptions
    const platform: Platform
    const log: DeviceLogger
    /** The accessories by ID. */
    var accessories: map<string, Accessory>
    /** The accessory IDs in insertion order, the order a `Map` iterates in. */
    var order: seq<string>
    /** Whether a connection was established when the RPC handler reports a disconnect. */
    var connected: bool

    /** `order` lists each accessory ID once. */
    ghost predicate Valid()
      reads this`accessories, this`order
    {
      && (forall id :: id in accessories <==> id in order)
      && (forall i, j | 0 <= i < j < |order| :: order[i] != order[j])
    }

    ghost function AccessorySet(): set<Accessory>
      reads this`accessories
    {
      accessories.Values
    }

    /** The components every ability of every accessory listens to. */
    ghost function AllComponents(): set<Component>
      reads this`accessories
    {
      set a, c | a in accessories.Values && c in a.Components() :: c
    }

    /**
     * The delegate starts with no accessories, takes `connected` from the
     * RPC handler and subscribes to its connect, disconnect and request
     * events. The model-specific setup runs next, in the per-model modules.
     */
    constructor (device: Device, options: DeviceOptions, platform: Platform)
      modifies device`rpcListeners
      ensures this.device == device && this.options == options && this.platform == platform
      ensures accessories == map[] && order == [] && Valid()
      ensures connected == device.connected
      ensures device.rpcListeners == old(device.rpcListeners) + RpcListenersOf(this)
    {
      this.device, this.options, this.platform := device, options, platform;
      log := new DeviceLogger();
      accessories, order := map[], [];
      connected := device.connected;
      new;
      device.rpcListeners := device.rpcListeners + RpcListenersOf(this);
    }

    /** `getComponentOptions(component)`: the options stored under the component's key. */
    function ComponentOptionsOf(c: Component): (r: Option<ComponentOptions>)
      ensures r.Some? <==> c.key in options.components
      ensures r.Some? ==> r.value == options.components[c.key]
    {
      if c.key in options.components then Some(options.components[c.key]) else None
    }

    /** The name an accessory with the given suffix gets. */
    function NameFor(suffix: Option<string>): string
    {
      AccessoryName(options.name, device.modelName, suffix)
    }

    /**
     * `createAccessory(id, nameSuffix, ...abilities)`: an existing ID is an
     * error that changes nothing; otherwise a new accessory, with an
     * AccessoryInformation ability first, is stored under exactly that ID.
     */
    method CreateAccessory(id: string, suffix: Option<string>, abilities: seq<Ability>) returns (r: Result<Accessory>)
      requires Valid()
      modifies this`accessories, this`order
      ensures Valid()
      ensures r.Err? <==> id in old(accessories)
      ensures r.Err? ==> r.error == DuplicateAccessory(id) && accessories == old(accessories) && order == old(order)
      ensures r.Ok? ==>
        && fresh(r.value) && |r.value.abilities| == |abilities| + 1 && fresh(r.value.abilities[0])
        && accessories == old(accessories)[id := r.value] && order == old(order) + [id]
        && r.value.id == id && r.value.deviceId == device.id && r.value.name == NameFor(suffix)
        && r.value.platform == platform && r.value.active && r.value.pending
        && r.value.platformAccessory == platform.GetAccessory(r.value.uuid)
        && r.value.abilities == [r.value.abilities[0]] + abilities
        && r.value.abilities[0].kind == AccessoryInformationKind(device.Info())
        && r.value.abilities[0].active && r.value.abilities[0].platformAccessory == null
    {
      if id in accessories {
        return Err(DuplicateAccessory(id));
      }
      var info := new Ability(AccessoryInformationKind(device.Info()));
      var acc := new Accessory(id, device.id, NameFor(suffix), platform, log, [info] + abilities);
      accessories := accessories[id := acc];
      order := order + [id];
      r := Ok(acc);
    }

    /** What `addSwitch` builds for a switch component. */
    predicate SwitchBuilt(acc: Accessory, swtch: Component, single: Option<bool>, active: Option<bool>)
      reads acc, acc.AbilitySet(), swtch`apower
    {
      var opts := ComponentOptionsOf(swtch);
      && acc.id == SwitchAccessoryId(single, swtch.id)
      && acc.name == NameFor(SwitchNameSuffix(single, swtch.id))
      && |acc.abilities| == 4
      && acc.abilities[0].kind == AccessoryInformationKind(device.Info())
      && acc.abilities[1].kind == OutletKind(swtch)
      && acc.abilities[2].kind == SwitchKind(swtch)
      && acc.abilities[3].kind == PowerMeterKind(swtch)
      && acc.abilities[0].active
      && (acc.abilities[1].active <==> IsOutlet(opts))
      && (acc.abilities[2].active <==> !IsOutlet(opts))
      && (acc.abilities[3].active <==> swtch.apower.Some?)
      && (acc.active <==> AccessoryActive(opts, active))
    }

    /**
     * `addSwitch(swtch, {single, active})`: an accessory with outlet, switch
     * and power meter abilities, of which exactly one of outlet and switch
     * is active.
     */
    method AddSwitch(swtch: Component, single: Option<bool>, active: Option<bool>) returns (r: Result<Accessory>)
      requires Valid()
      modifies this`accessories, this`order
      ensures Valid()
      ensures r.Err? <==> SwitchAccessoryId(single, swtch.id) in old(accessories)
      ensures r.Err? ==> accessories == old(accessories) && order == old(order)
      ensures r.Ok? ==>
        && fresh(r.value) && SwitchBuilt(r.value, swtch, single, active)
        && accessories == old(accessories)[r.value.id := r.value]
        && order == old(order) + [r.value.id]
    {
      var opts := ComponentOptionsOf(swtch);
      var isOutlet := IsOutlet(opts);
      var abs := SwitchAbilities(swtch, isOutlet);
      r := CreateAccessory(SwitchAccessoryId(single, swtch.id), SwitchNameSuffix(single, swtch.id), abs);
      if r.Ok? {
        r.value.SetActive(AccessoryActive(opts, active));
      }
    }

    /** What `addCover` builds for a cover component. */
    predicate CoverBuilt(acc: Accessory, cover: Component, active: Option<bool>)
      reads acc, acc.AbilitySet()
    {
      var opts := ComponentOptionsOf(cover);
      && acc.id == "cover"
      && acc.name == NameFor(Some("Cover"))
      && |acc.abilities| == 5
      && acc.abilities[0].kind == AccessoryInformationKind(device.Info())
      && acc.abilities[1].kind == CoverKind(cover, CoverAbility.DoorType)
      && acc.abilities[2].kind == CoverKind(cover, CoverAbility.WindowCoveringType)
      && acc.abilities[3].kind == CoverKind(cover, CoverAbility.WindowType)
      && acc.abilities[4].kind == PowerMeterKind(cover)
      && acc.abilities[0].active && acc.abilities[4].active
      && (acc.abilities[1].active <==> CoverTypeOf(opts) == CoverAbility.DoorType)
      && (acc.abilities[2].active <==> CoverTypeOf(opts) == CoverAbility.WindowCoveringType)
      && (acc.abilities[3].active <==> CoverTypeOf(opts) == CoverAbility.WindowType)
      && (acc.active <==> AccessoryActive(opts, active))
    }

    /**
     * `addCover(cover, {active})`: an accessory with door, window covering
     * and window abilities, of which exactly the configured one is active,
     * and an active power meter.
     */
    method AddCover(cover: Component, active: Option<bool>) returns (r: Result<Accessory>)
      requires Valid()
      modifies this`accessories, this`order
      ensures Valid()
      ensures r.Err? <==> "cover" in old(accessories)
      ensures r.Err? ==> accessories == old(accessories) && order == old(order)
      ensures r.Ok? ==>
        && fresh(r.value) && CoverBuilt(r.value, cover, active)
        && accessories == old(accessories)["cover" := r.value]
        && order == old(order) + ["cover"]
    {
      var opts := ComponentOptionsOf(cover);
      var abs := CoverAbilities(cover, CoverTypeOf(opts));
      r := CreateAccessory("cover", Some("Cover"), abs);
      if r.Ok? {
        r.value.SetActive(AccessoryActive(opts, active));
      }
    }

    /** `handleConnect()`. */
    method HandleConnect()
      modifies this`connected
      ensures connected
    {
      connected := true;
    }

    /**
     * `handleDisconnect(code, reason, reconnectIn)`: reports whether an
     * established connection was lost (rather than a connection attempt
     * failing) and, when a reconnect is scheduled, its delay.
     */
    method HandleDisconnect(code: int, reason: string, reconnectIn: Option<int>) returns (lost: bool, delay: Option<Delay>)
      modifies this`connected
      ensures !connected && lost == old(connected)
      ensures delay.Some? <==> reconnectIn.Some?
      ensures delay.Some? ==> delay.value == ReconnectDelay(reconnectIn.value)
    {
      lost := connected;
      delay := if reconnectIn.Some? then Some(ReconnectDelay(reconnectIn.value)) else None;
      connected := false;
    }

    /** Every ability of every accessory. */
    ghost function AllAbilities(): set<Ability>
      reads this`accessories
    {
      set a, b | a in accessories.Values && b in a.abilities :: b
    }

    /**
     * `detach()`: unsubscribes from the RPC handler and detaches every
     * accessory. Each component loses exactly the subscriptions of the
     * abilities that listen to it and keeps every other one, and no
     * transition is pending; accessories stay active and keep their
     * platform accessories.
     */
    method Detach()
      requires Valid()
      modifies device`rpcListeners, AccessorySet(), AllComponents()
      ensures device.rpcListeners == old(device.rpcListeners) - RpcListenersOf(this)
      ensures forall a | a in accessories.Values ::
        && !a.pending && a.active == old(a.active) && a.platformAccessory == old(a.platformAccessory)
      ensures forall c | c in AllComponents() :: c.listeners == old(c.listeners) - Unsubscribed(AllAbilities(), c)
      ensures forall a, b, c | a in accessories.Values && b in a.abilities && c in Footprint(b.kind) ::
        c.listeners !! ListenersOf(DetachEvents(b.kind), b)
    {
      device.rpcListeners := device.rpcListeners - RpcListenersOf(this);
      DetachAccessories();
      forall a, b, c | a in accessories.Values && b in a.abilities && c in Footprint(b.kind)
        ensures c.listeners !! ListenersOf(DetachEvents(b.kind), b)
      {
        assert c in a.Components() && b in AllAbilities();
        forall l | l in ListenersOf(DetachEvents(b.kind), b)
          ensures l in Unsubscribed(AllAbilities(), c)
        {
          assert l == Listener(l.event, b);
        }
      }
    }

    /** Detaches every accessory in insertion order. */
    method DetachAccessories()
      requires Valid()
      modifies AccessorySet(), AllComponents()
      ensures forall a | a in accessories.Values ::
        && !a.pending && a.active == old(a.active) && a.platformAccessory == old(a.platformAccessory)
      ensures forall c | c in AllComponents() :: c.listeners == old(c.listeners) - Unsubscribed(AllAbilities(), c)
    {
      ghost var done: set<Ability> := {};
      for k := 0 to |order|
        invariant forall i | 0 <= i < k :: !accessories[order[i]].pending
        invariant forall a | a in accessories.Values ::
          a.active == old(a.active) && a.platformAccessory == old(a.platformAccessory)
        invariant forall i, b | 0 <= i < k && b in accessories[order[i]].abilities :: b in done
        invariant done <= AllAbilities()
        invariant forall c | c in AllComponents() :: c.listeners == old(c.listeners) - Unsubscribed(done, c)
      {
        var acc := accessories[order[k]];
        DetachAccessory(acc, AllComponents());
        forall c | c in AllComponents()
          ensures c.listeners == old(c.listeners) - Unsubscribed(done + acc.AbilitySet(), c)
        {
          UnsubscribedUnion(done, acc.AbilitySet(), c);
        }
        done := done + acc.AbilitySet();
      }
      forall a | a in accessories.Values
        ensures !a.pending
      {
        var id :| id in accessories && accessories[id] == a;
      }
      forall b | b in AllAbilities()
        ensures b in done
      {
        var a :| a in accessories.Values && b in a.abilities;
        var id :| id in accessories && accessories[id] == a;
      }
    }

    /** Detaches one accessory; components it does not listen to keep all their subscriptions. */
    method DetachAccessory(acc: Accessory, ghost comps: set<Component>)
      modifies acc`pending, acc.Components()
      ensures !acc.pending
      ensures forall c | c in comps :: c.listeners == old(c.listeners) - Unsubscribed(acc.AbilitySet(), c)
    {
      acc.Detach();
      forall c | c in comps && c !in acc.Components()
        ensures Unsubscribed(acc.AbilitySet(), c) == {}
      {
        acc.UnsubscribedOutside(c);
      }
    }

    /** The platform accessories the accessories with the given IDs hold, in order. */
    function HeldPlatformAccessories(ids: seq<string>): (pas: seq<PlatformAccessory>)
      requires forall id | id in ids :: id in accessories
      reads this`accessories, AccessorySet()`platformAccessory
      ensures |pas| <= |ids|
      ensures forall p | p in pas :: exists id | id in ids :: accessories[id].platformAccessory == p
      ensures forall id | id in ids && accessories[id].platformAccessory != null :: accessories[id].platformAccessory in pas
    {
      if ids == [] then []
      else
        var rest := HeldPlatformAccessories(ids[1..]);
        var pa := accessories[ids[0]].platformAccessory;
        if pa == null then rest else [pa] + rest
    }

    /**
     * `destroy()`: detaches, then removes every held platform accessory from
     * the platform in one call, or makes no call when none is held.
     */
    method Destroy()
      requires Valid()
      modifies device`rpcListeners, AccessorySet(), AllComponents(), platform`removed
      ensures var pas := old(HeldPlatformAccessories(order));
        && (|pas| > 0 ==> platform.removed == old(platform.removed) + [pas])
        && (|pas| == 0 ==> platform.removed == old(platform.removed))
      ensures forall a | a in accessories.Values && a.platformAccessory != null ::
        a.platformAccessory in old(HeldPlatformAccessories(order))
      ensures forall a | a in accessories.Values :: !a.pending
    {
      Detach();
      var pas := HeldPlatformAccessories(order);
      if |pas| > 0 {
        platform.RemoveAccessory(pas);
      }
    }
  }
}
