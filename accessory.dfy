/**
 * A HomeKit accessory: an ordered list of abilities and, while active, a
 * platform accessory registered with the host. Transitions between active
 * and inactive are deferred by a zero-delay timer, modelled as a `pending`
 * flag that `Fire()` drains.
 */
module Accessories {
  import opened Common
  import opened Host
  import opened Device
  import opened Abilities

  /** The string the accessory's UUID is generated from. */
  function UuidKey(deviceId: string, id: string): string
  {
    deviceId + "-" + id
  }

  /** Within one device, distinct accessory IDs give distinct UUID keys. */
  lemma UuidKeyInjective(deviceId: string, id1: string, id2: string)
    requires UuidKey(deviceId, id1) == UuidKey(deviceId, id2)
    ensures id1 == id2
  {
    var n := |deviceId + "-"|;
    assert id1 == UuidKey(deviceId, id1)[n..];
    assert id2 == UuidKey(deviceId, id2)[n..];
  }

  class Accessory {
    const id: string
    const deviceId: string
    const name: string
    const platform: Platform
    const log: DeviceLogger
    const abilities: seq<Ability>
    const uuid: Uuid
    var active: bool
    var platformAccessory: PlatformAccessory?
    /** Whether a transition is scheduled (`updateTimeout !== null`). */
    var pending: bool

    /** The abilities, as a frame. */
    function AbilitySet(): set<Ability>
    {
      set a | a in abilities
    }

    /** The components the abilities listen to, as a frame. */
    function Components(): set<Component>
    {
      set a, c | a in abilities && c in Footprint(a.kind) :: c
    }

    /**
     * The UUID is generated from the device and accessory IDs, a cached
     * platform accessory with that UUID is adopted, and one transition is
     * scheduled.
     */
    constructor (id: string, deviceId: string, name: string, platform: Platform, log: DeviceLogger, abilities: seq<Ability>)
      ensures this.id == id && this.deviceId == deviceId && this.name == name
      ensures this.platform == platform && this.log == log && this.abilities == abilities
      ensures uuid == platform.generate(UuidKey(deviceId, id))
      ensures platformAccessory == platform.GetAccessory(uuid)
      ensures active && pending
    {
      this.id, this.deviceId, this.name := id, deviceId, name;
      this.platform, this.log, this.abilities := platform, log, abilities;
      uuid := platform.generate(UuidKey(deviceId, id));
      platformAccessory := platform.GetAccessory(platform.generate(UuidKey(deviceId, id)));
      active := true;
      pending := true;
    }

    /** `update()`: replaces any scheduled transition with a new one. */
    method Update()
      modifies this`pending
      ensures pending
    {
      pending := true;
    }

    /** `setActive(value)` (the `active` setter): a new value is stored and a transition scheduled. */
    method SetActive(value: bool)
      modifies this`active, this`pending
      ensures active == value
      ensures value == old(active) ==> pending == old(pending)
      ensures value != old(active) ==> pending
    {
      if value == active {
        return;
      }
      active := value;
      Update();
    }

    /** `createPlatformAccessory()`: a new platform accessory named after this one. */
    method CreatePlatformAccessory() returns (pa: PlatformAccessory)
      ensures fresh(pa) && pa.displayName == name && pa.uuid == uuid && pa.deviceId == deviceId
      ensures |pa.services| == 1 && fresh(pa.services[0]) && pa.services[0].cls == AccessoryInformation
    {
      pa := new PlatformAccessory(name, uuid, deviceId);
    }

    /** One step of the loop of `activate()`: sets up one ability and tells whether that failed. */
    method SetUpAbility(a: Ability, pa: PlatformAccessory) returns (failed: bool)
      modifies a`platformAccessory, a`platform, a`log, a`service, pa, ServicesOf(pa), Footprint(a.kind)
      ensures a.platformAccessory == pa && a.platform == platform && a.log == log
      ensures a.service != null ==> a.active
      ensures a.active && a.service == null ==> failed
      ensures failed ==> a.active
      ensures forall x | x in pa.services :: x in old(pa.services) || fresh(x)
    {
      var r := a.Setup(pa, platform, log);
      failed := r.Fail?;
    }

    /** The loop of `activate()`: sets up every ability in order, whatever earlier ones did. */
    method SetUpAll(pa: PlatformAccessory) returns (failed: seq<Ability>)
      modifies AbilitySet(), pa, ServicesOf(pa), Components()
      ensures forall a | a in abilities ::
        && a.platformAccessory == pa && a.platform == platform && a.log == log
        && a.active == old(a.active)
        && (a.service != null ==> a.active)
        && (a.active && a.service == null ==> a in failed)
      ensures forall a | a in failed :: a in abilities && a.active
    {
      failed := [];
      for k := 0 to |abilities|
        invariant forall a | a in abilities[..k] ::
          && a.platformAccessory == pa && a.platform == platform && a.log == log
          && (a.service != null ==> a.active)
          && (a.active && a.service == null ==> a in failed)
        invariant forall a | a in abilities :: a.active == old(a.active)
        invariant forall a | a in failed :: a in abilities[..k] && a.active
        invariant forall x | x in pa.services :: fresh(x) || x in old(pa.services)
      {
        var a := abilities[k];
        var f := SetUpAbility(a, pa);
        if f {
          failed := failed + [a];
        }
        assert abilities[..k + 1] == abilities[..k] + [a];
      }
      assert abilities[..|abilities|] == abilities;
    }

    /**
     * `activate()`: creates a platform accessory only when none is held,
     * sets up every ability and registers the platform accessory. Returns
     * the abilities whose setup failed.
     */
    method Activate() returns (failed: seq<Ability>)
      modifies this`platformAccessory, platform`added, AbilitySet(), platformAccessory, ServicesOf(platformAccessory), Components()
      ensures old(platformAccessory) != null ==> platformAccessory == old(platformAccessory)
      ensures old(platformAccessory) == null ==>
        && platformAccessory != null && fresh(platformAccessory)
        && platformAccessory.displayName == name && platformAccessory.uuid == uuid
      ensures platformAccessory != null && platform.added == old(platform.added) + [platformAccessory]
      ensures forall a | a in abilities ::
        && a.platformAccessory == platformAccessory && a.platform == platform && a.log == log
        && a.active == old(a.active)
        && (a.service != null ==> a.active)
        && (a.active && a.service == null ==> a in failed)
      ensures forall a | a in failed :: a in abilities && a.active
    {
      if platformAccessory == null {
        platformAccessory := CreatePlatformAccessory();
      }
      failed := SetUpAll(platformAccessory);
      platform.AddAccessory(platformAccessory);
    }

    /**
     * `deactivate()`: destroys every ability, then unregisters the platform
     * accessory, if one is held, and forgets it.
     */
    method Deactivate()
      modifies this`platformAccessory, platform`removed, AbilitySet(), Components()
      ensures platformAccessory == null
      ensures old(platformAccessory) != null ==> platform.removed == old(platform.removed) + [[old(platformAccessory)]]
      ensures old(platformAccessory) == null ==> platform.removed == old(platform.removed)
      ensures forall a | a in abilities ::
        && a.platformAccessory == null && a.platform == null && a.log == null && a.service == null
        && a.active == old(a.active)
    {
      for k := 0 to |abilities|
        invariant forall a | a in abilities[..k] ::
          a.platformAccessory == null && a.platform == null && a.log == null && a.service == null
        invariant forall a | a in abilities :: a.active == old(a.active)
        invariant platform.removed == old(platform.removed)
        invariant platformAccessory == old(platformAccessory)
      {
        abilities[k].Destroy();
        assert abilities[..k + 1] == abilities[..k] + [abilities[k]];
      }
      assert abilities[..|abilities|] == abilities;
      if platformAccessory != null {
        platform.RemoveAccessory([platformAccessory]);
        platformAccessory := null;
      }
    }

    /**
     * The timer firing: runs the scheduled transition with the value
     * `active` has now, so a platform accessory is held exactly when the
     * accessory is active. Without a scheduled transition nothing happens.
     */
    method Fire() returns (failed: seq<Ability>)
      modifies this`pending, this`platformAccessory, platform`added, platform`removed
      modifies AbilitySet(), platformAccessory, ServicesOf(platformAccessory), Components()
      ensures !pending
      ensures !old(pending) ==> failed == [] && platformAccessory == old(platformAccessory)
      ensures !old(pending) ==> platform.added == old(platform.added) && platform.removed == old(platform.removed)
      ensures old(pending) ==> (platformAccessory != null <==> active)
      ensures old(pending) && active ==> platform.added == old(platform.added) + [platformAccessory]
      ensures old(pending) && active ==> platform.removed == old(platform.removed)
      ensures old(pending) && !active ==> platform.added == old(platform.added)
      ensures old(pending) && !active && old(platformAccessory) == null ==> platform.removed == old(platform.removed)
      ensures old(pending) && !active && old(platformAccessory) != null ==>
        platform.removed == old(platform.removed) + [[old(platformAccessory)]]
      ensures forall a | a in abilities :: a.active == old(a.active)
      ensures old(pending) ==> forall a | a in abilities :: a.platformAccessory == platformAccessory
    {
      failed := [];
      if !pending {
        return;
      }
      pending := false;
      if active {
        failed := Activate();
      } else {
        Deactivate();
      }
    }

    /**
     * `detach()`: cancels a scheduled transition and detaches every ability.
     * Each component loses exactly the subscriptions of the abilities that
     * listen to it and keeps every other one, so no ability keeps a listener;
     * `active` and the platform accessory stay as they are.
     */
    method Detach()
      modifies this`pending, Components()
      ensures !pending
      ensures forall c | c in Components() :: c.listeners == old(c.listeners) - Unsubscribed(AbilitySet(), c)
      ensures forall a, c | a in abilities && c in Footprint(a.kind) ::
        c.listeners !! ListenersOf(DetachEvents(a.kind), a)
    {
      pending := false;
      ghost var done: set<Ability> := {};
      for k := 0 to |abilities|
        invariant forall a | a in done :: a in abilities
        invariant forall i | 0 <= i < k :: abilities[i] in done
        invariant forall c | c in Components() :: c.listeners == old(c.listeners) - Unsubscribed(done, c)
        invariant !pending
      {
        var b := abilities[k];
        b.Detach();
        forall c | c in Components()
          ensures c.listeners == old(c.listeners) - Unsubscribed(done + {b}, c)
        {
          UnsubscribedAdd(done, b, c);
        }
        done := done + {b};
      }
      assert done == AbilitySet();
      forall a, c | a in abilities && c in Footprint(a.kind)
        ensures c.listeners !! ListenersOf(DetachEvents(a.kind), a)
      {
        forall l | l in ListenersOf(DetachEvents(a.kind), a)
          ensures l in Unsubscribed(done, c)
        {
          assert l == Listener(l.event, a);
        }
      }
    }

    /** An ability of this accessory only ever unsubscribes from this accessory's components. */
    lemma UnsubscribedOutside(c: Component)
      requires c !in Components()
      ensures Unsubscribed(AbilitySet(), c) == {}
    {
    }
  }

  /**
   * Constructing an accessory and deactivating it before the timer fires
   * runs only the deactivation: no platform accessory is created or
   * registered.
   */
  method DeactivatedBeforeFiring(id: string, deviceId: string, name: string, platform: Platform,
                                 log: DeviceLogger, abilities: seq<Ability>)
    returns (acc: Accessory)
    modifies platform`added, platform`removed, set a | a in abilities, set a, c | a in abilities && c in Footprint(a.kind) :: c
    modifies platform.GetAccessory(platform.generate(UuidKey(deviceId, id)))
    modifies ServicesOf(platform.GetAccessory(platform.generate(UuidKey(deviceId, id))))
    ensures acc.platformAccessory == null && !acc.active && !acc.pending
    ensures platform.added == old(platform.added)
    ensures platform.GetAccessory(acc.uuid) == null ==> platform.removed == old(platform.removed)
  {
    acc := new Accessory(id, deviceId, name, platform, log, abilities);
    acc.SetActive(false);
    var _ := acc.Fire();
  }
}
