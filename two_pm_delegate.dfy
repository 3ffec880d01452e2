/**
 * The delegate setup shared by the Shelly Plus 2 PM and the Shelly Pro 2 PM:
 * one cover accessory for the first cover and a switch accessory for each of
 * the two switches, where the device profile decides which side is active.
 */
module TwoPmDelegates {
  import opened Common
  import opened Host
  import opened Device
  import opened Config
  import opened Accessories
  import opened DeviceDelegates

  /** The device runs its cover profile. */
  predicate IsCoverProfile(device: Device)
  {
    device.profile == Some("cover")
  }

  /**
   * The two switch accessories, whose IDs are not taken yet: the first is
   * always created, the second unless it shares the first one's ID.
   */
  method AddSwitches(del: DeviceDelegate, active: bool, switch0: Component, switch1: Component)
    returns (r0: Result<Accessory>, r1: Result<Accessory>)
    requires del.Valid()
    requires SwitchAccessoryId(None, switch0.id) !in del.accessories && SwitchAccessoryId(None, switch1.id) !in del.accessories
    modifies del`accessories, del`order
    ensures del.Valid()
    ensures r0.Ok? && del.SwitchBuilt(r0.value, switch0, None, Some(active))
    ensures r1.Err? <==> switch0.id == switch1.id
    ensures r1.Err? ==> del.order == old(del.order) + [r0.value.id]
    ensures r1.Ok? ==>
      && del.SwitchBuilt(r1.value, switch1, None, Some(active))
      && del.order == old(del.order) + [r0.value.id] + [r1.value.id]
  {
    r0 := del.AddSwitch(switch0, None, Some(active));
    SwitchAccessoryIdsDistinct(None, switch0.id, switch1.id);
    r1 := del.AddSwitch(switch1, None, Some(active));
  }

  /**
   * `setup()` on a delegate with no accessories yet, reading the profile,
   * the first cover and the two switches from the delegate's own device: the
   * cover accessory is requested active exactly when the device runs its
   * cover profile, and the two switch accessories exactly when it does not.
   * The cover and the first switch are always created; the second switch is
   * created unless it shares the first one's ID.
   */
  method Setup(del: DeviceDelegate)
    returns (rc: Result<Accessory>, r0: Result<Accessory>, r1: Result<Accessory>)
    requires del.Valid() && del.accessories == map[] && del.order == []
    requires |del.device.covers| >= 1 && |del.device.switches| >= 2
    modifies del`accessories, del`order
    ensures del.Valid()
    ensures rc.Ok? && del.CoverBuilt(rc.value, del.device.covers[0], Some(IsCoverProfile(del.device)))
    ensures r0.Ok? && del.SwitchBuilt(r0.value, del.device.switches[0], None, Some(!IsCoverProfile(del.device)))
    ensures r1.Err? <==> del.device.switches[0].id == del.device.switches[1].id
    ensures r1.Err? ==> del.order == ["cover"] + [r0.value.id]
    ensures r1.Ok? ==>
      && del.SwitchBuilt(r1.value, del.device.switches[1], None, Some(!IsCoverProfile(del.device)))
      && del.order == ["cover"] + [r0.value.id] + [r1.value.id]
  {
    var d := del.device;
    rc, r0, r1 := AddCoverAndSwitches(del, IsCoverProfile(d), d.covers[0], d.switches[0], d.switches[1]);
  }

  /** The cover accessory, active iff `isCover`, then the two switch accessories, active iff not. */
  method AddCoverAndSwitches(del: DeviceDelegate, isCover: bool, cover: Component, switch0: Component, switch1: Component)
    returns (rc: Result<Accessory>, r0: Result<Accessory>, r1: Result<Accessory>)
    requires del.Valid() && del.accessories == map[] && del.order == []
    modifies del`accessories, del`order
    ensures del.Valid()
    ensures rc.Ok? && del.CoverBuilt(rc.value, cover, Some(isCover))
    ensures r0.Ok? && del.SwitchBuilt(r0.value, switch0, None, Some(!isCover))
    ensures r1.Err? <==> switch0.id == switch1.id
    ensures r1.Err? ==> del.order == ["cover"] + [r0.value.id]
    ensures r1.Ok? ==>
      && del.SwitchBuilt(r1.value, switch1, None, Some(!isCover))
      && del.order == ["cover"] + [r0.value.id] + [r1.value.id]
  {
    rc := del.AddCover(cover, Some(isCover));
    CoverIdIsNotASwitchId(None, switch0.id);
    CoverIdIsNotASwitchId(None, switch1.id);
    assert del.order == ["cover"];
    r0, r1 := AddSwitches(del, !isCover, switch0, switch1);
  }

  /**
   * The profile never activates the cover and a switch together, and when
   * neither component is excluded exactly one of the two is active.
   */
  lemma CoverOrSwitch(del: DeviceDelegate, isCover: bool, c: Accessory, cover: Component, s: Accessory, swtch: Component)
    requires del.CoverBuilt(c, cover, Some(isCover))
    requires del.SwitchBuilt(s, swtch, None, Some(!isCover))
    ensures !(c.active && s.active)
    ensures !Excluded(del.ComponentOptionsOf(cover)) && !Excluded(del.ComponentOptionsOf(swtch)) ==>
      (c.active <==> isCover) && (s.active <==> !isCover)
  {
  }

  /** The component is excluded by its options. */
  predicate Excluded(opts: Option<ComponentOptions>)
  {
    opts.Some? && opts.value.exclude == Some(true)
  }
}
