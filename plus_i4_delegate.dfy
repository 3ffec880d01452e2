/**
 * The Shelly Plus I4 delegate: four inputs, each shown either as a button
 * of a shared `buttons` accessory or as a read-only switch accessory of its
 * own, depending on the input's configured type.
 */
module ShellyPlusI4 {
  import opened Common
  import opened Host
  import opened Device
  import opened Config
  import opened Abilities
  import opened Accessories
  import opened DeviceDelegates
  import ServiceLabelAbility

  /** An input counts as a button when its configured type is `button`. */
  predicate IsButton(input: Component)
  {
    input.inputType == Some("button")
  }

  /** The IDs of the read-only switch accessories, one per input. */
  const SwitchIds: seq<string> := ["switch0", "switch1", "switch2", "switch3"]

  /** Whether any of the four inputs is a button. */
  predicate AnyButton(inputs: seq<Component>)
    requires |inputs| == 4
  {
    IsButton(inputs[0]) || IsButton(inputs[1]) || IsButton(inputs[2]) || IsButton(inputs[3])
  }

  /** What the Plus I4 setup builds as the `buttons` accessory. */
  ghost predicate ButtonsBuilt(acc: Accessory, inputs: seq<Component>)
    requires |inputs| == 4
    reads acc, acc.AbilitySet()
  {
    && acc.id == "buttons"
    && |acc.abilities| == 6
    && acc.abilities[1].kind == StatelessSwitchKind(inputs[0]) && (acc.abilities[1].active <==> IsButton(inputs[0]))
    && acc.abilities[2].kind == StatelessSwitchKind(inputs[1]) && (acc.abilities[2].active <==> IsButton(inputs[1]))
    && acc.abilities[3].kind == StatelessSwitchKind(inputs[2]) && (acc.abilities[3].active <==> IsButton(inputs[2]))
    && acc.abilities[4].kind == StatelessSwitchKind(inputs[3]) && (acc.abilities[4].active <==> IsButton(inputs[3]))
    && acc.abilities[5].kind == ServiceLabelKind(ServiceLabelAbility.DefaultNamespace) && acc.abilities[5].active
    && (acc.active <==> AnyButton(inputs))
  }

  /** What the Plus I4 setup builds as the read-only switch accessory of an input. */
  ghost predicate InputSwitchBuilt(acc: Accessory, id: string, input: Component)
    reads acc, acc.AbilitySet()
  {
    && acc.id == id
    && |acc.abilities| == 2
    && acc.abilities[1].kind == ReadonlySwitchKind(input) && acc.abilities[1].active
    && (acc.active <==> !IsButton(input))
  }

  /** A button ability per input, active for button inputs, then an active service label. */
  method ButtonAbilities(inputs: seq<Component>) returns (abs: seq<Ability>)
    requires |inputs| == 4
    ensures |abs| == 5
    ensures forall a | a in abs :: fresh(a)
    ensures forall n | 0 <= n < 4 ::
      abs[n].kind == StatelessSwitchKind(inputs[n]) && (abs[n].active <==> IsButton(inputs[n]))
    ensures abs[4].kind == ServiceLabelKind(ServiceLabelAbility.DefaultNamespace) && abs[4].active
  {
    var s0 := NewAbility(StatelessSwitchKind(inputs[0]), IsButton(inputs[0]));
    var s1 := NewAbility(StatelessSwitchKind(inputs[1]), IsButton(inputs[1]));
    var s2 := NewAbility(StatelessSwitchKind(inputs[2]), IsButton(inputs[2]));
    var s3 := NewAbility(StatelessSwitchKind(inputs[3]), IsButton(inputs[3]));
    var serviceLabel := new Ability(ServiceLabelKind(ServiceLabelAbility.DefaultNamespace));
    abs := [s0, s1, s2, s3, serviceLabel];
  }

  /** The `buttons` accessory: a button ability per input, active for button inputs, and a service label. */
  method AddButtons(del: DeviceDelegate, inputs: seq<Component>) returns (r: Result<Accessory>)
    requires del.Valid() && |inputs| == 4
    modifies del`accessories, del`order
    ensures del.Valid()
    ensures r.Err? <==> "buttons" in old(del.accessories)
    ensures r.Err? ==> del.accessories == old(del.accessories) && del.order == old(del.order)
    ensures r.Ok? ==>
      && fresh(r.value) && ButtonsBuilt(r.value, inputs)
      && del.accessories == old(del.accessories)["buttons" := r.value]
      && del.order == old(del.order) + ["buttons"]
  {
    var any := AnyButton(inputs);
    var abs := ButtonAbilities(inputs);
    r := del.CreateAccessory("buttons", None, abs);
    if r.Ok? {
      r.value.SetActive(any);
    }
  }

  /** A read-only switch accessory for an input, active unless the input is a button. */
  method AddInputSwitch(del: DeviceDelegate, id: string, input: Component) returns (r: Result<Accessory>)
    requires del.Valid()
    modifies del`accessories, del`order
    ensures del.Valid()
    ensures r.Err? <==> id in old(del.accessories)
    ensures r.Err? ==> del.accessories == old(del.accessories) && del.order == old(del.order)
    ensures r.Ok? ==>
      && fresh(r.value) && InputSwitchBuilt(r.value, id, input)
      && del.accessories == old(del.accessories)[id := r.value]
      && del.order == old(del.order) + [id]
  {
    var ro := new Ability(ReadonlySwitchKind(input));
    r := del.CreateAccessory(id, None, [ro]);
    if r.Ok? {
      r.value.SetActive(!IsButton(input));
    }
  }

  /** Two read-only switch accessories, for IDs not yet taken. */
  method AddInputSwitchPair(del: DeviceDelegate, id0: string, input0: Component, id1: string, input1: Component)
    returns (a0: Accessory, a1: Accessory)
    requires del.Valid() && id0 != id1 && id0 !in del.accessories && id1 !in del.accessories
    modifies del`accessories, del`order
    ensures del.Valid() && fresh(a0) && fresh(a1)
    ensures InputSwitchBuilt(a0, id0, input0) && InputSwitchBuilt(a1, id1, input1)
    ensures del.accessories == old(del.accessories)[id0 := a0][id1 := a1]
    ensures del.order == old(del.order) + [id0, id1]
  {
    var r0 := AddInputSwitch(del, id0, input0);
    var r1 := AddInputSwitch(del, id1, input1);
    a0, a1 := r0.value, r1.value;
  }

  /** The switch IDs are distinct from each other and from `buttons`. */
  lemma SwitchIdsDistinct()
    ensures forall i, j | 0 <= i < j < 4 :: SwitchIds[i] != SwitchIds[j]
    ensures forall i | 0 <= i < 4 :: SwitchIds[i] != "buttons"
  {
    assert forall i | 0 <= i < 4 :: SwitchIds[i][6] == "0123"[i];
  }

  /** One read-only switch accessory per input, under distinct IDs not yet taken. */
  method AddInputSwitches(del: DeviceDelegate, ids: seq<string>, inputs: seq<Component>) returns (switches: seq<Accessory>)
    requires del.Valid() && |ids| == 4 && |inputs| == 4
    requires forall i, j | 0 <= i < j < 4 :: ids[i] != ids[j]
    requires forall i | 0 <= i < 4 :: ids[i] !in del.accessories
    modifies del`accessories, del`order
    ensures del.Valid() && del.order == old(del.order) + ids && |switches| == 4
    ensures del.accessories == old(del.accessories)[ids[0] := switches[0]][ids[1] := switches[1]]
                                                   [ids[2] := switches[2]][ids[3] := switches[3]]
    ensures forall n | 0 <= n < 4 :: InputSwitchBuilt(switches[n], ids[n], inputs[n])
  {
    var s0, s1 := AddInputSwitchPair(del, ids[0], inputs[0], ids[1], inputs[1]);
    var s2, s3 := AddInputSwitchPair(del, ids[2], inputs[2], ids[3], inputs[3]);
    switches := [s0, s1, s2, s3];
    assert del.order == old(del.order) + ids;
  }

  /**
   * `setup()` on a delegate with no accessories yet, over the four inputs
   * of the delegate's own device: the five accessory IDs are distinct, so
   * every accessory is created, the `buttons` accessory first and then one
   * read-only switch per input.
   */
  method Setup(del: DeviceDelegate) returns (buttons: Accessory, switches: seq<Accessory>)
    requires del.Valid() && del.accessories == map[] && del.order == [] && |del.device.inputs| == 4
    modifies del`accessories, del`order
    ensures del.Valid() && del.order == ["buttons"] + SwitchIds && |switches| == 4
    ensures del.accessories == map["buttons" := buttons][SwitchIds[0] := switches[0]][SwitchIds[1] := switches[1]]
                                                        [SwitchIds[2] := switches[2]][SwitchIds[3] := switches[3]]
    ensures ButtonsBuilt(buttons, del.device.inputs)
    ensures forall n | 0 <= n < 4 :: InputSwitchBuilt(switches[n], SwitchIds[n], del.device.inputs[n])
  {
    var inputs := del.device.inputs;
    var r := AddButtons(del, inputs);
    buttons := r.value;
    assert del.accessories == map["buttons" := buttons] && del.order == ["buttons"];
    SwitchIdsDistinct();
    switches := AddInputSwitches(del, SwitchIds, inputs);
    assert ButtonsBuilt(buttons, inputs);
  }

  /**
   * Each input of a Plus I4 is shown by exactly one active thing: its button
   * in the active `buttons` accessory, or its own switch accessory.
   */
  lemma OneActivePerInput(buttons: Accessory, switches: seq<Accessory>, inputs: seq<Component>)
    requires |inputs| == 4 && |switches| == 4
    requires ButtonsBuilt(buttons, inputs)
    requires forall n | 0 <= n < 4 :: InputSwitchBuilt(switches[n], SwitchIds[n], inputs[n])
    ensures forall n | 0 <= n < 4 :: (buttons.active && buttons.abilities[n + 1].active) != switches[n].active
  {
  }
}
