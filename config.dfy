/**
 * The platform configuration: mDNS options with defaults, and the options
 * of each configured device, keyed by device ID, with defaults filled in.
 */
module Config {
  import opened Common

  datatype MdnsOptions = MdnsOptions(enable: bool, networkInterface: Option<string>)

  /** The `mdns` object of the user's configuration; absent fields are None. */
  datatype MdnsEntry = MdnsEntry(enable: Option<bool>, networkInterface: Option<string>)

  const DefaultMdns: MdnsOptions := MdnsOptions(true, None)

  /** The defaults overlaid with the user's fields: a field the user gives wins. */
  function MdnsFor(entry: Option<MdnsEntry>): (m: MdnsOptions)
    ensures entry.None? ==> m == DefaultMdns
    ensures entry.Some? && entry.value.enable.Some? ==> m.enable == entry.value.enable.value
    ensures entry.Some? && entry.value.enable.None? ==> m.enable == DefaultMdns.enable
    ensures entry.Some? ==> m.networkInterface == entry.value.networkInterface
  {
    match entry
    case None => DefaultMdns
    case Some(e) => MdnsOptions(e.enable.GetOr(DefaultMdns.enable), e.networkInterface)
  }

  /** The options of one component (keyed by e.g. `switch:0`): its type and whether it is excluded. */
  datatype ComponentOptions = ComponentOptions(typeName: Option<string>, exclude: Option<bool>)

  /**
   * One entry of the user's `devices` list. An entry without an ID has the
   * empty string as its ID (both are falsy).
   */
  datatype DeviceEntry = DeviceEntry(
    id: string, name: Option<string>, exclude: Option<bool>, protocol: Option<string>,
    hostname: Option<string>, components: map<string, ComponentOptions>)

  datatype DeviceOptions = DeviceOptions(
    name: Option<string>, exclude: bool, protocol: string,
    hostname: Option<string>, components: map<string, ComponentOptions>)

  const DefaultDeviceOptions: DeviceOptions := DeviceOptions(None, false, "websocket", None, map[])

  /** `{...DEFAULT_DEVICE_OPTIONS, ...d}`: the user's fields win, the defaults fill the gaps. */
  function Overlay(e: DeviceEntry): (o: DeviceOptions)
    ensures e.exclude.Some? ==> o.exclude == e.exclude.value
    ensures e.exclude.None? ==> o.exclude == DefaultDeviceOptions.exclude
    ensures e.protocol.Some? ==> o.protocol == e.protocol.value
    ensures e.protocol.None? ==> o.protocol == DefaultDeviceOptions.protocol
    ensures o.name == e.name && o.hostname == e.hostname && o.components == e.components
  {
    DeviceOptions(e.name, e.exclude.GetOr(DefaultDeviceOptions.exclude), e.protocol.GetOr(DefaultDeviceOptions.protocol),
                  e.hostname, e.components)
  }

  /** An entry is kept when it is present (truthy) and has a non-empty ID. */
  predicate Accepted(e: Option<DeviceEntry>)
  {
    e.Some? && e.value.id != ""
  }

  /** The options map the constructor's loop builds from a `devices` list. */
  function BuildOptions(es: seq<Option<DeviceEntry>>): map<string, DeviceOptions>
  {
    if es == [] then map[]
    else
      var m := BuildOptions(es[..|es| - 1]);
      var e := es[|es| - 1];
      if Accepted(e) then m[e.value.id := Overlay(e.value)] else m
  }

  /** The map holds exactly the IDs of the accepted entries. */
  lemma {:induction false} BuildOptionsKeys(es: seq<Option<DeviceEntry>>, id: string)
    ensures id in BuildOptions(es) <==> exists i :: 0 <= i < |es| && Accepted(es[i]) && es[i].value.id == id
  {
    if es != [] {
      var init := es[..|es| - 1];
      BuildOptionsKeys(init, id);
      if id in BuildOptions(init) {
        var i :| 0 <= i < |init| && Accepted(init[i]) && init[i].value.id == id;
        assert es[i] == init[i];
      }
      if exists i :: 0 <= i < |es| && Accepted(es[i]) && es[i].value.id == id {
        var i :| 0 <= i < |es| && Accepted(es[i]) && es[i].value.id == id;
        if i < |init| {
          assert init[i] == es[i];
        }
      }
    }
  }

  /** The last accepted entry with a given ID decides its options. */
  lemma {:induction false} BuildOptionsLastWins(es: seq<Option<DeviceEntry>>, i: nat)
    requires i < |es| && Accepted(es[i])
    requires forall j | i < j < |es| :: Accepted(es[j]) ==> es[j].value.id != es[i].value.id
    ensures es[i].value.id in BuildOptions(es)
    ensures BuildOptions(es)[es[i].value.id] == Overlay(es[i].value)
  {
    if i < |es| - 1 {
      var init := es[..|es| - 1];
      assert init[i] == es[i];
      BuildOptionsLastWins(init, i);
    }
  }

  /** The platform options. */
  class PlatformOptions {
    const mdns: MdnsOptions
    var deviceOptions: map<string, DeviceOptions>

    /**
     * Stores the mDNS options with defaults and, when `devices` is an array
     * (Some), the options of every accepted entry, later entries replacing
     * earlier ones with the same ID.
     */
    constructor (mdnsEntry: Option<MdnsEntry>, devices: Option<seq<Option<DeviceEntry>>>)
      ensures mdns == MdnsFor(mdnsEntry)
      ensures devices.None? ==> deviceOptions == map[]
      ensures devices.Some? ==> deviceOptions == BuildOptions(devices.value)
    {
      mdns := MdnsFor(mdnsEntry);
      deviceOptions := map[];
      new;
      if devices.Some? {
        var es := devices.value;
        for k := 0 to |es|
          invariant deviceOptions == BuildOptions(es[..k])
        {
          var e := es[k];
          if e.Some? && e.value.id != "" {
            deviceOptions := deviceOptions[e.value.id := Overlay(e.value)];
          }
          assert es[..k + 1][..k] == es[..k];
        }
        assert es[..|es|] == es;
      }
    }

    /** `getDeviceOptions(id)`: the stored options, or the defaults for an unknown device. */
    function GetDeviceOptions(deviceId: string): (o: DeviceOptions)
      reads this`deviceOptions
      ensures deviceId in deviceOptions ==> o == deviceOptions[deviceId]
      ensures deviceId !in deviceOptions ==> o == DefaultDeviceOptions
    {
      if deviceId in deviceOptions then deviceOptions[deviceId] else DefaultDeviceOptions
    }
  }
}
