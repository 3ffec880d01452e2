/**
 * The AccessoryInformation ability: fills in the information service every
 * accessory has.
 */
module AccessoryInformationAbility {
  import opened Common
  import opened Host
  import opened Device

  const Manufacturer: string := "Allterco"

  /** The revision shown when the device reports none. */
  const DefaultFirmware: string := "1.0.0"

  /** The firmware revision shown: the reported version, unless it is missing or empty. */
  function FirmwareRevisionOf(version: Option<string>): (r: string)
    ensures r != ""
    ensures version.Some? && version.value != "" ==> r == version.value
    ensures version.None? || version.value == "" ==> r == DefaultFirmware
  {
    if version.Some? && version.value != "" then version.value else DefaultFirmware
  }

  /** The ability subscribes to nothing. */
  const Events: set<Event> := {}

  /** `initialize()`: name, manufacturer, model, serial number and firmware revision. */
  method Initialize(s: Service, displayName: string, info: DeviceInfo)
    modifies s`values, s`updates
    ensures s.values == old(s.values)[Name := StringValue(displayName)]
      [Host.Manufacturer := StringValue(Manufacturer)]
      [Model := StringValue(info.modelName)]
      [SerialNumber := StringValue(info.macAddress)]
      [FirmwareRevision := StringValue(FirmwareRevisionOf(info.firmwareVersion))]
    ensures |s.updates| == |old(s.updates)| + 5
  {
    s.Set(Name, StringValue(displayName));
    s.Set(Host.Manufacturer, StringValue(Manufacturer));
    s.Set(Model, StringValue(info.modelName));
    s.Set(SerialNumber, StringValue(info.macAddress));
    s.Set(FirmwareRevision, StringValue(FirmwareRevisionOf(info.firmwareVersion)));
  }
}
