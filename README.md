# homebridge-shelly-ng core, modelled in Dafny

homebridge-shelly-ng is a Homebridge plugin that shows Shelly (second
generation) devices in HomeKit. This project models the core of its
lifecycle and proves properties about it:

- **abilities**: one HomeKit service each. An ability adds its service
  while active and removes it while inactive, but only once it has been set
  up.
- **accessories**: an ordered list of abilities plus, while active, a
  platform accessory registered with Homebridge. Transitions are deferred by
  a zero-delay timer.
- **device delegates**: the accessories of one device. Each has builders
  for switch and cover accessories, keeps the connection state and handles
  teardown.
- **the delegate registry**: keyed by upper-cased model.
- **model-specific setup**: Shelly Plus I4, Shelly Plus 2 PM and Shelly Pro
  2 PM.
- **the platform configuration**: defaults merged into a map of per-device
  options.
- **the in-memory device cache**, with its single debounced save.

Layout, one module per file:

- `common.dfy`: Option, Result and the errors the plugin throws.
- `strings.dfy`: `${n}` for naturals, and ASCII `toUpperCase`/`toLowerCase`.
- `host.dfy` and `device.dfy`: the Homebridge/HAP host and the Shelly
  device library. Both are external collaborators, modelled as small
  classes that record what the plugin asks of them: characteristic values
  and the trace of published updates, services, registered and removed
  platform accessories, listeners, commands.
- One module per concrete ability (`*_ability.dfy`), holding its naming,
  its pure mappings, `initialize()` and its handlers.
- `abilities.dfy`: the ability base class. A single class `Ability` whose
  `kind` selects the concrete ability.
- `accessory.dfy`, `device_delegate.dfy` and `delegate_registry.dfy`.
- `plus_i4_delegate.dfy` and `two_pm_delegate.dfy`: the setup of the three
  delegates with their own logic.
- `config.dfy` and `device_cache.dfy`.

Conventions:

- A thrown exception is an `Err`/`Fail` result.
- The `setTimeout` slot of an accessory or the cache is a `pending` flag
  that an explicit `Fire`/`FireSave` drains.
- A device command's promise is a `Reply` parameter, either resolved or
  rejected.
- The UUID hash is a function the platform is given.

## Model

| member | source | states |
|---|---|---|
| Strings.DecimalString | src/abilities/switch.ts:12-13 | `${n}` of a natural is a non-empty string of digits |
| Strings.DecimalStringInjective | src/abilities/switch.ts:13 | different component ids render differently |
| Strings.PrefixedNumberInjective | src/abilities/switch.ts:13 | a prefix ending in a non-digit followed by a rendered id determines both prefix and id |
| Strings.ToUpper | src/device-delegates/base.ts:66 | upper-casing keeps the length |
| Strings.ToLower | src/device-delegates/base.ts:185 | lower-casing keeps the length |
| Strings.ToUpperIdempotent | src/device-delegates/base.ts:84 | upper-casing an upper-cased model changes nothing |
| Strings.ToUpperIgnoresCase | src/device-delegates/base.ts:84 | a lower-cased string upper-cases to the same key as the original |
| Strings.ToLowerIdempotent | src/device-delegates/base.ts:185 | lower-casing twice is lower-casing once |
| Abilities.SubtypePrefix | src/abilities/base.ts:127-130 | every component ability's subtype prefix ends in `-` |
| Abilities.ServiceSubtypeOf | src/abilities/base.ts:127-130 | component abilities have the subtype `<prefix><id>`; the service label and accessory information have none |
| Abilities.KeyedIffComponent | src/abilities/base.ts:199-205 | an ability looks its service up by name (name and subtype both set) exactly when it belongs to a component; the other two go by class |
| Abilities.SamePrefixSameVariant | src/abilities/readonly-switch.ts:14-23 | equal subtype prefixes mean the same kind of ability and cover type |
| Abilities.SubtypeIdentifiesAbility | src/abilities/readonly-switch.ts:14-23 | equal subtypes mean the same kind (and cover type) over the same component id, so the read-only switch never clashes with the Switch ability |
| Abilities.InitEvents | src/abilities/power-meter.ts:78-84 | what `initialize()` subscribes is always among what `detach()` unsubscribes |
| Abilities.DetachUndoesInitialize | src/abilities/power-meter.ts:78-84 | detaching after initialising removes every subscription made, leaving the earlier ones |
| Abilities.Ability.constructor | src/abilities/base.ts:104-130 | a new ability is active and holds no platform accessory, platform, log or service |
| Abilities.Ability.GetPlatformAccessory | src/abilities/base.ts:26-31 | the getter throws "not set up" exactly when no platform accessory is held |
| Abilities.Ability.GetPlatform | src/abilities/base.ts:38-43 | likewise for the platform |
| Abilities.Ability.GetLog | src/abilities/base.ts:85-90 | likewise for the log |
| Abilities.Ability.GetService | src/abilities/base.ts:97-102 | likewise for the service |
| Abilities.Ability.Existing | src/abilities/base.ts:199-205 | the service found is on the accessory and has the ability's name when keyed, its class otherwise |
| Abilities.Ability.AddService | src/abilities/base.ts:198-206 | an existing service is returned and nothing is added; otherwise exactly one new service (named and subtyped when keyed) is appended; the host's duplicate refusal is the only failure |
| Abilities.Ability.RemoveService | src/abilities/base.ts:211-227 | removes the held service, else the one found by name or class, else nothing |
| Abilities.Ability.Initialize | src/abilities/base.ts:249-252 | the concrete ability's initialisation holds on the service and exactly its init events are subscribed |
| Abilities.Ability.Detach | src/abilities/base.ts:254-257 | exactly the concrete ability's listeners are removed from its component |
| Abilities.Ability.Acquire | src/abilities/base.ts:177-182 | a held service is kept untouched; otherwise a service is obtained and initialised once; afterwards a service is held exactly when active, unless the host refused |
| Abilities.Ability.Release | src/abilities/base.ts:183-191 | listeners go only if a service was held; the matching service is removed; none is held afterwards |
| Abilities.Ability.Update | src/abilities/base.ts:171-192 | before setup nothing changes; afterwards a service is held exactly when active, with the effects of Acquire/Release |
| Abilities.Ability.Setup | src/abilities/base.ts:139-145 | records the three references, then has the effect of `update()` |
| Abilities.Ability.SetActive | src/abilities/base.ts:114-121 | the current value changes nothing; a new value is stored and, once set up, applied |
| Abilities.Ability.Destroy | src/abilities/base.ts:265-272 | listeners are detached, all four references forgotten so every getter throws, and the service stays on the accessory |
| AbilityBase.RemoveCharacteristic | src/abilities/base.ts:234-242 | the characteristic is gone afterwards, only it is touched, and it is never created |
| AbilityBase.CommandFailure | src/abilities/switch.ts:50-56 | a rejected command fails with SERVICE_COMMUNICATION_FAILURE, or "not set up" when the ability was torn down |
| SwitchAbility.Initialize | src/abilities/switch.ts:21-34 | On shows the output, becomes writable, and only `change:output` is subscribed |
| SwitchAbility.OutputSetHandler | src/abilities/switch.ts:43-57 | a write equal to the output sends nothing; otherwise exactly one `set(value)` is sent; a rejection fails the write. The Outlet ability's identical handler (src/abilities/outlet.ts:51-65) is this member |
| SwitchAbility.OutputChangeHandler | src/abilities/switch.ts:62-65 | On shows the new output; no command is sent |
| OutletAbility.Initialize | src/abilities/outlet.ts:21-40 | On shows the output, OutletInUse is true iff apower is reported and non-zero, and both change events are subscribed |
| OutletAbility.OutputChangeHandler | src/abilities/outlet.ts:70-73 | On shows the new output and the service stays in sync |
| OutletAbility.PublishedInUseAsWritten | src/abilities/outlet.ts:78-81 | the handler as written publishes the raw power reading |
| OutletAbility.PublishedInUse | src/abilities/outlet.ts:28-29 | the intended value is the same in-use flag as at initialisation |
| OutletAbility.AsWrittenInUseDisagrees | src/abilities/outlet.ts:78-81 | for readings 5 and 0 the as-written handler publishes something other than the in-use flag |
| OutletAbility.ApowerChangeHandlerAsWritten | src/abilities/outlet.ts:78-81 | the as-written handler stores the number in OutletInUse |
| OutletAbility.ApowerChangeHandler | src/abilities/outlet.ts:78-81 | corrected: publishes the in-use flag, which keeps the service in sync with the component |
| CoverAbility.TypeKey | src/abilities/cover.ts:17-20 | every cover type key ends in a letter |
| CoverAbility.SubtypeInjective | src/abilities/cover.ts:18-21 | two covers share a subtype only with the same type and component |
| CoverAbility.ServiceClassOf | src/abilities/cover.ts:24-31 | Door iff door, WindowCovering iff windowCovering, Window iff window |
| CoverAbility.PositionStateFor | src/abilities/cover.ts:36-44 | opening iff increasing, closing iff decreasing, anything else stopped |
| CoverAbility.CurrentPositionFor | src/abilities/cover.ts:49-51 | the reported position, else 0 |
| CoverAbility.TargetPositionFor | src/abilities/cover.ts:56-58 | the reported target, else the current position |
| CoverAbility.Initialize | src/abilities/cover.ts:60-82 | uncalibrated: nothing changes; calibrated: state, position and target are published in that order, the target is writable, and exactly the three change events are subscribed |
| CoverAbility.TargetPositionSetHandler | src/abilities/cover.ts:94-108 | a write equal to the reported target sends nothing; otherwise one `goToPosition`; a rejection fails the write |
| CoverAbility.UpdateStates | src/abilities/cover.ts:113-154 | all three characteristics are republished from the component, so the service is in sync whatever it showed before; nothing else changes |
| PowerMeterAbility.KilowattHours | src/abilities/power-meter.ts:69 | watt-hours are divided by 1000 |
| PowerMeterAbility.Shown | src/abilities/power-meter.ts:119-126 | energy is shown in kWh, every other reading as reported |
| PowerMeterAbility.InitEvents | src/abilities/power-meter.ts:28-76 | apower is always subscribed, each other reading iff reported |
| PowerMeterAbility.WithReading | src/abilities/power-meter.ts:42-51 | a reported reading is shown, a missing one has its characteristic removed |
| PowerMeterAbility.WithReadingKeepsOthers | src/abilities/power-meter.ts:42-75 | one reading's step leaves every other characteristic as it was |
| PowerMeterAbility.InitValuesShowReadings | src/abilities/power-meter.ts:28-76 | after `initialize()` the four readings are shown (apower as 0 when missing) or absent, and nothing else changed |
| PowerMeterAbility.SetUpReading | src/abilities/power-meter.ts:42-51 | one reading's step, with its listener iff reported |
| PowerMeterAbility.Initialize | src/abilities/power-meter.ts:28-76 | the values of InitValuesShowReadings, and exactly the listeners of InitEvents |
| PowerMeterAbility.ListenersOfInit | src/abilities/power-meter.ts:39-72 | the listeners added step by step are those of the subscribed events |
| PowerMeterAbility.ReadingChangeHandler | src/abilities/power-meter.ts:89-126 | each handler updates only its own characteristic, energy converted to kWh |
| ReadonlySwitchAbility.StateValue | src/abilities/readonly-switch.ts:46 | shows on iff the state is true; null shows as off |
| ReadonlySwitchAbility.Initialize | src/abilities/readonly-switch.ts:25-36 | On loses its write permission, shows the state, and only `change:state` is subscribed; no write handler |
| ReadonlySwitchAbility.StateChangeHandler | src/abilities/readonly-switch.ts:45-50 | On shows the new state, null as off |
| StatelessSwitchAbility.PressOf | src/abilities/stateless-programmable-switch.ts:77-96 | exactly the three push events are presses |
| StatelessSwitchAbility.Initialize | src/abilities/stateless-programmable-switch.ts:26-38 | ServiceLabelIndex is id + 1 and the three push events are subscribed |
| StatelessSwitchAbility.TriggerPress | src/abilities/stateless-programmable-switch.ts:51-75 | exactly one ProgrammableSwitchEvent update, the press's value |
| StatelessSwitchAbility.PushHandler | src/abilities/stateless-programmable-switch.ts:80-96 | each push triggers exactly one update with its own press |
| ServiceLabelAbility.NamespaceFor | src/abilities/service-label.ts:16-22 | `dots` iff DOTS, anything else ARABIC_NUMERALS |
| ServiceLabelAbility.Initialize | src/abilities/service-label.ts:15-23 | only the namespace is published |
| AccessoryInformationAbility.FirmwareRevisionOf | src/abilities/accessory-information.ts:26 | the reported version unless missing or empty, else `1.0.0`; never empty |
| AccessoryInformationAbility.Initialize | src/abilities/accessory-information.ts:20-27 | name, manufacturer `Allterco`, model, serial number and firmware revision, five updates |
| Accessories.UuidKeyInjective | src/accessory.ts:74 | within one device, distinct accessory IDs give distinct UUID keys |
| Accessories.Accessory.constructor | src/accessory.ts:67-84 | the UUID comes from `<deviceId>-<id>`, the cached platform accessory (or null) is adopted, and one transition is pending |
| Accessories.Accessory.Update | src/accessory.ts:99-117 | a transition is pending afterwards; there is a single slot, so at most one is |
| Accessories.Accessory.SetActive | src/accessory.ts:45-52 | the current value changes nothing; a new value is stored and a transition scheduled |
| Accessories.Accessory.CreatePlatformAccessory | src/accessory.ts:176-189 | a new platform accessory with this name, UUID and device ID |
| Accessories.Accessory.SetUpAbility | src/accessory.ts:131-141 | one ability is set up; a failure is reported, never propagated |
| Accessories.Accessory.SetUpAll | src/accessory.ts:131-141 | every ability is set up whatever earlier ones did; those active without a service are reported as failed |
| Accessories.Accessory.Activate | src/accessory.ts:122-145 | a platform accessory is created only when none is held, every ability is set up on it, and it is registered |
| Accessories.Accessory.Deactivate | src/accessory.ts:150-171 | every ability is destroyed; a held platform accessory is unregistered and forgotten |
| Accessories.Accessory.Fire | src/accessory.ts:108-116 | the pending transition runs with `active` as it is at firing time, so a platform accessory is held iff active; without one nothing happens |
| Accessories.Accessory.Detach | src/accessory.ts:194-213 | the pending transition is cancelled; each component loses exactly the subscriptions of the abilities listening to it and keeps every other one, so no ability keeps a listener; `active` and the platform accessory stay |
| Accessories.DeactivatedBeforeFiring | src/accessory.ts:83-116 | constructing then deactivating before the timer fires registers nothing and holds no platform accessory |
| Config.MdnsFor | src/config.ts:63 | `{enable: true}` overlaid with the user's mDNS fields, user fields winning |
| Config.Overlay | src/config.ts:70 | the device defaults (`exclude: false`, `protocol: websocket`) overlaid with the user's entry |
| Config.BuildOptionsKeys | src/config.ts:66-73 | the map holds exactly the IDs of present entries with a non-empty ID |
| Config.BuildOptionsLastWins | src/config.ts:70 | the last entry with an ID decides its options |
| Config.PlatformOptions.constructor | src/config.ts:61-74 | mDNS with defaults; device options from the list, or none when `devices` is not an array |
| Config.PlatformOptions.GetDeviceOptions | src/config.ts:81-83 | the stored options, else the defaults |
| DeviceCache.FromListKeys | src/utils/device-cache.ts:81-83 | loading keeps exactly the listed IDs |
| DeviceCache.FromListLastWins | src/utils/device-cache.ts:81-83 | a later duplicate overwrites an earlier entry |
| DeviceCache.InfoOf | src/utils/device-cache.ts:149-163 | ID, model and protocol of the device, the hostname only for WebSocket |
| DeviceCache.DeviceCache.constructor | src/utils/device-cache.ts:46-56 | empty, nothing pending, nothing saved |
| DeviceCache.DeviceCache.Get | src/utils/device-cache.ts:127-129 | the stored entry or none; under a valid cache it carries the asked ID |
| DeviceCache.DeviceCache.SaveDelayed | src/utils/device-cache.ts:104-122 | a save is pending afterwards, in a single slot |
| DeviceCache.DeviceCache.FireSave | src/utils/device-cache.ts:110-121 | a pending save writes the current contents once; otherwise nothing happens |
| DeviceCache.DeviceCache.Set | src/utils/device-cache.ts:136-142 | stores under the entry's ID, every other ID unchanged; schedules a save iff asked |
| DeviceCache.DeviceCache.StoreDevice | src/utils/device-cache.ts:149-166 | stores the device's info under its ID |
| DeviceCache.DeviceCache.Delete | src/utils/device-cache.ts:173-179 | removes only that ID; schedules a save iff asked |
| DeviceCache.DeviceCache.Load | src/utils/device-cache.ts:61-84 | clears first; no file leaves it empty; otherwise the listed devices |
| DelegateRegistry.Registered | src/device-delegates/base.ts:64-76 | earlier entries are kept, new keys are upper-cased models mapped to the delegate, it succeeds iff no model is taken or repeated, and it stops at the first taken model |
| DelegateRegistry.RegisteredFirst | src/device-delegates/base.ts:65-74 | one loop step: a taken model stops registration, otherwise it is added |
| DelegateRegistry.UnclaimedStep | src/device-delegates/base.ts:65-74 | adding the first model keeps the rest unclaimed exactly when all were |
| DelegateRegistry.RegisteredStep | src/device-delegates/base.ts:65-74 | the keys of one step plus the rest are the keys of all models |
| DelegateRegistry.RegisteredFindsEachModel | src/device-delegates/base.ts:64-85 | after a successful registration each model is found in any letter case |
| DelegateRegistry.RegisteredMapsEach | src/device-delegates/base.ts:64-76 | registering unclaimed models keeps earlier entries and maps each model to the delegate |
| DelegateRegistry.Registry.constructor | src/device-delegates/base.ts:56 | the registry starts empty |
| DelegateRegistry.Registry.RegisterDelegate | src/device-delegates/base.ts:64-76 | the loop's result is Registered; it fails, naming the model, at the first taken one, keeping those before it |
| DelegateRegistry.Registry.GetDelegate | src/device-delegates/base.ts:82-85 | the delegate under the upper-cased model, else none |
| DelegateRegistry.Registry.GetDelegateIgnoresCase | src/device-delegates/base.ts:82-85 | upper- and lower-casing the query finds the same delegate |
| DelegateRegistry.Registry.RegisterBuiltIns | src/device-delegates/shelly-plus-i4.ts:42 | the three registrations (also src/device-delegates/shelly-plus-2-pm.ts:23-27 and src/device-delegates/shelly-pro-2-pm.ts:24-29) succeed on an empty registry, register exactly their six models, and each model finds its delegate |
| DelegateRegistry.ThreeRegistrationsKeys | src/device-delegates/shelly-plus-2-pm.ts:23-27 | three registrations of models unclaimed at their turn all succeed and register exactly their models |
| DelegateRegistry.ThreeRegistrationsLookups | src/device-delegates/shelly-pro-2-pm.ts:24-29 | after them each model finds the delegate it was registered for |
| DelegateRegistry.UnionOfImages | src/device-delegates/base.ts:65-66 | the upper-cased names of a concatenation are the union of the parts' names |
| DelegateRegistry.UnclaimedThree | src/device-delegates/shelly-pro-2-pm.ts:24-29 | three distinct, untaken models are unclaimed |
| DelegateRegistry.BuiltInModelsDistinct | src/device-delegates/shelly-pro-2-pm.ts:24-29 | each built-in model is unclaimed when its registration comes |
| DelegateRegistry.ProDistinct | src/device-delegates/shelly-pro-2-pm.ts:26-28 | the Pro 2 PM models differ, upper-cased, from each other and from the earlier models |
| DeviceDelegates.AccessoryName | src/device-delegates/base.ts:151-154 | the configured name if non-empty, else the model name, then ` <suffix>` only for a non-empty suffix |
| DeviceDelegates.SwitchAccessoryId | src/device-delegates/base.ts:188 | `switch` iff single, else `switch-<id>` |
| DeviceDelegates.SwitchNameSuffix | src/device-delegates/base.ts:189 | no suffix iff single, else `Switch <id+1>` |
| DeviceDelegates.SwitchAccessoryIdsDistinct | src/device-delegates/base.ts:188 | on a multi-switch device two switches share an ID iff their component ids are equal |
| DeviceDelegates.CoverIdIsNotASwitchId | src/device-delegates/shelly-plus-2-pm.ts:16-19 | no switch accessory takes the ID `cover` |
| DeviceDelegates.SwitchTypeOf | src/device-delegates/base.ts:185 | `switch` without a configured type, else the configured type lower-cased, which names the same type ignoring case |
| DeviceDelegates.OutletNeedsType | src/device-delegates/base.ts:185-186 | a switch is an outlet exactly when its configured type lower-cases to `outlet`; without a type it never is |
| DeviceDelegates.CoverTypeOf | src/device-delegates/base.ts:213-215 | door iff the type lower-cases to `door`, window covering iff to `windowcovering`, window otherwise |
| DeviceDelegates.ReconnectDelay | src/device-delegates/base.ts:245-251 | seconds below a minute, minutes below an hour, hours otherwise, each amount rounded down |
| DeviceDelegates.ReconnectDelayBounds | src/device-delegates/base.ts:245-251 | a non-negative delay shows 0-59 seconds, 1-59 minutes or at least one hour |
| DeviceDelegates.RpcListenersOf | src/device-delegates/base.ts:115-118 | three distinct subscriptions with the delegate as context |
| DeviceDelegates.NewAbility | src/device-delegates/base.ts:194-197 | a new ability, not set up, with the requested `active` |
| DeviceDelegates.SwitchAbilities | src/device-delegates/base.ts:194-197 | outlet, switch and power meter abilities: outlet iff outlet type, switch iff not, meter iff apower is reported |
| DeviceDelegates.CoverAbilities | src/device-delegates/base.ts:220-223 | door, window covering and window abilities, exactly the one of the type active, and an active meter |
| DeviceDelegates.DeviceDelegate.constructor | src/device-delegates/base.ts:107-121 | no accessories, `connected` from the RPC handler, and the three handlers subscribed |
| DeviceDelegates.DeviceDelegate.ComponentOptionsOf | src/device-delegates/base.ts:134-136 | the options under the component's key, else none |
| DeviceDelegates.DeviceDelegate.CreateAccessory | src/device-delegates/base.ts:145-171 | a taken ID throws and changes nothing; otherwise exactly that ID is added, with AccessoryInformation as the first ability |
| DeviceDelegates.DeviceDelegate.AddSwitch | src/device-delegates/base.ts:178-199 | the ID, name and abilities of a switch accessory, exactly one of outlet and switch active, active unless excluded or asked inactive |
| DeviceDelegates.DeviceDelegate.AddCover | src/device-delegates/base.ts:206-225 | ID `cover`, suffix `Cover`, exactly the configured cover type active, meter active, active unless excluded or asked inactive |
| DeviceDelegates.DeviceDelegate.HandleConnect | src/device-delegates/base.ts:230-233 | connected afterwards |
| DeviceDelegates.DeviceDelegate.HandleDisconnect | src/device-delegates/base.ts:238-257 | reports whether an established connection was lost, the delay iff a reconnect is scheduled, and leaves it disconnected |
| DeviceDelegates.DeviceDelegate.Detach | src/device-delegates/base.ts:269-279 | the RPC handlers are unsubscribed; each component loses exactly the subscriptions of the delegate's abilities that listen to it and keeps every other one; no transition is pending; accessories stay active and keep their platform accessories |
| DeviceDelegates.DeviceDelegate.DetachAccessories | src/device-delegates/base.ts:275-278 | the loop over the accessories in insertion order, with the same per-component result |
| DeviceDelegates.DeviceDelegate.HeldPlatformAccessories | src/device-delegates/base.ts:288-290 | exactly the non-null platform accessories of the given accessories |
| DeviceDelegates.DeviceDelegate.Destroy | src/device-delegates/base.ts:284-298 | detaches, then removes the held platform accessories in one call, or makes no call when there are none |
| ShellyPlusI4.ButtonAbilities | src/device-delegates/shelly-plus-i4.ts:27-31 | a button per input, active iff the input is a button, then an active service label |
| ShellyPlusI4.AddButtons | src/device-delegates/shelly-plus-i4.ts:24-32 | the `buttons` accessory, active iff some input is a button |
| ShellyPlusI4.AddInputSwitch | src/device-delegates/shelly-plus-i4.ts:35 | a read-only switch accessory, active iff the input is not a button |
| ShellyPlusI4.AddInputSwitchPair | src/device-delegates/shelly-plus-i4.ts:35-36 | two such accessories under distinct free IDs |
| ShellyPlusI4.SwitchIdsDistinct | src/device-delegates/shelly-plus-i4.ts:24-38 | the five accessory IDs are distinct |
| ShellyPlusI4.AddInputSwitches | src/device-delegates/shelly-plus-i4.ts:35-38 | one read-only switch per input, in order |
| ShellyPlusI4.Setup | src/device-delegates/shelly-plus-i4.ts:14-39 | over the four inputs of the delegate's own device, every accessory is created (no duplicate-ID throw): `buttons` first, then `switch0`-`switch3`, with the activations above |
| ShellyPlusI4.OneActivePerInput | src/device-delegates/shelly-plus-i4.ts:27-38 | each input is shown by exactly one active thing: its button in the active `buttons` accessory, or its own switch accessory |
| TwoPmDelegates.AddSwitches | src/device-delegates/shelly-plus-2-pm.ts:18-19 | both switches requested with the same activity; the second fails only when it shares the first one's ID |
| TwoPmDelegates.Setup | src/device-delegates/shelly-plus-2-pm.ts:12-20 | reading the profile, `cover0`, `switch0` and `switch1` from the delegate's own device, the cover is requested active iff the device's profile is `cover`, the switches iff it is not; the three IDs are distinct when the switch ids differ; the Pro 2 PM's setup (src/device-delegates/shelly-pro-2-pm.ts:13-21) is the same code and is this member |
| TwoPmDelegates.AddCoverAndSwitches | src/device-delegates/shelly-plus-2-pm.ts:16-19 | the cover accessory active iff asked, then both switch accessories active iff not; the second switch fails only when it shares the first one's ID |
| TwoPmDelegates.CoverOrSwitch | src/device-delegates/shelly-plus-2-pm.ts:14-19 | cover and switch are never both active; when neither is excluded, exactly one side is |

## Left out

- The Homebridge/HAP host and the Shelly device library are not part of
  this model beyond the small stand-ins in `host.dfy` and `device.dfy`. In
  particular the host's value validation (HAP min/max/step clamping and
  format coercion) is not modelled.
- File I/O and JSON in the device cache, and the file path, are left out.
  `Load` takes the parsed list (or None for a missing file). A fired save
  records the snapshot it would write. The 1000 ms delay is a flag.
- Timers and async/await:
  - A `setTimeout` slot is a `pending` flag drained by an explicit
    `Fire`/`FireSave`.
  - A device command's promise is a `Reply` parameter.
  - Races between a HomeKit write and a device update are not modelled.
- Logging and all log text are left out. `handleRequest` only logs, so it
  is modelled only as one of the three subscribed RPC handlers.
- Floating point: readings are `real`. The energy conversion is exact
  division by 1000.
- The UUID hash is a function the platform is given. Only its input string
  is modelled.
- Casing is ASCII only: non-ASCII letters are left unchanged.
- The device-handler classes, the trivial delegates, and the platform and
  plugin-registration entry points are not part of this model. The device
  handlers are a superseded design. The trivial delegates each make one
  constant `addSwitch` call and one registration. The entry points are
  host plumbing.
- The registry holds the three delegates with their own setup logic, and
  the device classes are stood in for by their model names.
- Runtime profile and configuration changes: the code has no handler for
  them.
- A delegate's constructor calls `setup()`. Here that is the constructor
  followed by the model's `Setup`, which takes the empty delegate the
  constructor leaves.
- The device classes of the Shelly library fix each model's components
  (`cover0`, `switch0`, `switch1` on a 2 PM; `input0`-`input3` on the I4).
  Here a device holds sequences of components, so the per-model `Setup`
  requires the device to have them.
- TwoPmDelegates.Setup: a second switch with the first one's ID gives an
  `Err` result. In the source that throw aborts the delegate's
  construction; the model only reports it.
- DeviceDelegates.NewAbility: assigns `active` directly. On an ability that
  is not set up, the setter only stores the value, so the effect is the
  same.
- DeviceDelegates.DeviceDelegate.SwitchBuilt and `CoverBuilt` (the
  predicates behind AddSwitch and AddCover): these do not restate that the
  abilities are not set up yet. `SwitchAbilities` and `CoverAbilities`
  state it.
- DeviceDelegates.DeviceDelegate.Destroy: states the removal call and that
  no transition is pending. Listener removal is stated by `Detach`, which
  it calls.
- PowerMeterAbility.Initialize: states the resulting values, listeners and
  writable set. It does not state the sequence of published updates.
- AccessoryInformationAbility.Initialize: states the five values and that
  five updates were published. It does not state their order.
- Abilities.Ability.Initialize: states what each concrete initialisation
  leaves on the service and the listeners it adds. Each concrete
  `Initialize` states the full effect.
- Accessories.Accessory.Activate: states the references each ability holds
  and which setups failed. It does not state each ability's service; that
  is `Ability.Setup`'s contract.

## Findings

| source | as written | input that shows it | evidently intended | confidence | as-written member | corrected member |
|---|---|---|---|---|---|---|
| src/abilities/outlet.ts:78-81 | the `change:apower` handler writes the raw power reading (a number) into the boolean OutletInUse characteristic | apower changes to 5.0: the handler publishes 5, while `initialize()` would publish `true` for the same reading (src/abilities/outlet.ts:28-29); the host's coercion of that number is outside this model | publish `apower !== 0`, as `initialize()` does | medium, not executed | OutletAbility.ApowerChangeHandlerAsWritten (with OutletAbility.AsWrittenInUseDisagrees) | OutletAbility.ApowerChangeHandler |
