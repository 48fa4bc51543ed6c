# Smartbox heater integration: a Dafny model

This project models the core of the Smartbox heater integration for Home
Assistant. The integration reads the vendor's heater status, which is an
untyped dictionary of fields such as `mode`, `on`, `boost`,
`selected_temp`, `comfort_temp`, `eco_offset`, `ice_temp`, `stemp` and
`units`. It translates that status into the hub's climate vocabulary:
HVAC mode, HVAC action, preset and target temperature. In the other
direction it builds the status patches that request a mode, a preset or a
temperature. It also keeps an in-memory cache of devices and their nodes,
which the vendor's push channel updates.

The model has six modules:

- `Vocabulary` (`vocabulary.dfy`): the values a status dictionary holds,
  and the node types (`htr`, `acm`, `htr_mod`, `pmo`).
  - It gives the hub's HVAC modes and preset names.
  - It models the Python exceptions as a `Result` datatype. `MissingKey`
    and `UnexpectedValue` are the two kinds of KeyError.
  - It defines Python truthiness, and `d |= patch` as `Merge`.
- `Translation` (`translation.dfy`): the module-level functions of
  `custom_components/smartbox/models.py`. Each getter is proved to invert
  its setter.
- `Cache` (`cache.dfy`): the `SmartboxNode` and `SmartboxDevice` classes of
  `models.py`, as Dafny classes.
  - The push handlers update the cache in place.
  - The hub notifications they send are recorded, in order, in a `signals`
    field of the device.
- `Climate` (`climate.dfy`): the decision logic of the climate entity in
  `custom_components/smartbox/climate.py`.
  - The writes a command awaits are modelled as a list of actions
    (`SetAway`, `SetStatus`).
  - The `Heater` class performs those writes on the cache. Each of its
    commands is proved to leave exactly the node status and away flag that
    its action list describes. The preset command also states the away
    notifications it sends.
  - Round-trip lemmas show that a mode, preset or temperature set through
    the entity reads back.
- `Legacy` (`legacy.dfy`): the functions of the older
  `custom_components/smartbox/model.py` that differ from `models.py`. Each
  is stated against its newer counterpart.
- `LegacyCache` (`legacy_cache.dfy`): the older device and node classes.
  - A pushed status replaces the cached one instead of being merged into it.
  - The away flag and power limit are stored unconditionally.
  - No notifications are sent.

`model.py`'s `get_temperature_unit`, `set_temperature_args`,
`set_hvac_mode_args`, `get_factory_options`, `window_mode_available` and
`true_radiant_available` are the same as those of `models.py`
(`model.py:301-310`, `372-404`, `430-455`, `503-515`). So are the node's
`window_mode`, `true_radiant` and `is_heating` (`model.py:250-288`). Each of
these is defined once, in `Translation` or `Cache`, and the `Legacy` lemmas
use those definitions.

Points of the code's behaviour that are easy to miss:

- In `models.py` a pushed setup replaces the cached setup, while a pushed
  status is merged into it. In `model.py` a pushed status and a pushed
  setup both replace.
- `models.py` updates and announces a node only when the pushed value
  differs from the cached one.
- `preset_mode` tests the truthiness of `boost`, and away outranks boost.
- Entities of non-mod node types also offer boost when the node's
  `boost_config` is truthy.

One observation follows from the proofs (`Climate.ModifiedAutoHasNoPreset`).
A `htr_mod` node in mode `modified_auto` reads as AUTO. Its `preset_mode`,
however, raises ValueError, because the preset table does not list that
mode.

## Model

| member | source | states |
|---|---|---|
| `Vocabulary.Get` | custom_components/smartbox/models.py:458 | `d.get(k, default)`: the stored value when the key is present, the default otherwise |
| `Vocabulary.FalsyValues` | custom_components/smartbox/models.py:461-463 | Python's `bool(...)` of a stored value is false exactly for the empty string, False, zero and the empty dictionary |
| `Vocabulary.Lookup` | custom_components/smartbox/models.py:534-540 | the key is read when present; otherwise the KeyError names that key |
| `Vocabulary.Merge` | custom_components/smartbox/models.py:336 | the in-place dictionary update keeps every key of both sides; the patch's values win and the other values are kept |
| `Vocabulary.AsReal` | custom_components/smartbox/models.py:549 | `float(...)` of a number is that number; booleans read as 1 and 0; a string that does not parse raises ValueError; a dictionary raises TypeError |
| `Vocabulary.ModeTable` | custom_components/smartbox/models.py:613-625 | manual is HEAT; auto, modified_auto, self_learn and presence are AUTO; exactly the other modes raise ValueError |
| `Translation.GetTemperatureUnit` | custom_components/smartbox/models.py:504-514 | no unit without `units`; C and F map to Celsius and Fahrenheit; any other unit raises ValueError |
| `Translation.GetTargetTemperature` | custom_components/smartbox/models.py:543-566 | `htr_mod` gives comfort_temp, comfort_temp − eco_offset (each read with `float()`, failing on the first that fails), ice_temp or 0 for comfort, eco, ice and off; another selection is an unexpected-value KeyError; other types give `stemp`; each missing key raises a KeyError naming it |
| `Translation.ComfortTarget` | custom_components/smartbox/models.py:574-589 | the comfort_temp written for a requested temperature: itself in comfort, plus the eco offset in eco; ValueError in ice; KeyError otherwise |
| `Translation.SetTemperatureArgs` | custom_components/smartbox/models.py:569-601 | `units` is required; other types succeed exactly then and get exactly `{stemp, units}`; a `htr_mod` patch is built exactly when units, mode and eco_offset are present, the selection is comfort or eco, and an eco offset is a number; ice raises ValueError, another selection the unexpected-value KeyError, and a missing selected_temp, eco_offset or mode a KeyError naming it; the patch has `on` true, carries mode, selected_temp, eco_offset and units unchanged, and holds the comfort target |
| `Translation.GetHvacMode` | custom_components/smartbox/models.py:604-625 | boost forces HEAT; otherwise OFF iff mode off or a `htr_mod` `on` is falsy; HEAT iff manual and switched on; AUTO iff an automatic mode and switched on; missing `mode` or `on` raise KeyError; other modes raise ValueError |
| `Translation.SetHvacModeArgs` | custom_components/smartbox/models.py:628-654 | succeeds exactly for OFF, HEAT and AUTO (a `htr_mod` HEAT needs `selected_temp`); other types get exactly `{mode}` set to off, manual or auto; `htr_mod` gets exactly `{on: false}`, `{selected_temp copied, on: true, mode: manual}` or `{on: true, mode: auto}`; no patch touches `boost` |
| `Translation.SetPresetModeStatusUpdate` | custom_components/smartbox/models.py:657-680 | non-mod types raise ValueError; home, away and none fail the assertion; it succeeds exactly for the six mod presets, each with its exact patch: schedule `{on, mode: auto}` (the AUTO patch), self_learn `{on, mode: self_learn}`, activity `{on, mode: presence}`, comfort, eco and frost `{on, mode: manual, selected_temp: comfort/eco/ice}`, with `on` true; other presets raise ValueError |
| `Translation.GetFactoryOptions` | custom_components/smartbox/models.py:683-685 | the setup's factory options, an empty dictionary when absent |
| `Translation.FactoryOption` | custom_components/smartbox/models.py:452 | a factory option with its default; AttributeError when the factory options are not a dictionary |
| `Translation.WindowModeAvailable` | custom_components/smartbox/models.py:688-690 | false without factory options, else the option `window_mode_available` (default false); AttributeError when the factory options are not a dictionary |
| `Translation.TrueRadiantAvailable` | custom_components/smartbox/models.py:693-695 | false without factory options, else the option `true_radiant_available` (default false); AttributeError when the factory options are not a dictionary |
| `Translation.TemperatureRoundTrip` | custom_components/smartbox/models.py:543-601 | merging a temperature patch that could be built, then reading the target back, gives the requested temperature, for every node type and for `htr_mod` in comfort and in eco |
| `Translation.TemperaturePatchKeepsUnit` | custom_components/smartbox/models.py:569-601 | a temperature patch never changes the reported unit |
| `Translation.HvacModeRoundTrip` | custom_components/smartbox/models.py:604-654 | without boost, merging the patch for OFF, HEAT or AUTO and reading the mode back gives that mode |
| `Translation.SetHvacModeIdempotent` | custom_components/smartbox/models.py:628-654 | requesting the same mode again from the resulting status changes nothing |
| `Translation.AutoWriteBackNormalises` | custom_components/smartbox/models.py:604-654 | writing back a status that reads as AUTO sets `mode` to `auto`, so presence, self_learn and modified_auto are rewritten, and it still reads as AUTO |
| `Translation.PresetPatchIndependentOfStatus` | custom_components/smartbox/models.py:667-680 | the preset patches do not depend on the status |
| `Translation.EcoExample` | custom_components/smartbox/models.py:550-553 | comfort 24.3 with eco offset 4 reads as 20.3 |
| `Cache.AwaySignals` | custom_components/smartbox/models.py:124-127 | one away notification per node, in node order, carrying the new flag |
| `Cache.IsHeating` | custom_components/smartbox/models.py:405-411 | an accumulator reports `charging`, every other node `active`; a missing key raises KeyError |
| `Cache.WindowMode` | custom_components/smartbox/models.py:362-368 | the setup's window-mode flag; KeyError when absent |
| `Cache.TrueRadiant` | custom_components/smartbox/models.py:380-386 | the setup's true-radiant flag; KeyError when absent |
| `Cache.Node.constructor` | custom_components/smartbox/models.py:241-256 | a node starts from the given type, address, status, setup and samples |
| `Cache.Node.UpdateStatus` | custom_components/smartbox/models.py:315-318 | the pushed keys are merged into the cached status; other keys are kept |
| `Cache.Node.UpdateSetup` | custom_components/smartbox/models.py:325-328 | the pushed setup replaces the cached setup |
| `Cache.Node.SetStatus` | custom_components/smartbox/models.py:330-337 | the requested keys are merged into the cached status, which is returned |
| `Cache.Node.UpdatePower` | custom_components/smartbox/models.py:413-418 | only the status's `power` changes, to the fetched value |
| `Cache.Node.UpdateSamples` | custom_components/smartbox/models.py:420-429 | a fetch of at least two samples leaves its last two; a shorter fetch changes nothing |
| `Cache.Node.TotalEnergy` | custom_components/smartbox/models.py:442-447 | none exactly when there are no samples, else the latest sample's counter |
| `Cache.Node.SetWindowMode` | custom_components/smartbox/models.py:370-378 | only the window-mode flag changes; it then reads back as requested and is returned |
| `Cache.Node.SetTrueRadiant` | custom_components/smartbox/models.py:388-395 | only the true-radiant flag changes, and it then reads back as requested |
| `Cache.Node.Boost` | custom_components/smartbox/models.py:455-458 | the boost flag, false when absent; truthy exactly when the status is boosting |
| `Cache.Node.BoostConfig` | custom_components/smartbox/models.py:449-453 | the factory option `boost_config`, 0 when absent; AttributeError when the factory options are not a dictionary |
| `Cache.Node.BoostAvailable` | custom_components/smartbox/models.py:460-463 | succeeds exactly when the boost configuration can be read, and is then its truthiness (false without factory options); otherwise the configuration's error |
| `Cache.Node.HeaterNode` | custom_components/smartbox/models.py:465-468 | every node type but the power monitor gets a climate entity |
| `Cache.Node.UpdateDeviceAwayStatus` | custom_components/smartbox/models.py:354-356 | goes through the device's away path: the flag is set and a change is announced to every node |
| `Cache.Device.constructor` | custom_components/smartbox/models.py:58-65 | a device starts not away, with power limit 0, unknown connection and no nodes |
| `Cache.Device.AddNode` | custom_components/smartbox/models.py:98 | files the node under its type and address, appending a new key to the node order; keeps `Valid` |
| `Cache.Device.NodeList` | custom_components/smartbox/models.py:191-195 | the cached node objects themselves, in the order they were added |
| `Cache.Device.Connected` | custom_components/smartbox/models.py:110-117 | stores the connection state and always announces it |
| `Cache.Device.AwayStatusUpdate` | custom_components/smartbox/models.py:119-127 | a changed flag is stored and announced to every node in order; an unchanged flag changes nothing |
| `Cache.Device.PowerLimitUpdate` | custom_components/smartbox/models.py:129-135 | a changed limit is stored and announced once; an unchanged one changes nothing |
| `Cache.Device.NodeStatusUpdate` | custom_components/smartbox/models.py:137-153 | pmo updates, missing updates and unknown nodes change nothing; a known node's differing status is merged and announced; no other node changes |
| `Cache.Device.NodeSetupUpdate` | custom_components/smartbox/models.py:155-169 | an unknown node changes nothing; a known node's differing setup replaces it and is announced; no other node changes |
| `Cache.Device.SetAwayStatus` | custom_components/smartbox/models.py:222-225 | after the write, the same as a pushed away flag |
| `Cache.Device.SetPowerLimit` | custom_components/smartbox/models.py:232-235 | stores the limit without a notification |
| `Climate.HvacModes` | custom_components/smartbox/climate.py:139-142 | HEAT, AUTO and OFF, in that order: exactly the modes the mode patch supports |
| `Climate.TemperatureUnit` | custom_components/smartbox/climate.py:94-100 | the status's unit, Celsius when none is named; an unknown unit raises ValueError |
| `Climate.GetHvacAction` | custom_components/smartbox/climate.py:119-132 | HEATING when heating; OFF iff not heating, switched off and not boosting; IDLE iff not heating and not OFF; it fails exactly when a key it reads is missing, with the KeyError naming the first one read: `charging`/`active`, then `mode`, then `on` |
| `Climate.PresetMode` | custom_components/smartbox/climate.py:152-184 | away, then boost, then the `htr_mod` table (auto, presence, self_learn, manual with comfort, eco or ice); unknown modes and selections raise ValueError; other types give home |
| `Climate.PresetModeList` | custom_components/smartbox/climate.py:186-205 | starts with away; has boost iff it is available; has the six mod presets iff `htr_mod`, and home otherwise; no preset twice |
| `Climate.SetHvacModeOutcome` | custom_components/smartbox/climate.py:144-150 | one status write with the mode patch, plus `boost` false exactly when boosting; no write when the patch raises |
| `Climate.SetTemperatureOutcome` | custom_components/smartbox/climate.py:112-117 | no write without a temperature; otherwise the temperature patch, or its exception |
| `Climate.SetPresetModeOutcome` | custom_components/smartbox/climate.py:207-221 | away only sets away; any other preset first clears a set away flag; boost then writes `boost` alone; `htr_mod` writes the preset patch or raises; other types stop |
| `Climate.PresetClearsAway` | custom_components/smartbox/climate.py:207-213 | any preset but away leaves the device not away, even when the preset then raises |
| `Climate.HvacModeCommandRoundTrip` | custom_components/smartbox/climate.py:134-150 | every mode of `hvac_modes` reads back after it is set through the entity, boosting or not |
| `Climate.TemperatureCommandRoundTrip` | custom_components/smartbox/climate.py:107-117 | a temperature set through the entity reads back as the target temperature |
| `Climate.PresetCommandRoundTrip` | custom_components/smartbox/climate.py:152-221 | every offered preset reads back after it is chosen when the node is not boosting (away and boost always do) |
| `Climate.ModPresetKeepsBoost` | custom_components/smartbox/climate.py:207-221 | a mod preset chosen on a boosting `htr_mod` node succeeds but leaves boost set, so the node still reports boost |
| `Climate.HvacModeCommandClearsBoost` | custom_components/smartbox/climate.py:144-150 | a mode command on a boosting node clears boost |
| `Climate.ActionOffIffModeOff` | custom_components/smartbox/climate.py:119-137 | a node that is not heating shows action OFF exactly when its mode is OFF |
| `Climate.ModifiedAutoHasNoPreset` | custom_components/smartbox/climate.py:159-183 | a `htr_mod` node in `modified_auto` reads as AUTO but its preset raises ValueError |
| `Climate.Heater.constructor` | custom_components/smartbox/climate.py:79-84 | the entity is bound to its node |
| `Climate.Heater.PresetModes` | custom_components/smartbox/climate.py:186-205 | builds exactly the preset list of `PresetModeList`, or raises when the boost configuration cannot be read |
| `Climate.Heater.AsyncSetHvacMode` | custom_components/smartbox/climate.py:144-150 | leaves exactly the state `SetHvacModeOutcome` describes and reports its exception |
| `Climate.Heater.AsyncTurnOff` | custom_components/smartbox/climate.py:86-88 | the OFF mode command |
| `Climate.Heater.AsyncTurnOn` | custom_components/smartbox/climate.py:90-92 | the AUTO mode command |
| `Climate.Heater.AsyncSetTemperature` | custom_components/smartbox/climate.py:112-117 | leaves exactly the state `SetTemperatureOutcome` describes and reports its exception |
| `Climate.Heater.AsyncSetPresetMode` | custom_components/smartbox/climate.py:207-221 | leaves exactly the status and away flag `SetPresetModeOutcome` describes and reports its exception; the away notifications sent are those of a change of the flag (away set, or away cleared) and no others |
| `Legacy.IsHeaterNode` | custom_components/smartbox/model.py:291-293 | true exactly for acm, htr and htr_mod |
| `Legacy.IsSupportedNode` | custom_components/smartbox/model.py:296-298 | the supported nodes are exactly the heaters |
| `Legacy.GetHvacMode` | custom_components/smartbox/model.py:407-427 | no boost override: OFF, HEAT and AUTO from mode and `on` alone, with the same KeyError and ValueError cases |
| `Legacy.GetTargetTemperature` | custom_components/smartbox/model.py:349-369 | the same as the newer getter except that `selected_temp` off raises the unexpected-value KeyError |
| `Legacy.HtrModPresetMode` | custom_components/smartbox/model.py:458-476 | auto, presence and self_learn give schedule, activity and self_learn; manual with comfort, eco or ice gives comfort, eco or frost; everything else raises ValueError |
| `Legacy.SetPresetModeStatusUpdate` | custom_components/smartbox/model.py:479-500 | the same as the newer patch builder except that `none` on `htr_mod` raises ValueError, not an assertion |
| `Legacy.PresetRoundTrip` | custom_components/smartbox/model.py:458-500 | each of the six mod presets reads back through the preset table after its patch is merged |
| `Legacy.HvacModeRoundTrip` | custom_components/smartbox/model.py:407-455 | the older getter inverts the mode patch even while boosting |
| `Legacy.HvacModeVariantsAgreeWithoutBoost` | custom_components/smartbox/model.py:407-427 | the two mode getters agree whenever the node is not boosting |
| `Legacy.BoostedOffHeaterDisagrees` | custom_components/smartbox/model.py:407-415 | a boosting heater in mode off is HEAT to the newer getter and OFF to the older |
| `Legacy.PresetTablesAgree` | custom_components/smartbox/model.py:458-476 | the entity's `htr_mod` preset table and the older preset table agree |
| `LegacyCache.Node.constructor` | custom_components/smartbox/model.py:170-183 | a node starts from the given type, address, status and setup |
| `LegacyCache.Node.UpdateStatus` | custom_components/smartbox/model.py:210-213 | the pushed status replaces the cached one; keys it leaves out are dropped |
| `LegacyCache.Node.UpdateSetup` | custom_components/smartbox/model.py:220-223 | the pushed setup replaces the cached setup |
| `LegacyCache.Node.SetStatus` | custom_components/smartbox/model.py:225-230 | the requested keys are merged into the cached status, which is returned |
| `LegacyCache.Node.UpdateDeviceAwayStatus` | custom_components/smartbox/model.py:242-244 | sets the owning device's away flag |
| `LegacyCache.Node.SetWindowMode` | custom_components/smartbox/model.py:259-264 | only the window-mode flag changes, and it then reads back as requested |
| `LegacyCache.Node.SetTrueRadiant` | custom_components/smartbox/model.py:275-280 | only the true-radiant flag changes, and it then reads back as requested |
| `LegacyCache.Device.constructor` | custom_components/smartbox/model.py:38-49 | a device starts not away, with power limit 0 and no nodes |
| `LegacyCache.Device.AddNode` | custom_components/smartbox/model.py:68 | files the node under its type and address, appending a new key to the node order; keeps `Valid` |
| `LegacyCache.Device.NodeList` | custom_components/smartbox/model.py:120-124 | the cached node objects themselves, in the order they were added |
| `LegacyCache.Device.AwayStatusUpdate` | custom_components/smartbox/model.py:83-85 | stores the pushed flag, changed or not |
| `LegacyCache.Device.PowerLimitUpdate` | custom_components/smartbox/model.py:87-89 | stores the pushed limit, changed or not |
| `LegacyCache.Device.NodeStatusUpdate` | custom_components/smartbox/model.py:91-101 | a known node of any type gets the pushed status in place of its own; an unknown node changes nothing; no other node changes |
| `LegacyCache.Device.NodeSetupUpdate` | custom_components/smartbox/model.py:103-113 | a known node's setup is replaced; an unknown node changes nothing; no other node changes |
| `LegacyCache.Device.SetAwayStatus` | custom_components/smartbox/model.py:151-154 | stores the flag after the write |
| `LegacyCache.Device.SetPowerLimit` | custom_components/smartbox/model.py:161-164 | stores the limit after the write |

## Left out

- Vendor session and push channel: `initialise_nodes`, `SmartboxNode.create`, `get_devices`, `create_smartbox_device`, the `UpdateManager` subscriptions and the watchdog task are I/O. The filing of each fetched node is modelled by `AddNode`.
- Vendor writes: every `set_*` method is modelled from the point where the vendor write has succeeded. A write that raises is not modelled.
- Dispatcher notifications are recorded as `Signal` values. The signal name strings (domain, device id, node id) and the hub's dispatcher are not modelled.
- Cache.Device.AwayStatusUpdate: takes the flag that the pushed `{"away": …}` payload carries. A payload without `away`, which raises KeyError, is not modelled.
- LegacyCache.Device.AwayStatusUpdate: takes the pushed flag in the same way, so a payload without `away` is not modelled either.
- Fetches: `update_power`, `update_samples` and `get_samples` take the fetched value as a parameter. The three-hour sample window is not modelled because it depends on the clock.
- `remaining_boost_time` and `boost_end_min` depend on the wall clock and time zones. `boost_end_min` only feeds `remaining_boost_time`.
- `boost_time` and `boost_temp` read defaults (`DEFAULT_BOOST_TIME`, `DEFAULT_BOOST_TEMP`) that are not part of this model.
- Cache.Node.BoostAvailable: the `BoostConfig` enumeration is not part of this model. Availability is taken as the truthiness of the raw `boost_config` value, and a value outside the enumeration, which raises ValueError, is not modelled.
- Cache.Node.BoostConfig: returns the raw `boost_config` value. The conversion to the `BoostConfig` enumeration, and the ValueError it raises for a value outside it, are not modelled because that enumeration is not part of this model.
- Cache.Device.NodeSetupUpdate: takes a dictionary. The handler stores a `None` setup push as it comes, with no test for `None`; a setup that is not a dictionary is not modelled.
- LegacyCache.Device.NodeSetupUpdate: takes a dictionary. The older handler also stores a `None` setup push as it comes; a setup that is not a dictionary is not modelled.
- LegacyCache.Device.NodeStatusUpdate: takes a dictionary. The older handler passes a `None` push on unchecked, so the cached status becomes `None`; a status that is not a dictionary is not modelled.
- `set_extra_options` only issues a vendor write and changes no cached state.
- Float parsing and formatting: numeric fields are taken as already parsed reals. `str(...)` of the temperatures written into patches is not modelled; a written temperature stays a number.
- Python equality across types (`1 == True`) is not modelled. Values of different kinds are always different.
- Projections of stored data: `name`, `node_id`, `node_info`, `node_type`, `addr`, `status`, `setup`, `device`, `session`, `dev_id`, `home`, `model_id`, `sw_version`, `serial_number`, `away`, `power_limit`, `connected` and `async_update` return a field as stored.
- The climate entity keeps its own copy of the node status, refreshed by base-class code that is not part of this model. That copy is taken equal to the node's status.
- The climate entity's `hvac_mode` and `target_temperature` call `get_hvac_mode` and `get_target_temperature` directly.
- Climate entity glue: `current_temperature`, `extra_state_attributes`, `available` and `async_setup_entry` are not modelled. `async_setup_entry` keeps the nodes for which `Cache.Node.HeaterNode` holds.
- `sensor.py`, `switch.py`, `number.py`, `binary_sensor.py`, `config_flow.py`, `__init__.py`, `diagnostics.py` and `system_health.py` are framework glue and are not part of this model.
