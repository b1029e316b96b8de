# Unity-DirectInput: NWH integration, modelled in Dafny

This project models the four C# components that link DirectInput devices
(wheels, pedals, joysticks) to NWH Vehicle Physics:

- **`DeviceMappingProfile`**: a profile asset. It holds a product-name
  substring and 34 mapping fields: five axes with inversion flags and 24
  buttons. Its field initialisers are the Logitech G29 layout.
- **`NWHDirectInputProvider`**: the per-vehicle input provider. It holds a
  device identifier and a copy of a profile's mapping. Each frame it decodes
  the device's `FlatJoyState2` snapshot into the axis and button values the
  vehicle reads. `LoadProfile` copies a profile's mapping in.
- **`DirectInputAutoBinder`**: reacts when a device appears. If the device
  is a joystick, gamepad or driving device that is not yet active, it
  attaches the device. It then points the provider at the device and loads
  the first supported profile whose substring occurs in the device's
  product name, ignoring case. A null slot in the profile list, reached
  before any applicable profile, throws, and later profiles are never
  loaded.
- **`InputBindingExample`**: a demonstration of interactive rebinding. After
  "Bind" is clicked, each frame looks for the first device whose button
  went from released to pressed, or whose axis moved by more than 5000. The
  pending action is bound to that input. The component also offers a G29
  preset, a cancel button and an invert toggle for axis actions, and it
  remembers the snapshots of the previous frame.

Modules:

- `Snapshot` (`snapshot.dfy`): the joystick snapshot, device records, and
  the bit reading of the two 64-bit button masks.
- `Profiles` (`mapping_profile.dfy`): the mapping record and the profile
  asset.
- `Provider` (`provider.dfy`): the provider class and the pure decoding
  that its `Update` performs.
- `AutoBind` (`auto_binder.dfy`): the device-type test, the
  case-insensitive substring search and the binder class.
- `InputBinding` (`input_binding.dfy`): the binding demo. Its actions are an
  `InputAction` class, and the component is a class whose methods change
  the binding state in place.
- `Wrappers` (`wrappers.dfy`): `Option`.

The device manager (`DIManager`) is outside the model. Each operation takes
what it reads from the manager as parameters:
- the active-device list, in enumeration order, with this frame's
  snapshots;
- the result of an attach request;
- the device list after the attach.

### Behaviour of the code worth knowing

- `GetAxisValue` never fails. Any index outside 0..7, the unbound value -1
  included, reads the register value 32767. So an unbound steering,
  throttle, brake or clutch axis reads just under half scale when
  uninverted and just over it when inverted, as the default throttle, brake
  and clutch are. Only the handbrake checks for an unbound axis and reads 0 (`Provider.HandbrakeShortCircuit`,
  `Provider.UnboundAxesReadMidScale`).
- The provider's `IsButtonPressed` returns false for a negative index.
  From 64 on it shifts `buttonsB` by `index - 64`. C# reduces a shift count
  of a 64-bit value to six bits, so index 128 reads the same bit as index 64
  (`Provider.HighIndicesAlias`).
- The binding demo's own `IsButtonPressed` has no negative check. Index -1
  reads bit 63 of `buttonsA` (`InputBinding.NegativeIndexReadsLowMask`).
  The capture loop only asks for 0..127, where both readers agree
  (`InputBinding.SameButtonAsProvider`).
- Capture axis 6 is `rglSlider[0]`, while the provider's axis 6 is `lU`.
  The G29 preset binds the clutch to axis 6, but the profile default for
  the clutch is axis 2 (Z), although the comment beside the provider's
  clutch default (NWHDirectInputProvider.cs:32) names Slider0 as well.
- The `isCentered` flag of `MapAxis` has no effect: both branches
  interpolate the same way (`Provider.CenteredFlagIgnored`).

## Model

| member | source | states |
|---|---|---|
| `Snapshot.Lookup` | Runtime/DirectInputAutoBinder.cs:118 | The lookup is absent exactly when no active device has the identifier. When present, it is an active device with that identifier. |
| `Snapshot.BitIsShift` | Runtime/NWHDirectInputProvider.cs:268 | The recursive bit reading equals the C# formula `((mask >> k) & 1) == 1` for every k in 0..63. |
| `Snapshot.ToggleBit` | Runtime/NWHDirectInputProvider.cs:268-269 | Flipping bit k of a mask flips the reading of bit k and leaves the reading of every other bit unchanged. |
| `Profiles.DefaultAxes` | Runtime/DeviceMappingProfile.cs:12-25 | Default axes: steering 0 uninverted; throttle 1, brake 5 and clutch 2 inverted; handbrake -1 uninverted. |
| `Profiles.DefaultButtons` | Runtime/DeviceMappingProfile.cs:28-57 | Default buttons: shift up 4, shift down 5, engine start/stop 24. All 21 light, module and H-shifter buttons are -1. |
| `Provider.AxisValue` | Runtime/NWHDirectInputProvider.cs:249-263 | Indices 0..7 select X, Y, Z, Rx, Ry, Rz, U, V in order. Every other index reads 32767. |
| `Provider.ButtonPressed` | Runtime/NWHDirectInputProvider.cs:265-270 | A negative button index is never pressed. |
| `Provider.ButtonBits` | Runtime/NWHDirectInputProvider.cs:268-269 | Indices 0..63 read bit `index` of `buttonsA`. Indices 64..127 read bit `index - 64` of `buttonsB`. |
| `Provider.ButtonReadsOneBit` | Runtime/NWHDirectInputProvider.cs:265-270 | Each index 0..127 depends on exactly one mask bit. Flipping that bit flips the button; flipping any other bit leaves it unchanged. |
| `Provider.NegativeButtonIgnoresState` | Runtime/NWHDirectInputProvider.cs:267 | A negative index reads false for every snapshot. |
| `Provider.HighIndicesAlias` | Runtime/NWHDirectInputProvider.cs:269 | An index of 128 or more reads the same bit as `64 + (index - 64) % 64`, because of the six-bit shift count. |
| `Provider.Lerp` | Runtime/NWHDirectInputProvider.cs:195 | When the ends are ordered (`a <= b`), Unity's clamped interpolation never leaves the interval between them. |
| `Provider.MapAxis` | Runtime/NWHDirectInputProvider.cs:186-201 | When minOut <= maxOut, as at every call site (NWHDirectInputProvider.cs:150-154), the mapped value lies in [minOut, maxOut] whatever the raw value. |
| `Provider.CenteredFlagIgnored` | Runtime/NWHDirectInputProvider.cs:193-200 | The centred and one-sided branches give the same result. |
| `Provider.MapAxisEndpoints` | Runtime/NWHDirectInputProvider.cs:188-195 | Raw 0 maps to minOut and raw 65535 to maxOut. When inverted, raw 0 maps to maxOut. |
| `Provider.InvertMirrors` | Runtime/NWHDirectInputProvider.cs:189-191 | On raw values 0..65535, the inverted [0, 1] reading is one minus the uninverted one. |
| `Provider.MapAxisMonotone` | Runtime/NWHDirectInputProvider.cs:188-195 | When minOut <= maxOut, as at every call site (NWHDirectInputProvider.cs:150-154), a larger raw value on an uninverted axis never maps to a smaller output. |
| `Provider.ButtonsFollowMapping` | Runtime/NWHDirectInputProvider.cs:157-183 | Each of the 24 button outputs is the snapshot's state of the button index its mapping field names. An unbound (negative) index is never pressed. |
| `Provider.HandbrakeShortCircuit` | Runtime/NWHDirectInputProvider.cs:154 | An unbound handbrake reads 0 for every snapshot. |
| `Provider.UnboundAxesReadMidScale` | Runtime/NWHDirectInputProvider.cs:150-153 | An unbound steering reads -1/65535 uninverted and +1/65535 inverted. An unbound throttle, brake or clutch reads 32767/65535 uninverted and 32768/65535 inverted. |
| `Provider.Decode` | Runtime/NWHDirectInputProvider.cs:150-183 | For every mapping and snapshot, steering stays in [-1, 1], and throttle, brake, clutch and handbrake stay in [0, 1]. |
| `Provider.DefaultMappingFrame` | Runtime/NWHDirectInputProvider.cs:150-183 | With the default mapping the handbrake is 0 and all 21 light, module and H-shifter outputs are off. Shift up, shift down and engine start/stop read `buttonsA` bits 4, 5 and 24. |
| `Provider.NWHDirectInputProvider.constructor` | Runtime/NWHDirectInputProvider.cs:20-103 | A new provider has no device, the profile asset's default mapping, and every output zero or released. |
| `Provider.NWHDirectInputProvider.Update` | Runtime/NWHDirectInputProvider.cs:142-184 | With no identifier or an inactive device, the outputs are unchanged. Otherwise every output is recomputed from the device's current snapshot by the mapping (`Decode`). |
| `Provider.NWHDirectInputProvider.LoadProfile` | Runtime/NWHDirectInputProvider.cs:203-247 | A null profile changes nothing. Otherwise all 34 mapping fields become the profile's, and nothing else changes. |
| `AutoBind.MainType` | Runtime/DirectInputAutoBinder.cs:70 | The main type lies in 0..255. That eligibility and the type name depend only on the low byte is stated by `IsEligible` and `SubtypeIgnored`. |
| `AutoBind.IsEligible` | Runtime/DirectInputAutoBinder.cs:70-74 | The eligibility test holds exactly when the low byte of the device type is 0x14, 0x15 or 0x16. |
| `AutoBind.DeviceTypeName` | Runtime/DirectInputAutoBinder.cs:94-103 | The name is "Driving/Wheel" exactly for 22, "Joystick" exactly for 20, "Gamepad" exactly for 21, and "Unknown" for every other main type. |
| `AutoBind.EligibleIffNamed` | Runtime/DirectInputAutoBinder.cs:70-74 | A device is eligible for attaching exactly when its low byte is 0x14, 0x15 or 0x16. These are exactly the types `GetDeviceTypeName` does not call "Unknown". Attaching also needs the device to be inactive and the attach to succeed (`CheckAndBindDevice`). |
| `AutoBind.SubtypeIgnored` | Runtime/DirectInputAutoBinder.cs:94-103 | Bytes above the low byte affect neither eligibility nor the type name. |
| `AutoBind.FoldMergesCase` | Runtime/DirectInputAutoBinder.cs:128 | A lower-case letter and its upper-case form fold to the same character. |
| `AutoBind.IndexOfIgnoreCase` | Runtime/DirectInputAutoBinder.cs:128 | Returns the first position where the needle occurs ignoring case, or -1 exactly when it occurs nowhere. |
| `AutoBind.IndexOfIgnoresCase` | Runtime/DirectInputAutoBinder.cs:128 | Two needles that differ only in case give the same search result. |
| `AutoBind.EmptySubstringNeverMatches` | Runtime/DirectInputAutoBinder.cs:127 | A profile with a null or empty substring never applies. |
| `AutoBind.ScanStop` | Runtime/DirectInputAutoBinder.cs:125-134 | The scan stops at the first slot that is null or holds an applicable profile. Every slot before it holds a profile that does not apply. It runs to the end when there is no such slot. |
| `AutoBind.ScanStopIsFirstApplicable` | Runtime/DirectInputAutoBinder.cs:125-134 | A slot is the first applicable one reached by the scan exactly when the scan stops there on a profile. |
| `AutoBind.ProfileFor` | Runtime/DirectInputAutoBinder.cs:118-135 | A profile is chosen exactly when the device is active, the list exists, and some slot holds an applicable profile with only non-null, non-applicable slots before it. The chosen profile is that first one. |
| `AutoBind.ProfileForWithoutNullSlots` | Runtime/DirectInputAutoBinder.cs:118-135 | Without null slots, nothing is chosen exactly when the device is inactive or no profile applies. Otherwise the first applicable profile is chosen. |
| `AutoBind.NullSlotHidesLaterProfiles` | Runtime/DirectInputAutoBinder.cs:125-127 | When the scan reaches a null slot first, no profile is loaded, even if a later one applies. |
| `AutoBind.DirectInputAutoBinder.constructor` | Runtime/DirectInputAutoBinder.cs:105 | The binder keeps the given profile list; null is `None`. |
| `AutoBind.DirectInputAutoBinder.BindToNWHProvider` | Runtime/DirectInputAutoBinder.cs:107-150 | With no provider nothing happens. Otherwise the provider's identifier becomes the device's and its outputs are kept. Its mapping becomes the chosen profile's (`ProfileFor`), or stays as it was. `faulted` reports exactly the escaping exception of a null slot reached first, and then the identifier is already set. |
| `AutoBind.DirectInputAutoBinder.CheckAndBindDevice` | Runtime/DirectInputAutoBinder.cs:64-92 | An attach is requested exactly for an eligible device that is not active. The provider changes only when that attach succeeds, and then as `BindToNWHProvider` on the post-attach device list specifies. The exception of a null slot escapes exactly in that case. |
| `InputBinding.ButtonPressed` | Runtime/InputBindingExample.cs:138-148 | On the indices 0..127 that capture scans, the demo reads the same button as the provider. A negative index reads bit `index % 64` of `buttonsA`. |
| `InputBinding.SameButtonAsProvider` | Runtime/InputBindingExample.cs:138-148 | On indices 0..127 the demo's button reading agrees with the provider's: mask A below 64, mask B bit `index - 64` above. |
| `InputBinding.NegativeIndexReadsLowMask` | Runtime/InputBindingExample.cs:140-142 | Index -1 reads bit 63 of `buttonsA` in the demo, while the provider reads it as released. |
| `InputBinding.Abs` | Runtime/InputBindingExample.cs:131 | The absolute value is non-negative and is x or -x. |
| `InputBinding.FirstRisingEdgeSpec` | Runtime/InputBindingExample.cs:106-113 | The button scan finds the first index in 0..127 that is pressed now and was released before, or none exactly when there is no such index. |
| `InputBinding.FirstMovedAxisSpec` | Runtime/InputBindingExample.cs:116-122 | The axis scan finds the first of X, Y, Z, Rx, Ry, Rz, slider 0 that moved by more than 5000, or none exactly when none did. |
| `InputBinding.ActivitySpec` | Runtime/InputBindingExample.cs:105-122 | A device yields a button hit when some button rose, and otherwise an axis hit for the first moved axis. It yields nothing exactly when neither happened. |
| `InputBinding.ButtonActivity` | Runtime/InputBindingExample.cs:106-111 | The first rising button is what the device yields, as a button hit for that device. |
| `InputBinding.AxisActivity` | Runtime/InputBindingExample.cs:116-122 | With no rising button, the device yields exactly the first moved axis as an axis hit. |
| `InputBinding.DetectFrom` | Runtime/InputBindingExample.cs:96-125 | There is no hit exactly when every device is quiet. A hit always comes from a device that has a remembered snapshot. |
| `InputBinding.DetectPicksFirstActive` | Runtime/InputBindingExample.cs:96-125 | The hit is the activity of the first device in enumeration order that has a remembered snapshot and activity. |
| `InputBinding.RememberKeys` | Runtime/InputBindingExample.cs:79-91 | After the update, the remembered devices are the old ones plus every active device. Devices that are no longer active keep their old snapshot. |
| `InputBinding.RememberValues` | Runtime/InputBindingExample.cs:83-90 | After the update, every active device's remembered snapshot is its current one. |
| `InputBinding.FirstNamed` | Runtime/InputBindingExample.cs:206 | `Actions.Find` returns the first action with that name, or none exactly when there is no such action. |
| `InputBinding.SetBindChangesFirstMatchOnly` | Runtime/InputBindingExample.cs:204-216 | `SetBind` rebinds only the first action with the name. With no such action, nothing changes. |
| `InputBinding.ApplyPreset` | Runtime/InputBindingExample.cs:186-199 | Applying a preset keeps the number of actions. |
| `InputBinding.ApplyPresetSpec` | Runtime/InputBindingExample.cs:186-199 | With distinct names in the preset, every action targeted by an entry gets that entry's binding. Every other action is unchanged. |
| `InputBinding.G29PresetSpec` | Runtime/InputBindingExample.cs:184-199 | The G29 preset binds Steer, Throttle, Brake, Clutch, ShiftUp and ShiftDown to their entries and leaves other actions alone. |
| `InputBinding.G29PresetSteps` | Runtime/InputBindingExample.cs:186-199 | The six successive `SetBind` calls compose to the preset. |
| `InputBinding.NatToStringValue` | Runtime/InputBindingExample.cs:28 | The decimal digits of a natural number spell that number. |
| `InputBinding.NatToStringCanonical` | Runtime/InputBindingExample.cs:28 | The decimal text has no leading zero: a positive number starts with a non-zero digit, and 0 is "0". |
| `InputBinding.IntToString` | Runtime/InputBindingExample.cs:28 | The decimal text of an integer is non-empty, starts with '-' exactly when the integer is negative, and ends in a digit. |
| `InputBinding.IntToStringValue` | Runtime/InputBindingExample.cs:28 | The text of a non-negative integer spells it. The text of a negative one is '-' followed by the digits of its magnitude. |
| `InputBinding.Label` | Runtime/InputBindingExample.cs:24-29 | The label is "<None>" exactly when the binding is unbound. A bound label is at least eight characters longer than the product name. |
| `InputBinding.LabelShape` | Runtime/InputBindingExample.cs:24-29 | The label is "<None>" exactly when the action is unbound. A bound label starts with the product name and ends in ")" exactly when the action is inverted. |
| `InputBinding.InputAction.constructor` | Runtime/InputBindingExample.cs:11-22 | A new action has its names and no binding. |
| `InputBinding.InputAction.GetBindingString` | Runtime/InputBindingExample.cs:24-29 | The binding text is "<None>" exactly when the action is unbound. |
| `InputBinding.InputBindingExample.constructor` | Runtime/InputBindingExample.cs:40-53 | A new component has six unbound actions named Steer, Throttle, Brake, Clutch, ShiftUp and ShiftDown, displayed as Steering, Throttle, Brake, Clutch, Shift Up and Shift Down. It is not binding and remembers no snapshots. |
| `InputBinding.InputBindingExample.BeginBinding` | Runtime/InputBindingExample.cs:251-256 | When not binding, clicking Bind on a listed action starts binding it. |
| `InputBinding.InputBindingExample.CancelBinding` | Runtime/InputBindingExample.cs:235-238 | Cancelling stops binding and clears the pending action. |
| `InputBinding.InputBindingExample.SetInvert` | Runtime/InputBindingExample.cs:259-263 | The invert toggle of an axis action changes only its invert flag. |
| `InputBinding.InputBindingExample.BindAction` | Runtime/InputBindingExample.cs:150-162 | The action gets the captured binding with invert reset. Binding stops and the pending action is cleared. |
| `InputBinding.InputBindingExample.CheckAxis` | Runtime/InputBindingExample.cs:128-136 | While binding, a move of more than 5000 binds the pending action to that axis. Otherwise nothing changes. |
| `InputBinding.InputBindingExample.CheckAxes` | Runtime/InputBindingExample.cs:116-124 | The seven `CheckAxis` calls bind the first moved axis, or change nothing when no axis moved. |
| `InputBinding.InputBindingExample.ScanDevice` | Runtime/InputBindingExample.cs:103-124 | One device's scan binds the pending action to the device's activity, or changes nothing when the device is quiet. |
| `InputBinding.InputBindingExample.DetectInput` | Runtime/InputBindingExample.cs:94-126 | The pending action is bound to the detected hit of the first active device with history. With no hit, the component keeps binding and nothing changes. |
| `InputBinding.InputBindingExample.UpdatePreviousStates` | Runtime/InputBindingExample.cs:75-92 | The remembered snapshots become the old ones updated with every active device's current snapshot. |
| `InputBinding.InputBindingExample.Update` | Runtime/InputBindingExample.cs:64-73 | Detection runs only while binding, against the old snapshots; the snapshots are then updated. |
| `InputBinding.InputBindingExample.SetBind` | Runtime/InputBindingExample.cs:204-216 | The first action with the name gets the given binding and every other action's binding is unchanged (`SetBindValue`). All action and display names are kept. |
| `InputBinding.InputBindingExample.ApplyG29Preset` | Runtime/InputBindingExample.cs:164-202 | With no active device nothing changes. Otherwise the G29 preset is applied with the first active device's identifier and product name. All action and display names are kept. |

## Left out

- Floating point: `MapAxis` and `Mathf.Lerp` are modelled over exact reals. Single-precision rounding is not modelled.
- The 34 public mapping fields and the 29 held outputs of the provider are each held as one record, assigned as a whole. The per-field assignments in source order are not modelled, because they are equivalent and too costly for the verifier.
- InputBinding.InputBindingExample.CheckAxis: `current - previous` is computed over unbounded integers. The 32-bit overflow of `Mathf.Abs(current - prev)` for extreme register values is not modelled.
- InputBinding.InputBindingExample.Valid: the same `InputAction` object listed twice in `Actions` is not modelled. The actions are taken to be distinct objects, which the component's own list (InputBindingExample.cs:40-48) satisfies.
- A null device list in `UpdatePreviousStates`, null elements in `Actions`, and a null product name are not modelled. The device list is always a sequence. Null slots in `SupportedProfiles` are modelled (`Option` elements).
- AutoBind.IndexOfIgnoreCase: the ordinal ignore-case comparison folds only the ASCII letters. The simple case mapping of other Unicode letters is not modelled.
- A null `DeviceGUID` is folded into the empty string. The source treats both the same way (`string.IsNullOrEmpty`).
- The device manager (`DIManager`) is parameters: its active-device list in enumeration order, `Attach`'s answer and the list after attaching. `FindObjectOfType` is the nullable provider parameter.
- `Start`, `OnDestroy`, the `OnDeviceAdded` event subscription and the asynchronous `ScanAndBind` enumeration are not modelled. They are Unity lifecycle code and asynchronous I/O.
- `Debug.Log` output is not modelled.
- OnGUI layout and drawing are not modelled. The begin-binding, cancel and invert-toggle actions are modelled; the "Load G29 Preset" button is `ApplyG29Preset`.
- Slider 1 and the other `FlatJoyState2` fields (POV hats, the remaining sliders) are not read by the modelled code and are not part of the snapshot.
- InputBinding.InputBindingExample.ApplyG29Preset: the fallback product name "Unknown Device" is never used, because the method returns early when no device is active.
- The vehicle-side `InputProvider` base class and the NWH property getters only expose the held outputs. They are not part of this model.
