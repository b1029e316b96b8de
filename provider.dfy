/** `NWHDirectInputProvider`: the live binding session. It holds a device
    identifier and a copy of the 34 mapping fields of a profile, and on every
    frame decodes the device's snapshot into the held control values that the
    vehicle reads. */
module Provider {
  import opened Wrappers
  import opened Snapshot
  import opened Profiles

  /** What `GetAxisValue` answers for an index outside its table. */
  const UnmappedAxisValue: int := 32767

  /** The full scale of a raw axis register. */
  const AxisFullScale: real := 65535.0

  /** The eight axis registers `GetAxisValue` can select, in index order. */
  function AxisRegisters(s: JoyState): (r: seq<int>)
    ensures |r| == 8
  {
    [s.lX, s.lY, s.lZ, s.lRx, s.lRy, s.lRz, s.lU, s.lV]
  }

  /** `GetAxisValue`: a total lookup that never fails. Indices 0..7 select the
      registers X, Y, Z, Rx, Ry, Rz, U, V; every other index, the unbound -1
      included, reads as 32767. */
  function AxisValue(s: JoyState, index: int): (r: int)
    ensures 0 <= index < 8 ==> r == AxisRegisters(s)[index]
    ensures !(0 <= index < 8) ==> r == UnmappedAxisValue
  {
    match index
    case 0 => s.lX
    case 1 => s.lY
    case 2 => s.lZ
    case 3 => s.lRx
    case 4 => s.lRy
    case 5 => s.lRz
    case 6 => s.lU
    case 7 => s.lV
    case _ => UnmappedAxisValue
  }

  /** `IsButtonPressed` of the provider. A negative index is never pressed;
      0..63 read `buttonsA`; anything from 64 on reads `buttonsB` with the
      shift count `index - 64` reduced to six bits, as C# does for a shift of
      a 64-bit value, so 128 reads the same bit as 64. */
  function ButtonPressed(s: JoyState, index: int): (r: bool)
    ensures index < 0 ==> !r
  {
    if index < 0 then false
    else if index < 64 then Bit(s.buttonsA, index)
    else Bit(s.buttonsB, (index - 64) % 64)
  }

  /** Indices 0..63 read bit `index` of `buttonsA`, 64..127 bit `index - 64`
      of `buttonsB`. */
  lemma ButtonBits(s: JoyState, index: int)
    requires 0 <= index < 128
    ensures index < 64 ==> ButtonPressed(s, index) == Bit(s.buttonsA, index)
    ensures 64 <= index ==> ButtonPressed(s, index) == Bit(s.buttonsB, index - 64)
  {
  }

  /** The snapshot with button bit `b` (0..127) flipped: bit `b` of
      `buttonsA` below 64, bit `b - 64` of `buttonsB` from 64 on. */
  function ToggleButton(s: JoyState, b: int): JoyState
    requires 0 <= b < 128
  {
    if b < 64 then s.(buttonsA := Toggle(s.buttonsA, b))
    else s.(buttonsB := Toggle(s.buttonsB, b - 64))
  }

  /** Every button index 0..127 consults exactly one bit of the two masks:
      flipping that bit flips the button, flipping any other bit leaves it
      as it was. */
  lemma ButtonReadsOneBit(s: JoyState, index: int, b: int)
    requires 0 <= index < 128 && 0 <= b < 128
    ensures ButtonPressed(ToggleButton(s, b), index)
            == if b == index then !ButtonPressed(s, index) else ButtonPressed(s, index)
  {
    var t := ToggleButton(s, b);
    ButtonBits(s, index);
    ButtonBits(t, index);
    if b < 64 {
      assert t.buttonsB == s.buttonsB;
      if index < 64 {
        ToggleBit(s.buttonsA, b, index);
      }
    } else {
      assert t.buttonsA == s.buttonsA;
      if 64 <= index {
        ToggleBit(s.buttonsB, b - 64, index - 64);
      }
    }
  }

  /** A negative index ignores the snapshot entirely. */
  lemma NegativeButtonIgnoresState(s: JoyState, t: JoyState, index: int)
    requires index < 0
    ensures ButtonPressed(s, index) == ButtonPressed(t, index) == false
  {
  }

  /** Indices from 128 on alias the high mask: index `i` reads the same bit as
      index `64 + (i - 64) % 64`. */
  lemma HighIndicesAlias(s: JoyState, index: int)
    requires index >= 128
    ensures ButtonPressed(s, index) == ButtonPressed(s, 64 + (index - 64) % 64)
  {
  }

  /** `t` clamped to [0, 1], as Unity's `Mathf.Lerp` does first. */
  function Clamp01(t: real): (u: real)
    ensures 0.0 <= u <= 1.0
    ensures 0.0 <= t <= 1.0 ==> u == t
  {
    if t < 0.0 then 0.0 else if t > 1.0 then 1.0 else t
  }

  /** The fraction `u` of a span `d`. */
  function Scale(d: real, u: real): (p: real)
    requires 0.0 <= u <= 1.0
    ensures 0.0 <= d ==> 0.0 <= p <= d
  {
    assert 0.0 <= d ==> d - d * u == d * (1.0 - u) && d * u >= 0.0;
    d * u
  }

  /** A larger fraction of a non-negative span is no smaller. */
  lemma ScaleMonotone(d: real, u: real, v: real)
    requires 0.0 <= d && 0.0 <= u <= v <= 1.0
    ensures Scale(d, u) <= Scale(d, v)
  {
    assert d * v - d * u == d * (v - u);
    assert d * (v - u) >= 0.0;
  }

  /** Unity's `Mathf.Lerp`: never leaves the interval between its ends. */
  function Lerp(a: real, b: real, t: real): (r: real)
    ensures a <= b ==> a <= r <= b
  {
    a + Scale(b - a, Clamp01(t))
  }

  /** The normalised, optionally inverted position of a raw register value. */
  function Normalize(raw: int, invert: bool): real
  {
    var norm := raw as real / AxisFullScale;
    if invert then 1.0 - norm else norm
  }

  /** `MapAxis`: read the register, normalise, interpolate into
      [minOut, maxOut]. The centred and the one-sided branches compute the
      same thing. */
  function MapAxis(s: JoyState, axisIndex: int, minOut: real, maxOut: real, invert: bool, isCentered: bool): (r: real)
    ensures minOut <= maxOut ==> minOut <= r <= maxOut
  {
    var norm := Normalize(AxisValue(s, axisIndex), invert);
    if isCentered then Lerp(minOut, maxOut, norm) else Lerp(minOut, maxOut, norm)
  }

  /** The centred flag makes no difference. */
  lemma CenteredFlagIgnored(s: JoyState, axisIndex: int, minOut: real, maxOut: real, invert: bool)
    ensures MapAxis(s, axisIndex, minOut, maxOut, invert, true) == MapAxis(s, axisIndex, minOut, maxOut, invert, false)
  {
  }

  /** Register value 0 gives the low end of the range and 65535 the high end;
      inverted, 0 gives the high end. */
  lemma MapAxisEndpoints(s: JoyState, axisIndex: int, minOut: real, maxOut: real, isCentered: bool)
    requires 0 <= axisIndex < 8
    ensures AxisRegisters(s)[axisIndex] == 0 ==> MapAxis(s, axisIndex, minOut, maxOut, false, isCentered) == minOut
    ensures AxisRegisters(s)[axisIndex] == 65535 ==> MapAxis(s, axisIndex, minOut, maxOut, false, isCentered) == maxOut
    ensures AxisRegisters(s)[axisIndex] == 0 ==> MapAxis(s, axisIndex, minOut, maxOut, true, isCentered) == maxOut
  {
  }

  /** On the raw domain [0, 65535], inverting a [0, 1] axis mirrors it. */
  lemma InvertMirrors(s: JoyState, axisIndex: int, isCentered: bool)
    requires 0 <= AxisValue(s, axisIndex) <= 65535
    ensures MapAxis(s, axisIndex, 0.0, 1.0, true, isCentered) == 1.0 - MapAxis(s, axisIndex, 0.0, 1.0, false, isCentered)
  {
  }

  /** A larger register value never maps lower on an uninverted axis. */
  lemma MapAxisMonotone(s: JoyState, t: JoyState, axisIndex: int, minOut: real, maxOut: real, isCentered: bool)
    requires minOut <= maxOut
    requires AxisValue(s, axisIndex) <= AxisValue(t, axisIndex)
    ensures MapAxis(s, axisIndex, minOut, maxOut, false, isCentered) <= MapAxis(t, axisIndex, minOut, maxOut, false, isCentered)
  {
    var u := Clamp01(Normalize(AxisValue(s, axisIndex), false));
    var v := Clamp01(Normalize(AxisValue(t, axisIndex), false));
    assert u <= v;
    ScaleMonotone(maxOut - minOut, u, v);
  }

  /** The per-frame output: five axis controls and 24 button controls. */
  datatype Controls = Controls(
    steering: real, throttle: real, brake: real, clutch: real, handbrake: real,
    shiftUp: bool, shiftDown: bool, engineStartStop: bool, lowBeamLights: bool,
    highBeamLights: bool, hazardLights: bool, extraLights: bool, leftBlinker: bool,
    rightBlinker: bool, horn: bool, flipOver: bool, boost: bool,
    cruiseControl: bool, trailerAttachDetach: bool, shiftIntoReverse: bool, shiftIntoNeutral: bool,
    shiftInto1: bool, shiftInto2: bool, shiftInto3: bool, shiftInto4: bool,
    shiftInto5: bool, shiftInto6: bool, shiftInto7: bool, shiftInto8: bool)
  {
    /** The `k`-th button output, in the order of `Mapping.ButtonIndex`. */
    function Button(k: int): bool
      requires 0 <= k < 24
    {
      match k
      case 0 => shiftUp
      case 1 => shiftDown
      case 2 => engineStartStop
      case 3 => lowBeamLights
      case 4 => highBeamLights
      case 5 => hazardLights
      case 6 => extraLights
      case 7 => leftBlinker
      case 8 => rightBlinker
      case 9 => horn
      case 10 => flipOver
      case 11 => boost
      case 12 => cruiseControl
      case 13 => trailerAttachDetach
      case 14 => shiftIntoReverse
      case 15 => shiftIntoNeutral
      case 16 => shiftInto1
      case 17 => shiftInto2
      case 18 => shiftInto3
      case 19 => shiftInto4
      case 20 => shiftInto5
      case 21 => shiftInto6
      case 22 => shiftInto7
      case _ => shiftInto8
    }
  }

  /** The frame `Update` produces from mapping `m` and snapshot `s`. Only the
      handbrake short-circuits an unbound axis. Whatever the mapping and the
      snapshot, steering stays in [-1, 1] and the pedals and handbrake in
      [0, 1]. */
  function Decode(m: Mapping, s: JoyState): (r: Controls)
    ensures -1.0 <= r.steering <= 1.0
    ensures 0.0 <= r.throttle <= 1.0 && 0.0 <= r.brake <= 1.0
    ensures 0.0 <= r.clutch <= 1.0 && 0.0 <= r.handbrake <= 1.0
  {
    Controls(
      MapAxis(s, m.steeringAxis, -1.0, 1.0, m.invertSteering, true),
      MapAxis(s, m.throttleAxis, 0.0, 1.0, m.invertThrottle, false),
      MapAxis(s, m.brakeAxis, 0.0, 1.0, m.invertBrake, false),
      MapAxis(s, m.clutchAxis, 0.0, 1.0, m.invertClutch, false),
      if m.handbrakeAxis >= 0 then MapAxis(s, m.handbrakeAxis, 0.0, 1.0, m.invertHandbrake, false) else 0.0,
      ButtonPressed(s, m.shiftUpButton),
      ButtonPressed(s, m.shiftDownButton),
      ButtonPressed(s, m.engineStartStopButton),
      ButtonPressed(s, m.lowBeamLightsButton),
      ButtonPressed(s, m.highBeamLightsButton),
      ButtonPressed(s, m.hazardLightsButton),
      ButtonPressed(s, m.extraLightsButton),
      ButtonPressed(s, m.leftBlinkerButton),
      ButtonPressed(s, m.rightBlinkerButton),
      ButtonPressed(s, m.hornButton),
      ButtonPressed(s, m.flipOverButton),
      ButtonPressed(s, m.boostButton),
      ButtonPressed(s, m.cruiseControlButton),
      ButtonPressed(s, m.trailerAttachDetachButton),
      ButtonPressed(s, m.shiftIntoReverseButton),
      ButtonPressed(s, m.shiftIntoNeutralButton),
      ButtonPressed(s, m.shiftInto1Button),
      ButtonPressed(s, m.shiftInto2Button),
      ButtonPressed(s, m.shiftInto3Button),
      ButtonPressed(s, m.shiftInto4Button),
      ButtonPressed(s, m.shiftInto5Button),
      ButtonPressed(s, m.shiftInto6Button),
      ButtonPressed(s, m.shiftInto7Button),
      ButtonPressed(s, m.shiftInto8Button))
  }

  /** Each button output is the snapshot's state of the mapped button, so an
      unbound button is never pressed. */
  lemma ButtonsFollowMapping(m: Mapping, s: JoyState)
    ensures forall k :: 0 <= k < 24 ==> Decode(m, s).Button(k) == ButtonPressed(s, m.ButtonIndex(k))
    ensures forall k :: 0 <= k < 24 && m.ButtonIndex(k) < 0 ==> !Decode(m, s).Button(k)
  {
  }

  /** An unbound handbrake reads 0 whatever the snapshot says. */
  lemma HandbrakeShortCircuit(m: Mapping, s: JoyState)
    requires m.handbrakeAxis < 0
    ensures Decode(m, s).handbrake == 0.0
  {
  }

  /** The other four axes have no short-circuit: an unbound (or out-of-table)
      index reads the register value 32767. Uninverted, that is just under
      half scale; inverted, just over it. */
  lemma UnboundAxesReadMidScale(m: Mapping, s: JoyState)
    ensures !(0 <= m.steeringAxis < 8) ==>
              Decode(m, s).steering == if m.invertSteering then 1.0 / 65535.0 else -1.0 / 65535.0
    ensures !(0 <= m.throttleAxis < 8) ==>
              Decode(m, s).throttle == if m.invertThrottle then 32768.0 / 65535.0 else 32767.0 / 65535.0
    ensures !(0 <= m.brakeAxis < 8) ==>
              Decode(m, s).brake == if m.invertBrake then 32768.0 / 65535.0 else 32767.0 / 65535.0
    ensures !(0 <= m.clutchAxis < 8) ==>
              Decode(m, s).clutch == if m.invertClutch then 32768.0 / 65535.0 else 32767.0 / 65535.0
  {
  }

  /** With the default mapping, the handbrake and every light, module and
      H-shifter output stay off for every snapshot; shift up, shift down and
      engine start/stop are buttons 4, 5 and 24. */
  lemma DefaultMappingFrame(s: JoyState)
    ensures Decode(DefaultMapping, s).handbrake == 0.0
    ensures forall k :: 3 <= k < 24 ==> !Decode(DefaultMapping, s).Button(k)
    ensures Decode(DefaultMapping, s).shiftUp == Bit(s.buttonsA, 4)
    ensures Decode(DefaultMapping, s).shiftDown == Bit(s.buttonsA, 5)
    ensures Decode(DefaultMapping, s).engineStartStop == Bit(s.buttonsA, 24)
  {
    ButtonsFollowMapping(DefaultMapping, s);
  }

  /** Every held output of a new component: zero and released. */
  const Released: Controls := Controls(0.0, 0.0, 0.0, 0.0, 0.0,
    false, false, false, false, false, false,
    false, false, false, false, false, false,
    false, false, false, false, false, false,
    false, false, false, false, false, false)

  class NWHDirectInputProvider {
    /** The attached device; a null identifier is represented by "". */
    var DeviceGUID: string
    /** The 34 public mapping fields (axis indices, inversion flags, button
        indices), held as one record. */
    var mapping: Mapping
    /** The 29 private held outputs the vehicle reads, held as one record. */
    var held: Controls

    /** A new component: no device, the provider's own G29 initialisers (which
        coincide field for field with the profile asset's defaults) and every
        output at zero / released. */
    constructor ()
      ensures DeviceGUID == ""
      ensures mapping == DefaultProfile.mapping
      ensures held == Released
    {
      DeviceGUID := "";
      mapping := Mapping(
        0, false,    // SteeringAxis, InvertSteering
        1, true,     // ThrottleAxis, InvertThrottle
        5, true,     // BrakeAxis, InvertBrake
        2, true,     // ClutchAxis, InvertClutch
        -1, false,   // HandbrakeAxis, InvertHandbrake
        4, 5, 24,    // ShiftUp, ShiftDown, EngineStartStop
        -1, -1, -1, -1, -1, -1,    // lights
        -1, -1, -1, -1, -1,        // modules
        -1, -1, -1, -1, -1, -1, -1, -1, -1, -1);   // H-shifter
      held := Released;
    }

    /** `Update`: one frame. Nothing happens without a device identifier or
        when the device is not active; otherwise every held output is
        recomputed from the device's current snapshot. `devices` is the
        device manager's active-device list with this frame's states. */
    method Update(devices: seq<ActiveDevice>)
      modifies this`held
      ensures DeviceGUID == "" || Lookup(devices, DeviceGUID).None? ==> held == old(held)
      ensures DeviceGUID != "" && Lookup(devices, DeviceGUID).Some? ==>
                held == Decode(mapping, Lookup(devices, DeviceGUID).value.state)
    {
      if DeviceGUID == "" { return; }
      var entry := Lookup(devices, DeviceGUID);
      if entry.None? { return; }
      held := Decode(mapping, entry.value.state);
    }

    /** `LoadProfile`: a null profile changes nothing; otherwise all 34
        mapping fields are replaced at once by the profile's, and the device
        identifier and the held outputs are left alone. */
    method LoadProfile(profile: Option<DeviceMappingProfile>)
      modifies this`mapping
      ensures mapping == if profile.None? then old(mapping) else profile.value.mapping
    {
      if profile.None? { return; }
      mapping := profile.value.mapping;
    }
  }
}
