/** `DeviceMappingProfile`: a named set of physical-index assignments for every
    logical control of the vehicle, optionally scoped to devices whose product
    name contains a substring. An index of -1 means "unbound". */
module Profiles {
  import opened Wrappers

  /** The 34 mapping fields that a profile and the live provider share:
      five axis indices with their inversion flags and 24 button indices,
      in the order the source declares them. */
  datatype Mapping = Mapping(
    steeringAxis: int, invertSteering: bool,
    throttleAxis: int, invertThrottle: bool,
    brakeAxis: int, invertBrake: bool,
    clutchAxis: int, invertClutch: bool,
    handbrakeAxis: int, invertHandbrake: bool,
    shiftUpButton: int, shiftDownButton: int, engineStartStopButton: int,
    lowBeamLightsButton: int, highBeamLightsButton: int, hazardLightsButton: int,
    extraLightsButton: int, leftBlinkerButton: int, rightBlinkerButton: int,
    hornButton: int, flipOverButton: int, boostButton: int,
    cruiseControlButton: int, trailerAttachDetachButton: int,
    shiftIntoReverseButton: int, shiftIntoNeutralButton: int,
    shiftInto1Button: int, shiftInto2Button: int, shiftInto3Button: int,
    shiftInto4Button: int, shiftInto5Button: int, shiftInto6Button: int,
    shiftInto7Button: int, shiftInto8Button: int)
  {
    /** The button index of the `k`-th button control, in declaration order
        (shift up, shift down, engine start/stop, the six lights, the five
        modules, the ten H-shifter positions). */
    function ButtonIndex(k: int): int
      requires 0 <= k < 24
    {
      match k
      case 0 => shiftUpButton
      case 1 => shiftDownButton
      case 2 => engineStartStopButton
      case 3 => lowBeamLightsButton
      case 4 => highBeamLightsButton
      case 5 => hazardLightsButton
      case 6 => extraLightsButton
      case 7 => leftBlinkerButton
      case 8 => rightBlinkerButton
      case 9 => hornButton
      case 10 => flipOverButton
      case 11 => boostButton
      case 12 => cruiseControlButton
      case 13 => trailerAttachDetachButton
      case 14 => shiftIntoReverseButton
      case 15 => shiftIntoNeutralButton
      case 16 => shiftInto1Button
      case 17 => shiftInto2Button
      case 18 => shiftInto3Button
      case 19 => shiftInto4Button
      case 20 => shiftInto5Button
      case 21 => shiftInto6Button
      case 22 => shiftInto7Button
      case _ => shiftInto8Button
    }
  }

  /** The profile asset. A C# string field may be null: `None` here. */
  datatype DeviceMappingProfile = DeviceMappingProfile(productNameSubstring: Option<string>, mapping: Mapping)

  /** The field initialisers of the profile asset (Logitech G29 layout). */
  const DefaultMapping: Mapping :=
    Mapping(
      0, false,
      1, true,
      5, true,
      2, true,
      -1, false,
      4, 5, 24,
      -1, -1, -1, -1, -1, -1,
      -1, -1, -1, -1, -1,
      -1, -1, -1, -1, -1, -1, -1, -1, -1, -1)

  /** A freshly created profile asset: no substring, default mapping. */
  const DefaultProfile: DeviceMappingProfile := DeviceMappingProfile(None, DefaultMapping)

  /** Default axes: steering on X (0) not inverted, throttle on Y (1) and brake
      on Rz (5) inverted, clutch on Z (2) inverted, handbrake unbound. */
  lemma DefaultAxes()
    ensures DefaultProfile.mapping.steeringAxis == 0 && !DefaultProfile.mapping.invertSteering
    ensures DefaultProfile.mapping.throttleAxis == 1 && DefaultProfile.mapping.invertThrottle
    ensures DefaultProfile.mapping.brakeAxis == 5 && DefaultProfile.mapping.invertBrake
    ensures DefaultProfile.mapping.clutchAxis == 2 && DefaultProfile.mapping.invertClutch
    ensures DefaultProfile.mapping.handbrakeAxis == -1 && !DefaultProfile.mapping.invertHandbrake
  {
  }

  /** Default buttons: shift up 4, shift down 5, engine start/stop 24, and every
      light, module and H-shifter button unbound. */
  lemma DefaultButtons()
    ensures DefaultProfile.mapping.ButtonIndex(0) == 4
    ensures DefaultProfile.mapping.ButtonIndex(1) == 5
    ensures DefaultProfile.mapping.ButtonIndex(2) == 24
    ensures forall k :: 3 <= k < 24 ==> DefaultProfile.mapping.ButtonIndex(k) == -1
  {
  }
}
