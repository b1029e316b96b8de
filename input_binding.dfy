/** The interactive input-binding example (`InputBindingExample`): a list of
    named actions, a capture mode that binds the action being captured to the
    first button rising edge or axis movement seen on any active device, and
    the hard-coded G29 preset. */
module InputBinding {
  import opened Wrappers
  import opened Snapshot
  import Provider

  /** How an action is bound. */
  datatype InputType = Button | Axis | POV

  /** The name C# prints for an `InputType` value. */
  function TypeName(t: InputType): string
  {
    match t
    case Button => "Button"
    case Axis => "Axis"
    case POV => "POV"
  }

  /** Minimum change of an axis register, exclusive, that counts as movement. */
  const AxisThreshold: int := 5000
  /** Buttons scanned during capture. */
  const CaptureButtons: int := 128
  /** Axes scanned during capture: x, y, z, rx, ry, rz, slider 0. */
  const CaptureAxes: int := 7

  // ---------------------------------------------------------------------
  // Reading a snapshot

  /** `IsButtonPressed` of the example. Below 64 it reads `buttonsA`, from 64
      on bit `index - 64` of `buttonsB`; there is no lower bound, so the shift
      count is reduced to six bits as C# does for a 64-bit shift. */
  function ButtonPressed(s: JoyState, index: int): (r: bool)
    ensures 0 <= index < CaptureButtons ==> r == Provider.ButtonPressed(s, index)
    ensures index < 0 ==> r == Bit(s.buttonsA, index % 64)
  {
    if index < 64 then Bit(s.buttonsA, index % 64)
    else Bit(s.buttonsB, (index - 64) % 64)
  }

  /** On every index the capture loop scans, the example reads the same bit
      as the provider does at run time: a binding captured here means the
      same physical button there. */
  lemma SameButtonAsProvider(s: JoyState, index: int)
    requires 0 <= index < CaptureButtons
    ensures ButtonPressed(s, index) == Provider.ButtonPressed(s, index)
    ensures index < 64 ==> ButtonPressed(s, index) == Bit(s.buttonsA, index)
    ensures 64 <= index ==> ButtonPressed(s, index) == Bit(s.buttonsB, index - 64)
  {
    Provider.ButtonBits(s, index);
  }

  /** The two readers differ below zero: the example reads a bit of
      `buttonsA` (index -1 is bit 63) where the provider answers "released". */
  lemma NegativeIndexReadsLowMask(s: JoyState)
    ensures ButtonPressed(s, -1) == Bit(s.buttonsA, 63)
    ensures !Provider.ButtonPressed(s, -1)
  {
  }

  /** The register capture axis `k` reads: 0..5 are x, y, z, rx, ry, rz and
      6 is slider 0. */
  function CaptureAxis(s: JoyState, k: int): int
    requires 0 <= k < CaptureAxes
  {
    match k
    case 0 => s.lX
    case 1 => s.lY
    case 2 => s.lZ
    case 3 => s.lRx
    case 4 => s.lRy
    case 5 => s.lRz
    case _ => s.slider0
  }

  /** `Mathf.Abs` on an `int`. */
  function Abs(x: int): (r: nat)
    ensures r == x || r == -x
  {
    if x < 0 then -x else x
  }

  /** Pressed now and released in the previous snapshot. */
  predicate RisingEdge(current: JoyState, previous: JoyState, index: int)
  {
    ButtonPressed(current, index) && !ButtonPressed(previous, index)
  }

  /** Axis `k` moved by strictly more than the threshold. */
  predicate AxisMoved(current: JoyState, previous: JoyState, k: int)
    requires 0 <= k < CaptureAxes
  {
    Abs(CaptureAxis(current, k) - CaptureAxis(previous, k)) > AxisThreshold
  }

  /** The lowest button index at or above `from` with a rising edge. */
  function FirstRisingEdge(current: JoyState, previous: JoyState, from: int): Option<int>
    requires 0 <= from <= CaptureButtons
    decreases CaptureButtons - from
  {
    if from == CaptureButtons then None
    else if RisingEdge(current, previous, from) then Some(from)
    else FirstRisingEdge(current, previous, from + 1)
  }

  /** `FirstRisingEdge` finds the lowest rising edge in `from..127`, and
      nothing exactly when there is none. */
  lemma {:induction false} FirstRisingEdgeSpec(current: JoyState, previous: JoyState, from: int)
    requires 0 <= from <= CaptureButtons
    ensures var r := FirstRisingEdge(current, previous, from);
      && (r.Some? ==> from <= r.value < CaptureButtons && RisingEdge(current, previous, r.value))
      && (r.Some? ==> forall j :: from <= j < r.value ==> !RisingEdge(current, previous, j))
      && (r.None? <==> forall j :: from <= j < CaptureButtons ==> !RisingEdge(current, previous, j))
    decreases CaptureButtons - from
  {
    if from < CaptureButtons && !RisingEdge(current, previous, from) {
      FirstRisingEdgeSpec(current, previous, from + 1);
    }
  }

  /** The lowest capture axis at or above `from` that moved. */
  function FirstMovedAxis(current: JoyState, previous: JoyState, from: int): Option<int>
    requires 0 <= from <= CaptureAxes
    decreases CaptureAxes - from
  {
    if from == CaptureAxes then None
    else if AxisMoved(current, previous, from) then Some(from)
    else FirstMovedAxis(current, previous, from + 1)
  }

  /** `FirstMovedAxis` finds the first moved axis in `from..6`, and nothing
      exactly when none moved. */
  lemma {:induction false} FirstMovedAxisSpec(current: JoyState, previous: JoyState, from: int)
    requires 0 <= from <= CaptureAxes
    ensures var r := FirstMovedAxis(current, previous, from);
      && (r.Some? ==> from <= r.value < CaptureAxes && AxisMoved(current, previous, r.value))
      && (r.Some? ==> forall k :: from <= k < r.value ==> !AxisMoved(current, previous, k))
      && (r.None? <==> forall k :: from <= k < CaptureAxes ==> !AxisMoved(current, previous, k))
    decreases CaptureAxes - from
  {
    if from < CaptureAxes && !AxisMoved(current, previous, from) {
      FirstMovedAxisSpec(current, previous, from + 1);
    }
  }

  // ---------------------------------------------------------------------
  // What capture binds

  /** A captured input: the device, its product name, the kind and index. */
  datatype Hit = Hit(guid: string, productName: string, inputType: InputType, index: int)

  /** What one device contributes to capture, given its previous snapshot:
      its lowest rising button if any, else its first moved axis, else
      nothing. Buttons win over axes and a POV is never captured. */
  function Activity(d: ActiveDevice, previous: JoyState): Option<Hit>
  {
    match FirstRisingEdge(d.state, previous, 0)
    case Some(i) => Some(Hit(d.guid, d.info.productName, Button, i))
    case None =>
      match FirstMovedAxis(d.state, previous, 0)
      case Some(k) => Some(Hit(d.guid, d.info.productName, Axis, k))
      case None => None
  }

  /** Activity reports the device's lowest rising button when there is
      one, otherwise its first moved axis, and nothing exactly when the device
      shows neither; a POV is never reported. */
  lemma ActivitySpec(d: ActiveDevice, previous: JoyState)
    ensures var r := Activity(d, previous);
      && (r.Some? ==> r.value.guid == d.guid && r.value.productName == d.info.productName)
      && (r.Some? ==> r.value.inputType != POV)
      && (r.Some? && r.value.inputType == Button ==>
            RisingEdge(d.state, previous, r.value.index)
            && forall j :: 0 <= j < r.value.index ==> !RisingEdge(d.state, previous, j))
      && (r.Some? && r.value.inputType == Axis ==>
            (forall j :: 0 <= j < CaptureButtons ==> !RisingEdge(d.state, previous, j))
            && 0 <= r.value.index < CaptureAxes
            && AxisMoved(d.state, previous, r.value.index)
            && forall k :: 0 <= k < r.value.index ==> !AxisMoved(d.state, previous, k))
      && (r.None? <==>
            (forall j :: 0 <= j < CaptureButtons ==> !RisingEdge(d.state, previous, j))
            && (forall k :: 0 <= k < CaptureAxes ==> !AxisMoved(d.state, previous, k)))
  {
    FirstRisingEdgeSpec(d.state, previous, 0);
    FirstMovedAxisSpec(d.state, previous, 0);
  }

  /** A rising edge at `i` with none below it is what the device shows. */
  lemma ButtonActivity(d: ActiveDevice, previous: JoyState, i: int)
    requires 0 <= i < CaptureButtons && RisingEdge(d.state, previous, i)
    requires forall j :: 0 <= j < i ==> !RisingEdge(d.state, previous, j)
    ensures Activity(d, previous) == Some(Hit(d.guid, d.info.productName, Button, i))
  {
    FirstRisingEdgeSpec(d.state, previous, 0);
  }

  /** With no rising edge, what the device shows is its first moved axis. */
  lemma AxisActivity(d: ActiveDevice, previous: JoyState)
    requires FirstRisingEdge(d.state, previous, 0).None?
    ensures Activity(d, previous)
            == if FirstMovedAxis(d.state, previous, 0).None? then None
               else Some(Hit(d.guid, d.info.productName, Axis, FirstMovedAxis(d.state, previous, 0).value))
  {
  }

  /** A device capture passes over: never seen before, or no activity. */
  predicate Quiet(d: ActiveDevice, previousStates: map<string, JoyState>)
  {
    d.guid !in previousStates || Activity(d, previousStates[d.guid]).None?
  }

  /** The capture result over `devices[from..]`: the activity of the first
      device that is known and not quiet. */
  function DetectFrom(devices: seq<ActiveDevice>, previousStates: map<string, JoyState>, from: int): (r: Option<Hit>)
    requires 0 <= from <= |devices|
    ensures r.None? <==> forall i :: from <= i < |devices| ==> Quiet(devices[i], previousStates)
    ensures r.Some? ==> r.value.guid in previousStates
    decreases |devices| - from
  {
    if from == |devices| then None
    else if !Quiet(devices[from], previousStates) then Activity(devices[from], previousStates[devices[from].guid])
    else DetectFrom(devices, previousStates, from + 1)
  }

  /** The capture result over all active devices in enumeration order. */
  function Detect(devices: seq<ActiveDevice>, previousStates: map<string, JoyState>): Option<Hit>
  {
    DetectFrom(devices, previousStates, 0)
  }

  /** When every device from `from` up to `d` is quiet and `d` is not, the
      scan from `from` yields whatever `d` shows. */
  lemma {:induction false} DetectFromPicksFirstActive(devices: seq<ActiveDevice>, previousStates: map<string, JoyState>,
                                                      from: int, d: int)
    requires 0 <= from <= d < |devices|
    requires forall j :: from <= j < d ==> Quiet(devices[j], previousStates)
    requires !Quiet(devices[d], previousStates)
    ensures DetectFrom(devices, previousStates, from) == Activity(devices[d], previousStates[devices[d].guid])
    decreases d - from
  {
    if from < d {
      DetectFromPicksFirstActive(devices, previousStates, from + 1, d);
    }
  }

  /** Capture binds what the first known, active device in enumeration order
      shows, whatever the devices after it do. */
  lemma DetectPicksFirstActive(devices: seq<ActiveDevice>, previousStates: map<string, JoyState>, d: int)
    requires 0 <= d < |devices|
    requires forall j :: 0 <= j < d ==> Quiet(devices[j], previousStates)
    requires !Quiet(devices[d], previousStates)
    ensures Detect(devices, previousStates) == Activity(devices[d], previousStates[devices[d].guid])
  {
    DetectFromPicksFirstActive(devices, previousStates, 0, d);
  }

  // ---------------------------------------------------------------------
  // Remembering snapshots

  /** `previousStates` after storing each device's current state in turn:
      added when new, overwritten when present. */
  function Remember(previousStates: map<string, JoyState>, devices: seq<ActiveDevice>): map<string, JoyState>
    decreases |devices|
  {
    if devices == [] then previousStates
    else
      var last := devices[|devices| - 1];
      Remember(previousStates, devices[..|devices| - 1])[last.guid := last.state]
  }

  /** Remembering keeps every old key, adds exactly the active guids, and
      changes no entry of a guid that is not active. */
  lemma {:induction false} RememberKeys(previousStates: map<string, JoyState>, devices: seq<ActiveDevice>)
    ensures forall g :: g in Remember(previousStates, devices)
              <==> g in previousStates || exists i :: 0 <= i < |devices| && devices[i].guid == g
    ensures forall g :: g in previousStates && (forall i :: 0 <= i < |devices| ==> devices[i].guid != g)
              ==> Remember(previousStates, devices)[g] == previousStates[g]
    decreases |devices|
  {
    if devices != [] {
      var init := devices[..|devices| - 1];
      RememberKeys(previousStates, init);
      assert forall i :: 0 <= i < |init| ==> init[i] == devices[i];
      forall g | exists i :: 0 <= i < |devices| && devices[i].guid == g
        ensures g in Remember(previousStates, devices)
      {
        var i :| 0 <= i < |devices| && devices[i].guid == g;
        if i < |init| { assert init[i].guid == g; }
      }
    }
  }

  /** With distinct guids (a dictionary's keys), every active device's entry
      is its current state. */
  lemma {:induction false} RememberValues(previousStates: map<string, JoyState>, devices: seq<ActiveDevice>)
    requires UniqueGuids(devices)
    ensures forall i :: 0 <= i < |devices| ==>
              devices[i].guid in Remember(previousStates, devices)
              && Remember(previousStates, devices)[devices[i].guid] == devices[i].state
    decreases |devices|
  {
    if devices != [] {
      var init := devices[..|devices| - 1];
      assert UniqueGuids(init) by {
        forall i, j | 0 <= i < j < |init| ensures init[i].guid != init[j].guid {
          assert init[i] == devices[i] && init[j] == devices[j];
        }
      }
      RememberValues(previousStates, init);
      forall i | 0 <= i < |devices|
        ensures devices[i].guid in Remember(previousStates, devices)
        ensures Remember(previousStates, devices)[devices[i].guid] == devices[i].state
      {
        if i < |init| {
          assert init[i] == devices[i];
          assert devices[i].guid != devices[|devices| - 1].guid;
        }
      }
    }
  }

  // ---------------------------------------------------------------------
  // Actions and presets as values

  /** The names of the default actions, in list order. */
  const DefaultActionNames: seq<string> := ["Steer", "Throttle", "Brake", "Clutch", "ShiftUp", "ShiftDown"]

  /** Their display names, in the same order. */
  const DefaultDisplayNames: seq<string> := ["Steering", "Throttle", "Brake", "Clutch", "Shift Up", "Shift Down"]

  /** The binding data of an action: everything capture and presets write. */
  datatype BindingData = BindingData(
    deviceGuid: string,
    deviceProductName: string,
    inputType: InputType,
    inputIndex: int,
    isBound: bool,
    invert: bool)

  /** A fresh action's binding data; a null device identifier is "". */
  const Unbound: BindingData := BindingData("", "", Button, 0, false, false)

  /** What capture writes for a hit: bound, not inverted. */
  function Captured(h: Hit): BindingData
  {
    BindingData(h.guid, h.productName, h.inputType, h.index, true, false)
  }

  /** `List.Find` by name: the first position holding `name`, from `from` on. */
  function FirstNamed(names: seq<string>, name: string, from: int): (r: Option<int>)
    requires 0 <= from <= |names|
    ensures r.Some? ==> from <= r.value < |names| && names[r.value] == name
    ensures r.Some? ==> forall j :: from <= j < r.value ==> names[j] != name
    ensures r.None? <==> forall j :: from <= j < |names| ==> names[j] != name
    decreases |names| - from
  {
    if from == |names| then None
    else if names[from] == name then Some(from)
    else FirstNamed(names, name, from + 1)
  }

  /** `SetBind` on the list of binding data: the first action named `name`
      gets `b`, an unknown name changes nothing. */
  function SetBindValue(names: seq<string>, states: seq<BindingData>, name: string, b: BindingData): seq<BindingData>
    requires |names| == |states|
  {
    match FirstNamed(names, name, 0)
    case None => states
    case Some(k) => states[k := b]
  }

  /** `SetBind` writes exactly one entry, the first one carrying the name,
      and nothing when no action carries it. */
  lemma SetBindChangesFirstMatchOnly(names: seq<string>, states: seq<BindingData>, name: string, b: BindingData)
    requires |names| == |states|
    ensures |SetBindValue(names, states, name, b)| == |states|
    ensures forall i :: 0 <= i < |states| && SetBindValue(names, states, name, b)[i] != states[i] ==>
              names[i] == name && forall j :: 0 <= j < i ==> names[j] != name
    ensures (forall j :: 0 <= j < |names| ==> names[j] != name) ==> SetBindValue(names, states, name, b) == states
    ensures forall i :: 0 <= i < |names| && names[i] == name && (forall j :: 0 <= j < i ==> names[j] != name) ==>
              SetBindValue(names, states, name, b)[i] == b
  {
  }

  /** One line of the G29 preset. */
  datatype PresetEntry = PresetEntry(name: string, inputType: InputType, index: int, invert: bool)

  /** The G29 preset: steering x, throttle y inverted, brake rz inverted,
      clutch slider 0 inverted, shift up button 12, shift down button 13. */
  const G29Preset: seq<PresetEntry> := [
    PresetEntry("Steer", Axis, 0, false),
    PresetEntry("Throttle", Axis, 1, true),
    PresetEntry("Brake", Axis, 5, true),
    PresetEntry("Clutch", Axis, 6, true),
    PresetEntry("ShiftUp", Button, 12, false),
    PresetEntry("ShiftDown", Button, 13, false)
  ]

  /** What a preset line writes for the chosen device. */
  function PresetBinding(e: PresetEntry, guid: string, productName: string): BindingData
  {
    BindingData(guid, productName, e.inputType, e.index, true, e.invert)
  }

  /** `SetBind` applied for each preset line in order. */
  function ApplyPreset(names: seq<string>, states: seq<BindingData>, preset: seq<PresetEntry>,
                       guid: string, productName: string): (r: seq<BindingData>)
    requires |names| == |states|
    ensures |r| == |states|
    decreases |preset|
  {
    if preset == [] then states
    else
      var next := SetBindValue(names, states, preset[0].name, PresetBinding(preset[0], guid, productName));
      SetBindChangesFirstMatchOnly(names, states, preset[0].name, PresetBinding(preset[0], guid, productName));
      ApplyPreset(names, next, preset[1..], guid, productName)
  }

  /** The position a preset line lands on, when its name is present. */
  predicate TargetOf(names: seq<string>, e: PresetEntry, i: int)
  {
    0 <= i < |names| && names[i] == e.name && forall j :: 0 <= j < i ==> names[j] != e.name
  }

  /** A preset whose names are pairwise distinct binds the first action of
      each listed name to its line and leaves every other action as it was. */
  lemma {:induction false} ApplyPresetSpec(names: seq<string>, states: seq<BindingData>, preset: seq<PresetEntry>,
                                           guid: string, productName: string)
    requires |names| == |states|
    requires forall p, q :: 0 <= p < q < |preset| ==> preset[p].name != preset[q].name
    ensures forall p, i :: 0 <= p < |preset| && TargetOf(names, preset[p], i) ==>
              ApplyPreset(names, states, preset, guid, productName)[i] == PresetBinding(preset[p], guid, productName)
    ensures forall i :: 0 <= i < |states| && (forall p :: 0 <= p < |preset| ==> !TargetOf(names, preset[p], i)) ==>
              ApplyPreset(names, states, preset, guid, productName)[i] == states[i]
    decreases |preset|
  {
    if preset != [] {
      var b := PresetBinding(preset[0], guid, productName);
      var next := SetBindValue(names, states, preset[0].name, b);
      SetBindChangesFirstMatchOnly(names, states, preset[0].name, b);
      var rest := preset[1..];
      assert forall p, q :: 0 <= p < q < |rest| ==> rest[p].name != rest[q].name by {
        forall p, q | 0 <= p < q < |rest| ensures rest[p].name != rest[q].name {
          assert rest[p] == preset[p + 1] && rest[q] == preset[q + 1];
        }
      }
      ApplyPresetSpec(names, next, rest, guid, productName);
      var r := ApplyPreset(names, states, preset, guid, productName);
      assert r == ApplyPreset(names, next, rest, guid, productName);
      forall p, i | 0 <= p < |preset| && TargetOf(names, preset[p], i)
        ensures r[i] == PresetBinding(preset[p], guid, productName)
      {
        if p > 0 {
          assert rest[p - 1] == preset[p];
        } else {
          forall q | 0 <= q < |rest| ensures !TargetOf(names, rest[q], i) {
            assert rest[q] == preset[q + 1];
          }
        }
      }
      forall i | 0 <= i < |states| && (forall p :: 0 <= p < |preset| ==> !TargetOf(names, preset[p], i))
        ensures r[i] == states[i]
      {
        forall q | 0 <= q < |rest| ensures !TargetOf(names, rest[q], i) {
          assert rest[q] == preset[q + 1];
        }
        assert !TargetOf(names, preset[0], i);
      }
    }
  }

  /** The G29 preset names six distinct actions, so each one present gets its
      line and every other action keeps its binding. */
  lemma G29PresetSpec(names: seq<string>, states: seq<BindingData>, guid: string, productName: string)
    requires |names| == |states|
    ensures forall p, i :: 0 <= p < |G29Preset| && TargetOf(names, G29Preset[p], i) ==>
              ApplyPreset(names, states, G29Preset, guid, productName)[i]
              == PresetBinding(G29Preset[p], guid, productName)
    ensures forall i :: 0 <= i < |states| && (forall p :: 0 <= p < |G29Preset| ==> !TargetOf(names, G29Preset[p], i)) ==>
              ApplyPreset(names, states, G29Preset, guid, productName)[i] == states[i]
  {
    ApplyPresetSpec(names, states, G29Preset, guid, productName);
  }

  /** Six `SetBind` steps with the preset's lines, in order, make up the
      preset. */
  lemma G29PresetSteps(names: seq<string>, s0: seq<BindingData>, s1: seq<BindingData>, s2: seq<BindingData>,
                       s3: seq<BindingData>, s4: seq<BindingData>, s5: seq<BindingData>, s6: seq<BindingData>,
                       guid: string, productName: string)
    requires |names| == |s0|
    requires s1 == SetBindValue(names, s0, "Steer", BindingData(guid, productName, Axis, 0, true, false))
    requires s2 == SetBindValue(names, s1, "Throttle", BindingData(guid, productName, Axis, 1, true, true))
    requires s3 == SetBindValue(names, s2, "Brake", BindingData(guid, productName, Axis, 5, true, true))
    requires s4 == SetBindValue(names, s3, "Clutch", BindingData(guid, productName, Axis, 6, true, true))
    requires s5 == SetBindValue(names, s4, "ShiftUp", BindingData(guid, productName, Button, 12, true, false))
    requires s6 == SetBindValue(names, s5, "ShiftDown", BindingData(guid, productName, Button, 13, true, false))
    ensures ApplyPreset(names, s0, G29Preset, guid, productName) == s6
  {
  }

  // ---------------------------------------------------------------------
  // Decimal rendering for the binding label

  function DigitChar(d: int): (c: char)
    requires 0 <= d < 10
    ensures '0' <= c <= '9'
  {
    "0123456789"[d]
  }

  /** The decimal digits of `n`, most significant first. */
  function NatToString(n: nat): (r: string)
    ensures 1 <= |r|
    ensures forall i :: 0 <= i < |r| ==> '0' <= r[i] <= '9'
    decreases n
  {
    if n < 10 then [DigitChar(n)] else NatToString(n / 10) + [DigitChar(n % 10)]
  }

  /** The number a string of decimal digits spells, most significant first. */
  function DigitsValue(digits: string): nat
  {
    if digits == [] then 0
    else 10 * DigitsValue(digits[..|digits| - 1]) + DigitNumber(digits[|digits| - 1])
  }

  /** The value of one decimal digit character (0 for any other character). */
  function DigitNumber(c: char): nat
  {
    if '0' <= c <= '9' then c as int - '0' as int else 0
  }

  /** The digits of `n` spell `n`. */
  lemma {:induction false} NatToStringValue(n: nat)
    ensures DigitsValue(NatToString(n)) == n
    decreases n
  {
    var r := NatToString(n);
    if n >= 10 {
      NatToStringValue(n / 10);
      assert r[..|r| - 1] == NatToString(n / 10);
    }
  }

  /** The digits carry no leading zero: a positive number's text starts
      with a non-zero digit, as C# writes it. */
  lemma {:induction false} NatToStringCanonical(n: nat)
    ensures n >= 1 ==> NatToString(n)[0] != '0'
    ensures n == 0 ==> NatToString(n) == "0"
    decreases n
  {
    if n >= 10 {
      NatToStringCanonical(n / 10);
      assert NatToString(n)[0] == NatToString(n / 10)[0];
    }
  }

  /** C#'s `int.ToString()`: a leading '-' for negatives. */
  function IntToString(n: int): (r: string)
    ensures 1 <= |r|
    ensures (r[0] == '-') <==> n < 0
    ensures '0' <= r[|r| - 1] <= '9'
  {
    if n < 0 then "-" + NatToString(-n) else NatToString(n)
  }

  /** The text of a non-negative integer spells it; the text of a negative
      one is '-' followed by the text of its magnitude. */
  lemma IntToStringValue(n: int)
    ensures n >= 0 ==> DigitsValue(IntToString(n)) == n
    ensures n < 0 ==> IntToString(n)[1..] == NatToString(-n) && DigitsValue(IntToString(n)[1..]) == -n
  {
    if n >= 0 {
      NatToStringValue(n);
    } else {
      NatToStringValue(-n);
      assert IntToString(n)[1..] == NatToString(-n);
    }
  }

  /** The label of an action's binding: "<None>" when unbound, otherwise
      "<product> - <type> <index>", with " (Inv)" appended when inverted. */
  function Label(b: BindingData): (r: string)
    ensures r == "<None>" <==> !b.isBound
    ensures b.isBound ==> |r| >= |b.deviceProductName| + 8
  {
    if !b.isBound then "<None>"
    else
      b.deviceProductName + " - " + TypeName(b.inputType) + " " + IntToString(b.inputIndex)
      + (if b.invert then " (Inv)" else "")
  }

  /** An unbound action reads "<None>" and no bound one does; a bound label
      starts with the product name and ends in ")" exactly when inverted. */
  lemma LabelShape(b: BindingData)
    ensures Label(b) == "<None>" <==> !b.isBound
    ensures b.isBound ==>
              |Label(b)| > |b.deviceProductName|
              && Label(b)[..|b.deviceProductName|] == b.deviceProductName
              && (b.invert <==> Label(b)[|Label(b)| - 1] == ')')
  {
  }

  // ---------------------------------------------------------------------
  // The objects

  /** One bindable action, a mutable list element. */
  class InputAction {
    var actionName: string
    var displayName: string
    var deviceGuid: string
    var deviceProductName: string
    var inputType: InputType
    var inputIndex: int
    var isBound: bool
    var invert: bool

    /** A new, unbound action. */
    constructor (actionName: string, displayName: string)
      ensures this.actionName == actionName && this.displayName == displayName
      ensures Data() == Unbound
    {
      this.actionName := actionName;
      this.displayName := displayName;
      deviceGuid := "";
      deviceProductName := "";
      inputType := Button;
      inputIndex := 0;
      isBound := false;
      invert := false;
    }

    /** The binding-data fields as one value. */
    function Data(): BindingData
      reads this
    {
      BindingData(deviceGuid, deviceProductName, inputType, inputIndex, isBound, invert)
    }

    /** The label shown next to the action; "<None>" exactly when unbound. */
    function GetBindingString(): (r: string)
      reads this
      ensures r == "<None>" <==> !isBound
    {
      Label(Data())
    }
  }

  /** The binding component. */
  class InputBindingExample {
    var actions: seq<InputAction>
    var isBinding: bool
    var currentBindingAction: InputAction?
    var previousStates: map<string, JoyState>

    /** Capture is on exactly when an action is being captured, that action
        is in the list, and the list holds each object once. */
    ghost predicate Valid()
      reads this
    {
      && (isBinding <==> currentBindingAction != null)
      && (currentBindingAction != null ==> currentBindingAction in actions)
      && (forall i, j :: 0 <= i < j < |actions| ==> actions[i] != actions[j])
    }

    /** The action names, in list order. */
    function Names(): (r: seq<string>)
      reads this, actions
      ensures |r| == |actions|
      ensures forall i :: 0 <= i < |actions| ==> r[i] == actions[i].actionName
    {
      seq(|actions|, i reads this, actions requires 0 <= i < |actions| => actions[i].actionName)
    }

    /** The display name of each action, in list order. */
    function DisplayNames(): (r: seq<string>)
      reads this, actions
      ensures |r| == |actions|
      ensures forall i :: 0 <= i < |actions| ==> r[i] == actions[i].displayName
    {
      seq(|actions|, i reads this, actions requires 0 <= i < |actions| => actions[i].displayName)
    }

    /** The binding data of each action, in list order. */
    function States(): (r: seq<BindingData>)
      reads this, actions
      ensures |r| == |actions|
      ensures forall i :: 0 <= i < |actions| ==> r[i] == actions[i].Data()
    {
      seq(|actions|, i reads this, actions requires 0 <= i < |actions| => actions[i].Data())
    }

    /** The six default actions, all unbound; capture off; no snapshots. */
    constructor ()
      ensures Valid() && !isBinding && previousStates == map[]
      ensures |actions| == |DefaultActionNames|
      ensures forall i :: 0 <= i < |actions| ==>
                actions[i].actionName == DefaultActionNames[i] && actions[i].Data() == Unbound
      ensures forall i :: 0 <= i < |actions| ==> actions[i].displayName == DefaultDisplayNames[i]
      ensures fresh(actions)
    {
      var steer := new InputAction("Steer", "Steering");
      var throttle := new InputAction("Throttle", "Throttle");
      var brake := new InputAction("Brake", "Brake");
      var clutch := new InputAction("Clutch", "Clutch");
      var shiftUp := new InputAction("ShiftUp", "Shift Up");
      var shiftDown := new InputAction("ShiftDown", "Shift Down");
      actions := [steer, throttle, brake, clutch, shiftUp, shiftDown];
      isBinding := false;
      currentBindingAction := null;
      previousStates := map[];
    }

    /** The "Bind" button, drawn only while capture is off: start capturing
        `action`. */
    method BeginBinding(action: InputAction)
      requires Valid() && !isBinding && action in actions
      modifies this`isBinding, this`currentBindingAction
      ensures Valid() && isBinding && currentBindingAction == action
    {
      currentBindingAction := action;
      isBinding := true;
    }

    /** The "Cancel" button, drawn only while capturing: stop without binding. */
    method CancelBinding()
      requires Valid() && isBinding
      modifies this`isBinding, this`currentBindingAction
      ensures Valid() && !isBinding && currentBindingAction == null
    {
      isBinding := false;
      currentBindingAction := null;
    }

    /** The "Inv" toggle, drawn for axis actions while capture is off. */
    method SetInvert(action: InputAction, newInvert: bool)
      requires Valid() && !isBinding && action in actions && action.inputType == Axis
      modifies action
      ensures action.Data() == old(action.Data()).(invert := newInvert)
      ensures action.actionName == old(action.actionName) && action.displayName == old(action.displayName)
    {
      if newInvert != action.invert {
        action.invert := newInvert;
      }
    }

    /** `BindAction`: write the captured input into `action`, not inverted,
        and end capture. */
    method BindAction(action: InputAction, guid: string, deviceName: string, inputType: InputType, index: int)
      requires Valid() && action in actions
      modifies action, this`isBinding, this`currentBindingAction
      ensures Valid() && !isBinding && currentBindingAction == null
      ensures action.Data() == BindingData(guid, deviceName, inputType, index, true, false)
      ensures action.actionName == old(action.actionName) && action.displayName == old(action.displayName)
    {
      action.deviceGuid := guid;
      action.deviceProductName := deviceName;
      action.inputType := inputType;
      action.inputIndex := index;
      action.isBound := true;
      action.invert := false;
      isBinding := false;
      currentBindingAction := null;
    }

    /** `CheckAxis`: while capturing, a change of strictly more than the
        threshold binds the action being captured to axis `axisIndex`; once
        capture has ended it does nothing. */
    method CheckAxis(current: int, previous: int, axisIndex: int, guid: string, info: DeviceInfo)
      requires Valid()
      modifies this`isBinding, this`currentBindingAction, currentBindingAction
      ensures Valid()
      ensures old(isBinding) && Abs(current - previous) > AxisThreshold ==>
                !isBinding && currentBindingAction == null
                && old(currentBindingAction).Data()
                   == BindingData(guid, info.productName, Axis, axisIndex, true, false)
                && old(currentBindingAction).actionName == old(currentBindingAction.actionName)
                && old(currentBindingAction).displayName == old(currentBindingAction.displayName)
      ensures !(old(isBinding) && Abs(current - previous) > AxisThreshold) ==>
                isBinding == old(isBinding) && currentBindingAction == old(currentBindingAction)
                && (currentBindingAction != null ==> unchanged(currentBindingAction))
    {
      if !isBinding { return; }
      var delta := Abs(current - previous);
      if delta > AxisThreshold {
        BindAction(currentBindingAction, guid, info.productName, Axis, axisIndex);
      }
    }

    /** The axis pass of `DetectInput` on one device: x, y, z, rx, ry, rz and
        slider 0 go through `CheckAxis` in that order, so the first axis that
        moved binds and the later calls find capture already ended. */
    method CheckAxes(currentState: JoyState, prevState: JoyState, guid: string, info: DeviceInfo)
      requires Valid() && isBinding
      modifies this`isBinding, this`currentBindingAction, currentBindingAction
      ensures Valid()
      ensures FirstMovedAxis(currentState, prevState, 0).None? ==>
                isBinding && currentBindingAction == old(currentBindingAction)
                && unchanged(old(currentBindingAction))
      ensures FirstMovedAxis(currentState, prevState, 0).Some? ==>
                !isBinding && currentBindingAction == null
                && old(currentBindingAction).Data()
                   == BindingData(guid, info.productName, Axis, FirstMovedAxis(currentState, prevState, 0).value, true, false)
                && old(currentBindingAction).actionName == old(currentBindingAction.actionName)
                && old(currentBindingAction).displayName == old(currentBindingAction.displayName)
    {
      CheckAxis(currentState.lX, prevState.lX, 0, guid, info);
      CheckAxis(currentState.lY, prevState.lY, 1, guid, info);
      CheckAxis(currentState.lZ, prevState.lZ, 2, guid, info);
      CheckAxis(currentState.lRx, prevState.lRx, 3, guid, info);
      CheckAxis(currentState.lRy, prevState.lRy, 4, guid, info);
      CheckAxis(currentState.lRz, prevState.lRz, 5, guid, info);
      CheckAxis(currentState.slider0, prevState.slider0, 6, guid, info);
      FirstMovedAxisSpec(currentState, prevState, 0);
    }

    /** `UpdatePreviousStates`: store every active device's current snapshot
        under its guid, adding or overwriting. */
    method UpdatePreviousStates(devices: seq<ActiveDevice>)
      modifies this`previousStates
      ensures previousStates == Remember(old(previousStates), devices)
    {
      var i := 0;
      while i < |devices|
        invariant 0 <= i <= |devices|
        invariant previousStates == Remember(old(previousStates), devices[..i])
      {
        // `ContainsKey` then assign, or `Add`: both leave the same map.
        previousStates := previousStates[devices[i].guid := devices[i].state];
        assert devices[..i + 1][..i] == devices[..i];
        i := i + 1;
      }
      assert devices[..|devices|] == devices;
    }

    /** One device of `DetectInput`'s scan, given its previous snapshot:
        bind to its lowest rising button and stop; with no rising button, run
        the axis pass. */
    method ScanDevice(device: ActiveDevice, prevState: JoyState)
      requires Valid() && isBinding
      modifies this`isBinding, this`currentBindingAction, currentBindingAction
      ensures Valid()
      ensures Activity(device, prevState).None? ==>
                isBinding && currentBindingAction == old(currentBindingAction)
                && unchanged(old(currentBindingAction))
      ensures Activity(device, prevState).Some? ==>
                !isBinding && currentBindingAction == null
                && old(currentBindingAction).Data() == Captured(Activity(device, prevState).value)
                && old(currentBindingAction).actionName == old(currentBindingAction.actionName)
                && old(currentBindingAction).displayName == old(currentBindingAction.displayName)
    {
      var currentState := device.state;
      var i := 0;
      while i < CaptureButtons
        invariant 0 <= i <= CaptureButtons
        invariant Valid() && isBinding && currentBindingAction == old(currentBindingAction)
        invariant unchanged(old(currentBindingAction))
        invariant forall j :: 0 <= j < i ==> !RisingEdge(currentState, prevState, j)
      {
        if ButtonPressed(currentState, i) && !ButtonPressed(prevState, i) {
          ButtonActivity(device, prevState, i);
          BindAction(currentBindingAction, device.guid, device.info.productName, Button, i);
          return;
        }
        i := i + 1;
      }
      FirstRisingEdgeSpec(currentState, prevState, 0);
      AxisActivity(device, prevState);
      CheckAxes(currentState, prevState, device.guid, device.info);
    }

    /** `DetectInput`: scan the devices in order, skipping those without a
        previous snapshot; the first one with a rising button edge or a moved
        axis binds the action being captured and ends the scan. If none shows
        activity, capture stays on and no action changes. */
    method DetectInput(devices: seq<ActiveDevice>)
      requires Valid() && isBinding
      modifies this`isBinding, this`currentBindingAction, currentBindingAction
      ensures Valid()
      ensures Detect(devices, previousStates).None? ==>
                isBinding && currentBindingAction == old(currentBindingAction)
                && unchanged(old(currentBindingAction))
      ensures Detect(devices, previousStates).Some? ==>
                !isBinding && currentBindingAction == null
                && old(currentBindingAction).Data() == Captured(Detect(devices, previousStates).value)
                && old(currentBindingAction).actionName == old(currentBindingAction.actionName)
                && old(currentBindingAction).displayName == old(currentBindingAction.displayName)
    {
      var d := 0;
      while d < |devices|
        invariant 0 <= d <= |devices|
        invariant Valid() && isBinding && currentBindingAction == old(currentBindingAction)
        invariant unchanged(old(currentBindingAction))
        invariant forall j :: 0 <= j < d ==> Quiet(devices[j], previousStates)
      {
        var guid := devices[d].guid;
        if guid in previousStates {
          ScanDevice(devices[d], previousStates[guid]);
          if !isBinding {
            DetectPicksFirstActive(devices, previousStates, d);
            return;
          }
        }
        d := d + 1;
      }
    }

    /** `Update`, one frame: capture from the snapshots of the previous frame
        when capturing, then remember this frame's snapshots. */
    method Update(devices: seq<ActiveDevice>)
      requires Valid()
      modifies this`isBinding, this`currentBindingAction, this`previousStates, currentBindingAction
      ensures Valid()
      ensures previousStates == Remember(old(previousStates), devices)
      ensures var hit := if old(isBinding) then Detect(devices, old(previousStates)) else None;
              && (hit.None? ==>
                    isBinding == old(isBinding) && currentBindingAction == old(currentBindingAction)
                    && (old(currentBindingAction) != null ==> unchanged(old(currentBindingAction))))
              && (hit.Some? ==>
                    !isBinding && currentBindingAction == null
                    && old(currentBindingAction).Data() == Captured(hit.value)
                    && old(currentBindingAction).actionName == old(currentBindingAction.actionName)
                    && old(currentBindingAction).displayName == old(currentBindingAction.displayName))
    {
      if isBinding {
        DetectInput(devices);
      }
      UpdatePreviousStates(devices);
    }

    /** `SetBind`: the first action carrying `name` gets the binding with the
        given inversion; an unknown name changes nothing. */
    method SetBind(name: string, guid: string, prod: string, inputType: InputType, index: int, inv: bool)
      requires Valid()
      modifies actions
      ensures Valid() && Names() == old(Names())
      ensures DisplayNames() == old(DisplayNames())
      ensures States() == SetBindValue(old(Names()), old(States()), name, BindingData(guid, prod, inputType, index, true, inv))
    {
      var found := FirstNamed(Names(), name, 0);
      if found.Some? {
        var action := actions[found.value];
        action.deviceGuid := guid;
        action.deviceProductName := prod;
        action.inputType := inputType;
        action.inputIndex := index;
        action.isBound := true;
        action.invert := inv;
      }
    }

    /** `ApplyG29Preset`: with no active device nothing changes; otherwise
        the six preset lines are set, in order, on the first active device. */
    method ApplyG29Preset(devices: seq<ActiveDevice>)
      requires Valid()
      modifies actions
      ensures Valid() && Names() == old(Names())
      ensures DisplayNames() == old(DisplayNames())
      ensures devices == [] ==> States() == old(States())
      ensures devices != [] ==>
                States() == ApplyPreset(old(Names()), old(States()), G29Preset,
                                        devices[0].guid, devices[0].info.productName)
    {
      if |devices| == 0 {
        return;
      }
      var guid := devices[0].guid;
      var prodName := devices[0].info.productName;
      ghost var names := Names();
      ghost var s0 := States();
      SetBind("Steer", guid, prodName, Axis, 0, false);
      ghost var s1 := States();
      SetBind("Throttle", guid, prodName, Axis, 1, true);
      ghost var s2 := States();
      SetBind("Brake", guid, prodName, Axis, 5, true);
      ghost var s3 := States();
      SetBind("Clutch", guid, prodName, Axis, 6, true);
      ghost var s4 := States();
      SetBind("ShiftUp", guid, prodName, Button, 12, false);
      ghost var s5 := States();
      SetBind("ShiftDown", guid, prodName, Button, 13, false);
      G29PresetSteps(names, s0, s1, s2, s3, s4, s5, States(), guid, prodName);
    }
  }
}
