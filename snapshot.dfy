/** The raw device-state snapshot (`FlatJoyState2`) and the device records that
    the DirectInput device manager hands to the core. The device manager itself
    is external: its answers are passed in as values of these types. */
module Snapshot {
  import opened Wrappers

  /** One polled instant of a device: two 64-bit button masks (buttons 0..63 in
      `buttonsA`, 64..127 in `buttonsB`), the eight axis registers and the
      first slider. Axis registers are C# `int`s; they are only read, never
      computed on, except by the capture delta (see `InputBinding`). */
  datatype JoyState = JoyState(
    buttonsA: bv64,
    buttonsB: bv64,
    lX: int, lY: int, lZ: int,
    lRx: int, lRy: int, lRz: int,
    lU: int, lV: int,
    slider0: int)

  /** What the device manager reports about an enumerated device. */
  datatype DeviceInfo = DeviceInfo(guidInstance: string, productName: string, deviceType: bv32)

  /** One entry of the device manager's active-device dictionary, together
      with the state it reports for that device on the current frame. */
  datatype ActiveDevice = ActiveDevice(guid: string, info: DeviceInfo, state: JoyState)

  /** A dictionary holds each key once. */
  ghost predicate UniqueGuids(devices: seq<ActiveDevice>)
  {
    forall i, j :: 0 <= i < j < |devices| ==> devices[i].guid != devices[j].guid
  }

  /** The device manager's answer for `guid`: the first active entry with that
      identifier (`IsDeviceActive` and `GetDeviceState` / `TryGetValue`). */
  function Lookup(devices: seq<ActiveDevice>, guid: string): (r: Option<ActiveDevice>)
    ensures r.None? <==> forall i :: 0 <= i < |devices| ==> devices[i].guid != guid
    ensures r.Some? ==> r.value.guid == guid && r.value in devices
  {
    if devices == [] then None
    else if devices[0].guid == guid then Some(devices[0])
    else Lookup(devices[1..], guid)
  }

  /** Bit `k` of `mask`: the low bit after `k` one-place right shifts. */
  predicate Bit(mask: bv64, k: int)
    requires 0 <= k < 64
    decreases k
  {
    if k == 0 then mask & 1 == 1 else Bit(mask >> 1, k - 1)
  }

  /** The C# test `((mask >> k) & 1) == 1` on an unsigned 64-bit value, for a
      shift count that C# has already reduced to 0..63. */
  predicate ShiftBit(mask: bv64, k: int)
    requires 0 <= k < 64
  {
    (mask >> (k as bv7)) & 1 == 1
  }

  /** The mask with bit `k` flipped. */
  function Toggle(mask: bv64, k: int): bv64
    requires 0 <= k < 64
  {
    mask ^ (1 << (k as bv7))
  }

  /** A count in 0..63 survives the conversion to a shift amount. */
  lemma ShiftCount(k: int)
    requires 0 <= k < 64
    ensures (k as bv7) as int == k
  {
  }

  /** Decrementing a non-zero shift amount decrements its value. */
  lemma CountDown(n: bv7)
    requires 1 <= n < 64
    ensures (n - 1) as int == n as int - 1
  {
  }

  /** Shifting once and then `n - 1` more times is shifting `n` times. */
  lemma ShiftStep(mask: bv64, n: bv7)
    requires 1 <= n < 64
    ensures (mask >> 1) >> (n - 1) == mask >> n
  {
  }

  /** `Bit` agrees with a single shift by `n`, by induction on `n`. */
  lemma {:induction false} BitIsShiftCount(mask: bv64, n: bv7)
    requires n < 64
    ensures Bit(mask, n as int) <==> (mask >> n) & 1 == 1
    decreases n as int
  {
    if n > 0 {
      CountDown(n);
      BitIsShiftCount(mask >> 1, n - 1);
      ShiftStep(mask, n);
    }
  }

  /** `Bit` is the C# test `((mask >> k) & 1) == 1`. */
  lemma BitIsShift(mask: bv64, k: int)
    requires 0 <= k < 64
    ensures Bit(mask, k) == ShiftBit(mask, k)
  {
    ShiftCount(k);
    BitIsShiftCount(mask, k as bv7);
  }

  /** XOR with a one-bit mask flips exactly that bit (on shift amounts). */
  lemma ToggleBitVector(mask: bv64, kb: bv7, jb: bv7)
    requires kb < 64 && jb < 64
    ensures ((mask ^ (1 << kb)) >> jb) & 1 == 1
            <==> if jb == kb then (mask >> jb) & 1 != 1 else (mask >> jb) & 1 == 1
  {
  }

  /** The same, for the C# test on integer counts. */
  lemma ToggleShiftBit(mask: bv64, k: int, j: int)
    requires 0 <= k < 64 && 0 <= j < 64
    ensures ShiftBit(Toggle(mask, k), j) == if j == k then !ShiftBit(mask, j) else ShiftBit(mask, j)
  {
    ShiftCount(k);
    ShiftCount(j);
    ToggleBitVector(mask, k as bv7, j as bv7);
  }

  /** Flipping bit `k` flips bit `k` and leaves every other bit as it was. */
  lemma ToggleBit(mask: bv64, k: int, j: int)
    requires 0 <= k < 64 && 0 <= j < 64
    ensures Bit(Toggle(mask, k), j) == if j == k then !Bit(mask, j) else Bit(mask, j)
  {
    var t := Toggle(mask, k);
    BitIsShift(t, j);
    BitIsShift(mask, j);
    ToggleShiftBit(mask, k, j);
  }
}
