/** The auto-binder (`DirectInputAutoBinder`): when a device appears, attach
    it if it is a joystick, gamepad or wheel and not yet active, point the
    vehicle provider at it and load the first supported profile whose
    product-name substring occurs in the device's name, ignoring case. */
module AutoBind {
  import opened Wrappers
  import opened Snapshot
  import opened Profiles
  import Provider

  /** DirectInput 8 main device types (DI8DEVTYPE_JOYSTICK, _GAMEPAD, _DRIVING). */
  const DeviceTypeJoystick: int := 20
  const DeviceTypeGamepad: int := 21
  const DeviceTypeDriving: int := 22

  /** The main type: the least significant byte of the device type. */
  function MainType(deviceType: bv32): (r: int)
    ensures 0 <= r < 256
  {
    (deviceType & 0xFF) as int
  }

  /** Joysticks, gamepads and driving devices are attached; nothing else. */
  predicate IsEligible(deviceType: bv32): (r: bool)
    ensures r <==> deviceType & 0xFF == 0x14 || deviceType & 0xFF == 0x15 || deviceType & 0xFF == 0x16
  {
    var mainType := MainType(deviceType);
    mainType == DeviceTypeDriving || mainType == DeviceTypeJoystick || mainType == DeviceTypeGamepad
  }

  /** `GetDeviceTypeName`, used in the log line. */
  function DeviceTypeName(mainType: int): (r: string)
    ensures r in {"Driving/Wheel", "Joystick", "Gamepad", "Unknown"}
    ensures r == "Unknown" <==> mainType !in {DeviceTypeJoystick, DeviceTypeGamepad, DeviceTypeDriving}
    ensures r == "Driving/Wheel" <==> mainType == DeviceTypeDriving
    ensures r == "Joystick" <==> mainType == DeviceTypeJoystick
    ensures r == "Gamepad" <==> mainType == DeviceTypeGamepad
  {
    if mainType == DeviceTypeDriving then "Driving/Wheel"
    else if mainType == DeviceTypeJoystick then "Joystick"
    else if mainType == DeviceTypeGamepad then "Gamepad"
    else "Unknown"
  }

  /** Exactly the eligible devices get a known type name. */
  lemma EligibleIffNamed(deviceType: bv32)
    ensures IsEligible(deviceType) <==> DeviceTypeName(MainType(deviceType)) != "Unknown"
    ensures IsEligible(deviceType) <==> deviceType & 0xFF in {0x14, 0x15, 0x16}
  {
  }

  /** The bytes above the low one (the subtype) play no part in eligibility. */
  lemma SubtypeIgnored(deviceType: bv32, other: bv32)
    requires deviceType & 0xFF == other & 0xFF
    ensures IsEligible(deviceType) == IsEligible(other)
    ensures DeviceTypeName(MainType(deviceType)) == DeviceTypeName(MainType(other))
  {
  }

  // ---------------------------------------------------------------------
  // Case-insensitive substring search

  /** The per-character case fold of an ordinal ignore-case comparison, on
      the ASCII letters: lower case is mapped to upper case. */
  function Fold(c: char): char
  {
    if 'a' <= c <= 'z' then (c as int - 32) as char else c
  }

  /** Upper and lower case of a letter fold together. */
  lemma FoldMergesCase(c: char)
    requires 'a' <= c <= 'z'
    ensures Fold(c) == Fold((c as int - 32) as char)
  {
  }

  /** `needle` occurs, ignoring case, in `haystack` at position `i`. */
  predicate MatchesAt(haystack: string, needle: string, i: int)
    requires 0 <= i
  {
    i + |needle| <= |haystack|
    && forall k :: 0 <= k < |needle| ==> Fold(haystack[i + k]) == Fold(needle[k])
  }

  /** `IndexOf(needle, OrdinalIgnoreCase)` searching from `from`: the first
      matching position, or -1. */
  function IndexOfIgnoreCase(haystack: string, needle: string, from: int): (r: int)
    requires 0 <= from
    ensures r == -1 || from <= r
    ensures r >= 0 ==> MatchesAt(haystack, needle, r)
    ensures r >= 0 ==> forall i :: from <= i < r ==> !MatchesAt(haystack, needle, i)
    ensures r == -1 <==> forall i :: from <= i ==> !MatchesAt(haystack, needle, i)
    decreases |haystack| - from
  {
    if from + |needle| > |haystack| then -1
    else if MatchesAt(haystack, needle, from) then from
    else IndexOfIgnoreCase(haystack, needle, from + 1)
  }

  /** The search ignores case on both sides. */
  lemma {:induction false} IndexOfIgnoresCase(haystack: string, needle: string, needle2: string)
    requires |needle| == |needle2|
    requires forall k :: 0 <= k < |needle| ==> Fold(needle[k]) == Fold(needle2[k])
    ensures IndexOfIgnoreCase(haystack, needle, 0) == IndexOfIgnoreCase(haystack, needle2, 0)
  {
    assert forall i :: 0 <= i ==> (MatchesAt(haystack, needle, i) <==> MatchesAt(haystack, needle2, i));
  }

  // ---------------------------------------------------------------------
  // Profile choice

  /** A profile applies to a product name when its substring is present,
      non-empty and occurs in the name, ignoring case. */
  predicate Matches(profile: DeviceMappingProfile, productName: string)
  {
    profile.productNameSubstring.Some?
    && |profile.productNameSubstring.value| > 0
    && IndexOfIgnoreCase(productName, profile.productNameSubstring.value, 0) >= 0
  }

  /** Profiles without a substring never apply. */
  lemma EmptySubstringNeverMatches(profile: DeviceMappingProfile, productName: string)
    requires profile.productNameSubstring.None? || profile.productNameSubstring.value == ""
    ensures !Matches(profile, productName)
  {
  }

  /** Where the profile scan of `BindToNWHProvider`, started at `from`,
      stops: at the first slot that is null (reading its substring throws) or
      holds an applicable profile; `|slots|` when it runs off the end. A C#
      list element may be null, which is `None` here. */
  function ScanStop(slots: seq<Option<DeviceMappingProfile>>, productName: string, from: int): (r: int)
    requires 0 <= from <= |slots|
    ensures from <= r <= |slots|
    ensures forall j :: from <= j < r ==> slots[j].Some? && !Matches(slots[j].value, productName)
    ensures r < |slots| ==> slots[r].None? || Matches(slots[r].value, productName)
    decreases |slots| - from
  {
    if from == |slots| then from
    else if slots[from].None? || Matches(slots[from].value, productName) then from
    else ScanStop(slots, productName, from + 1)
  }

  /** Slot `k` holds an applicable profile and the scan reaches it: every
      slot before it holds a profile that does not apply. */
  predicate FirstApplicable(slots: seq<Option<DeviceMappingProfile>>, productName: string, k: int)
  {
    0 <= k < |slots| && slots[k].Some? && Matches(slots[k].value, productName)
    && forall j :: 0 <= j < k ==> slots[j].Some? && !Matches(slots[j].value, productName)
  }

  /** The scan ends on a profile exactly at the first applicable slot. */
  lemma ScanStopIsFirstApplicable(slots: seq<Option<DeviceMappingProfile>>, productName: string, k: int)
    ensures FirstApplicable(slots, productName, k)
            <==> k == ScanStop(slots, productName, 0) && k < |slots| && slots[k].Some?
  {
  }

  /** The profile a newly bound device gets, if any: the first applicable
      profile of the list, provided the device is active, the list exists and
      no null slot comes first. */
  function ProfileFor(devices: seq<ActiveDevice>, guid: string,
                      supportedProfiles: Option<seq<Option<DeviceMappingProfile>>>): (r: Option<DeviceMappingProfile>)
    ensures r.Some? <==>
              Lookup(devices, guid).Some? && supportedProfiles.Some?
              && exists k :: FirstApplicable(supportedProfiles.value, Lookup(devices, guid).value.info.productName, k)
    ensures r.Some? ==>
              exists k :: FirstApplicable(supportedProfiles.value, Lookup(devices, guid).value.info.productName, k)
                          && r.value == supportedProfiles.value[k].value
  {
    match Lookup(devices, guid)
    case None => None
    case Some(device) =>
      match supportedProfiles
      case None => None
      case Some(slots) =>
        var k := ScanStop(slots, device.info.productName, 0);
        assert forall m :: FirstApplicable(slots, device.info.productName, m) ==> m == k by {
          forall m | FirstApplicable(slots, device.info.productName, m) ensures m == k {
            ScanStopIsFirstApplicable(slots, device.info.productName, m);
          }
        }
        if k < |slots| && slots[k].Some? then
          ScanStopIsFirstApplicable(slots, device.info.productName, k);
          Some(slots[k].value)
        else None
  }

  /** With no null slot in the list, a profile is chosen exactly when the
      device is active and some profile applies, and it is the first one. */
  lemma ProfileForWithoutNullSlots(devices: seq<ActiveDevice>, guid: string, slots: seq<Option<DeviceMappingProfile>>)
    requires forall j :: 0 <= j < |slots| ==> slots[j].Some?
    ensures ProfileFor(devices, guid, Some(slots)).None?
            <==> Lookup(devices, guid).None?
                 || forall j :: 0 <= j < |slots| ==> !Matches(slots[j].value, Lookup(devices, guid).value.info.productName)
    ensures ProfileFor(devices, guid, Some(slots)).Some? ==>
              exists k :: 0 <= k < |slots| && ProfileFor(devices, guid, Some(slots)).value == slots[k].value
                          && Matches(slots[k].value, Lookup(devices, guid).value.info.productName)
                          && forall j :: 0 <= j < k ==> !Matches(slots[j].value, Lookup(devices, guid).value.info.productName)
  {
    if Lookup(devices, guid).Some? {
      var name := Lookup(devices, guid).value.info.productName;
      var k := ScanStop(slots, name, 0);
      if k < |slots| {
        ScanStopIsFirstApplicable(slots, name, k);
      }
    }
  }

  /** The scan of `BindToNWHProvider` reaches a null slot before any
      applicable profile, so the `NullReferenceException` of the substring
      read escapes. */
  predicate NullSlotReached(devices: seq<ActiveDevice>, guid: string,
                            supportedProfiles: Option<seq<Option<DeviceMappingProfile>>>)
  {
    Lookup(devices, guid).Some? && supportedProfiles.Some?
    && var k := ScanStop(supportedProfiles.value, Lookup(devices, guid).value.info.productName, 0);
       k < |supportedProfiles.value| && supportedProfiles.value[k].None?
  }

  /** A null slot hides every profile after it, applicable or not. */
  lemma NullSlotHidesLaterProfiles(devices: seq<ActiveDevice>, guid: string,
                                   supportedProfiles: Option<seq<Option<DeviceMappingProfile>>>)
    requires NullSlotReached(devices, guid, supportedProfiles)
    ensures ProfileFor(devices, guid, supportedProfiles).None?
  {
  }

  /** The component: the designer-assigned profile list (null is `None`). */
  class DirectInputAutoBinder {
    var supportedProfiles: Option<seq<Option<DeviceMappingProfile>>>

    constructor (supportedProfiles: Option<seq<Option<DeviceMappingProfile>>>)
      ensures this.supportedProfiles == supportedProfiles
    {
      this.supportedProfiles := supportedProfiles;
    }

    /** `BindToNWHProvider`: with no provider in the scene nothing happens;
        otherwise the provider is pointed at `guid` and, when `guid` is
        active, the first applicable profile in list order is loaded. A null
        slot reached first ends the scan with an escaping exception
        (`faulted`), after the identifier was set. The provider's held
        outputs are not touched. */
    method BindToNWHProvider(guid: string, provider: Provider.NWHDirectInputProvider?, devices: seq<ActiveDevice>)
      returns (faulted: bool)
      modifies provider
      ensures faulted <==> provider != null && NullSlotReached(devices, guid, supportedProfiles)
      ensures provider != null ==>
                provider.DeviceGUID == guid
                && provider.held == old(provider.held)
                && provider.mapping
                   == match ProfileFor(devices, guid, supportedProfiles)
                      case None => old(provider.mapping)
                      case Some(p) => p.mapping
    {
      faulted := false;
      if provider == null {
        return;
      }
      provider.DeviceGUID := guid;
      var activeDevice := Lookup(devices, guid);
      if activeDevice.None? {
        return;
      }
      var pName := activeDevice.value.info.productName;
      if supportedProfiles.None? {
        return;
      }
      var slots := supportedProfiles.value;
      var i := 0;
      while i < |slots|
        invariant 0 <= i <= |slots|
        invariant forall j :: 0 <= j < i ==> slots[j].Some? && !Matches(slots[j].value, pName)
        invariant provider.DeviceGUID == guid
        invariant provider.held == old(provider.held) && provider.mapping == old(provider.mapping)
      {
        if slots[i].None? {
          assert ScanStop(slots, pName, 0) == i;
          faulted := true;
          return;
        }
        var profile := slots[i].value;
        if profile.productNameSubstring.Some? && profile.productNameSubstring.value != ""
           && IndexOfIgnoreCase(pName, profile.productNameSubstring.value, 0) >= 0
        {
          assert ScanStop(slots, pName, 0) == i;
          provider.LoadProfile(Some(profile));
          return;
        }
        i := i + 1;
      }
    }

    /** `CheckAndBindDevice`, for a device the device manager reports.
        `devicesBefore` are the active devices before the call; `attached` is
        the device manager's answer to the attach request and `devicesAfter`
        its active devices afterwards. Returns whether an attach was
        requested: exactly for an eligible device that is not yet active;
        and whether the binding's exception escaped. The provider changes
        only when that attach succeeds. */
    method CheckAndBindDevice(device: DeviceInfo, devicesBefore: seq<ActiveDevice>, attached: bool,
                              devicesAfter: seq<ActiveDevice>, provider: Provider.NWHDirectInputProvider?)
      returns (attachRequested: bool, faulted: bool)
      modifies provider
      ensures attachRequested <==> IsEligible(device.deviceType) && Lookup(devicesBefore, device.guidInstance).None?
      ensures faulted <==>
                attachRequested && attached && provider != null
                && NullSlotReached(devicesAfter, device.guidInstance, supportedProfiles)
      ensures !(attachRequested && attached) && provider != null ==>
                provider.DeviceGUID == old(provider.DeviceGUID)
                && provider.mapping == old(provider.mapping)
                && provider.held == old(provider.held)
      ensures attachRequested && attached && provider != null ==>
                provider.DeviceGUID == device.guidInstance
                && provider.held == old(provider.held)
                && provider.mapping
                   == match ProfileFor(devicesAfter, device.guidInstance, supportedProfiles)
                      case None => old(provider.mapping)
                      case Some(p) => p.mapping
    {
      attachRequested := false;
      faulted := false;
      var mainType := MainType(device.deviceType);
      if mainType == DeviceTypeDriving || mainType == DeviceTypeJoystick || mainType == DeviceTypeGamepad {
        if Lookup(devicesBefore, device.guidInstance).None? {
          attachRequested := true;
          if attached {
            faulted := BindToNWHProvider(device.guidInstance, provider, devicesAfter);
          }
        }
      }
    }
  }
}
