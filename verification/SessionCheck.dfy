/**
 Validation as the source runs it: loops over growing sets that stop at the first fault
 (src/session_store.rs, `validate_*` and `with_windows_and_settings`).
 */
module SessionCheck {
  import opened Prelude
  import opened SessionBytes
  import opened SessionText
  import opened SessionTypes
  import opened SessionFormat
  import opened SessionLayout
  import opened SessionFile

  /** The network devices `validate_network_devices` accepts one by one, their identities aside. */
  predicate DeviceStands(d: NetworkDevice)
  {
    !AllBlank(d.displayName) && d.shellIdentity.None? && d.uncPath.Some? && ServerRoot(d.uncPath.value)
  }

  method ValidateDevices(devices: seq<NetworkDevice>) returns (ok: bool)
    ensures ok <==> DevicesValid(devices)
  {
    if |devices| > MAX_NETWORK_DEVICES {
      return false;
    }
    var identities: set<Units> := {};
    var i := 0;
    while i < |devices|
      invariant 0 <= i <= |devices|
      invariant forall j :: 0 <= j < i ==>
                  DeviceStands(devices[j]) && LowerAscii(devices[j].uncPath.value) in identities
      invariant forall id :: id in identities ==> exists j :: 0 <= j < i && LowerAscii(devices[j].uncPath.value) == id
      invariant forall j, k :: 0 <= j < k < i ==>
                  LowerAscii(devices[j].uncPath.value) != LowerAscii(devices[k].uncPath.value)
    {
      if !DeviceStands(devices[i]) {
        return false;
      }
      var identity := LowerAscii(devices[i].uncPath.value);
      if identity in identities {
        return false;
      }
      identities := identities + {identity};
      i := i + 1;
    }
    return true;
  }

  predicate LocationStands(v: NetworkLocation)
  {
    v.source == AsterOwned && !AllBlank(v.displayName) && TextFits(v.displayName) && TargetValid(v.target)
  }

  method ValidateLocations(locations: seq<NetworkLocation>) returns (ok: bool)
    ensures ok <==> LocationsValid(locations)
  {
    if |locations| > MAX_NETWORK_LOCATIONS {
      return false;
    }
    var ids: set<u64> := {};
    var i := 0;
    while i < |locations|
      invariant 0 <= i <= |locations|
      invariant forall j :: 0 <= j < i ==> LocationStands(locations[j]) && locations[j].id in ids
      invariant forall id :: id in ids ==> exists j :: 0 <= j < i && locations[j].id == id
      invariant forall j, k :: 0 <= j < k < i ==> locations[j].id != locations[k].id
    {
      if locations[i].id in ids || !LocationStands(locations[i]) {
        return false;
      }
      ids := ids + {locations[i].id};
      i := i + 1;
    }
    return true;
  }

  method ValidateDirectoryViews(canon: Canon, views: seq<DirectoryView>) returns (ok: bool)
    ensures ok <==> DirectoryViewsValid(canon, views)
  {
    if |views| > MAX_DIRECTORY_VIEWS {
      return false;
    }
    var paths: set<Units> := {};
    var i := 0;
    while i < |views|
      invariant 0 <= i <= |views|
      invariant forall j :: 0 <= j < i ==> DirectoryViewOk(views[j]) && canon(views[j].path) in paths
      invariant forall p :: p in paths ==> exists j :: 0 <= j < i && canon(views[j].path) == p
      invariant forall j, k :: 0 <= j < k < i ==> canon(views[j].path) != canon(views[k].path)
    {
      if !UnitsFit(views[i].path) || canon(views[i].path) in paths || !DirectoryPreferenceValid(views[i].preference) {
        return false;
      }
      paths := paths + {canon(views[i].path)};
      i := i + 1;
    }
    return true;
  }

  method ValidateWindow(w: Window) returns (ok: bool)
    ensures ok <==> WindowValid(w)
  {
    if !PlacementValid(w.placement) || |w.tabs| > MAX_TABS {
      return false;
    }
    var i := 0;
    while i < |w.tabs|
      invariant 0 <= i <= |w.tabs|
      invariant forall j :: 0 <= j < i ==> TabValid(w.tabs[j])
    {
      if !TabValid(w.tabs[i]) {
        return false;
      }
      i := i + 1;
    }
    return true;
  }

  /**
   The window loop of `with_windows_and_settings`: each window is checked, then its active tab is clamped in
   place.
   */
  method ClampWindows(s: Session) returns (windows: Option<seq<Window>>)
    ensures windows.Some?
            <==> 0 < |s.windows| <= MAX_WINDOWS && forall i :: 0 <= i < |s.windows| ==> WindowValid(s.windows[i])
    ensures windows.Some? ==> windows.value == Clamped(s).windows && TabsKept(s.windows, windows.value)
  {
    if s.windows == [] || |s.windows| > MAX_WINDOWS {
      return None;
    }
    var clamped := s.windows;
    var i := 0;
    while i < |clamped|
      invariant 0 <= i <= |clamped| == |s.windows|
      invariant forall j :: 0 <= j < i ==>
                  WindowValid(s.windows[j]) && clamped[j] == s.windows[j].(activeTab := ClampedTab(s.windows[j]))
      invariant forall j :: i <= j < |clamped| ==> clamped[j] == s.windows[j]
    {
      var ok := ValidateWindow(clamped[i]);
      if !ok {
        assert !WindowValid(s.windows[i]);
        return None;
      }
      var w := clamped[i];
      var active := if w.tabs == [] then 0 else if w.activeTab <= |w.tabs| - 1 then w.activeTab else |w.tabs| - 1;
      clamped := clamped[i := w.(activeTab := active)];
      i := i + 1;
    }
    assert clamped == Clamped(s).windows;
    return Some(clamped);
  }

  /** `SessionState::with_windows_and_settings`. */
  method Check(canon: Canon, s: Session) returns (r: Option<Session>)
    ensures r == Checked(canon, s) && (r.Some? <==> Valid(canon, s))
    ensures r.Some? ==> r.value == s.(windows := r.value.windows) && TabsKept(s.windows, r.value.windows)
  {
    hide WindowValid, DirectoryViewsValid, LocationsValid, DevicesValid, EverythingFits;
    var windows := ClampWindows(s);
    if windows.None? || !DirectoryPreferenceValid(s.defaultView) || !SearchPreferenceValid(s.searchView) {
      return None;
    }
    var viewsOk := ValidateDirectoryViews(canon, s.directoryViews);
    if !viewsOk || !EverythingFits(s.settings.everything) || s.settings.quickMenuBackdropOpacity > 100 {
      return None;
    }
    var locationsOk := ValidateLocations(s.locations);
    if !locationsOk {
      return None;
    }
    var devicesOk := ValidateDevices(s.devices);
    if !devicesOk {
      return None;
    }
    return Some(s.(windows := windows.value));
  }
}
