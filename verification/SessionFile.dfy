/**
 The session file as a whole: validation, encoding, decoding, and the theorems about them
 (src/session_store.rs, `with_windows_and_settings`, `encode`, `decode`, `validate_*`).
 */
module SessionFile {
  import opened Prelude
  import opened SessionBytes
  import opened SessionText
  import opened SessionTypes
  import opened SessionFormat
  import opened SessionLayout

  const MIN_WINDOW_WIDTH: nat := 820
  const MIN_WINDOW_HEIGHT: nat := 520
  const MAX_WINDOW_WIDTH: nat := 7_680
  const MAX_WINDOW_HEIGHT: nat := 4_320

  // ---- validation ----

  // Two paths are equal when the platform says so; `canon` maps a path to what it compares by.
  type Canon = Units -> Units

  predicate Blank(c: char)
  {
    var v := c as int;
    0x09 <= v <= 0x0D || v == 0x20 || v == 0x85 || v == 0xA0 || v == 0x1680 || 0x2000 <= v <= 0x200A
    || v == 0x2028 || v == 0x2029 || v == 0x202F || v == 0x205F || v == 0x3000
  }

  /** `trim().is_empty()`. */
  predicate AllBlank(text: string)
  {
    forall i :: 0 <= i < |text| ==> Blank(text[i])
  }

  predicate Slash(u: u16) { u == 0x5C || u == 0x2F }

  predicate UncPath(u: Units)
  {
    if |u| >= 4 && u[0] == 0x5C && u[1] == 0x5C && u[2] == 0x3F && u[3] == 0x5C then
      |u| >= 8 && (u[4] == 0x55 || u[4] == 0x75) && (u[5] == 0x4E || u[5] == 0x6E) && (u[6] == 0x43 || u[6] == 0x63)
        && u[7] == 0x5C
    else |u| >= 3 && Slash(u[0]) && Slash(u[1]) && u[2] != 0x2E && u[2] != 0x3F
  }

  const VERBATIM_UNC: Units := [0x5C, 0x5C, 0x3F, 0x5C, 0x55, 0x4E, 0x43, 0x5C]

  function UncBody(u: Units): Option<Units>
  {
    if VERBATIM_UNC <= u then Some(u[8..]) else if UncPath(u) then Some(u[2..]) else None
  }

  function HostLength(body: Units): (n: nat)
    ensures n <= |body|
  {
    if body == [] || Slash(body[0]) then 0 else 1 + HostLength(body[1..])
  }

  /** `is_unc_server_root`: a non-empty host, followed by nothing but separators. */
  predicate ServerRoot(u: Units)
  {
    match UncBody(u)
    case None => false
    case Some(body) => HostLength(body) > 0 && forall i :: HostLength(body) <= i < |body| ==> Slash(body[i])
  }

  function LowerAscii(u: Units): Units
  {
    seq(|u|, i requires 0 <= i < |u| => if 0x41 <= u[i] <= 0x5A then u[i] + 0x20 else u[i])
  }

  predicate PlacementValid(p: Placement)
  {
    MIN_WINDOW_WIDTH <= p.width <= MAX_WINDOW_WIDTH && MIN_WINDOW_HEIGHT <= p.height <= MAX_WINDOW_HEIGHT
  }

  function TrimSlashes(text: string): string
  {
    if text != [] && text[|text| - 1] == '/' then TrimSlashes(text[..|text| - 1]) else text
  }

  predicate TabValid(t: NavigationLocation)
  {
    match t
    case Home => true
    case Directory(path) => UnitsFit(path)
    case Library(identity, name) => identity != [] && !AllBlank(name) && UnitsFit(identity) && TextFits(name)
    case WebDavPlace(id, revision, root, path) =>
      id != 0 && revision != 0 && root != [] && path != [] && (TrimSlashes(root) <= path || root == "/")
  }

  predicate WindowValid(w: Window)
  {
    PlacementValid(w.placement) && |w.tabs| <= MAX_TABS && forall i :: 0 <= i < |w.tabs| ==> TabValid(w.tabs[i])
  }

  predicate DirectoryViewsValid(canon: Canon, views: seq<DirectoryView>)
  {
    && |views| <= MAX_DIRECTORY_VIEWS
    && (forall i :: 0 <= i < |views| ==> UnitsFit(views[i].path) && DirectoryPreferenceValid(views[i].preference))
    && (forall i, j :: 0 <= i < j < |views| ==> canon(views[i].path) != canon(views[j].path))
  }

  predicate TargetValid(t: NetworkTarget)
  {
    match t
    case WindowsPath(path) => UnitsFit(path)
    case WebDavTarget(c) => c.host != [] && c.root != [] && c.username != [] && c.port != 0 && c.connectionId != 0
    case ShellItemId(_) => false
  }

  predicate LocationsValid(locations: seq<NetworkLocation>)
  {
    && |locations| <= MAX_NETWORK_LOCATIONS
    && (forall i :: 0 <= i < |locations| ==>
          locations[i].source == AsterOwned && !AllBlank(locations[i].displayName) && TextFits(locations[i].displayName)
          && TargetValid(locations[i].target))
    && (forall i, j :: 0 <= i < j < |locations| ==> locations[i].id != locations[j].id)
  }

  predicate DevicesValid(devices: seq<NetworkDevice>)
  {
    && |devices| <= MAX_NETWORK_DEVICES
    && (forall i :: 0 <= i < |devices| ==>
          !AllBlank(devices[i].displayName) && devices[i].shellIdentity.None? && devices[i].uncPath.Some?
            && ServerRoot(devices[i].uncPath.value))
    && (forall i, j :: 0 <= i < j < |devices| ==>
          LowerAscii(devices[i].uncPath.value) != LowerAscii(devices[j].uncPath.value))
  }

  predicate Valid(canon: Canon, s: Session)
  {
    && 0 < |s.windows| <= MAX_WINDOWS
    && (forall i :: 0 <= i < |s.windows| ==> WindowValid(s.windows[i]))
    && DirectoryPreferenceValid(s.defaultView) && SearchPreferenceValid(s.searchView)
    && DirectoryViewsValid(canon, s.directoryViews)
    && EverythingFits(s.settings.everything) && s.settings.quickMenuBackdropOpacity <= 100
    && LocationsValid(s.locations) && DevicesValid(s.devices)
  }

  function ClampedTab(w: Window): nat
  {
    if w.tabs == [] then 0 else if w.activeTab < |w.tabs| then w.activeTab else |w.tabs| - 1
  }

  function Clamped(s: Session): Session
  {
    s.(windows := seq(|s.windows|, i requires 0 <= i < |s.windows| =>
      s.windows[i].(activeTab := ClampedTab(s.windows[i]))))
  }

  /** The window as it was, with an active tab it has: its own if it has it, else the last, and 0 without tabs. */
  ghost predicate TabKept(w: Window, v: Window)
  {
    && v == w.(activeTab := v.activeTab)
    && (w.activeTab < |w.tabs| ==> v.activeTab == w.activeTab)
    && (|w.tabs| <= w.activeTab && w.tabs != [] ==> v.activeTab == |w.tabs| - 1)
    && (w.tabs == [] ==> v.activeTab == 0)
  }

  /** Window by window. */
  ghost predicate TabsKept(before: seq<Window>, after: seq<Window>)
  {
    |before| == |after| && forall i :: 0 <= i < |before| ==> TabKept(before[i], after[i])
  }

  /** Clamping keeps every tab a window has, and nothing but the active tab changes. */
  lemma ClampedKeepsTabs(s: Session)
    ensures TabsKept(s.windows, Clamped(s).windows) && Clamped(s) == s.(windows := Clamped(s).windows)
  {
  }

  /** `SessionState::with_windows_and_settings`. */
  function Checked(canon: Canon, s: Session): Option<Session>
  {
    if Valid(canon, s) then Some(Clamped(s)) else None
  }

  // ---- the file ----

  const MAGIC: Bytes := [0x41, 0x53, 0x54, 0x46, 0x31, 0x38]   // "ASTF18"

  /** How to write the parts of a session; the layout below works for any. */
  datatype Writers = Writers(
    directory: (DirectoryPreference, Bytes) -> Bytes,
    search: (SearchPreference, Bytes) -> Bytes,
    view: (DirectoryView, Bytes) -> Bytes,
    settings: (Settings, Bytes) -> Bytes,
    location: (NetworkLocation, Bytes) -> Bytes,
    device: (NetworkDevice, Bytes) -> Bytes,
    window: (Window, Bytes) -> Bytes)

  datatype Readers = Readers(
    directory: Bytes -> Parsed<DirectoryPreference>,
    search: Bytes -> Parsed<SearchPreference>,
    view: Bytes -> Parsed<DirectoryView>,
    settings: Bytes -> Parsed<Settings>,
    location: Bytes -> Parsed<NetworkLocation>,
    device: Bytes -> Parsed<NetworkDevice>,
    window: Bytes -> Parsed<Window>)

  datatype Rules = Rules(
    directory: DirectoryPreference -> bool,
    search: SearchPreference -> bool,
    view: DirectoryView -> bool,
    settings: Settings -> bool,
    location: NetworkLocation -> bool,
    device: NetworkDevice -> bool,
    window: Window -> bool)

  ghost predicate Codecs(w: Writers, r: Readers, ok: Rules)
  {
    && Codec(w.directory, r.directory, ok.directory) && Codec(w.search, r.search, ok.search)
    && Codec(w.view, r.view, ok.view) && Codec(w.settings, r.settings, ok.settings)
    && Codec(w.location, r.location, ok.location) && Codec(w.device, r.device, ok.device)
    && Codec(w.window, r.window, ok.window)
  }

  function PutLists(w: Writers, s: Session, rest: Bytes): Bytes
  {
    PutCounted(w.location, s.locations, PutCounted(w.device, s.devices, PutAll(w.window, s.windows, rest)))
  }

  function PutSession(w: Writers, s: Session, rest: Bytes): Bytes
  {
    MAGIC + PutU32(AsWord(|s.windows|), w.directory(s.defaultView, w.search(s.searchView,
      PutCounted(w.view, s.directoryViews, w.settings(s.settings, PutLists(w, s, rest))))))
  }

  datatype Lists = Lists(locations: seq<NetworkLocation>, devices: seq<NetworkDevice>, windows: seq<Window>)

  function GetLists(r: Readers, windowCount: nat, b: Bytes): Parsed<Lists>
  {
    var (locations, b1) :- GetCounted(r.location, MAX_NETWORK_LOCATIONS, b);
    var (devices, b2) :- GetCounted(r.device, MAX_NETWORK_DEVICES, b1);
    var (windows, b3) :- GetAll(r.window, windowCount, b2);
    Good(Lists(locations, devices, windows), b3)
  }

  function GetSession(r: Readers, b: Bytes): Parsed<Session>
  {
    if !(MAGIC <= b) then Bad
    else
      var (windowCount, b1) :- GetU32(b[|MAGIC|..]);
      if windowCount == 0 || windowCount > MAX_WINDOWS then Bad
      else
        var (defaultView, b2) :- r.directory(b1);
        var (searchView, b3) :- r.search(b2);
        var (views, b4) :- GetCounted(r.view, MAX_DIRECTORY_VIEWS, b3);
        var (settings, b5) :- r.settings(b4);
        var (lists, b6) :- GetLists(r, windowCount, b5);
        Good(Session(lists.windows, defaultView, searchView, views, settings, lists.locations, lists.devices), b6)
  }

  predicate Storable(ok: Rules, s: Session)
  {
    && 0 < |s.windows| && AllOk(ok.window, MAX_WINDOWS, s.windows)
    && ok.directory(s.defaultView) && ok.search(s.searchView)
    && AllOk(ok.view, MAX_DIRECTORY_VIEWS, s.directoryViews)
    && ok.settings(s.settings)
    && AllOk(ok.location, MAX_NETWORK_LOCATIONS, s.locations)
    && AllOk(ok.device, MAX_NETWORK_DEVICES, s.devices)
  }

  lemma ListsRoundTrip(w: Writers, r: Readers, ok: Rules, s: Session, rest: Bytes)
    requires Codecs(w, r, ok) && Storable(ok, s)
    ensures GetLists(r, |s.windows|, PutLists(w, s, rest)) == Good(Lists(s.locations, s.devices, s.windows), rest)
  {
    var b2 := PutAll(w.window, s.windows, rest);
    var b1 := PutCounted(w.device, s.devices, b2);
    AllRoundTrip(w.window, r.window, ok.window, s.windows, rest);
    CountedRoundTrip(w.device, r.device, ok.device, MAX_NETWORK_DEVICES, s.devices, b2);
    CountedRoundTrip(w.location, r.location, ok.location, MAX_NETWORK_LOCATIONS, s.locations, b1);
  }

  lemma SessionRoundTrip(w: Writers, r: Readers, ok: Rules, s: Session, rest: Bytes)
    requires Codecs(w, r, ok) && Storable(ok, s)
    ensures GetSession(r, PutSession(w, s, rest)) == Good(s, rest)
  {
    var b5 := PutLists(w, s, rest);
    var b4 := w.settings(s.settings, b5);
    var b3 := PutCounted(w.view, s.directoryViews, b4);
    var b2 := w.search(s.searchView, b3);
    var b1 := w.directory(s.defaultView, b2);
    var b0 := PutU32(AsWord(|s.windows|), b1);
    ListsRoundTrip(w, r, ok, s, rest);
    CountedRoundTrip(w.view, r.view, ok.view, MAX_DIRECTORY_VIEWS, s.directoryViews, b4);
    U32RoundTrip(AsWord(|s.windows|), b1);
    assert (MAGIC + b0)[|MAGIC|..] == b0;
  }

  lemma ListsCanonical(w: Writers, r: Readers, ok: Rules, count: nat, b: Bytes, s: Session)
    requires Codecs(w, r, ok) && GetLists(r, count, b).Good?
    requires GetLists(r, count, b).value == Lists(s.locations, s.devices, s.windows)
    ensures |s.windows| == count && forall i :: 0 <= i < count ==> ok.window(s.windows[i])
    ensures AllOk(ok.location, MAX_NETWORK_LOCATIONS, s.locations) && AllOk(ok.device, MAX_NETWORK_DEVICES, s.devices)
    ensures b == PutLists(w, s, GetLists(r, count, b).rest)
  {
    var locations := GetCounted(r.location, MAX_NETWORK_LOCATIONS, b);
    var devices := GetCounted(r.device, MAX_NETWORK_DEVICES, locations.rest);
    CountedCanonical(w.location, r.location, ok.location, MAX_NETWORK_LOCATIONS, b);
    CountedCanonical(w.device, r.device, ok.device, MAX_NETWORK_DEVICES, locations.rest);
    AllCanonical(w.window, r.window, ok.window, count, devices.rest);
  }

  lemma SessionCanonical(w: Writers, r: Readers, ok: Rules, b: Bytes)
    requires Codecs(w, r, ok) && GetSession(r, b).Good?
    ensures Storable(ok, GetSession(r, b).value)
    ensures b == PutSession(w, GetSession(r, b).value, GetSession(r, b).rest)
  {
    var s := GetSession(r, b).value;
    var b0 := b[|MAGIC|..];
    var count := GetU32(b0);
    var view := r.directory(count.rest);
    var search := r.search(view.rest);
    var views := GetCounted(r.view, MAX_DIRECTORY_VIEWS, search.rest);
    var settings := r.settings(views.rest);
    assert b == MAGIC + b0;
    U32Canonical(b0);
    PutsGot(w.directory, r.directory, ok.directory, count.rest);
    PutsGot(w.search, r.search, ok.search, view.rest);
    CountedCanonical(w.view, r.view, ok.view, MAX_DIRECTORY_VIEWS, search.rest);
    PutsGot(w.settings, r.settings, ok.settings, views.rest);
    ListsCanonical(w, r, ok, count.value, settings.rest, s);
  }
}
