/**
 The larger parts of the session file and the whole of it; each part reads back what was written
 (src/session_store.rs, `encode`, `decode`, `read_network_target`, `write_navigation_location`).
 */
module SessionLayout {
  import opened Prelude
  import opened SessionBytes
  import opened SessionText
  import opened SessionTypes
  import opened SessionFormat

  // ---- settings ----

  function PutOptionalUnits(v: Option<Units>, rest: Bytes): Bytes { PutOption(PutUnits, v, rest) }

  function GetOptionalUnits(b: Bytes): Parsed<Option<Units>> { GetOption(GetUnits, b) }

  function PutOptionalText(v: Option<string>, rest: Bytes): Bytes { PutOption(PutText, v, rest) }

  function GetOptionalText(b: Bytes): Parsed<Option<string>> { GetOption(GetText, b) }

  predicate EverythingFits(e: Everything)
  {
    && (e.executablePath.Some? ==> UnitsFit(e.executablePath.value))
    && TextFits(e.instanceName)
    && (e.verifiedVersion.Some? ==> TextFits(e.verifiedVersion.value))
  }

  function PutEverything(e: Everything, rest: Bytes): Bytes
  {
    PutOptionalUnits(e.executablePath,
      PutText(e.instanceName, PutOptionalText(e.verifiedVersion, PutBool(e.allowLaunch, rest))))
  }

  function GetEverything(b: Bytes): Parsed<Everything>
  {
    var (path, b1) :- GetOptionalUnits(b);
    var (name, b2) :- GetText(b1);
    var (version, b3) :- GetOptionalText(b2);
    var (launch, b4) :- GetBool(b3);
    Good(Everything(path, name, version, launch), b4)
  }

  lemma EverythingRoundTrip(e: Everything, rest: Bytes)
    requires EverythingFits(e)
    ensures GetEverything(PutEverything(e, rest)) == Good(e, rest)
  {
    var r3 := PutBool(e.allowLaunch, rest);
    var r2 := PutOptionalText(e.verifiedVersion, r3);
    var r1 := PutText(e.instanceName, r2);
    assert GetBool(r3) == Good(e.allowLaunch, rest) by { BoolCodec(); assert Any(e.allowLaunch); }
    assert GetOptionalText(r2) == Good(e.verifiedVersion, r3) by {
      TextCodec();
      OptionRoundTrip(PutText, GetText, TextFits, e.verifiedVersion, r3);
    }
    assert GetText(r1) == Good(e.instanceName, r2) by { TextCodec(); }
    assert GetOptionalUnits(PutOptionalUnits(e.executablePath, r1)) == Good(e.executablePath, r1) by {
      UnitsCodec();
      OptionRoundTrip(PutUnits, GetUnits, UnitsFit, e.executablePath, r1);
    }
  }

  lemma EverythingCanonical(b: Bytes)
    requires GetEverything(b).Good?
    ensures EverythingFits(GetEverything(b).value)
    ensures b == PutEverything(GetEverything(b).value, GetEverything(b).rest)
  {
    var path := GetOptionalUnits(b);
    var name := GetText(path.rest);
    var version := GetOptionalText(name.rest);
    UnitsCodec();
    TextCodec();
    BoolCodec();
    OptionCanonical(PutUnits, GetUnits, UnitsFit, b);
    OptionCanonical(PutText, GetText, TextFits, name.rest);
    assert GetBool(version.rest).Good?;
  }

  function PutFlags(v: Settings, rest: Bytes): Bytes
  {
    PutBool(v.visibility.showHidden, PutBool(v.visibility.showSystem, PutBool(v.fileListQuickSearch,
      PutBool(v.newTabOpensHome, PutBool(v.quickMenuBackdrop, rest)))))
  }

  function GetFlags(b: Bytes): Parsed<seq<bool>>
  {
    GetAll(GetBool, 5, b)
  }

  function FlagsOf(v: Settings): seq<bool>
  {
    [v.visibility.showHidden, v.visibility.showSystem, v.fileListQuickSearch, v.newTabOpensHome, v.quickMenuBackdrop]
  }

  lemma FlagsAreAList(v: Settings, rest: Bytes)
    ensures PutFlags(v, rest) == PutAll(PutBool, FlagsOf(v), rest)
  {
    var f := FlagsOf(v);
    var g := f[1..];
    var h := g[1..];
    var i := h[1..];
    assert f[0] == v.visibility.showHidden && g[0] == v.visibility.showSystem && h[0] == v.fileListQuickSearch;
    assert i[0] == v.newTabOpensHome && i[1..][0] == v.quickMenuBackdrop && i[1..][1..] == [];
    assert PutAll(PutBool, i[1..], rest) == PutBool(v.quickMenuBackdrop, rest);
    assert PutAll(PutBool, h, rest) == PutBool(h[0], PutAll(PutBool, i, rest));
    assert PutAll(PutBool, f, rest) == PutBool(f[0], PutBool(g[0], PutAll(PutBool, h, rest)));
  }

  /** The one-byte settings at the end of the block. */
  function PutSwitches(v: Settings, rest: Bytes): Bytes
  {
    PutFlags(v, PutU8(v.quickMenuBackdropOpacity, PutCode(SidebarBits, v.sidebar, rest)))
  }

  datatype Switches = Switches(flags: seq<bool>, opacity: byte, sidebar: Sidebar)

  function GetSwitches(b: Bytes): (r: Parsed<Switches>)
    ensures r.Good? ==> |r.value.flags| == 5
  {
    var (flags, b1) :- GetFlags(b);
    var (opacity, b2) :- GetU8(b1);
    if opacity > 100 then Bad
    else
      var (sidebar, b3) :- GetCode<Sidebar>(SidebarFrom, b2);
      Good(Switches(flags, opacity, sidebar), b3)
  }

  function SwitchesOf(v: Settings): Switches
  {
    Switches(FlagsOf(v), v.quickMenuBackdropOpacity, v.sidebar)
  }

  lemma SwitchesRoundTrip(v: Settings, rest: Bytes)
    requires v.quickMenuBackdropOpacity <= 100
    ensures GetSwitches(PutSwitches(v, rest)) == Good(SwitchesOf(v), rest)
  {
    var r2 := PutCode(SidebarBits, v.sidebar, rest);
    var r1 := PutU8(v.quickMenuBackdropOpacity, r2);
    assert GetCode<Sidebar>(SidebarFrom, r2) == Good(v.sidebar, rest) by {
      SidebarTable();
      CodeRoundTrip<Sidebar>(SidebarBits, SidebarFrom, v.sidebar, rest);
    }
    assert GetFlags(PutFlags(v, r1)) == Good(FlagsOf(v), r1) by {
      FlagsAreAList(v, r1);
      BoolCodec();
      AllRoundTrip(PutBool, GetBool, Any, FlagsOf(v), r1);
    }
  }

  lemma SwitchesCanonical(b: Bytes, v: Settings)
    requires GetSwitches(b).Good? && SwitchesOf(v) == GetSwitches(b).value
    ensures v.quickMenuBackdropOpacity <= 100
    ensures b == PutSwitches(v, GetSwitches(b).rest)
  {
    hide PutFlags, SidebarBits, SidebarFrom, PutAll;
    var flags := GetFlags(b);
    var opacity := GetU8(flags.rest);
    assert b == PutFlags(v, flags.rest) by {
      BoolCodec();
      AllCanonical(PutBool, GetBool, Any, 5, b);
      FlagsAreAList(v, flags.rest);
    }
    assert flags.rest == PutU8(opacity.value, opacity.rest);
    SidebarTable();
    CodeCanonical<Sidebar>(SidebarBits, SidebarFrom, opacity.rest);
  }

  predicate SettingsOk(v: Settings)
  {
    EverythingFits(v.everything) && v.quickMenuBackdropOpacity <= 100
  }

  function PutSettings(v: Settings, rest: Bytes): Bytes
  {
    PutCode(ThemeCode, v.theme, PutCode(LanguageCode, v.language, PutEverything(v.everything, PutSwitches(v, rest))))
  }

  function GetSettings(b: Bytes): Parsed<Settings>
  {
    var (theme, b1) :- GetCode(ThemeFrom, b);
    var (language, b2) :- GetCode(LanguageFrom, b1);
    var (everything, b3) :- GetEverything(b2);
    var (s, b4) :- GetSwitches(b3);
    Good(Settings(theme, language, everything, FileVisibility(s.flags[0], s.flags[1]),
                  s.flags[2], s.flags[3], s.flags[4], s.opacity, s.sidebar), b4)
  }

  lemma SettingsRoundTrip(v: Settings, rest: Bytes)
    requires SettingsOk(v)
    ensures GetSettings(PutSettings(v, rest)) == Good(v, rest)
  {
    var r3 := PutSwitches(v, rest);
    var r2 := PutEverything(v.everything, r3);
    SwitchesRoundTrip(v, rest);
    EverythingRoundTrip(v.everything, r3);
    HeadRoundTrip(v.theme, v.language, r2);
  }

  lemma HeadRoundTrip(theme: ThemeMode, language: Language, rest: Bytes)
    ensures GetCode(ThemeFrom, PutCode(ThemeCode, theme, PutCode(LanguageCode, language, rest)))
         == Good(theme, PutCode(LanguageCode, language, rest))
    ensures GetCode(LanguageFrom, PutCode(LanguageCode, language, rest)) == Good(language, rest)
  {
    ThemeTable();
    CodeRoundTrip(LanguageCode, LanguageFrom, language, rest);
    CodeRoundTrip(ThemeCode, ThemeFrom, theme, PutCode(LanguageCode, language, rest));
  }

  lemma HeadCanonical(b: Bytes)
    requires GetCode(ThemeFrom, b).Good? && GetCode(LanguageFrom, GetCode(ThemeFrom, b).rest).Good?
    ensures var theme := GetCode(ThemeFrom, b);
            var language := GetCode(LanguageFrom, theme.rest);
            b == PutCode(ThemeCode, theme.value, PutCode(LanguageCode, language.value, language.rest))
  {
    ThemeTable();
    CodeCanonical(ThemeCode, ThemeFrom, b);
    CodeCanonical(LanguageCode, LanguageFrom, GetCode(ThemeFrom, b).rest);
  }

  lemma SettingsCanonical(b: Bytes)
    requires GetSettings(b).Good?
    ensures SettingsOk(GetSettings(b).value)
    ensures b == PutSettings(GetSettings(b).value, GetSettings(b).rest)
  {
    var language := GetCode(LanguageFrom, GetCode(ThemeFrom, b).rest);
    var everything := GetEverything(language.rest);
    var v := GetSettings(b).value;
    assert b == PutCode(ThemeCode, v.theme, PutCode(LanguageCode, v.language, language.rest)) by { HeadCanonical(b); }
    assert EverythingFits(v.everything) && language.rest == PutEverything(v.everything, everything.rest) by {
      EverythingCanonical(language.rest);
    }
    assert v.quickMenuBackdropOpacity <= 100 && everything.rest == PutSwitches(v, GetSettings(b).rest) by {
      SettingsEnd(b, v);
      SwitchesCanonical(everything.rest, v);
    }
  }

  lemma SettingsEnd(b: Bytes, v: Settings)
    requires GetSettings(b).Good? && GetSettings(b).value == v
    ensures var switches := GetSwitches(GetEverything(GetCode(LanguageFrom, GetCode(ThemeFrom, b).rest).rest).rest);
            switches == Good(SwitchesOf(v), GetSettings(b).rest)
  {
    hide GetSwitches, GetEverything;
    var switches := GetSwitches(GetEverything(GetCode(LanguageFrom, GetCode(ThemeFrom, b).rest).rest).rest);
    assert SwitchesOf(v).flags == switches.value.flags;
  }

  lemma SettingsCodec()
    ensures Codec(PutSettings, GetSettings, SettingsOk)
  {
    forall v: Settings, rest: Bytes | SettingsOk(v) ensures GetSettings(PutSettings(v, rest)) == Good(v, rest) {
      SettingsRoundTrip(v, rest);
    }
    forall b: Bytes | GetSettings(b).Good?
      ensures SettingsOk(GetSettings(b).value) && b == PutSettings(GetSettings(b).value, GetSettings(b).rest)
    {
      SettingsCanonical(b);
    }
  }

  // ---- network locations ----

  predicate ConnectionOk(c: WebDavConnection)
  {
    && TextFits(c.host) && TextFits(c.root) && TextFits(c.username)
    && c.host != [] && c.root != [] && c.username != [] && c.port != 0
  }

  function PutConnection(c: WebDavConnection, rest: Bytes): Bytes
  {
    PutBool(c.https, PutText(c.host,
      PutU16(c.port, PutText(c.root, PutText(c.username, PutU64(c.connectionId, PutU64(c.revision, rest)))))))
  }

  function GetConnection(b: Bytes): Parsed<WebDavConnection>
  {
    var (https, b1) :- GetBool(b);
    var (host, b2) :- GetText(b1);
    var (port, b3) :- GetU16(b2);
    var (root, b4) :- GetText(b3);
    var (username, b5) :- GetText(b4);
    var (id, b6) :- GetU64(b5);
    var (revision, b7) :- GetU64(b6);
    if host == [] || root == [] || username == [] || port == 0 then Bad
    else Good(WebDavConnection(id, revision, https, host, port, root, username), b7)
  }

  lemma ConnectionRoundTrip(c: WebDavConnection, rest: Bytes)
    requires ConnectionOk(c)
    ensures GetConnection(PutConnection(c, rest)) == Good(c, rest)
  {
    var r6 := PutU64(c.revision, rest);
    var r5 := PutU64(c.connectionId, r6);
    var r4 := PutText(c.username, r5);
    var r3 := PutText(c.root, r4);
    var r2 := PutU16(c.port, r3);
    var r1 := PutText(c.host, r2);
    assert GetU64(r6) == Good(c.revision, rest) && GetU64(r5) == Good(c.connectionId, r6) by {
      U64Codec();
      assert Any(c.revision) && Any(c.connectionId);
    }
    assert GetText(r4) == Good(c.username, r5) && GetText(r3) == Good(c.root, r4)
      && GetText(r1) == Good(c.host, r2) by {
      TextCodec();
    }
    assert GetU16(r2) == Good(c.port, r3) by { U16Codec(); assert Any(c.port); }
    assert GetBool(PutBool(c.https, r1)) == Good(c.https, r1) by { BoolCodec(); assert Any(c.https); }
  }

  lemma ConnectionCanonical(b: Bytes)
    requires GetConnection(b).Good?
    ensures ConnectionOk(GetConnection(b).value)
    ensures b == PutConnection(GetConnection(b).value, GetConnection(b).rest)
  {
    var https := GetBool(b);
    var host := GetText(https.rest);
    var port := GetU16(host.rest);
    var root := GetText(port.rest);
    var username := GetText(root.rest);
    var id := GetU64(username.rest);
    var revision := GetU64(id.rest);
    assert b == PutBool(https.value, https.rest) by { BoolCodec(); }
    assert port.Good? && host.rest == PutU16(port.value, port.rest) by { U16Codec(); }
    assert username.rest == PutU64(id.value, id.rest) && id.rest == PutU64(revision.value, revision.rest) by {
      U64Codec();
    }
    assert https.rest == PutText(host.value, host.rest) && TextFits(host.value) by { TextCodec(); }
    assert port.rest == PutText(root.value, root.rest) && TextFits(root.value) by { TextCodec(); }
    assert root.rest == PutText(username.value, username.rest) && TextFits(username.value) by { TextCodec(); }
  }

  predicate TargetOk(t: NetworkTarget)
  {
    match t
    case WindowsPath(path) => UnitsFit(path)
    case ShellItemId(_) => false
    case WebDavTarget(connection) => ConnectionOk(connection)
  }

  /** Shell items have no image; they are rejected before anything is written for them. */
  function PutTarget(t: NetworkTarget, rest: Bytes): Bytes
  {
    match t
    case WindowsPath(path) => PutU8(0, PutUnits(path, rest))
    case WebDavTarget(connection) => PutU8(1, PutConnection(connection, rest))
    case ShellItemId(_) => rest
  }

  function GetTarget(b: Bytes): Parsed<NetworkTarget>
  {
    var (tag, b1) :- GetU8(b);
    if tag == 0 then
      var (path, b2) :- GetUnits(b1);
      Good(WindowsPath(path), b2)
    else if tag == 1 then
      var (connection, b2) :- GetConnection(b1);
      Good(WebDavTarget(connection), b2)
    else Bad
  }

  lemma TargetRoundTrip(t: NetworkTarget, rest: Bytes)
    requires TargetOk(t)
    ensures GetTarget(PutTarget(t, rest)) == Good(t, rest)
  {
    if t.WindowsPath? {
      UnitsCodec();
    } else {
      ConnectionRoundTrip(t.connection, rest);
    }
  }

  lemma TargetCanonical(b: Bytes)
    requires GetTarget(b).Good?
    ensures TargetOk(GetTarget(b).value)
    ensures b == PutTarget(GetTarget(b).value, GetTarget(b).rest)
  {
    assert b == PutU8(b[0], b[1..]);
    if b[0] == 0 {
      UnitsCodec();
    } else {
      ConnectionCanonical(b[1..]);
    }
  }

  predicate LocationOk(v: NetworkLocation)
  {
    v.source == AsterOwned && v.shellPath.None? && TextFits(v.displayName) && TargetOk(v.target)
  }

  function PutLocation(v: NetworkLocation, rest: Bytes): Bytes
  {
    PutU64(v.id, PutText(v.displayName, PutU32(v.sortOrder, PutTarget(v.target, rest))))
  }

  function GetLocation(b: Bytes): Parsed<NetworkLocation>
  {
    var (id, b1) :- GetU64(b);
    var (name, b2) :- GetText(b1);
    var (order, b3) :- GetU32(b2);
    var (target, b4) :- GetTarget(b3);
    Good(NetworkLocation(id, AsterOwned, name, order, target, None), b4)
  }

  lemma LocationRoundTrip(v: NetworkLocation, rest: Bytes)
    requires LocationOk(v)
    ensures GetLocation(PutLocation(v, rest)) == Good(v, rest)
  {
    var r3 := PutTarget(v.target, rest);
    var r2 := PutU32(v.sortOrder, r3);
    var r1 := PutText(v.displayName, r2);
    TargetRoundTrip(v.target, rest);
    assert GetU32(r2) == Good(v.sortOrder, r3) by { U32Codec(); assert Any(v.sortOrder); }
    assert GetText(r1) == Good(v.displayName, r2) by { TextCodec(); }
    assert GetU64(PutU64(v.id, r1)) == Good(v.id, r1) by { U64Codec(); assert Any(v.id); }
  }

  lemma LocationCanonical(b: Bytes)
    requires GetLocation(b).Good?
    ensures LocationOk(GetLocation(b).value)
    ensures b == PutLocation(GetLocation(b).value, GetLocation(b).rest)
  {
    var id := GetU64(b);
    var name := GetText(id.rest);
    var order := GetU32(name.rest);
    assert b == PutU64(id.value, id.rest) by { U64Codec(); }
    assert id.rest == PutText(name.value, name.rest) && TextFits(name.value) by { TextCodec(); }
    assert name.rest == PutU32(order.value, order.rest) by { U32Codec(); }
    TargetCanonical(order.rest);
  }

  lemma LocationCodec()
    ensures Codec(PutLocation, GetLocation, LocationOk)
  {
    forall v: NetworkLocation, rest: Bytes | LocationOk(v) ensures GetLocation(PutLocation(v, rest)) == Good(v, rest) {
      LocationRoundTrip(v, rest);
    }
    forall b: Bytes | GetLocation(b).Good?
      ensures LocationOk(GetLocation(b).value) && b == PutLocation(GetLocation(b).value, GetLocation(b).rest)
    {
      LocationCanonical(b);
    }
  }

  // ---- network devices ----

  predicate DeviceOk(d: NetworkDevice)
  {
    && d.shellIdentity.None? && d.uncPath.Some? && d.id == d.uncPath.value
    && TextFits(d.displayName) && UnitsFit(d.uncPath.value)
  }

  /** A device without a path has no image; it is rejected before. */
  function PutDevice(d: NetworkDevice, rest: Bytes): Bytes
  {
    PutText(d.displayName, PutUnits(if d.uncPath.Some? then d.uncPath.value else [], rest))
  }

  function GetDevice(b: Bytes): Parsed<NetworkDevice>
  {
    var (name, b1) :- GetText(b);
    var (path, b2) :- GetUnits(b1);
    Good(NetworkDevice(path, name, None, Some(path)), b2)
  }

  lemma DeviceCodec()
    ensures Codec(PutDevice, GetDevice, DeviceOk)
  {
    TextCodec();
    UnitsCodec();
    forall b: Bytes | GetDevice(b).Good?
      ensures DeviceOk(GetDevice(b).value) && b == PutDevice(GetDevice(b).value, GetDevice(b).rest)
    {
      assert GetText(b).Good? && GetUnits(GetText(b).rest).Good?;
    }
  }

  // ---- windows and tabs ----

  predicate TabFits(t: NavigationLocation)
  {
    match t
    case Home => true
    case Directory(path) => UnitsFit(path)
    case Library(identity, name) => UnitsFit(identity) && TextFits(name)
    case WebDavPlace(_, _, root, path) => TextFits(root) && TextFits(path)
  }

  function PutLibrary(identity: Units, name: string, rest: Bytes): Bytes
  {
    PutUnits(identity, PutText(name, rest))
  }

  function GetLibrary(b: Bytes): Parsed<(Units, string)>
  {
    var (identity, b1) :- GetUnits(b);
    var (name, b2) :- GetText(b1);
    Good((identity, name), b2)
  }

  lemma LibraryRoundTrip(identity: Units, name: string, rest: Bytes)
    requires UnitsFit(identity) && TextFits(name)
    ensures GetLibrary(PutLibrary(identity, name, rest)) == Good((identity, name), rest)
  {
    TextCodec();
    GetsPut(PutText, GetText, TextFits, name, rest);
    UnitsCodec();
    GetsPut(PutUnits, GetUnits, UnitsFit, identity, PutText(name, rest));
  }

  lemma LibraryCanonical(b: Bytes)
    requires GetLibrary(b).Good?
    ensures UnitsFit(GetLibrary(b).value.0) && TextFits(GetLibrary(b).value.1)
    ensures b == PutLibrary(GetLibrary(b).value.0, GetLibrary(b).value.1, GetLibrary(b).rest)
  {
    UnitsCodec();
    PutsGot(PutUnits, GetUnits, UnitsFit, b);
    TextCodec();
    PutsGot(PutText, GetText, TextFits, GetUnits(b).rest);
  }

  datatype Place = Place(id: u64, revision: u64, root: string, path: string)

  function PutPlace(p: Place, rest: Bytes): Bytes
  {
    PutU64(p.id, PutU64(p.revision, PutText(p.root, PutText(p.path, rest))))
  }

  function GetPlace(b: Bytes): Parsed<Place>
  {
    var (id, b1) :- GetU64(b);
    var (revision, b2) :- GetU64(b1);
    var (root, b3) :- GetText(b2);
    var (path, b4) :- GetText(b3);
    Good(Place(id, revision, root, path), b4)
  }

  lemma PlaceRoundTrip(p: Place, rest: Bytes)
    requires TextFits(p.root) && TextFits(p.path)
    ensures GetPlace(PutPlace(p, rest)) == Good(p, rest)
  {
    var r3 := PutText(p.path, rest);
    var r2 := PutText(p.root, r3);
    assert GetText(r3) == Good(p.path, rest) && GetText(r2) == Good(p.root, r3) by { TextCodec(); }
    assert GetU64(PutU64(p.revision, r2)) == Good(p.revision, r2) by {
      U64Codec();
      GetsPut(PutU64, GetU64, Any, p.revision, r2);
    }
    assert GetU64(PutPlace(p, rest)) == Good(p.id, PutU64(p.revision, r2)) by {
      U64Codec();
      GetsPut(PutU64, GetU64, Any, p.id, PutU64(p.revision, r2));
    }
  }

  lemma PlaceCanonical(b: Bytes)
    requires GetPlace(b).Good?
    ensures TextFits(GetPlace(b).value.root) && TextFits(GetPlace(b).value.path)
    ensures b == PutPlace(GetPlace(b).value, GetPlace(b).rest)
  {
    var id := GetU64(b);
    var revision := GetU64(id.rest);
    var root := GetText(revision.rest);
    assert b == PutU64(id.value, id.rest) && id.rest == PutU64(revision.value, revision.rest) by {
      U64Codec();
      PutsGot(PutU64, GetU64, Any, b);
      PutsGot(PutU64, GetU64, Any, id.rest);
    }
    TextCodec();
    PutsGot(PutText, GetText, TextFits, revision.rest);
    PutsGot(PutText, GetText, TextFits, root.rest);
  }

  function PutTab(t: NavigationLocation, rest: Bytes): Bytes
  {
    match t
    case Directory(path) => PutU8(0, PutUnits(path, rest))
    case Library(identity, name) => PutU8(1, PutLibrary(identity, name, rest))
    case Home => PutU8(2, rest)
    case WebDavPlace(id, revision, root, path) => PutU8(3, PutPlace(Place(id, revision, root, path), rest))
  }

  function GetTab(b: Bytes): Parsed<NavigationLocation>
  {
    var (tag, b1) :- GetU8(b);
    if tag == 0 then
      var (path, b2) :- GetUnits(b1);
      Good(Directory(path), b2)
    else if tag == 1 then
      var (library, b2) :- GetLibrary(b1);
      Good(Library(library.0, library.1), b2)
    else if tag == 2 then Good(Home, b1)
    else if tag == 3 then
      var (place, b2) :- GetPlace(b1);
      Good(WebDavPlace(place.id, place.revision, place.root, place.path), b2)
    else Bad
  }

  lemma TabRoundTrip(t: NavigationLocation, rest: Bytes)
    requires TabFits(t)
    ensures GetTab(PutTab(t, rest)) == Good(t, rest)
  {
    match t
    case Home =>
    case Directory(path) =>
      UnitsCodec();
      GetsPut(PutUnits, GetUnits, UnitsFit, path, rest);
    case Library(identity, name) => LibraryRoundTrip(identity, name, rest);
    case WebDavPlace(id, revision, root, path) => PlaceRoundTrip(Place(id, revision, root, path), rest);
  }

  lemma TabCanonical(b: Bytes)
    requires GetTab(b).Good?
    ensures TabFits(GetTab(b).value)
    ensures b == PutTab(GetTab(b).value, GetTab(b).rest)
  {
    var b1 := b[1..];
    assert b == PutU8(b[0], b1);
    if b[0] == 0 {
      UnitsCodec();
      PutsGot(PutUnits, GetUnits, UnitsFit, b1);
    } else if b[0] == 1 {
      LibraryCanonical(b1);
    } else if b[0] == 3 {
      PlaceCanonical(b1);
    }
  }

  lemma TabCodec()
    ensures Codec(PutTab, GetTab, TabFits)
  {
    forall t: NavigationLocation, rest: Bytes | TabFits(t) ensures GetTab(PutTab(t, rest)) == Good(t, rest) {
      TabRoundTrip(t, rest);
    }
    forall b: Bytes | GetTab(b).Good? ensures TabFits(GetTab(b).value) && b == PutTab(GetTab(b).value, GetTab(b).rest) {
      TabCanonical(b);
    }
  }

  function PutPlacement(p: Placement, rest: Bytes): Bytes
  {
    PutI32(p.x, PutI32(p.y, PutU32(p.width, PutU32(p.height, rest))))
  }

  function GetPlacement(b: Bytes): Parsed<Placement>
  {
    var (x, b1) :- GetI32(b);
    var (y, b2) :- GetI32(b1);
    var (width, b3) :- GetU32(b2);
    var (height, b4) :- GetU32(b3);
    Good(Placement(x, y, width, height), b4)
  }

  lemma PlacementRoundTrip(p: Placement, rest: Bytes)
    ensures GetPlacement(PutPlacement(p, rest)) == Good(p, rest)
  {
    var r3 := PutU32(p.height, rest);
    var r2 := PutU32(p.width, r3);
    var r1 := PutI32(p.y, r2);
    U32RoundTrip(p.height, rest);
    U32RoundTrip(p.width, r3);
    I32Codec();
    GetsPut(PutI32, GetI32, Any, p.y, r2);
    GetsPut(PutI32, GetI32, Any, p.x, r1);
  }

  lemma PlacementCanonical(b: Bytes)
    requires GetPlacement(b).Good?
    ensures b == PutPlacement(GetPlacement(b).value, GetPlacement(b).rest)
  {
    var x := GetI32(b);
    var y := GetI32(x.rest);
    var width := GetU32(y.rest);
    assert b == PutI32(x.value, x.rest) && x.rest == PutI32(y.value, y.rest) by {
      I32Codec();
      PutsGot(PutI32, GetI32, Any, b);
      PutsGot(PutI32, GetI32, Any, x.rest);
    }
    U32Canonical(y.rest);
    U32Canonical(width.rest);
  }

  /**
   A window over any way to store a tab. `PutWindow` and `GetWindow` fix that way; proving the
   general form first keeps the proof apart from the layout of tabs.
   */
  function PutWindowOf(putTab: (NavigationLocation, Bytes) -> Bytes, w: Window, rest: Bytes): Bytes
  {
    PutPlacement(w.placement, PutU32(AsWord(w.activeTab), PutCounted(putTab, w.tabs, rest)))
  }

  function GetWindowOf(getTab: Bytes -> Parsed<NavigationLocation>, b: Bytes): Parsed<Window>
  {
    var (placement, b1) :- GetPlacement(b);
    var (active, b2) :- GetU32(b1);
    var (tabs, b3) :- GetCounted(getTab, MAX_TABS, b2);
    Good(Window(placement, active, tabs), b3)
  }

  predicate WindowFits(w: Window)
  {
    w.activeTab < 0x1_0000_0000 && AllOk(TabFits, MAX_TABS, w.tabs)
  }

  lemma WindowOfRoundTrip(putTab: (NavigationLocation, Bytes) -> Bytes, getTab: Bytes -> Parsed<NavigationLocation>,
                          ok: NavigationLocation -> bool, w: Window, rest: Bytes)
    requires Codec(putTab, getTab, ok) && w.activeTab < 0x1_0000_0000 && AllOk(ok, MAX_TABS, w.tabs)
    ensures GetWindowOf(getTab, PutWindowOf(putTab, w, rest)) == Good(w, rest)
  {
    var r2 := PutCounted(putTab, w.tabs, rest);
    var r1 := PutU32(AsWord(w.activeTab), r2);
    CountedRoundTrip(putTab, getTab, ok, MAX_TABS, w.tabs, rest);
    U32RoundTrip(AsWord(w.activeTab), r2);
    PlacementRoundTrip(w.placement, r1);
  }

  lemma WindowOfCanonical(putTab: (NavigationLocation, Bytes) -> Bytes, getTab: Bytes -> Parsed<NavigationLocation>,
                          ok: NavigationLocation -> bool, b: Bytes)
    requires Codec(putTab, getTab, ok) && GetWindowOf(getTab, b).Good?
    ensures var w := GetWindowOf(getTab, b).value;
            && w.activeTab < 0x1_0000_0000 && AllOk(ok, MAX_TABS, w.tabs)
            && b == PutWindowOf(putTab, w, GetWindowOf(getTab, b).rest)
  {
    var placement := GetPlacement(b);
    var active := GetU32(placement.rest);
    PlacementCanonical(b);
    U32Canonical(placement.rest);
    CountedCanonical(putTab, getTab, ok, MAX_TABS, active.rest);
  }

  function PutWindow(w: Window, rest: Bytes): Bytes { PutWindowOf(PutTab, w, rest) }

  function GetWindow(b: Bytes): Parsed<Window> { GetWindowOf(GetTab, b) }

  lemma WindowCodec()
    ensures Codec(PutWindow, GetWindow, WindowFits)
  {
    TabCodec();
    forall w: Window, rest: Bytes | WindowFits(w) ensures GetWindow(PutWindow(w, rest)) == Good(w, rest) {
      WindowOfRoundTrip(PutTab, GetTab, TabFits, w, rest);
    }
    forall b: Bytes | GetWindow(b).Good?
      ensures WindowFits(GetWindow(b).value) && b == PutWindow(GetWindow(b).value, GetWindow(b).rest)
    {
      WindowOfCanonical(PutTab, GetTab, TabFits, b);
    }
  }
}
