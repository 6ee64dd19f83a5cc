/**
 Session encodings are prefix-free: what follows an image never changes how it is read.
 */
module SessionPrefix {
  import opened Prelude
  import opened SessionBytes
  import opened SessionText
  import opened SessionTypes
  import opened SessionFormat
  import opened SessionLayout
  import opened SessionFile
  import opened SessionTheorems

  /** Appending after a value's image is the same as having a longer rest. */
  ghost predicate Local<T(!new)>(put: (T, Bytes) -> Bytes)
  {
    forall v: T, rest: Bytes, t: Bytes :: put(v, rest) + t == put(v, rest + t)
  }

  lemma {:induction false} AllLocal<T(!new)>(put: (T, Bytes) -> Bytes, items: seq<T>, rest: Bytes, t: Bytes)
    requires Local(put)
    ensures PutAll(put, items, rest) + t == PutAll(put, items, rest + t)
    decreases |items|
  {
    if items != [] {
      AllLocal(put, items[1..], rest, t);
    }
  }

  lemma LeLocal(v: nat, width: nat, rest: Bytes, t: Bytes)
    ensures PutLe(v, width, rest) + t == PutLe(v, width, rest + t)
  {
    assert (ToLe(v, width) + rest) + t == ToLe(v, width) + (rest + t);
  }

  lemma WordsLocal()
    ensures Local(PutU8) && Local(PutU16) && Local(PutU32) && Local(PutU64)
  {
    forall v: byte, rest: Bytes, t: Bytes ensures PutU8(v, rest) + t == PutU8(v, rest + t) {
      assert ([v] + rest) + t == [v] + (rest + t);
    }
    forall v: u16, rest: Bytes, t: Bytes ensures PutU16(v, rest) + t == PutU16(v, rest + t) { LeLocal(v, 2, rest, t); }
    forall v: u32, rest: Bytes, t: Bytes ensures PutU32(v, rest) + t == PutU32(v, rest + t) { LeLocal(v, 4, rest, t); }
    forall v: u64, rest: Bytes, t: Bytes ensures PutU64(v, rest) + t == PutU64(v, rest + t) { LeLocal(v, 8, rest, t); }
  }

  lemma CountedLocal<T(!new)>(put: (T, Bytes) -> Bytes, items: seq<T>, rest: Bytes, t: Bytes)
    requires Local(put)
    ensures PutCounted(put, items, rest) + t == PutCounted(put, items, rest + t)
  {
    AllLocal(put, items, rest, t);
    LeLocal(AsWord(|items|), 4, PutAll(put, items, rest), t);
  }

  lemma BasicsLocal()
    ensures Local(PutBool) && Local(PutI32) && Local(PutUnits) && Local(PutText)
  {
    WordsLocal();
    forall v: bool, rest: Bytes, t: Bytes ensures PutBool(v, rest) + t == PutBool(v, rest + t) {
      assert PutU8(if v then 1 else 0, rest) + t == PutU8(if v then 1 else 0, rest + t);
    }
    forall v: i32, rest: Bytes, t: Bytes ensures PutI32(v, rest) + t == PutI32(v, rest + t) {
      var w: u32 := if v < 0 then v + 0x1_0000_0000 else v;
      assert PutU32(w, rest) + t == PutU32(w, rest + t);
    }
    forall v: Units, rest: Bytes, t: Bytes ensures PutUnits(v, rest) + t == PutUnits(v, rest + t) {
      CountedLocal(PutU16, v, rest, t);
    }
    forall v: string, rest: Bytes, t: Bytes ensures PutText(v, rest) + t == PutText(v, rest + t) {
      CountedLocal(PutU16, Utf16(v), rest, t);
    }
  }

  lemma CodeLocal<T(!new)>(code: T -> byte, v: T, rest: Bytes, t: Bytes)
    ensures PutCode(code, v, rest) + t == PutCode(code, v, rest + t)
  {
    assert ([code(v)] + rest) + t == [code(v)] + (rest + t);
  }

  lemma ViewModeLocal(v: ViewMode, rest: Bytes, t: Bytes)
    ensures PutViewMode(v, rest) + t == PutViewMode(v, rest + t)
  {
    LeLocal(IconSize(v), 2, rest, t);
    var mid := PutU16(IconSize(v), rest);
    assert ([ViewCode(v)] + mid) + t == [ViewCode(v)] + (mid + t);
  }

  lemma ColumnsLocal(c: ColumnLayout, rest: Bytes, t: Bytes)
    ensures PutColumns(c, rest) + t == PutColumns(c, rest + t)
  {
    BasicsLocal();
    WordsLocal();
    forall v: ColumnKind, r: Bytes, u: Bytes ensures PutColumn(v, r) + u == PutColumn(v, r + u) {
      CodeLocal(ColumnCode, v, r, u);
    }
    var b2 := PutAll(PutBool, c.visible, rest);
    var b1 := PutAll(PutU32, c.widths, b2);
    AllLocal(PutBool, c.visible, rest, t);
    AllLocal(PutU32, c.widths, b2, t);
    AllLocal(PutColumn, c.order, b1, t);
  }

  lemma SortLocal(field: SortField, direction: SortDirection, rest: Bytes, t: Bytes)
    ensures PutSort(field, direction, rest) + t == PutSort(field, direction, rest + t)
  {
    CodeLocal(DirectionCode, direction, rest, t);
    CodeLocal(SortFieldCode, field, PutCode(DirectionCode, direction, rest), t);
  }

  lemma GroupLocal(field: GroupField, direction: SortDirection, rest: Bytes, t: Bytes)
    ensures PutGroup(field, direction, rest) + t == PutGroup(field, direction, rest + t)
  {
    CodeLocal(DirectionCode, direction, rest, t);
    CodeLocal(GroupFieldCode, field, PutCode(DirectionCode, direction, rest), t);
  }

  lemma DirectoryPreferenceLocal(p: DirectoryPreference, rest: Bytes, t: Bytes)
    ensures PutDirectoryPreference(p, rest) + t == PutDirectoryPreference(p, rest + t)
  {
    var b3 := PutColumns(p.columns, rest);
    var b2 := PutGroup(p.groupField, p.groupDirection, b3);
    var b1 := PutSort(p.sortField, p.sortDirection, b2);
    ColumnsLocal(p.columns, rest, t);
    GroupLocal(p.groupField, p.groupDirection, b3, t);
    SortLocal(p.sortField, p.sortDirection, b2, t);
    ViewModeLocal(p.viewMode, b1, t);
  }

  lemma SearchPreferenceLocal(p: SearchPreference, rest: Bytes, t: Bytes)
    ensures PutSearchPreference(p, rest) + t == PutSearchPreference(p, rest + t)
  {
    var b2 := PutColumns(p.columns, rest);
    var b1 := PutSort(p.sortField, p.sortDirection, b2);
    ColumnsLocal(p.columns, rest, t);
    SortLocal(p.sortField, p.sortDirection, b2, t);
    ViewModeLocal(p.viewMode, b1, t);
  }

  lemma UnitsLocal(v: Units, rest: Bytes, t: Bytes)
    ensures PutUnits(v, rest) + t == PutUnits(v, rest + t)
  {
    BasicsLocal();
  }

  lemma TextLocal(v: string, rest: Bytes, t: Bytes)
    ensures PutText(v, rest) + t == PutText(v, rest + t)
  {
    BasicsLocal();
  }

  lemma ByteLocal(v: byte, rest: Bytes, t: Bytes)
    ensures PutU8(v, rest) + t == PutU8(v, rest + t)
  {
    WordsLocal();
  }

  lemma OptionLocal<T(!new)>(put: (T, Bytes) -> Bytes, v: Option<T>, rest: Bytes, t: Bytes)
    requires Local(put)
    ensures PutOption(put, v, rest) + t == PutOption(put, v, rest + t)
  {
    match v
    case None => ByteLocal(0, rest, t);
    case Some(x) => ByteLocal(1, put(x, rest), t);
  }

  lemma EverythingLocal(e: Everything, rest: Bytes, t: Bytes)
    ensures PutEverything(e, rest) + t == PutEverything(e, rest + t)
  {
    var b3 := PutBool(e.allowLaunch, rest);
    var b2 := PutOptionalText(e.verifiedVersion, b3);
    var b1 := PutText(e.instanceName, b2);
    BasicsLocal();
    OptionLocal(PutText, e.verifiedVersion, b3, t);
    OptionLocal(PutUnits, e.executablePath, b1, t);
  }

  lemma SettingsLocal(v: Settings, rest: Bytes, t: Bytes)
    ensures PutSettings(v, rest) + t == PutSettings(v, rest + t)
  {
    var b5 := PutCode(SidebarBits, v.sidebar, rest);
    var b4 := PutU8(v.quickMenuBackdropOpacity, b5);
    var b3 := PutFlags(v, b4);
    var b2 := PutEverything(v.everything, b3);
    CodeLocal(SidebarBits, v.sidebar, rest, t);
    ByteLocal(v.quickMenuBackdropOpacity, b5, t);
    FlagsLocal(v, b4, t);
    EverythingLocal(v.everything, b3, t);
    CodeLocal(LanguageCode, v.language, b2, t);
    CodeLocal(ThemeCode, v.theme, PutCode(LanguageCode, v.language, b2), t);
  }

  lemma FlagsLocal(v: Settings, rest: Bytes, t: Bytes)
    ensures PutFlags(v, rest) + t == PutFlags(v, rest + t)
  {
    BasicsLocal();
    FlagsAreAList(v, rest);
    FlagsAreAList(v, rest + t);
    AllLocal(PutBool, FlagsOf(v), rest, t);
  }

  lemma ConnectionLocal(c: WebDavConnection, rest: Bytes, t: Bytes)
    ensures PutConnection(c, rest) + t == PutConnection(c, rest + t)
  {
    var b6 := PutU64(c.revision, rest);
    var b5 := PutU64(c.connectionId, b6);
    var b4 := PutText(c.username, b5);
    var b3 := PutText(c.root, b4);
    var b2 := PutU16(c.port, b3);
    var b1 := PutText(c.host, b2);
    LeLocal(c.revision, 8, rest, t);
    LeLocal(c.connectionId, 8, b6, t);
    TextLocal(c.username, b5, t);
    TextLocal(c.root, b4, t);
    LeLocal(c.port, 2, b3, t);
    TextLocal(c.host, b2, t);
    ByteLocal(if c.https then 1 else 0, b1, t);
  }

  lemma LocationLocal(v: NetworkLocation, rest: Bytes, t: Bytes)
    ensures PutLocation(v, rest) + t == PutLocation(v, rest + t)
  {
    var b3 := PutTarget(v.target, rest);
    var b2 := PutU32(v.sortOrder, b3);
    var b1 := PutText(v.displayName, b2);
    TargetLocal(v.target, rest, t);
    LeLocal(v.sortOrder, 4, b3, t);
    TextLocal(v.displayName, b2, t);
    LeLocal(v.id, 8, b1, t);
  }

  lemma TargetLocal(v: NetworkTarget, rest: Bytes, t: Bytes)
    ensures PutTarget(v, rest) + t == PutTarget(v, rest + t)
  {
    match v
    case WindowsPath(path) =>
      UnitsLocal(path, rest, t);
      ByteLocal(0, PutUnits(path, rest), t);
    case WebDavTarget(connection) =>
      ConnectionLocal(connection, rest, t);
      ByteLocal(1, PutConnection(connection, rest), t);
    case ShellItemId(_) =>
  }

  lemma DeviceLocal(d: NetworkDevice, rest: Bytes, t: Bytes)
    ensures PutDevice(d, rest) + t == PutDevice(d, rest + t)
  {
    var path := if d.uncPath.Some? then d.uncPath.value else [];
    UnitsLocal(path, rest, t);
    TextLocal(d.displayName, PutUnits(path, rest), t);
  }

  lemma TabLocal(v: NavigationLocation, rest: Bytes, t: Bytes)
    ensures PutTab(v, rest) + t == PutTab(v, rest + t)
  {
    match v
    case Home => ByteLocal(2, rest, t);
    case Directory(path) =>
      UnitsLocal(path, rest, t);
      ByteLocal(0, PutUnits(path, rest), t);
    case Library(identity, name) =>
      TextLocal(name, rest, t);
      UnitsLocal(identity, PutText(name, rest), t);
      ByteLocal(1, PutLibrary(identity, name, rest), t);
    case WebDavPlace(id, revision, root, path) =>
      var p := Place(id, revision, root, path);
      TextLocal(path, rest, t);
      TextLocal(root, PutText(path, rest), t);
      LeLocal(revision, 8, PutText(root, PutText(path, rest)), t);
      LeLocal(id, 8, PutU64(revision, PutText(root, PutText(path, rest))), t);
      ByteLocal(3, PutPlace(p, rest), t);
  }

  lemma PlacementLocal(p: Placement, rest: Bytes, t: Bytes)
    ensures PutPlacement(p, rest) + t == PutPlacement(p, rest + t)
  {
    var b3 := PutU32(p.height, rest);
    var b2 := PutU32(p.width, b3);
    LeLocal(p.height, 4, rest, t);
    LeLocal(p.width, 4, b3, t);
    BasicsLocal();
  }

  lemma WindowLocal(w: Window, rest: Bytes, t: Bytes)
    ensures PutWindow(w, rest) + t == PutWindow(w, rest + t)
  {
    var b2 := PutCounted(PutTab, w.tabs, rest);
    assert b2 + t == PutCounted(PutTab, w.tabs, rest + t) by {
      forall v: NavigationLocation, r: Bytes, u: Bytes
        ensures PutTab(v, r) + u == PutTab(v, r + u)
      {
        TabLocal(v, r, u);
      }
      CountedLocal(PutTab, w.tabs, rest, t);
    }
    LeLocal(AsWord(w.activeTab), 4, b2, t);
    PlacementLocal(w.placement, PutU32(AsWord(w.activeTab), b2), t);
  }

  ghost predicate AllWritersLocal(w: Writers)
  {
    && Local(w.directory) && Local(w.search) && Local(w.view) && Local(w.settings) && Local(w.location)
    && Local(w.device) && Local(w.window)
  }

  lemma FileWritersLocal()
    ensures AllWritersLocal(FileWriters())
  {
    forall v: DirectoryPreference, r: Bytes, u: Bytes
      ensures PutDirectoryPreference(v, r) + u == PutDirectoryPreference(v, r + u)
    {
      DirectoryPreferenceLocal(v, r, u);
    }
    forall v: SearchPreference, r: Bytes, u: Bytes
      ensures PutSearchPreference(v, r) + u == PutSearchPreference(v, r + u)
    {
      SearchPreferenceLocal(v, r, u);
    }
    forall v: DirectoryView, r: Bytes, u: Bytes ensures PutDirectoryView(v, r) + u == PutDirectoryView(v, r + u) {
      DirectoryPreferenceLocal(v.preference, r, u);
      UnitsLocal(v.path, PutDirectoryPreference(v.preference, r), u);
    }
    forall v: Settings, r: Bytes, u: Bytes
      ensures PutSettings(v, r) + u == PutSettings(v, r + u)
    {
      SettingsLocal(v, r, u);
    }
    forall v: NetworkLocation, r: Bytes, u: Bytes
      ensures PutLocation(v, r) + u == PutLocation(v, r + u)
    {
      LocationLocal(v, r, u);
    }
    forall v: NetworkDevice, r: Bytes, u: Bytes
      ensures PutDevice(v, r) + u == PutDevice(v, r + u)
    {
      DeviceLocal(v, r, u);
    }
    forall v: Window, r: Bytes, u: Bytes ensures PutWindow(v, r) + u == PutWindow(v, r + u) { WindowLocal(v, r, u); }
  }

  lemma SessionLocal(w: Writers, s: Session, rest: Bytes, t: Bytes)
    requires AllWritersLocal(w)
    ensures PutSession(w, s, rest) + t == PutSession(w, s, rest + t)
  {
    var windows := PutAll(w.window, s.windows, rest);
    var devices := PutCounted(w.device, s.devices, windows);
    AllLocal(w.window, s.windows, rest, t);
    CountedLocal(w.device, s.devices, windows, t);
    CountedLocal(w.location, s.locations, devices, t);
    var b4 := w.settings(s.settings, PutLists(w, s, rest));
    CountedLocal(w.view, s.directoryViews, b4, t);
    var b1 := w.directory(s.defaultView, w.search(s.searchView, PutCounted(w.view, s.directoryViews, b4)));
    LeLocal(AsWord(|s.windows|), 4, b1, t);
    assert (MAGIC + PutU32(AsWord(|s.windows|), b1)) + t == MAGIC + (PutU32(AsWord(|s.windows|), b1) + t);
  }

  lemma ImageThenTail(s: Session, t: Bytes)
    ensures Image(s) + t == PutSession(FileWriters(), s, t)
  {
    var w, tail := FileWriters(), [] + t;
    assert tail == t;
    assert PutSession(w, s, []) + t == PutSession(w, s, tail) by {
      FileWritersLocal();
      SessionLocal(w, s, [], t);
    }
  }

  lemma ParsesBackWithTail(s: Session, t: Bytes)
    requires Storable(FileRules(), s)
    ensures GetSession(FileReaders(), PutSession(FileWriters(), s, t)) == Good(s, t)
  {
    FileCodecs();
    SessionRoundTrip(FileWriters(), FileReaders(), FileRules(), s, t);
  }

  /** Whatever follows accepted bytes is left over, untouched. */
  lemma TailIsLeftOver(b: Bytes, t: Bytes)
    requires GetSession(FileReaders(), b).Good? && GetSession(FileReaders(), b).rest == []
    ensures GetSession(FileReaders(), b + t) == Good(GetSession(FileReaders(), b).value, t)
  {
    var s := GetSession(FileReaders(), b).value;
    ParsedIsImage(b);
    ImageThenTail(s, t);
    ParsesBackWithTail(s, t);
  }

  /** No proper prefix and no proper extension of an accepted byte string is accepted. */
  lemma PrefixFree(canon: Canon, b: Bytes, t: Bytes)
    requires Decode(canon, b).Some? && Decode(canon, b + t).Some?
    ensures t == []
  {
    TailIsLeftOver(b, t);
  }
}
