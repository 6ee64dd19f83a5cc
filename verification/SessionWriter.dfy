/**
 Writing a session the way the source does: a growing byte vector, and writers that fail on text
 too long to be stored (src/session_store.rs, `write_*` and `encode`).

 Every writer is described together with the `rest` that will follow: once the rest is appended,
 the vector holds what the layout says.
 */
module SessionWriter {
  import opened Prelude
  import opened SessionBytes
  import opened SessionText
  import opened SessionTypes
  import opened SessionFormat
  import opened SessionLayout
  import opened SessionFile
  import opened SessionTheorems
  import SessionCheck

  /** A list writer that has `i` items behind it writes the next one and goes on. */
  lemma AllPeel<T>(put: (T, Bytes) -> Bytes, items: seq<T>, i: nat, rest: Bytes)
    requires i < |items|
    ensures PutAll(put, items[i..], rest) == put(items[i], PutAll(put, items[i + 1..], rest))
  {
    assert items[i..][1..] == items[i + 1..];
  }

  lemma AllEnds<T>(put: (T, Bytes) -> Bytes, items: seq<T>, rest: Bytes)
    ensures PutAll(put, items[0..], rest) == PutAll(put, items, rest)
    ensures PutAll(put, items[|items|..], rest) == rest
  {
    assert items[0..] == items && items[|items|..] == [];
  }

  class Writer {
    var bytes: Bytes

    constructor ()
      ensures bytes == []
    {
      bytes := [];
    }

    method Push(v: byte, ghost rest: Bytes)
      modifies this
      ensures bytes + rest == old(bytes) + PutU8(v, rest)
    {
      bytes := bytes + [v];
      assert (old(bytes) + [v]) + rest == old(bytes) + ([v] + rest);
    }

    /** `extend_from_slice(&v.to_le_bytes())`. */
    method WriteLe(v: nat, width: nat, ghost rest: Bytes)
      modifies this
      ensures bytes + rest == old(bytes) + PutLe(v, width, rest)
    {
      bytes := bytes + ToLe(v, width);
      assert (old(bytes) + ToLe(v, width)) + rest == old(bytes) + (ToLe(v, width) + rest);
    }

    method WriteU32(v: u32, ghost rest: Bytes)
      modifies this
      ensures bytes + rest == old(bytes) + PutU32(v, rest)
    {
      WriteLe(v, 4, rest);
    }

    method WriteI32(v: i32, ghost rest: Bytes)
      modifies this
      ensures bytes + rest == old(bytes) + PutI32(v, rest)
    {
      WriteU32(if v < 0 then v + 0x1_0000_0000 else v, rest);
    }

    method WriteBool(v: bool, ghost rest: Bytes)
      modifies this
      ensures bytes + rest == old(bytes) + PutBool(v, rest)
    {
      Push(if v then 1 else 0, rest);
    }

    /** `write_os`. */
    method WriteUnits(units: Units, ghost rest: Bytes) returns (ok: bool)
      modifies this
      ensures ok <==> UnitsFit(units)
      ensures ok ==> bytes + rest == old(bytes) + PutUnits(units, rest)
    {
      hide PutU32, PutU16, AsWord;
      if |units| > MAX_PATH_UNITS {
        return false;
      }
      WriteU32(AsWord(|units|), PutAll(PutU16, units, rest));
      AllEnds(PutU16, units, rest);
      var i := 0;
      while i < |units|
        invariant 0 <= i <= |units|
        invariant bytes + PutAll(PutU16, units[i..], rest) == old(bytes) + PutUnits(units, rest)
      {
        AllPeel(PutU16, units, i, rest);
        WriteU16(units[i], PutAll(PutU16, units[i + 1..], rest));
        i := i + 1;
      }
      return true;
    }

    method WriteU16(v: u16, ghost rest: Bytes)
      modifies this
      ensures bytes + rest == old(bytes) + PutU16(v, rest)
    {
      WriteLe(v, 2, rest);
    }

    /** `write_string`. */
    method WriteText(text: string, ghost rest: Bytes) returns (ok: bool)
      modifies this
      ensures ok <==> TextFits(text)
      ensures ok ==> bytes + rest == old(bytes) + PutText(text, rest)
    {
      ok := WriteUnits(Utf16(text), rest);
    }

    method WriteOptionalUnits(v: Option<Units>, ghost rest: Bytes) returns (ok: bool)
      modifies this
      ensures ok <==> v.Some? ==> UnitsFit(v.value)
      ensures ok ==> bytes + rest == old(bytes) + PutOptionalUnits(v, rest)
    {
      hide PutUnits, PutU8, UnitsFit;
      match v
      case None =>
        Push(0, rest);
        ok := true;
      case Some(units) =>
        Push(1, PutUnits(units, rest));
        ok := WriteUnits(units, rest);
    }

    method WriteOptionalText(v: Option<string>, ghost rest: Bytes) returns (ok: bool)
      modifies this
      ensures ok <==> v.Some? ==> TextFits(v.value)
      ensures ok ==> bytes + rest == old(bytes) + PutOptionalText(v, rest)
    {
      hide PutText, PutU8, TextFits;
      match v
      case None =>
        Push(0, rest);
        ok := true;
      case Some(text) =>
        Push(1, PutText(text, rest));
        ok := WriteText(text, rest);
    }

    method WriteViewMode(v: ViewMode, ghost rest: Bytes)
      modifies this
      ensures bytes + rest == old(bytes) + PutViewMode(v, rest)
    {
      Push(ViewCode(v), PutU16(IconSize(v), rest));
      WriteU16(IconSize(v), rest);
    }

    method WriteOrder(order: seq<ColumnKind>, ghost rest: Bytes)
      modifies this
      ensures bytes + rest == old(bytes) + PutAll(PutColumn, order, rest)
    {
      hide PutU8, ColumnCode;
      AllEnds(PutColumn, order, rest);
      var i := 0;
      while i < |order|
        invariant 0 <= i <= |order|
        invariant bytes + PutAll(PutColumn, order[i..], rest) == old(bytes) + PutAll(PutColumn, order, rest)
      {
        AllPeel(PutColumn, order, i, rest);
        Push(ColumnCode(order[i]), PutAll(PutColumn, order[i + 1..], rest));
        i := i + 1;
      }
    }

    method WriteWidths(widths: seq<u32>, ghost rest: Bytes)
      modifies this
      ensures bytes + rest == old(bytes) + PutAll(PutU32, widths, rest)
    {
      hide PutU32;
      AllEnds(PutU32, widths, rest);
      var i := 0;
      while i < |widths|
        invariant 0 <= i <= |widths|
        invariant bytes + PutAll(PutU32, widths[i..], rest) == old(bytes) + PutAll(PutU32, widths, rest)
      {
        AllPeel(PutU32, widths, i, rest);
        WriteU32(widths[i], PutAll(PutU32, widths[i + 1..], rest));
        i := i + 1;
      }
    }

    method WriteVisible(visible: seq<bool>, ghost rest: Bytes)
      modifies this
      ensures bytes + rest == old(bytes) + PutAll(PutBool, visible, rest)
    {
      hide PutBool;
      AllEnds(PutBool, visible, rest);
      var i := 0;
      while i < |visible|
        invariant 0 <= i <= |visible|
        invariant bytes + PutAll(PutBool, visible[i..], rest) == old(bytes) + PutAll(PutBool, visible, rest)
      {
        AllPeel(PutBool, visible, i, rest);
        WriteBool(visible[i], PutAll(PutBool, visible[i + 1..], rest));
        i := i + 1;
      }
    }

    /** `write_column_layout`. */
    method WriteColumns(c: ColumnLayout, ghost rest: Bytes)
      modifies this
      ensures bytes + rest == old(bytes) + PutColumns(c, rest)
    {
      hide PutAll;
      WriteOrder(c.order, PutAll(PutU32, c.widths, PutAll(PutBool, c.visible, rest)));
      WriteWidths(c.widths, PutAll(PutBool, c.visible, rest));
      WriteVisible(c.visible, rest);
    }

    method WriteSort(field: SortField, direction: SortDirection, ghost rest: Bytes)
      modifies this
      ensures bytes + rest == old(bytes) + PutSort(field, direction, rest)
    {
      Push(SortFieldCode(field), PutCode(DirectionCode, direction, rest));
      Push(DirectionCode(direction), rest);
    }

    method WriteGroup(field: GroupField, direction: SortDirection, ghost rest: Bytes)
      modifies this
      ensures bytes + rest == old(bytes) + PutGroup(field, direction, rest)
    {
      Push(GroupFieldCode(field), PutCode(DirectionCode, direction, rest));
      Push(DirectionCode(direction), rest);
    }

    method WriteDirectoryPreference(p: DirectoryPreference, ghost rest: Bytes)
      modifies this
      ensures bytes + rest == old(bytes) + PutDirectoryPreference(p, rest)
    {
      hide PutViewMode, PutSort, PutGroup, PutColumns;
      ghost var b3 := PutColumns(p.columns, rest);
      ghost var b2 := PutGroup(p.groupField, p.groupDirection, b3);
      WriteViewMode(p.viewMode, PutSort(p.sortField, p.sortDirection, b2));
      WriteSort(p.sortField, p.sortDirection, b2);
      WriteGroup(p.groupField, p.groupDirection, b3);
      WriteColumns(p.columns, rest);
    }

    method WriteSearchPreference(p: SearchPreference, ghost rest: Bytes)
      modifies this
      ensures bytes + rest == old(bytes) + PutSearchPreference(p, rest)
    {
      hide PutViewMode, PutSort, PutColumns;
      ghost var b2 := PutColumns(p.columns, rest);
      WriteViewMode(p.viewMode, PutSort(p.sortField, p.sortDirection, b2));
      WriteSort(p.sortField, p.sortDirection, b2);
      WriteColumns(p.columns, rest);
    }

    method WriteDirectoryViews(views: seq<DirectoryView>, ghost rest: Bytes) returns (ok: bool)
      modifies this
      ensures ok <==> forall i :: 0 <= i < |views| ==> UnitsFit(views[i].path)
      ensures ok ==> bytes + rest == old(bytes) + PutCounted(PutDirectoryView, views, rest)
    {
      hide PutDirectoryPreference, PutUnits, UnitsFit, PutU32, AsWord;
      WriteU32(AsWord(|views|), PutAll(PutDirectoryView, views, rest));
      AllEnds(PutDirectoryView, views, rest);
      var i := 0;
      while i < |views|
        invariant 0 <= i <= |views|
        invariant forall j :: 0 <= j < i ==> UnitsFit(views[j].path)
        invariant bytes + PutAll(PutDirectoryView, views[i..], rest)
                  == old(bytes) + PutCounted(PutDirectoryView, views, rest)
      {
        ghost var later := PutAll(PutDirectoryView, views[i + 1..], rest);
        AllPeel(PutDirectoryView, views, i, rest);
        ok := WriteUnits(views[i].path, PutDirectoryPreference(views[i].preference, later));
        if !ok {
          return false;
        }
        WriteDirectoryPreference(views[i].preference, later);
        i := i + 1;
      }
      return true;
    }

    method WriteEverything(e: Everything, ghost rest: Bytes) returns (ok: bool)
      modifies this
      ensures ok <==> EverythingFits(e)
      ensures ok ==> bytes + rest == old(bytes) + PutEverything(e, rest)
    {
      hide PutOptionalUnits, PutText, PutOptionalText, PutBool, UnitsFit, TextFits;
      ghost var b3 := PutBool(e.allowLaunch, rest);
      ghost var b2 := PutOptionalText(e.verifiedVersion, b3);
      ok := WriteOptionalUnits(e.executablePath, PutText(e.instanceName, b2));
      if !ok {
        return false;
      }
      ok := WriteText(e.instanceName, b2);
      if !ok {
        return false;
      }
      ok := WriteOptionalText(e.verifiedVersion, b3);
      if !ok {
        return false;
      }
      WriteBool(e.allowLaunch, rest);
    }

    method WriteFlags(v: Settings, ghost rest: Bytes)
      modifies this
      ensures bytes + rest == old(bytes) + PutFlags(v, rest)
    {
      hide PutBool;
      ghost var b4 := PutBool(v.quickMenuBackdrop, rest);
      ghost var b3 := PutBool(v.newTabOpensHome, b4);
      ghost var b2 := PutBool(v.fileListQuickSearch, b3);
      WriteBool(v.visibility.showHidden, PutBool(v.visibility.showSystem, b2));
      WriteBool(v.visibility.showSystem, b2);
      WriteBool(v.fileListQuickSearch, b3);
      WriteBool(v.newTabOpensHome, b4);
      WriteBool(v.quickMenuBackdrop, rest);
    }

    method WriteSettings(v: Settings, ghost rest: Bytes) returns (ok: bool)
      modifies this
      ensures ok <==> EverythingFits(v.everything)
      ensures ok ==> bytes + rest == old(bytes) + PutSettings(v, rest)
    {
      hide PutEverything, PutFlags, EverythingFits, SidebarBits, PutU8;
      ghost var last := PutU8(SidebarBits(v.sidebar), rest);
      ghost var b4 := PutU8(v.quickMenuBackdropOpacity, last);
      ghost var b2 := PutEverything(v.everything, PutFlags(v, b4));
      Push(ThemeCode(v.theme), PutU8(LanguageCode(v.language), b2));
      Push(LanguageCode(v.language), b2);
      ok := WriteEverything(v.everything, PutFlags(v, b4));
      if !ok {
        return false;
      }
      WriteFlags(v, b4);
      Push(v.quickMenuBackdropOpacity, last);
      Push(SidebarBits(v.sidebar), rest);
    }

    method WriteConnection(c: WebDavConnection, ghost rest: Bytes) returns (ok: bool)
      modifies this
      ensures ok <==> TextFits(c.host) && TextFits(c.root) && TextFits(c.username)
      ensures ok ==> bytes + rest == old(bytes) + PutConnection(c, rest)
    {
      hide PutText, TextFits, PutBool, PutLe;
      ghost var b6 := PutU64(c.revision, rest);
      ghost var b5 := PutU64(c.connectionId, b6);
      ghost var b4 := PutText(c.username, b5);
      ghost var b3 := PutText(c.root, b4);
      ghost var b2 := PutU16(c.port, b3);
      WriteBool(c.https, PutText(c.host, b2));
      ok := WriteText(c.host, b2);
      if !ok {
        return false;
      }
      WriteLe(c.port, 2, b3);
      ok := WriteText(c.root, b4);
      if !ok {
        return false;
      }
      ok := WriteText(c.username, b5);
      if !ok {
        return false;
      }
      WriteLe(c.connectionId, 8, b6);
      WriteLe(c.revision, 8, rest);
    }

    method WriteTarget(t: NetworkTarget, ghost rest: Bytes) returns (ok: bool)
      modifies this
      ensures ok <==> TargetWrites(t)
      ensures ok ==> bytes + rest == old(bytes) + PutTarget(t, rest)
    {
      hide PutUnits, PutConnection, UnitsFit, TextFits, PutU8;
      match t
      case WindowsPath(path) =>
        Push(0, PutUnits(path, rest));
        ok := WriteUnits(path, rest);
      case WebDavTarget(connection) =>
        Push(1, PutConnection(connection, rest));
        ok := WriteConnection(connection, rest);
      case ShellItemId(_) =>
        ok := false;
    }

    method WriteLocation(v: NetworkLocation, ghost rest: Bytes) returns (ok: bool)
      modifies this
      ensures ok <==> TextFits(v.displayName) && TargetWrites(v.target)
      ensures ok ==> bytes + rest == old(bytes) + PutLocation(v, rest)
    {
      hide PutText, PutTarget, TextFits, TargetWrites, PutLe;
      ghost var b3 := PutTarget(v.target, rest);
      ghost var b2 := PutU32(v.sortOrder, b3);
      WriteLe(v.id, 8, PutText(v.displayName, b2));
      ok := WriteText(v.displayName, b2);
      if !ok {
        return false;
      }
      WriteLe(v.sortOrder, 4, b3);
      ok := WriteTarget(v.target, rest);
    }

    method WriteLocations(locations: seq<NetworkLocation>, ghost rest: Bytes) returns (ok: bool)
      modifies this
      ensures ok <==> forall i :: 0 <= i < |locations| ==>
                        TextFits(locations[i].displayName) && TargetWrites(locations[i].target)
      ensures ok ==> bytes + rest == old(bytes) + PutCounted(PutLocation, locations, rest)
    {
      hide PutLocation, TextFits, TargetWrites, PutU32, AsWord;
      WriteU32(AsWord(|locations|), PutAll(PutLocation, locations, rest));
      AllEnds(PutLocation, locations, rest);
      var i := 0;
      while i < |locations|
        invariant 0 <= i <= |locations|
        invariant forall j :: 0 <= j < i ==> TextFits(locations[j].displayName) && TargetWrites(locations[j].target)
        invariant bytes + PutAll(PutLocation, locations[i..], rest)
                  == old(bytes) + PutCounted(PutLocation, locations, rest)
      {
        AllPeel(PutLocation, locations, i, rest);
        ok := WriteLocation(locations[i], PutAll(PutLocation, locations[i + 1..], rest));
        if !ok {
          return false;
        }
        i := i + 1;
      }
      return true;
    }

    method WriteDevice(d: NetworkDevice, ghost rest: Bytes) returns (ok: bool)
      modifies this
      ensures ok <==> DeviceWrites(d)
      ensures ok ==> bytes + rest == old(bytes) + PutDevice(d, rest)
    {
      hide PutText, PutUnits, TextFits, UnitsFit;
      ok := WriteText(d.displayName, PutUnits(if d.uncPath.Some? then d.uncPath.value else [], rest));
      if !ok || d.uncPath.None? {
        return false;
      }
      ok := WriteUnits(d.uncPath.value, rest);
    }

    method WriteDevices(devices: seq<NetworkDevice>, ghost rest: Bytes) returns (ok: bool)
      modifies this
      ensures ok <==> forall i :: 0 <= i < |devices| ==> DeviceWrites(devices[i])
      ensures ok ==> bytes + rest == old(bytes) + PutCounted(PutDevice, devices, rest)
    {
      hide PutDevice, DeviceWrites, PutU32, AsWord;
      WriteU32(AsWord(|devices|), PutAll(PutDevice, devices, rest));
      AllEnds(PutDevice, devices, rest);
      var i := 0;
      while i < |devices|
        invariant 0 <= i <= |devices|
        invariant forall j :: 0 <= j < i ==> DeviceWrites(devices[j])
        invariant bytes + PutAll(PutDevice, devices[i..], rest) == old(bytes) + PutCounted(PutDevice, devices, rest)
      {
        AllPeel(PutDevice, devices, i, rest);
        ok := WriteDevice(devices[i], PutAll(PutDevice, devices[i + 1..], rest));
        if !ok {
          return false;
        }
        i := i + 1;
      }
      return true;
    }

    method WritePlace(p: Place, ghost rest: Bytes) returns (ok: bool)
      modifies this
      ensures ok <==> TextFits(p.root) && TextFits(p.path)
      ensures ok ==> bytes + rest == old(bytes) + PutPlace(p, rest)
    {
      hide PutText, TextFits, PutLe;
      ghost var b3 := PutText(p.path, rest);
      ghost var b2 := PutText(p.root, b3);
      WriteLe(p.id, 8, PutU64(p.revision, b2));
      WriteLe(p.revision, 8, b2);
      ok := WriteText(p.root, b3);
      if !ok {
        return false;
      }
      ok := WriteText(p.path, rest);
    }

    /** `write_navigation_location`. */
    method WriteTab(t: NavigationLocation, ghost rest: Bytes) returns (ok: bool)
      modifies this
      ensures ok <==> TabFits(t)
      ensures ok ==> bytes + rest == old(bytes) + PutTab(t, rest)
    {
      hide PutText, TextFits, PutUnits, UnitsFit, PutPlace, PutU8;
      match t
      case Directory(path) =>
        Push(0, PutUnits(path, rest));
        ok := WriteUnits(path, rest);
      case Library(identity, name) =>
        Push(1, PutLibrary(identity, name, rest));
        ok := WriteUnits(identity, PutText(name, rest));
        if !ok {
          return false;
        }
        ok := WriteText(name, rest);
      case Home =>
        Push(2, rest);
        ok := true;
      case WebDavPlace(id, revision, root, path) =>
        Push(3, PutPlace(Place(id, revision, root, path), rest));
        ok := WritePlace(Place(id, revision, root, path), rest);
    }

    method WriteTabs(tabs: seq<NavigationLocation>, ghost rest: Bytes) returns (ok: bool)
      modifies this
      ensures ok <==> forall i :: 0 <= i < |tabs| ==> TabFits(tabs[i])
      ensures ok ==> bytes + rest == old(bytes) + PutCounted(PutTab, tabs, rest)
    {
      hide PutTab, TabFits, PutU32, AsWord;
      WriteU32(AsWord(|tabs|), PutAll(PutTab, tabs, rest));
      AllEnds(PutTab, tabs, rest);
      var i := 0;
      while i < |tabs|
        invariant 0 <= i <= |tabs|
        invariant forall j :: 0 <= j < i ==> TabFits(tabs[j])
        invariant bytes + PutAll(PutTab, tabs[i..], rest) == old(bytes) + PutCounted(PutTab, tabs, rest)
      {
        AllPeel(PutTab, tabs, i, rest);
        ok := WriteTab(tabs[i], PutAll(PutTab, tabs[i + 1..], rest));
        if !ok {
          return false;
        }
        i := i + 1;
      }
      return true;
    }

    method WritePlacement(p: Placement, ghost rest: Bytes)
      modifies this
      ensures bytes + rest == old(bytes) + PutPlacement(p, rest)
    {
      hide PutI32, PutU32;
      ghost var b3 := PutU32(p.height, rest);
      ghost var b2 := PutU32(p.width, b3);
      WriteI32(p.x, PutI32(p.y, b2));
      WriteI32(p.y, b2);
      WriteU32(p.width, b3);
      WriteU32(p.height, rest);
    }

    method WriteWindow(w: Window, ghost rest: Bytes) returns (ok: bool)
      modifies this
      ensures ok <==> TabsFit(w)
      ensures ok ==> bytes + rest == old(bytes) + PutWindow(w, rest)
    {
      hide PutPlacement, PutU32, PutCounted, AsWord;
      ghost var b2 := PutCounted(PutTab, w.tabs, rest);
      WritePlacement(w.placement, PutU32(AsWord(w.activeTab), b2));
      WriteU32(AsWord(w.activeTab), b2);
      ok := WriteTabs(w.tabs, rest);
    }

    method WriteWindows(windows: seq<Window>, ghost rest: Bytes) returns (ok: bool)
      modifies this
      ensures ok <==> forall i :: 0 <= i < |windows| ==> TabsFit(windows[i])
      ensures ok ==> bytes + rest == old(bytes) + PutAll(PutWindow, windows, rest)
    {
      hide PutWindow, TabsFit;
      AllEnds(PutWindow, windows, rest);
      var i := 0;
      while i < |windows|
        invariant 0 <= i <= |windows|
        invariant forall j :: 0 <= j < i ==> TabsFit(windows[j])
        invariant bytes + PutAll(PutWindow, windows[i..], rest) == old(bytes) + PutAll(PutWindow, windows, rest)
      {
        AllPeel(PutWindow, windows, i, rest);
        ok := WriteWindow(windows[i], PutAll(PutWindow, windows[i + 1..], rest));
        if !ok {
          return false;
        }
        i := i + 1;
      }
      return true;
    }

    /** Locations, devices and windows: the last part of `encode`. */
    method WriteLists(s: Session) returns (ok: bool)
      modifies this
      ensures ok <==> ListsWrite(s)
      ensures ok ==> bytes == old(bytes) + PutLists(FileWriters(), s, [])
    {
      hide PutCounted, PutAll, TextFits, TargetWrites, DeviceWrites, TabsFit;
      ghost var b2 := PutAll(PutWindow, s.windows, []);
      ok := WriteLocations(s.locations, PutCounted(PutDevice, s.devices, b2));
      if !ok {
        return false;
      }
      ok := WriteDevices(s.devices, b2);
      if !ok {
        return false;
      }
      ok := WriteWindows(s.windows, []);
      assert bytes + [] == bytes;
    }

    method WriteSession(s: Session) returns (ok: bool)
      requires bytes == []
      modifies this
      ensures ok <==> Writes(s)
      ensures ok ==> bytes == Image(s)
    {
      hide PutLists, PutSettings, PutCounted, PutDirectoryPreference, PutSearchPreference, PutU32, AsWord;
      hide ListsWrite, EverythingFits, UnitsFit, Writes;
      WritesParts(s);
      ghost var b5 := PutLists(FileWriters(), s, []);
      ghost var b4 := PutSettings(s.settings, b5);
      ghost var b3 := PutCounted(PutDirectoryView, s.directoryViews, b4);
      ghost var b2 := PutSearchPreference(s.searchView, b3);
      bytes := MAGIC;
      WriteU32(AsWord(|s.windows|), PutDirectoryPreference(s.defaultView, b2));
      WriteDirectoryPreference(s.defaultView, b2);
      WriteSearchPreference(s.searchView, b3);
      ok := WriteDirectoryViews(s.directoryViews, b4);
      if !ok {
        return false;
      }
      ok := WriteSettings(s.settings, b5);
      if !ok {
        return false;
      }
      ok := WriteLists(s);
    }
  }

  ghost predicate DeviceWrites(d: NetworkDevice)
  {
    TextFits(d.displayName) && d.uncPath.Some? && UnitsFit(d.uncPath.value)
  }

  ghost predicate TabsFit(w: Window)
  {
    forall i :: 0 <= i < |w.tabs| ==> TabFits(w.tabs[i])
  }

  ghost predicate ListsWrite(s: Session)
  {
    && (forall i :: 0 <= i < |s.locations| ==>
          TextFits(s.locations[i].displayName) && TargetWrites(s.locations[i].target))
    && (forall i :: 0 <= i < |s.devices| ==> DeviceWrites(s.devices[i]))
    && (forall i :: 0 <= i < |s.windows| ==> TabsFit(s.windows[i]))
  }

  lemma WritesParts(s: Session)
    ensures Writes(s) <==> (forall i :: 0 <= i < |s.directoryViews| ==> UnitsFit(s.directoryViews[i].path))
                           && EverythingFits(s.settings.everything) && ListsWrite(s)
  {
    hide TextFits, UnitsFit, TargetWrites, EverythingFits, TabFits;
    assert (forall i :: 0 <= i < |s.windows| ==> TabsFit(s.windows[i])) <==>
           forall i, j :: 0 <= i < |s.windows| && 0 <= j < |s.windows[i].tabs| ==> TabFits(s.windows[i].tabs[j]);
  }

  /** `encode`: validate, clamp, then write part by part. */
  method EncodeSession(canon: Canon, s: Session) returns (r: Option<Bytes>)
    ensures r == Encode(canon, s)
  {
    hide Checked, Writes, Image;
    var checked := SessionCheck.Check(canon, s);
    if checked.None? {
      return None;
    }
    var writer := new Writer();
    var ok := writer.WriteSession(checked.value);
    r := if ok then Some(writer.bytes) else None;
  }
}
