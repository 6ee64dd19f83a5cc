/**
 Reading a session the way the source does: one cursor that advances through the bytes
 (src/session_store.rs, `read_*` and `decode`).

 Every reader keeps the cursor inside the bytes, never moves it back, and agrees with the layout.
 */
module SessionReader {
  import opened Prelude
  import opened SessionBytes
  import opened SessionText
  import opened SessionTypes
  import opened SessionFormat
  import opened SessionLayout
  import opened SessionFile
  import opened SessionTheorems
  import SessionCheck

  datatype Read<+T> = Err | Ok(value: T) {
    predicate IsFailure() { Err? }
    function PropagateFailure<U>(): Read<U> requires Err? { Err }
    function Extract(): T requires Ok? { value }
  }

  /** A reader that moved from `start` to `end` and returned `r` did what `parsed` says. */
  ghost predicate Reads<T>(bytes: Bytes, start: nat, end: nat, r: Read<T>, parsed: Parsed<T>)
  {
    && start <= end <= |bytes|
    && parsed == (if r.Err? then Bad else Good(r.value, bytes[end..]))
  }

  function FromOption<T>(v: Option<T>): Read<T>
  {
    match v case None => Err case Some(x) => Ok(x)
  }

  lemma AllStep<T>(get: Bytes -> Parsed<T>, count: nat, b: Bytes, done: seq<T>)
    requires count > 0
    ensures get(b).Bad? ==> GetAll(get, count, b).Bad?
    ensures get(b).Good? ==>
              Prepended(done, GetAll(get, count, b))
                == Prepended(done + [get(b).value], GetAll(get, count - 1, get(b).rest))
  {
    if get(b).Good? {
      var others := GetAll(get, count - 1, get(b).rest);
      if others.Good? {
        assert done + ([get(b).value] + others.value) == (done + [get(b).value]) + others.value;
      }
    }
  }

  lemma AllStart<T>(get: Bytes -> Parsed<T>, count: nat, b: Bytes)
    ensures Prepended([], GetAll(get, count, b)) == GetAll(get, count, b)
  {
    if GetAll(get, count, b).Good? {
      assert [] + GetAll(get, count, b).value == GetAll(get, count, b).value;
    }
  }

  lemma AllDone<T>(get: Bytes -> Parsed<T>, b: Bytes, done: seq<T>)
    ensures Prepended(done, GetAll(get, 0, b)) == Good(done, b)
  {
    assert done + [] == done;
  }

  /** Pairs of bytes to units. */
  method SplitUnits(count: nat, block: Bytes, ghost start: Bytes) returns (units: Units)
    requires |block| == 2 * count <= |start| && block == start[..2 * count]
    ensures GetAll(GetU16, count, start) == Good(units, start[2 * count..])
  {
    hide GetAll;
    units := [];
    AllStart(GetU16, count, start);
    assert start[0..] == start;
    for i := 0 to count
      invariant |units| == i
      invariant GetAll(GetU16, count, start) == Prepended(units, GetAll(GetU16, count - i, start[2 * i..]))
    {
      ghost var b := start[2 * i..];
      AllStep(GetU16, count - i, b, units);
      assert b[2..] == start[2 * (i + 1)..];
      assert b[0] == start[2 * i] && b[1] == start[2 * i + 1];
      units := units + [block[2 * i] as int + 256 * block[2 * i + 1] as int];
    }
    AllDone(GetU16, start[2 * count..], units);
  }

  class Reader {
    const bytes: Bytes
    var offset: nat

    constructor (bytes: Bytes)
      ensures this.bytes == bytes && offset == 0
    {
      this.bytes := bytes;
      offset := 0;
    }

    /** What is still ahead. */
    ghost function Ahead(at: nat): Bytes
      requires at <= |bytes|
    {
      bytes[at..]
    }

    method ReadU8() returns (r: Read<byte>)
      requires offset <= |bytes|
      modifies this
      ensures Reads(bytes, old(offset), offset, r, GetU8(Ahead(old(offset))))
    {
      if offset == |bytes| {
        return Err;
      }
      r := Ok(bytes[offset]);
      offset := offset + 1;
      assert Ahead(old(offset))[1..] == bytes[offset..];
    }

    /** `read_array`. */
    method ReadArray(n: nat) returns (r: Read<Bytes>)
      requires offset <= |bytes|
      modifies this
      ensures old(offset) <= offset <= |bytes|
      ensures r.Err? <==> |Ahead(old(offset))| < n
      ensures r.Err? ==> offset == old(offset)
      ensures r.Ok? ==>
                && offset == old(offset) + n && r.value == Ahead(old(offset))[..n]
                && Ahead(old(offset))[n..] == bytes[offset..]
    {
      if offset + n > |bytes| {
        return Err;
      }
      r := Ok(bytes[offset..offset + n]);
      offset := offset + n;
    }

    method ReadU16() returns (r: Read<u16>)
      requires offset <= |bytes|
      modifies this
      ensures Reads(bytes, old(offset), offset, r, GetU16(Ahead(old(offset))))
    {
      var word :- ReadArray(2);
      r := Ok(word[0] as int + 256 * word[1] as int);
    }

    method ReadU32() returns (r: Read<u32>)
      requires offset <= |bytes|
      modifies this
      ensures Reads(bytes, old(offset), offset, r, GetU32(Ahead(old(offset))))
    {
      var w :- ReadArray(4);
      r := Ok(Four(w[0], w[1], w[2], w[3]));
    }

    method ReadI32() returns (r: Read<i32>)
      requires offset <= |bytes|
      modifies this
      ensures Reads(bytes, old(offset), offset, r, GetI32(Ahead(old(offset))))
    {
      var v :- ReadU32();
      var x: i32 := if v < 0x8000_0000 then v else v as int - 0x1_0000_0000;
      r := Ok(x);
    }

    method ReadU64() returns (r: Read<u64>)
      requires offset <= |bytes|
      modifies this
      ensures Reads(bytes, old(offset), offset, r, GetU64(Ahead(old(offset))))
    {
      var w :- ReadArray(8);
      r := Ok(Four(w[0], w[1], w[2], w[3]) + 0x1_0000_0000 * Four(w[4], w[5], w[6], w[7]));
    }

    method ReadBool() returns (r: Read<bool>)
      requires offset <= |bytes|
      modifies this
      ensures Reads(bytes, old(offset), offset, r, GetBool(Ahead(old(offset))))
    {
      var v :- ReadU8();
      r := if v == 0 then Ok(false) else if v == 1 then Ok(true) else Err;
    }

    /** `read_units`: the whole block must be there before any unit is taken. */
    method ReadUnits() returns (r: Read<Units>)
      requires offset <= |bytes|
      modifies this
      ensures Reads(bytes, old(offset), offset, r, GetUnits(Ahead(old(offset))))
    {
      var count :- ReadU32();
      if count > MAX_PATH_UNITS {
        return Err;
      }
      ghost var start := Ahead(offset);
      var block := ReadArray(2 * count);
      if block.Err? {
        ShortUnits(count, start);
        return Err;
      }
      var units := SplitUnits(count, block.value, start);
      r := Ok(units);
    }

    method ReadText() returns (r: Read<string>)
      requires offset <= |bytes|
      modifies this
      ensures Reads(bytes, old(offset), offset, r, GetText(Ahead(old(offset))))
    {
      var units :- ReadUnits();
      r := FromOption(FromUtf16(units));
    }

    method ReadOptionalUnits() returns (r: Read<Option<Units>>)
      requires offset <= |bytes|
      modifies this
      ensures Reads(bytes, old(offset), offset, r, GetOptionalUnits(Ahead(old(offset))))
    {
      var tag :- ReadU8();
      if tag == 0 {
        return Ok(None);
      } else if tag == 1 {
        var v :- ReadUnits();
        return Ok(Some(v));
      }
      return Err;
    }

    method ReadOptionalText() returns (r: Read<Option<string>>)
      requires offset <= |bytes|
      modifies this
      ensures Reads(bytes, old(offset), offset, r, GetOptionalText(Ahead(old(offset))))
    {
      var tag :- ReadU8();
      if tag == 0 {
        return Ok(None);
      } else if tag == 1 {
        var v :- ReadText();
        return Ok(Some(v));
      }
      return Err;
    }

    method ReadViewMode() returns (r: Read<ViewMode>)
      requires offset <= |bytes|
      modifies this
      ensures Reads(bytes, old(offset), offset, r, GetViewMode(Ahead(old(offset))))
    {
      var code :- ReadU8();
      var preset :- FromOption(ViewFrom(code));
      var size :- ReadU16();
      if !preset.Icons? && size != 0 {
        return Err;
      }
      var mode := if preset.Icons? then Icons(size) else preset;
      if !ViewValid(mode) || ViewCode(mode) != code {
        return Err;
      }
      return Ok(mode);
    }

    method ReadSort() returns (r: Read<(SortField, SortDirection)>)
      requires offset <= |bytes|
      modifies this
      ensures Reads(bytes, old(offset), offset, r, GetSort(Ahead(old(offset))))
    {
      var code :- ReadU8();
      var field :- FromOption(SortFieldFrom(code));
      code :- ReadU8();
      var direction :- FromOption(DirectionFrom(code));
      return Ok((field, direction));
    }

    method ReadGroup() returns (r: Read<(GroupField, SortDirection)>)
      requires offset <= |bytes|
      modifies this
      ensures Reads(bytes, old(offset), offset, r, GetGroup(Ahead(old(offset))))
    {
      var code :- ReadU8();
      var field :- FromOption(GroupFieldFrom(code));
      code :- ReadU8();
      var direction :- FromOption(DirectionFrom(code));
      return Ok((field, direction));
    }

    method ReadOrder() returns (r: Read<seq<ColumnKind>>)
      requires offset <= |bytes|
      modifies this
      ensures Reads(bytes, old(offset), offset, r, GetAll(GetColumn, COLUMNS, Ahead(old(offset))))
    {
      hide GetU8;
      var items: seq<ColumnKind> := [];
      ghost var start := Ahead(offset);
      AllStart(GetColumn, COLUMNS, start);
      for i := 0 to COLUMNS
        invariant old(offset) <= offset <= |bytes|
        invariant GetAll(GetColumn, COLUMNS, start) == Prepended(items, GetAll(GetColumn, COLUMNS - i, Ahead(offset)))
      {
        AllStep(GetColumn, COLUMNS - i, Ahead(offset), items);
        var code :- ReadU8();
        var item :- FromOption(ColumnFrom(code));
        items := items + [item];
      }
      AllDone(GetColumn, Ahead(offset), items);
      return Ok(items);
    }

    method ReadWidths() returns (r: Read<seq<u32>>)
      requires offset <= |bytes|
      modifies this
      ensures Reads(bytes, old(offset), offset, r, GetAll(GetU32, COLUMNS, Ahead(old(offset))))
    {
      var items: seq<u32> := [];
      ghost var start := Ahead(offset);
      AllStart(GetU32, COLUMNS, start);
      for i := 0 to COLUMNS
        invariant old(offset) <= offset <= |bytes|
        invariant GetAll(GetU32, COLUMNS, start) == Prepended(items, GetAll(GetU32, COLUMNS - i, Ahead(offset)))
      {
        AllStep(GetU32, COLUMNS - i, Ahead(offset), items);
        var item :- ReadU32();
        items := items + [item];
      }
      AllDone(GetU32, Ahead(offset), items);
      return Ok(items);
    }

    method ReadBools(count: nat) returns (r: Read<seq<bool>>)
      requires offset <= |bytes|
      modifies this
      ensures Reads(bytes, old(offset), offset, r, GetAll(GetBool, count, Ahead(old(offset))))
    {
      var items: seq<bool> := [];
      ghost var start := Ahead(offset);
      AllStart(GetBool, count, start);
      for i := 0 to count
        invariant old(offset) <= offset <= |bytes|
        invariant GetAll(GetBool, count, start) == Prepended(items, GetAll(GetBool, count - i, Ahead(offset)))
      {
        AllStep(GetBool, count - i, Ahead(offset), items);
        var item :- ReadBool();
        items := items + [item];
      }
      AllDone(GetBool, Ahead(offset), items);
      return Ok(items);
    }

    method ReadColumns() returns (r: Read<ColumnLayout>)
      requires offset <= |bytes|
      modifies this
      ensures Reads(bytes, old(offset), offset, r, GetColumns(Ahead(old(offset))))
    {
      var order :- ReadOrder();
      var widths :- ReadWidths();
      var visible :- ReadBools(COLUMNS);
      return Ok(Columns(order, widths, visible));
    }

    method ReadDirectoryPreference() returns (r: Read<DirectoryPreference>)
      requires offset <= |bytes|
      modifies this
      ensures Reads(bytes, old(offset), offset, r, GetDirectoryPreference(Ahead(old(offset))))
    {
      var mode :- ReadViewMode();
      var sort :- ReadSort();
      var group :- ReadGroup();
      var columns :- ReadColumns();
      var value := DirectoryPreference(mode, sort.0, sort.1, group.0, group.1, columns);
      r := if DirectoryPreferenceValid(value) then Ok(value) else Err;
    }

    method ReadSearchPreference() returns (r: Read<SearchPreference>)
      requires offset <= |bytes|
      modifies this
      ensures Reads(bytes, old(offset), offset, r, GetSearchPreference(Ahead(old(offset))))
    {
      var mode :- ReadViewMode();
      var sort :- ReadSort();
      var columns :- ReadColumns();
      var value := SearchPreference(mode, sort.0, sort.1, columns);
      r := if SearchPreferenceValid(value) then Ok(value) else Err;
    }

    method ReadDirectoryViews() returns (r: Read<seq<DirectoryView>>)
      requires offset <= |bytes|
      modifies this
      ensures Reads(bytes, old(offset), offset, r,
              GetCounted(GetDirectoryView, MAX_DIRECTORY_VIEWS, Ahead(old(offset))))
    {
      hide GetDirectoryPreference, GetUnits;
      var count :- ReadU32();
      if count > MAX_DIRECTORY_VIEWS {
        return Err;
      }
      var items: seq<DirectoryView> := [];
      ghost var start := Ahead(offset);
      AllStart(GetDirectoryView, count, start);
      for i := 0 to count
        invariant old(offset) <= offset <= |bytes|
        invariant GetAll(GetDirectoryView, count, start)
                  == Prepended(items, GetAll(GetDirectoryView, count - i, Ahead(offset)))
      {
        AllStep(GetDirectoryView, count - i, Ahead(offset), items);
        var path :- ReadUnits();
        var preference :- ReadDirectoryPreference();
        items := items + [DirectoryView(path, preference)];
      }
      AllDone(GetDirectoryView, Ahead(offset), items);
      return Ok(items);
    }

    method ReadEverything() returns (r: Read<Everything>)
      requires offset <= |bytes|
      modifies this
      ensures Reads(bytes, old(offset), offset, r, GetEverything(Ahead(old(offset))))
    {
      var path :- ReadOptionalUnits();
      var name :- ReadText();
      var version :- ReadOptionalText();
      var launch :- ReadBool();
      return Ok(Everything(path, name, version, launch));
    }

    method ReadSwitches() returns (r: Read<Switches>)
      requires offset <= |bytes|
      modifies this
      ensures Reads(bytes, old(offset), offset, r, GetSwitches(Ahead(old(offset))))
    {
      var flags :- ReadBools(5);
      var opacity :- ReadU8();
      if opacity > 100 {
        return Err;
      }
      var bits :- ReadU8();
      var sidebar :- FromOption(SidebarFrom(bits));
      return Ok(Switches(flags, opacity, sidebar));
    }

    method ReadSettings() returns (r: Read<Settings>)
      requires offset <= |bytes|
      modifies this
      ensures Reads(bytes, old(offset), offset, r, GetSettings(Ahead(old(offset))))
    {
      var code :- ReadU8();
      var theme :- FromOption(ThemeFrom(code));
      code :- ReadU8();
      var language :- FromOption(LanguageFrom(code));
      var everything :- ReadEverything();
      var s :- ReadSwitches();
      return Ok(Settings(theme, language, everything, FileVisibility(s.flags[0], s.flags[1]),
                         s.flags[2], s.flags[3], s.flags[4], s.opacity, s.sidebar));
    }

    method ReadConnection() returns (r: Read<WebDavConnection>)
      requires offset <= |bytes|
      modifies this
      ensures Reads(bytes, old(offset), offset, r, GetConnection(Ahead(old(offset))))
    {
      var https :- ReadBool();
      var host :- ReadText();
      var port :- ReadU16();
      var root :- ReadText();
      var username :- ReadText();
      var id :- ReadU64();
      var revision :- ReadU64();
      if host == [] || root == [] || username == [] || port == 0 {
        return Err;
      }
      return Ok(WebDavConnection(id, revision, https, host, port, root, username));
    }

    method ReadTarget() returns (r: Read<NetworkTarget>)
      requires offset <= |bytes|
      modifies this
      ensures Reads(bytes, old(offset), offset, r, GetTarget(Ahead(old(offset))))
    {
      var tag :- ReadU8();
      if tag == 0 {
        var path :- ReadUnits();
        return Ok(WindowsPath(path));
      } else if tag == 1 {
        var connection :- ReadConnection();
        return Ok(WebDavTarget(connection));
      }
      return Err;
    }

    method ReadLocation() returns (r: Read<NetworkLocation>)
      requires offset <= |bytes|
      modifies this
      ensures Reads(bytes, old(offset), offset, r, GetLocation(Ahead(old(offset))))
    {
      var id :- ReadU64();
      var name :- ReadText();
      var order :- ReadU32();
      var target :- ReadTarget();
      return Ok(NetworkLocation(id, AsterOwned, name, order, target, None));
    }

    method ReadLocations() returns (r: Read<seq<NetworkLocation>>)
      requires offset <= |bytes|
      modifies this
      ensures Reads(bytes, old(offset), offset, r, GetCounted(GetLocation, MAX_NETWORK_LOCATIONS, Ahead(old(offset))))
    {
      hide GetLocation;
      var count :- ReadU32();
      if count > MAX_NETWORK_LOCATIONS {
        return Err;
      }
      var items: seq<NetworkLocation> := [];
      ghost var start := Ahead(offset);
      AllStart(GetLocation, count, start);
      for i := 0 to count
        invariant old(offset) <= offset <= |bytes|
        invariant GetAll(GetLocation, count, start) == Prepended(items, GetAll(GetLocation, count - i, Ahead(offset)))
      {
        AllStep(GetLocation, count - i, Ahead(offset), items);
        var item :- ReadLocation();
        items := items + [item];
      }
      AllDone(GetLocation, Ahead(offset), items);
      return Ok(items);
    }

    method ReadDevices() returns (r: Read<seq<NetworkDevice>>)
      requires offset <= |bytes|
      modifies this
      ensures Reads(bytes, old(offset), offset, r, GetCounted(GetDevice, MAX_NETWORK_DEVICES, Ahead(old(offset))))
    {
      hide GetText, GetUnits;
      var count :- ReadU32();
      if count > MAX_NETWORK_DEVICES {
        return Err;
      }
      var items: seq<NetworkDevice> := [];
      ghost var start := Ahead(offset);
      AllStart(GetDevice, count, start);
      for i := 0 to count
        invariant old(offset) <= offset <= |bytes|
        invariant GetAll(GetDevice, count, start) == Prepended(items, GetAll(GetDevice, count - i, Ahead(offset)))
      {
        AllStep(GetDevice, count - i, Ahead(offset), items);
        var name :- ReadText();
        var path :- ReadUnits();
        items := items + [NetworkDevice(path, name, None, Some(path))];
      }
      AllDone(GetDevice, Ahead(offset), items);
      return Ok(items);
    }

    method ReadTab() returns (r: Read<NavigationLocation>)
      requires offset <= |bytes|
      modifies this
      ensures Reads(bytes, old(offset), offset, r, GetTab(Ahead(old(offset))))
    {
      var tag :- ReadU8();
      if tag == 0 {
        var path :- ReadUnits();
        return Ok(Directory(path));
      } else if tag == 1 {
        var identity :- ReadUnits();
        var name :- ReadText();
        return Ok(Library(identity, name));
      } else if tag == 2 {
        return Ok(Home);
      } else if tag == 3 {
        var place :- ReadPlace();
        return Ok(WebDavPlace(place.id, place.revision, place.root, place.path));
      }
      return Err;
    }

    method ReadPlace() returns (r: Read<Place>)
      requires offset <= |bytes|
      modifies this
      ensures Reads(bytes, old(offset), offset, r, GetPlace(Ahead(old(offset))))
    {
      var id :- ReadU64();
      var revision :- ReadU64();
      var root :- ReadText();
      var path :- ReadText();
      return Ok(Place(id, revision, root, path));
    }

    method ReadTabs() returns (r: Read<seq<NavigationLocation>>)
      requires offset <= |bytes|
      modifies this
      ensures Reads(bytes, old(offset), offset, r, GetCounted(GetTab, MAX_TABS, Ahead(old(offset))))
    {
      hide GetTab;
      var count :- ReadU32();
      if count > MAX_TABS {
        return Err;
      }
      var items: seq<NavigationLocation> := [];
      ghost var start := Ahead(offset);
      AllStart(GetTab, count, start);
      for i := 0 to count
        invariant old(offset) <= offset <= |bytes|
        invariant GetAll(GetTab, count, start) == Prepended(items, GetAll(GetTab, count - i, Ahead(offset)))
      {
        AllStep(GetTab, count - i, Ahead(offset), items);
        var item :- ReadTab();
        items := items + [item];
      }
      AllDone(GetTab, Ahead(offset), items);
      return Ok(items);
    }

    method ReadPlacement() returns (r: Read<Placement>)
      requires offset <= |bytes|
      modifies this
      ensures Reads(bytes, old(offset), offset, r, GetPlacement(Ahead(old(offset))))
    {
      var x :- ReadI32();
      var y :- ReadI32();
      var width :- ReadU32();
      var height :- ReadU32();
      return Ok(Placement(x, y, width, height));
    }

    method ReadWindow() returns (r: Read<Window>)
      requires offset <= |bytes|
      modifies this
      ensures Reads(bytes, old(offset), offset, r, GetWindow(Ahead(old(offset))))
    {
      var placement :- ReadPlacement();
      var active :- ReadU32();
      var tabs :- ReadTabs();
      return Ok(Window(placement, active, tabs));
    }

    method ReadWindows(count: nat) returns (r: Read<seq<Window>>)
      requires offset <= |bytes|
      modifies this
      ensures Reads(bytes, old(offset), offset, r, GetAll(GetWindow, count, Ahead(old(offset))))
    {
      hide GetWindow;
      var items: seq<Window> := [];
      ghost var start := Ahead(offset);
      AllStart(GetWindow, count, start);
      for i := 0 to count
        invariant old(offset) <= offset <= |bytes|
        invariant GetAll(GetWindow, count, start) == Prepended(items, GetAll(GetWindow, count - i, Ahead(offset)))
      {
        AllStep(GetWindow, count - i, Ahead(offset), items);
        var item :- ReadWindow();
        items := items + [item];
      }
      AllDone(GetWindow, Ahead(offset), items);
      return Ok(items);
    }

    method ReadLists(windowCount: nat) returns (r: Read<Lists>)
      requires offset <= |bytes|
      modifies this
      ensures Reads(bytes, old(offset), offset, r, GetLists(FileReaders(), windowCount, Ahead(old(offset))))
    {
      var locations :- ReadLocations();
      var devices :- ReadDevices();
      var windows :- ReadWindows(windowCount);
      return Ok(Lists(locations, devices, windows));
    }

    /** The body of `decode` behind the magic. */
    method ReadBody() returns (r: Read<Session>)
      requires offset == |MAGIC| <= |bytes| && bytes[..|MAGIC|] == MAGIC
      modifies this
      ensures Reads(bytes, old(offset), offset, r, GetSession(FileReaders(), bytes))
    {
      assert MAGIC <= bytes && bytes[|MAGIC|..] == Ahead(offset);
      var windowCount :- ReadU32();
      if windowCount == 0 || windowCount > MAX_WINDOWS {
        return Err;
      }
      var defaultView :- ReadDirectoryPreference();
      var searchView :- ReadSearchPreference();
      var views :- ReadDirectoryViews();
      var settings :- ReadSettings();
      var lists :- ReadLists(windowCount);
      return Ok(Session(lists.windows, defaultView, searchView, views, settings, lists.locations, lists.devices));
    }
  }

  /** `decode`: the magic, the body, nothing behind it, and the same validation as a new session. */
  method DecodeSession(canon: Canon, bytes: Bytes) returns (r: Option<Session>)
    ensures r == Decode(canon, bytes)
  {
    hide GetSession, Checked;
    if |bytes| < |MAGIC| || bytes[..|MAGIC|] != MAGIC {
      NoMagic(bytes);
      return None;
    }
    var reader := new Reader(bytes);
    reader.offset := |MAGIC|;
    var parsed := reader.ReadBody();
    if parsed.Err? {
      return None;
    }
    assert reader.offset == |bytes| <==> bytes[reader.offset..] == [];
    if reader.offset != |bytes| {
      return None;
    }
    r := SessionCheck.Check(canon, parsed.value);
  }

  lemma NoMagic(bytes: Bytes)
    requires |bytes| < |MAGIC| || bytes[..|MAGIC|] != MAGIC
    ensures GetSession(FileReaders(), bytes).Bad?
  {
  }

  lemma {:induction false} ShortUnits(count: nat, b: Bytes)
    requires |b| < 2 * count
    ensures GetAll(GetU16, count, b).Bad?
    decreases count
  {
    if GetU16(b).Good? {
      ShortUnits(count - 1, GetU16(b).rest);
    }
  }
}
