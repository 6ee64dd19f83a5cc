/**
 One session and its file, byte by byte: what the codes are, in which order fields are stored and how
 numbers, strings and lists are spelt (src/session_store.rs, `encode`, `write_*`; crates/domain/src/lib.rs,
 `storage_code`).
 */
module SessionSample {
  import opened Prelude
  import opened SessionBytes
  import opened SessionText
  import opened SessionTypes
  import opened SessionFormat
  import opened SessionLayout
  import opened SessionFile
  import opened SessionTheorems

  // ---- the codes ----

  /** The codes of every value that has one, in the order of their declaration. */
  lemma Codes()
    ensures [ThemeCode(System), ThemeCode(Light), ThemeCode(Dark)] == [0, 1, 2]
    ensures [LanguageCode(Chinese), LanguageCode(English)] == [0, 1]
    ensures [SortFieldCode(ByName), SortFieldCode(ByKind), SortFieldCode(BySize), SortFieldCode(ByModified),
             SortFieldCode(ByCreated)] == [0, 1, 2, 3, 4]
    ensures [DirectionCode(Ascending), DirectionCode(Descending)] == [0, 1]
    ensures [GroupFieldCode(NoGroup), GroupFieldCode(GroupName), GroupFieldCode(GroupModified),
             GroupFieldCode(GroupCreated), GroupFieldCode(GroupKind), GroupFieldCode(GroupSize)] == [0, 1, 2, 3, 4, 5]
    ensures [ColumnCode(NameColumn), ColumnCode(KindColumn), ColumnCode(SizeColumn), ColumnCode(ModifiedColumn),
             ColumnCode(CreatedColumn)] == [0, 1, 2, 3, 4]
    ensures [ViewCode(Details), ViewCode(List), ViewCode(Tiles), ViewCode(Content)] == [0, 1, 6, 7]
    ensures forall size: u16 :: 16 <= size <= 256 ==>
              ViewCode(Icons(size)) == if size == 16 then 3 else if size < 96 then 2 else if size < 256 then 4 else 5
  {
  }

  /** A flag of the sidebar is the bit at its index. */
  lemma SidebarBit(v: Sidebar, i: nat)
    requires i < 5
    ensures SidebarBits(v) as int / [1, 2, 4, 8, 16][i] % 2 == if v[i] then 1 else 0
    ensures SidebarBits(v) < 32
  {
    BitsOfSidebar(v);
  }

  // ---- numbers and lists ----

  lemma Word16(v: u16, rest: Bytes)
    ensures PutU16(v, rest) == [v % 256, v / 256] + rest
  {
    assert ToLe(v / 256, 1) == [v / 256] + ToLe(v / 256 / 256, 0);
    assert ToLe(v, 2) == [v % 256, v / 256];
  }

  lemma Word32(v: u32, b0: byte, b1: byte, b2: byte, b3: byte, rest: Bytes)
    requires v == Four(b0, b1, b2, b3)
    ensures PutU32(v, rest) == [b0, b1, b2, b3] + rest
  {
    var w1: nat := b1 + 256 * (b2 + 256 * b3);
    var w2: nat := b2 + 256 * b3;
    assert v % 256 == b0 && v / 256 == w1;
    assert w1 % 256 == b1 && w1 / 256 == w2;
    assert w2 % 256 == b2 && w2 / 256 == b3;
    assert ToLe(b3, 1) == [b3] + ToLe(b3 / 256, 0);
    assert ToLe(w2, 2) == [b2] + ToLe(b3, 1);
    assert ToLe(w1, 3) == [b1] + ToLe(w2, 2);
    assert ToLe(v, 4) == [b0, b1, b2, b3];
  }

  lemma {:induction false} LowWord(low: u32, high: u32, width: nat)
    requires width <= 4 && low < Pow256(width)
    ensures ToLe(low + Pow256(width) * high, width + 4) == ToLe(low, width) + ToLe(high, 4)
    decreases width
  {
    if width == 0 {
      assert ToLe(low, width) + ToLe(high, 4) == ToLe(high, 4);
    } else {
      var v := low + Pow256(width) * high;
      assert v == low + 256 * (Pow256(width - 1) * high);
      assert v % 256 == low % 256 && v / 256 == low / 256 + Pow256(width - 1) * high;
      LowWord(low / 256, high, width - 1);
      assert ToLe(v, width + 4) == [low % 256] + (ToLe(low / 256, width - 1) + ToLe(high, 4));
      assert ToLe(low, width) == [low % 256] + ToLe(low / 256, width - 1);
    }
  }

  /** A 64-bit number is its low word followed by its high word. */
  lemma Word64(low: u32, high: u32, rest: Bytes)
    ensures PutU64(low + 0x1_0000_0000 * high, rest) == PutU32(low, PutU32(high, rest))
  {
    assert Pow256(4) == 256 * (256 * (256 * (256 * Pow256(0))));
    LowWord(low, high, 4);
    assert (ToLe(low, 4) + ToLe(high, 4)) + rest == ToLe(low, 4) + (ToLe(high, 4) + rest);
  }

  function Pairs(units: Units): Bytes
  {
    if units == [] then [] else [units[0] % 256, units[0] / 256] + Pairs(units[1..])
  }

  lemma {:induction false} PairsPut(units: Units, rest: Bytes)
    ensures PutAll(PutU16, units, rest) == Pairs(units) + rest
    decreases |units|
  {
    if units != [] {
      PairsPut(units[1..], rest);
      Word16(units[0], Pairs(units[1..]) + rest);
    }
  }

  lemma Length(n: byte, rest: Bytes)
    ensures PutU32(AsWord(n), rest) == [n, 0, 0, 0] + rest
  {
    Word32(n, n, 0, 0, 0, rest);
  }

  /** A short string: its length in four bytes, and each unit with its low byte first. */
  lemma Spelt(units: Units, n: byte, rest: Bytes)
    requires |units| == n
    ensures PutUnits(units, rest) == [n, 0, 0, 0] + (Pairs(units) + rest)
  {
    hide ToLe, PutLe, Pairs, PutAll, PutU32, AsWord;
    PairsPut(units, rest);
    Length(n, Pairs(units) + rest);
  }

  // ---- the sample ----

  const COLUMN_SAMPLE: ColumnLayout :=
    Columns([KindColumn, NameColumn, SizeColumn, CreatedColumn, ModifiedColumn], [64, 300, 4_096, 100, 120],
            [true, true, false, true, false])

  const DEFAULT_SAMPLE: DirectoryPreference :=
    DirectoryPreference(Icons(48), BySize, Descending, GroupKind, Ascending, COLUMN_SAMPLE)

  const SEARCH_SAMPLE: SearchPreference := SearchPreference(Details, ByCreated, Ascending, COLUMN_SAMPLE)

  // "C:"
  const VIEW_SAMPLE: DirectoryView :=
    DirectoryView([0x43, 0x3A],
                  DirectoryPreference(Icons(256), ByKind, Descending, GroupSize, Descending, COLUMN_SAMPLE))

  const SETTINGS_SAMPLE: Settings :=
    Settings(Dark, English, Everything(Some([0x45]), "\U{1F600}", Some("1"), true), FileVisibility(true, false),
             true, false, true, 85, [true, false, false, true, true])

  // "Z:"
  const DRIVE_SAMPLE: NetworkLocation :=
    NetworkLocation(0x0102_0304_0506_0708, AsterOwned, "N", 9, WindowsPath([0x5A, 0x3A]), None)

  const SERVER_SAMPLE: NetworkLocation :=
    NetworkLocation(2, AsterOwned, "W", 6, WebDavTarget(WebDavConnection(7, 8, true, "h", 443, "/", "u")), None)

  // "\\h"
  const DEVICE_SAMPLE: NetworkDevice := NetworkDevice([0x5C, 0x5C, 0x68], "D", None, Some([0x5C, 0x5C, 0x68]))

  const WINDOW_SAMPLE: Window :=
    Window(Placement(-2, 3, 1_000, 600), 1,
           [Home, Directory([0x43]), Library([0x4C], "l"), WebDavPlace(7, 8, "/", "/a")])

  const SAMPLE: Session :=
    Session([WINDOW_SAMPLE], DEFAULT_SAMPLE, SEARCH_SAMPLE, [VIEW_SAMPLE], SETTINGS_SAMPLE,
            [DRIVE_SAMPLE, SERVER_SAMPLE], [DEVICE_SAMPLE])

  // ---- its bytes, part by part, each in front of what follows ----

  // widths
  function WidthImage(rest: Bytes): Bytes
  {
    [0x40, 0, 0, 0] + ([0x2C, 1, 0, 0] + ([0, 0x10, 0, 0] + ([0x64, 0, 0, 0] + ([0x78, 0, 0, 0] + rest))))
  }

  // order, widths, visibility
  function ColumnImage(rest: Bytes): Bytes
  {
    [1] + ([0] + ([2] + ([4] + ([3] + WidthImage([1] + ([1] + ([0] + ([1] + ([0] + rest)))))))))
  }

  // icons, their size, by size, descending, grouped by kind, ascending
  function DefaultImage(rest: Bytes): Bytes
  {
    [2] + ([48, 0] + ([2] + ([1] + ([4] + ([0] + ColumnImage(rest))))))
  }

  // details, no size, by creation, ascending
  function SearchImage(rest: Bytes): Bytes
  {
    [0] + ([0, 0] + ([4] + ([0] + ColumnImage(rest))))
  }

  // path, then as for the default
  function ViewImage(rest: Bytes): Bytes
  {
    [2, 0, 0, 0] + ([0x43, 0, 0x3A, 0] + ([5] + ([0, 1] + ([1] + ([1] + ([5] + ([1] + ColumnImage(rest))))))))
  }

  // dark, English, executable, instance, version, launch, five flags, opacity, sidebar
  function SettingsImage(rest: Bytes): Bytes
  {
    [2] + ([1] + ([1] + ([1, 0, 0, 0] + ([0x45, 0] + ([2, 0, 0, 0] + ([0x3D, 0xD8, 0, 0xDE] + ([1]
    + ([1, 0, 0, 0] + ([0x31, 0] + ([1] + ([1] + ([0] + ([1] + ([0] + ([1] + ([85] + ([0x19]
    + rest)))))))))))))))))
  }

  // number, name, order, path
  function DriveImage(rest: Bytes): Bytes
  {
    [8, 7, 6, 5] + ([4, 3, 2, 1] + ([1, 0, 0, 0] + ([0x4E, 0] + ([9, 0, 0, 0] + ([0] + ([2, 0, 0, 0]
    + ([0x5A, 0, 0x3A, 0] + rest)))))))
  }

  // scheme, host, port, root, user, connection, revision
  function ConnectionImage(rest: Bytes): Bytes
  {
    [1] + ([1, 0, 0, 0] + ([0x68, 0] + ([0xBB, 1] + ([1, 0, 0, 0] + ([0x2F, 0] + ([1, 0, 0, 0] + ([0x75, 0]
    + ([7, 0, 0, 0] + ([0, 0, 0, 0] + ([8, 0, 0, 0] + ([0, 0, 0, 0] + rest)))))))))))
  }

  // number, name, order, connection
  function ServerImage(rest: Bytes): Bytes
  {
    [2, 0, 0, 0] + ([0, 0, 0, 0] + ([1, 0, 0, 0] + ([0x57, 0] + ([6, 0, 0, 0] + ([1] + ConnectionImage(rest))))))
  }

  // name, path
  function DeviceImage(rest: Bytes): Bytes
  {
    [1, 0, 0, 0] + ([0x44, 0] + ([3, 0, 0, 0] + ([0x5C, 0, 0x5C, 0, 0x68, 0] + rest)))
  }

  // connection, revision, root, path
  function PlaceImage(rest: Bytes): Bytes
  {
    [3] + ([7, 0, 0, 0] + ([0, 0, 0, 0] + ([8, 0, 0, 0] + ([0, 0, 0, 0] + ([1, 0, 0, 0] + ([0x2F, 0]
    + ([2, 0, 0, 0] + ([0x2F, 0, 0x61, 0] + rest))))))))
  }

  // home; a directory; a library; a place on a server
  function TabImage(rest: Bytes): Bytes
  {
    [2] + ([0] + ([1, 0, 0, 0] + ([0x43, 0]
    + ([1] + ([1, 0, 0, 0] + ([0x4C, 0] + ([1, 0, 0, 0] + ([0x6C, 0] + PlaceImage(rest)))))))))
  }

  // place, size, active tab, tabs
  function WindowImage(rest: Bytes): Bytes
  {
    [0xFE, 0xFF, 0xFF, 0xFF] + ([3, 0, 0, 0] + ([0xE8, 3, 0, 0] + ([0x58, 2, 0, 0]
    + ([1, 0, 0, 0] + ([4, 0, 0, 0] + TabImage(rest))))))
  }

  /** The whole file: signature, number of windows, preferences, views, settings, locations, devices, windows. */
  function FileImage(): Bytes
  {
    [0x41, 0x53, 0x54, 0x46, 0x31, 0x38] + ([1, 0, 0, 0] + DefaultImage(SearchImage(
      [1, 0, 0, 0] + ViewImage(SettingsImage([2, 0, 0, 0] + DriveImage(ServerImage(
        [1, 0, 0, 0] + DeviceImage(WindowImage([])))))))))
  }

  // ---- they are what is written ----

  lemma FiveOf<T>(put: (T, Bytes) -> Bytes, a: T, b: T, c: T, d: T, e: T, rest: Bytes)
    ensures PutAll(put, [a, b, c, d, e], rest) == put(a, put(b, put(c, put(d, put(e, rest)))))
  {
    assert [a, b, c, d, e][1..] == [b, c, d, e];
    FourOf(put, b, c, d, e, rest);
  }

  lemma FourOf<T>(put: (T, Bytes) -> Bytes, a: T, b: T, c: T, d: T, rest: Bytes)
    ensures PutAll(put, [a, b, c, d], rest) == put(a, put(b, put(c, put(d, rest))))
  {
    assert [a, b, c, d][1..] == [b, c, d] && [b, c, d][1..] == [c, d];
    TwoOf(put, c, d, rest);
    assert PutAll(put, [b, c, d], rest) == put(b, put(c, put(d, rest)));
  }

  lemma TwoOf<T>(put: (T, Bytes) -> Bytes, a: T, b: T, rest: Bytes)
    ensures PutAll(put, [a, b], rest) == put(a, put(b, rest))
  {
    assert [a, b][1..] == [b];
    OneOf(put, b, rest);
  }

  lemma OneOf<T>(put: (T, Bytes) -> Bytes, a: T, rest: Bytes)
    ensures PutAll(put, [a], rest) == put(a, rest)
  {
    assert [a][1..] == [] && PutAll(put, [], rest) == rest;
  }

  lemma WidthsWritten(rest: Bytes)
    ensures PutAll(PutU32, [64, 300, 4_096, 100, 120], rest) == WidthImage(rest)
  {
    hide PutU32, PutAll;
    FiveOf<u32>(PutU32, 64, 300, 4_096, 100, 120, rest);
    Word32(120, 0x78, 0, 0, 0, rest);
    Word32(100, 0x64, 0, 0, 0, [0x78, 0, 0, 0] + rest);
    Word32(4_096, 0, 0x10, 0, 0, [0x64, 0, 0, 0] + ([0x78, 0, 0, 0] + rest));
    Word32(300, 0x2C, 1, 0, 0, [0, 0x10, 0, 0] + ([0x64, 0, 0, 0] + ([0x78, 0, 0, 0] + rest)));
    Word32(64, 0x40, 0, 0, 0, [0x2C, 1, 0, 0] + ([0, 0x10, 0, 0] + ([0x64, 0, 0, 0] + ([0x78, 0, 0, 0] + rest))));
  }

  lemma ColumnsWritten(rest: Bytes)
    ensures PutColumns(COLUMN_SAMPLE, rest) == ColumnImage(rest)
  {
    hide PutAll, PutU32, WidthImage;
    FiveOf(PutBool, true, true, false, true, false, rest);
    WidthsWritten([1] + ([1] + ([0] + ([1] + ([0] + rest)))));
    FiveOf(PutColumn, KindColumn, NameColumn, SizeColumn, CreatedColumn, ModifiedColumn,
         WidthImage([1] + ([1] + ([0] + ([1] + ([0] + rest))))));
  }

  lemma PreferencesWritten(rest: Bytes)
    ensures PutDirectoryPreference(DEFAULT_SAMPLE, rest) == DefaultImage(rest)
    ensures PutSearchPreference(SEARCH_SAMPLE, rest) == SearchImage(rest)
  {
    hide PutColumns, PutU16, ColumnImage;
    ColumnsWritten(rest);
    Word16(48, [2] + ([1] + ([4] + ([0] + ColumnImage(rest)))));
    Word16(0, [4] + ([0] + ColumnImage(rest)));
  }

  lemma Units1(u: u16)
    ensures Pairs([u]) == [u % 256, u / 256]
  {
  }

  lemma Units2(u: u16, v: u16)
    ensures Pairs([u, v]) == [u % 256, u / 256, v % 256, v / 256]
  {
    assert [u, v][1..] == [v];
    Units1(v);
  }

  lemma Units3(u: u16, v: u16, w: u16)
    ensures Pairs([u, v, w]) == [u % 256, u / 256, v % 256, v / 256, w % 256, w / 256]
  {
    assert [u, v, w][1..] == [v, w];
    Units2(v, w);
  }

  lemma ViewWritten(rest: Bytes)
    ensures PutDirectoryView(VIEW_SAMPLE, rest) == ViewImage(rest)
  {
    hide PutColumns, PutU16, PutUnits, Pairs, ColumnImage;
    ColumnsWritten(rest);
    Word16(256, [1] + ([1] + ([5] + ([1] + ColumnImage(rest)))));
    Units2(0x43, 0x3A);
    Spelt([0x43, 0x3A], 2, PutDirectoryPreference(VIEW_SAMPLE.preference, rest));
  }

  lemma TextIs(text: string, units: Units, rest: Bytes)
    requires Utf16(text) == units
    ensures PutText(text, rest) == PutUnits(units, rest)
  {
  }

  /** A character below U+10000 is one unit. */
  lemma Letter(c: char, rest: Bytes)
    requires (c as int) < 0x1_0000
    ensures PutText([c], rest) == [1, 0, 0, 0] + ([c as int % 256, c as int / 256] + rest)
  {
    assert [c][1..] == [] && Utf16([c]) == [c as int] + Utf16([]);
    TextIs([c], [c as int], rest);
    Units1(c as int);
    Spelt([c as int], 1, rest);
  }

  /** One above is a surrogate pair. */
  lemma Face(rest: Bytes)
    ensures PutText("\U{1F600}", rest) == [2, 0, 0, 0] + ([0x3D, 0xD8, 0, 0xDE] + rest)
  {
    var face: string := "\U{1F600}";
    assert face[1..] == [] && Utf16(face) == [0xD83D, 0xDE00] + Utf16([]);
    TextIs(face, [0xD83D, 0xDE00], rest);
    Units2(0xD83D, 0xDE00);
    Spelt([0xD83D, 0xDE00], 2, rest);
  }

  lemma SettingsWritten(rest: Bytes)
    ensures PutSettings(SETTINGS_SAMPLE, rest) == SettingsImage(rest)
  {
    hide PutText, PutUnits, Pairs;
    var r1 := PutSwitches(SETTINGS_SAMPLE, rest);
    assert r1 == [1] + ([0] + ([1] + ([0] + ([1] + ([85] + ([0x19] + rest))))));
    var r2 := [1] + ([1, 0, 0, 0] + ([0x31, 0] + ([1] + r1)));
    Letter('1', [1] + r1);
    assert PutOptionalText(Some("1"), PutBool(true, r1)) == r2;
    Face(r2);
    Units1(0x45);
    Spelt([0x45], 1, PutText("\U{1F600}", r2));
  }

  lemma Long(low: u32, b0: byte, b1: byte, b2: byte, b3: byte, rest: Bytes)
    requires low == Four(b0, b1, b2, b3)
    ensures PutU64(low, rest) == [b0, b1, b2, b3] + ([0, 0, 0, 0] + rest)
  {
    hide PutU64, PutU32;
    Word64(low, 0, rest);
    Word32(0, 0, 0, 0, 0, rest);
    Word32(low, b0, b1, b2, b3, [0, 0, 0, 0] + rest);
  }

  lemma DriveWritten(rest: Bytes)
    ensures PutLocation(DRIVE_SAMPLE, rest) == DriveImage(rest)
  {
    hide PutU64, PutU32, PutText, PutUnits, Pairs;
    Units2(0x5A, 0x3A);
    Spelt([0x5A, 0x3A], 2, rest);
    var r1 := [0] + ([2, 0, 0, 0] + ([0x5A, 0, 0x3A, 0] + rest));
    Word32(9, 9, 0, 0, 0, r1);
    var r2 := [1, 0, 0, 0] + ([0x4E, 0] + ([9, 0, 0, 0] + r1));
    Letter('N', [9, 0, 0, 0] + r1);
    Word64(0x0506_0708, 0x0102_0304, r2);
    Word32(0x0102_0304, 4, 3, 2, 1, r2);
    Word32(0x0506_0708, 8, 7, 6, 5, [4, 3, 2, 1] + r2);
  }

  lemma ConnectionWritten(rest: Bytes)
    ensures PutConnection(SERVER_SAMPLE.target.connection, rest) == ConnectionImage(rest)
  {
    hide PutU64, PutU16, PutText;
    var r1 := [8, 0, 0, 0] + ([0, 0, 0, 0] + rest);
    Long(8, 8, 0, 0, 0, rest);
    var r2 := [7, 0, 0, 0] + ([0, 0, 0, 0] + r1);
    Long(7, 7, 0, 0, 0, r1);
    Letter('u', r2);
    var r3 := [1, 0, 0, 0] + ([0x75, 0] + r2);
    Letter('/', r3);
    var r4 := [1, 0, 0, 0] + ([0x2F, 0] + r3);
    Word16(443, r4);
    Letter('h', [0xBB, 1] + r4);
  }

  lemma ServerTarget(rest: Bytes)
    ensures PutTarget(SERVER_SAMPLE.target, rest) == [1] + ConnectionImage(rest)
  {
    hide PutConnection, ConnectionImage;
    ConnectionWritten(rest);
  }

  lemma Small(n: byte)
    ensures n == Four(n, 0, 0, 0)
  {
  }

  lemma LocationHead(target: Bytes)
    ensures PutU64(2, PutText("W", PutU32(6, target)))
         == [2, 0, 0, 0] + ([0, 0, 0, 0] + ([1, 0, 0, 0] + ([0x57, 0] + ([6, 0, 0, 0] + target))))
  {
    hide PutU64, PutU32, PutText, Four;
    var r1 := [6, 0, 0, 0] + target;
    assert PutU32(6, target) == r1 by {
      assert 6 == Four(6, 0, 0, 0) by { Small(6); }
      Word32(6, 6, 0, 0, 0, target);
    }
    var r2 := [1, 0, 0, 0] + ([0x57, 0] + r1);
    assert PutText("W", r1) == r2 by { Letter('W', r1); }
    assert PutU64(2, r2) == [2, 0, 0, 0] + ([0, 0, 0, 0] + r2) by {
      assert 2 == Four(2, 0, 0, 0) by { Small(2); }
      Long(2, 2, 0, 0, 0, r2);
    }
  }

  lemma ServerWritten(rest: Bytes)
    ensures PutLocation(SERVER_SAMPLE, rest) == ServerImage(rest)
  {
    hide PutU64, PutU32, PutText, PutTarget, ConnectionImage;
    ServerTarget(rest);
    LocationHead([1] + ConnectionImage(rest));
  }

  lemma DeviceWritten(rest: Bytes)
    ensures PutDevice(DEVICE_SAMPLE, rest) == DeviceImage(rest)
  {
    hide PutText, PutUnits, Pairs;
    Units3(0x5C, 0x5C, 0x68);
    Spelt([0x5C, 0x5C, 0x68], 3, rest);
    Letter('D', [3, 0, 0, 0] + ([0x5C, 0, 0x5C, 0, 0x68, 0] + rest));
  }

  lemma PathWritten(rest: Bytes)
    ensures PutText("/a", rest) == [2, 0, 0, 0] + ([0x2F, 0, 0x61, 0] + rest)
  {
    var path: string := "/a";
    assert path[1..] == "a" && "a"[1..] == [];
    assert Utf16("a") == [0x61] + Utf16([]);
    assert Utf16(path) == [0x2F] + Utf16("a");
    TextIs(path, [0x2F, 0x61], rest);
    Units2(0x2F, 0x61);
    Spelt([0x2F, 0x61], 2, rest);
  }

  lemma PlaceWritten(rest: Bytes)
    ensures PutTab(WebDavPlace(7, 8, "/", "/a"), rest) == PlaceImage(rest)
  {
    hide PutU64, PutText;
    PathWritten(rest);
    var r1 := [2, 0, 0, 0] + ([0x2F, 0, 0x61, 0] + rest);
    Letter('/', r1);
    var r2 := [1, 0, 0, 0] + ([0x2F, 0] + r1);
    Long(8, 8, 0, 0, 0, r2);
    Long(7, 7, 0, 0, 0, [8, 0, 0, 0] + ([0, 0, 0, 0] + r2));
  }

  lemma TabsWritten(rest: Bytes)
    ensures PutAll(PutTab, WINDOW_SAMPLE.tabs, rest) == TabImage(rest)
  {
    hide PutText, PutUnits, Pairs, PutAll, PutPlace, PlaceImage;
    var place := WebDavPlace(7, 8, "/", "/a");
    FourOf(PutTab, Home, Directory([0x43]), Library([0x4C], "l"), place, rest);
    PlaceWritten(rest);
    var r1 := PlaceImage(rest);
    Letter('l', r1);
    Units1(0x4C);
    Units1(0x43);
    Spelt([0x4C], 1, PutText("l", r1));
    Spelt([0x43], 1, PutTab(Library([0x4C], "l"), r1));
  }

  lemma WindowWritten(rest: Bytes)
    ensures PutWindow(WINDOW_SAMPLE, rest) == WindowImage(rest)
  {
    hide PutAll, PutU32, AsWord, TabImage;
    TabsWritten(rest);
    Length(4, TabImage(rest));
    var r1 := [4, 0, 0, 0] + TabImage(rest);
    Length(1, r1);
    var r2 := [1, 0, 0, 0] + r1;
    Word32(600, 0x58, 2, 0, 0, r2);
    Word32(1_000, 0xE8, 3, 0, 0, [0x58, 2, 0, 0] + r2);
    Word32(3, 3, 0, 0, 0, [0xE8, 3, 0, 0] + ([0x58, 2, 0, 0] + r2));
    Word32(0xFFFF_FFFE, 0xFE, 0xFF, 0xFF, 0xFF, [3, 0, 0, 0] + ([0xE8, 3, 0, 0] + ([0x58, 2, 0, 0] + r2)));
  }

  lemma ListsWritten()
    ensures PutLists(FileWriters(), SAMPLE, [])
         == [2, 0, 0, 0] + DriveImage(ServerImage([1, 0, 0, 0] + DeviceImage(WindowImage([]))))
  {
    hide PutAll, PutU32, AsWord, PutLocation, PutDevice, PutWindow, DriveImage, ServerImage, DeviceImage, WindowImage;
    WindowWritten([]);
    OneOf(PutWindow, WINDOW_SAMPLE, []);
    DeviceWritten(WindowImage([]));
    OneOf(PutDevice, DEVICE_SAMPLE, WindowImage([]));
    Length(1, DeviceImage(WindowImage([])));
    var r1 := [1, 0, 0, 0] + DeviceImage(WindowImage([]));
    ServerWritten(r1);
    DriveWritten(ServerImage(r1));
    TwoOf(PutLocation, DRIVE_SAMPLE, SERVER_SAMPLE, r1);
    Length(2, DriveImage(ServerImage(r1)));
  }

  lemma FileWritten()
    ensures Image(SAMPLE) == FileImage()
  {
    hide PutAll, PutU32, AsWord, PutLists, DriveImage, ServerImage, DeviceImage, WindowImage, ViewImage, SettingsImage;
    hide DefaultImage, SearchImage, PutSettings, PutDirectoryView, PutDirectoryPreference, PutSearchPreference;
    ListsWritten();
    var r1 := [2, 0, 0, 0] + DriveImage(ServerImage([1, 0, 0, 0] + DeviceImage(WindowImage([]))));
    SettingsWritten(r1);
    ViewWritten(SettingsImage(r1));
    OneOf(PutDirectoryView, VIEW_SAMPLE, SettingsImage(r1));
    Length(1, ViewImage(SettingsImage(r1)));
    var r2 := [1, 0, 0, 0] + ViewImage(SettingsImage(r1));
    PreferencesWritten(r2);
    PreferencesWritten(SearchImage(r2));
    Length(1, DefaultImage(SearchImage(r2)));
  }

  // ---- and what is read ----

  lemma SampleTexts()
    ensures forall text :: |text| <= 2 ==> TextFits(text)
  {
    forall text: string | |text| <= 2 ensures |Utf16(text)| <= 4 {
      if text != [] {
        assert text[1..] != [] ==> Utf16(text[1..][1..]) == [];
      }
    }
  }

  lemma SampleServer()
    ensures ServerRoot([0x5C, 0x5C, 0x68])
  {
    var path: Units := [0x5C, 0x5C, 0x68];
    assert UncPath(path) && path[2..] == [0x68] && UncBody(path) == Some([0x68]);
    assert [0x68][1..] == [] && HostLength([0x68]) == 1;
  }

  lemma SampleWindow()
    ensures WindowValid(WINDOW_SAMPLE) && ColumnsValid(COLUMN_SAMPLE)
  {
    SampleTexts();
    hide TextFits, Utf16;
    assert !Blank("l"[0]);
    assert TrimSlashes("/") == "" by { assert "/"[..0] == ""; }
  }

  lemma SamplePlaces()
    ensures LocationsValid(SAMPLE.locations) && DevicesValid(SAMPLE.devices)
  {
    SampleTexts();
    SampleServer();
    hide TextFits, ServerRoot, Utf16;
    assert !Blank("N"[0]) && !Blank("W"[0]) && !Blank("D"[0]);
  }

  lemma SampleValid(canon: Canon)
    ensures Valid(canon, SAMPLE) && Writes(SAMPLE)
  {
    SampleTexts();
    SampleWindow();
    SamplePlaces();
    hide TextFits, LocationsValid, DevicesValid, WindowValid, ColumnsValid, Utf16;
  }

  /** The sample is written as this file, and this file is read as the sample. */
  lemma SampleFile(canon: Canon)
    ensures Encode(canon, SAMPLE) == Some(FileImage()) && Decode(canon, FileImage()) == Some(SAMPLE)
  {
    SampleValid(canon);
    FileWritten();
    hide Valid, FileImage, Image, Writes, GetSession;
    assert Clamped(SAMPLE).windows == SAMPLE.windows;
    assert Clamped(SAMPLE) == SAMPLE;
    DecodeEncode(canon, SAMPLE);
    assert Normalised(SAMPLE).locations == SAMPLE.locations && Normalised(SAMPLE).devices == SAMPLE.devices;
    assert Normalised(SAMPLE) == SAMPLE;
  }
}
