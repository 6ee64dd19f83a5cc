/**
 The layout of the session file, field by field, and that reading inverts writing for each part
 (src/session_store.rs, `encode`, `decode` and the helpers they call).
 */
module SessionFormat {
  import opened Prelude
  import opened SessionBytes
  import opened SessionText
  import opened SessionTypes

  const MAX_TABS: nat := 1_024
  const MAX_WINDOWS: nat := 128
  const MAX_NETWORK_LOCATIONS: nat := 1_024
  const MAX_NETWORK_DEVICES: nat := 1_024
  const MAX_DIRECTORY_VIEWS: nat := 256

  // ---- one-byte codes ----

  function PutCode<T>(code: T -> byte, v: T, rest: Bytes): Bytes
  {
    PutU8(code(v), rest)
  }

  function GetCode<T>(from: byte -> Option<T>, b: Bytes): Parsed<T>
  {
    var (code, rest) :- GetU8(b);
    match from(code)
    case None => Bad
    case Some(v) => Good(v, rest)
  }

  ghost predicate CodeTable<T(!new)>(code: T -> byte, from: byte -> Option<T>)
  {
    && (forall v: T :: from(code(v)) == Some(v))
    && (forall c: byte :: from(c).Some? ==> code(from(c).value) == c)
  }

  lemma CodeRoundTrip<T(!new)>(code: T -> byte, from: byte -> Option<T>, v: T, rest: Bytes)
    requires CodeTable(code, from)
    ensures GetCode(from, PutCode(code, v, rest)) == Good(v, rest)
  {
  }

  lemma CodeCanonical<T(!new)>(code: T -> byte, from: byte -> Option<T>, b: Bytes)
    requires CodeTable(code, from) && GetCode(from, b).Good?
    ensures b == PutCode(code, GetCode(from, b).value, GetCode(from, b).rest)
  {
    U8Codec();
    assert GetU8(b).Good? && b == PutU8(GetU8(b).value, GetU8(b).rest);
  }

  lemma ThemeTable()
    ensures CodeTable(ThemeCode, ThemeFrom) && CodeTable(LanguageCode, LanguageFrom)
  {
  }

  lemma SortTable()
    ensures CodeTable(SortFieldCode, SortFieldFrom)
  {
  }

  lemma DirectionTable()
    ensures CodeTable(DirectionCode, DirectionFrom)
  {
  }

  lemma GroupTable()
    ensures CodeTable(GroupFieldCode, GroupFieldFrom)
  {
  }

  lemma ColumnTable()
    ensures CodeTable(ColumnCode, ColumnFrom)
  {
  }

  lemma BitsOfSidebar(v: Sidebar)
    ensures SidebarFrom(SidebarBits(v)) == Some(v)
  {
    var bits := SidebarBits(v) as int;
    var b0, b1, b2 := if v[0] then 1 else 0, if v[1] then 1 else 0, if v[2] then 1 else 0;
    var b3, b4 := if v[3] then 1 else 0, if v[4] then 1 else 0;
    assert bits == b0 + 2 * (b1 + 2 * (b2 + 2 * (b3 + 2 * b4)));
    assert bits % 2 == b0 && bits / 2 == b1 + 2 * (b2 + 2 * (b3 + 2 * b4));
    assert bits / 2 % 2 == b1 && bits / 4 == b2 + 2 * (b3 + 2 * b4);
    assert bits / 4 % 2 == b2 && bits / 8 == b3 + 2 * b4;
    assert bits / 8 % 2 == b3 && bits / 16 == b4;
    assert bits < 32;
    assert SidebarFrom(SidebarBits(v)).value == [b0 == 1, b1 == 1, b2 == 1, b3 == 1, b4 == 1];
    assert v == [v[0], v[1], v[2], v[3], v[4]];
  }

  lemma SidebarOfBits(bits: byte)
    requires SidebarFrom(bits).Some?
    ensures SidebarBits(SidebarFrom(bits).value) == bits
  {
    var n := bits as int;
    assert n == n % 2 + 2 * (n / 2) && n / 2 == n / 2 % 2 + 2 * (n / 4) && n / 4 == n / 4 % 2 + 2 * (n / 8);
    assert n / 8 == n / 8 % 2 + 2 * (n / 16) && n / 16 == n / 16 % 2;
  }

  lemma SidebarTable()
    ensures CodeTable<Sidebar>(SidebarBits, SidebarFrom)
  {
    forall v: Sidebar ensures SidebarFrom(SidebarBits(v)) == Some(v) {
      BitsOfSidebar(v);
    }
    forall c: byte | SidebarFrom(c).Some? ensures SidebarBits(SidebarFrom(c).value) == c {
      SidebarOfBits(c);
    }
  }

  // ---- view modes and columns ----

  function PutViewMode(v: ViewMode, rest: Bytes): Bytes
  {
    PutU8(ViewCode(v), PutU16(IconSize(v), rest))
  }

  function GetViewMode(b: Bytes): Parsed<ViewMode>
  {
    var (code, b1) :- GetU8(b);
    var preset := ViewFrom(code);
    if preset.None? then Bad
    else
      var (size, b2) :- GetU16(b1);
      if !preset.value.Icons? && size != 0 then Bad
      else
        var mode := if preset.value.Icons? then Icons(size) else preset.value;
        if !ViewValid(mode) || ViewCode(mode) != code then Bad else Good(mode, b2)
  }

  lemma ViewModeCodec()
    ensures Codec(PutViewMode, GetViewMode, ViewValid)
  {
    hide GetU16, PutU16;
    U16Codec();
    forall v: ViewMode, rest: Bytes | ViewValid(v) ensures GetViewMode(PutViewMode(v, rest)) == Good(v, rest) {
      assert Any(IconSize(v));
      assert PutViewMode(v, rest)[1..] == PutU16(IconSize(v), rest);
    }
    forall b: Bytes | GetViewMode(b).Good?
      ensures ViewValid(GetViewMode(b).value) && b == PutViewMode(GetViewMode(b).value, GetViewMode(b).rest)
    {
      assert b == [b[0]] + b[1..];
      assert GetU16(b[1..]).Good?;
    }
  }

  function PutColumn(v: ColumnKind, rest: Bytes): Bytes { PutCode(ColumnCode, v, rest) }

  function GetColumn(b: Bytes): Parsed<ColumnKind> { GetCode(ColumnFrom, b) }

  lemma ColumnCodec()
    ensures Codec(PutColumn, GetColumn, Any)
  {
    ColumnTable();
    forall v: ColumnKind, rest: Bytes ensures GetColumn(PutColumn(v, rest)) == Good(v, rest) {
      CodeRoundTrip(ColumnCode, ColumnFrom, v, rest);
    }
    forall b: Bytes | GetColumn(b).Good? ensures b == PutColumn(GetColumn(b).value, GetColumn(b).rest) {
      CodeCanonical(ColumnCode, ColumnFrom, b);
    }
  }

  function PutColumns(c: ColumnLayout, rest: Bytes): Bytes
  {
    PutAll(PutColumn, c.order, PutAll(PutU32, c.widths, PutAll(PutBool, c.visible, rest)))
  }

  function GetColumns(b: Bytes): Parsed<ColumnLayout>
  {
    var (order, b1) :- GetAll(GetColumn, COLUMNS, b);
    var (widths, b2) :- GetAll(GetU32, COLUMNS, b1);
    var (visible, b3) :- GetAll(GetBool, COLUMNS, b2);
    Good(Columns(order, widths, visible), b3)
  }

  lemma ColumnsCodec()
    ensures Codec(PutColumns, GetColumns, Any)
  {
    ColumnCodec();
    U32Codec();
    BoolCodec();
    forall c: ColumnLayout, rest: Bytes ensures GetColumns(PutColumns(c, rest)) == Good(c, rest) {
      AllRoundTrip(PutBool, GetBool, Any, c.visible, rest);
      AllRoundTrip(PutU32, GetU32, Any, c.widths, PutAll(PutBool, c.visible, rest));
      AllRoundTrip(PutColumn, GetColumn, Any, c.order, PutAll(PutU32, c.widths, PutAll(PutBool, c.visible, rest)));
    }
    forall b: Bytes | GetColumns(b).Good? ensures b == PutColumns(GetColumns(b).value, GetColumns(b).rest) {
      var b1 := GetAll(GetColumn, COLUMNS, b).rest;
      var b2 := GetAll(GetU32, COLUMNS, b1).rest;
      AllCanonical(PutColumn, GetColumn, Any, COLUMNS, b);
      AllCanonical(PutU32, GetU32, Any, COLUMNS, b1);
      AllCanonical(PutBool, GetBool, Any, COLUMNS, b2);
    }
  }

  // ---- preferences ----

  function PutSort(field: SortField, direction: SortDirection, rest: Bytes): Bytes
  {
    PutCode(SortFieldCode, field, PutCode(DirectionCode, direction, rest))
  }

  function GetSort(b: Bytes): Parsed<(SortField, SortDirection)>
  {
    var (field, b1) :- GetCode(SortFieldFrom, b);
    var (direction, b2) :- GetCode(DirectionFrom, b1);
    Good((field, direction), b2)
  }

  lemma SortRoundTrip(field: SortField, direction: SortDirection, rest: Bytes)
    ensures GetSort(PutSort(field, direction, rest)) == Good((field, direction), rest)
  {
    SortTable();
    DirectionTable();
    CodeRoundTrip(DirectionCode, DirectionFrom, direction, rest);
    CodeRoundTrip(SortFieldCode, SortFieldFrom, field, PutCode(DirectionCode, direction, rest));
  }

  lemma SortCanonical(b: Bytes)
    requires GetSort(b).Good?
    ensures b == PutSort(GetSort(b).value.0, GetSort(b).value.1, GetSort(b).rest)
  {
    SortTable();
    DirectionTable();
    CodeCanonical(SortFieldCode, SortFieldFrom, b);
    CodeCanonical(DirectionCode, DirectionFrom, GetCode(SortFieldFrom, b).rest);
  }

  function PutGroup(field: GroupField, direction: SortDirection, rest: Bytes): Bytes
  {
    PutCode(GroupFieldCode, field, PutCode(DirectionCode, direction, rest))
  }

  function GetGroup(b: Bytes): Parsed<(GroupField, SortDirection)>
  {
    var (field, b1) :- GetCode(GroupFieldFrom, b);
    var (direction, b2) :- GetCode(DirectionFrom, b1);
    Good((field, direction), b2)
  }

  lemma GroupRoundTrip(field: GroupField, direction: SortDirection, rest: Bytes)
    ensures GetGroup(PutGroup(field, direction, rest)) == Good((field, direction), rest)
  {
    GroupTable();
    DirectionTable();
    CodeRoundTrip(DirectionCode, DirectionFrom, direction, rest);
    CodeRoundTrip(GroupFieldCode, GroupFieldFrom, field, PutCode(DirectionCode, direction, rest));
  }

  lemma GroupCanonical(b: Bytes)
    requires GetGroup(b).Good?
    ensures b == PutGroup(GetGroup(b).value.0, GetGroup(b).value.1, GetGroup(b).rest)
  {
    GroupTable();
    DirectionTable();
    CodeCanonical(GroupFieldCode, GroupFieldFrom, b);
    CodeCanonical(DirectionCode, DirectionFrom, GetCode(GroupFieldFrom, b).rest);
  }

  function PutDirectoryPreference(p: DirectoryPreference, rest: Bytes): Bytes
  {
    PutViewMode(p.viewMode,
      PutSort(p.sortField, p.sortDirection, PutGroup(p.groupField, p.groupDirection, PutColumns(p.columns, rest))))
  }

  function GetDirectoryPreference(b: Bytes): Parsed<DirectoryPreference>
  {
    var (mode, b1) :- GetViewMode(b);
    var (sort, b2) :- GetSort(b1);
    var (group, b3) :- GetGroup(b2);
    var (columns, b4) :- GetColumns(b3);
    var value := DirectoryPreference(mode, sort.0, sort.1, group.0, group.1, columns);
    if DirectoryPreferenceValid(value) then Good(value, b4) else Bad
  }

  lemma DirectoryPreferenceRoundTrip(p: DirectoryPreference, rest: Bytes)
    requires DirectoryPreferenceValid(p)
    ensures GetDirectoryPreference(PutDirectoryPreference(p, rest)) == Good(p, rest)
  {
    var r3 := PutColumns(p.columns, rest);
    var r2 := PutGroup(p.groupField, p.groupDirection, r3);
    var r1 := PutSort(p.sortField, p.sortDirection, r2);
    assert GetColumns(r3) == Good(p.columns, rest) by { ColumnsCodec(); assert Any(p.columns); }
    assert GetGroup(r2) == Good((p.groupField, p.groupDirection), r3) by {
      GroupRoundTrip(p.groupField, p.groupDirection, r3);
    }
    assert GetSort(r1) == Good((p.sortField, p.sortDirection), r2) by {
      SortRoundTrip(p.sortField, p.sortDirection, r2);
    }
    assert GetViewMode(PutViewMode(p.viewMode, r1)) == Good(p.viewMode, r1) by { ViewModeCodec(); }
  }

  lemma DirectoryPreferenceCanonical(b: Bytes)
    requires GetDirectoryPreference(b).Good?
    ensures DirectoryPreferenceValid(GetDirectoryPreference(b).value)
    ensures b == PutDirectoryPreference(GetDirectoryPreference(b).value, GetDirectoryPreference(b).rest)
  {
    var mode := GetViewMode(b);
    var sort := GetSort(mode.rest);
    var group := GetGroup(sort.rest);
    var columns := GetColumns(group.rest);
    assert b == PutViewMode(mode.value, mode.rest) by { ViewModeCodec(); }
    assert mode.rest == PutSort(sort.value.0, sort.value.1, sort.rest) by { SortCanonical(mode.rest); }
    assert sort.rest == PutGroup(group.value.0, group.value.1, group.rest) by { GroupCanonical(sort.rest); }
    assert group.rest == PutColumns(columns.value, columns.rest) by { ColumnsCodec(); }
  }

  lemma DirectoryPreferenceCodec()
    ensures Codec(PutDirectoryPreference, GetDirectoryPreference, DirectoryPreferenceValid)
  {
    hide PutDirectoryPreference;
    hide GetDirectoryPreference;
    forall p: DirectoryPreference, rest: Bytes | DirectoryPreferenceValid(p)
      ensures GetDirectoryPreference(PutDirectoryPreference(p, rest)) == Good(p, rest)
    {
      DirectoryPreferenceRoundTrip(p, rest);
    }
    forall b: Bytes | GetDirectoryPreference(b).Good?
      ensures DirectoryPreferenceValid(GetDirectoryPreference(b).value)
              && b == PutDirectoryPreference(GetDirectoryPreference(b).value, GetDirectoryPreference(b).rest)
    {
      DirectoryPreferenceCanonical(b);
    }
  }

  function PutSearchPreference(p: SearchPreference, rest: Bytes): Bytes
  {
    PutViewMode(p.viewMode, PutSort(p.sortField, p.sortDirection, PutColumns(p.columns, rest)))
  }

  function GetSearchPreference(b: Bytes): Parsed<SearchPreference>
  {
    var (mode, b1) :- GetViewMode(b);
    var (sort, b2) :- GetSort(b1);
    var (columns, b3) :- GetColumns(b2);
    var value := SearchPreference(mode, sort.0, sort.1, columns);
    if SearchPreferenceValid(value) then Good(value, b3) else Bad
  }

  lemma SearchPreferenceRoundTrip(p: SearchPreference, rest: Bytes)
    requires SearchPreferenceValid(p)
    ensures GetSearchPreference(PutSearchPreference(p, rest)) == Good(p, rest)
  {
    var r2 := PutColumns(p.columns, rest);
    var r1 := PutSort(p.sortField, p.sortDirection, r2);
    assert GetColumns(r2) == Good(p.columns, rest) by { ColumnsCodec(); assert Any(p.columns); }
    assert GetSort(r1) == Good((p.sortField, p.sortDirection), r2) by {
      SortRoundTrip(p.sortField, p.sortDirection, r2);
    }
    assert GetViewMode(PutViewMode(p.viewMode, r1)) == Good(p.viewMode, r1) by { ViewModeCodec(); }
  }

  lemma SearchPreferenceCanonical(b: Bytes)
    requires GetSearchPreference(b).Good?
    ensures SearchPreferenceValid(GetSearchPreference(b).value)
    ensures b == PutSearchPreference(GetSearchPreference(b).value, GetSearchPreference(b).rest)
  {
    var mode := GetViewMode(b);
    var sort := GetSort(mode.rest);
    var columns := GetColumns(sort.rest);
    assert b == PutViewMode(mode.value, mode.rest) by { ViewModeCodec(); }
    assert mode.rest == PutSort(sort.value.0, sort.value.1, sort.rest) by { SortCanonical(mode.rest); }
    assert sort.rest == PutColumns(columns.value, columns.rest) by { ColumnsCodec(); }
  }

  lemma SearchPreferenceCodec()
    ensures Codec(PutSearchPreference, GetSearchPreference, SearchPreferenceValid)
  {
    hide PutSearchPreference;
    hide GetSearchPreference;
    forall p: SearchPreference, rest: Bytes | SearchPreferenceValid(p)
      ensures GetSearchPreference(PutSearchPreference(p, rest)) == Good(p, rest)
    {
      SearchPreferenceRoundTrip(p, rest);
    }
    forall b: Bytes | GetSearchPreference(b).Good?
      ensures SearchPreferenceValid(GetSearchPreference(b).value)
              && b == PutSearchPreference(GetSearchPreference(b).value, GetSearchPreference(b).rest)
    {
      SearchPreferenceCanonical(b);
    }
  }

  predicate DirectoryViewOk(v: DirectoryView)
  {
    UnitsFit(v.path) && DirectoryPreferenceValid(v.preference)
  }

  function PutDirectoryView(v: DirectoryView, rest: Bytes): Bytes
  {
    PutUnits(v.path, PutDirectoryPreference(v.preference, rest))
  }

  function GetDirectoryView(b: Bytes): Parsed<DirectoryView>
  {
    var (path, b1) :- GetUnits(b);
    var (preference, b2) :- GetDirectoryPreference(b1);
    Good(DirectoryView(path, preference), b2)
  }

  lemma DirectoryViewCodec()
    ensures Codec(PutDirectoryView, GetDirectoryView, DirectoryViewOk)
  {
    UnitsCodec();
    DirectoryPreferenceCodec();
    forall b: Bytes | GetDirectoryView(b).Good?
      ensures DirectoryViewOk(GetDirectoryView(b).value)
              && b == PutDirectoryView(GetDirectoryView(b).value, GetDirectoryView(b).rest)
    {
      assert GetUnits(b).Good? && GetDirectoryPreference(GetUnits(b).rest).Good?;
    }
  }
}
