/**
 What a session file stores (src/session_store.rs, crates/domain/src/lib.rs, crates/domain/src/network.rs).
 Paths are OS strings, that is unit sequences; text is a string of Unicode scalar values.
 */
module SessionTypes {
  import opened Prelude
  import opened SessionBytes

  datatype ThemeMode = System | Light | Dark
  datatype Language = Chinese | English
  datatype SortField = ByName | ByKind | BySize | ByModified | ByCreated
  datatype SortDirection = Ascending | Descending
  datatype GroupField = NoGroup | GroupName | GroupModified | GroupCreated | GroupKind | GroupSize
  datatype ColumnKind = NameColumn | KindColumn | SizeColumn | ModifiedColumn | CreatedColumn
  datatype ViewMode = Details | List | Icons(size: u16) | Tiles | Content

  const COLUMNS: nat := 5
  const MIN_COLUMN_WIDTH: nat := 64
  const MAX_COLUMN_WIDTH: nat := 4_096

  datatype Columns = Columns(order: seq<ColumnKind>, widths: seq<u32>, visible: seq<bool>)

  type ColumnLayout = c: Columns | |c.order| == |c.widths| == |c.visible| == COLUMNS
    witness Columns([NameColumn, ModifiedColumn, KindColumn, SizeColumn, CreatedColumn],
                    [480, 160, 120, 200, 200], [true, true, true, true, false])

  datatype DirectoryPreference = DirectoryPreference(
    viewMode: ViewMode,
    sortField: SortField,
    sortDirection: SortDirection,
    groupField: GroupField,
    groupDirection: SortDirection,
    columns: ColumnLayout)

  datatype SearchPreference = SearchPreference(
    viewMode: ViewMode,
    sortField: SortField,
    sortDirection: SortDirection,
    columns: ColumnLayout)

  datatype DirectoryView = DirectoryView(path: Units, preference: DirectoryPreference)

  datatype Everything = Everything(
    executablePath: Option<Units>,
    instanceName: string,
    verifiedVersion: Option<string>,
    allowLaunch: bool)

  datatype FileVisibility = FileVisibility(showHidden: bool, showSystem: bool)

  type Sidebar = v: seq<bool> | |v| == 5 witness [true, false, true, true, true]

  datatype Settings = Settings(
    theme: ThemeMode,
    language: Language,
    everything: Everything,
    visibility: FileVisibility,
    fileListQuickSearch: bool,
    newTabOpensHome: bool,
    quickMenuBackdrop: bool,
    quickMenuBackdropOpacity: byte,
    sidebar: Sidebar)

  datatype LocationSource = WindowsImported | AsterOwned

  datatype WebDavConnection = WebDavConnection(
    connectionId: u64,
    revision: u64,
    https: bool,
    host: string,
    port: u16,
    root: string,
    username: string)

  datatype NetworkTarget =
    | WindowsPath(path: Units)
    | ShellItemId(path: Units)
    | WebDavTarget(connection: WebDavConnection)

  datatype NetworkLocation = NetworkLocation(
    id: u64,
    source: LocationSource,
    displayName: string,
    sortOrder: u32,
    target: NetworkTarget,
    shellPath: Option<Units>)

  datatype NetworkDevice = NetworkDevice(
    id: Units,
    displayName: string,
    shellIdentity: Option<Bytes>,
    uncPath: Option<Units>)

  datatype NavigationLocation =
    | Home
    | Directory(path: Units)
    | Library(identity: Units, displayName: string)
    | WebDavPlace(connectionId: u64, revision: u64, root: string, davPath: string)

  datatype Placement = Placement(x: i32, y: i32, width: u32, height: u32)

  datatype Window = Window(placement: Placement, activeTab: nat, tabs: seq<NavigationLocation>)

  datatype Session = Session(
    windows: seq<Window>,
    defaultView: DirectoryPreference,
    searchView: SearchPreference,
    directoryViews: seq<DirectoryView>,
    settings: Settings,
    locations: seq<NetworkLocation>,
    devices: seq<NetworkDevice>)

  // ---- storage codes ----

  function ThemeCode(v: ThemeMode): byte { match v case System => 0 case Light => 1 case Dark => 2 }

  function ThemeFrom(code: byte): Option<ThemeMode>
  {
    if code == 0 then Some(System) else if code == 1 then Some(Light) else if code == 2 then Some(Dark) else None
  }

  function LanguageCode(v: Language): byte { match v case Chinese => 0 case English => 1 }

  function LanguageFrom(code: byte): Option<Language>
  {
    if code == 0 then Some(Chinese) else if code == 1 then Some(English) else None
  }

  function SortFieldCode(v: SortField): byte
  {
    match v case ByName => 0 case ByKind => 1 case BySize => 2 case ByModified => 3 case ByCreated => 4
  }

  function SortFieldFrom(code: byte): Option<SortField>
  {
    if code == 0 then Some(ByName) else if code == 1 then Some(ByKind) else if code == 2 then Some(BySize)
    else if code == 3 then Some(ByModified) else if code == 4 then Some(ByCreated) else None
  }

  function DirectionCode(v: SortDirection): byte { match v case Ascending => 0 case Descending => 1 }

  function DirectionFrom(code: byte): Option<SortDirection>
  {
    if code == 0 then Some(Ascending) else if code == 1 then Some(Descending) else None
  }

  function GroupFieldCode(v: GroupField): byte
  {
    match v
    case NoGroup => 0 case GroupName => 1 case GroupModified => 2 case GroupCreated => 3 case GroupKind => 4
      case GroupSize => 5
  }

  function GroupFieldFrom(code: byte): Option<GroupField>
  {
    if code == 0 then Some(NoGroup) else if code == 1 then Some(GroupName) else if code == 2 then Some(GroupModified)
    else if code == 3 then Some(GroupCreated) else if code == 4 then Some(GroupKind) else if code == 5
      then Some(GroupSize) else None
  }

  function ColumnCode(v: ColumnKind): byte
  {
    match v case NameColumn => 0 case KindColumn => 1 case SizeColumn => 2 case ModifiedColumn => 3
      case CreatedColumn => 4
  }

  function ColumnFrom(code: byte): Option<ColumnKind>
  {
    if code == 0 then Some(NameColumn) else if code == 1 then Some(KindColumn) else if code == 2 then Some(SizeColumn)
    else if code == 3 then Some(ModifiedColumn) else if code == 4 then Some(CreatedColumn) else None
  }

  function ViewCode(v: ViewMode): byte
  {
    match v
    case Details => 0
    case List => 1
    case Icons(size) => if size == 16 then 3 else if 17 <= size <= 95 then 2 else if 96 <= size <= 255 then 4 else 5
    case Tiles => 6
    case Content => 7
  }

  function ViewFrom(code: byte): Option<ViewMode>
  {
    if code == 0 then Some(Details) else if code == 1 then Some(List) else if code == 2 then Some(Icons(48))
    else if code == 3 then Some(Icons(16)) else if code == 4 then Some(Icons(96)) else if code == 5
      then Some(Icons(256))
    else if code == 6 then Some(Tiles) else if code == 7 then Some(Content) else None
  }

  function IconSize(v: ViewMode): u16 { if v.Icons? then v.size else 0 }

  predicate ViewValid(v: ViewMode) { v.Icons? ==> 16 <= v.size <= 256 }

  /** `ColumnLayout::is_valid`: a permutation, the name column shown, widths in range. */
  predicate ColumnsValid(c: ColumnLayout)
  {
    && (forall i, j :: 0 <= i < j < COLUMNS ==> c.order[i] != c.order[j])
    && c.visible[0]
    && (forall i :: 0 <= i < COLUMNS ==> MIN_COLUMN_WIDTH <= c.widths[i] <= MAX_COLUMN_WIDTH)
  }

  predicate DirectoryPreferenceValid(p: DirectoryPreference) { ViewValid(p.viewMode) && ColumnsValid(p.columns) }

  predicate SearchPreferenceValid(p: SearchPreference) { ViewValid(p.viewMode) && ColumnsValid(p.columns) }

  /** `SidebarVisibility::storage_bits`. */
  function SidebarBits(v: Sidebar): byte
  {
    (if v[0] then 1 else 0) + (if v[1] then 2 else 0) + (if v[2] then 4 else 0) + (if v[3] then 8 else 0)
    + if v[4] then 16 else 0
  }

  function SidebarFrom(bits: byte): Option<Sidebar>
  {
    if bits >= 32 then None
    else Some([bits % 2 == 1, bits / 2 % 2 == 1, bits / 4 % 2 == 1, bits / 8 % 2 == 1, bits / 16 % 2 == 1])
  }
}
