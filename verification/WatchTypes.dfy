/**
 What the directory watch refresh looks at: tabs, operations, watched batches and probes, and the
 decisions it takes on them (src/app/directory_watch_refresh.rs, crates/domain/src/lib.rs).
 */
module WatchTypes {
  import opened Prelude

  // ---- paths ----

  datatype Component = Anchor(text: string) | Normal(text: string)

  type Path = seq<Component>

  function Parent(path: Path): Option<Path>
  {
    if path != [] && path[|path| - 1].Normal? then Some(path[..|path| - 1]) else None
  }

  function LowerAscii(c: char): char
  {
    if 'A' <= c <= 'Z' then (c as int + 32) as char else c
  }

  predicate SameIgnoringCase(a: string, b: string)
  {
    |a| == |b| && forall i :: 0 <= i < |a| ==> LowerAscii(a[i]) == LowerAscii(b[i])
  }

  const WORK_ROOT := ".asterfiles-directory"

  /** `is_directory_work_path`: the scratch area of directory operations, anywhere in the path. */
  predicate WorkPath(path: Path)
  {
    exists i :: 0 <= i < |path| && SameIgnoringCase(path[i].text, WORK_ROOT)
  }

  // ---- the application, as far as the pump reads it ----

  datatype Kind = DirectoryEntry | FileEntry | OtherEntry

  datatype Entry = Entry(
    path: Path,
    name: string,
    kind: Kind,
    openTarget: Option<Path>,
    size: Option<nat>,
    modified: Option<nat>,
    created: Option<nat>)

  /** A tab's entry list; `identity` is the shared allocation that `Arc::ptr_eq` compares. */
  datatype Listing = Listing(identity: nat, entries: seq<Entry>)

  datatype Navigation = NormalNavigation | Back | Forward | Refresh | BackgroundRefresh

  datatype LoadState = Idle | Loading | Partial | Complete | Stopped

  datatype Tab = Tab(
    latest: nat,
    cancelled: bool,
    directory: bool,
    visible: Option<Path>,
    load: LoadState,
    navigation: Navigation,
    listing: Listing)

  datatype Task = Task(rename: bool, active: bool, touched: seq<Path>)   // sources and destinations of its items

  datatype Visibility = Visibility(hidden: bool, system: bool)

  datatype App = App(
    tabs: map<nat, Tab>,
    operations: set<Path>,          // active_operation_directories
    tasks: seq<Task>,
    deferred: set<Path>,            // deferred_watch_directories
    visibility: Visibility)

  // ---- watched changes and probes ----

  datatype Key = Key(tab: nat, root: Path)

  datatype Batch = Batch(root: Path, paths: set<Path>, uncertain: bool)

  datatype Watch = Watch(tab: nat, observed: nat, batch: Batch) {
    function Id(): Key { Key(tab, batch.root) }
  }

  datatype Probe = Probe(watch: Watch, request: nat, visibility: Visibility, listing: Listing)

  // What one metadata read said, and under which visibility it was made.
  datatype Outcome = Found(entry: Option<Entry>) | Unreadable

  datatype Sight = Sight(visibility: Visibility, outcome: Outcome)

  // `seen` is what the sample read for the probe; the source drops it after computing `changed`.
  datatype Result = Result(probe: Probe, changed: bool, seen: map<Path, Sight>)

  datatype Delivery = Delivery(key: Key, retry: Option<Watch>, refreshed: bool)

  // ---- decisions ----

  predicate IsLoading(tab: Tab)
  {
    tab.load.Loading? || tab.load.Partial?
  }

  predicate Shows(tab: Tab, root: Path)
  {
    tab.directory && tab.visible == Some(root)
  }

  predicate RenameActive(app: App, root: Path)
  {
    exists i :: 0 <= i < |app.tasks| && app.tasks[i].rename && app.tasks[i].active
                && exists j :: 0 <= j < |app.tasks[i].touched| && Parent(app.tasks[i].touched[j]) == Some(root)
  }

  /** A change seen at request `observed` no longer concerns this tab: it left the root, or is leaving it. */
  predicate Gone(app: App, key: Key, observed: nat)
  {
    || key.tab !in app.tabs
    || (var tab := app.tabs[key.tab];
        || tab.cancelled
        || !Shows(tab, key.root)
        || (tab.latest != observed && IsLoading(tab) && !tab.navigation.Refresh? && !tab.navigation.BackgroundRefresh?))
  }

  /** An operation on the root that refreshes it itself when it ends. */
  predicate OwnedByOperation(app: App, root: Path)
  {
    root in app.operations && !RenameActive(app, root)
  }

  datatype Disposition = Drop | Wait | DeferredOperation | ProbeIt

  /** `disposition`. */
  function Disposed(app: App, watch: Watch): Disposition
  {
    if Gone(app, watch.Id(), watch.observed) then Drop
    else if watch.batch.root in app.operations then
      if RenameActive(app, watch.batch.root) then Wait else DeferredOperation
    else if IsLoading(app.tabs[watch.tab]) then Wait
    else ProbeIt
  }

  function Prepared(app: App, watch: Watch): Probe
    requires watch.tab in app.tabs
  {
    var tab := app.tabs[watch.tab];
    Probe(watch, tab.latest, app.visibility, tab.listing)
  }

  /** The tab still shows exactly what the probe was prepared from. */
  predicate StillCurrent(app: App, probe: Probe)
  {
    && probe.watch.tab in app.tabs
    && app.tabs[probe.watch.tab].latest == probe.request
    && app.visibility == probe.visibility
    && app.tabs[probe.watch.tab].listing == probe.listing
  }

  // ---- comparing a disk read with the listing ----

  predicate SameEntry(previous: Option<Entry>, current: Option<Entry>)
  {
    match (previous, current)
    case (None, None) => true
    case (Some(p), Some(c)) =>
      p.path == c.path && p.name == c.name && (if p.openTarget.Some? then FileEntry else p.kind) == c.kind
      && p.size == c.size && p.modified == c.modified && p.created == c.created
    case (_, _) => false
  }

  /** The entry a listing has under a path; the last one if there are several. */
  function Previous(entries: seq<Entry>, path: Path): Option<Entry>
  {
    if entries == [] then None
    else if entries[|entries| - 1].path == path then Some(entries[|entries| - 1])
    else Previous(entries[..|entries| - 1], path)
  }

  predicate Agrees(probe: Probe, path: Path, seen: map<Path, Sight>)
  {
    path in seen && seen[path].outcome.Found?
      && SameEntry(Previous(probe.listing.entries, path), seen[path].outcome.entry)
  }

  /** A probe reports a change when in doubt, or when some path was not read or reads differently. */
  predicate Changed(probe: Probe, seen: map<Path, Sight>)
  {
    probe.watch.batch.uncertain || exists path :: path in probe.watch.batch.paths && !Agrees(probe, path, seen)
  }

  // ---- items a watch carries ----

  datatype Item = At(path: Path) | Doubt

  predicate Carries(watch: Watch, item: Item)
  {
    match item case At(path) => path in watch.batch.paths case Doubt => watch.batch.uncertain
  }

  /** `merge_pending` on two watches of one key. */
  function MergedWatch(a: Watch, b: Watch): Watch
  {
    Watch(a.tab, if a.observed < b.observed then b.observed else a.observed,
          Batch(a.batch.root, a.batch.paths + b.batch.paths, a.batch.uncertain || b.batch.uncertain))
  }

  function MergePending(pending: map<Key, Watch>, watch: Watch): map<Key, Watch>
  {
    pending[watch.Id() := if watch.Id() in pending then MergedWatch(pending[watch.Id()], watch) else watch]
  }
}
