/**
 Turning watcher events into batches and probes into results, as the loops of the source do
 (src/app/directory_watch_refresh.rs:108-117, 146-184, 285-328).
 */
module WatchBatches {
  import opened Prelude
  import opened WatchTypes
  import opened WatchPump

  datatype Change = Added(path: Path) | Removed(path: Path) | Modified(path: Path) | Renamed(from: Path, path: Path)

  datatype Event = Changes(root: Path, changes: seq<Change>) | Overflow(root: Path) | Failed(root: Path)

  function Touched(change: Change): set<Path>
  {
    if change.Renamed? then {change.from, change.path} else {change.path}
  }

  function TouchedBy(changes: seq<Change>): set<Path>
  {
    set i, path | 0 <= i < |changes| && path in Touched(changes[i]) :: path
  }

  /** Paths the events name under a root, and whether one of them lost track. */
  predicate Named(events: seq<Event>, root: Path, path: Path)
  {
    exists i :: 0 <= i < |events| && events[i].root == root && events[i].Changes?
      && path in TouchedBy(events[i].changes)
  }

  predicate Doubtful(events: seq<Event>, root: Path)
  {
    exists i :: 0 <= i < |events| && events[i].root == root && !events[i].Changes?
  }

  predicate Mentioned(events: seq<Event>, root: Path)
  {
    exists i :: 0 <= i < |events| && events[i].root == root
  }

  /** The batch of a root: everything named there. */
  ghost predicate Collects(batch: Batch, events: seq<Event>, root: Path)
  {
    && batch.root == root
    && (forall path :: path in batch.paths <==> Named(events, root, path))
    && (batch.uncertain <==> Doubtful(events, root))
  }

  method AddChanges(batch: Batch, changes: seq<Change>) returns (r: Batch)
    ensures r == batch.(paths := batch.paths + TouchedBy(changes))
  {
    r := batch;
    var i := 0;
    while i < |changes|
      invariant 0 <= i <= |changes|
      invariant r == batch.(paths := batch.paths + TouchedBy(changes[..i]))
    {
      r := r.(paths := r.paths + Touched(changes[i]));
      assert TouchedBy(changes[..i + 1]) == TouchedBy(changes[..i]) + Touched(changes[i]) by {
        TouchedSnoc(changes, i);
      }
      i := i + 1;
    }
    assert changes[..i] == changes;
  }

  lemma TouchedSnoc(changes: seq<Change>, n: nat)
    requires n < |changes|
    ensures TouchedBy(changes[..n + 1]) == TouchedBy(changes[..n]) + Touched(changes[n])
  {
    var a, b := changes[..n], changes[..n + 1];
    forall path | path in TouchedBy(b) ensures path in TouchedBy(a) + Touched(changes[n]) {
      var i :| 0 <= i < |b| && path in Touched(b[i]);
      if i < n {
        assert a[i] == b[i];
      }
    }
    forall path | path in TouchedBy(a) + Touched(changes[n]) ensures path in TouchedBy(b) {
      if path in Touched(changes[n]) {
        assert b[n] == changes[n];
      } else {
        var i :| 0 <= i < |a| && path in Touched(a[i]);
        assert b[i] == a[i];
      }
    }
  }

  /** One more event at the end. */
  lemma EventsSnoc(events: seq<Event>, n: nat, root: Path)
    requires n < |events|
    ensures forall path :: Named(events[..n + 1], root, path) <==>
              Named(events[..n], root, path)
              || (events[n].root == root && events[n].Changes? && path in TouchedBy(events[n].changes))
    ensures Doubtful(events[..n + 1], root)
            <==> Doubtful(events[..n], root) || (events[n].root == root && !events[n].Changes?)
    ensures Mentioned(events[..n + 1], root) <==> Mentioned(events[..n], root) || events[n].root == root
  {
    hide TouchedBy;
    var a, b := events[..n], events[..n + 1];
    assert b[n] == events[n];
    forall path
      ensures Named(b, root, path) <==>
                Named(a, root, path)
                || (events[n].root == root && events[n].Changes? && path in TouchedBy(events[n].changes))
    {
      if Named(a, root, path) {
        var i :| 0 <= i < |a| && a[i].root == root && a[i].Changes? && path in TouchedBy(a[i].changes);
        assert b[i] == a[i];
      }
      if Named(b, root, path) {
        var i :| 0 <= i < |b| && b[i].root == root && b[i].Changes? && path in TouchedBy(b[i].changes);
        assert i < n ==> a[i] == b[i];
      }
    }
    PrefixMentions(events, n, root);
  }

  lemma PrefixMentions(events: seq<Event>, n: nat, root: Path)
    requires n < |events|
    ensures Doubtful(events[..n + 1], root)
            <==> Doubtful(events[..n], root) || (events[n].root == root && !events[n].Changes?)
    ensures Mentioned(events[..n + 1], root) <==> Mentioned(events[..n], root) || events[n].root == root
  {
    var a, b := events[..n], events[..n + 1];
    assert b[n] == events[n];
    if Doubtful(a, root) {
      var i :| 0 <= i < |a| && a[i].root == root && !a[i].Changes?;
      assert b[i] == a[i];
    }
    if Doubtful(b, root) {
      var i :| 0 <= i < |b| && b[i].root == root && !b[i].Changes?;
      assert i < n ==> a[i] == b[i];
    }
    if Mentioned(a, root) {
      var i :| 0 <= i < |a| && a[i].root == root;
      assert b[i] == a[i];
    }
    if Mentioned(b, root) {
      var i :| 0 <= i < |b| && b[i].root == root;
      assert i < n ==> a[i] == b[i];
    }
  }

  /** The first loop of `coalesce`. */
  method GatherEvents(events: seq<Event>) returns (batches: map<Path, Batch>)
    ensures forall root :: root in batches <==> Mentioned(events, root)
    ensures forall root :: root in batches ==> Collects(batches[root], events, root)
  {
    hide TouchedBy, Named, Doubtful, Mentioned;
    batches := map[];
    var i := 0;
    NothingMentioned(events[..0]);
    while i < |events|
      invariant 0 <= i <= |events|
      invariant forall root :: root in batches <==> Mentioned(events[..i], root)
      invariant forall root :: root in batches ==> Collects(batches[root], events[..i], root)
    {
      var event := events[i];
      var batch := if event.root in batches then batches[event.root] else Batch(event.root, {}, false);
      assert Collects(batch, events[..i], event.root) by { UnmentionedIsEmpty(events[..i], event.root); }
      ghost var before := batches;
      if event.Changes? {
        batch := AddChanges(batch, event.changes);
      } else {
        batch := batch.(uncertain := true);
      }
      batches := batches[event.root := batch];
      forall root
        ensures root in batches <==> Mentioned(events[..i + 1], root)
        ensures root in batches ==> Collects(batches[root], events[..i + 1], root)
      {
        EventsSnoc(events, i, root);
      }
      i := i + 1;
    }
    assert events[..i] == events;
  }

  lemma NothingMentioned(events: seq<Event>)
    requires events == []
    ensures forall root :: !Mentioned(events, root)
  {
  }

  lemma UnmentionedIsEmpty(events: seq<Event>, root: Path)
    ensures !Mentioned(events, root) ==> Collects(Batch(root, {}, false), events, root)
  {
  }

  function Kept(batch: Batch): Batch
  {
    batch.(paths := set path | path in batch.paths && !WorkPath(path))
  }

  /**
   One batch for every root with something to say, holding every path named under it outside the scratch
   area, and in doubt exactly if an event lost track there.
   */
  ghost predicate Coalesced(events: seq<Event>, batches: seq<Batch>)
  {
    && (forall i, j :: 0 <= i < j < |batches| ==> batches[i].root != batches[j].root)
    && (forall i, path :: 0 <= i < |batches| ==>
          (path in batches[i].paths <==> Named(events, batches[i].root, path) && !WorkPath(path)))
    && (forall i :: 0 <= i < |batches| ==> (batches[i].uncertain <==> Doubtful(events, batches[i].root)))
    && (forall root, path :: Named(events, root, path) && !WorkPath(path) ==> exists i ::
          0 <= i < |batches| && batches[i].root == root)
    && (forall root :: Doubtful(events, root) ==> exists i :: 0 <= i < |batches| && batches[i].root == root)
    && (forall i :: 0 <= i < |batches| ==> batches[i].uncertain || batches[i].paths != {})
  }

  /** What the events name under a root: the changed path, and both ends of a rename. */
  lemma NamedMeans(events: seq<Event>, root: Path, path: Path)
    ensures Named(events, root, path) <==> exists e, c ::
              e in events && e.Changes? && e.root == root && c in e.changes
              && (c.path == path || (c.Renamed? && c.from == path))
  {
    if Named(events, root, path) {
      var i :| 0 <= i < |events| && events[i].root == root && events[i].Changes?
        && path in TouchedBy(events[i].changes);
      var j :| 0 <= j < |events[i].changes| && path in Touched(events[i].changes[j]);
      assert events[i] in events && events[i].changes[j] in events[i].changes;
    }
    if e, c :| e in events && e.Changes? && e.root == root && c in e.changes
               && (c.path == path || (c.Renamed? && c.from == path))
    {
      var i :| 0 <= i < |events| && events[i] == e;
      var j :| 0 <= j < |e.changes| && e.changes[j] == c;
      assert path in Touched(e.changes[j]);
    }
  }

  /** `coalesce`. */
  method Coalesce(events: seq<Event>) returns (batches: seq<Batch>)
    ensures Coalesced(events, batches)
  {
    hide WorkPath, Named, Doubtful, Mentioned;
    var all := GatherEvents(events);
    var left := all.Keys;
    batches := [];
    while left != {}
      invariant left <= all.Keys
      invariant forall i :: 0 <= i < |batches| ==>
                  && batches[i].root in all.Keys - left
                  && batches[i] == Kept(all[batches[i].root])
                  && (batches[i].uncertain || batches[i].paths != {})
      invariant forall i, j :: 0 <= i < j < |batches| ==> batches[i].root != batches[j].root
      invariant forall root :: root in all.Keys - left && (all[root].uncertain || Kept(all[root]).paths != {}) ==>
                  exists i :: 0 <= i < |batches| && batches[i].root == root
      decreases left
    {
      var root :| root in left;
      left := left - {root};
      var batch := Kept(all[root]);
      if batch.uncertain || batch.paths != {} {
        ghost var before := batches;
        batches := batches + [batch];
        assert batches[|before|].root == root;
        assert forall i :: 0 <= i < |before| ==> batches[i] == before[i];
      }
    }
    NamedIsMentioned(events);
    forall root, path | Named(events, root, path) && !WorkPath(path)
      ensures exists i :: 0 <= i < |batches| && batches[i].root == root
    {
      assert path in Kept(all[root]).paths;
    }
  }

  lemma NamedIsMentioned(events: seq<Event>)
    ensures forall root, path :: Named(events, root, path) ==> Mentioned(events, root)
    ensures forall root :: Doubtful(events, root) ==> Mentioned(events, root)
  {
    hide TouchedBy;
  }

  // ---- probes ----

  lemma ByRootHead(probes: seq<Probe>, root: Path)
    requires probes != []
    ensures ByRoot(probes, root)
            == (if probes[0].watch.batch.root == root then [probes[0]] else []) + ByRoot(probes[1..], root)
  {
  }

  lemma {:induction false} ByRootSnoc(probes: seq<Probe>, p: Probe, root: Path)
    ensures ByRoot(probes + [p], root) == ByRoot(probes, root) + if p.watch.batch.root == root then [p] else []
    decreases |probes|
  {
    if probes == [] {
      assert probes + [p] == [p] && ByRoot([p][1..], root) == [];
    } else {
      ByRootSnoc(probes[1..], p, root);
      ByRootHead(probes, root);
      ByRootHead(probes + [p], root);
      hide ByRoot;
      assert (probes + [p])[1..] == probes[1..] + [p];
    }
  }

  /** `probes_by_root`. */
  method GroupByRoot(probes: seq<Probe>) returns (roots: map<Path, seq<Probe>>)
    ensures forall root :: root in roots <==> ByRoot(probes, root) != []
    ensures forall root :: root in roots ==> roots[root] == ByRoot(probes, root)
  {
    hide ByRoot;
    roots := map[];
    var i := 0;
    assert forall root :: ByRoot(probes[..0], root) == [] by { NoProbesNoGroup(probes[..0]); }
    while i < |probes|
      invariant 0 <= i <= |probes|
      invariant forall root :: root in roots <==> ByRoot(probes[..i], root) != []
      invariant forall root :: root in roots ==> roots[root] == ByRoot(probes[..i], root)
    {
      var root := probes[i].watch.batch.root;
      var group := if root in roots then roots[root] else [];
      roots := roots[root := group + [probes[i]]];
      assert probes[..i + 1] == probes[..i] + [probes[i]];
      forall r
        ensures r in roots <==> ByRoot(probes[..i + 1], r) != []
        ensures r in roots ==> roots[r] == ByRoot(probes[..i + 1], r)
      {
        ByRootSnoc(probes[..i], probes[i], r);
      }
      i := i + 1;
    }
    assert probes[..i] == probes;
  }

  lemma NoProbesNoGroup(probes: seq<Probe>)
    requires probes == []
    ensures forall root :: ByRoot(probes, root) == []
  {
  }

  /** Whether a probe still needs a path when its turn comes, and what the disk says about it then. */
  datatype Disk = Disk(needed: (Probe, Path) -> bool, read: (Path, Visibility) -> Outcome)

  predicate Wanted(probes: seq<Probe>, disk: Disk, path: Path)
  {
    exists i :: 0 <= i < |probes| && path in probes[i].watch.batch.paths && disk.needed(probes[i], path)
  }

  function SampleOf(probes: seq<Probe>, disk: Disk): map<Path, Outcome>
    requires probes != []
  {
    map path | path in AllPaths(probes) && Wanted(probes, disk, path) :: disk.read(path, probes[0].visibility)
  }

  /** A path is read exactly if some probe of the root watches it and still needs it, as the first probe sees files. */
  lemma SampleMeans(probes: seq<Probe>, disk: Disk, path: Path)
    requires probes != []
    ensures path in SampleOf(probes, disk)
       <==> exists p :: p in probes && path in p.watch.batch.paths && disk.needed(p, path)
    ensures path in SampleOf(probes, disk) ==> SampleOf(probes, disk)[path] == disk.read(path, probes[0].visibility)
  {
    if p :| p in probes && path in p.watch.batch.paths && disk.needed(p, path) {
      var i :| 0 <= i < |probes| && probes[i] == p;
      assert Wanted(probes, disk, path);
    }
  }

  method IsWanted(probes: seq<Probe>, disk: Disk, path: Path) returns (wanted: bool)
    ensures wanted <==> Wanted(probes, disk, path)
  {
    var i := 0;
    while i < |probes|
      invariant 0 <= i <= |probes|
      invariant forall j :: 0 <= j < i ==> !(path in probes[j].watch.batch.paths && disk.needed(probes[j], path))
    {
      if path in probes[i].watch.batch.paths && disk.needed(probes[i], path) {
        return true;
      }
      i := i + 1;
    }
    return false;
  }

  /** Reading each wanted path once for all probes of a root. */
  method ReadSample(probes: seq<Probe>, disk: Disk) returns (seen: map<Path, Outcome>)
    requires probes != []
    ensures seen == SampleOf(probes, disk)
  {
    hide AllPaths, Wanted;
    seen := map[];
    var all := AllPaths(probes);
    var left := all;
    while left != {}
      invariant left <= all
      invariant forall path :: path in seen <==> path in all - left && Wanted(probes, disk, path)
      invariant forall path :: path in seen ==> seen[path] == disk.read(path, probes[0].visibility)
      decreases left
    {
      var path :| path in left;
      left := left - {path};
      var wanted := IsWanted(probes, disk, path);
      if wanted {
        seen := seen[path := disk.read(path, probes[0].visibility)];
      }
    }
  }

  method PreviousEntries(probe: Probe) returns (previous: map<Path, Entry>)
    ensures forall path :: path in probe.watch.batch.paths ==>
              Previous(probe.listing.entries, path) == if path in previous then Some(previous[path]) else None
  {
    var entries := probe.listing.entries;
    previous := map[];
    var i := 0;
    while i < |entries|
      invariant 0 <= i <= |entries|
      invariant forall path :: path in probe.watch.batch.paths ==>
                  Previous(entries[..i], path) == if path in previous then Some(previous[path]) else None
    {
      assert entries[..i + 1][..i] == entries[..i];
      if entries[i].path in probe.watch.batch.paths {
        previous := previous[entries[i].path := entries[i]];
      }
      i := i + 1;
    }
    assert entries[..i] == entries;
  }

  method HasChanged(probe: Probe, seen: map<Path, Sight>) returns (changed: bool)
    ensures changed <==> Changed(probe, seen)
  {
    hide SameEntry;
    if probe.watch.batch.uncertain {
      return true;
    }
    var previous := PreviousEntries(probe);
    var left := probe.watch.batch.paths;
    while left != {}
      invariant left <= probe.watch.batch.paths
      invariant forall path :: path in probe.watch.batch.paths - left ==> Agrees(probe, path, seen)
      decreases left
    {
      var path :| path in left;
      left := left - {path};
      var before := if path in previous then Some(previous[path]) else None;
      if path !in seen || seen[path].outcome.Unreadable? || !SameEntry(before, seen[path].outcome.entry) {
        assert !Agrees(probe, path, seen);
        return true;
      }
    }
    return false;
  }

  /** `probe_changes_with` for the probes of one root. */
  method ProbeChanges(probes: seq<Probe>, disk: Disk) returns (results: seq<Result>)
    requires probes != []
    ensures results == Judged(probes, Sights(probes, SampleOf(probes, disk)))
  {
    hide SampleOf, Changed;
    var read := ReadSample(probes, disk);
    var seen := Sights(probes, read);
    results := [];
    var i := 0;
    while i < |probes|
      invariant 0 <= i <= |probes| && |results| == i
      invariant forall j :: 0 <= j < i ==> results[j] == Result(probes[j], Changed(probes[j], seen), seen)
    {
      var changed := HasChanged(probes[i], seen);
      results := results + [Result(probes[i], changed, seen)];
      i := i + 1;
    }
  }

  /** A path that no probe still needed is not read, and then counts as changed. */
  lemma UnreadMeansChanged(probes: seq<Probe>, disk: Disk, i: nat, path: Path)
    requires i < |probes| && path in probes[i].watch.batch.paths && !Wanted(probes, disk, path)
    ensures ProbesResult(probes, disk, i).changed
  {
    hide Wanted;
    assert !Agrees(probes[i], path, Sights(probes, SampleOf(probes, disk)));
  }

  function ProbesResult(probes: seq<Probe>, disk: Disk, i: nat): Result
    requires i < |probes|
  {
    Judged(probes, Sights(probes, SampleOf(probes, disk)))[i]
  }
}
