/**
 What the decisions of the pump come to, in terms of what a tab shows and does: when a watched change
 is dropped, waits, is left to an operation or is looked at, and what becomes of a probe's result.
 */
module WatchDecisions {
  import opened Prelude
  import opened WatchTypes
  import opened WatchPump

  /** The tab is there, is not cancelled, and shows the root. */
  ghost predicate Stays(app: App, key: Key)
  {
    && key.tab in app.tabs
    && !app.tabs[key.tab].cancelled && app.tabs[key.tab].directory && app.tabs[key.tab].visible == Some(key.root)
  }

  ghost predicate Busy(app: App, key: Key)
    requires key.tab in app.tabs
  {
    app.tabs[key.tab].load in {Loading, Partial}
  }

  /** The tab shows the root but is loading another place, asked for after the watch was observed. */
  ghost predicate Departs(app: App, key: Key, observed: nat)
  {
    Stays(app, key) && Busy(app, key) && app.tabs[key.tab].latest != observed
    && app.tabs[key.tab].navigation in {NormalNavigation, Back, Forward}
  }

  /** A rename is under way that takes something out of the root or puts something into it. */
  ghost predicate Renaming(app: App, root: Path)
  {
    exists t, name :: t in app.tasks && t.rename && t.active && root + [Normal(name)] in t.touched
  }

  /** An operation works in the root and will refresh it when it ends. */
  ghost predicate TakenOver(app: App, root: Path)
  {
    root in app.operations && !Renaming(app, root)
  }

  ghost predicate Concerns(app: App, key: Key, observed: nat)
  {
    Stays(app, key) && !Departs(app, key, observed)
  }

  lemma RenamingIs(app: App, root: Path)
    ensures RenameActive(app, root) <==> Renaming(app, root)
  {
    if RenameActive(app, root) {
      var i, j :| 0 <= i < |app.tasks| && app.tasks[i].rename && app.tasks[i].active
        && 0 <= j < |app.tasks[i].touched| && Parent(app.tasks[i].touched[j]) == Some(root);
      var path := app.tasks[i].touched[j];
      assert path == root + [Normal(path[|path| - 1].text)];
      assert app.tasks[i] in app.tasks;
    }
    if t, name :| t in app.tasks && t.rename && t.active && root + [Normal(name)] in t.touched {
      var path := root + [Normal(name)];
      var i :| 0 <= i < |app.tasks| && app.tasks[i] == t;
      var j :| 0 <= j < |t.touched| && t.touched[j] == path;
      assert path[..|path| - 1] == root;
      assert Parent(app.tasks[i].touched[j]) == Some(root);
    }
  }

  /**
   The four decisions: a change is dropped exactly if its tab no longer shows the root or is leaving it;
   left to an operation exactly if one has taken the root over; it waits while a rename is under way or
   the tab is loading; else the disk is read. A tab that stays and is idle never loses a change.
   */
  lemma DecisionsMean(app: App, watch: Watch)
    ensures var key, root := watch.Id(), watch.batch.root;
            && (Disposed(app, watch) == Drop <==> !Concerns(app, key, watch.observed))
            && (Disposed(app, watch) == DeferredOperation <==>
                  Concerns(app, key, watch.observed) && TakenOver(app, root))
            && (Disposed(app, watch) == Wait <==>
                  && Concerns(app, key, watch.observed)
                  && (if root in app.operations then Renaming(app, root) else Busy(app, key)))
            && (Disposed(app, watch) == ProbeIt <==>
                  Concerns(app, key, watch.observed) && root !in app.operations && !Busy(app, key))
  {
    RenamingIs(app, watch.batch.root);
    hide RenameActive, Renaming;
  }

  /** Whatever the watch was observed at, a tab that stays on the root and is idle or refreshing keeps its change. */
  lemma StayingKeeps(app: App, watch: Watch)
    requires Stays(app, watch.Id())
    requires app.tabs[watch.tab].load !in {Loading, Partial}
             || app.tabs[watch.tab].navigation in {Refresh, BackgroundRefresh}
    ensures Disposed(app, watch) != Drop
  {
    DecisionsMean(app, watch);
  }

  // ---- comparing entries ----

  /**
   The read found what is listed: neither exists, or both are the same in every field but the open
   target, where a listed shortcut counts as a file.
   */
  ghost predicate Unchanged(listed: Option<Entry>, read: Option<Entry>)
  {
    match (listed, read)
    case (None, None) => true
    case (Some(p), Some(c)) =>
      p.(kind := if p.openTarget.Some? then FileEntry else p.kind, openTarget := None) == c.(openTarget := None)
    case (_, _) => false
  }

  lemma SameIsUnchanged(listed: Option<Entry>, read: Option<Entry>)
    ensures SameEntry(listed, read) <==> Unchanged(listed, read)
  {
  }

  /** The last entry under the path is the listed one. */
  lemma {:induction false} PreviousIsLast(entries: seq<Entry>, path: Path)
    ensures Previous(entries, path).None? <==> forall i :: 0 <= i < |entries| ==> entries[i].path != path
    ensures Previous(entries, path).Some? ==>
              exists i :: 0 <= i < |entries| && entries[i] == Previous(entries, path).value && entries[i].path == path
                          && forall j :: i < j < |entries| ==> entries[j].path != path
    decreases |entries|
  {
    if entries != [] {
      var init := entries[..|entries| - 1];
      PreviousIsLast(init, path);
      assert forall i :: 0 <= i < |init| ==> init[i] == entries[i];
    }
  }

  /** The read of the path agrees with what the probe's listing has there. */
  ghost predicate Confirms(probe: Probe, seen: map<Path, Sight>, path: Path)
  {
    path in seen && seen[path].outcome.Found?
    && Unchanged(Previous(probe.listing.entries, path), seen[path].outcome.entry)
  }

  /** A probe reports no change exactly if nothing is in doubt and the disk confirms each of its paths. */
  lemma ChangedMeans(probe: Probe, seen: map<Path, Sight>)
    ensures !Changed(probe, seen)
       <==> && !probe.watch.batch.uncertain
            && forall path :: path in probe.watch.batch.paths ==> Confirms(probe, seen, path)
  {
    hide SameEntry, Unchanged;
    forall path ensures Agrees(probe, path, seen) <==> Confirms(probe, seen, path) {
      if path in seen && seen[path].outcome.Found? {
        SameIsUnchanged(Previous(probe.listing.entries, path), seen[path].outcome.entry);
      }
    }
  }

  // ---- the result of a probe ----

  /** Since the probe was prepared the tab got no other request, listing or visibility. */
  ghost predicate Untouched(app: App, probe: Probe)
  {
    && probe.watch.tab in app.tabs
    && app.tabs[probe.watch.tab].latest == probe.request && app.tabs[probe.watch.tab].listing == probe.listing
    && app.visibility == probe.visibility
  }

  /**
   A result whose tab would be probed again is used exactly if nothing was touched since: a refresh is
   asked for exactly if it reports a change. While its tab is busy or was touched it is tried again.
   */
  lemma ResultsMean(app: App, r: Result)
    ensures var watch := r.probe.watch;
            var again := Disposed(app, watch) == ProbeIt;
            && (Decided(app, r) == Submitting(r) <==> again && Untouched(app, r.probe) && r.changed)
            && (Decided(app, r) == Finishing(r, Some(watch))
                <==> Disposed(app, watch) == Wait || (again && !Untouched(app, r.probe)))
            && (Decided(app, r) == Finishing(r, None) <==>
                  Disposed(app, watch) in {Drop, DeferredOperation}
                  || (again && Untouched(app, r.probe) && !r.changed))
  {
  }

  /** A probe records what its result is checked against. */
  lemma PreparedUntouched(app: App, watch: Watch)
    requires watch.tab in app.tabs
    ensures Untouched(app, Prepared(app, watch)) && Prepared(app, watch).watch == watch
  {
  }

  /**
   When the delivery of a finished result is taken, its key is closed at the gate exactly if the result
   reported a change, was not sent back, and the tab is on a background refresh newer than the probe.
   */
  lemma RefreshClosesGate(s: State)
    requires s.ui.Finishing? && s.deliveries == []
    ensures var r := s.ui.result;
            var key := r.probe.watch.Id();
            var t := DeliverStep(FinishStep(s));
            && (forall k :: k != key ==> (k in t.gate <==> k in s.gate) && (k in s.gate ==> t.gate[k] == s.gate[k]))
            && (if r.changed && s.ui.retry.None? && key.tab in s.app.tabs
                   && s.app.tabs[key.tab].latest != r.probe.request
                   && s.app.tabs[key.tab].navigation == BackgroundRefresh
                then key in t.gate && t.gate[key] == None
                else t.gate == s.gate)
  {
    hide MergePending;
  }

  /** The root a step leaves to an operation, if it does. */
  ghost function Claimed(s: State, l: Label): set<Path>
    requires Enabled(s, l)
  {
    match l
    case Report(batch) => if TakenOver(s.app, batch.root) then {batch.root} else {}
    case Settle(key) => ClaimedBy(s.app, s.pending[key])
    case Apply => ClaimedBy(s.app, s.posted[0].probe.watch)
    case _ => {}
  }

  ghost function ClaimedBy(app: App, watch: Watch): set<Path>
  {
    if Concerns(app, watch.Id(), watch.observed) && TakenOver(app, watch.batch.root) then {watch.batch.root} else {}
  }

  /** The pump changes nothing in the application but the set of deferred roots, and that exactly where it must. */
  lemma DefersTakenOver(s: State, l: Label)
    requires Enabled(s, l) && !l.World? && !l.Submit?
    ensures After(s, l).app == s.app.(deferred := s.app.deferred + Claimed(s, l))
  {
    hide Concerns, Renaming, RenameActive;
    if l.Report? {
      RenamingIs(s.app, l.batch.root);
    } else if l.Settle? {
      DecisionsMean(s.app, s.pending[l.key]);
    } else if l.Apply? {
      DecisionsMean(s.app, s.posted[0].probe.watch);
    }
  }

  // ---- scratch files ----

  /** The scratch name of directory operations, in any mixture of ASCII capitals. */
  ghost predicate Scratch(text: string)
  {
    |text| == |WORK_ROOT|
    && forall i :: 0 <= i < |text| ==>
         text[i] == WORK_ROOT[i] || ('A' <= text[i] <= 'Z' && text[i] as int == WORK_ROOT[i] as int - 32)
  }

  lemma WorkPathsAreScratch(path: Path)
    ensures WorkPath(path) <==> exists i :: 0 <= i < |path| && Scratch(path[i].text)
  {
    assert forall i :: 0 <= i < |WORK_ROOT| ==> LowerAscii(WORK_ROOT[i]) == WORK_ROOT[i];
    forall i | 0 <= i < |path| ensures SameIgnoringCase(path[i].text, WORK_ROOT) <==> Scratch(path[i].text) {
      assert forall c: char, d: char :: LowerAscii(c) == d && LowerAscii(d) == d <==>
               LowerAscii(d) == d && (c == d || ('A' <= c <= 'Z' && c as int == d as int - 32));
    }
  }
}
