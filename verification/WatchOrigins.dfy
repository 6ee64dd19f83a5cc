/**
 Nothing is invented: whatever the pump answers for was reported, for a tab that showed its root then.
 */
module WatchOrigins {
  import opened WatchTypes
  import opened WatchPump
  import opened WatchFlights
  import opened WatchDecisions
  import opened WatchConservation

  /** The one step that brings something in. */
  ghost predicate Brought(s: State, l: Label, key: Key, item: Item)
  {
    l.Report? && Brings(s.app, l.batch, key, item)
  }

  lemma DeliverBringsNothing(s: State, key: Key, item: Item)
    requires Truthful(s) && s.deliveries != [] && Tracked(DeliverStep(s), key, item)
    ensures Tracked(s, key, item)
  {
    hide InProbes, InRunning, InCompleted, InResults, InUi, Carries, Honest, AllHonest;
    var t := DeliverStep(s);
    var d := s.deliveries[0];
    if InPending(t.pending, key, item) && !InPending(s.pending, key, item) {
      if d.retry.value.Id() in s.pending {
        MergedCarries(s.pending[d.retry.value.Id()], d.retry.value, item);
      }
      assert d in s.deliveries;
    } else if InDeliveries(t.deliveries, key, item) {
      var e :| e in t.deliveries && e.retry.Some? && e.retry.value.Id() == key && Carries(e.retry.value, item);
      assert e in s.deliveries;
    }
  }

  lemma CollectBringsNothing(s: State, key: Key, item: Item)
    requires s.completed != [] && Tracked(CollectStep(s), key, item)
    ensures Tracked(s, key, item)
  {
    hide InProbes, InRunning, InUi, Carries, InPending, InDeliveries;
    var t := CollectStep(s);
    if InCompleted(t.completed, key, item) {
      var c :| c in t.completed && InResults(c.results, key, item);
      assert c in s.completed;
    } else if InResults(t.posted, key, item) {
      var r :| r in t.posted && r.probe.watch.Id() == key && Carries(r.probe.watch, item);
      if r !in s.posted {
        assert InResults(s.completed[0].results, key, item);
        assert s.completed[0] in s.completed;
      }
    }
  }

  lemma ReportBrings(s: State, batch: Batch, key: Key, item: Item)
    requires Tracked(ReportStep(s, batch), key, item)
    ensures Tracked(s, key, item) || Brings(s.app, batch, key, item)
  {
    hide RenameActive, Renaming, InProbes, InRunning, InUi, InCompleted, InResults, InDeliveries;
    RenamingIs(s.app, batch.root);
    if InPending(ReportStep(s, batch).pending, key, item) && !InPending(s.pending, key, item) {
      if key in s.pending {
        MergedCarries(s.pending[key], ForTab(s, key.tab, batch), item);
      }
    }
  }

  lemma SettleBringsNothing(s: State, k: Key, key: Key, item: Item)
    requires PendingKeyed(s) && k in s.pending && Tracked(SettleStep(s, k), key, item)
    ensures Tracked(s, key, item)
  {
    hide Disposed, InRunning, InUi, Carries, InCompleted, InResults, InDeliveries, Balanced;
    var t := SettleStep(s, k);
    if InProbes(t.ready, key, item) {
      var p :| p in t.ready && p.watch.Id() == key && Carries(p.watch, item);
      if p !in s.ready {
        assert p.watch == s.pending[k];
      }
    }
  }

  lemma SpawnBringsNothing(s: State, root: Path, key: Key, item: Item)
    requires Tracked(SpawnStep(s, root), key, item)
    ensures Tracked(s, key, item)
  {
    hide InPending, InUi, Carries, InCompleted, InResults, InDeliveries, ByRoot, OffRoot;
    var t := SpawnStep(s, root);
    ByRootMembers(s.ready, root);
    OffRootMembers(s.ready, root);
    if InRunning(t.running, key, item) {
      var a :| a in t.running && InProbes(a.probes, key, item);
      if a !in s.running {
        var p :| p in a.probes && p.watch.Id() == key && Carries(p.watch, item);
        assert p in s.ready;
      }
    } else if InProbes(t.ready, key, item) {
      var p :| p in t.ready && p.watch.Id() == key && Carries(p.watch, item);
      assert p in s.ready;
    }
  }

  lemma JudgedBringNothing(probes: seq<Probe>, seen: map<Path, Sight>, key: Key, item: Item)
    requires InResults(Judged(probes, seen), key, item)
    ensures InProbes(probes, key, item)
  {
    hide Carries, Changed;
    var r :| r in Judged(probes, seen) && r.probe.watch.Id() == key && Carries(r.probe.watch, item);
    assert r.probe in probes;
  }

  lemma SampledBringsNothing(s: State, i: nat, seen: map<Path, Outcome>, key: Key, item: Item)
    requires i < |s.running| && s.running[i].probes != [] && Tracked(SampledStep(s, i, seen), key, item)
    ensures Tracked(s, key, item)
  {
    hide InPending, InUi, Carries, InResults, InDeliveries, InProbes, Judged, Sights, Keys;
    var t := SampledStep(s, i, seen);
    if InRunning(t.running, key, item) {
      var a :| a in t.running && InProbes(a.probes, key, item);
      assert a in s.running;
    } else if InCompleted(t.completed, key, item) {
      var c :| c in t.completed && InResults(c.results, key, item);
      if c !in s.completed {
        JudgedBringNothing(s.running[i].probes, Sights(s.running[i].probes, seen), key, item);
        assert s.running[i] in s.running;
      }
    }
  }

  lemma ApplyBringsNothing(s: State, key: Key, item: Item)
    requires s.posted != [] && Tracked(ApplyStep(s), key, item)
    ensures Tracked(s, key, item)
  {
    hide InRunning, InPending, Carries, InCompleted, InProbes, InDeliveries, Disposed, StillCurrent;
    var t := ApplyStep(s);
    if InResults(t.posted, key, item) {
      var r :| r in t.posted && r.probe.watch.Id() == key && Carries(r.probe.watch, item);
      assert r in s.posted;
    } else if InUi(t.ui, key, item) {
      assert s.posted[0] in s.posted;
    }
  }

  lemma FinishBringsNothing(s: State, key: Key, item: Item)
    requires s.ui.Finishing? && Tracked(FinishStep(s), key, item)
    ensures Tracked(s, key, item)
  {
    hide InRunning, InPending, Carries, InCompleted, InProbes, InResults, Refreshed;
    var t := FinishStep(s);
    if InDeliveries(t.deliveries, key, item) {
      var e :| e in t.deliveries && e.retry.Some? && e.retry.value.Id() == key && Carries(e.retry.value, item);
      assert e in s.deliveries || e == t.deliveries[|s.deliveries|];
    }
  }

  lemma StepBrings(s: State, l: Label, key: Key, item: Item)
    requires Flights(s) && Truthful(s) && Enabled(s, l) && Tracked(After(s, l), key, item)
    ensures Tracked(s, key, item) || Brought(s, l, key, item)
  {
    hide Balanced, ReadyFree, RunningFine, CompletedFine, PendingKeyed, Truthful, InRunning, InPending, InCompleted,
         InProbes, InResults;
    hide InDeliveries, Brings;
    hide DeliverStep, CollectStep, ReportStep, SettleStep, SpawnStep, SampledStep, ApplyStep, FinishStep, AllPaths,
         GateAfter;
    match l
    case Deliver => DeliverBringsNothing(s, key, item);
    case Collect => CollectBringsNothing(s, key, item);
    case Report(batch) => ReportBrings(s, batch, key, item);
    case Settle(k) => SettleBringsNothing(s, k, key, item);
    case Spawn(root) => SpawnBringsNothing(s, root, key, item);
    case Sampled(i, seen) => SampledBringsNothing(s, i, seen, key, item);
    case Apply => ApplyBringsNothing(s, key, item);
    case Finish => FinishBringsNothing(s, key, item);
    case Submit(_, _) =>
    case World(_) => case Lock => case Tick(_) => case Unlock => case Rest =>
  }

  ghost predicate BroughtWithin(s: State, labels: seq<Label>, t: State, key: Key, item: Item)
    requires Leads(s, labels, t)
    decreases |labels|
  {
    labels != [] && (Brought(s, labels[0], key, item) || BroughtWithin(After(s, labels[0]), labels[1..], t, key, item))
  }

  lemma {:induction false} RunBrings(s: State, labels: seq<Label>, t: State, key: Key, item: Item)
    requires Flights(s) && Truthful(s) && Leads(s, labels, t) && Tracked(t, key, item)
    ensures Tracked(s, key, item) || BroughtWithin(s, labels, t, key, item)
    decreases |labels|
  {
    hide Flights, Truthful, Enabled, After, Tracked, Brought;
    if labels != [] {
      StepKeepsFlights(s, labels[0]);
      StepKeepsTruthful(s, labels[0]);
      RunBrings(After(s, labels[0]), labels[1..], t, key, item);
      if Tracked(After(s, labels[0]), key, item) {
        StepBrings(s, labels[0], key, item);
      }
    }
  }

  lemma InitialTracksNothing(app: App, key: Key, item: Item)
    ensures !Tracked(Initial(app), key, item)
  {
  }

  /** Whatever the pump answers for at the end of a run from its start was reported on the way. */
  lemma NothingIsInvented(app: App, labels: seq<Label>, t: State, key: Key, item: Item)
    requires Leads(Initial(app), labels, t) && Tracked(t, key, item)
    ensures BroughtWithin(Initial(app), labels, t, key, item)
  {
    hide Tracked, Initial, Flights, Truthful, Leads;
    InitialFlights(app);
    assert Truthful(Initial(app)) by { InitialTruthful(app); }
    InitialTracksNothing(app, key, item);
    RunBrings(Initial(app), labels, t, key, item);
  }
}
