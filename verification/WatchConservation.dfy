/**
 Nothing reported is forgotten: a path (or a doubt) stays with the pump until its tab leaves the
 root, an operation takes the root over, a refresh is asked for, or a disk read agrees with what the
 tab still shows.
 */
module WatchConservation {
  import opened Prelude
  import opened WatchTypes
  import opened WatchPump
  import opened WatchFlights
  import opened WatchDecisions

  // ---- where watches are ----

  predicate InProbes(probes: seq<Probe>, key: Key, item: Item)
  {
    exists p :: p in probes && p.watch.Id() == key && Carries(p.watch, item)
  }

  predicate InResults(results: seq<Result>, key: Key, item: Item)
  {
    exists r :: r in results && r.probe.watch.Id() == key && Carries(r.probe.watch, item)
  }

  predicate InPending(pending: map<Key, Watch>, key: Key, item: Item)
  {
    key in pending && Carries(pending[key], item)
  }

  predicate InRunning(running: seq<Sample>, key: Key, item: Item)
  {
    exists s :: s in running && InProbes(s.probes, key, item)
  }

  predicate InCompleted(completed: seq<Completed>, key: Key, item: Item)
  {
    exists c :: c in completed && InResults(c.results, key, item)
  }

  predicate InUi(ui: Ui, key: Key, item: Item)
  {
    match ui
    case Free => false
    case Submitting(r) => r.probe.watch.Id() == key && Carries(r.probe.watch, item)
    case Finishing(_, retry) => retry.Some? && retry.value.Id() == key && Carries(retry.value, item)
  }

  predicate InDeliveries(deliveries: seq<Delivery>, key: Key, item: Item)
  {
    exists d :: d in deliveries && d.retry.Some? && d.retry.value.Id() == key && Carries(d.retry.value, item)
  }

  /** The pump still answers for this item of this tab and root. */
  predicate Tracked(s: State, key: Key, item: Item)
  {
    || InPending(s.pending, key, item) || InProbes(s.ready, key, item) || InRunning(s.running, key, item)
    || InCompleted(s.completed, key, item) || InResults(s.posted, key, item) || InUi(s.ui, key, item)
    || InDeliveries(s.deliveries, key, item)
  }

  // ---- results are honest ----

  ghost predicate Honest(r: Result)
  {
    && (r.changed <==> Changed(r.probe, r.seen))
    && (forall path :: path in r.seen ==> r.seen[path].visibility == r.probe.visibility)
  }

  ghost predicate AllHonest(results: seq<Result>)
  {
    forall i :: 0 <= i < |results| ==> Honest(results[i])
  }

  /** A delivery sends back the watch of the probe it frees. */
  ghost predicate OwnRetries(deliveries: seq<Delivery>)
  {
    forall d :: d in deliveries && d.retry.Some? ==> d.retry.value.Id() == d.key
  }

  ghost predicate Truthful(s: State)
  {
    && OwnRetries(s.deliveries)
    && (s.ui.Finishing? && s.ui.retry.Some? ==> s.ui.retry.value == s.ui.result.probe.watch)
    && AllHonest(s.posted)
    && (forall i :: 0 <= i < |s.completed| ==> AllHonest(s.completed[i].results))
    && (!s.ui.Free? ==> Honest(s.ui.result))
    && (s.ui.Submitting? ==> s.ui.result.changed)
  }

  lemma JudgedHonest(sample: Sample, seen: map<Path, Outcome>)
    requires SampleFine(sample)
    ensures AllHonest(Judged(sample.probes, Sights(sample.probes, seen)))
  {
    hide Changed;
  }

  lemma SampledTruthful(s: State, i: nat, seen: map<Path, Outcome>)
    requires Truthful(s) && RunningFine(s) && OutsideEnabled(s, Sampled(i, seen))
    ensures Truthful(SampledStep(s, i, seen))
  {
    hide Honest, Judged, Sights, Keys, AllPaths;
    JudgedHonest(s.running[i], seen);
  }

  lemma CollectTruthful(s: State)
    requires Truthful(s) && s.completed != []
    ensures Truthful(CollectStep(s))
  {
    hide Honest;
  }

  lemma ApplyTruthful(s: State)
    requires Truthful(s) && s.posted != []
    ensures Truthful(ApplyStep(s))
  {
    hide Honest, Disposed, StillCurrent;
  }

  lemma StepKeepsTruthful(s: State, l: Label)
    requires Flights(s) && Truthful(s) && Enabled(s, l)
    ensures Truthful(After(s, l))
  {
    hide Balanced, ReadyFree, PendingKeyed, CompletedFine, SampleFine, Honest, AllHonest;
    hide SampledStep, CollectStep, ApplyStep, Refreshed, GateAfter, Disposed, MustWait, MergePending;
    hide OwnedByOperation, Reported, ByRoot, OffRoot, AllPaths;
    match l
    case Sampled(i, seen) => SampledTruthful(s, i, seen);
    case Collect => CollectTruthful(s);
    case Apply => ApplyTruthful(s);
    case Deliver => case Report(_) => case Settle(_) => case Spawn(_) => case Submit(_, _) => case Finish =>
    case World(_) => case Lock => case Tick(_) => case Unlock => case Rest =>
  }

  // ---- ways to be released ----

  /**
   The tab still shows `path` as some read of the disk found it, made for this probe and under the tab's
   visibility.
   */
  ghost predicate ReadAgrees(app: App, r: Result, path: Path)
  {
    && r.probe.watch.tab in app.tabs
    && path in r.seen && r.seen[path].visibility == app.visibility && r.seen[path].outcome.Found?
    && Unchanged(Previous(app.tabs[r.probe.watch.tab].listing.entries, path), r.seen[path].outcome.entry)
  }

  /** Between `s` and `t` a watch of the key is let go: its tab left, or its root is deferred to an operation. */
  ghost predicate LetGo(s: State, t: State, key: Key, observed: nat)
  {
    || !Stays(s.app, key)
    || Departs(s.app, key, observed)
    || (TakenOver(s.app, key.root) && key.root in t.app.deferred)
  }

  /** The one step that may end the pump's responsibility, and why. */
  ghost predicate Excused(s: State, l: Label, key: Key, item: Item)
    requires Enabled(s, l)
  {
    match l
    case Settle(k) => k == key && LetGo(s, After(s, l), key, s.pending[key].observed)
    case Apply =>
      var r := s.posted[0];
      && r.probe.watch.Id() == key
      && (|| LetGo(s, After(s, l), key, r.probe.watch.observed)
          || (item.At? && ReadAgrees(s.app, r, item.path)))
    case Submit(_, _) =>
      var r := s.ui.result;
      r.probe.watch.Id() == key
      && (r.probe.watch.batch.uncertain
          || exists path :: path in r.probe.watch.batch.paths && !Confirms(r.probe, r.seen, path))
    case _ => false
  }

  // ---- every step keeps or excuses ----

  lemma MergedCarries(a: Watch, b: Watch, item: Item)
    ensures Carries(MergedWatch(a, b), item) <==> Carries(a, item) || Carries(b, item)
  {
  }

  /** Merging keeps what both watches carry, observed at the newer of their requests. */
  lemma MergeKeeps(pending: map<Key, Watch>, watch: Watch, key: Key, item: Item)
    requires InPending(pending, key, item) || (watch.Id() == key && Carries(watch, item))
    ensures InPending(MergePending(pending, watch), key, item)
    ensures var now := MergePending(pending, watch)[watch.Id()].observed;
            && now >= watch.observed && (watch.Id() in pending ==> now >= pending[watch.Id()].observed)
            && (now == watch.observed || (watch.Id() in pending && now == pending[watch.Id()].observed))
  {
    if watch.Id() == key && key in pending {
      MergedCarries(pending[key], watch, item);
    }
  }

  lemma DeliverTracks(s: State, key: Key, item: Item)
    requires s.deliveries != [] && Tracked(s, key, item)
    ensures Tracked(DeliverStep(s), key, item)
  {
    hide InProbes, InRunning, InCompleted, InResults, InUi, Carries, InPending, MergePending;
    var t := DeliverStep(s);
    var d := s.deliveries[0];
    if InPending(s.pending, key, item) {
      if d.retry.Some? {
        MergeKeeps(s.pending, d.retry.value, key, item);
      }
    } else if InDeliveries(s.deliveries, key, item) {
      var e :| e in s.deliveries && e.retry.Some? && e.retry.value.Id() == key && Carries(e.retry.value, item);
      if e == d {
        MergeKeeps(s.pending, e.retry.value, key, item);
      } else {
        assert e in t.deliveries;
      }
    }
  }

  lemma CollectTracks(s: State, key: Key, item: Item)
    requires s.completed != [] && Tracked(s, key, item)
    ensures Tracked(CollectStep(s), key, item)
  {
    hide InProbes, InRunning, InUi, Carries, InPending, InDeliveries;
    var t := CollectStep(s);
    if InCompleted(s.completed, key, item) {
      var c :| c in s.completed && InResults(c.results, key, item);
      if c == s.completed[0] {
        var r :| r in c.results && r.probe.watch.Id() == key && Carries(r.probe.watch, item);
        assert r in t.posted;
      } else {
        assert c in t.completed;
      }
    } else if InResults(s.posted, key, item) {
      var r :| r in s.posted && r.probe.watch.Id() == key && Carries(r.probe.watch, item);
      assert r in t.posted;
    }
  }

  lemma ReportTracks(s: State, batch: Batch, key: Key, item: Item)
    requires Tracked(s, key, item)
    ensures Tracked(ReportStep(s, batch), key, item)
  {
    hide InProbes, InRunning, InUi, Carries, InCompleted, InResults, InDeliveries, OwnedByOperation;
    if InPending(s.pending, key, item) && key in ReportedKeys(s.app, batch) {
      MergedCarries(s.pending[key], ForTab(s, key.tab, batch), item);
    }
  }

  lemma SettleTracks(s: State, k: Key, key: Key, item: Item)
    requires PendingKeyed(s) && Enabled(s, Settle(k)) && Tracked(s, key, item)
    ensures Tracked(SettleStep(s, k), key, item) || Excused(s, Settle(k), key, item)
  {
    hide InRunning, InUi, Carries, InCompleted, InResults, InDeliveries;
    hide Disposed, Stays, Departs, TakenOver;
    var t := SettleStep(s, k);
    if InPending(s.pending, key, item) && k == key {
      DecisionsMean(s.app, s.pending[key]);
      if Disposed(s.app, s.pending[key]).ProbeIt? && !MustWait(s, key) {
        ProbedTab(s.app, s.pending[key]);
        var p := Prepared(s.app, s.pending[key]);
        assert p in t.ready && p.watch == s.pending[key];
      }
    } else if InProbes(s.ready, key, item) {
      var p :| p in s.ready && p.watch.Id() == key && Carries(p.watch, item);
      assert p in t.ready;
    }
  }

  lemma SpawnTracks(s: State, root: Path, key: Key, item: Item)
    requires Tracked(s, key, item)
    ensures Tracked(SpawnStep(s, root), key, item)
  {
    hide InPending, InUi, Carries, InCompleted, InResults, InDeliveries, ByRoot, OffRoot;
    var t := SpawnStep(s, root);
    if InProbes(s.ready, key, item) {
      var p :| p in s.ready && p.watch.Id() == key && Carries(p.watch, item);
      ByRootMembers(s.ready, root);
      OffRootMembers(s.ready, root);
      if p.watch.batch.root == root {
        assert InProbes(ByRoot(s.ready, root), key, item);
        assert t.running[|s.running|].probes == ByRoot(s.ready, root);
      } else {
        assert p in t.ready;
      }
    } else if InRunning(s.running, key, item) {
      var a :| a in s.running && InProbes(a.probes, key, item);
      assert a in t.running;
    }
  }

  lemma JudgedTracks(probes: seq<Probe>, seen: map<Path, Sight>, key: Key, item: Item)
    requires InProbes(probes, key, item)
    ensures InResults(Judged(probes, seen), key, item)
  {
    hide Carries, Changed;
    var p :| p in probes && p.watch.Id() == key && Carries(p.watch, item);
    var i :| 0 <= i < |probes| && probes[i] == p;
    assert Judged(probes, seen)[i] in Judged(probes, seen);
  }

  lemma SampledTracks(s: State, i: nat, seen: map<Path, Outcome>, key: Key, item: Item)
    requires i < |s.running| && s.running[i].probes != [] && Tracked(s, key, item)
    ensures Tracked(SampledStep(s, i, seen), key, item)
  {
    hide InPending, InUi, Carries, InResults, InDeliveries, InProbes, Judged, Sights, Keys;
    var t := SampledStep(s, i, seen);
    if InRunning(s.running, key, item) {
      var a :| a in s.running && InProbes(a.probes, key, item);
      var j :| 0 <= j < |s.running| && s.running[j] == a;
      if j == i {
        JudgedTracks(a.probes, Sights(a.probes, seen), key, item);
        assert t.completed[|s.completed|].results == Judged(a.probes, Sights(a.probes, seen));
      } else {
        assert a == t.running[if j < i then j else j - 1];
      }
    } else if InCompleted(s.completed, key, item) {
      var c :| c in s.completed && InResults(c.results, key, item);
      assert c in t.completed;
    }
  }

  lemma HonestAgrees(app: App, r: Result, item: Item)
    requires Honest(r) && !r.changed && StillCurrent(app, r.probe) && Carries(r.probe.watch, item)
    ensures item.At? && ReadAgrees(app, r, item.path)
  {
    if item.At? {
      assert Agrees(r.probe, item.path, r.seen);
    }
  }

  lemma ApplyTracks(s: State, key: Key, item: Item)
    requires Truthful(s) && Enabled(s, Apply) && Tracked(s, key, item)
    ensures Tracked(ApplyStep(s), key, item) || Excused(s, Apply, key, item)
  {
    hide InRunning, InPending, Carries, InCompleted, InProbes, InDeliveries, Disposed, Stays, Departs,
         TakenOver, StillCurrent, Honest;
    hide ReadAgrees, PumpStep;
    var t := ApplyStep(s);
    if InResults(s.posted, key, item) {
      var r :| r in s.posted && r.probe.watch.Id() == key && Carries(r.probe.watch, item);
      if r == s.posted[0] {
        DecisionsMean(s.app, r.probe.watch);
        if Disposed(s.app, r.probe.watch).ProbeIt? && StillCurrent(s.app, r.probe) && !r.changed {
          HonestAgrees(s.app, r, item);
        }
      } else {
        assert r in t.posted;
      }
    }
  }

  lemma FinishTracks(s: State, key: Key, item: Item)
    requires s.ui.Finishing? && Tracked(s, key, item)
    ensures Tracked(FinishStep(s), key, item)
  {
    hide InRunning, InPending, Carries, InCompleted, InProbes, InResults, Refreshed;
    var t := FinishStep(s);
    if InUi(s.ui, key, item) {
      assert t.deliveries[|s.deliveries|].retry == s.ui.retry;
    } else if InDeliveries(s.deliveries, key, item) {
      var e :| e in s.deliveries && e.retry.Some? && e.retry.value.Id() == key && Carries(e.retry.value, item);
      assert e in t.deliveries;
    }
  }

  lemma SubmitTracks(s: State, l: Label, key: Key, item: Item)
    requires Truthful(s) && l.Submit? && Enabled(s, l) && Tracked(s, key, item)
    ensures Tracked(After(s, l), key, item) || Excused(s, l, key, item)
  {
    hide InRunning, InPending, InCompleted, InProbes, InResults, InDeliveries, LetGo, Changed, Confirms;
    ChangedMeans(s.ui.result.probe, s.ui.result.seen);
  }

  lemma StepTracks(s: State, l: Label, key: Key, item: Item)
    requires Flights(s) && Truthful(s) && Enabled(s, l) && Tracked(s, key, item)
    ensures Tracked(After(s, l), key, item) || Excused(s, l, key, item)
  {
    hide Balanced, ReadyFree, RunningFine, CompletedFine, PendingKeyed, Truthful, InRunning, InPending, InCompleted,
         InProbes, InResults;
    hide InDeliveries, LetGo, Excused;
    hide DeliverStep, CollectStep, ReportStep, SettleStep, SpawnStep, SampledStep, ApplyStep, FinishStep, AllPaths,
         GateAfter;
    match l
    case Deliver => DeliverTracks(s, key, item);
    case Collect => CollectTracks(s, key, item);
    case Report(batch) => ReportTracks(s, batch, key, item);
    case Settle(k) => SettleTracks(s, k, key, item);
    case Spawn(root) => SpawnTracks(s, root, key, item);
    case Sampled(i, seen) => SampledTracks(s, i, seen, key, item);
    case Apply => ApplyTracks(s, key, item);
    case Finish => FinishTracks(s, key, item);
    case Submit(_, _) => SubmitTracks(s, l, key, item);
    case World(_) => case Lock => case Tick(_) => case Unlock => case Rest =>
  }

  // ---- over whole runs ----

  lemma ReachableTruthful(s: State)
    requires Reachable(s)
    ensures Flights(s) && Truthful(s)
  {
    hide Flights, Initial;
    var app, labels :| Leads(Initial(app), labels, s);
    InitialFlights(app);
    assert Truthful(Initial(app)) by { InitialTruthful(app); }
    RunKeepsTruthful(Initial(app), labels, s);
  }

  lemma InitialTruthful(app: App)
    ensures Truthful(Initial(app))
  {
  }

  lemma {:induction false} RunKeepsTruthful(s: State, labels: seq<Label>, t: State)
    requires Flights(s) && Truthful(s) && Leads(s, labels, t)
    ensures Flights(t) && Truthful(t)
    decreases |labels|
  {
    hide Flights, Truthful, Enabled, After;
    if labels != [] {
      StepKeepsFlights(s, labels[0]);
      StepKeepsTruthful(s, labels[0]);
      RunKeepsTruthful(After(s, labels[0]), labels[1..], t);
    }
  }

  /** Somewhere along the run a step excused the pump. */
  ghost predicate ExcusedWithin(s: State, labels: seq<Label>, t: State, key: Key, item: Item)
    requires Leads(s, labels, t)
    decreases |labels|
  {
    labels != [] && (Excused(s, labels[0], key, item) || ExcusedWithin(After(s, labels[0]), labels[1..], t, key, item))
  }

  lemma {:induction false} RunTracks(s: State, labels: seq<Label>, t: State, key: Key, item: Item)
    requires Flights(s) && Truthful(s) && Leads(s, labels, t) && Tracked(s, key, item)
    ensures Tracked(t, key, item) || ExcusedWithin(s, labels, t, key, item)
    decreases |labels|
  {
    hide Flights, Truthful, Enabled, After, Tracked, Excused;
    if labels != [] {
      StepTracks(s, labels[0], key, item);
      StepKeepsFlights(s, labels[0]);
      StepKeepsTruthful(s, labels[0]);
      if !Excused(s, labels[0], key, item) {
        RunTracks(After(s, labels[0]), labels[1..], t, key, item);
      }
    }
  }

  /** What the pump answers for it keeps answering for, unless excused on the way. */
  lemma NothingIsForgotten(s: State, labels: seq<Label>, t: State, key: Key, item: Item)
    requires Reachable(s) && Leads(s, labels, t) && Tracked(s, key, item)
    ensures Tracked(t, key, item) || ExcusedWithin(s, labels, t, key, item)
  {
    hide Reachable, Leads, Tracked;
    ReachableTruthful(s);
    RunTracks(s, labels, t, key, item);
  }

  /** The report says this of a root the tab shows, and no operation has taken the root over. */
  ghost predicate Brings(app: App, batch: Batch, key: Key, item: Item)
  {
    && key.root == batch.root && !TakenOver(app, key.root)
    && key.tab in app.tabs && app.tabs[key.tab].directory && app.tabs[key.tab].visible == Some(key.root)
    && (match item case At(path) => path in batch.paths case Doubt => batch.uncertain)
  }

  /** A report reaches every tab that shows its root; if an operation has taken the root over, the root is deferred. */
  lemma ReportIsTaken(s: State, batch: Batch, key: Key, item: Item)
    requires Enabled(s, Report(batch))
    ensures Brings(s.app, batch, key, item) ==> Tracked(After(s, Report(batch)), key, item)
    ensures TakenOver(s.app, batch.root) ==> After(s, Report(batch)) == s.(app := After(s, Report(batch)).app)
                                             && batch.root in After(s, Report(batch)).app.deferred
  {
    hide RenameActive, Renaming, InRunning, InUi, InCompleted, InProbes, InResults, InDeliveries;
    RenamingIs(s.app, batch.root);
    if Brings(s.app, batch, key, item) {
      assert key in ReportedKeys(s.app, batch);
      if key in s.pending {
        MergedCarries(s.pending[key], ForTab(s, key.tab, batch), item);
      }
    }
  }

  // ---- tracked means pending or in exactly one probe ----

  lemma {:induction false} MemberBag<T, K>(bag: T -> multiset<K>, items: seq<T>, x: T, k: K)
    requires x in items && k in bag(x)
    ensures k in Total(bag, items)
    decreases |items|
  {
    if items[0] != x {
      MemberBag(bag, items[1..], x, k);
    }
  }

  lemma ProbeInBag(probes: seq<Probe>, key: Key, item: Item)
    requires InProbes(probes, key, item)
    ensures key in Total(OfProbe, probes)
  {
    hide Carries, Total;
    var p :| p in probes && p.watch.Id() == key && Carries(p.watch, item);
    MemberBag(OfProbe, probes, p, key);
  }

  lemma ResultInBag(results: seq<Result>, key: Key, item: Item)
    requires InResults(results, key, item)
    ensures key in Total(OfResult, results)
  {
    hide Carries, Total;
    var r :| r in results && r.probe.watch.Id() == key && Carries(r.probe.watch, item);
    MemberBag(OfResult, results, r, key);
  }

  lemma RunningInBag(running: seq<Sample>, key: Key, item: Item)
    requires InRunning(running, key, item)
    ensures key in Total(OfSample, running)
  {
    hide InProbes, Total;
    var a :| a in running && InProbes(a.probes, key, item);
    ProbeInBag(a.probes, key, item);
    MemberBag(OfSample, running, a, key);
  }

  lemma CompletedInBag(completed: seq<Completed>, key: Key, item: Item)
    requires InCompleted(completed, key, item)
    ensures key in Total(OfCompleted, completed)
  {
    hide InResults, Total;
    var c :| c in completed && InResults(c.results, key, item);
    ResultInBag(c.results, key, item);
    MemberBag(OfCompleted, completed, c, key);
  }

  lemma DeliveryInBag(deliveries: seq<Delivery>, key: Key, item: Item)
    requires OwnRetries(deliveries) && InDeliveries(deliveries, key, item)
    ensures key in Total(OfDelivery, deliveries)
  {
    hide Carries, Total;
    var d :| d in deliveries && d.retry.Some? && d.retry.value.Id() == key && Carries(d.retry.value, item);
    MemberBag(OfDelivery, deliveries, d, key);
  }

  /** What is tracked is pending, or in exactly one probe that is in flight. */
  lemma TrackedOnce(s: State, key: Key, item: Item)
    requires Reachable(s) && Tracked(s, key, item)
    ensures InPending(s.pending, key, item) || (key in s.inFlight && (Unanswered(s) + Undelivered(s))[key] == 1)
  {
    hide Reachable, Flights, Carries, Total, InProbes, InRunning, InCompleted, InResults, InDeliveries, OwnRetries,
         AllHonest, Honest;
    ReachableTruthful(s);
    AtMostOneOutstanding(s, key, key.root);
    if InProbes(s.ready, key, item) {
      ProbeInBag(s.ready, key, item);
    } else if InRunning(s.running, key, item) {
      RunningInBag(s.running, key, item);
    } else if InCompleted(s.completed, key, item) {
      CompletedInBag(s.completed, key, item);
    } else if InResults(s.posted, key, item) {
      ResultInBag(s.posted, key, item);
    } else if InUi(s.ui, key, item) {
      assert key in OfUi(s.ui);
    } else if InDeliveries(s.deliveries, key, item) {
      DeliveryInBag(s.deliveries, key, item);
    }
  }
}
