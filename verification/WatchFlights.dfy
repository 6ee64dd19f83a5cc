/**
 Single flight: at most one probe per tab and root and one sample per root are ever outstanding, and
 every probe turns into exactly one result and one delivery.
 */
module WatchFlights {
  import opened Prelude
  import opened WatchTypes
  import opened WatchPump

  // ---- bags ----

  function Total<T, K(==)>(bag: T -> multiset<K>, items: seq<T>): multiset<K>
  {
    if items == [] then multiset{} else bag(items[0]) + Total(bag, items[1..])
  }

  lemma {:induction false} TotalAppend<T, K>(bag: T -> multiset<K>, a: seq<T>, b: seq<T>)
    ensures Total(bag, a + b) == Total(bag, a) + Total(bag, b)
    decreases |a|
  {
    if a == [] {
      assert a + b == b;
    } else {
      TotalAppend(bag, a[1..], b);
      assert (a + b)[1..] == a[1..] + b;
    }
  }

  lemma TotalSnoc<T, K>(bag: T -> multiset<K>, a: seq<T>, x: T)
    ensures Total(bag, a + [x]) == Total(bag, a) + bag(x)
  {
    TotalAppend(bag, a, [x]);
    assert Total(bag, [x]) == bag(x) + Total(bag, [x][1..]);
  }

  lemma TotalWithout<T, K>(bag: T -> multiset<K>, a: seq<T>, i: nat)
    requires i < |a|
    ensures Total(bag, a) == Total(bag, a[..i] + a[i + 1..]) + bag(a[i])
  {
    assert a == a[..i] + ([a[i]] + a[i + 1..]);
    TotalAppend(bag, a[..i], [a[i]] + a[i + 1..]);
    TotalAppend(bag, [a[i]], a[i + 1..]);
    TotalAppend(bag, a[..i], a[i + 1..]);
    assert Total(bag, [a[i]]) == bag(a[i]) + Total(bag, [a[i]][1..]);
  }

  function OfProbe(p: Probe): multiset<Key> { multiset{p.watch.Id()} }

  function OfSample(s: Sample): multiset<Key> { Total(OfProbe, s.probes) }

  function OfResult(r: Result): multiset<Key> { multiset{r.probe.watch.Id()} }

  function OfCompleted(c: Completed): multiset<Key> { Total(OfResult, c.results) }

  function OfDelivery(d: Delivery): multiset<Key> { multiset{d.key} }

  function OfUi(ui: Ui): multiset<Key> { if ui.Free? then multiset{} else OfResult(ui.result) }

  function RootOfSample(s: Sample): multiset<Path> { multiset{s.root} }

  function RootOfCompleted(c: Completed): multiset<Path> { multiset{c.root} }

  lemma {:induction false} KeysAreTotal(probes: seq<Probe>)
    ensures Keys(probes) == Total(OfProbe, probes)
    decreases |probes|
  {
    if probes != [] {
      KeysAreTotal(probes[1..]);
    }
  }

  /** Probes on their way to a result. */
  function Unanswered(s: State): multiset<Key>
  {
    Total(OfProbe, s.ready) + Total(OfSample, s.running)
  }

  /** Results on their way to a delivery, and deliveries on their way to the pump. */
  function Undelivered(s: State): multiset<Key>
  {
    Total(OfCompleted, s.completed) + Total(OfResult, s.posted) + OfUi(s.ui) + Total(OfDelivery, s.deliveries)
  }

  function SampledRoots(s: State): multiset<Path>
  {
    Total(RootOfSample, s.running) + Total(RootOfCompleted, s.completed)
  }

  /**
   One flight per key and one sample per root, as the pump's sets say; every probe started is on its
   way or answered, every answer on its way or delivered.
   */
  ghost predicate Ledger(unanswered: multiset<Key>, undelivered: multiset<Key>, roots: multiset<Path>,
        inFlight: set<Key>,
                         sampling: set<Path>, started: multiset<Key>, answered: multiset<Key>, delivered: multiset<Key>)
  {
    && unanswered + undelivered == multiset(inFlight) && roots == multiset(sampling)
    && started == unanswered + answered && answered == undelivered + delivered
  }

  ghost predicate Balanced(s: State)
  {
    Ledger(Unanswered(s), Undelivered(s), SampledRoots(s), s.inFlight, s.sampling, s.started, s.answered, s.delivered)
  }

  ghost predicate PendingKeyed(s: State)
  {
    forall key :: key in s.pending ==> s.pending[key].Id() == key
  }

  /** Probes waiting to start: their roots are free, and they were prepared in one pass. */
  ghost predicate ReadyFree(s: State)
  {
    && (s.phase.Collecting? ==> s.ready == [])
    && (forall i :: 0 <= i < |s.ready| ==> s.ready[i].watch.batch.root !in s.sampling)
    && (forall i, j :: 0 <= i < j < |s.ready| ==> s.ready[i].visibility == s.ready[j].visibility)
    && (s.phase.Locked? ==> forall i :: 0 <= i < |s.ready| ==> s.ready[i].visibility == s.app.visibility)
  }

  ghost predicate SampleFine(sample: Sample)
  {
    && sample.probes != []
    && (forall i :: 0 <= i < |sample.probes| ==> sample.probes[i].watch.batch.root == sample.root)
    && (forall i :: 0 <= i < |sample.probes| ==> sample.probes[i].visibility == sample.probes[0].visibility)
  }

  ghost predicate RunningFine(s: State)
  {
    forall i :: 0 <= i < |s.running| ==> SampleFine(s.running[i])
  }

  ghost predicate CompletedFine(s: State)
  {
    forall i :: 0 <= i < |s.completed| ==> s.completed[i].results != []
  }

  ghost predicate Shaped(s: State)
  {
    PendingKeyed(s) && ReadyFree(s) && RunningFine(s) && CompletedFine(s)
  }

  ghost predicate Flights(s: State)
  {
    Balanced(s) && Shaped(s)
  }

  lemma InitialFlights(app: App)
    ensures Flights(Initial(app))
  {
  }

  // ---- the five ways the ledger moves ----

  lemma BagAdd<K>(a: set<K>, k: K)
    requires k !in a
    ensures multiset(a + {k}) == multiset(a) + multiset{k}
  {
  }

  lemma LedgerStart(u: multiset<Key>, d: multiset<Key>, r: multiset<Path>, f: set<Key>, m: set<Path>, st: multiset<Key>,
                    an: multiset<Key>, de: multiset<Key>, k: Key)
    requires Ledger(u, d, r, f, m, st, an, de) && k !in f
    ensures Ledger(u + multiset{k}, d, r, f + {k}, m, st + multiset{k}, an, de)
  {
    BagAdd(f, k);
  }

  lemma LedgerDeliver(u: multiset<Key>, d: multiset<Key>, r: multiset<Path>, f: set<Key>, m: set<Path>,
        st: multiset<Key>,
                      an: multiset<Key>, de: multiset<Key>, k: Key)
    requires Ledger(u, d + multiset{k}, r, f, m, st, an, de)
    ensures Ledger(u, d, r, f - {k}, m, st, an, de + multiset{k})
  {
    BagRemove(f, u + d, k);
  }

  lemma LedgerSpawn(u: multiset<Key>, d: multiset<Key>, r: multiset<Path>, f: set<Key>, m: set<Path>, st: multiset<Key>,
                    an: multiset<Key>, de: multiset<Key>, root: Path)
    requires Ledger(u, d, r, f, m, st, an, de) && root !in m
    ensures Ledger(u, d, r + multiset{root}, f, m + {root}, st, an, de)
  {
    BagAdd(m, root);
  }

  lemma LedgerCollect(u: multiset<Key>, d: multiset<Key>, r: multiset<Path>, f: set<Key>, m: set<Path>,
        st: multiset<Key>,
                      an: multiset<Key>, de: multiset<Key>, root: Path)
    requires Ledger(u, d, r + multiset{root}, f, m, st, an, de)
    ensures Ledger(u, d, r, f, m - {root}, st, an, de)
  {
    BagRemove(m, r, root);
  }

  lemma LedgerAnswer(u: multiset<Key>, d: multiset<Key>, r: multiset<Path>, f: set<Key>, m: set<Path>,
        st: multiset<Key>,
                     an: multiset<Key>, de: multiset<Key>, ks: multiset<Key>)
    requires Ledger(u + ks, d, r, f, m, st, an, de)
    ensures Ledger(u, d + ks, r, f, m, st, an + ks, de)
  {
  }

  // ---- steps that touch no flight ----

  ghost predicate SameFlights(s: State, t: State)
  {
    t == s.(app := t.app, pending := t.pending, gate := t.gate, phase := t.phase)
  }

  lemma SameFlightsKeep(s: State, t: State)
    requires Flights(s) && SameFlights(s, t) && PendingKeyed(t) && ReadyFree(t)
    ensures Flights(t)
  {
    hide Total, Ledger, PendingKeyed, ReadyFree, SampleFine;
  }

  lemma QuietKeepsFlights(s: State, l: Label)
    requires Flights(s) && Enabled(s, l)
    requires l.World? || l.Lock? || l.Tick? || l.Unlock? || l.Rest?
    ensures Flights(After(s, l))
  {
    hide Balanced, RunningFine, CompletedFine, GateAfter;
    SameFlightsKeep(s, After(s, l));
  }

  lemma ReportKeepsFlights(s: State, batch: Batch)
    requires Flights(s)
    ensures Flights(ReportStep(s, batch))
  {
    hide Balanced, RunningFine, CompletedFine, OwnedByOperation, Shows;
    SameFlightsKeep(s, ReportStep(s, batch));
  }

  lemma SameReady(s: State, t: State)
    requires ReadyFree(s) && t.ready == s.ready && t.phase == s.phase && t.sampling <= s.sampling
    requires s.phase.Locked? ==> t.app.visibility == s.app.visibility
    ensures ReadyFree(t)
  {
  }

  // ---- the pump's own moves ----

  lemma DeliverMoves(s: State)
    requires s.deliveries != []
    ensures Unanswered(DeliverStep(s)) == Unanswered(s) && SampledRoots(DeliverStep(s)) == SampledRoots(s)
    ensures Undelivered(s) == Undelivered(DeliverStep(s)) + multiset{s.deliveries[0].key}
  {
  }

  lemma DeliverKeepsFlights(s: State)
    requires Flights(s) && s.deliveries != [] && s.phase.Collecting?
    ensures Flights(DeliverStep(s))
  {
    hide Total, Unanswered, Undelivered, SampledRoots, ReadyFree, RunningFine, CompletedFine, Ledger;
    var t := DeliverStep(s);
    DeliverMoves(s);
    LedgerDeliver(Unanswered(t), Undelivered(t), SampledRoots(t), s.inFlight, s.sampling, s.started, s.answered,
      s.delivered,
                  s.deliveries[0].key);
    SameReady(s, t);
    assert RunningFine(t) && CompletedFine(t) by { SameSamples(s, t); }
  }

  lemma SameSamples(s: State, t: State)
    requires RunningFine(s) && CompletedFine(s) && t.running == s.running && t.completed == s.completed
    ensures RunningFine(t) && CompletedFine(t)
  {
  }

  lemma CollectMoves(s: State)
    requires s.completed != []
    ensures Unanswered(CollectStep(s)) == Unanswered(s) && Undelivered(CollectStep(s)) == Undelivered(s)
    ensures SampledRoots(s) == SampledRoots(CollectStep(s)) + multiset{s.completed[0].root}
  {
    TotalAppend(OfResult, s.posted, s.completed[0].results);
  }

  lemma CollectKeepsFlights(s: State)
    requires Flights(s) && s.completed != [] && s.phase.Collecting?
    ensures Flights(CollectStep(s))
  {
    hide Total, Unanswered, Undelivered, SampledRoots, ReadyFree, SampleFine, Ledger;
    var t := CollectStep(s);
    CollectMoves(s);
    LedgerCollect(Unanswered(t), Undelivered(t), SampledRoots(t), s.inFlight, s.sampling, s.started, s.answered,
      s.delivered,
                  s.completed[0].root);
    SameReady(s, t);
  }

  lemma ProbedTab(app: App, watch: Watch)
    requires Disposed(app, watch).ProbeIt?
    ensures watch.tab in app.tabs && Shows(app.tabs[watch.tab], watch.batch.root) && !IsLoading(app.tabs[watch.tab])
  {
  }

  lemma StartMoves(s: State, p: Probe, t: State)
    requires t.ready == s.ready + [p] && t.running == s.running && t.completed == s.completed
    requires t.posted == s.posted && t.ui == s.ui && t.deliveries == s.deliveries
    ensures Unanswered(t) == Unanswered(s) + multiset{p.watch.Id()}
    ensures Undelivered(t) == Undelivered(s) && SampledRoots(t) == SampledRoots(s)
  {
    TotalSnoc(OfProbe, s.ready, p);
  }

  lemma ReadyOneMore(s: State, p: Probe, t: State)
    requires ReadyFree(s) && s.phase.Locked? && t.phase == s.phase && t.app == s.app && t.sampling == s.sampling
    requires t.ready == s.ready + [p] && p.watch.batch.root !in s.sampling && p.visibility == s.app.visibility
    ensures ReadyFree(t)
  {
  }

  lemma StartedKeepsFlights(s: State, key: Key)
    requires Flights(s) && s.phase.Locked? && key in s.pending
    requires Disposed(s.app, s.pending[key]).ProbeIt? && !MustWait(s, key)
    ensures Flights(SettleStep(s, key))
  {
    hide Disposed, Total, Unanswered, Undelivered, SampledRoots, ReadyFree, RunningFine, CompletedFine, Ledger;
    ProbedTab(s.app, s.pending[key]);
    var t := SettleStep(s, key);
    var p := Prepared(s.app, s.pending[key]);
    StartMoves(s, p, t);
    LedgerStart(Unanswered(s), Undelivered(s), SampledRoots(s), s.inFlight, s.sampling, s.started, s.answered,
      s.delivered, key);
    ReadyOneMore(s, p, t);
    assert RunningFine(t) && CompletedFine(t) by { SameSamples(s, t); }
  }

  lemma SettleKeepsFlights(s: State, key: Key)
    requires Flights(s) && s.phase.Locked? && key in s.pending
    ensures Flights(SettleStep(s, key))
  {
    hide Disposed, Balanced, RunningFine, CompletedFine, MustWait, ReadyFree;
    if Disposed(s.app, s.pending[key]).ProbeIt? && !MustWait(s, key) {
      StartedKeepsFlights(s, key);
    } else {
      SameReady(s, SettleStep(s, key));
      SameFlightsKeep(s, SettleStep(s, key));
    }
  }

  lemma {:induction false} ByRootMembers(probes: seq<Probe>, root: Path)
    ensures forall p :: p in ByRoot(probes, root) <==> p in probes && p.watch.batch.root == root
    decreases |probes|
  {
    if probes != [] {
      ByRootMembers(probes[1..], root);
      assert forall p :: p in probes <==> p == probes[0] || p in probes[1..];
    }
  }

  lemma {:induction false} OffRootMembers(probes: seq<Probe>, root: Path)
    ensures forall p :: p in OffRoot(probes, root) <==> p in probes && p.watch.batch.root != root
    decreases |probes|
  {
    if probes != [] {
      OffRootMembers(probes[1..], root);
      assert forall p :: p in probes <==> p == probes[0] || p in probes[1..];
    }
  }

  lemma {:induction false} SplitByRoot(probes: seq<Probe>, root: Path)
    ensures Total(OfProbe, probes) == Total(OfProbe, ByRoot(probes, root)) + Total(OfProbe, OffRoot(probes, root))
    decreases |probes|
  {
    if probes != [] {
      SplitByRoot(probes[1..], root);
      if probes[0].watch.batch.root == root {
        assert ByRoot(probes, root)[1..] == ByRoot(probes[1..], root);
        assert OffRoot(probes, root) == OffRoot(probes[1..], root);
      } else {
        assert OffRoot(probes, root)[1..] == OffRoot(probes[1..], root);
        assert ByRoot(probes, root) == ByRoot(probes[1..], root);
      }
    }
  }

  lemma SpawnedFine(s: State, root: Path)
    requires ReadyFree(s) && ByRoot(s.ready, root) != []
    ensures SampleFine(Sample(root, ByRoot(s.ready, root)))
  {
    hide ByRoot;
    ByRootMembers(s.ready, root);
    var group := ByRoot(s.ready, root);
    forall i | 0 <= i < |group|
      ensures group[i].watch.batch.root == root && group[i].visibility == group[0].visibility
    {
      assert group[i] in s.ready && group[0] in s.ready;
    }
  }

  lemma OthersStillFree(s: State, root: Path)
    requires ReadyFree(s) && s.phase.Starting?
    ensures ReadyFree(SpawnStep(s, root))
  {
    hide ByRoot, OffRoot;
    OffRootMembers(s.ready, root);
    var t := SpawnStep(s, root);
    forall i | 0 <= i < |t.ready| ensures t.ready[i].watch.batch.root !in t.sampling {
      assert t.ready[i] in s.ready;
    }
    forall i, j | 0 <= i < j < |t.ready| ensures t.ready[i].visibility == t.ready[j].visibility {
      assert t.ready[i] in s.ready && t.ready[j] in s.ready;
    }
  }

  /** The root a sample starts for is not being sampled: the insertion into `sampling_roots` succeeds. */
  lemma SpawnedRootIsFree(s: State, root: Path)
    requires ReadyFree(s) && ByRoot(s.ready, root) != []
    ensures root !in s.sampling
  {
    hide ByRoot;
    ByRootMembers(s.ready, root);
    assert ByRoot(s.ready, root)[0] in s.ready;
  }

  lemma SpawnMoves(s: State, root: Path)
    ensures Unanswered(SpawnStep(s, root)) == Unanswered(s) && Undelivered(SpawnStep(s, root)) == Undelivered(s)
    ensures SampledRoots(SpawnStep(s, root)) == SampledRoots(s) + multiset{root}
  {
    hide ByRoot, OffRoot;
    var sample := Sample(root, ByRoot(s.ready, root));
    SplitByRoot(s.ready, root);
    TotalSnoc(OfSample, s.running, sample);
    TotalSnoc(RootOfSample, s.running, sample);
  }

  lemma SpawnKeepsFlights(s: State, root: Path)
    requires Flights(s) && s.phase.Starting? && ByRoot(s.ready, root) != []
    ensures Flights(SpawnStep(s, root))
  {
    hide Total, Unanswered, Undelivered, SampledRoots, ReadyFree, SampleFine, Ledger, ByRoot, OffRoot;
    SpawnMoves(s, root);
    SpawnedRootIsFree(s, root);
    LedgerSpawn(Unanswered(s), Undelivered(s), SampledRoots(s), s.inFlight, s.sampling, s.started, s.answered,
      s.delivered, root);
    SpawnedFine(s, root);
    OthersStillFree(s, root);
  }

  // ---- samples and the UI thread ----

  lemma {:induction false} JudgedKeys(probes: seq<Probe>, seen: map<Path, Sight>)
    ensures Total(OfResult, Judged(probes, seen)) == Total(OfProbe, probes)
    decreases |probes|
  {
    hide Changed;
    if probes != [] {
      JudgedKeys(probes[1..], seen);
      assert Judged(probes, seen)[1..] == Judged(probes[1..], seen);
    }
  }

  lemma SampledMoves(s: State, i: nat, seen: map<Path, Outcome>)
    requires i < |s.running| && s.running[i].probes != []
    ensures Unanswered(s) == Unanswered(SampledStep(s, i, seen)) + Keys(s.running[i].probes)
    ensures Undelivered(SampledStep(s, i, seen)) == Undelivered(s) + Keys(s.running[i].probes)
    ensures SampledRoots(SampledStep(s, i, seen)) == SampledRoots(s)
  {
    hide Total, Changed, Judged, Sights, Keys;
    var sample := s.running[i];
    var c := Completed(sample.root, Judged(sample.probes, Sights(sample.probes, seen)));
    JudgedKeys(sample.probes, Sights(sample.probes, seen));
    KeysAreTotal(sample.probes);
    TotalWithout(OfSample, s.running, i);
    TotalWithout(RootOfSample, s.running, i);
    TotalSnoc(OfCompleted, s.completed, c);
    TotalSnoc(RootOfCompleted, s.completed, c);
  }

  lemma SampledKeepsFlights(s: State, i: nat, seen: map<Path, Outcome>)
    requires Flights(s) && OutsideEnabled(s, Sampled(i, seen))
    ensures Flights(SampledStep(s, i, seen))
  {
    hide Total, Unanswered, Undelivered, SampledRoots, ReadyFree, SampleFine, Ledger, Changed, Sights, Keys, AllPaths;
    var t := SampledStep(s, i, seen);
    SampledMoves(s, i, seen);
    LedgerAnswer(Unanswered(t), Undelivered(s), SampledRoots(s), s.inFlight, s.sampling, s.started, s.answered,
      s.delivered,
                 Keys(s.running[i].probes));
    SameReady(s, t);
  }

  lemma ApplyMoves(s: State)
    requires s.posted != [] && s.ui.Free?
    ensures Unanswered(ApplyStep(s)) == Unanswered(s) && Undelivered(ApplyStep(s)) == Undelivered(s)
    ensures SampledRoots(ApplyStep(s)) == SampledRoots(s)
  {
    hide Disposed, StillCurrent;
    assert OfUi(ApplyStep(s).ui) == OfResult(s.posted[0]);
  }

  lemma ApplyKeepsFlights(s: State)
    requires Flights(s) && OutsideEnabled(s, Apply)
    ensures Flights(ApplyStep(s))
  {
    hide Total, Unanswered, Undelivered, SampledRoots, ReadyFree, SampleFine, Ledger, Disposed, StillCurrent, Decided;
    ApplyMoves(s);
    SameReady(s, ApplyStep(s));
  }

  lemma FinishMoves(s: State)
    requires s.ui.Finishing?
    ensures Unanswered(FinishStep(s)) == Unanswered(s) && Undelivered(FinishStep(s)) == Undelivered(s)
    ensures SampledRoots(FinishStep(s)) == SampledRoots(s)
  {
    hide Refreshed;
    TotalSnoc(OfDelivery, s.deliveries, FinishStep(s).deliveries[|s.deliveries|]);
  }

  lemma FinishKeepsFlights(s: State)
    requires Flights(s) && OutsideEnabled(s, Finish)
    ensures Flights(FinishStep(s))
  {
    hide Total, Unanswered, Undelivered, SampledRoots, ReadyFree, SampleFine, Ledger, Refreshed;
    FinishMoves(s);
    SameReady(s, FinishStep(s));
  }

  lemma SubmitKeepsFlights(s: State, submitted: bool, next: App)
    requires Flights(s) && OutsideEnabled(s, Submit(submitted, next))
    ensures Flights(OutsideStep(s, Submit(submitted, next)))
  {
    hide Total, ReadyFree, SampleFine, Ledger;
    var t := OutsideStep(s, Submit(submitted, next));
    assert OfUi(t.ui) == OfUi(s.ui);
    SameReady(s, t);
  }

  lemma StepKeepsFlights(s: State, l: Label)
    requires Flights(s) && Enabled(s, l)
    ensures Flights(After(s, l))
  {
    hide Flights, DeliverStep, CollectStep, ReportStep, SettleStep, SpawnStep, SampledStep, ApplyStep, FinishStep;
    match l
    case Deliver => DeliverKeepsFlights(s);
    case Collect => CollectKeepsFlights(s);
    case Report(batch) => ReportKeepsFlights(s, batch);
    case Settle(key) => SettleKeepsFlights(s, key);
    case Spawn(root) => SpawnKeepsFlights(s, root);
    case Sampled(i, seen) => SampledKeepsFlights(s, i, seen);
    case Apply => ApplyKeepsFlights(s);
    case Submit(submitted, next) => SubmitKeepsFlights(s, submitted, next);
    case Finish => FinishKeepsFlights(s);
    case World(_) => QuietKeepsFlights(s, l);
    case Lock => QuietKeepsFlights(s, l);
    case Tick(_) => QuietKeepsFlights(s, l);
    case Unlock => QuietKeepsFlights(s, l);
    case Rest => QuietKeepsFlights(s, l);
  }

  lemma {:induction false} RunKeepsFlights(s: State, labels: seq<Label>, t: State)
    requires Flights(s) && Leads(s, labels, t)
    ensures Flights(t)
    decreases |labels|
  {
    hide Flights, Enabled, After;
    if labels != [] {
      StepKeepsFlights(s, labels[0]);
      RunKeepsFlights(After(s, labels[0]), labels[1..], t);
    }
  }

  lemma ReachableFlights(s: State)
    requires Reachable(s)
    ensures Flights(s)
  {
    hide Flights, Initial;
    var app, labels :| Leads(Initial(app), labels, s);
    InitialFlights(app);
    RunKeepsFlights(Initial(app), labels, s);
  }

  // ---- the promises ----

  /** `assert!(sampling_roots.insert(root))` never fires. */
  lemma SampleStartsOnAFreeRoot(s: State, root: Path)
    requires Reachable(s) && Enabled(s, Spawn(root))
    ensures root !in s.sampling
  {
    hide Reachable, Balanced, RunningFine, CompletedFine;
    ReachableFlights(s);
    SpawnedRootIsFree(s, root);
  }

  /** At most one probe per tab and root, one sample per root, and the pump's sets say exactly which. */
  lemma AtMostOneOutstanding(s: State, key: Key, root: Path)
    requires Reachable(s)
    ensures (Unanswered(s) + Undelivered(s))[key] == if key in s.inFlight then 1 else 0
    ensures SampledRoots(s)[root] == if root in s.sampling then 1 else 0
  {
    ReachableFlights(s);
  }

  /** Every probe started has given one result or still owes it, and every result one delivery. */
  lemma OneResultOneDelivery(s: State, key: Key)
    requires Reachable(s)
    ensures s.started[key] == s.answered[key] + Unanswered(s)[key]
    ensures s.answered[key] == s.delivered[key] + Undelivered(s)[key]
    ensures s.started[key] == s.delivered[key] + if key in s.inFlight then 1 else 0
  {
    ReachableFlights(s);
    AtMostOneOutstanding(s, key, key.root);
  }
}
