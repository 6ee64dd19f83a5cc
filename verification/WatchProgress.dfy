/**
 The pump never gets stuck on a probe: as long as one is outstanding some step of its own is enabled,
 and every step of its own brings a key closer to being freed, so a run without new reports frees every key.
 */
module WatchProgress {
  import opened WatchTypes
  import opened WatchPump
  import opened WatchFlights

  function UiWork(ui: Ui): nat
  {
    match ui case Free => 0 case Finishing(_, _) => 2 case Submitting(_) => 3
  }

  function PhaseWork(phase: Phase): nat
  {
    match phase case Collecting => 0 case Starting => 1 case Locked => 2
  }

  /** Steps left until every outstanding key is freed. */
  function Work(s: State): nat
  {
    7 * |Total(OfProbe, s.ready)| + 6 * |Total(OfSample, s.running)| + 5 * |Total(OfCompleted, s.completed)|
    + 4 * |Total(OfResult, s.posted)| + UiWork(s.ui) + |Total(OfDelivery, s.deliveries)| + PhaseWork(s.phase)
  }

  /** A step that brings nothing new in. */
  predicate OwnStep(l: Label)
  {
    !l.World? && !l.Lock? && !l.Tick? && !l.Report? && !l.Settle?
  }

  lemma {:induction false} TotalProbes(probes: seq<Probe>)
    ensures |Total(OfProbe, probes)| == |probes|
    decreases |probes|
  {
    if probes != [] {
      TotalProbes(probes[1..]);
    }
  }

  lemma {:induction false} TotalResults(results: seq<Result>)
    ensures |Total(OfResult, results)| == |results|
    decreases |results|
  {
    if results != [] {
      TotalResults(results[1..]);
    }
  }

  lemma SpawnAdvances(s: State, root: Path)
    requires s.phase.Starting? && ByRoot(s.ready, root) != []
    ensures Work(SpawnStep(s, root)) < Work(s)
  {
    hide ByRoot, OffRoot;
    SplitByRoot(s.ready, root);
    TotalProbes(ByRoot(s.ready, root));
    TotalSnoc(OfSample, s.running, Sample(root, ByRoot(s.ready, root)));
  }

  lemma SampledAdvances(s: State, i: nat, seen: map<Path, Outcome>)
    requires i < |s.running| && s.running[i].probes != []
    ensures Work(SampledStep(s, i, seen)) < Work(s)
  {
    hide Total, Changed, Judged, Sights, Keys;
    var sample := s.running[i];
    var c := Completed(sample.root, Judged(sample.probes, Sights(sample.probes, seen)));
    JudgedKeys(sample.probes, Sights(sample.probes, seen));
    TotalProbes(sample.probes);
    TotalWithout(OfSample, s.running, i);
    TotalSnoc(OfCompleted, s.completed, c);
  }

  lemma CollectAdvances(s: State)
    requires s.completed != [] && s.completed[0].results != []
    ensures Work(CollectStep(s)) < Work(s)
  {
    var results := s.completed[0].results;
    TotalAppend(OfResult, s.posted, results);
    TotalResults(results);
    assert Total(OfCompleted, s.completed) == Total(OfResult, results) + Total(OfCompleted, s.completed[1..]);
  }

  lemma ApplyAdvances(s: State)
    requires s.posted != [] && s.ui.Free?
    ensures Work(ApplyStep(s)) < Work(s)
  {
    hide Disposed, StillCurrent;
    assert Total(OfResult, s.posted) == OfResult(s.posted[0]) + Total(OfResult, s.posted[1..]);
  }

  lemma FinishAdvances(s: State)
    requires s.ui.Finishing?
    ensures Work(FinishStep(s)) < Work(s)
  {
    hide Refreshed, Total;
    TotalSnoc(OfDelivery, s.deliveries, FinishStep(s).deliveries[|s.deliveries|]);
  }

  lemma DeliverAdvances(s: State)
    requires s.deliveries != []
    ensures Work(DeliverStep(s)) < Work(s)
  {
    hide MergePending;
    assert Total(OfDelivery, s.deliveries) == OfDelivery(s.deliveries[0]) + Total(OfDelivery, s.deliveries[1..]);
  }

  lemma IdleOwesNothing(s: State)
    requires Flights(s) && s.ready == [] && s.running == [] && s.completed == [] && s.posted == [] && s.ui.Free?
             && s.deliveries == []
    ensures s.inFlight == {}
  {
    hide Shaped, SampledRoots;
    assert multiset(s.inFlight) == multiset{};
    forall k ensures k !in s.inFlight {
      assert k in s.inFlight <==> k in multiset(s.inFlight);
    }
  }

  lemma {:induction false} OwnRootGroup(probes: seq<Probe>)
    requires probes != []
    ensures ByRoot(probes, probes[0].watch.batch.root) != []
  {
  }

  lemma SubmitAdvances(s: State, submitted: bool, next: App)
    requires OutsideEnabled(s, Submit(submitted, next))
    ensures Work(OutsideStep(s, Submit(submitted, next))) < Work(s)
  {
    hide Total;
  }

  lemma OutsideAdvances(s: State, l: Label)
    requires Flights(s) && OwnStep(l) && OutsideEnabled(s, l)
    ensures Work(OutsideStep(s, l)) < Work(s)
  {
    hide Flights, Work, SampledStep, ApplyStep, FinishStep;
    match l
    case Sampled(i, seen) => SampledAdvances(s, i, seen);
    case Apply => ApplyAdvances(s);
    case Submit(submitted, next) => SubmitAdvances(s, submitted, next);
    case Finish => FinishAdvances(s);
  }

  lemma PumpAdvances(s: State, l: Label)
    requires Flights(s) && OwnStep(l) && PumpEnabled(s, l)
    ensures Work(PumpStep(s, l)) < Work(s)
  {
    hide Balanced, ReadyFree, Total, ByRoot, SpawnStep, CollectStep, DeliverStep;
    match l
    case Deliver => DeliverAdvances(s);
    case Collect => CollectAdvances(s);
    case Spawn(root) => SpawnAdvances(s, root);
    case Unlock =>
    case Rest =>
  }

  /** Whatever own step the pump, a sample or the UI thread takes, it brings the deliveries closer. */
  lemma OwnStepAdvances(s: State, l: Label)
    requires Flights(s) && OwnStep(l) && Enabled(s, l)
    ensures Work(After(s, l)) < Work(s)
  {
    hide Flights, Work, PumpStep, OutsideStep, PumpEnabled, OutsideEnabled;
    if PumpEnabled(s, l) {
      PumpAdvances(s, l);
    } else {
      OutsideAdvances(s, l);
    }
  }

  /** While a probe is outstanding, the pump, a sample or the UI thread can move on by itself. */
  lemma ProbeNeverStuck(s: State) returns (l: Label)
    requires Flights(s) && s.inFlight != {}
    ensures OwnStep(l) && Enabled(s, l) && Work(After(s, l)) < Work(s)
  {
    hide Balanced, Work, After, AllPaths;
    if s.phase.Locked? {
      l := Unlock;
    } else if s.phase.Starting? && s.ready == [] {
      l := Rest;
    } else if s.phase.Starting? {
      OwnRootGroup(s.ready);
      l := Spawn(s.ready[0].watch.batch.root);
    } else if s.deliveries != [] {
      l := Deliver;
    } else if s.completed != [] {
      l := Collect;
    } else if s.ui.Finishing? {
      l := Finish;
    } else if s.ui.Submitting? {
      l := Submit(false, s.app);
    } else if s.posted != [] {
      l := Apply;
    } else if s.running != [] {
      l := Sampled(0, map[]);
    } else {
      IdleOwesNothing(s);
    }
    OwnStepAdvances(s, l);
  }

  /**
   Every run of own steps is finite, whatever is read and whatever refreshes change, and a run that
   cannot go on has delivered every outstanding probe.
   */
  lemma {:induction false} OwnRunsFreeEveryKey(s: State, labels: seq<Label>, t: State)
    requires Flights(s) && Leads(s, labels, t) && forall i :: 0 <= i < |labels| ==> OwnStep(labels[i])
    ensures |labels| + Work(t) <= Work(s)
    ensures (forall l :: OwnStep(l) ==> !Enabled(t, l)) ==> t.inFlight == {}
    decreases |labels|
  {
    hide Flights, Enabled, After, Work, OwnStep;
    if labels == [] {
      if t.inFlight != {} {
        var l := ProbeNeverStuck(t);
      }
    } else {
      OwnStepAdvances(s, labels[0]);
      StepKeepsFlights(s, labels[0]);
      OwnRunsFreeEveryKey(After(s, labels[0]), labels[1..], t);
    }
  }

  /** Such a run exists from every state of the invariant. */
  lemma {:induction false} EveryKeyIsFreed(s: State) returns (labels: seq<Label>, t: State)
    requires Flights(s)
    ensures Leads(s, labels, t) && t.inFlight == {} && |labels| <= Work(s)
    ensures forall i :: 0 <= i < |labels| ==> OwnStep(labels[i])
    decreases Work(s)
  {
    hide Flights, Enabled, After, Work;
    if s.inFlight == {} {
      return [], s;
    }
    var l := ProbeNeverStuck(s);
    StepKeepsFlights(s, l);
    var more, end := EveryKeyIsFreed(After(s, l));
    labels, t := [l] + more, end;
    assert labels[1..] == more;
  }
}
