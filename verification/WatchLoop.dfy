/**
 The pump thread itself, in the form of the source: tables and sets that the loop updates in place
 (src/app/directory_watch_refresh.rs:119-136, 399-514).

 Every part is proved to be a run of the transition system in `WatchPump`, so what is proved there
 holds for it. What samples, the UI thread and everyone else do in between is chosen freely.
 */
module WatchLoop {
  import opened Prelude
  import opened WatchTypes
  import opened WatchPump
  import opened WatchFlights
  import opened WatchBatches
  import opened WatchDecisions

  lemma LeadsStep(s: State, labels: seq<Label>, t: State, l: Label)
    requires Leads(s, labels, t) && Enabled(t, l)
    ensures Leads(s, labels + [l], After(t, l))
  {
    hide Enabled, After;
    assert Leads(t, [l], After(t, l)) by { assert [l][1..] == []; }
    LeadsOn(s, labels, t, [l], After(t, l));
  }

  // ---- what the pump itself does in a run ----

  predicate ByPump(l: Label)
  {
    !l.World? && !l.Sampled? && !l.Apply? && !l.Submit? && !l.Finish?
  }

  /** The steps of the pump thread, without those of everyone else. */
  function Own(labels: seq<Label>): seq<Label>
  {
    if labels == [] then []
    else
      var last := labels[|labels| - 1];
      Own(labels[..|labels| - 1]) + if ByPump(last) then [last] else []
  }

  lemma OwnSnoc(labels: seq<Label>, l: Label)
    ensures Own(labels + [l]) == Own(labels) + if ByPump(l) then [l] else []
  {
    assert (labels + [l])[..|labels|] == labels;
  }

  lemma {:induction false} OwnAppend(a: seq<Label>, b: seq<Label>)
    ensures Own(a + b) == Own(a) + Own(b)
    decreases |b|
  {
    if b == [] {
      assert a + b == a;
    } else {
      var n := |b| - 1;
      OwnAppend(a, b[..n]);
      OwnSnoc(a + b[..n], b[n]);
      OwnSnoc(b[..n], b[n]);
      assert b == b[..n] + [b[n]] && a + b == (a + b[..n]) + [b[n]];
    }
  }

  lemma {:induction false} AllOwn(labels: seq<Label>)
    requires forall i :: 0 <= i < |labels| ==> ByPump(labels[i])
    ensures Own(labels) == labels
    decreases |labels|
  {
    if labels != [] {
      AllOwn(labels[..|labels| - 1]);
    }
  }

  /** At least `most` steps, all of them `l`. */
  ghost predicate OnlyThese(labels: seq<Label>, l: Label, most: nat)
  {
    |labels| >= most && forall i :: 0 <= i < |labels| ==> labels[i] == l
  }

  /**
   The steps of a pass up to the end of its decisions: it takes every delivery and every sample that was
   waiting, takes the lock, updates the gate, reports the batches, and settles what is pending.
   */
  ghost predicate IsPass(own: seq<Label>, deliveries: nat, samples: nat, now: nat, batches: seq<Batch>)
  {
    exists a, b, c: seq<Label> ::
      && OnlyThese(a, Deliver, deliveries) && OnlyThese(b, Collect, samples)
      && (forall i :: 0 <= i < |c| ==> c[i].Settle?)
      && own == a + b + [Lock, Tick(now)] + Reports(batches) + c
  }

  function Reports(batches: seq<Batch>): seq<Label>
  {
    seq(|batches|, i requires 0 <= i < |batches| => Report(batches[i]))
  }

  /** Groups not started yet, as `probes_by_root` made them, against the probes still waiting. */
  ghost predicate Remaining(roots: map<Path, seq<Probe>>, left: set<Path>, ready: seq<Probe>)
  {
    && left <= roots.Keys
    && (forall root :: root in left <==> ByRoot(ready, root) != [])
    && (forall root :: root in left ==> roots[root] == ByRoot(ready, root))
  }

  lemma {:induction false} OtherGroupsStay(probes: seq<Probe>, gone: Path, root: Path)
    ensures ByRoot(OffRoot(probes, gone), root) == if root == gone then [] else ByRoot(probes, root)
    decreases |probes|
  {
    if probes != [] {
      var p := probes[0];
      OtherGroupsStay(probes[1..], gone, root);
      if p.watch.batch.root == gone {
        assert OffRoot(probes, gone) == OffRoot(probes[1..], gone);
      } else {
        assert OffRoot(probes, gone) == [p] + OffRoot(probes[1..], gone);
        assert OffRoot(probes, gone)[1..] == OffRoot(probes[1..], gone);
      }
    }
  }

  lemma RemainingAfter(roots: map<Path, seq<Probe>>, left: set<Path>, ready: seq<Probe>, gone: Path)
    requires Remaining(roots, left, ready) && gone in left
    ensures Remaining(roots, left - {gone}, OffRoot(ready, gone))
  {
    hide ByRoot, OffRoot;
    forall root
      ensures ByRoot(OffRoot(ready, gone), root) == if root == gone then [] else ByRoot(ready, root)
    {
      OtherGroupsStay(ready, gone, root);
    }
  }

  lemma NoneRemaining(roots: map<Path, seq<Probe>>, ready: seq<Probe>)
    requires Remaining(roots, {}, ready)
    ensures ready == []
  {
    if ready != [] {
      OwnGroup(ready);
    }
  }

  lemma OwnGroup(probes: seq<Probe>)
    requires probes != []
    ensures ByRoot(probes, probes[0].watch.batch.root) != []
  {
  }

  /** `Reported`, as far as the tabs in `ids` are concerned. */
  function ReportedTo(s: State, batch: Batch, ids: set<nat>): map<Key, Watch>
    requires ids <= s.app.tabs.Keys
  {
    map key | key in s.pending.Keys
      + (set id | id in ids && Shows(s.app.tabs[id], batch.root) :: Key(id, batch.root)) ::
      if !(key.root == batch.root && key.tab in ids && Shows(s.app.tabs[key.tab], batch.root)) then s.pending[key]
      else if key in s.pending then MergedWatch(s.pending[key], ForTab(s, key.tab, batch))
      else ForTab(s, key.tab, batch)
  }

  lemma ReportedToNone(s: State, batch: Batch)
    ensures ReportedTo(s, batch, s.app.tabs.Keys - s.app.tabs.Keys) == s.pending
  {
    hide Shows;
  }

  lemma ReportedToOne(s: State, batch: Batch, ids: set<nat>, id: nat)
    requires ids <= s.app.tabs.Keys && id in s.app.tabs && id !in ids
    ensures ReportedTo(s, batch, ids + {id}) ==
              if Shows(s.app.tabs[id], batch.root) then MergePending(ReportedTo(s, batch, ids), ForTab(s, id, batch))
              else ReportedTo(s, batch, ids)
  {
    hide Shows;
  }

  lemma ReportedToAll(s: State, batch: Batch)
    ensures ReportedTo(s, batch, s.app.tabs.Keys) == Reported(s, batch)
  {
    hide Shows;
  }

  /** The application, the channels, and the history of probes. */
  datatype Shared = Shared(
    app: App,
    running: seq<Sample>,
    completed: seq<Completed>,
    posted: seq<Result>,
    ui: Ui,
    deliveries: seq<Delivery>,
    started: multiset<Key>,
    answered: multiset<Key>,
    delivered: multiset<Key>)

  class Pump {
    // the locals of the thread
    var pending: map<Key, Watch>
    var inFlight: set<Key>
    var sampling: set<Path>
    var gate: map<Key, Option<nat>>
    var phase: Phase
    var ready: seq<Probe>
    // what samples, the UI thread and everyone else share with it
    var shared: Shared

    function View(): State
      reads this
    {
      State(shared.app, pending, inFlight, sampling, gate, phase, ready, shared.running, shared.completed,
        shared.posted,
            shared.ui, shared.deliveries, shared.started, shared.answered, shared.delivered)
    }

    constructor (app: App)
      ensures View() == Initial(app)
      ensures pending == map[] && inFlight == {} && sampling == {} && gate == map[] && ready == []
    {
      pending, inFlight, sampling, gate, phase, ready := map[], {}, {}, map[], Collecting, [];
      shared := Shared(app, [], [], [], Free, [], multiset{}, multiset{}, multiset{});
    }

    /** Any number of steps of samples, of the UI thread and of everyone else, added to a run. */
    method Interfere(ghost start: State, ghost run: seq<Label>) returns (ghost labels: seq<Label>)
      requires Leads(start, run, View())
      modifies `shared
      ensures Leads(start, labels, View()) && Own(labels) == Own(run)
      ensures OnlyOutside(old(View()), View())
    {
      hide OutsideStep, OutsideEnabled, PumpEnabled, PumpStep, Leads, Own;
      labels := run;
      var rounds: nat := *;
      while rounds > 0
        invariant Leads(start, labels, View()) && Own(labels) == Own(run)
        invariant OnlyOutside(old(View()), View())
      {
        var l: Label := *;
        if OutsideEnabled(View(), l) {
          ghost var before := View();
          var t := OutsideStep(View(), l);
          OutsideIsNotPump(before, l);
          OutsideLeavesPump(before, l);
          shared := Shared(t.app, t.running, t.completed, t.posted, t.ui, t.deliveries, t.started, t.answered,
            t.delivered);
          LeadsStep(start, labels, before, l);
          OwnSnoc(labels, l);
          labels := labels + [l];
        }
        rounds := rounds - 1;
      }
    }

    /** The body of the delivery loop. */
    method TakeDelivery()
      requires phase.Collecting? && shared.deliveries != []
      modifies `inFlight, `gate, `pending, `shared
      ensures View() == DeliverStep(old(View()))
    {
      hide MergePending;
      var delivery := shared.deliveries[0];
      inFlight := inFlight - {delivery.key};
      if delivery.refreshed {
        gate := gate[delivery.key := None];
      }
      if delivery.retry.Some? {
        Merge(delivery.retry.value);
      }
      shared := shared.(deliveries := shared.deliveries[1..], delivered := shared.delivered + multiset{delivery.key});
    }

    /** `merge_pending`. */
    method Merge(watch: Watch)
      modifies `pending
      ensures pending == MergePending(old(pending), watch)
    {
      var key := watch.Id();
      if key in pending {
        var existing := pending[key];
        pending := pending[key :=
          Watch(existing.tab, if existing.observed >= watch.observed then existing.observed else watch.observed,
          Batch(existing.batch.root, existing.batch.paths + watch.batch.paths, existing.batch.uncertain
            || watch.batch.uncertain))];
      } else {
        pending := pending[key := watch];
      }
    }

    method TakeDeliveries() returns (ghost labels: seq<Label>)
      requires phase.Collecting?
      modifies this
      ensures Leads(old(View()), labels, View()) && phase.Collecting?
      ensures OnlyThese(Own(labels), Deliver, |old(shared.deliveries)|)
      ensures old(shared.completed) <= shared.completed
    {
      hide Leads, Own, DeliverStep, OutsideEnabled, PumpStep, OutsideStep;
      NoStep(View());
      labels := Interfere(old(View()), []);
      var most: nat := *;
      if most < |shared.deliveries| {
        most := |shared.deliveries|;
      }
      while most > 0 && shared.deliveries != []
        invariant Leads(old(View()), labels, View()) && phase.Collecting?
        invariant OnlyThese(Own(labels), Deliver, 0) && old(shared.completed) <= shared.completed
        invariant |old(shared.deliveries)| <= |Own(labels)| + most
        invariant |old(shared.deliveries)| <= |Own(labels)| + |shared.deliveries|
      {
        ghost var before := View();
        DeliverIs(before);
        TakeDelivery();
        LeadsStep(old(View()), labels, before, Deliver);
        OwnSnoc(labels, Deliver);
        labels := Interfere(old(View()), labels + [Deliver]);
        most := most - 1;
      }
    }

    /** The body of the sample loop: the root is free again, its results go to the UI thread. */
    method TakeSample()
      requires phase.Collecting? && shared.completed != []
      modifies `sampling, `shared
      ensures View() == CollectStep(old(View()))
    {
      var sample := shared.completed[0];
      shared := shared.(completed := shared.completed[1..]);
      sampling := sampling - {sample.root};
      var i := 0;
      while i < |sample.results|
        invariant 0 <= i <= |sample.results|
        invariant sampling == old(sampling) - {sample.root}
        invariant shared == old(shared).(completed := old(shared).completed[1..], posted := old(shared).posted
                  + sample.results[..i])
      {
        shared := shared.(posted := shared.posted + [sample.results[i]]);
        assert sample.results[..i + 1] == sample.results[..i] + [sample.results[i]];
        i := i + 1;
      }
      assert sample.results[..i] == sample.results;
    }

    method TakeSamples() returns (ghost labels: seq<Label>)
      requires phase.Collecting?
      modifies this
      ensures Leads(old(View()), labels, View()) && phase.Collecting?
      ensures OnlyThese(Own(labels), Collect, |old(shared.completed)|)
    {
      hide Leads, Own, CollectStep, OutsideEnabled, PumpStep, OutsideStep;
      NoStep(View());
      labels := Interfere(old(View()), []);
      var most: nat := *;
      if most < |shared.completed| {
        most := |shared.completed|;
      }
      while most > 0 && shared.completed != []
        invariant Leads(old(View()), labels, View()) && phase.Collecting?
        invariant OnlyThese(Own(labels), Collect, 0)
        invariant |old(shared.completed)| <= |Own(labels)| + most
        invariant |old(shared.completed)| <= |Own(labels)| + |shared.completed|
      {
        ghost var before := View();
        CollectIs(before);
        TakeSample();
        LeadsStep(old(View()), labels, before, Collect);
        OwnSnoc(labels, Collect);
        labels := Interfere(old(View()), labels + [Collect]);
        most := most - 1;
      }
    }

    /** The body of the batch loop under the lock. */
    method MergeBatch(batch: Batch)
      requires phase.Locked?
      modifies `shared, `pending
      ensures View() == ReportStep(old(View()), batch)
    {
      hide RenameActive, Shows, MergePending, ReportedTo, Reported;
      if batch.root in shared.app.operations && !RenameActive(shared.app, batch.root) {
        shared := shared.(app := shared.app.(deferred := shared.app.deferred + {batch.root}));
        return;
      }
      var left := shared.app.tabs.Keys;
      ReportedToNone(View(), batch);
      while left != {}
        invariant left <= shared.app.tabs.Keys && shared == old(shared)
        invariant pending == ReportedTo(old(View()), batch, shared.app.tabs.Keys - left)
        decreases left
      {
        var id :| id in left;
        ghost var done := shared.app.tabs.Keys - left;
        ReportedToOne(old(View()), batch, done, id);
        left := left - {id};
        assert shared.app.tabs.Keys - left == done + {id};
        if Shows(shared.app.tabs[id], batch.root) {
          Merge(Watch(id, shared.app.tabs[id].latest, batch));
        }
      }
      assert shared.app.tabs.Keys - left == shared.app.tabs.Keys;
      ReportedToAll(old(View()), batch);
    }

    method MergeBatches(batches: seq<Batch>) returns (ghost labels: seq<Label>)
      requires phase.Locked?
      modifies this
      ensures Leads(old(View()), labels, View()) && phase.Locked?
      ensures labels == Reports(batches)
    {
      hide Leads, ReportStep, OutsideEnabled, PumpStep;
      labels := [];
      NoStep(View());
      var i := 0;
      while i < |batches|
        invariant 0 <= i <= |batches| && phase.Locked?
        invariant Leads(old(View()), labels, View())
        invariant |labels| == i && forall j :: 0 <= j < i ==> labels[j] == Report(batches[j])
      {
        ghost var before := View();
        ReportIs(before, batches[i]);
        MergeBatch(batches[i]);
        LeadsStep(old(View()), labels, before, Report(batches[i]));
        labels := labels + [Report(batches[i])];
        i := i + 1;
      }
    }

    /** The body of the drain loop: what happens to one pending watch. */
    method SettleOne(key: Key)
      requires phase.Locked? && key in pending
      modifies `shared, `pending, `inFlight, `ready
      ensures View() == SettleStep(old(View()), key)
    {
      hide Disposed;
      var watch := pending[key];
      var disposition := Disposed(shared.app, watch);
      match disposition
      case Drop =>
        pending := pending - {key};
      case DeferredOperation =>
        pending := pending - {key};
        shared := shared.(app := shared.app.(deferred := shared.app.deferred + {watch.batch.root}));
      case Wait =>
      case ProbeIt =>
        if !(key in gate || key in inFlight || key.root in sampling) {
          ProbedTab(shared.app, watch);
          pending := pending - {key};
          inFlight := inFlight + {key};
          ready := ready + [Prepared(shared.app, watch)];
          shared := shared.(started := shared.started + multiset{key});
        }
    }

    /** `pending.drain()`: every watch is settled once, in any order; what has to wait stays, what is free is probed. */
    method Drain() returns (ghost labels: seq<Label>)
      requires phase.Locked? && PendingKeyed(View())
      modifies this
      ensures Leads(old(View()), labels, View()) && phase.Locked?
      ensures forall i :: 0 <= i < |labels| ==> labels[i].Settle?
      ensures forall key :: key in pending <==> HasToWait(old(View()), key)
      ensures forall key :: key in pending ==>
                key in old(pending) && pending[key] == old(pending)[key] && HasToWait(View(), key)
      ensures forall key :: key in inFlight <==> key in old(inFlight) || IsFree(old(View()), key)
    {
      hide Leads, SettleStep, OutsideEnabled, PumpStep, HasToWait, IsFree, OnGround;
      labels := [];
      ghost var s0 := View();
      NoStep(s0);
      var left := pending.Keys;
      OnGroundFirst(s0);
      while left != {}
        invariant left <= pending.Keys <= s0.pending.Keys && phase.Locked? && OnGround(s0, View())
        invariant Leads(s0, labels, View()) && forall i :: 0 <= i < |labels| ==> labels[i].Settle?
        invariant forall key :: key in s0.pending && (key in left || HasToWait(s0, key)) <==> key in pending
        invariant forall key :: key in pending ==> pending[key] == s0.pending[key]
        invariant forall key ::
                    key in inFlight <==> key in s0.inFlight || (key in s0.pending && key !in left && IsFree(s0, key))
        decreases left
      {
        var key :| key in left;
        ghost var before := View();
        SettleIs(before, key);
        SettleMeans(s0, before, key);
        left := left - {key};
        SettleOne(key);
        LeadsStep(s0, labels, before, Settle(key));
        labels := labels + [Settle(key)];
      }
      WaitingIsPending(s0);
      forall key | key in pending ensures HasToWait(View(), key) {
        StillWaiting(s0, View(), key);
      }
    }

    /** `start_probe_samples`: one sample per root, on a root that is not being sampled. */
    method StartSamples() returns (ghost labels: seq<Label>)
      requires phase.Starting? && ReadyFree(View())
      modifies `ready, `shared, `sampling
      ensures Leads(old(View()), labels, View()) && phase.Starting? && ready == []
    {
      hide Leads, ByRoot, OffRoot, OutsideEnabled, PumpStep, ReadyFree, Remaining;
      ghost var unlocked := View();
      NoStep(unlocked);
      labels := Interfere(unlocked, []);
      SameReady(unlocked, View());
      var roots := GroupByRoot(ready);
      var left := roots.Keys;
      assert Remaining(roots, left, ready) by { AllRemain(roots, ready); }
      while left != {}
        invariant phase.Starting? && ReadyFree(View()) && Remaining(roots, left, ready)
        invariant Leads(old(View()), labels, View())
        decreases left
      {
        var root :| root in left;
        ghost var before, was := View(), left;
        left := left - {root};
        GroupRemains(roots, was, ready, root);
        SpawnedRootIsFree(before, root);
        assert root !in sampling;
        sampling := sampling + {root};
        shared := shared.(running := shared.running + [Sample(root, roots[root])]);
        RemainingAfter(roots, was, ready, root);
        OthersStillFree(before, root);
        ready := OffRoot(ready, root);
        SpawnIs(before, root);
        LeadsStep(old(View()), labels, before, Spawn(root));
        ghost var spawned := View();
        labels := Interfere(old(View()), labels + [Spawn(root)]);
        SameReady(spawned, View());
      }
      NoneRemaining(roots, ready);
    }

    /**
     One pass of the loop. Up to the end of its decisions it takes every delivery and sample that was
     waiting, reports every batch its events come to, and settles what is pending: `judged` is what it
     decides on, and there exactly what has to wait stays pending and exactly what is free goes into
     flight. Afterwards nothing is left unstarted.
     */
    method Pass(events: seq<Event>, now: nat)
      returns (ghost before: seq<Label>, ghost judged: State, ghost settles: seq<Label>, ghost decided: State,
               ghost rest: seq<Label>, ghost batches: seq<Batch>)
      requires phase.Collecting? && Flights(View())
      modifies this
      ensures Leads(old(View()), before, judged) && Leads(judged, settles, decided) && Leads(decided, rest, View())
      ensures Coalesced(events, batches)
      ensures IsPass(Own(before) + settles, |old(shared.deliveries)|, |old(shared.completed)|, now, batches)
      ensures forall key :: key in decided.pending <==> HasToWait(judged, key)
      ensures forall key :: key in decided.inFlight <==> key in judged.inFlight || IsFree(judged, key)
      ensures forall key :: key in decided.pending ==> HasToWait(decided, key)
      ensures phase.Collecting? && ready == [] && pending == decided.pending && inFlight == decided.inFlight
      ensures Flights(View())
    {
      hide Leads, Flights, PumpStep, OutsideEnabled, GateAfter, HasToWait, IsFree, Own, Coalesced;
      ghost var origin := View();
      before := TakeDeliveries();
      ghost var a := Own(before);
      ghost var s1 := View();
      ghost var more := TakeSamples();
      ghost var b := Own(more);
      LeadsOn(origin, before, s1, more, View());
      OwnAppend(before, more);
      before := before + more;
      ghost var s2 := View();
      var merged := Coalesce(events);
      batches := merged;
      phase := Locked;
      LockIs(s2);
      LeadsStep(origin, before, s2, Lock);
      OwnSnoc(before, Lock);
      before := before + [Lock];
      ghost var s3 := View();
      gate := GateAfter(gate, shared.app, now);
      TickIs(s3, now);
      LeadsStep(origin, before, s3, Tick(now));
      OwnSnoc(before, Tick(now));
      before := before + [Tick(now)];
      ghost var s4 := View();
      RunKeepsFlights(origin, before, s4);
      more, judged, settles := Decide(merged);
      LeadsOn(origin, before, s4, more, judged);
      OwnAppend(before, more);
      before := before + more;
      decided := View();
      PassShape(a, b, settles, Own(before) + settles, |old(shared.deliveries)|, |old(shared.completed)|, now, batches);
      LeadsOn(origin, before, judged, settles, decided);
      phase := Starting;
      rest := StartProbes(origin, before + settles, decided);
      RunKeepsFlights(decided, rest, View());
    }

    /** What follows the lock: the probes that are ready start, and the pass is over. */
    method StartProbes(ghost origin: State, ghost labels: seq<Label>, ghost decided: State)
          returns (ghost rest: seq<Label>)
      requires Flights(origin) && Leads(origin, labels, decided)
      requires decided.phase.Locked? && View() == decided.(phase := Starting)
      modifies `phase, `ready, `shared, `sampling
      ensures Leads(decided, rest, View()) && Flights(decided)
      ensures phase.Collecting? && ready == []
    {
      hide Leads, Flights, PumpStep, OutsideEnabled;
      RunKeepsFlights(origin, labels, decided);
      NoStep(decided);
      UnlockIs(decided);
      LeadsStep(decided, [], decided, Unlock);
      rest := [] + [Unlock];
      ghost var s1 := View();
      RunKeepsFlights(decided, rest, s1);
      FlightsReady(s1);
      ghost var more := StartSamples();
      ghost var s2 := View();
      LeadsOn(decided, rest, s1, more, s2);
      phase := Collecting;
      RestIs(s2);
      LeadsStep(decided, rest + more, s2, Rest);
      rest := rest + more + [Rest];
    }

    /**
     The reports and the drain, under the lock. `judged` is what the drain looks at, after the reports:
     exactly what has to wait there stays pending, and exactly what is free there goes into flight.
     */
    method Decide(batches: seq<Batch>)
      returns (ghost labels: seq<Label>, ghost judged: State, ghost settles: seq<Label>)
      requires phase.Locked? && Flights(View())
      modifies this
      ensures Leads(old(View()), labels, judged) && Leads(judged, settles, View()) && phase.Locked?
      ensures Own(labels) == Reports(batches) && forall i :: 0 <= i < |settles| ==> settles[i].Settle?
      ensures forall key :: key in pending <==> HasToWait(judged, key)
      ensures forall key :: key in pending ==> HasToWait(View(), key)
      ensures forall key :: key in inFlight <==> key in judged.inFlight || IsFree(judged, key)
    {
      hide Leads, HasToWait, IsFree, OnlyOutside, Flights, Own;
      labels := MergeBatches(batches);
      AllOwn(labels);
      assert phase.Locked?;
      labels := Interfere(old(View()), labels);
      judged := View();
      RunKeepsFlights(old(View()), labels, judged);
      FlightsReady(judged);
      settles := Drain();
    }
  }

  /** From `s` to `t` the pump itself did nothing, and under the lock the application stayed as it was. */
  ghost predicate OnlyOutside(s: State, t: State)
  {
    && t == s.(app := t.app, running := t.running, completed := t.completed, posted := t.posted, ui := t.ui,
               deliveries := t.deliveries, answered := t.answered)
    && s.completed <= t.completed && s.deliveries <= t.deliveries
    && (s.phase.Locked? ==> t.app == s.app)
  }

  /**
   Why a watch stays pending: its tab stays on the root, no operation has taken the root over, but a
   rename is under way, the tab is loading, or its key, its root or the gate is busy.
   */
  ghost predicate HasToWait(s: State, key: Key)
  {
    && key in s.pending
    && Concerns(s.app, key, s.pending[key].observed) && !TakenOver(s.app, key.root)
    && (key.root in s.app.operations || Busy(s.app, key) || key in s.gate || key in s.inFlight
        || key.root in s.sampling)
  }

  /** Nothing keeps the watch from being probed. */
  ghost predicate IsFree(s: State, key: Key)
  {
    && key in s.pending
    && Concerns(s.app, key, s.pending[key].observed) && key.root !in s.app.operations && !Busy(s.app, key)
    && key !in s.gate && key !in s.inFlight && key.root !in s.sampling
  }

  /** As far as decisions go nothing changed from `s` to `t`, and watches are under their own keys. */
  ghost predicate OnGround(s: State, t: State)
  {
    && t.app == s.app.(deferred := t.app.deferred) && t.gate == s.gate && t.sampling == s.sampling
    && (forall key :: key in s.pending ==> s.pending[key].Id() == key)
  }

  lemma PassShape(a: seq<Label>, b: seq<Label>, c: seq<Label>, own: seq<Label>, deliveries: nat, samples: nat, now: nat,
                  batches: seq<Batch>)
    requires OnlyThese(a, Deliver, deliveries) && OnlyThese(b, Collect, samples)
    requires forall i :: 0 <= i < |c| ==> c[i].Settle?
    requires own == a + b + [Lock] + [Tick(now)] + Reports(batches) + c
    ensures IsPass(own, deliveries, samples, now, batches)
  {
    assert a + b + [Lock] + [Tick(now)] == a + b + [Lock, Tick(now)];
  }

  lemma OnGroundFirst(s: State)
    requires PendingKeyed(s)
    ensures OnGround(s, s)
  {
  }

  lemma SettleMeans(s0: State, s: State, key: Key)
    requires OnGround(s0, s) && key in s0.pending && key in s.pending && s.pending[key] == s0.pending[key]
    requires key in s.inFlight <==> key in s0.inFlight
    ensures var t := SettleStep(s, key);
            && OnGround(s0, t) && t.phase == s.phase
            && t.pending == (if HasToWait(s0, key) then s.pending else s.pending - {key})
            && t.inFlight == (if IsFree(s0, key) then s.inFlight + {key} else s.inFlight)
  {
    hide Disposed, Renaming;
    DecisionsMean(s.app, s.pending[key]);
    DecisionsMean(s0.app, s0.pending[key]);
    DeferringChangesNothing(s0.app, s0.pending[key], s.app.deferred);
  }

  lemma WaitingIsPending(s: State)
    ensures forall key :: HasToWait(s, key) ==> key in s.pending && !IsFree(s, key)
    ensures forall key :: IsFree(s, key) ==> key in s.pending
  {
  }

  lemma StillWaiting(s: State, t: State, key: Key)
    requires OnGround(s, t) && HasToWait(s, key) && key in t.pending && t.pending[key] == s.pending[key]
    requires s.inFlight <= t.inFlight
    ensures HasToWait(t, key)
  {
  }

  lemma DeferringChangesNothing(app: App, watch: Watch, deferred: set<Path>)
    ensures Disposed(app.(deferred := deferred), watch) == Disposed(app, watch)
  {
  }

  lemma AllRemain(roots: map<Path, seq<Probe>>, ready: seq<Probe>)
    requires forall root :: root in roots <==> ByRoot(ready, root) != []
    requires forall root :: root in roots ==> roots[root] == ByRoot(ready, root)
    ensures Remaining(roots, roots.Keys, ready)
  {
    hide ByRoot;
  }

  lemma GroupRemains(roots: map<Path, seq<Probe>>, left: set<Path>, ready: seq<Probe>, root: Path)
    requires Remaining(roots, left, ready) && root in left
    ensures root in roots && roots[root] == ByRoot(ready, root) != []
  {
    hide ByRoot;
  }

  lemma FlightsReady(s: State)
    requires Flights(s)
    ensures ReadyFree(s) && PendingKeyed(s)
  {
  }

  // ---- single steps, spelt out ----

  lemma DeliverIs(s: State)
    requires s.phase.Collecting? && s.deliveries != []
    ensures Enabled(s, Deliver) && After(s, Deliver) == DeliverStep(s) && DeliverStep(s).phase.Collecting?
    ensures DeliverStep(s).deliveries == s.deliveries[1..] && DeliverStep(s).completed == s.completed
  {
  }

  lemma CollectIs(s: State)
    requires s.phase.Collecting? && s.completed != []
    ensures Enabled(s, Collect) && After(s, Collect) == CollectStep(s) && CollectStep(s).phase.Collecting?
    ensures CollectStep(s).completed == s.completed[1..]
  {
  }

  lemma LockIs(s: State)
    requires s.phase.Collecting?
    ensures Enabled(s, Lock) && After(s, Lock) == s.(phase := Locked)
  {
  }

  lemma TickIs(s: State, now: nat)
    requires s.phase.Locked?
    ensures Enabled(s, Tick(now)) && After(s, Tick(now)) == s.(gate := GateAfter(s.gate, s.app, now))
  {
  }

  lemma ReportIs(s: State, batch: Batch)
    requires s.phase.Locked?
    ensures Enabled(s, Report(batch)) && After(s, Report(batch)) == ReportStep(s, batch)
    ensures ReportStep(s, batch).phase.Locked?
  {
  }

  lemma SettleIs(s: State, key: Key)
    requires s.phase.Locked? && key in s.pending
    ensures Enabled(s, Settle(key)) && After(s, Settle(key)) == SettleStep(s, key)
  {
  }

  lemma UnlockIs(s: State)
    requires s.phase.Locked?
    ensures Enabled(s, Unlock) && After(s, Unlock) == s.(phase := Starting)
  {
  }

  lemma SpawnIs(s: State, root: Path)
    requires s.phase.Starting? && ByRoot(s.ready, root) != []
    ensures Enabled(s, Spawn(root)) && After(s, Spawn(root)) == SpawnStep(s, root)
  {
  }

  lemma RestIs(s: State)
    requires s.phase.Starting? && s.ready == []
    ensures Enabled(s, Rest) && After(s, Rest) == s.(phase := Collecting)
  {
  }

  lemma NoStep(s: State)
    ensures Leads(s, [], s) && Own([]) == []
  {
  }

  lemma OutsideIsNotPump(s: State, l: Label)
    requires OutsideEnabled(s, l)
    ensures !PumpEnabled(s, l) && !ByPump(l) && Enabled(s, l) && After(s, l) == OutsideStep(s, l)
  {
  }

  lemma OutsideLeavesPump(s: State, l: Label)
    requires OutsideEnabled(s, l)
    ensures OnlyOutside(s, OutsideStep(s, l))
  {
    hide Judged, Sights, Keys, Decided, Disposed, Refreshed, AllPaths;
  }
}
