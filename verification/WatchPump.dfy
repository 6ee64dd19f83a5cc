/**
 The directory watch refresh pump as a labelled transition system
 (src/app/directory_watch_refresh.rs:399-514).

 The pump thread works in passes: it collects deliveries and samples, then takes the application
 lock to merge reports and decide over every pending watch, and releases it before it starts the
 samples. Samples run on threads of their own; results are applied on the UI thread, which takes the
 lock for the decision and again for the refresh. Everyone else may change the application whenever
 the pump does not hold the lock.
 */
module WatchPump {
  import opened Prelude
  import opened WatchTypes

  datatype Sample = Sample(root: Path, probes: seq<Probe>)

  datatype Completed = Completed(root: Path, results: seq<Result>)

  datatype Phase = Collecting | Locked | Starting

  datatype Ui = Free | Submitting(result: Result) | Finishing(result: Result, retry: Option<Watch>)

  datatype State = State(
    app: App,
    pending: map<Key, Watch>,
    inFlight: set<Key>,
    sampling: set<Path>,
    gate: map<Key, Option<nat>>,
    phase: Phase,
    ready: seq<Probe>,
    running: seq<Sample>,
    completed: seq<Completed>,
    posted: seq<Result>,
    ui: Ui,
    deliveries: seq<Delivery>,
    // history: probes started, results produced and deliveries received, by key
    started: multiset<Key>,
    answered: multiset<Key>,
    delivered: multiset<Key>)

  datatype Label =
    | World(app: App)
    | Deliver
    | Collect
    | Lock
    | Tick(now: nat)
    | Report(batch: Batch)
    | Settle(key: Key)
    | Unlock
    | Spawn(root: Path)
    | Rest
    | Sampled(index: nat, seen: map<Path, Outcome>)
    | Apply
    | Submit(submitted: bool, next: App)
    | Finish

  function Initial(app: App): State
  {
    State(app, map[], {}, {}, map[], Collecting, [], [], [], [], Free, [], multiset{}, multiset{}, multiset{})
  }

  // ---- the refresh gate ----

  const IDLE_INTERVAL: nat := 1_000

  predicate OnRoot(app: App, key: Key)
  {
    key.tab in app.tabs && Shows(app.tabs[key.tab], key.root)
  }

  predicate BusyOnRoot(app: App, key: Key)
  {
    OnRoot(app, key) && IsLoading(app.tabs[key.tab])
  }

  function Deadline(ready: Option<nat>, now: nat): nat
  {
    match ready case None => now + IDLE_INTERVAL case Some(t) => t
  }

  predicate GateKeeps(app: App, key: Key, ready: Option<nat>, now: nat)
  {
    OnRoot(app, key) && (BusyOnRoot(app, key) || now < Deadline(ready, now))
  }

  function GateEntry(app: App, key: Key, ready: Option<nat>, now: nat): Option<nat>
  {
    if BusyOnRoot(app, key) then ready else Some(Deadline(ready, now))
  }

  /** `RefreshGate::update`. */
  function GateAfter(gate: map<Key, Option<nat>>, app: App, now: nat): map<Key, Option<nat>>
  {
    map key | key in gate && GateKeeps(app, key, gate[key], now) :: GateEntry(app, key, gate[key], now)
  }

  // ---- probes by root ----

  function ByRoot(probes: seq<Probe>, root: Path): seq<Probe>
  {
    if probes == [] then []
    else (if probes[0].watch.batch.root == root then [probes[0]] else []) + ByRoot(probes[1..], root)
  }

  function OffRoot(probes: seq<Probe>, root: Path): seq<Probe>
  {
    if probes == [] then []
    else (if probes[0].watch.batch.root != root then [probes[0]] else []) + OffRoot(probes[1..], root)
  }

  function AllPaths(probes: seq<Probe>): set<Path>
  {
    set i, path | 0 <= i < |probes| && path in probes[i].watch.batch.paths :: path
  }

  /** The sample of a root is read under the visibility of its first probe. */
  function Sights(probes: seq<Probe>, seen: map<Path, Outcome>): map<Path, Sight>
    requires probes != []
  {
    map path | path in seen :: Sight(probes[0].visibility, seen[path])
  }

  function Judged(probes: seq<Probe>, seen: map<Path, Sight>): (r: seq<Result>)
    ensures |r| == |probes| && forall i :: 0 <= i < |r| ==> r[i] == Result(probes[i], Changed(probes[i], seen), seen)
  {
    seq(|probes|, i requires 0 <= i < |probes| => Result(probes[i], Changed(probes[i], seen), seen))
  }

  // ---- the pump thread ----

  predicate PumpEnabled(s: State, l: Label)
  {
    match l
    case Deliver => s.phase.Collecting? && s.deliveries != []
    case Collect => s.phase.Collecting? && s.completed != []
    case Lock => s.phase.Collecting?
    case Tick(_) => s.phase.Locked?
    case Report(_) => s.phase.Locked?
    case Settle(key) => s.phase.Locked? && key in s.pending
    case Unlock => s.phase.Locked?
    case Spawn(root) => s.phase.Starting? && ByRoot(s.ready, root) != []
    case Rest => s.phase.Starting? && s.ready == []
    case _ => false
  }

  function DeliverStep(s: State): State
    requires s.deliveries != []
  {
    var d := s.deliveries[0];
    s.(deliveries := s.deliveries[1..],
       inFlight := s.inFlight - {d.key},
       gate := if d.refreshed then s.gate[d.key := None] else s.gate,
       pending := if d.retry.Some? then MergePending(s.pending, d.retry.value) else s.pending,
       delivered := s.delivered + multiset{d.key})
  }

  function CollectStep(s: State): State
    requires s.completed != []
  {
    s.(completed := s.completed[1..], sampling := s.sampling - {s.completed[0].root}, posted := s.posted
      + s.completed[0].results)
  }

  function ForTab(s: State, id: nat, batch: Batch): Watch
    requires id in s.app.tabs
  {
    Watch(id, s.app.tabs[id].latest, batch)
  }

  /** Every tab that shows the root gets the batch merged into its pending watch. */
  function Reported(s: State, batch: Batch): map<Key, Watch>
  {
    map key | key in s.pending.Keys + ReportedKeys(s.app, batch) ::
      if key !in ReportedKeys(s.app, batch) then s.pending[key]
      else if key in s.pending then MergedWatch(s.pending[key], ForTab(s, key.tab, batch))
      else ForTab(s, key.tab, batch)
  }

  function ReportedKeys(app: App, batch: Batch): set<Key>
  {
    set id | id in app.tabs && Shows(app.tabs[id], batch.root) :: Key(id, batch.root)
  }

  function ReportStep(s: State, batch: Batch): State
  {
    if OwnedByOperation(s.app, batch.root) then s.(app := s.app.(deferred := s.app.deferred + {batch.root}))
    else s.(pending := Reported(s, batch))
  }

  predicate MustWait(s: State, key: Key)
  {
    key in s.gate || key in s.inFlight || key.root in s.sampling
  }

  function SettleStep(s: State, key: Key): State
    requires key in s.pending
  {
    var watch := s.pending[key];
    match Disposed(s.app, watch)
    case Drop => s.(pending := s.pending - {key})
    case DeferredOperation =>
      s.(pending := s.pending - {key}, app := s.app.(deferred := s.app.deferred + {watch.batch.root}))
    case Wait => s
    case ProbeIt =>
      if MustWait(s, key) then s
      else
        s.(pending := s.pending - {key},
           inFlight := s.inFlight + {key},
           ready := s.ready + [Prepared(s.app, watch)],
           started := s.started + multiset{key})
  }

  function SpawnStep(s: State, root: Path): State
  {
    s.(ready := OffRoot(s.ready, root),
       running := s.running + [Sample(root, ByRoot(s.ready, root))],
       sampling := s.sampling + {root})
  }

  function PumpStep(s: State, l: Label): State
    requires PumpEnabled(s, l)
  {
    match l
    case Deliver => DeliverStep(s)
    case Collect => CollectStep(s)
    case Lock => s.(phase := Locked)
    case Tick(now) => s.(gate := GateAfter(s.gate, s.app, now))
    case Report(batch) => ReportStep(s, batch)
    case Settle(key) => SettleStep(s, key)
    case Unlock => s.(phase := Starting)
    case Spawn(root) => SpawnStep(s, root)
    case Rest => s.(phase := Collecting)
  }

  // ---- samples, the UI thread and everyone else ----

  predicate OutsideEnabled(s: State, l: Label)
  {
    match l
    case World(_) => !s.phase.Locked?
    case Sampled(i, seen) => i < |s.running| && s.running[i].probes != [] && seen.Keys <= AllPaths(s.running[i].probes)
    case Apply => !s.phase.Locked? && s.ui.Free? && s.posted != []
    case Submit(submitted, next) =>
      !s.phase.Locked? && s.ui.Submitting? && (submitted ==> s.ui.result.probe.watch.tab in s.app.tabs)
    case Finish => !s.phase.Locked? && s.ui.Finishing?
    case _ => false
  }

  function SampledStep(s: State, i: nat, seen: map<Path, Outcome>): State
    requires i < |s.running| && s.running[i].probes != []
  {
    var sample := s.running[i];
    s.(running := s.running[..i] + s.running[i + 1..],
       completed := s.completed + [Completed(sample.root, Judged(sample.probes, Sights(sample.probes, seen)))],
       answered := s.answered + Keys(sample.probes))
  }

  function Keys(probes: seq<Probe>): multiset<Key>
  {
    if probes == [] then multiset{} else multiset{probes[0].watch.Id()} + Keys(probes[1..])
  }

  /** The decision of `apply_probe_result`, up to the refresh. */
  function Decided(app: App, result: Result): Ui
  {
    match Disposed(app, result.probe.watch)
    case Drop => Finishing(result, None)
    case DeferredOperation => Finishing(result, None)
    case Wait => Finishing(result, Some(result.probe.watch))
    case ProbeIt =>
      if !StillCurrent(app, result.probe) then Finishing(result, Some(result.probe.watch))
      else if result.changed then Submitting(result)
      else Finishing(result, None)
  }

  function ApplyStep(s: State): State
    requires s.posted != []
  {
    var result := s.posted[0];
    var root := result.probe.watch.batch.root;
    s.(posted := s.posted[1..],
       ui := Decided(s.app, result),
       app := if Disposed(s.app, result.probe.watch).DeferredOperation? then s.app.(deferred := s.app.deferred + {root})
         else s.app)
  }

  predicate Refreshed(app: App, result: Result, retry: Option<Watch>)
  {
    && result.changed && retry.None? && result.probe.watch.tab in app.tabs
    && app.tabs[result.probe.watch.tab].latest != result.probe.request
    && app.tabs[result.probe.watch.tab].navigation.BackgroundRefresh?
  }

  function FinishStep(s: State): State
    requires s.ui.Finishing?
  {
    var r := s.ui.result;
    s.(ui := Free, deliveries := s.deliveries
      + [Delivery(r.probe.watch.Id(), s.ui.retry, Refreshed(s.app, r, s.ui.retry))])
  }

  function OutsideStep(s: State, l: Label): State
    requires OutsideEnabled(s, l)
  {
    match l
    case World(app) => s.(app := app)
    case Sampled(i, seen) => SampledStep(s, i, seen)
    case Apply => ApplyStep(s)
    case Submit(_, next) => s.(app := next, ui := Finishing(s.ui.result, None))
    case Finish => FinishStep(s)
  }

  predicate Enabled(s: State, l: Label)
  {
    PumpEnabled(s, l) || OutsideEnabled(s, l)
  }

  function After(s: State, l: Label): State
    requires Enabled(s, l)
  {
    if PumpEnabled(s, l) then PumpStep(s, l) else OutsideStep(s, l)
  }

  ghost predicate Leads(s: State, labels: seq<Label>, t: State)
    decreases |labels|
  {
    if labels == [] then s == t
    else Enabled(s, labels[0]) && Leads(After(s, labels[0]), labels[1..], t)
  }

  lemma {:induction false} LeadsOn(s: State, labels: seq<Label>, t: State, more: seq<Label>, u: State)
    requires Leads(s, labels, t) && Leads(t, more, u)
    ensures Leads(s, labels + more, u)
    decreases |labels|
  {
    if labels == [] {
      assert labels + more == more;
    } else {
      LeadsOn(After(s, labels[0]), labels[1..], t, more, u);
      assert (labels + more)[1..] == labels[1..] + more;
    }
  }

  ghost predicate Reachable(s: State)
  {
    exists app, labels :: Leads(Initial(app), labels, s)
  }
}
