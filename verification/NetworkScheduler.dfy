/**
 The per-host scheduler of network directory requests as a labelled transition system
 (src/app/directory_loading.rs:45-83, 235-366).

 One thread owns the queue and the set of busy keys; workers run what it hands out and send a
 completion back; anyone may cancel a request at any time, and cancellation is never undone.
 */
module NetworkScheduler {
  import opened Prelude

  type NetworkKey(==, !new)

  // `id` numbers requests in order of arrival.
  datatype Request = Request(id: nat, key: NetworkKey)

  datatype State = State(
    limit: nat,                    // worker_count
    pending: seq<Request>,
    active: set<NetworkKey>,
    open: bool,
    running: seq<Request>,         // handed to workers
    completions: seq<Request>,     // the completion channel
    cancelled: set<nat>,
    // history
    known: set<nat>,               // cancellations the scheduler has seen
    arrived: seq<Request>,
    started: seq<Request>,
    finished: seq<Request>,
    reported: seq<Request>)

  datatype Label =
    | Cancel(id: nat)
    | Receive(key: NetworkKey)
    | CloseInput
    | Sweep(seen: set<nat>)
    | Start(seen: set<nat>)
    | WorkerDone(index: nat)
    | Collect

  function Initial(limit: nat): State
  {
    State(limit, [], {}, true, [], [], {}, {}, [], [], [], [])
  }

  predicate Ready(r: Request, active: set<NetworkKey>, seen: set<nat>)
  {
    r.key !in active && r.id !in seen
  }

  /** `position`: the first request whose key is free and that is not seen cancelled. */
  function FirstReady(pending: seq<Request>, active: set<NetworkKey>, seen: set<nat>): (r: Option<nat>)
    ensures r.Some? ==> r.value < |pending| && Ready(pending[r.value], active, seen)
    ensures r.Some? ==> forall i :: 0 <= i < r.value ==> !Ready(pending[i], active, seen)
    ensures r.None? ==> forall i :: 0 <= i < |pending| ==> !Ready(pending[i], active, seen)
  {
    if pending == [] then None
    else if Ready(pending[0], active, seen) then Some(0)
    else
      var later := FirstReady(pending[1..], active, seen);
      if later.None? then
        assert forall i :: 0 < i < |pending| ==> pending[i] == pending[1..][i - 1];
        None
      else
        assert forall i :: 0 < i < later.value + 1 ==> pending[i] == pending[1..][i - 1];
        Some(later.value + 1)
  }

  function Kept(pending: seq<Request>, seen: set<nat>): seq<Request>
  {
    if pending == [] then []
    else if pending[0].id in seen then Kept(pending[1..], seen)
    else [pending[0]] + Kept(pending[1..], seen)
  }

  function Swept(pending: seq<Request>, seen: set<nat>): seq<Request>
  {
    if pending == [] then []
    else if pending[0].id in seen then [pending[0]] + Swept(pending[1..], seen)
    else Swept(pending[1..], seen)
  }

  /** What the scheduler can see of the cancellations: never less than before, never more than there is. */
  predicate Visible(s: State, seen: set<nat>)
  {
    s.known <= seen <= s.cancelled
  }

  predicate Enabled(s: State, l: Label)
  {
    match l
    case Cancel(_) => true
    case Receive(_) => s.open
    case CloseInput => s.open
    case Sweep(seen) => Visible(s, seen)
    case Start(seen) => Visible(s, seen) && |s.active| < s.limit && FirstReady(s.pending, s.active, seen).Some?
    case WorkerDone(i) => i < |s.running|
    case Collect => s.completions != []
  }

  function StartStep(s: State, seen: set<nat>): State
    requires FirstReady(s.pending, s.active, seen).Some?
  {
    var i := FirstReady(s.pending, s.active, seen).value;
    var r := s.pending[i];
    s.(pending := s.pending[..i] + s.pending[i + 1..], active := s.active + {r.key}, running := s.running + [r],
       started := s.started + [r], known := seen)
  }

  function After(s: State, l: Label): State
    requires Enabled(s, l)
  {
    match l
    case Cancel(id) => s.(cancelled := s.cancelled + {id})
    case Receive(key) =>
      var r := Request(|s.arrived|, key);
      s.(pending := s.pending + [r], arrived := s.arrived + [r])
    case CloseInput => s.(open := false)
    case Sweep(seen) =>
      s.(pending := Kept(s.pending, seen), reported := s.reported + Swept(s.pending, seen), known := seen)
    case Start(seen) => StartStep(s, seen)
    case WorkerDone(i) =>
      s.(running := s.running[..i] + s.running[i + 1..], completions := s.completions + [s.running[i]])
    case Collect =>
      s.(completions := s.completions[1..],
         active := s.active - {s.completions[0].key},
         finished := s.finished + [s.completions[0]])
  }

  ghost predicate Leads(s: State, labels: seq<Label>, t: State)
    decreases |labels|
  {
    if labels == [] then s == t
    else Enabled(s, labels[0]) && Leads(After(s, labels[0]), labels[1..], t)
  }

  lemma {:induction false} LeadsOn(s: State, labels: seq<Label>, t: State, more: seq<Label>, u: State)
    requires Leads(s, labels, t) && Leads(t, more, u)
    ensures Leads(s, labels + more, u)
    decreases |labels|
  {
    hide Enabled, After;
    if labels == [] {
      assert labels + more == more;
    } else {
      LeadsOn(After(s, labels[0]), labels[1..], t, more, u);
      assert (labels + more)[1..] == labels[1..] + more;
    }
  }

  lemma LeadsStep(s: State, labels: seq<Label>, t: State, l: Label)
    requires Leads(s, labels, t) && Enabled(t, l)
    ensures Leads(s, labels + [l], After(t, l))
  {
    hide Enabled, After;
    assert Leads(t, [l], After(t, l)) by { assert [l][1..] == []; }
    LeadsOn(s, labels, t, [l], After(t, l));
  }

  lemma NoStep(s: State)
    ensures Leads(s, [], s)
  {
  }

  // ---- where requests are ----

  function Everywhere(s: State): multiset<Request>
  {
    multiset(s.pending) + multiset(s.running) + multiset(s.completions) + multiset(s.finished) + multiset(s.reported)
  }

  function InFlight(s: State): seq<Request>
  {
    s.running + s.completions
  }

  function Keys(requests: seq<Request>): multiset<NetworkKey>
  {
    if requests == [] then multiset{} else multiset{requests[0].key} + Keys(requests[1..])
  }

  // ---- the invariant ----

  ghost predicate Accounted(s: State)
  {
    && Everywhere(s) == multiset(s.arrived)
    && multiset(s.started) == multiset(s.running) + multiset(s.completions) + multiset(s.finished)
  }

  ghost predicate Numbered(arrived: seq<Request>)
  {
    forall i :: 0 <= i < |arrived| ==> arrived[i].id == i
  }

  ghost predicate Exclusive(s: State)
  {
    Keys(s.running) + Keys(s.completions) == multiset(s.active) && |s.active| <= s.limit
  }

  ghost predicate Queued(pending: seq<Request>, arrived: nat)
  {
    && (forall i :: 0 <= i < |pending| ==> pending[i].id < arrived)
    && (forall i, j :: 0 <= i < j < |pending| ==> pending[i].id < pending[j].id)
  }

  /** What was started is no longer pending. */
  ghost predicate StartedApart(s: State)
  {
    forall x, y :: x in s.pending && y in s.started ==> x.id != y.id
  }

  /** Whoever of a key started ahead of an earlier one passed it because it was cancelled. */
  ghost predicate Fair(s: State)
  {
    && (forall x, y :: x in s.pending && y in s.started && x.key == y.key && x.id < y.id ==> x.id in s.known)
    && (forall i :: 0 <= i < |s.started| ==> s.started[i].id < |s.arrived|)
    && StartedApart(s)
    && (forall i, j :: 0 <= i < j < |s.started| && s.started[i].key == s.started[j].key ==>
          s.started[i].id < s.started[j].id)
  }

  ghost predicate Inv(s: State)
  {
    && Accounted(s) && Numbered(s.arrived) && Exclusive(s) && Queued(s.pending, |s.arrived|) && Fair(s)
    && s.known <= s.cancelled
  }

  lemma InitialInv(limit: nat)
    ensures Inv(Initial(limit))
  {
  }

  // ---- lists ----

  lemma {:induction false} KeysAppend(a: seq<Request>, b: seq<Request>)
    ensures Keys(a + b) == Keys(a) + Keys(b)
    decreases |a|
  {
    if a == [] {
      assert a + b == b;
    } else {
      var c := a + b;
      assert c[1..] == a[1..] + b && c[0] == a[0];
      KeysAppend(a[1..], b);
      assert Keys(c) == multiset{c[0].key} + Keys(c[1..]);
      assert Keys(a) == multiset{a[0].key} + Keys(a[1..]);
    }
  }

  lemma KeysSnoc(a: seq<Request>, r: Request)
    ensures Keys(a + [r]) == Keys(a) + multiset{r.key}
  {
    KeysAppend(a, [r]);
    assert Keys([r]) == multiset{r.key} + Keys([r][1..]);
  }

  lemma KeysWithout(a: seq<Request>, i: nat)
    requires i < |a|
    ensures Keys(a) == Keys(a[..i] + a[i + 1..]) + multiset{a[i].key}
  {
    hide Keys;
    assert a == (a[..i] + [a[i]]) + a[i + 1..];
    KeysAppend(a[..i] + [a[i]], a[i + 1..]);
    KeysSnoc(a[..i], a[i]);
    KeysAppend(a[..i], a[i + 1..]);
  }

  lemma BagWithout(a: seq<Request>, i: nat)
    requires i < |a|
    ensures multiset(a) == multiset(a[..i] + a[i + 1..]) + multiset{a[i]}
  {
    assert a == (a[..i] + [a[i]]) + a[i + 1..];
  }

  lemma {:induction false} SweepSplits(pending: seq<Request>, seen: set<nat>)
    ensures multiset(pending) == multiset(Kept(pending, seen)) + multiset(Swept(pending, seen))
    ensures forall x :: x in Kept(pending, seen) <==> x in pending && x.id !in seen
    ensures |Kept(pending, seen)| <= |pending|
    decreases |pending|
  {
    if pending != [] {
      SweepSplits(pending[1..], seen);
      assert pending == [pending[0]] + pending[1..];
    }
  }

  lemma AheadOfKept(pending: seq<Request>, seen: set<nat>, arrived: nat)
    requires Queued(pending, arrived) && pending != []
    ensures Queued(pending[1..], arrived)
    ensures forall x :: x in Kept(pending[1..], seen) ==> pending[0].id < x.id
  {
    SweepSplits(pending[1..], seen);
    hide Kept, Swept;
    forall x | x in pending[1..] ensures pending[0].id < x.id {
      var i :| 0 <= i < |pending| - 1 && pending[1..][i] == x;
      assert pending[i + 1] == x;
    }
  }

  lemma QueuedCons(r: Request, others: seq<Request>, arrived: nat)
    requires Queued(others, arrived) && r.id < arrived && forall x :: x in others ==> r.id < x.id
    ensures Queued([r] + others, arrived)
  {
    forall i | 0 <= i < |others| ensures r.id < others[i].id {
      assert others[i] in others;
    }
  }

  lemma {:induction false} KeptQueued(pending: seq<Request>, seen: set<nat>, arrived: nat)
    requires Queued(pending, arrived)
    ensures Queued(Kept(pending, seen), arrived)
    decreases |pending|
  {
    if pending != [] {
      AheadOfKept(pending, seen, arrived);
      KeptQueued(pending[1..], seen, arrived);
      assert pending[0].id < arrived;
      hide Queued;
      QueuedCons(pending[0], Kept(pending[1..], seen), arrived);
    }
  }

  // ---- every step keeps it ----

  lemma ReceiveAccounts(s: State, r: Request, t: State)
    requires Accounted(s) && t == s.(pending := s.pending + [r], arrived := s.arrived + [r])
    ensures Accounted(t)
  {
  }

  lemma ReceiveExclusive(s: State, t: State)
    requires Exclusive(s) && t == s.(pending := t.pending, arrived := t.arrived)
    ensures Exclusive(t)
  {
    hide Keys;
  }

  lemma ReceiveQueued(pending: seq<Request>, arrived: nat, r: Request)
    requires Queued(pending, arrived) && r.id == arrived
    ensures Queued(pending + [r], arrived + 1)
  {
  }

  lemma ReceiveFair(s: State, r: Request, t: State)
    requires Fair(s) && r.id == |s.arrived| && t == s.(pending := s.pending + [r], arrived := s.arrived + [r])
    ensures Fair(t)
  {
    forall y | y in s.started ensures y.id < r.id {
      var i :| 0 <= i < |s.started| && s.started[i] == y;
    }
  }

  lemma ReceiveKeepsInv(s: State, key: NetworkKey)
    requires Inv(s) && s.open
    ensures Inv(After(s, Receive(key)))
  {
    hide Accounted, Exclusive, Queued, Fair;
    var t := After(s, Receive(key));
    var r := Request(|s.arrived|, key);
    assert Accounted(t) by { ReceiveAccounts(s, r, t); }
    assert Exclusive(t) by { ReceiveExclusive(s, t); }
    assert Queued(t.pending, |t.arrived|) by { ReceiveQueued(s.pending, |s.arrived|, r); }
    assert Fair(t) by { ReceiveFair(s, r, t); }
  }

  lemma SweepKeepsInv(s: State, seen: set<nat>)
    requires Inv(s) && Visible(s, seen)
    ensures Inv(After(s, Sweep(seen)))
  {
    hide Kept, Swept, Keys;
    SweepSplits(s.pending, seen);
    KeptQueued(s.pending, seen, |s.arrived|);
    assert Fair(After(s, Sweep(seen)));
  }

  lemma StartAccounts(s: State, seen: set<nat>)
    requires Accounted(s) && FirstReady(s.pending, s.active, seen).Some?
    ensures Accounted(StartStep(s, seen))
  {
    hide FirstReady;
    BagWithout(s.pending, FirstReady(s.pending, s.active, seen).value);
  }

  lemma StartExclusive(s: State, seen: set<nat>)
    requires Exclusive(s) && |s.active| < s.limit && FirstReady(s.pending, s.active, seen).Some?
    ensures Exclusive(StartStep(s, seen))
  {
    hide Keys;
    var r := s.pending[FirstReady(s.pending, s.active, seen).value];
    KeysSnoc(s.running, r);
    assert multiset(s.active + {r.key}) == multiset(s.active) + multiset{r.key};
  }

  lemma PassedOver(s: State, seen: set<nat>, x: Request, i: nat)
    requires Queued(s.pending, |s.arrived|) && FirstReady(s.pending, s.active, seen) == Some(i)
    requires x in s.pending && x.id < s.pending[i].id && x.key == s.pending[i].key
    ensures x.id in seen
  {
    hide FirstReady;
    var j :| 0 <= j < |s.pending| && s.pending[j] == x;
    assert j < i && !Ready(s.pending[j], s.active, seen) && Ready(s.pending[i], s.active, seen);
  }

  lemma StartedLater(s: State, seen: set<nat>, i: nat, y: Request)
    requires Fair(s) && Visible(s, seen) && FirstReady(s.pending, s.active, seen) == Some(i)
    requires y in s.started && y.key == s.pending[i].key
    ensures y.id <= s.pending[i].id
  {
    hide FirstReady;
    assert Ready(s.pending[i], s.active, seen) && s.pending[i] in s.pending;
  }

  lemma QueuedWithout(pending: seq<Request>, arrived: nat, i: nat)
    requires Queued(pending, arrived) && i < |pending|
    ensures Queued(pending[..i] + pending[i + 1..], arrived)
    ensures forall x :: x in pending[..i] + pending[i + 1..] ==> x in pending && x.id != pending[i].id
  {
    var others := pending[..i] + pending[i + 1..];
    assert forall j :: 0 <= j < |others| ==> others[j] == pending[if j < i then j else j + 1];
  }

  lemma StartPassedSeen(s: State, seen: set<nat>, i: nat, t: State)
    requires Fair(s) && Queued(s.pending, |s.arrived|) && Visible(s, seen)
             && FirstReady(s.pending, s.active, seen) == Some(i)
    requires t.started == s.started + [s.pending[i]] && t.known == seen
    requires forall x :: x in t.pending ==> x in s.pending && x.id != s.pending[i].id
    ensures forall x, y :: x in t.pending && y in t.started && x.key == y.key && x.id < y.id ==> x.id in t.known
    ensures StartedApart(t)
  {
    hide FirstReady, Ready, Queued;
    forall x, y | x in t.pending && y in t.started && x.key == y.key && x.id < y.id ensures x.id in t.known {
      if y !in s.started {
        PassedOver(s, seen, x, i);
      }
    }
  }

  lemma StartFair(s: State, seen: set<nat>)
    requires Inv(s) && Visible(s, seen) && FirstReady(s.pending, s.active, seen).Some?
    ensures Fair(StartStep(s, seen)) && Queued(StartStep(s, seen).pending, |s.arrived|)
  {
    hide Accounted, Exclusive, FirstReady, Numbered, StartedApart;
    var t := StartStep(s, seen);
    var i := FirstReady(s.pending, s.active, seen).value;
    QueuedWithout(s.pending, |s.arrived|, i);
    StartPassedSeen(s, seen, i, t);
    StartedOrder(s, seen, i);
    assert s.pending[i].id < |s.arrived|;
  }

  lemma StartedOrder(s: State, seen: set<nat>, i: nat)
    requires Fair(s) && Visible(s, seen) && FirstReady(s.pending, s.active, seen) == Some(i)
    requires StartedApart(s)
    ensures var started := s.started + [s.pending[i]];
            forall j, k :: 0 <= j < k < |started| && started[j].key == started[k].key ==> started[j].id < started[k].id
  {
    hide FirstReady, Ready;
    forall j | 0 <= j < |s.started| && s.started[j].key == s.pending[i].key ensures s.started[j].id < s.pending[i].id {
      StartedLater(s, seen, i, s.started[j]);
      assert s.started[j] in s.started && s.pending[i] in s.pending;
    }
  }

  lemma StartKeepsInv(s: State, seen: set<nat>)
    requires Inv(s) && Enabled(s, Start(seen))
    ensures Inv(StartStep(s, seen))
  {
    hide Accounted, Exclusive, Fair, Queued, FirstReady;
    StartAccounts(s, seen);
    StartExclusive(s, seen);
    StartFair(s, seen);
  }

  lemma SameQueue(s: State, t: State)
    requires Fair(s) && t.pending == s.pending && t.started == s.started && t.known == s.known && t.arrived == s.arrived
    ensures Fair(t)
  {
  }

  lemma DoneAccounts(s: State, i: nat)
    requires Accounted(s) && i < |s.running|
    ensures Accounted(After(s, WorkerDone(i)))
  {
    BagWithout(s.running, i);
  }

  lemma DoneExclusive(s: State, i: nat)
    requires Exclusive(s) && i < |s.running|
    ensures Exclusive(After(s, WorkerDone(i)))
  {
    hide Keys;
    KeysWithout(s.running, i);
    KeysSnoc(s.completions, s.running[i]);
  }

  lemma DoneKeepsInv(s: State, i: nat)
    requires Inv(s) && i < |s.running|
    ensures Inv(After(s, WorkerDone(i)))
  {
    hide Accounted, Exclusive, Fair, Queued, Numbered;
    DoneAccounts(s, i);
    DoneExclusive(s, i);
    SameQueue(s, After(s, WorkerDone(i)));
  }

  lemma CollectAccounts(s: State)
    requires Accounted(s) && s.completions != []
    ensures Accounted(After(s, Collect))
  {
    assert s.completions == [s.completions[0]] + s.completions[1..];
  }

  lemma CollectExclusive(s: State)
    requires Exclusive(s) && s.completions != []
    ensures Exclusive(After(s, Collect))
  {
    var t := After(s, Collect);
    var r := s.completions[0];
    assert Keys(s.completions) == multiset{r.key} + Keys(s.completions[1..]);
    hide Keys;
    assert multiset(s.active) == (Keys(t.running) + Keys(t.completions)) + multiset{r.key};
    BagRemove(s.active, Keys(t.running) + Keys(t.completions), r.key);
  }

  lemma CollectKeepsInv(s: State)
    requires Inv(s) && s.completions != []
    ensures Inv(After(s, Collect))
  {
    hide Accounted, Exclusive, Fair, Queued, Numbered;
    CollectAccounts(s);
    CollectExclusive(s);
    SameQueue(s, After(s, Collect));
  }

  lemma StepKeepsInv(s: State, l: Label)
    requires Inv(s) && Enabled(s, l)
    ensures Inv(After(s, l))
  {
    hide Keys, FirstReady, Kept, Swept, Accounted, Exclusive, Queued, StartStep;
    match l
    case Receive(key) => ReceiveKeepsInv(s, key);
    case Sweep(seen) => SweepKeepsInv(s, seen);
    case Start(seen) => StartKeepsInv(s, seen);
    case WorkerDone(i) => DoneKeepsInv(s, i);
    case Collect => CollectKeepsInv(s);
    case Cancel(_) => SameSchedule(s, After(s, l));
    case CloseInput => SameSchedule(s, After(s, l));
  }

  lemma SameSchedule(s: State, t: State)
    requires Inv(s) && t == s.(open := t.open, cancelled := t.cancelled) && s.cancelled <= t.cancelled
    ensures Inv(t)
  {
    hide Keys;
    assert Fair(t);
  }

  lemma {:induction false} RunKeepsInv(s: State, labels: seq<Label>, t: State)
    requires Inv(s) && Leads(s, labels, t)
    ensures Inv(t)
    decreases |labels|
  {
    hide Inv, Enabled, After;
    if labels != [] {
      StepKeepsInv(s, labels[0]);
      RunKeepsInv(After(s, labels[0]), labels[1..], t);
    }
  }

  ghost predicate Reachable(s: State)
  {
    exists limit, labels :: Leads(Initial(limit), labels, s)
  }

  lemma ReachableInv(s: State)
    requires Reachable(s)
    ensures Inv(s)
  {
    hide Inv, Initial;
    var limit, labels :| Leads(Initial(limit), labels, s);
    InitialInv(limit);
    RunKeepsInv(Initial(limit), labels, s);
  }

  // ---- the promises ----

  lemma {:induction false} KeysCount(requests: seq<Request>, i: nat, j: nat)
    requires i < j < |requests| && requests[i].key == requests[j].key
    ensures Keys(requests)[requests[i].key] >= 2
  {
    KeysWithout(requests, j);
    var others := requests[..j] + requests[j + 1..];
    KeysWithout(others, i);
    assert others[i] == requests[i];
  }

  lemma {:induction false} KeysLength(requests: seq<Request>)
    ensures |Keys(requests)| == |requests|
    decreases |requests|
  {
    if requests != [] {
      KeysLength(requests[1..]);
    }
  }

  /** No two requests in flight share a key, and there are at most as many as workers. */
  lemma OnePerKey(s: State)
    requires Reachable(s)
    ensures forall i, j :: 0 <= i < j < |InFlight(s)| ==> InFlight(s)[i].key != InFlight(s)[j].key
    ensures |InFlight(s)| <= s.limit
  {
    hide Reachable, Keys, Accounted, Fair, Queued;
    ReachableInv(s);
    KeysAppend(s.running, s.completions);
    KeysLength(InFlight(s));
    assert forall k :: multiset(s.active)[k] <= 1;
    forall i, j | 0 <= i < j < |InFlight(s)| ensures InFlight(s)[i].key != InFlight(s)[j].key {
      if InFlight(s)[i].key == InFlight(s)[j].key {
        KeysCount(InFlight(s), i, j);
      }
    }
  }

  /** Requests of one key start in arrival order; one that was passed over was cancelled. */
  lemma ArrivalOrderPerKey(s: State)
    requires Reachable(s)
    ensures forall i, j :: 0 <= i < j < |s.started| && s.started[i].key == s.started[j].key ==>
              s.started[i].id < s.started[j].id
    ensures forall x, y :: x in s.pending && y in s.started && x.key == y.key && x.id < y.id ==> x.id in s.cancelled
  {
    hide Reachable, Accounted, Exclusive, Queued;
    ReachableInv(s);
  }

  lemma {:induction false} CountOnce(arrived: seq<Request>, r: Request)
    requires r in arrived && forall i, j :: 0 <= i < j < |arrived| ==> arrived[i] != arrived[j]
    ensures multiset(arrived)[r] == 1
    decreases |arrived|
  {
    var n := |arrived| - 1;
    assert arrived == arrived[..n] + [arrived[n]];
    if r in arrived[..n] {
      CountOnce(arrived[..n], r);
    } else {
      assert multiset(arrived[..n])[r] == 0;
    }
  }

  /** Every request that arrived is in exactly one place. */
  lemma ExactlyOnePlace(s: State, r: Request)
    requires Reachable(s) && r in s.arrived
    ensures multiset(s.pending)[r] + multiset(InFlight(s))[r] + multiset(s.finished)[r] + multiset(s.reported)[r] == 1
  {
    hide Reachable, Exclusive, Fair, Queued;
    ReachableInv(s);
    forall i, j | 0 <= i < j < |s.arrived| ensures s.arrived[i] != s.arrived[j] {
      assert s.arrived[i].id == i && s.arrived[j].id == j;
    }
    CountOnce(s.arrived, r);
    assert Everywhere(s)[r] == 1;
  }

  predicate LoopEnds(s: State)
  {
    !s.open && s.pending == [] && s.active == {}
  }

  /** When the loop ends, everything that arrived was finished or reported cancelled. */
  lemma EndOwesNothing(s: State)
    requires Reachable(s) && LoopEnds(s)
    ensures InFlight(s) == [] && multiset(s.arrived) == multiset(s.finished) + multiset(s.reported)
  {
    hide Reachable, Fair, Queued, Keys;
    ReachableInv(s);
    KeysLength(s.running);
    KeysLength(s.completions);
    assert |multiset(s.active)| == 0;
  }

  // ---- the loop ends once input closes ----

  function Work(s: State): nat
  {
    3 * |s.pending| + 2 * |s.running| + |s.completions|
  }

  lemma {:induction false} AllSwept(pending: seq<Request>, seen: set<nat>)
    requires forall i :: 0 <= i < |pending| ==> pending[i].id in seen
    ensures Kept(pending, seen) == []
    decreases |pending|
  {
    if pending != [] {
      AllSwept(pending[1..], seen);
    }
  }

  lemma ClosedNeverStuck(s: State) returns (l: Label)
    requires Inv(s) && !s.open && s.limit > 0 && !LoopEnds(s)
    ensures Enabled(s, l) && Work(After(s, l)) < Work(s) && !After(s, l).open && After(s, l).limit == s.limit
    ensures !l.Cancel?
  {
    hide Keys, Fair, Queued, Accounted;
    if s.completions != [] {
      return Collect;
    } else if s.running != [] {
      return WorkerDone(0);
    } else {
      KeysLength(s.running);
      KeysLength(s.completions);
      assert s.active == {} by { assert |multiset(s.active)| == 0; }
      if FirstReady(s.pending, s.active, s.known).Some? {
        return Start(s.known);
      }
      forall i | 0 <= i < |s.pending| ensures s.pending[i].id in s.known {
        assert !Ready(s.pending[i], s.active, s.known);
      }
      AllSwept(s.pending, s.known);
      return Sweep(s.known);
    }
  }

  /** After input closes the loop can always be driven to its end, whatever is cancelled or not. */
  lemma {:induction false} ClosedInputDrains(s: State) returns (labels: seq<Label>, t: State)
    requires Inv(s) && !s.open && s.limit > 0
    ensures Leads(s, labels, t) && LoopEnds(t) && |labels| <= Work(s)
    decreases Work(s)
  {
    hide Inv, Enabled, After, Work;
    if LoopEnds(s) {
      return [], s;
    }
    var l := ClosedNeverStuck(s);
    StepKeepsInv(s, l);
    var more, end := ClosedInputDrains(After(s, l));
    labels, t := [l] + more, end;
    assert labels[1..] == more;
  }

  /** Nothing but new requests makes the remaining work grow, and every start or finish makes it fall. */
  lemma WorkOnlyFalls(s: State, l: Label)
    requires Enabled(s, l) && !l.Receive?
    ensures Work(After(s, l)) <= Work(s)
    ensures l.Start? || l.WorkerDone? || l.Collect? ==> Work(After(s, l)) < Work(s)
  {
    hide FirstReady, Kept, Swept;
    if l.Sweep? {
      SweepSplits(s.pending, l.seen);
    }
  }

  // ---- a closed input over runs ----

  lemma {:induction false} KeptMore(pending: seq<Request>, seen: set<nat>, more: set<nat>)
    requires seen <= more
    ensures |Kept(pending, more)| <= |Kept(pending, seen)| <= |pending|
    decreases |pending|
  {
    if pending != [] {
      KeptMore(pending[1..], seen, more);
    }
  }

  lemma {:induction false} KeptTwice(pending: seq<Request>, seen: set<nat>, more: set<nat>)
    requires seen <= more
    ensures Kept(Kept(pending, seen), more) == Kept(pending, more)
    decreases |pending|
  {
    if pending != [] {
      KeptTwice(pending[1..], seen, more);
    }
  }

  lemma {:induction false} KeptCut(pending: seq<Request>, seen: set<nat>, i: nat)
    requires i < |pending|
    ensures |Kept(pending[..i] + pending[i + 1..], seen)| <= |Kept(pending, seen)|
    decreases i
  {
    var cut := pending[..i] + pending[i + 1..];
    if i == 0 {
      assert cut == pending[1..];
    } else {
      KeptCut(pending[1..], seen, i - 1);
      assert cut[1..] == pending[1..][..i - 1] + pending[1..][i..];
    }
  }

  /** How many requests wait, and how many of them are not cancelled. */
  ghost predicate NoMoreLeft(s: State, t: State)
  {
    |t.pending| <= |s.pending| && |Kept(t.pending, t.cancelled)| <= |Kept(s.pending, s.cancelled)|
  }

  lemma ClosedStep(s: State, l: Label)
    requires !s.open && s.known <= s.cancelled && Enabled(s, l)
    ensures var t := After(s, l); !t.open && t.known <= t.cancelled && t.limit == s.limit && NoMoreLeft(s, t)
  {
    hide FirstReady, Kept, Swept;
    KeptMore(s.pending, s.cancelled, After(s, l).cancelled);
    if l.Sweep? {
      SweepSplits(s.pending, l.seen);
      KeptTwice(s.pending, l.seen, s.cancelled);
    } else if l.Start? {
      KeptCut(s.pending, s.cancelled, FirstReady(s.pending, s.active, l.seen).value);
    }
  }

  /** Once the input is closed it stays closed, and neither count ever grows. */
  lemma {:induction false} ClosedRun(s: State, labels: seq<Label>, t: State)
    requires !s.open && s.known <= s.cancelled && Leads(s, labels, t)
    ensures !t.open && t.known <= t.cancelled && t.limit == s.limit && NoMoreLeft(s, t)
    decreases |labels|
  {
    hide Enabled, After, Kept;
    if labels != [] {
      ClosedStep(s, labels[0]);
      ClosedRun(After(s, labels[0]), labels[1..], t);
    }
  }

  /** What was reported or finished stays so, in order. */
  lemma {:induction false} RecordsStay(s: State, labels: seq<Label>, t: State)
    requires Leads(s, labels, t)
    ensures s.reported <= t.reported && s.finished <= t.finished && s.arrived <= t.arrived && s.cancelled <= t.cancelled
    decreases |labels|
  {
    hide FirstReady, Kept, Swept;
    if labels != [] {
      RecordsStay(After(s, labels[0]), labels[1..], t);
    }
  }

  /** With no request in flight no key is busy. */
  lemma IdleIsFree(s: State)
    requires Inv(s) && s.running == [] && s.completions == []
    ensures s.active == {}
  {
    hide Accounted, Fair, Queued, Numbered;
    assert multiset(s.active) == multiset{};
    forall k ensures k !in s.active {
      assert k in s.active <==> k in multiset(s.active);
    }
  }
}
