/**
 Which queue a library source joins and when it starts: UNC paths have a queue of their own, and the
 sources of a queue start in the order in which they were asked for.
 */
module LibraryQueues {
  import opened LibraryEntries
  import opened LibraryScheduler
  import opened LibraryTheorems

  /** The request names this source, by index and path. */
  ghost predicate Named(sources: seq<(nat, Path)>, x: Source)
  {
    exists n :: 0 <= n < |sources| && sources[n] == (x.key.index, x.path)
  }

  /** The request names index `a` before index `b`. */
  ghost predicate Ahead(sources: seq<(nat, Path)>, a: nat, b: nat)
  {
    exists m, n :: 0 <= m < n < |sources| && sources[m].0 == a && sources[n].0 == b
  }

  /** `a` was asked for before `b`: by an earlier job, or earlier in the same one. */
  ghost predicate Earlier(history: map<nat, History>, a: Key, b: Key)
  {
    a.job < b.job || (a.job == b.job && a.job in history && Ahead(history[a.job].request.sources, a.index, b.index))
  }

  ghost predicate InTurn(history: map<nat, History>, queue: seq<Source>)
  {
    forall i, j :: 0 <= i < j < |queue| ==> Earlier(history, queue[i].key, queue[j].key)
  }

  ghost predicate Placed(history: map<nat, History>, queue: seq<Source>, unc: bool)
  {
    forall x :: x in queue ==>
      x.path.unc == unc && x.key.job in history && Named(history[x.key.job].request.sources, x)
  }

  /** The worker runs a source of its own domain. */
  ghost predicate RunsAtHome(history: map<nat, History>, k: Key, worker: Worker)
  {
    k.job in history && exists x: Source :: x.key == k && x.path.unc == worker.network
                                            && Named(history[k.job].request.sources, x)
  }

  ghost predicate Orderly(s: State)
  {
    && |s.queues| == 2
    && (forall d :: 0 <= d < 2 ==> Placed(s.history, s.queues[d], d == 1) && InTurn(s.history, s.queues[d]))
    && (forall k :: k in s.workers ==> RunsAtHome(s.history, k, s.workers[k]))
    && (forall j :: j in s.history ==> j <= s.nextJob)
  }

  // ---- what a request admits ----

  lemma NamedMore(sources: seq<(nat, Path)>, last: (nat, Path), x: Source)
    requires Named(sources, x)
    ensures Named(sources + [last], x)
  {
    var n :| 0 <= n < |sources| && sources[n] == (x.key.index, x.path);
    assert (sources + [last])[n] == sources[n];
  }

  lemma AheadMore(sources: seq<(nat, Path)>, last: (nat, Path), a: nat, b: nat)
    requires Ahead(sources, a, b)
    ensures Ahead(sources + [last], a, b)
  {
    var m, n :| 0 <= m < n < |sources| && sources[m].0 == a && sources[n].0 == b;
    assert (sources + [last])[m] == sources[m] && (sources + [last])[n] == sources[n];
  }

  lemma NamedLast(sources: seq<(nat, Path)>, last: (nat, Path), x: Source)
    requires Named(sources, x)
    ensures Ahead(sources + [last], x.key.index, last.0)
  {
    var n :| 0 <= n < |sources| && sources[n] == (x.key.index, x.path);
    assert (sources + [last])[n] == sources[n] && (sources + [last])[|sources|] == last;
  }

  ghost predicate AdmittedInOrder(job: nat, sources: seq<(nat, Path)>, xs: seq<Source>)
  {
    && (forall x :: x in xs ==> x.key.job == job && Named(sources, x))
    && (forall i, j :: 0 <= i < j < |xs| ==> Ahead(sources, xs[i].key.index, xs[j].key.index))
  }

  lemma OrderMore(job: nat, sources: seq<(nat, Path)>, last: (nat, Path), xs: seq<Source>)
    requires AdmittedInOrder(job, sources, xs)
    ensures AdmittedInOrder(job, sources + [last], xs)
    ensures AdmittedInOrder(job, sources + [last], xs + [Source(Key(job, last.0), last.1)])
  {
    var all, x := sources + [last], Source(Key(job, last.0), last.1);
    assert all[|sources|] == last && Named(all, x);
    hide Named, Ahead;
    forall y | y in xs ensures Named(all, y) && Ahead(all, y.key.index, last.0) {
      NamedMore(sources, last, y);
      NamedLast(sources, last, y);
    }
    forall i, j | 0 <= i < j < |xs| ensures Ahead(all, xs[i].key.index, xs[j].key.index) {
      AheadMore(sources, last, xs[i].key.index, xs[j].key.index);
    }
  }

  /** What is queued keeps the order of the request. */
  lemma {:induction false} AdmittedOrder(job: nat, sources: seq<(nat, Path)>)
    ensures AdmittedInOrder(job, sources, Admitted(job, sources))
    decreases |sources|
  {
    if sources != [] {
      var init, last := sources[..|sources| - 1], sources[|sources| - 1];
      AdmittedOrder(job, init);
      assert sources == init + [last];
      OrderMore(job, init, last, Admitted(job, init));
      hide AdmittedInOrder;
    }
  }

  lemma {:induction false} SplitOrder(job: nat, sources: seq<(nat, Path)>, xs: seq<Source>, d: nat)
    requires d < 2 && AdmittedInOrder(job, sources, xs)
    ensures AdmittedInOrder(job, sources, ForDomain(xs, d))
    ensures forall x :: x in ForDomain(xs, d) ==> x in xs && x.path.unc == (d == 1)
    decreases |xs|
  {
    hide Named, Ahead;
    if xs != [] {
      var init, last := xs[..|xs| - 1], xs[|xs| - 1];
      SplitOrder(job, sources, init, d);
      var kept, all := ForDomain(init, d), ForDomain(xs, d);
      forall i, j | 0 <= i < j < |all| ensures Ahead(sources, all[i].key.index, all[j].key.index) {
        if j == |kept| {
          assert kept[i] in init;
          var m :| 0 <= m < |init| && init[m] == kept[i];
          assert xs[m] == kept[i];
        }
      }
    }
  }

  /** Source `n` of the request is this one, and no earlier source has its path. */
  ghost predicate FirstAt(sources: seq<(nat, Path)>, n: nat, x: Source)
  {
    n < |sources| && sources[n] == (x.key.index, x.path) && forall m :: 0 <= m < n ==> sources[m].1 != x.path
  }

  lemma FirstOfMore(init: seq<(nat, Path)>, last: (nat, Path), x: Source)
    ensures forall n: nat :: FirstAt(init + [last], n, x)
                             <==> FirstAt(init, n, x)
                                  || (n == |init| && last == (x.key.index, x.path) && last.1 !in SourcePaths(init))
  {
    var all := init + [last];
    forall n: nat | n < |init| ensures FirstAt(all, n, x) <==> FirstAt(init, n, x) {
      assert forall m :: 0 <= m <= n ==> all[m] == init[m];
    }
    assert last.1 in SourcePaths(init) <==> exists m :: 0 <= m < |init| && init[m].1 == last.1;
    assert forall m :: 0 <= m < |init| ==> all[m] == init[m];
  }

  /** A source is queued exactly if no earlier one of its request has the same path. */
  lemma {:induction false} AdmittedAreFirst(job: nat, sources: seq<(nat, Path)>, x: Source)
    ensures x in Admitted(job, sources) <==> x.key.job == job && exists n: nat :: FirstAt(sources, n, x)
    decreases |sources|
  {
    if sources != [] {
      var init, last := sources[..|sources| - 1], sources[|sources| - 1];
      AdmittedAreFirst(job, init, x);
      FirstOfMore(init, last, x);
      assert sources == init + [last];
      hide FirstAt, SourcePaths;
      if last == (x.key.index, x.path) && last.1 !in SourcePaths(init) {
        assert FirstAt(sources, |init|, x);
      }
      if n: nat :| FirstAt(init, n, x) {
        assert FirstAt(sources, n, x);
      }
    }
  }

  // ---- every step keeps the order ----

  ghost predicate SameRequests(a: map<nat, History>, b: map<nat, History>)
  {
    forall j :: j in a ==> j in b && b[j].request == a[j].request
  }

  lemma SamePlaces(a: map<nat, History>, b: map<nat, History>, queue: seq<Source>, unc: bool)
    requires SameRequests(a, b) && Placed(a, queue, unc) && InTurn(a, queue)
    ensures Placed(b, queue, unc) && InTurn(b, queue)
  {
    hide Named, Ahead;
  }

  lemma SameHomes(a: map<nat, History>, b: map<nat, History>, k: Key, v: Worker, w: Worker)
    requires SameRequests(a, b) && RunsAtHome(a, k, v) && w.network == v.network
    ensures RunsAtHome(b, k, w)
  {
    hide Named;
    var x: Source :| x.key == k && x.path.unc == v.network && Named(a[k.job].request.sources, x);
    assert x.path.unc == w.network && Named(b[k.job].request.sources, x);
  }

  /** Steps that touch neither the queues nor who runs, except for workers that end. */
  ghost predicate SparesQueues(s: State, t: State)
  {
    && t.queues == s.queues && t.nextJob == s.nextJob && t.workers.Keys <= s.workers.Keys
    && (forall k :: k in t.workers ==> t.workers[k].network == s.workers[k].network)
    && SameRequests(s.history, t.history) && t.history.Keys == s.history.Keys
  }

  lemma SameOrder(s: State, t: State)
    requires Orderly(s) && SparesQueues(s, t)
    ensures Orderly(t)
  {
    hide Placed, InTurn, RunsAtHome, SameRequests;
    SamePlaces(s.history, t.history, s.queues[0], false);
    SamePlaces(s.history, t.history, s.queues[1], true);
    forall k | k in t.workers ensures RunsAtHome(t.history, k, t.workers[k]) {
      SameHomes(s.history, t.history, k, s.workers[k], t.workers[k]);
    }
  }

  lemma CutInTurn(history: map<nat, History>, queue: seq<Source>, i: nat, unc: bool)
    requires i < |queue| && Placed(history, queue, unc) && InTurn(history, queue)
    ensures Placed(history, queue[..i] + queue[i + 1..], unc) && InTurn(history, queue[..i] + queue[i + 1..])
  {
    hide Named, Earlier;
    var cut := queue[..i] + queue[i + 1..];
    forall a, b | 0 <= a < b < |cut| ensures Earlier(history, cut[a].key, cut[b].key) {
      assert cut[a] == queue[if a < i then a else a + 1] && cut[b] == queue[if b < i then b else b + 1];
    }
  }

  lemma DropKeepsOrder(s: State)
    requires Orderly(s) && QueueEnabled(s, Drop)
    ensures Orderly(QueueStep(s, Drop))
  {
    hide Placed, InTurn, RunsAtHome;
    var d := s.pc.domain;
    var t := QueueStep(s, Drop);
    CutInTurn(s.history, s.queues[d], s.pc.at, d == 1);
    var mid := s.(queues := t.queues);
    assert mid.queues[1 - d] == s.queues[1 - d];
    SameOrder(mid, t);
  }

  lemma SpawnKeepsOrder(s: State)
    requires Orderly(s) && QueueEnabled(s, Spawn)
    ensures Orderly(QueueStep(s, Spawn))
  {
    var d := s.pc.domain;
    var x := s.queues[d][0];
    assert RunsAtHome(s.history, x.key, Worker(d == 1, Reading)) by { assert x in s.queues[d]; }
    hide Placed, InTurn, RunsAtHome;
    CutInTurn(s.history, s.queues[d], 0, d == 1);
    assert s.queues[d][..0] + s.queues[d][1..] == s.queues[d][1..];
  }

  lemma JoinedInTurn(history: map<nat, History>, queue: seq<Source>, more: seq<Source>, unc: bool, job: nat)
    requires Placed(history, queue, unc) && InTurn(history, queue) && job in history
    requires forall x :: x in queue ==> x.key.job < job
    requires AdmittedInOrder(job, history[job].request.sources, more)
    requires forall x :: x in more ==> x.path.unc == unc
    ensures Placed(history, queue + more, unc) && InTurn(history, queue + more)
  {
    hide Named, Ahead;
    var all := queue + more;
    forall i, j | 0 <= i < j < |all| ensures Earlier(history, all[i].key, all[j].key) {
      if i < |queue| <= j {
        assert queue[i] in queue && more[j - |queue|] in more;
      } else if |queue| <= i {
        assert more[i - |queue|] in more && more[j - |queue|] in more;
      }
    }
  }

  lemma TakeKeepsOrder(s: State, r: Request)
    requires Orderly(s)
    ensures Orderly(TakeRequest(s, r))
  {
    var t := TakeRequest(s, r);
    var job := t.nextJob;
    var admitted := Admitted(job, r.sources);
    AdmittedOrder(job, r.sources);
    hide Named, Ahead, RunsAtHome, AdmittedInOrder, ForDomain;
    forall d | 0 <= d < 2 ensures Placed(t.history, t.queues[d], d == 1) && InTurn(t.history, t.queues[d]) {
      SplitOrder(job, r.sources, admitted, d);
      SamePlaces(s.history, t.history, s.queues[d], d == 1);
      JoinedInTurn(t.history, s.queues[d], ForDomain(admitted, d), d == 1, job);
    }
    forall k | k in t.workers ensures RunsAtHome(t.history, k, t.workers[k]) {
      SameHomes(s.history, t.history, k, s.workers[k], t.workers[k]);
    }
  }

  lemma IngressKeepsOrder(s: State, l: Label)
    requires Orderly(s) && IngressEnabled(s, l)
    ensures Orderly(IngressStep(s, l))
  {
    hide Placed, InTurn, RunsAtHome;
    if l.Take? {
      TakeKeepsOrder(s, l.request);
    } else {
      SameOrder(s, IngressStep(s, l));
    }
  }

  lemma WorldKeepsOrder(s: State, l: Label)
    requires Orderly(s) && WorldEnabled(s, l)
    ensures Orderly(World(s, l))
  {
    hide Orderly;
    SameOrder(s, World(s, l));
  }

  lemma FlushKeepsOrder(s: State, l: Label)
    requires Orderly(s) && FlushEnabled(s, l)
    ensures Orderly(Flush(s, l))
  {
    hide Orderly;
    SameOrder(s, Flush(s, l));
  }

  lemma TerminalKeepsOrder(s: State, l: Label)
    requires Orderly(s) && TerminalEnabled(s, l)
    ensures Orderly(TerminalStep(s, l))
  {
    hide Orderly;
    SameOrder(s, TerminalStep(s, l));
  }

  lemma QueueKeepsOrder(s: State, l: Label)
    requires Orderly(s) && QueueEnabled(s, l)
    ensures Orderly(QueueStep(s, l))
  {
    hide Orderly;
    if l.Drop? {
      DropKeepsOrder(s);
    } else if l.Spawn? {
      SpawnKeepsOrder(s);
    } else {
      SameOrder(s, QueueStep(s, l));
    }
  }

  lemma ReceiveKeepsOrder(s: State, l: Label)
    requires Orderly(s) && ReceiveEnabled(s, l)
    ensures Orderly(ReceiveStep(s, l))
  {
    hide Orderly, ReceiveBatch, ReceiveDone;
    if l.Receive? {
      match s.channel[0]
      case Batch(k, entries) =>
        BatchSpares(s, k, entries);
        SameOrder(s, ReceiveStep(s, l));
      case Finished(k, outcome) =>
        DoneSpares(s, k, outcome);
        SameOrder(s, ReceiveStep(s, l));
    } else {
      SameOrder(s, ReceiveStep(s, l));
    }
  }

  lemma BatchSpares(s: State, k: Key, entries: seq<Entry>)
    requires s.channel != []
    ensures SparesQueues(s, ReceiveBatch(s, k, entries))
  {
    hide Fresh, Tagged, Paths, Fits;
  }

  lemma DoneSpares(s: State, k: Key, outcome: Outcome)
    requires s.channel != [] && k in s.workers && |s.active| == 2
    ensures SparesQueues(s, ReceiveDone(s, k, outcome))
  {
    hide AfterResult;
  }

  lemma StepKeepsOrder(s: State, l: Label)
    requires Orderly(s) && Enabled(s, l)
    ensures Orderly(After(s, l))
  {
    hide World, Flush, IngressStep, QueueStep, TerminalStep, ReceiveStep, Orderly;
    if WorldEnabled(s, l) {
      WorldKeepsOrder(s, l);
    } else if FlushEnabled(s, l) {
      FlushKeepsOrder(s, l);
    } else if IngressEnabled(s, l) {
      IngressKeepsOrder(s, l);
    } else if QueueEnabled(s, l) {
      QueueKeepsOrder(s, l);
    } else if TerminalEnabled(s, l) {
      TerminalKeepsOrder(s, l);
    } else {
      ReceiveKeepsOrder(s, l);
    }
  }

  lemma {:induction false} RunKeepsOrder(s: State, labels: seq<Label>, t: State)
    requires Orderly(s) && Leads(s, labels, t)
    ensures Orderly(t)
    decreases |labels|
  {
    hide Orderly, Enabled, After;
    if labels != [] {
      StepKeepsOrder(s, labels[0]);
      RunKeepsOrder(After(s, labels[0]), labels[1..], t);
    }
  }

  lemma ReachableOrderly(s: State)
    requires Reachable(s)
    ensures Orderly(s)
  {
    var labels :| Leads(Initial(), labels, s);
    RunKeepsOrder(Initial(), labels, s);
  }

  // ---- what follows ----

  /** A source waits in the queue of its path's domain and runs against the slots of that domain. */
  lemma SourcesStayAtHome(s: State)
    requires Reachable(s)
    ensures |s.queues| == 2
    ensures forall d, i :: 0 <= d < 2 && 0 <= i < |s.queues[d]| ==>
              var x := s.queues[d][i];
              x.path.unc == (d == 1) && x.key.job in s.history && Named(s.history[x.key.job].request.sources, x)
    ensures forall k :: k in s.workers ==> RunsAtHome(s.history, k, s.workers[k])
  {
    hide Reachable, Named, RunsAtHome;
    ReachableOrderly(s);
    forall d, i | 0 <= d < 2 && 0 <= i < |s.queues[d]| ensures s.queues[d][i] in s.queues[d] {
    }
  }

  /**
   The source `k` starts between `s` and `t` while nothing waits for the output and fewer than four of
   its domain are running, and every source left in the queue of its domain was asked for later.
   */
  ghost predicate StartsInTurn(s: State, t: State, k: Key)
    requires k in t.workers
  {
    var d := if t.workers[k].network then 1 else 0;
    && |s.active| == 2 && |t.queues| == 2
    && s.pending == [] && s.active[d] < 4
    && forall i :: 0 <= i < |t.queues[d]| ==> Earlier(s.history, k, t.queues[d][i].key)
  }

  /** Whatever starts, starts in its turn. */
  lemma SourcesStartInTurn(s: State, l: Label, k: Key)
    requires Reachable(s) && Enabled(s, l) && k !in s.workers && k in After(s, l).workers
    ensures StartsInTurn(s, After(s, l), k)
  {
    hide Reachable, Earlier;
    ReachableOrderly(s);
    OnlySpawnStarts(s, l, k);
    var d := s.pc.domain;
    forall i | 0 <= i < |After(s, l).queues[d]| ensures Earlier(s.history, k, After(s, l).queues[d][i].key) {
      assert After(s, l).queues[d][i] == s.queues[d][i + 1];
    }
  }

  lemma OnlySpawnStarts(s: State, l: Label, k: Key)
    requires Enabled(s, l) && k !in s.workers && k in After(s, l).workers
    ensures l.Spawn? && QueueEnabled(s, l) && After(s, l) == QueueStep(s, l) && k == s.queues[s.pc.domain][0].key
  {
    hide World, Flush, IngressStep, TerminalStep, ReceiveStep;
    OthersStartNone(s, l);
  }

  lemma OthersStartNone(s: State, l: Label)
    ensures WorldEnabled(s, l) ==> World(s, l).workers.Keys == s.workers.Keys
    ensures FlushEnabled(s, l) ==> Flush(s, l).workers.Keys == s.workers.Keys
    ensures IngressEnabled(s, l) ==> IngressStep(s, l).workers.Keys == s.workers.Keys
    ensures TerminalEnabled(s, l) ==> TerminalStep(s, l).workers.Keys == s.workers.Keys
    ensures ReceiveEnabled(s, l) ==> ReceiveStep(s, l).workers.Keys <= s.workers.Keys
  {
    hide World, Flush, IngressStep, TerminalStep, ReceiveStep;
    if WorldEnabled(s, l) {
      WorldStartsNone(s, l);
    }
    if FlushEnabled(s, l) {
      FlushStartsNone(s, l);
    }
    if IngressEnabled(s, l) {
      IngressStartsNone(s, l);
    }
    if TerminalEnabled(s, l) {
      TerminalStartsNone(s, l);
    }
    if ReceiveEnabled(s, l) {
      ReceiveStartsNone(s, l);
    }
  }

  lemma WorldStartsNone(s: State, l: Label)
    requires WorldEnabled(s, l)
    ensures World(s, l).workers.Keys == s.workers.Keys
  {
  }

  lemma FlushStartsNone(s: State, l: Label)
    requires FlushEnabled(s, l)
    ensures Flush(s, l).workers.Keys == s.workers.Keys
  {
  }

  lemma IngressStartsNone(s: State, l: Label)
    requires IngressEnabled(s, l)
    ensures IngressStep(s, l).workers.Keys == s.workers.Keys
  {
  }

  lemma TerminalStartsNone(s: State, l: Label)
    requires TerminalEnabled(s, l)
    ensures TerminalStep(s, l).workers.Keys == s.workers.Keys
  {
  }

  lemma ReceiveStartsNone(s: State, l: Label)
    requires ReceiveEnabled(s, l)
    ensures ReceiveStep(s, l).workers.Keys <= s.workers.Keys
  {
    hide ReceiveBatch, ReceiveDone;
    if l.Receive? {
      match s.channel[0]
      case Batch(k, entries) => BatchSpares(s, k, entries);
      case Finished(k, outcome) => DoneSpares(s, k, outcome);
    }
  }
}
