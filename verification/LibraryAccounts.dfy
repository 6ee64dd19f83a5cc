/**
 Accounting of the library scheduler: queues, running workers and the counters that mirror them.
 */
module LibraryAccounts {
  import opened LibraryEntries
  import opened LibraryScheduler

  function QueueKeys(queue: seq<Source>): set<Key>
  {
    set i | 0 <= i < |queue| :: queue[i].key
  }

  function OfJob(keys: set<Key>, job: nat): set<Key>
  {
    set k | k in keys && k.job == job
  }

  function OnNetwork(workers: map<Key, Worker>, network: bool): set<Key>
  {
    set k | k in workers && workers[k].network == network
  }

  /** The sources of all jobs that still owe a final result. */
  function Open(s: State): set<Key>
    requires |s.queues| == 2
  {
    QueueKeys(s.queues[0]) + QueueKeys(s.queues[1]) + s.workers.Keys
  }

  ghost predicate DistinctKeys(queue: seq<Source>)
  {
    forall i, j :: 0 <= i < j < |queue| ==> queue[i].key != queue[j].key
  }

  /** No source is in two places: queues are duplicate free, disjoint and apart from the workers. */
  ghost predicate Apart(s: State)
  {
    && |s.queues| == 2 && |s.active| == 2
    && DistinctKeys(s.queues[0]) && DistinctKeys(s.queues[1])
    && QueueKeys(s.queues[0]) !! QueueKeys(s.queues[1])
    && QueueKeys(s.queues[0]) !! s.workers.Keys
    && QueueKeys(s.queues[1]) !! s.workers.Keys
  }

  /** Every open source belongs to a live job, and live jobs are the ones the history started with. */
  ghost predicate Owned(s: State)
  {
    && |s.queues| == 2
    && (forall k :: k in Open(s) ==> k.job in s.jobs)
    && (forall j :: j in s.jobs ==> j in s.history && s.jobs[j].request == s.history[j].request)
    && (forall j :: j in s.history <==> 1 <= j <= s.nextJob)
  }

  ghost predicate CountsMatch(jobs: map<nat, Job>, open: set<Key>)
  {
    forall j :: j in jobs ==> jobs[j].remaining == |OfJob(open, j)|
  }

  ghost predicate Counted(s: State)
  {
    && |s.queues| == 2
    && CountsMatch(s.jobs, Open(s))
    && (s.pc.Completing? ==> forall j :: j in s.pc.ids ==> j in s.jobs && s.jobs[j].remaining == 0)
  }

  ghost predicate Slots(s: State)
  {
    && |s.active| == 2
    && s.active[0] == |OnNetwork(s.workers, false)| <= SOURCE_SLOTS
    && s.active[1] == |OnNetwork(s.workers, true)| <= SOURCE_SLOTS
  }

  ghost predicate Accounts(s: State)
  {
    Apart(s) && Owned(s) && Counted(s) && Slots(s)
  }

  // ---- steps that leave the accounts alone ----

  ghost predicate SameAccounts(s: State, t: State)
  {
    && s.jobs == t.jobs && s.queues == t.queues && s.active == t.active && s.nextJob == t.nextJob
    && s.workers.Keys == t.workers.Keys
    && (forall k :: k in s.workers ==> s.workers[k].network == t.workers[k].network)
    && s.history.Keys == t.history.Keys
    && (forall j :: j in s.history ==> s.history[j].request == t.history[j].request)
    && (t.pc.Completing? ==> t.pc == s.pc)
  }

  lemma SameAccountsKeep(s: State, t: State)
    requires Accounts(s) && SameAccounts(s, t)
    ensures Accounts(t)
  {
    assert Open(s) == Open(t);
    assert OnNetwork(s.workers, false) == OnNetwork(t.workers, false);
    assert OnNetwork(s.workers, true) == OnNetwork(t.workers, true);
  }

  lemma WorldKeepsAccounts(s: State, l: Label)
    requires Accounts(s) && WorldEnabled(s, l)
    ensures Accounts(World(s, l))
  {
    hide Apart, Owned, Counted, Slots;
    SameAccountsKeep(s, World(s, l));
  }

  lemma FlushKeepsAccounts(s: State, l: Label)
    requires Accounts(s) && FlushEnabled(s, l)
    ensures Accounts(Flush(s, l))
  {
    hide Apart, Owned, Counted, Slots;
    SameAccountsKeep(s, Flush(s, l));
  }

  // ---- cardinalities ----

  lemma OfJobAdd(keys: set<Key>, k: Key, job: nat)
    requires k !in keys
    ensures |OfJob(keys + {k}, job)| == |OfJob(keys, job)| + if k.job == job then 1 else 0
  {
    if k.job == job {
      assert OfJob(keys + {k}, job) == OfJob(keys, job) + {k};
    } else {
      assert OfJob(keys + {k}, job) == OfJob(keys, job);
    }
  }

  lemma OnNetworkAdd(workers: map<Key, Worker>, k: Key, w: Worker, network: bool)
    requires k !in workers
    ensures |OnNetwork(workers[k := w], network)| == |OnNetwork(workers, network)| + if w.network == network then 1
            else 0
  {
    var before, after := OnNetwork(workers, network), OnNetwork(workers[k := w], network);
    if w.network == network {
      assert after == before + {k};
    } else {
      assert after == before;
    }
  }

  lemma OnNetworkRemove(workers: map<Key, Worker>, k: Key, network: bool)
    requires k in workers
    ensures |OnNetwork(workers - {k}, network)| == |OnNetwork(workers, network)| - if workers[k].network == network
            then 1 else 0
  {
    OnNetworkAdd(workers - {k}, k, workers[k], network);
    assert (workers - {k})[k := workers[k]] == workers;
  }

  // ---- queue steps ----

  lemma QueueKeysCut(queue: seq<Source>, i: nat)
    requires i < |queue| && DistinctKeys(queue)
    ensures QueueKeys(queue[..i] + queue[i + 1..]) == QueueKeys(queue) - {queue[i].key}
    ensures DistinctKeys(queue[..i] + queue[i + 1..])
  {
    var cut := queue[..i] + queue[i + 1..];
    forall k | k in QueueKeys(queue) - {queue[i].key} ensures k in QueueKeys(cut) {
      var j :| 0 <= j < |queue| && queue[j].key == k;
      assert cut[if j < i then j else j - 1] == queue[j];
    }
    forall k | k in QueueKeys(cut) ensures k in QueueKeys(queue) - {queue[i].key} {
      var j :| 0 <= j < |cut| && cut[j].key == k;
      assert cut[j] == queue[if j < i then j else j + 1];
    }
  }

  lemma CountsAfterRemoval(before: map<nat, Job>, after: map<nat, Job>, open: set<Key>, k: Key)
    requires CountsMatch(before, open) && k in open && k.job in before
    requires after.Keys == before.Keys
    requires forall j :: j in before ==> after[j].remaining == before[j].remaining - if j == k.job then 1 else 0
    ensures CountsMatch(after, open - {k})
  {
    forall j | j in after ensures after[j].remaining == |OfJob(open - {k}, j)| {
      OfJobAdd(open - {k}, k, j);
      assert open == (open - {k}) + {k};
    }
  }

  lemma DropKeepsAccounts(s: State)
    requires Accounts(s) && QueueEnabled(s, Drop)
    ensures Accounts(QueueStep(s, Drop))
  {
    hide OnNetwork, DistinctKeys;
    var d, i := s.pc.domain, s.pc.at;
    var k := s.queues[d][i].key;
    var t := QueueStep(s, Drop);
    assert k in QueueKeys(s.queues[d]);
    assert Apart(t) && Open(t) == Open(s) - {k} by {
      QueueKeysCut(s.queues[d], i);
      assert t.queues[1 - d] == s.queues[1 - d];
    }
    assert Counted(t) by {
      CountsAfterRemoval(s.jobs, t.jobs, Open(s), k);
    }
  }

  lemma SpawnKeepsAccounts(s: State)
    requires Accounts(s) && QueueEnabled(s, Spawn)
    ensures Accounts(QueueStep(s, Spawn))
  {
    hide DistinctKeys, CountsMatch, OnNetwork;
    var d := s.pc.domain;
    var k := s.queues[d][0].key;
    var t := QueueStep(s, Spawn);
    QueueKeysCut(s.queues[d], 0);
    assert s.queues[d][..0] + s.queues[d][0 + 1..] == s.queues[d][1..];
    assert k in QueueKeys(s.queues[d]);
    assert t.queues[1 - d] == s.queues[1 - d];
    assert Open(t) == Open(s);
    OnNetworkAdd(s.workers, k, Worker(d == 1, Reading), false);
    OnNetworkAdd(s.workers, k, Worker(d == 1, Reading), true);
  }

  lemma QueueKeepsAccounts(s: State, l: Label)
    requires Accounts(s) && QueueEnabled(s, l)
    ensures Accounts(QueueStep(s, l))
  {
    hide OnNetwork, DistinctKeys, CountsMatch;
    if l.Drop? {
      DropKeepsAccounts(s);
    } else if l.Spawn? {
      SpawnKeepsAccounts(s);
    } else if l.SpawnDone? && s.pc.domain != 0 {
      SameAccountsKeep(s, s.(pc := Checking));
      assert Open(QueueStep(s, l)) == Open(s);
    } else {
      SameAccountsKeep(s, QueueStep(s, l));
    }
  }

  // ---- ingress ----

  lemma {:induction false} AdmittedIndex(job: nat, sources: seq<(nat, Path)>, k: Key)
    requires k in QueueKeys(Admitted(job, sources))
    ensures k.job == job && exists i :: 0 <= i < |sources| && sources[i].0 == k.index
    decreases |sources|
  {
    var init, last := sources[..|sources| - 1], sources[|sources| - 1];
    if k in QueueKeys(Admitted(job, init)) {
      AdmittedIndex(job, init, k);
      var i :| 0 <= i < |init| && init[i].0 == k.index;
      assert sources[i].0 == k.index;
    } else {
      assert sources[|sources| - 1].0 == k.index;
    }
  }

  lemma OnlyAdmittedIndices(job: nat, sources: seq<(nat, Path)>, k: Key)
    ensures k in QueueKeys(Admitted(job, sources)) ==> exists i :: 0 <= i < |sources| && sources[i].0 == k.index
  {
    if k in QueueKeys(Admitted(job, sources)) {
      AdmittedIndex(job, sources, k);
    }
  }

  lemma {:induction false} AdmittedDistinct(job: nat, sources: seq<(nat, Path)>)
    requires DistinctIndices(sources)
    ensures DistinctKeys(Admitted(job, sources))
    decreases |sources|
  {
    if sources != [] {
      var init, last := sources[..|sources| - 1], sources[|sources| - 1];
      AdmittedDistinct(job, init);
      assert forall i :: 0 <= i < |init| ==> init[i].0 != last.0;
      OnlyAdmittedIndices(job, init, Key(job, last.0));
      QueueKeysSnoc(Admitted(job, init), Source(Key(job, last.0), last.1));
    }
  }

  lemma QueueKeysAppend(a: seq<Source>, b: seq<Source>)
    ensures QueueKeys(a + b) == QueueKeys(a) + QueueKeys(b)
    ensures DistinctKeys(a) && DistinctKeys(b) && QueueKeys(a) !! QueueKeys(b) ==> DistinctKeys(a + b)
  {
    forall k | k in QueueKeys(a) + QueueKeys(b) ensures k in QueueKeys(a + b) {
      if k in QueueKeys(a) {
        var i :| 0 <= i < |a| && a[i].key == k;
        assert (a + b)[i].key == k;
      } else {
        var i :| 0 <= i < |b| && b[i].key == k;
        assert (a + b)[|a| + i].key == k;
      }
    }
    if DistinctKeys(a) && DistinctKeys(b) && QueueKeys(a) !! QueueKeys(b) {
      forall i, j | 0 <= i < j < |a + b| ensures (a + b)[i].key != (a + b)[j].key {
        if i < |a| <= j {
          assert a[i].key in QueueKeys(a) && b[j - |a|].key in QueueKeys(b);
        }
      }
    }
  }

  lemma QueueKeysSnoc(queue: seq<Source>, last: Source)
    ensures QueueKeys(queue + [last]) == QueueKeys(queue) + {last.key}
    ensures DistinctKeys(queue) && last.key !in QueueKeys(queue) ==> DistinctKeys(queue + [last])
    ensures DistinctKeys(queue + [last]) ==> DistinctKeys(queue) && last.key !in QueueKeys(queue)
  {
    QueueKeysAppend(queue, [last]);
    assert QueueKeys([last]) == {last.key} by { assert [last][0].key in QueueKeys([last]); }
    if DistinctKeys(queue + [last]) {
      var all := queue + [last];
      assert forall i :: 0 <= i < |queue| ==> queue[i] == all[i] && all[i].key != all[|queue|].key;
    }
  }

  lemma ForDomainSnoc(init: seq<Source>, last: Source, d: nat)
    ensures ForDomain(init + [last], d) == if OnDomain(last, d) then ForDomain(init, d) + [last] else ForDomain(init, d)
  {
    assert (init + [last])[..|init|] == init;
  }

  lemma {:induction false} DistinctCount(queue: seq<Source>)
    requires DistinctKeys(queue)
    ensures |QueueKeys(queue)| == |queue|
    decreases |queue|
  {
    if queue != [] {
      var init, last := queue[..|queue| - 1], queue[|queue| - 1];
      assert queue == init + [last];
      QueueKeysSnoc(init, last);
      DistinctCount(init);
    }
  }

  /** Splitting by domain keeps distinctness; the two parts cover the whole without overlap. */
  lemma {:induction false} ForDomainKeys(sources: seq<Source>)
    requires DistinctKeys(sources)
    ensures DistinctKeys(ForDomain(sources, 0)) && DistinctKeys(ForDomain(sources, 1))
    ensures QueueKeys(ForDomain(sources, 0)) !! QueueKeys(ForDomain(sources, 1))
    ensures QueueKeys(ForDomain(sources, 0)) + QueueKeys(ForDomain(sources, 1)) == QueueKeys(sources)
    decreases |sources|
  {
    if sources != [] {
      var init, last := sources[..|sources| - 1], sources[|sources| - 1];
      var d := if last.path.unc then 1 else 0;
      assert sources == init + [last];
      QueueKeysSnoc(init, last);
      hide ForDomain;
      ForDomainKeys(init);
      QueueKeysSnoc(ForDomain(init, d), last);
      ForDomainSnoc(init, last, d);
      ForDomainSnoc(init, last, 1 - d);
    }
  }

  lemma NewJobCounts(jobs: map<nat, Job>, open: set<Key>, job: nat, r: Request, added: set<Key>)
    requires CountsMatch(jobs, open) && job !in jobs
    requires forall k :: k in open ==> k.job in jobs
    requires forall k :: k in added ==> k.job == job
    ensures CountsMatch(jobs[job := NewJob(r, |added|)], open + added)
  {
    var t := jobs[job := NewJob(r, |added|)];
    forall j | j in t ensures t[j].remaining == |OfJob(open + added, j)| {
      if j == job {
        assert OfJob(open + added, j) == added;
      } else {
        assert OfJob(open + added, j) == OfJob(open, j);
      }
    }
  }

  /** `TakeRequest` with the two parts of the admitted sources already split off. */
  function Enlisted(s: State, r: Request, first: seq<Source>, second: seq<Source>, count: nat): State
    requires |s.queues| == 2
  {
    var job := s.nextJob + 1;
    s.(nextJob := job,
       queues := [s.queues[0] + first, s.queues[1] + second],
       jobs := s.jobs[job := NewJob(r, count)],
       history := s.history[job := History(r, [], [], [], 0)])
  }

  lemma EnlistedKeepsApart(s: State, r: Request, first: seq<Source>, second: seq<Source>, count: nat)
    requires Apart(s) && DistinctKeys(first) && DistinctKeys(second)
    requires QueueKeys(first) !! QueueKeys(second)
    requires QueueKeys(first) !! Open(s) && QueueKeys(second) !! Open(s)
    ensures Apart(Enlisted(s, r, first, second, count))
    ensures Open(Enlisted(s, r, first, second, count)) == Open(s) + (QueueKeys(first) + QueueKeys(second))
  {
    QueueKeysAppend(s.queues[0], first);
    QueueKeysAppend(s.queues[1], second);
  }

  lemma OpenIsOlder(s: State)
    requires Owned(s)
    ensures s.nextJob + 1 !in s.jobs
    ensures forall k :: k in Open(s) ==> k.job in s.jobs && k.job != s.nextJob + 1
  {
  }

  lemma EnlistedOwned(s: State, r: Request, first: seq<Source>, second: seq<Source>, count: nat)
    requires Accounts(s)
    requires Open(Enlisted(s, r, first, second, count)) == Open(s) + (QueueKeys(first) + QueueKeys(second))
    requires forall k :: k in QueueKeys(first) + QueueKeys(second) ==> k.job == s.nextJob + 1
    ensures Owned(Enlisted(s, r, first, second, count)) && Slots(Enlisted(s, r, first, second, count))
  {
  }

  lemma EnlistedKeepsAccounts(s: State, r: Request, first: seq<Source>, second: seq<Source>, count: nat, left: nat)
    requires Accounts(s) && DistinctKeys(first) && DistinctKeys(second)
    requires QueueKeys(first) !! QueueKeys(second)
    requires forall k :: k in QueueKeys(first) + QueueKeys(second) ==> k.job == s.nextJob + 1
    requires count == |QueueKeys(first) + QueueKeys(second)|
    ensures Accounts(Enlisted(s, r, first, second, count).(pc := Ingress(left)))
  {
    hide Owned, Slots, CountsMatch, QueueKeys, OfJob, OnNetwork, Open, DistinctKeys;
    var mid := Enlisted(s, r, first, second, count);
    OpenIsOlder(s);
    EnlistedKeepsApart(s, r, first, second, count);
    NewJobCounts(s.jobs, Open(s), s.nextJob + 1, r, QueueKeys(first) + QueueKeys(second));
    EnlistedOwned(s, r, first, second, count);
    PcIsNoAccount(mid, Ingress(left));
  }

  lemma PcIsNoAccount(s: State, pc: Phase)
    requires Apart(s) && Owned(s) && Slots(s) && CountsMatch(s.jobs, Open(s)) && !pc.Completing?
    ensures Accounts(s.(pc := pc))
  {
    assert Open(s.(pc := pc)) == Open(s);
  }

  lemma TakeKeepsAccounts(s: State, r: Request, left: nat)
    requires Accounts(s) && DistinctIndices(r.sources)
    ensures Accounts(TakeRequest(s, r).(pc := Ingress(left)))
  {
    hide OnNetwork, OfJob;
    var job := s.nextJob + 1;
    var admitted := Admitted(job, r.sources);
    AdmittedDistinct(job, r.sources);
    forall k | k in QueueKeys(admitted) ensures k.job == job {
      AdmittedIndex(job, r.sources, k);
    }
    ForDomainKeys(admitted);
    DistinctCount(admitted);
    EnlistedKeepsAccounts(s, r, ForDomain(admitted, 0), ForDomain(admitted, 1), |admitted|, left);
  }

  lemma IngressKeepsAccounts(s: State, l: Label)
    requires Accounts(s) && IngressEnabled(s, l)
    ensures Accounts(IngressStep(s, l))
  {
    if l.Take? {
      TakeKeepsAccounts(s, l.request, s.pc.left - 1);
    } else {
      SameAccountsKeep(s, IngressStep(s, l));
    }
  }

  // ---- terminals and results ----

  lemma ForgetKeepsAccounts(s: State, id: nat)
    requires Accounts(s) && s.pc.Completing? && id in s.pc.ids
    ensures Accounts(s.(jobs := s.jobs - {id}, pc := Completing(s.pc.ids - {id})))
  {
    var t := s.(jobs := s.jobs - {id}, pc := Completing(s.pc.ids - {id}));
    assert Open(t) == Open(s);
    var none := OfJob(Open(s), id);
    assert none == {};
    forall k | k in Open(s) ensures k.job != id {
      assert k.job == id ==> k in none;
    }
  }

  lemma ForgetOne(s: State, id: nat, t: State)
    requires Accounts(s) && s.pc.Completing? && id in s.pc.ids
             && SameAccounts(s.(jobs := s.jobs - {id}, pc := Completing(s.pc.ids - {id})), t)
    ensures Accounts(t)
  {
    hide Accounts, SameAccounts;
    ForgetKeepsAccounts(s, id);
    SameAccountsKeep(s.(jobs := s.jobs - {id}, pc := Completing(s.pc.ids - {id})), t);
  }

  lemma KeepOne(s: State, id: nat, t: State)
    requires Accounts(s) && s.pc.Completing? && id in s.pc.ids && SameAccounts(s.(pc := Completing(s.pc.ids - {id})), t)
    ensures Accounts(t)
  {
    hide SameAccounts, CountsMatch, OnNetwork, DistinctKeys, QueueKeys;
    var kept := s.(pc := Completing(s.pc.ids - {id}));
    assert Open(kept) == Open(s);
    SameAccountsKeep(kept, t);
  }

  lemma TerminalKeepsAccounts(s: State, l: Label)
    requires Accounts(s) && TerminalEnabled(s, l)
    ensures Accounts(TerminalStep(s, l))
  {
    hide Apart, Owned, Counted, Slots, TerminalOf;
    var t := TerminalStep(s, l);
    if l.TerminalSent? || l.TerminalGone? || l.TerminalFull? {
      if l.TerminalFull? && !IsCancelled(s, l.id) {
        KeepOne(s, l.id, t);
      } else {
        ForgetOne(s, l.id, t);
      }
    } else {
      SameAccountsKeep(s, t);
    }
  }

  lemma DoneSlots(s: State, k: Key, outcome: Outcome)
    requires Slots(s) && s.channel != [] && k in s.workers
    ensures Slots(ReceiveDone(s, k, outcome))
  {
    hide OnNetwork, AfterResult;
    OnNetworkRemove(s.workers, k, false);
    OnNetworkRemove(s.workers, k, true);
  }

  lemma DoneApart(s: State, k: Key, outcome: Outcome)
    requires Apart(s) && Owned(s) && s.channel != [] && k in s.workers
    ensures Apart(ReceiveDone(s, k, outcome)) && Owned(ReceiveDone(s, k, outcome))
    ensures Open(ReceiveDone(s, k, outcome)) == Open(s) - {k} && k in Open(s)
  {
    hide QueueKeys, DistinctKeys, MergeError;
  }

  lemma DoneCounts(s: State, k: Key, outcome: Outcome)
    requires Apart(s) && Owned(s) && CountsMatch(s.jobs, Open(s)) && s.channel != [] && k in s.workers
    ensures CountsMatch(ReceiveDone(s, k, outcome).jobs, Open(s) - {k})
  {
    hide QueueKeys, DistinctKeys, CountsMatch, OfJob;
    var t := ReceiveDone(s, k, outcome);
    assert k in Open(s);
    CountsAfterRemoval(s.jobs, t.jobs, Open(s), k);
  }

  lemma DoneKeepsAccounts(s: State, k: Key, outcome: Outcome)
    requires Accounts(s) && s.pc == Receiving && s.channel != [] && k in s.workers
    ensures Accounts(ReceiveDone(s, k, outcome).(pc := Flushing))
  {
    hide ReceiveDone, Open, OnNetwork, CountsMatch, QueueKeys, DistinctKeys;
    var t := ReceiveDone(s, k, outcome);
    DoneSlots(s, k, outcome);
    DoneApart(s, k, outcome);
    DoneCounts(s, k, outcome);
    PcIsNoAccount(t, Flushing);
  }

  lemma SameRemainingKeep(s: State, t: State)
    requires Accounts(s) && t.pc == Flushing
    requires SameAccounts(s, t.(jobs := s.jobs))
    requires t.jobs.Keys == s.jobs.Keys
    requires forall j :: j in s.jobs ==>
               t.jobs[j].remaining == s.jobs[j].remaining && t.jobs[j].request == s.jobs[j].request
    ensures Accounts(t)
  {
    hide OnNetwork, DistinctKeys;
    SameAccountsKeep(s, t.(jobs := s.jobs));
    assert Open(t) == Open(t.(jobs := s.jobs));
  }

  lemma BatchEffect(s: State, k: Key, entries: seq<Entry>)
    requires Owned(s) && s.channel != []
    ensures var t := ReceiveBatch(s, k, entries);
            && t.queues == s.queues && t.active == s.active && t.nextJob == s.nextJob
            && t.jobs.Keys == s.jobs.Keys && t.history.Keys == s.history.Keys
            && (t.workers == s.workers || exists r :: t.workers == Replied(s.workers, {k}, r))
            && (forall j :: j in s.history ==> s.history[j].request == t.history[j].request)
            && (forall j :: j in s.jobs ==>
                  t.jobs[j].remaining == s.jobs[j].remaining && t.jobs[j].request == s.jobs[j].request)
  {
    hide Fresh, Tagged, Paths;
    if Merges(s, k) {
      var kept := Fresh(s.jobs[k.job].seen, Tagged(k.index, entries));
      if kept == [] {
        assert ReceiveBatch(s, k, entries).workers == Replied(s.workers, {k}, Acknowledged);
      }
    } else {
      assert ReceiveBatch(s, k, entries).workers == Replied(s.workers, {k}, HungUp);
    }
  }

  lemma BatchKeepsAccounts(s: State, k: Key, entries: seq<Entry>)
    requires Accounts(s) && s.channel != []
    ensures Accounts(ReceiveBatch(s, k, entries).(pc := Flushing))
  {
    hide ReceiveBatch, Apart, Owned, Counted, Slots;
    BatchEffect(s, k, entries);
    var t := ReceiveBatch(s, k, entries);
    SameRemainingKeep(s, t.(pc := Flushing));
  }

  lemma ReceiveKeepsAccounts(s: State, l: Label)
    requires Accounts(s) && ReceiveEnabled(s, l)
    ensures Accounts(ReceiveStep(s, l))
  {
    if l.Receive? {
      match s.channel[0]
      case Batch(k, entries) => BatchKeepsAccounts(s, k, entries);
      case Finished(k, outcome) => DoneKeepsAccounts(s, k, outcome);
    } else {
      SameAccountsKeep(s, ReceiveStep(s, l));
    }
  }

  lemma StepKeepsAccounts(s: State, l: Label)
    requires Accounts(s) && Enabled(s, l)
    ensures Accounts(After(s, l))
  {
    hide World, Flush, IngressStep, QueueStep, TerminalStep, ReceiveStep, Apart, Counted, Slots;
    if WorldEnabled(s, l) {
      WorldKeepsAccounts(s, l);
    } else if FlushEnabled(s, l) {
      FlushKeepsAccounts(s, l);
    } else if IngressEnabled(s, l) {
      IngressKeepsAccounts(s, l);
    } else if QueueEnabled(s, l) {
      QueueKeepsAccounts(s, l);
    } else if TerminalEnabled(s, l) {
      TerminalKeepsAccounts(s, l);
    } else {
      ReceiveKeepsAccounts(s, l);
    }
  }

  lemma InitialAccounts()
    ensures Accounts(Initial())
  {
    assert OnNetwork(Initial().workers, false) == {} && OnNetwork(Initial().workers, true) == {};
  }

  lemma {:induction false} RunKeepsAccounts(s: State, labels: seq<Label>, t: State)
    requires Accounts(s) && Leads(s, labels, t)
    ensures Accounts(t)
    decreases |labels|
  {
    if labels != [] {
      StepKeepsAccounts(s, labels[0]);
      RunKeepsAccounts(After(s, labels[0]), labels[1..], t);
    }
  }
}
