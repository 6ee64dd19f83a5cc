/**
 What the library scheduler guarantees over every run from its start, stated per promise.
 */
module LibraryTheorems {
  import opened Prelude
  import opened LibraryEntries
  import opened LibraryScheduler
  import opened LibraryAccounts
  import opened LibraryHandshake
  import opened LibraryDelivery
  import opened LibrarySafety

  ghost predicate Reachable(s: State)
  {
    exists labels :: Leads(Initial(), labels, s)
  }

  lemma ReachableInv(s: State)
    requires Reachable(s)
    ensures Inv(s)
  {
    var labels :| Leads(Initial(), labels, s);
    InitialInv();
    RunKeepsInv(Initial(), labels, s);
  }

  /** An undelivered batch belongs to a live or a cancelled job. */
  lemma UndeliveredHasOwner(s: State, k: Key)
    requires Reachable(s) && Undelivered(s, k)
    ensures k.job in s.jobs || IsCancelled(s, k.job)
  {
    ReachableInv(s);
    assert Pinned(s, k);
    WorkersJobs(s);
  }

  lemma {:induction false} DistinctDeliveriesCount(pending: seq<Delivery>)
    requires DistinctDeliveries(pending)
    ensures |PendingKeys(pending)| == |pending|
    decreases |pending|
  {
    if pending != [] {
      PendingTail(pending);
      DistinctDeliveriesCount(pending[1..]);
      assert pending[0].key in PendingKeys(pending);
    }
  }

  /** `pending` holds at most one batch per source and never more than eight, whatever readers do. */
  lemma PendingStaysBounded(s: State)
    requires Reachable(s)
    ensures |s.pending| <= 8
    ensures forall i, j :: 0 <= i < j < |s.pending| ==> s.pending[i].key != s.pending[j].key
    ensures forall i, j :: 0 <= i < |s.pending| && 0 <= j < |s.channel| && s.channel[j].Batch? ==>
              s.pending[i].key != s.channel[j].key
  {
    ReachableInv(s);
    DistinctDeliveriesCount(s.pending);
    SubsetCount(PendingKeys(s.pending), PendingKeys(s.pending) + s.workers.Keys);
    forall i, j | 0 <= i < |s.pending| && 0 <= j < |s.channel| && s.channel[j].Batch?
      ensures s.pending[i].key != s.channel[j].key
    {
      assert s.pending[i].key in PendingKeys(s.pending);
      assert InChannel(s.channel, s.channel[j].key);
    }
  }

  /**
   Counters are exact: `remaining` is the number of the job's queued and running sources, `active`
   the number of running workers per domain, at most four, and every admitted source is succeeded,
   failed, dropped or remaining.
   */
  lemma CountersAreExact(s: State, j: nat)
    requires Reachable(s) && j in s.jobs
    ensures |s.queues| == 2 && |s.active| == 2 && j in s.history
    ensures s.jobs[j].remaining == |OfJob(Open(s), j)|
    ensures 0 <= s.active[0] == |OnNetwork(s.workers, false)| <= 4
    ensures 0 <= s.active[1] == |OnNetwork(s.workers, true)| <= 4
    ensures s.jobs[j].successes + (s.jobs[j].failures - s.jobs[j].request.unavailable)
            + s.history[j].dropped + s.jobs[j].remaining
         == |Admitted(j, s.jobs[j].request.sources)|
  {
    ReachableInv(s);
    ResultsSplit(s.history[j].results);
    assert LedgerOf(s.jobs[j], s.history[j], j);
  }

  lemma {:induction false} ResultsSplit(results: seq<Outcome>)
    ensures Successes(results) + Failures(results) == |results|
    decreases |results|
  {
    if results != [] {
      ResultsSplit(results[..|results| - 1]);
    }
  }

  lemma SourcePathsSnoc(init: seq<(nat, Path)>, last: (nat, Path))
    ensures SourcePaths(init + [last]) == SourcePaths(init) + {last.1}
  {
    var all := init + [last];
    forall p | p in SourcePaths(init) + {last.1} ensures p in SourcePaths(all) {
      if p in SourcePaths(init) {
        var i :| 0 <= i < |init| && init[i].1 == p;
        assert all[i].1 == p;
      } else {
        assert all[|init|].1 == p;
      }
    }
  }

  lemma OneMorePath(paths: set<Path>, p: Path)
    ensures |paths + {p}| == |paths| + if p in paths then 0 else 1
  {
    if p in paths {
      assert paths + {p} == paths;
    }
  }

  lemma AdmittedSnoc(job: nat, init: seq<(nat, Path)>, last: (nat, Path))
    ensures |Admitted(job, init + [last])| == |Admitted(job, init)| + if last.1 in SourcePaths(init) then 0 else 1
  {
    hide SourcePaths;
    assert (init + [last])[..|init|] == init;
  }

  /** As many sources are admitted as the request has distinct paths. */
  lemma {:induction false} AdmittedCountsPaths(job: nat, sources: seq<(nat, Path)>)
    ensures |Admitted(job, sources)| == |SourcePaths(sources)|
    decreases |sources|
  {
    if sources != [] {
      var init, last := sources[..|sources| - 1], sources[|sources| - 1];
      assert sources == init + [last];
      AdmittedCountsPaths(job, init);
      AdmittedSnoc(job, init, last);
      SourcePathsSnoc(init, last);
      hide SourcePaths, Admitted;
      OneMorePath(SourcePaths(init), last.1);
    } else {
      assert SourcePaths(sources) == {};
    }
  }

  /** Whenever the loop drops a queued source, its job is live and its `remaining` positive. */
  lemma DropNeverUnderflows(s: State, d: nat, i: nat)
    requires Reachable(s) && d < 2 && |s.queues| == 2 && i < |s.queues[d]|
    ensures s.queues[d][i].key.job in s.jobs && s.jobs[s.queues[d][i].key.job].remaining > 0
  {
    assert Accounts(s) by { ReachableInv(s); }
    assert s.queues[d][i].key in QueueKeys(s.queues[d]);
    OpenCounts(s, s.queues[d][i].key);
  }

  /** Whenever a final event arrives, its worker is known and both counters it lowers are positive. */
  lemma DoneNeverUnderflows(s: State, i: nat)
    requires Reachable(s) && i < |s.channel| && s.channel[i].Finished?
    ensures var k := s.channel[i].key;
            && k in s.workers && |s.active| == 2
            && s.active[if s.workers[k].network then 1 else 0] > 0
            && k.job in s.jobs && s.jobs[k.job].remaining > 0
  {
    var k := s.channel[i].key;
    assert Accounts(s) && k in s.workers by { ReachableInv(s); }
    OpenCounts(s, k);
    assert k in OnNetwork(s.workers, s.workers[k].network);
  }

  lemma OpenCounts(s: State, k: Key)
    requires Accounts(s) && k in Open(s)
    ensures k.job in s.jobs && s.jobs[k.job].remaining > 0
  {
    assert k in OfJob(Open(s), k.job);
  }

  /** After a job's terminal event the output mentions the job no more; so there is at most one. */
  lemma TerminalIsLast(s: State, i: nat, j: nat)
    requires Reachable(s) && i < j < |s.output| && s.output[i].OutTerminal?
    ensures !Mentions(s.output[j], s.output[i].job)
    ensures s.output[i].job !in s.jobs
  {
    ReachableInv(s);
  }

  /**
   A `Finished` or `Failed` event is sent only after every batch any source of the job ever sent has
   been merged and delivered, and after every admitted source reported; its counts and its error are
   those of the reports. `Cancelled` is sent only for cancelled jobs.
   */
  lemma TerminalTellsTheTruth(s: State, i: nat)
    requires Reachable(s) && i < |s.output| && s.output[i].OutTerminal?
    ensures s.output[i].job in s.history
    ensures var id := s.output[i].job;
            Truthful(s.output[i].terminal, id, s.history[id], Delivered(s.output, id), IsCancelled(s, id))
  {
    ReachableInv(s);
    assert TruthfulAt(s, i);
  }

  /**
   What the output holds of a job is a prefix of the de-duplicated, consecutively numbered list of
   everything its sources sent, in sending order.
   */
  lemma DeliveredIsPrefix(s: State, j: nat)
    requires Reachable(s) && j in s.history
    ensures Delivered(s.output, j) <= AcceptedOf(s.history[j].log)
    ensures forall i :: 0 <= i < |Delivered(s.output, j)| ==> Delivered(s.output, j)[i].id == i + 1
  {
    assert Conserved(s, j) by { ReachableInv(s); }
    var h := s.history[j];
    assert h.log == h.arrived + h.log[|h.arrived|..];
    AcceptedPrefix(h.arrived, h.log[|h.arrived|..]);
  }

  lemma RetainNeverStuck(s: State, d: nat, i: nat) returns (l: Label)
    requires Accounts(s) && PcInside(s) && s.pc == Retaining(d, i)
    ensures QueueEnabled(s, l)
  {
    hide Counted, Slots, OnNetwork, DistinctKeys;
    l := RetainDone;
    if i < |s.queues[d]| {
      assert s.queues[d][i].key in QueueKeys(s.queues[d]);
      assert s.queues[d][i].key in Open(s);
      l := if IsCancelled(s, s.queues[d][i].key.job) then Drop else Keep;
    }
  }

  lemma SpawnNeverStuck(s: State, d: nat) returns (l: Label)
    requires Accounts(s) && PcInside(s) && s.pc == Spawning(d)
    ensures QueueEnabled(s, l)
  {
    hide Counted, Owned, OnNetwork, DistinctKeys, Open;
    l := if s.pending == [] && s.active[d] < SOURCE_SLOTS && s.queues[d] != [] then Spawn else SpawnDone;
  }

  lemma CompletingNeverStuck(s: State, ids: set<nat>) returns (l: Label)
    requires Accounts(s) && s.pc == Completing(ids)
    ensures TerminalEnabled(s, l)
  {
    hide Apart, Owned, Slots, CountsMatch;
    l := TerminalsDone;
    if ids != {} {
      var id :| id in ids;
      l := TerminalFull(id);
    }
  }

  lemma OwnLabels(s: State, l: Label)
    requires FlushEnabled(s, l) || IngressEnabled(s, l) || QueueEnabled(s, l) || TerminalEnabled(s, l)
             || ReceiveEnabled(s, l)
    ensures !WorldEnabled(s, l)
  {
  }

  /**
   The loop never gets stuck: until it stopped, one of its own actions is possible, whatever the
   workers and the output do. (Running out of 32-bit entry numbers only blocks `Receive`.)
   */
  lemma LoopNeverStuck(s: State) returns (l: Label)
    requires Reachable(s) && s.pc != Stopped
    ensures Enabled(s, l) && !WorldEnabled(s, l)
  {
    hide Accounts, PcInside, Inv, Reachable, WorldEnabled, QueueEnabled;
    assert Accounts(s) && PcInside(s) by { InvParts(s); }
    match s.pc {
      case Flushing =>
        l := if s.pending == [] then FlushEmpty else if IsCancelled(s, s.pending[0].key.job) then FlushSkip
          else FlushFull;
      case Ingress(_) =>
        l := IngressDone;
      case Retaining(d, i) =>
        l := RetainNeverStuck(s, d, i);
      case Spawning(d) =>
        l := SpawnNeverStuck(s, d);
      case Completing(ids) =>
        l := CompletingNeverStuck(s, ids);
      case Checking =>
        l := if !s.inputOpen && s.jobs == map[] && s.pending == [] then Stop else Continue;
      case Receiving =>
        l := Timeout;
    }
    OwnLabels(s, l);
  }

  lemma InvParts(s: State)
    requires Reachable(s)
    ensures Accounts(s) && PcInside(s)
  {
    hide Reachable;
    ReachableInv(s);
  }
}
