/**
 The invariant of the library scheduler over all runs, and what follows from it.
 */
module LibrarySafety {
  import opened LibraryEntries
  import opened LibraryScheduler
  import opened LibraryAccounts
  import opened LibraryHandshake
  import opened LibraryDelivery

  // ---- terminal events ----

  ghost predicate Mentions(o: Output, job: nat)
  {
    (o.OutBatch? || o.OutTerminal?) && o.job == job
  }

  /** The terminal event tells what happened to the job's sources, and nothing is missing before it. */
  ghost predicate Truthful(t: Terminal, id: nat, h: History, delivered: seq<Accepted>, cancelled: bool)
  {
    match t
    case JobCancelled => cancelled
    case JobFinished(skipped, failures) =>
      && h.arrived == h.log && delivered == AcceptedOf(h.log)
      && |h.results| == |Admitted(id, h.request.sources)|
      && skipped == Skipped(h.results) && failures == h.request.unavailable + Failures(h.results)
      && (Successes(h.results) > 0 || failures == 0 || delivered != [])
    case JobFailed(kind) =>
      && h.arrived == h.log && delivered == [] && AcceptedOf(h.log) == []
      && |h.results| == |Admitted(id, h.request.sources)|
      && Successes(h.results) == 0 && h.request.unavailable + Failures(h.results) > 0
      && kind == Severity(h.results)
  }

  /** A terminal event is the last word on its job, and the scheduler has forgotten the job. */
  ghost predicate LastWord(s: State)
  {
    && (forall i :: 0 <= i < |s.output| && s.output[i].OutTerminal? ==> s.output[i].job !in s.jobs)
    && (forall i, j :: 0 <= i < j < |s.output| && s.output[i].OutTerminal? ==> !Mentions(s.output[j], s.output[i].job))
  }

  ghost predicate TruthfulAt(s: State, i: nat)
    requires i < |s.output| && s.output[i].OutTerminal? && s.output[i].job in s.history
  {
    var id := s.output[i].job;
    Truthful(s.output[i].terminal, id, s.history[id], Delivered(s.output, id), IsCancelled(s, id))
  }

  ghost predicate Terminals(s: State)
  {
    && OutputsKnown(s)
    && LastWord(s)
    && (forall i: nat :: i < |s.output| && s.output[i].OutTerminal? ==> TruthfulAt(s, i))
  }

  /** From `s` to `t` forgotten jobs stay as they are and no job comes back. */
  ghost predicate Frozen(s: State, t: State)
  {
    && s.cancelled <= t.cancelled
    && s.history.Keys <= t.history.Keys
    && (forall j :: j in s.history ==> t.history[j].request == s.history[j].request)
    && (forall j :: j in s.history && j !in s.jobs ==> t.history[j] == s.history[j])
    && (forall j :: j in t.jobs ==> j in s.jobs || j !in s.history)
  }

  lemma FrozenKeepsTerminals(s: State, t: State)
    requires Terminals(s) && Frozen(s, t) && t.output == s.output
    ensures Terminals(t)
  {
    forall i: nat | i < |t.output| && t.output[i].OutTerminal? ensures TruthfulAt(t, i) {
      assert TruthfulAt(s, i);
    }
  }

  lemma OutputKeepsTerminals(s: State, t: State, o: Output)
    requires Terminals(s) && t == s.(output := s.output + [o])
    requires o.OutBatch? ==> o.job in s.jobs && o.job in s.history
    requires !o.OutTerminal?
    ensures Terminals(t)
  {
    forall i: nat | i < |t.output| && t.output[i].OutTerminal? ensures TruthfulAt(t, i) {
      assert TruthfulAt(s, i);
      DeliveredSnoc(s.output, o, t.output[i].job);
    }
  }

  lemma FinalKeepsTerminals(s: State, t: State, id: nat, terminal: Terminal)
    requires Terminals(s) && id in s.jobs && id in s.history
    requires t == s.(output := s.output + [OutTerminal(id, terminal)], jobs := s.jobs - {id})
    requires Truthful(terminal, id, s.history[id], Delivered(s.output, id), IsCancelled(s, id))
    ensures Terminals(t)
  {
    var o := OutTerminal(id, terminal);
    forall i: nat | i < |t.output| && t.output[i].OutTerminal? ensures TruthfulAt(t, i) {
      DeliveredSnoc(s.output, o, t.output[i].job);
      if i < |s.output| {
        assert TruthfulAt(s, i);
      }
    }
  }

  // ---- a completed job ----

  /** No open source is left: nothing of the job is queued, running or undelivered. */
  lemma CompletedIsDelivered(s: State, id: nat)
    requires Accounts(s) && Handshake(s) && Content(s)
    requires id in s.jobs && s.jobs[id].remaining == 0 && !IsCancelled(s, id)
    ensures s.history[id].arrived == s.history[id].log
    ensures Delivered(s.output, id) == AcceptedOf(s.history[id].log)
  {
    var none := OfJob(Open(s), id);
    assert none == {};
    forall k | k in s.workers ensures k.job != id {
      assert k.job == id ==> k in none;
    }
    forall i | 0 <= i < |s.pending| ensures s.pending[i].key.job != id {
      var k := s.pending[i].key;
      assert k in PendingKeys(s.pending);
      assert Undelivered(s, k);
      assert Pinned(s, k);
    }
    NothingPending(s.pending, id);
    NothingInFlight(s.channel, id);
    assert Conserved(s, id);
  }

  lemma {:induction false} SeenEmpty(items: seq<Item>)
    ensures Paths(items) == {} <==> FirstOnly(items) == []
  {
    FirstOnlyPaths(items);
    if FirstOnly(items) != [] {
      assert FirstOnly(items)[0].entry.path in Paths(FirstOnly(items));
    }
  }

  lemma TerminalIsTruthful(s: State, id: nat)
    requires Accounts(s) && Handshake(s) && Content(s) && Ledger(s) && Merged(s)
    requires id in s.jobs && s.jobs[id].remaining == 0
    ensures Truthful(TerminalOf(s.jobs[id], IsCancelled(s, id)), id, s.history[id], Delivered(s.output, id),
            IsCancelled(s, id))
  {
    if !IsCancelled(s, id) {
      CompletedIsDelivered(s, id);
      assert s.history[id].dropped == 0;
      CountersTellTheTruth(s.jobs[id], s.history[id], id);
    }
  }

  lemma CountersTellTheTruth(job: Job, h: History, id: nat)
    requires LedgerOf(job, h, id) && MergedOf(job, h) && job.remaining == 0 && h.dropped == 0 && h.arrived == h.log
    ensures Truthful(TerminalOf(job, false), id, h, AcceptedOf(h.log), false)
  {
    SeenEmpty(Items(h.log));
  }

  // ---- terminals over the steps ----

  lemma WorkersJobs(s: State)
    requires Owned(s)
    ensures forall k :: k in s.workers ==> k.job in s.jobs
  {
    assert forall k :: k in s.workers ==> k in Open(s);
  }

  lemma WorldKeepsTerminals(s: State, l: Label)
    requires Terminals(s) && Owned(s) && WorldEnabled(s, l)
    ensures Terminals(World(s, l))
  {
    WorkersJobs(s);
    FrozenKeepsTerminals(s, World(s, l));
  }

  lemma FlushKeepsTerminals(s: State, l: Label)
    requires Terminals(s) && Owned(s) && PinnedOk(s) && FlushEnabled(s, l)
    ensures Terminals(Flush(s, l))
  {
    if l.FlushSent? {
      WorkersJobs(s);
      var k := s.pending[0].key;
      assert k in PendingKeys(s.pending);
      assert Undelivered(s, k);
      assert Pinned(s, k);
      var mid := s.(output := s.output + [OutBatch(k.job, s.pending[0].entries)]);
      OutputKeepsTerminals(s, mid, OutBatch(k.job, s.pending[0].entries));
      FrozenKeepsTerminals(mid, Flush(s, l));
    } else {
      FrozenKeepsTerminals(s, Flush(s, l));
    }
  }

  lemma IngressKeepsTerminals(s: State, l: Label)
    requires Terminals(s) && Owned(s) && IngressEnabled(s, l)
    ensures Terminals(IngressStep(s, l))
  {
    if l.TakeCancelled? && l.told {
      var mid := s.(output := s.output + [OutRefused]);
      OutputKeepsTerminals(s, mid, OutRefused);
      FrozenKeepsTerminals(mid, IngressStep(s, l));
    } else {
      FrozenKeepsTerminals(s, IngressStep(s, l));
    }
  }

  lemma QueueKeepsTerminals(s: State, l: Label)
    requires Terminals(s) && QueueEnabled(s, l)
    ensures Terminals(QueueStep(s, l))
  {
    FrozenKeepsTerminals(s, QueueStep(s, l));
  }

  lemma TerminalKeepsTerminals(s: State, l: Label)
    requires Terminals(s) && Accounts(s) && Handshake(s) && Content(s) && Ledger(s) && Merged(s)
             && TerminalEnabled(s, l)
    ensures Terminals(TerminalStep(s, l))
  {
    if l.TerminalSent? {
      var terminal := TerminalOf(s.jobs[l.id], IsCancelled(s, l.id));
      TerminalIsTruthful(s, l.id);
      var mid := s.(output := s.output + [OutTerminal(l.id, terminal)], jobs := s.jobs - {l.id});
      FinalKeepsTerminals(s, mid, l.id, terminal);
      FrozenKeepsTerminals(mid, TerminalStep(s, l));
    } else {
      FrozenKeepsTerminals(s, TerminalStep(s, l));
    }
  }

  lemma ReceiveKeepsTerminals(s: State, l: Label)
    requires Terminals(s) && Owned(s) && ReceiveEnabled(s, l)
    ensures Terminals(ReceiveStep(s, l))
  {
    hide Terminals, Fresh, Tagged, Paths, AfterResult, Numbered;
    if l.Receive? {
      match s.channel[0]
      case Batch(k, entries) => FrozenKeepsTerminals(s, ReceiveBatch(s, k, entries).(pc := Flushing));
      case Finished(k, outcome) => FrozenKeepsTerminals(s, ReceiveDone(s, k, outcome).(pc := Flushing));
    } else {
      FrozenKeepsTerminals(s, ReceiveStep(s, l));
    }
  }

  lemma StepKeepsTerminals(s: State, l: Label)
    requires Terminals(s) && Accounts(s) && Handshake(s) && Content(s) && Ledger(s) && Merged(s) && Enabled(s, l)
    ensures Terminals(After(s, l))
  {
    if WorldEnabled(s, l) {
      WorldKeepsTerminals(s, l);
    } else if FlushEnabled(s, l) {
      FlushKeepsTerminals(s, l);
    } else if IngressEnabled(s, l) {
      IngressKeepsTerminals(s, l);
    } else if QueueEnabled(s, l) {
      QueueKeepsTerminals(s, l);
    } else if TerminalEnabled(s, l) {
      TerminalKeepsTerminals(s, l);
    } else {
      ReceiveKeepsTerminals(s, l);
    }
  }

  // ---- shutdown ----

  /** Once input is closed (or the output gone) everything is cancelled and queues drain unstarted. */
  ghost predicate Closing(s: State)
  {
    !s.inputOpen ==>
      && s.pending == []
      && (forall j :: j in s.jobs ==> IsCancelled(s, j))
      && |s.queues| == 2
      && (s.pc.Retaining? ==> s.pc.at == 0 && s.pc.domain < 2 && (s.pc.domain == 1 ==> s.queues[0] == []))
      && (s.pc.Spawning? ==> s.pc.domain < 2 && s.queues[s.pc.domain] == [] && (s.pc.domain == 1 ==> s.queues[0] == []))
  }

  lemma ShutDownCloses(s: State)
    requires Owned(s) && !s.pc.Retaining? && !s.pc.Spawning?
    ensures Closing(ShutDown(s))
  {
    ShutDownCancels(s);
  }

  lemma WorldKeepsClosing(s: State, l: Label)
    requires Closing(s) && WorldEnabled(s, l)
    ensures Closing(World(s, l))
  {
    assert forall j: nat :: IsCancelled(s, j) ==> IsCancelled(World(s, l), j);
  }

  lemma FlushKeepsClosing(s: State, l: Label)
    requires Closing(s) && Owned(s) && FlushEnabled(s, l)
    ensures Closing(Flush(s, l))
  {
    if l.FlushGone? {
      ShutDownCloses(s);
      assert forall j: nat :: IsCancelled(ShutDown(s), j) ==> IsCancelled(Flush(s, l), j);
    } else {
      assert forall j: nat :: IsCancelled(s, j) ==> IsCancelled(Flush(s, l), j);
    }
  }

  lemma IngressKeepsClosing(s: State, l: Label)
    requires Closing(s) && Owned(s) && IngressEnabled(s, l)
    ensures Closing(IngressStep(s, l))
  {
    if l.IngressClosed? {
      ShutDownCloses(s);
      assert forall j: nat :: IsCancelled(ShutDown(s), j) ==> IsCancelled(IngressStep(s, l), j);
    } else if l.IngressDone? {
      assert forall j: nat :: IsCancelled(s, j) ==> IsCancelled(IngressStep(s, l), j);
    }
  }

  lemma QueuedAreCancelled(s: State)
    requires Closing(s) && Owned(s)
    ensures !s.inputOpen ==> forall d, i :: 0 <= d < 2 && 0 <= i < |s.queues[d]| ==>
                               IsCancelled(s, s.queues[d][i].key.job)
  {
    forall d, i | 0 <= d < 2 && 0 <= i < |s.queues[d]| ensures s.queues[d][i].key.job in s.jobs {
      assert s.queues[d][i].key in QueueKeys(s.queues[d]);
      assert s.queues[d][i].key in Open(s);
    }
  }

  lemma QueueKeepsClosing(s: State, l: Label)
    requires Closing(s) && Owned(s) && QueueEnabled(s, l)
    ensures Closing(QueueStep(s, l))
  {
    var t := QueueStep(s, l);
    assert forall j: nat :: IsCancelled(s, j) ==> IsCancelled(t, j);
    QueuedAreCancelled(s);
  }

  lemma TerminalKeepsClosing(s: State, l: Label)
    requires Closing(s) && Owned(s) && TerminalEnabled(s, l)
    ensures Closing(TerminalStep(s, l))
  {
    var t := TerminalStep(s, l);
    if l.TerminalGone? {
      ShutDownCloses(s);
      assert forall j: nat :: IsCancelled(ShutDown(s), j) ==> IsCancelled(t, j);
    } else {
      assert forall j: nat :: IsCancelled(s, j) ==> IsCancelled(t, j);
    }
  }

  lemma ReceiveKeepsClosing(s: State, l: Label)
    requires Closing(s) && Owned(s) && ReceiveEnabled(s, l)
    ensures Closing(ReceiveStep(s, l))
  {
    var t := ReceiveStep(s, l);
    assert forall j: nat :: IsCancelled(s, j) ==> IsCancelled(t, j);
  }

  lemma StepKeepsClosing(s: State, l: Label)
    requires Closing(s) && Owned(s) && Enabled(s, l)
    ensures Closing(After(s, l))
  {
    if WorldEnabled(s, l) {
      WorldKeepsClosing(s, l);
    } else if FlushEnabled(s, l) {
      FlushKeepsClosing(s, l);
    } else if IngressEnabled(s, l) {
      IngressKeepsClosing(s, l);
    } else if QueueEnabled(s, l) {
      QueueKeepsClosing(s, l);
    } else if TerminalEnabled(s, l) {
      TerminalKeepsClosing(s, l);
    } else {
      ReceiveKeepsClosing(s, l);
    }
  }

  // ---- the program counter stays inside the queues ----

  ghost predicate PcInside(s: State)
  {
    && |s.queues| == 2
    && (s.pc.Retaining? ==> s.pc.domain < 2 && s.pc.at <= |s.queues[s.pc.domain]|)
    && (s.pc.Spawning? ==> s.pc.domain < 2)
  }

  lemma WorldKeepsPc(s: State, l: Label)
    requires PcInside(s)
    ensures WorldEnabled(s, l) ==> PcInside(World(s, l))
    ensures FlushEnabled(s, l) ==> PcInside(Flush(s, l))
    ensures IngressEnabled(s, l) ==> PcInside(IngressStep(s, l))
  {
  }

  lemma TurnKeepsPc(s: State, l: Label)
    requires PcInside(s)
    ensures QueueEnabled(s, l) ==> PcInside(QueueStep(s, l))
    ensures TerminalEnabled(s, l) ==> PcInside(TerminalStep(s, l))
    ensures ReceiveEnabled(s, l) ==> PcInside(ReceiveStep(s, l))
  {
  }

  // ---- the invariant ----

  ghost predicate Inv(s: State)
  {
    Accounts(s) && Handshake(s) && Ledger(s) && Merged(s) && Content(s) && Terminals(s) && Closing(s) && PcInside(s)
  }

  lemma StepKeepsInv(s: State, l: Label)
    requires Inv(s) && Enabled(s, l)
    ensures Inv(After(s, l))
  {
    StepKeepsAccounts(s, l);
    StepKeepsHandshake(s, l);
    StepKeepsLedger(s, l);
    StepKeepsMerged(s, l);
    StepKeepsContent(s, l);
    StepKeepsTerminals(s, l);
    StepKeepsClosing(s, l);
    WorldKeepsPc(s, l);
    TurnKeepsPc(s, l);
  }

  lemma InitialInv()
    ensures Inv(Initial())
  {
    InitialAccounts();
    assert PendingKeys(Initial().pending) + Initial().workers.Keys == {};
  }

  lemma {:induction false} RunKeepsInv(s: State, labels: seq<Label>, t: State)
    requires Inv(s) && Leads(s, labels, t)
    ensures Inv(t)
    decreases |labels|
  {
    if labels != [] {
      StepKeepsInv(s, labels[0]);
      RunKeepsInv(After(s, labels[0]), labels[1..], t);
    }
  }
}
