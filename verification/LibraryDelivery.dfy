/**
 What a library job delivers: its batches merge into the de-duplicated list, the output receives a
 prefix of that list, and the terminal event says truthfully how the sources fared.
 */
module LibraryDelivery {
  import opened LibraryEntries
  import opened LibraryScheduler
  import opened LibraryAccounts
  import opened LibraryHandshake

  // ---- what the output, `pending` and the channel hold for one job ----

  function Delivered(output: seq<Output>, job: nat): seq<Accepted>
  {
    if output == [] then []
    else
      var last := output[|output| - 1];
      Delivered(output[..|output| - 1], job) + if last.OutBatch? && last.job == job then last.entries else []
  }

  function PendingOf(pending: seq<Delivery>, job: nat): seq<Accepted>
  {
    if pending == [] then []
    else (if pending[0].key.job == job then pending[0].entries else []) + PendingOf(pending[1..], job)
  }

  function InFlight(channel: seq<SourceEvent>, job: nat): seq<Handed>
  {
    if channel == [] then []
    else
      (if channel[0].Batch? && channel[0].key.job == job then [Handed(channel[0].key.index, channel[0].entries)]
        else [])
      + InFlight(channel[1..], job)
  }

  // ---- reference meaning of the counters ----

  function Successes(results: seq<Outcome>): nat
  {
    if results == [] then 0 else Successes(results[..|results| - 1]) + if results[|results| - 1].Done? then 1 else 0
  }

  function Failures(results: seq<Outcome>): nat
  {
    if results == [] then 0 else Failures(results[..|results| - 1]) + if results[|results| - 1].Failed? then 1 else 0
  }

  function Skipped(results: seq<Outcome>): nat
  {
    if results == [] then 0
    else Skipped(results[..|results| - 1]) + if results[|results| - 1].Done? then results[|results| - 1].skipped else 0
  }

  /** A permission problem outranks any other failure, which outranks a missing source. */
  function Severity(results: seq<Outcome>): ErrorKind
  {
    if Failed(PermissionDenied) in results then PermissionDenied
    else if Failed(Other) in results then Other
    else NotFound
  }

  ghost predicate LedgerOf(job: Job, h: History, id: nat)
  {
    && job.successes == Successes(h.results)
    && job.failures == h.request.unavailable + Failures(h.results)
    && job.skipped == Skipped(h.results)
    && job.error == Severity(h.results)
    && |h.results| + h.dropped + job.remaining == |Admitted(id, h.request.sources)|
  }

  ghost predicate Ledger(s: State)
  {
    && (forall j :: j in s.jobs ==> j in s.history && LedgerOf(s.jobs[j], s.history[j], j))
    && (forall j :: j in s.history && !IsCancelled(s, j) ==> s.history[j].dropped == 0)
  }

  ghost predicate MergedOf(job: Job, h: History)
  {
    && job.seen == Paths(Items(h.arrived))
    && job.nextId == |AcceptedOf(h.arrived)| + 1
    && job.nextId <= MAX_ENTRY_ID
  }

  ghost predicate Merged(s: State)
  {
    forall j :: j in s.jobs ==> j in s.history && MergedOf(s.jobs[j], s.history[j])
  }

  /** Nothing is lost, invented or reordered between the workers and the output. */
  ghost predicate Conserved(s: State, j: nat)
    requires j in s.history
  {
    && Delivered(s.output, j) <= AcceptedOf(s.history[j].arrived)
    && s.history[j].arrived <= s.history[j].log
    && (!IsCancelled(s, j) ==>
          && Delivered(s.output, j) + PendingOf(s.pending, j) == AcceptedOf(s.history[j].arrived)
          && s.history[j].arrived + InFlight(s.channel, j) == s.history[j].log)
  }

  ghost predicate Content(s: State)
  {
    forall j :: j in s.history ==> Conserved(s, j)
  }

  // ---- list lemmas ----

  lemma DeliveredSnoc(output: seq<Output>, o: Output, job: nat)
    ensures Delivered(output + [o], job) == Delivered(output, job) + if o.OutBatch? && o.job == job then o.entries
            else []
  {
    assert (output + [o])[..|output|] == output;
  }

  lemma {:induction false} PendingOfSnoc(pending: seq<Delivery>, d: Delivery, job: nat)
    ensures PendingOf(pending + [d], job) == PendingOf(pending, job) + if d.key.job == job then d.entries else []
    decreases |pending|
  {
    if pending == [] {
      assert pending + [d] == [d];
    } else {
      PendingOfSnoc(pending[1..], d, job);
      assert (pending + [d])[1..] == pending[1..] + [d];
    }
  }

  lemma {:induction false} InFlightSnoc(channel: seq<SourceEvent>, e: SourceEvent, job: nat)
    ensures InFlight(channel + [e], job)
         == InFlight(channel, job) + if e.Batch? && e.key.job == job then [Handed(e.key.index, e.entries)] else []
    decreases |channel|
  {
    if channel == [] {
      assert channel + [e] == [e];
    } else {
      InFlightSnoc(channel[1..], e, job);
      assert (channel + [e])[1..] == channel[1..] + [e];
    }
  }

  lemma {:induction false} NothingPending(pending: seq<Delivery>, job: nat)
    requires forall i :: 0 <= i < |pending| ==> pending[i].key.job != job
    ensures PendingOf(pending, job) == []
    decreases |pending|
  {
    if pending != [] {
      NothingPending(pending[1..], job);
    }
  }

  lemma {:induction false} NothingInFlight(channel: seq<SourceEvent>, job: nat)
    requires forall i :: 0 <= i < |channel| ==> channel[i].key.job != job
    ensures InFlight(channel, job) == []
    decreases |channel|
  {
    if channel != [] {
      NothingInFlight(channel[1..], job);
    }
  }

  /** A forgotten job that was never cancelled has nothing under way. */
  lemma NothingUnderWay(s: State, j: nat)
    requires Owned(s) && ChannelOk(s) && PinnedOk(s) && j in s.history && j !in s.jobs && !IsCancelled(s, j)
    ensures PendingOf(s.pending, j) == [] && InFlight(s.channel, j) == []
  {
    forall k | k in s.workers ensures k.job != j {
      assert k in Open(s);
    }
    forall i | 0 <= i < |s.pending| ensures s.pending[i].key.job != j {
      var k := s.pending[i].key;
      assert k in PendingKeys(s.pending);
      assert Undelivered(s, k);
    }
    NothingPending(s.pending, j);
    NothingInFlight(s.channel, j);
  }

  // ---- severity ----

  lemma SeveritySnoc(results: seq<Outcome>, o: Outcome)
    ensures Severity(results + [o]) == if o.Failed? then MergeError(Severity(results), o.kind) else Severity(results)
  {
    var all := results + [o];
    assert forall x :: x in all <==> x in results || x == o;
  }

  lemma AfterResultLedger(job: Job, h: History, id: nat, o: Outcome)
    requires LedgerOf(job, h, id)
    ensures LedgerOf(AfterResult(job, o), h.(results := h.results + [o]), id)
  {
    SeveritySnoc(h.results, o);
    assert (h.results + [o])[..|h.results|] == h.results;
  }

  // ---- ledger over the steps ----

  ghost predicate SameTally(a: Job, b: Job)
  {
    && a.successes == b.successes && a.failures == b.failures && a.skipped == b.skipped && a.error == b.error
    && a.remaining == b.remaining
  }

  ghost predicate SameFate(a: History, b: History)
  {
    a.results == b.results && a.dropped == b.dropped && a.request == b.request
  }

  /** Steps that touch neither counters, results nor drops. */
  lemma SameLedger(s: State, t: State)
    requires Ledger(s) && s.cancelled <= t.cancelled && s.history.Keys == t.history.Keys
    requires forall j :: j in t.jobs ==> j in s.jobs && SameTally(s.jobs[j], t.jobs[j])
    requires forall j :: j in s.history ==> SameFate(s.history[j], t.history[j])
    ensures Ledger(t)
  {
    assert forall j :: j in t.history && !IsCancelled(t, j) ==>
             !IsCancelled(s, j) && SameFate(s.history[j], t.history[j]);
    forall j | j in t.jobs ensures j in t.history && LedgerOf(t.jobs[j], t.history[j], j) {
      assert SameFate(s.history[j], t.history[j]);
      assert LedgerOf(s.jobs[j], s.history[j], j);
    }
  }

  lemma DropKeepsLedger(s: State)
    requires Ledger(s) && QueueEnabled(s, Drop)
    ensures Ledger(QueueStep(s, Drop))
  {
    var t := QueueStep(s, Drop);
    assert forall j: nat :: IsCancelled(s, j) == IsCancelled(t, j);
  }

  lemma TakeKeepsLedger(s: State, r: Request)
    requires Ledger(s) && Owned(s)
    ensures Ledger(TakeRequest(s, r))
  {
    var t := TakeRequest(s, r);
    assert forall j :: j in s.history ==> IsCancelled(s, j) == IsCancelled(t, j);
  }

  lemma DoneKeepsLedger(s: State, k: Key, outcome: Outcome)
    requires Ledger(s) && |s.active| == 2 && s.channel != [] && k in s.workers
    ensures Ledger(ReceiveDone(s, k, outcome))
  {
    var t := ReceiveDone(s, k, outcome);
    if k.job in s.jobs {
      AfterResultLedger(s.jobs[k.job], s.history[k.job], k.job, outcome);
    }
    assert forall j: nat :: IsCancelled(s, j) == IsCancelled(t, j);
  }

  lemma BatchKeepsLedger(s: State, k: Key, entries: seq<Entry>)
    requires Ledger(s) && s.channel != []
    ensures Ledger(ReceiveBatch(s, k, entries))
  {
    if Merges(s, k) {
      MergingKeepsLedger(s, k, entries);
    } else {
      SameLedger(s, ReceiveBatch(s, k, entries));
    }
  }

  lemma MergingKeepsLedger(s: State, k: Key, entries: seq<Entry>)
    requires Ledger(s) && s.channel != [] && Merges(s, k)
    ensures Ledger(ReceiveBatch(s, k, entries))
  {
    hide LedgerOf, Fresh, Tagged, Paths;
    var t := ReceiveBatch(s, k, entries);
    assert forall j :: j in s.jobs ==> SameTally(s.jobs[j], t.jobs[j]);
    assert t.history.Keys == s.history.Keys;
    SameLedger(s, t);
  }

  lemma ReceiveKeepsLedger(s: State, l: Label)
    requires Ledger(s) && ReceiveEnabled(s, l)
    ensures Ledger(ReceiveStep(s, l))
  {
    if l.Receive? {
      match s.channel[0]
      case Batch(k, entries) =>
        BatchKeepsLedger(s, k, entries);
        SameLedger(ReceiveBatch(s, k, entries), ReceiveBatch(s, k, entries).(pc := Flushing));
      case Finished(k, outcome) =>
        DoneKeepsLedger(s, k, outcome);
        SameLedger(ReceiveDone(s, k, outcome), ReceiveDone(s, k, outcome).(pc := Flushing));
    } else {
      SameLedger(s, ReceiveStep(s, l));
    }
  }

  lemma WorldKeepsLedger(s: State, l: Label)
    requires Ledger(s) && WorldEnabled(s, l)
    ensures Ledger(World(s, l))
  {
    SameLedger(s, World(s, l));
  }

  lemma LoopKeepsLedger(s: State, l: Label)
    requires Ledger(s) && Owned(s)
    requires FlushEnabled(s, l) || IngressEnabled(s, l)
    ensures FlushEnabled(s, l) ==> Ledger(Flush(s, l))
    ensures IngressEnabled(s, l) ==> Ledger(IngressStep(s, l))
  {
    if FlushEnabled(s, l) {
      SameLedger(s, Flush(s, l));
    } else if l.Take? {
      TakeKeepsLedger(s, l.request);
      SameLedger(TakeRequest(s, l.request), IngressStep(s, l));
    } else {
      SameLedger(s, IngressStep(s, l));
    }
  }

  lemma TurnKeepsLedger(s: State, l: Label)
    requires Ledger(s)
    requires QueueEnabled(s, l) || TerminalEnabled(s, l)
    ensures QueueEnabled(s, l) ==> Ledger(QueueStep(s, l))
    ensures TerminalEnabled(s, l) ==> Ledger(TerminalStep(s, l))
  {
    if l.Drop? {
      DropKeepsLedger(s);
    } else if QueueEnabled(s, l) {
      SameLedger(s, QueueStep(s, l));
    } else {
      SameLedger(s, TerminalStep(s, l));
    }
  }

  lemma StepKeepsLedger(s: State, l: Label)
    requires Ledger(s) && Owned(s) && Enabled(s, l)
    ensures Ledger(After(s, l))
  {
    if WorldEnabled(s, l) {
      WorldKeepsLedger(s, l);
    } else if FlushEnabled(s, l) || IngressEnabled(s, l) {
      LoopKeepsLedger(s, l);
    } else if QueueEnabled(s, l) || TerminalEnabled(s, l) {
      TurnKeepsLedger(s, l);
    } else {
      ReceiveKeepsLedger(s, l);
    }
  }

  // ---- merging over the steps ----

  lemma SameMerged(s: State, t: State)
    requires Merged(s) && s.history.Keys <= t.history.Keys
    requires forall j :: j in t.jobs ==>
               j in s.jobs && s.jobs[j].seen == t.jobs[j].seen && s.jobs[j].nextId == t.jobs[j].nextId
    requires forall j :: j in s.history ==> t.history[j].arrived == s.history[j].arrived
    ensures Merged(t)
  {
  }

  lemma BatchKeepsMerged(s: State, k: Key, entries: seq<Entry>)
    requires Merged(s) && s.channel != [] && (Merges(s, k) ==> Fits(s.jobs[k.job], k.index, entries))
    ensures Merged(ReceiveBatch(s, k, entries))
  {
    if Merges(s, k) {
      AcceptedExtends(s.history[k.job].arrived, Handed(k.index, entries));
    }
  }

  lemma TakeKeepsMerged(s: State, r: Request)
    requires Merged(s) && Owned(s)
    ensures Merged(TakeRequest(s, r))
  {
    assert Items([]) == [] && FirstOnly([]) == [];
    assert Paths([]) == {};
  }

  lemma ReceiveKeepsMerged(s: State, l: Label)
    requires Merged(s) && ReceiveEnabled(s, l)
    ensures Merged(ReceiveStep(s, l))
  {
    hide MergedOf, Fresh;
    if l.Receive? {
      match s.channel[0]
      case Batch(k, entries) =>
        BatchKeepsMerged(s, k, entries);
        SameMerged(ReceiveBatch(s, k, entries), ReceiveBatch(s, k, entries).(pc := Flushing));
      case Finished(k, outcome) =>
        SameMerged(s, ReceiveDone(s, k, outcome).(pc := Flushing));
    } else {
      SameMerged(s, ReceiveStep(s, l));
    }
  }

  lemma LoopKeepsMerged(s: State, l: Label)
    requires Merged(s) && Owned(s)
    requires FlushEnabled(s, l) || IngressEnabled(s, l)
    ensures FlushEnabled(s, l) ==> Merged(Flush(s, l))
    ensures IngressEnabled(s, l) ==> Merged(IngressStep(s, l))
  {
    if FlushEnabled(s, l) {
      SameMerged(s, Flush(s, l));
    } else if l.Take? {
      TakeKeepsMerged(s, l.request);
      SameMerged(TakeRequest(s, l.request), IngressStep(s, l));
    } else {
      SameMerged(s, IngressStep(s, l));
    }
  }

  lemma QuietKeepsMerged(s: State, l: Label)
    requires Merged(s)
    ensures WorldEnabled(s, l) ==> Merged(World(s, l))
    ensures TerminalEnabled(s, l) ==> Merged(TerminalStep(s, l))
  {
    if WorldEnabled(s, l) {
      SameMerged(s, World(s, l));
    }
    if TerminalEnabled(s, l) {
      SameMerged(s, TerminalStep(s, l));
    }
  }

  lemma QueueKeepsMerged(s: State, l: Label)
    requires Merged(s) && QueueEnabled(s, l)
    ensures Merged(QueueStep(s, l))
  {
    SameMerged(s, QueueStep(s, l));
  }

  lemma StepKeepsMerged(s: State, l: Label)
    requires Merged(s) && Owned(s) && Enabled(s, l)
    ensures Merged(After(s, l))
  {
    if WorldEnabled(s, l) || TerminalEnabled(s, l) {
      QuietKeepsMerged(s, l);
    } else if FlushEnabled(s, l) || IngressEnabled(s, l) {
      LoopKeepsMerged(s, l);
    } else if QueueEnabled(s, l) {
      QueueKeepsMerged(s, l);
    } else {
      ReceiveKeepsMerged(s, l);
    }
  }

  // ---- content over the steps ----

  /** Steps that move no entries; flags may be raised, `pending` of cancelled jobs may shrink. */
  lemma SameContent(s: State, t: State)
    requires Content(s) && s.cancelled <= t.cancelled && SameTokens(s, t)
    requires t.output == s.output && t.channel == s.channel && t.pending == s.pending
    requires forall j :: j in s.history ==>
               t.history[j].arrived == s.history[j].arrived && t.history[j].log == s.history[j].log
    ensures Content(t)
  {
    forall j | j in t.history ensures Conserved(t, j) {
      assert Conserved(s, j);
    }
  }

  lemma SendKeepsContent(s: State, k: Key)
    requires Content(s) && WorldEnabled(s, Send(k))
    ensures Content(World(s, Send(k)))
  {
    var t := World(s, Send(k));
    forall j | j in t.history ensures Conserved(t, j) {
      assert Conserved(s, j);
      InFlightSnoc(s.channel, Batch(k, s.workers[k].phase.entries), j);
    }
  }

  lemma FinishKeepsContent(s: State, k: Key, outcome: Outcome)
    requires Content(s) && WorldEnabled(s, Finish(k, outcome))
    ensures Content(World(s, Finish(k, outcome)))
  {
    var t := World(s, Finish(k, outcome));
    forall j | j in t.history ensures Conserved(t, j) {
      assert Conserved(s, j);
      InFlightSnoc(s.channel, Finished(k, outcome), j);
    }
  }

  lemma SkipKeepsContent(s: State)
    requires Content(s) && FlushEnabled(s, FlushSkip)
    ensures Content(Flush(s, FlushSkip))
  {
    hide Delivered, AcceptedOf, InFlight;
    var t := Flush(s, FlushSkip);
    forall j | j in t.history ensures Conserved(t, j) {
      assert Conserved(s, j);
    }
  }

  lemma SentKeepsContent(s: State)
    requires Content(s) && FlushEnabled(s, FlushSent)
    ensures Content(Flush(s, FlushSent))
  {
    hide Delivered, AcceptedOf, InFlight;
    var t := Flush(s, FlushSent);
    var d := s.pending[0];
    forall j | j in t.history ensures Conserved(t, j) {
      assert Conserved(s, j);
      DeliveredSnoc(s.output, OutBatch(d.key.job, d.entries), j);
      if d.key.job == j {
        assert PendingOf(s.pending, j) == d.entries + PendingOf(s.pending[1..], j);
        assert Delivered(t.output, j) + PendingOf(t.pending, j) == Delivered(s.output, j) + PendingOf(s.pending, j);
      }
    }
  }

  lemma ShutDownCancels(s: State)
    requires Owned(s)
    ensures forall j :: j in s.jobs ==> IsCancelled(ShutDown(s), j)
  {
    forall j | j in s.jobs ensures IsCancelled(ShutDown(s), j) {
      assert s.jobs[j].request.token in Tokens(s.jobs);
    }
  }

  lemma ShutDownKeepsContent(s: State)
    requires Content(s) && Owned(s) && ChannelOk(s) && PinnedOk(s)
    ensures Content(ShutDown(s))
  {
    var t := ShutDown(s);
    ShutDownCancels(s);
    forall j | j in t.history ensures Conserved(t, j) {
      assert Conserved(s, j);
      if !IsCancelled(t, j) {
        NothingUnderWay(s, j);
      }
    }
  }

  lemma OtherOutputKeepsContent(s: State, t: State, o: Output)
    requires Content(s) && t == s.(output := s.output + [o]) && !o.OutBatch?
    ensures Content(t)
  {
    forall j | j in t.history ensures Conserved(t, j) {
      assert Conserved(s, j);
      DeliveredSnoc(s.output, o, j);
    }
  }

  lemma {:induction false} NothingDelivered(output: seq<Output>, job: nat)
    requires forall i :: 0 <= i < |output| && output[i].OutBatch? ==> output[i].job != job
    ensures Delivered(output, job) == []
    decreases |output|
  {
    if output != [] {
      NothingDelivered(output[..|output| - 1], job);
    }
  }

  /** Outputs only ever mention accepted jobs. */
  ghost predicate OutputsKnown(s: State)
  {
    forall i :: 0 <= i < |s.output| && (s.output[i].OutBatch? || s.output[i].OutTerminal?) ==>
      s.output[i].job in s.history
  }

  lemma TakeKeepsContent(s: State, r: Request)
    requires Content(s) && Owned(s) && OutputsKnown(s) && ChannelOk(s) && PendingOk(s)
    ensures Content(TakeRequest(s, r))
  {
    var t := TakeRequest(s, r);
    var job := s.nextJob + 1;
    forall k | k in s.workers ensures k.job in s.history {
      assert k in Open(s);
    }
    NothingDelivered(s.output, job);
    NothingPending(s.pending, job);
    NothingInFlight(s.channel, job);
    assert AcceptedOf([]) == [] by { assert Items([]) == [] && FirstOnly([]) == []; }
    forall j | j in t.history ensures Conserved(t, j) {
      if j != job {
        assert Conserved(s, j);
      }
    }
  }

  lemma BatchEffectOnContent(s: State, k: Key, entries: seq<Entry>)
    requires s.channel != []
    ensures var t := ReceiveBatch(s, k, entries);
            && t.output == s.output && t.channel == s.channel[1..] && t.cancelled == s.cancelled && SameTokens(s, t)
            && (forall j :: j in s.history && j != k.job ==> t.history[j] == s.history[j])
            && (forall j :: j in s.history ==> t.history[j].log == s.history[j].log)
            && (!Merges(s, k) ==> t.history == s.history && t.pending == s.pending)
  {
    hide Fresh, Tagged, Paths, Numbered;
  }

  /** A batch of another job, or of a cancelled one, moves nothing for `j`. */
  lemma OtherBatchConserved(s: State, t: State, k: Key, j: nat)
    requires j in s.history && j in t.history && Conserved(s, j) && s.channel != [] && s.channel[0].Batch?
             && s.channel[0].key == k
    requires t.output == s.output && t.channel == s.channel[1..] && t.cancelled == s.cancelled
             && t.history[j] == s.history[j]
    requires IsCancelled(s, j) || (j != k.job && PendingOf(t.pending, j) == PendingOf(s.pending, j))
    ensures Conserved(t, j)
  {
    hide Delivered, AcceptedOf, PendingOf;
  }

  lemma OwnBatchEffect(s: State, k: Key, entries: seq<Entry>)
    requires s.channel != [] && Merges(s, k)
    ensures var t := ReceiveBatch(s, k, entries);
            var more := Numbered(s.jobs[k.job].nextId, Fresh(s.jobs[k.job].seen, Tagged(k.index, entries)));
            && t.history[k.job].arrived == s.history[k.job].arrived + [Handed(k.index, entries)]
            && PendingOf(t.pending, k.job) == PendingOf(s.pending, k.job) + more
  {
    var more := Numbered(s.jobs[k.job].nextId, Fresh(s.jobs[k.job].seen, Tagged(k.index, entries)));
    PendingOfSnoc(s.pending, Delivery(k, more), k.job);
  }

  lemma OwnBatchConserved(s: State, k: Key, entries: seq<Entry>)
    requires Content(s) && Merged(s) && s.channel != [] && s.channel[0] == Batch(k, entries) && Merges(s, k)
    ensures Conserved(ReceiveBatch(s, k, entries), k.job)
  {
    hide ReceiveBatch, Fresh, Items, Delivered, PendingOf;
    var j := k.job;
    var h := Handed(k.index, entries);
    var more := Numbered(s.jobs[j].nextId, Fresh(s.jobs[j].seen, Tagged(k.index, entries)));
    assert Conserved(s, j);
    assert AcceptedOf(s.history[j].arrived + [h]) == AcceptedOf(s.history[j].arrived) + more by {
      assert MergedOf(s.jobs[j], s.history[j]);
      AcceptedExtends(s.history[j].arrived, h);
    }
    assert (s.history[j].arrived + [h]) + InFlight(s.channel[1..], j) == s.history[j].log by {
      assert InFlight(s.channel, j) == [h] + InFlight(s.channel[1..], j);
      assert s.history[j].arrived + ([h] + InFlight(s.channel[1..], j))
        == (s.history[j].arrived + [h]) + InFlight(s.channel[1..], j);
    }
    OwnBatchEffect(s, k, entries);
    BatchEffectOnContent(s, k, entries);
    BatchConservedSame(s, ReceiveBatch(s, k, entries), j, h, more);
  }

  lemma BatchConserved(s: State, k: Key, entries: seq<Entry>, j: nat)
    requires Content(s) && Merged(s) && s.channel != [] && s.channel[0] == Batch(k, entries)
    requires k.job in s.jobs || IsCancelled(s, k.job)
    requires j in s.history
    ensures Conserved(ReceiveBatch(s, k, entries), j)
  {
    assert Conserved(s, j);
    BatchEffectOnContent(s, k, entries);
    if Merges(s, k) {
      if j == k.job {
        OwnBatchConserved(s, k, entries);
      } else {
        PendingOfSnoc(s.pending,
          Delivery(k, Numbered(s.jobs[k.job].nextId, Fresh(s.jobs[k.job].seen, Tagged(k.index, entries)))), j);
        OtherBatchConserved(s, ReceiveBatch(s, k, entries), k, j);
      }
    } else {
      OtherBatchConserved(s, ReceiveBatch(s, k, entries), k, j);
    }
  }

  lemma BatchConservedSame(s: State, t: State, j: nat, h: Handed, fresh': seq<Accepted>)
    requires j in s.history && j in t.history && !IsCancelled(s, j) && Conserved(s, j)
    requires t.output == s.output && t.history[j].log == s.history[j].log
    requires t.history[j].arrived == s.history[j].arrived + [h]
    requires AcceptedOf(t.history[j].arrived) == AcceptedOf(s.history[j].arrived) + fresh'
    requires PendingOf(t.pending, j) == PendingOf(s.pending, j) + fresh'
    requires t.history[j].arrived + InFlight(t.channel, j) == s.history[j].log
    ensures Conserved(t, j)
  {
    assert Delivered(s.output, j) + PendingOf(t.pending, j)
        == (Delivered(s.output, j) + PendingOf(s.pending, j)) + fresh';
  }

  lemma BatchKeepsContent(s: State, k: Key, entries: seq<Entry>)
    requires Content(s) && Merged(s) && s.channel != [] && s.channel[0] == Batch(k, entries)
    requires k.job in s.jobs || IsCancelled(s, k.job)
    ensures Content(ReceiveBatch(s, k, entries))
  {
    hide Conserved, Merged, AcceptedOf, InFlight, Delivered, PendingOf, Fresh;
    forall j | j in s.history ensures Conserved(ReceiveBatch(s, k, entries), j) {
      BatchConserved(s, k, entries, j);
    }
  }

  lemma DoneTailKeepsContent(s: State)
    requires Content(s) && s.channel != [] && s.channel[0].Finished?
    ensures Content(s.(channel := s.channel[1..]))
  {
    hide Delivered, AcceptedOf, PendingOf;
    var t := s.(channel := s.channel[1..]);
    forall j | j in t.history ensures Conserved(t, j) {
      assert Conserved(s, j);
    }
  }

  lemma DoneKeepsContent(s: State, k: Key, outcome: Outcome)
    requires Content(s) && |s.active| == 2 && s.channel != [] && s.channel[0] == Finished(k, outcome) && k in s.workers
    ensures Content(ReceiveDone(s, k, outcome))
  {
    hide Delivered, AcceptedOf, PendingOf, InFlight;
    DoneTailKeepsContent(s);
    SameContent(s.(channel := s.channel[1..]), ReceiveDone(s, k, outcome));
  }

  lemma WorldKeepsContent(s: State, l: Label)
    requires Content(s) && WorldEnabled(s, l)
    ensures Content(World(s, l))
  {
    if l.Send? {
      SendKeepsContent(s, l.key);
    } else if l.Finish? {
      FinishKeepsContent(s, l.key, l.outcome);
    } else {
      SameContent(s, World(s, l));
    }
  }

  lemma FlushKeepsContent(s: State, l: Label)
    requires Content(s) && Owned(s) && ChannelOk(s) && PinnedOk(s) && FlushEnabled(s, l)
    ensures Content(Flush(s, l))
  {
    if l.FlushSkip? {
      SkipKeepsContent(s);
    } else if l.FlushSent? {
      SentKeepsContent(s);
    } else if l.FlushGone? {
      ShutDownKeepsContent(s);
      SameContent(ShutDown(s), Flush(s, l));
    } else {
      SameContent(s, Flush(s, l));
    }
  }

  lemma IngressKeepsContent(s: State, l: Label)
    requires Content(s) && Owned(s) && Handshake(s) && OutputsKnown(s) && IngressEnabled(s, l)
    ensures Content(IngressStep(s, l))
  {
    if l.Take? {
      TakeKeepsContent(s, l.request);
      SameContent(TakeRequest(s, l.request), IngressStep(s, l));
    } else if l.IngressClosed? {
      ShutDownKeepsContent(s);
      SameContent(ShutDown(s), IngressStep(s, l));
    } else if l.TakeCancelled? && l.told {
      var mid := s.(output := s.output + [OutRefused]);
      OtherOutputKeepsContent(s, mid, OutRefused);
      SameContent(mid, IngressStep(s, l));
    } else {
      SameContent(s, IngressStep(s, l));
    }
  }

  lemma QueueKeepsContent(s: State, l: Label)
    requires Content(s) && QueueEnabled(s, l)
    ensures Content(QueueStep(s, l))
  {
    SameContent(s, QueueStep(s, l));
  }

  lemma TerminalKeepsContent(s: State, l: Label)
    requires Content(s) && Owned(s) && ChannelOk(s) && PinnedOk(s) && TerminalEnabled(s, l)
    ensures Content(TerminalStep(s, l))
  {
    if l.TerminalSent? {
      var o := OutTerminal(l.id, TerminalOf(s.jobs[l.id], IsCancelled(s, l.id)));
      var mid := s.(output := s.output + [o]);
      OtherOutputKeepsContent(s, mid, o);
      SameContent(mid, TerminalStep(s, l));
    } else if l.TerminalGone? {
      ShutDownKeepsContent(s);
      SameContent(ShutDown(s), TerminalStep(s, l));
    } else {
      SameContent(s, TerminalStep(s, l));
    }
  }

  lemma ReceiveKeepsContent(s: State, l: Label)
    requires Content(s) && Merged(s) && Owned(s) && ChannelOk(s) && ReceiveEnabled(s, l)
    ensures Content(ReceiveStep(s, l))
  {
    if l.Receive? {
      assert s.channel[0].key in Open(s);
      match s.channel[0]
      case Batch(k, entries) =>
        BatchKeepsContent(s, k, entries);
        SameContent(ReceiveBatch(s, k, entries), ReceiveBatch(s, k, entries).(pc := Flushing));
      case Finished(k, outcome) =>
        DoneKeepsContent(s, k, outcome);
        SameContent(ReceiveDone(s, k, outcome), ReceiveDone(s, k, outcome).(pc := Flushing));
    } else {
      SameContent(s, ReceiveStep(s, l));
    }
  }

  lemma StepKeepsContent(s: State, l: Label)
    requires Content(s) && Merged(s) && Accounts(s) && Handshake(s) && OutputsKnown(s) && Enabled(s, l)
    ensures Content(After(s, l))
  {
    if WorldEnabled(s, l) {
      WorldKeepsContent(s, l);
    } else if FlushEnabled(s, l) {
      FlushKeepsContent(s, l);
    } else if IngressEnabled(s, l) {
      IngressKeepsContent(s, l);
    } else if QueueEnabled(s, l) {
      QueueKeepsContent(s, l);
    } else if TerminalEnabled(s, l) {
      TerminalKeepsContent(s, l);
    } else {
      ReceiveKeepsContent(s, l);
    }
  }
}
