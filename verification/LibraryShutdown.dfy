/**
 How the library scheduler winds down: once input is closed, or the output is gone, nothing new
 starts, the work left never grows, every pass of the loop is finite, and as soon as all running
 workers have reported the loop stops, even if the output never takes another event.
 */
module LibraryShutdown {
  import opened LibraryEntries
  import opened LibraryScheduler
  import opened LibraryAccounts
  import opened LibrarySafety
  import opened LibraryTheorems

  // ---- closed stays closed and starts nothing ----

  lemma WorldStaysClosed(s: State, l: Label)
    ensures WorldEnabled(s, l) ==> World(s, l).inputOpen == s.inputOpen
    ensures FlushEnabled(s, l) && !s.inputOpen ==> !Flush(s, l).inputOpen
  {
    hide Replied;
  }

  lemma IngressStaysClosed(s: State, l: Label)
    requires !s.inputOpen
    ensures IngressEnabled(s, l) ==> !IngressStep(s, l).inputOpen && !l.Take?
    ensures ReceiveEnabled(s, l) ==> !ReceiveStep(s, l).inputOpen
  {
    hide Replied, TakeRequest, Fresh, Tagged, Paths, AfterResult;
  }

  lemma QueueStaysClosed(s: State, l: Label)
    requires !s.inputOpen
    ensures QueueEnabled(s, l) ==> !QueueStep(s, l).inputOpen
    ensures TerminalEnabled(s, l) ==> !TerminalStep(s, l).inputOpen
  {
    hide TerminalOf, Replied;
  }

  lemma OnlyIngressTakes(s: State, l: Label)
    requires Enabled(s, l) && l.Take?
    ensures IngressEnabled(s, l)
  {
  }

  lemma StaysClosed(s: State, l: Label)
    requires Enabled(s, l) && !s.inputOpen
    ensures !After(s, l).inputOpen && !l.Take?
  {
    hide WorldEnabled, World, FlushEnabled, Flush, IngressEnabled, IngressStep, QueueEnabled, QueueStep,
         TerminalEnabled, TerminalStep;
    hide ReceiveEnabled, ReceiveStep;
    WorldStaysClosed(s, l);
    IngressStaysClosed(s, l);
    QueueStaysClosed(s, l);
    if l.Take? {
      OnlyIngressTakes(s, l);
    }
  }

  lemma NothingStarts(s: State, l: Label)
    requires Closing(s) && !s.inputOpen && QueueEnabled(s, l)
    ensures !l.Spawn?
  {
  }

  /** After input closed, or the output went away, every job is cancelled and no source is started. */
  lemma ClosedStartsNothing(s: State, l: Label)
    requires Reachable(s) && !s.inputOpen && Enabled(s, l)
    ensures !l.Spawn? && !l.Take? && !After(s, l).inputOpen
    ensures s.pending == [] && forall j :: j in s.jobs ==> IsCancelled(s, j)
  {
    assert Closing(s) by { ReachableInv(s); }
    StaysClosed(s, l);
    if QueueEnabled(s, l) {
      NothingStarts(s, l);
    }
  }

  // ---- the work left ----

  /** Live jobs plus sources that still owe a result. */
  ghost function Work(s: State): nat
    requires |s.queues| == 2
  {
    |s.jobs.Keys| + |Open(s)|
  }

  lemma WorkFalls(s: State, t: State, k: Key)
    requires |s.queues| == |t.queues| == 2
    requires t.jobs.Keys == s.jobs.Keys && k in Open(s) && Open(t) == Open(s) - {k}
    ensures Work(t) < Work(s)
  {
  }

  lemma WorkForgets(s: State, t: State, id: nat)
    requires |s.queues| == |t.queues| == 2 && Open(t) == Open(s)
    requires id in s.jobs && (t.jobs.Keys == s.jobs.Keys || t.jobs.Keys == s.jobs.Keys - {id})
    ensures Work(t) <= Work(s)
    ensures t.jobs.Keys != s.jobs.Keys ==> Work(t) < Work(s)
  {
  }

  ghost predicate SameWork(s: State, t: State)
  {
    && |s.queues| == |t.queues| == 2 && t.jobs.Keys == s.jobs.Keys && t.queues == s.queues
    && t.workers.Keys == s.workers.Keys
  }

  lemma SameWorkSame(s: State, t: State)
    requires SameWork(s, t)
    ensures Work(t) == Work(s)
  {
    assert Open(t) == Open(s);
  }

  lemma QuietWork(s: State, l: Label)
    requires |s.queues| == 2
    ensures WorldEnabled(s, l) ==> SameWork(s, World(s, l))
    ensures FlushEnabled(s, l) ==> SameWork(s, Flush(s, l))
    ensures IngressEnabled(s, l) && !s.inputOpen ==> SameWork(s, IngressStep(s, l))
  {
  }

  lemma QueueWork(s: State, l: Label)
    requires Apart(s) && QueueEnabled(s, l) && !l.Spawn?
    ensures |QueueStep(s, l).queues| == 2 && Work(QueueStep(s, l)) <= Work(s)
    ensures l.Drop? ==> Work(QueueStep(s, l)) < Work(s)
    ensures QueueStep(s, l).jobs.Keys == s.jobs.Keys
  {
    var t := QueueStep(s, l);
    if l.Drop? {
      var d := s.pc.domain;
      var k := s.queues[d][s.pc.at].key;
      QueueKeysCut(s.queues[d], s.pc.at);
      assert k in QueueKeys(s.queues[d]);
      assert t.queues[1 - d] == s.queues[1 - d];
      WorkFalls(s, t, k);
    } else {
      SameWorkSame(s, t);
    }
  }

  lemma TerminalWork(s: State, l: Label)
    requires |s.queues| == 2 && TerminalEnabled(s, l)
    ensures |TerminalStep(s, l).queues| == 2 && Work(TerminalStep(s, l)) <= Work(s)
    ensures TerminalStep(s, l).jobs.Keys != s.jobs.Keys ==> Work(TerminalStep(s, l)) < Work(s)
  {
    var t := TerminalStep(s, l);
    assert Open(t) == Open(s);
    if l.TerminalSent? || l.TerminalFull? || l.TerminalGone? {
      WorkForgets(s, t, l.id);
    }
  }

  lemma DoneWork(s: State, k: Key, outcome: Outcome)
    requires Apart(s) && s.channel != [] && k in s.workers
    ensures var t := ReceiveDone(s, k, outcome).(pc := Flushing);
            |t.queues| == 2 && Work(t) < Work(s) && t.jobs.Keys == s.jobs.Keys
  {
    WorkFalls(s, ReceiveDone(s, k, outcome).(pc := Flushing), k);
  }

  lemma BatchWork(s: State, k: Key, entries: seq<Entry>)
    requires Apart(s) && s.channel != []
    ensures SameWork(s, ReceiveBatch(s, k, entries).(pc := Flushing))
  {
  }

  lemma ReceiveWork(s: State, l: Label)
    requires Apart(s) && ReceiveEnabled(s, l)
    ensures |ReceiveStep(s, l).queues| == 2 && Work(ReceiveStep(s, l)) <= Work(s)
    ensures ReceiveStep(s, l).jobs.Keys == s.jobs.Keys
    ensures l.Receive? && s.channel[0].Finished? ==> Work(ReceiveStep(s, l)) < Work(s)
  {
    if l.Receive? {
      match s.channel[0]
      case Batch(k, entries) =>
        BatchWork(s, k, entries);
        SameWorkSame(s, ReceiveStep(s, l));
      case Finished(k, outcome) =>
        DoneWork(s, k, outcome);
    } else {
      SameWorkSame(s, ReceiveStep(s, l));
    }
  }

  /** While closed, work never grows, and it falls with every final report and every forgotten job. */
  lemma ClosedWorkFalls(s: State, l: Label)
    requires Reachable(s) && !s.inputOpen && Enabled(s, l)
    ensures |s.queues| == 2 && |After(s, l).queues| == 2
    ensures Work(After(s, l)) <= Work(s)
    ensures (ReceiveEnabled(s, l) && l.Receive? && s.channel[0].Finished?) || After(s, l).jobs.Keys != s.jobs.Keys ==>
            Work(After(s, l)) < Work(s)
  {
    hide Reachable, Work, World, Flush, IngressStep, QueueStep, TerminalStep;
    assert Apart(s) by { ReachableInv(s); }
    ClosedStartsNothing(s, l);
    if QueueEnabled(s, l) {
      QueueWork(s, l);
    } else if TerminalEnabled(s, l) {
      TerminalWork(s, l);
    } else if ReceiveEnabled(s, l) {
      ReceiveWork(s, l);
    } else {
      QuietWork(s, l);
      SameWorkSame(s, After(s, l));
    }
  }

  // ---- each pass is finite ----

  predicate LoopLabel(l: Label)
  {
    !l.Cancel? && !l.Offer? && !l.Send? && !l.Resume? && !l.Finish? && !l.Answer?
  }

  /** How far the pass is from receiving: the phase first, then what the phase has left to do. */
  ghost function PhaseRank(s: State): nat
  {
    match s.pc
    case Flushing => 9
    case Ingress(_) => 8
    case Retaining(d, _) => if d == 0 then 7 else 5
    case Spawning(d) => if d == 0 then 6 else 4
    case Completing(_) => 3
    case Checking => 2
    case Receiving => 1
    case Stopped => 0
  }

  ghost function PhaseLeft(s: State): int
    requires |s.queues| == 2
  {
    match s.pc
    case Flushing => |s.pending|
    case Ingress(left) => left
    case Retaining(d, i) => if d < 2 then |s.queues[d]| - i else 0
    case Spawning(d) => if d < 2 then |s.queues[d]| else 0
    case Completing(ids) => |ids|
    case _ => 0
  }

  ghost predicate Shrinks(s: State, t: State)
  {
    |s.queues| == 2 && |t.queues| == 2
      && (PhaseRank(t) < PhaseRank(s) || (PhaseRank(t) == PhaseRank(s) && 0 <= PhaseLeft(t) < PhaseLeft(s)))
  }

  lemma FlushShrinks(s: State, l: Label)
    requires |s.queues| == 2 && FlushEnabled(s, l)
    ensures Shrinks(s, Flush(s, l))
  {
    hide Replied;
  }

  lemma IngressShrinks(s: State, l: Label)
    requires |s.queues| == 2 && IngressEnabled(s, l)
    ensures Shrinks(s, IngressStep(s, l))
  {
    hide Admitted;
  }

  lemma QueueShrinks(s: State, l: Label)
    requires |s.queues| == 2 && QueueEnabled(s, l)
    ensures Shrinks(s, QueueStep(s, l))
  {
  }

  lemma TerminalShrinks(s: State, l: Label)
    requires |s.queues| == 2 && TerminalEnabled(s, l)
    ensures Shrinks(s, TerminalStep(s, l))
  {
    hide TerminalOf;
  }

  /** Every action of the loop up to the next receive brings the receive, or the stop, closer. */
  lemma PassShrinks(s: State, l: Label)
    requires |s.queues| == 2 && Enabled(s, l) && LoopLabel(l) && s.pc != Receiving
    ensures Shrinks(s, After(s, l))
  {
    hide World, Flush, IngressStep, QueueStep, TerminalStep, ReceiveStep, Shrinks;
    if FlushEnabled(s, l) {
      FlushShrinks(s, l);
    } else if IngressEnabled(s, l) {
      IngressShrinks(s, l);
    } else if QueueEnabled(s, l) {
      QueueShrinks(s, l);
    } else {
      assert TerminalEnabled(s, l);
      TerminalShrinks(s, l);
    }
  }

  /** The world cannot undo that progress. */
  lemma WorldKeepsPass(s: State, l: Label)
    requires |s.queues| == 2 && WorldEnabled(s, l)
    ensures |World(s, l).queues| == 2
    ensures PhaseRank(World(s, l)) == PhaseRank(s) && PhaseLeft(World(s, l)) == PhaseLeft(s)
  {
  }

  // ---- the last pass ----

  /**
   Holds from any closed state outside the completion phase onwards: every job without remaining
   sources is still due for completion in this pass, or gone once the pass reaches its check.
   */
  ghost predicate LastPass(s: State)
  {
    && !s.inputOpen && |s.queues| == 2
    && (s.pc.Completing? || s.pc.Checking? ==> s.queues[0] == [] && s.queues[1] == [])
    && (s.pc.Completing? ==> forall j :: j in s.jobs && s.jobs[j].remaining == 0 ==> j in s.pc.ids)
    && (s.pc.Checking? ==> forall j :: j in s.jobs ==> s.jobs[j].remaining != 0)
  }

  lemma LastPassTerminal(s: State, l: Label)
    requires LastPass(s) && Closing(s) && TerminalEnabled(s, l)
    ensures LastPass(TerminalStep(s, l))
  {
  }

  lemma LastPassQueue(s: State, l: Label)
    requires LastPass(s) && Closing(s) && QueueEnabled(s, l)
    ensures LastPass(QueueStep(s, l))
  {
  }

  lemma LastPassQuiet(s: State, l: Label)
    requires LastPass(s)
    ensures WorldEnabled(s, l) ==> LastPass(World(s, l))
    ensures FlushEnabled(s, l) ==> LastPass(Flush(s, l))
  {
    hide Replied;
  }

  lemma LastPassInput(s: State, l: Label)
    requires LastPass(s)
    ensures IngressEnabled(s, l) ==> LastPass(IngressStep(s, l))
    ensures ReceiveEnabled(s, l) ==> LastPass(ReceiveStep(s, l))
  {
    hide Replied, Fresh, Tagged, Paths, AfterResult;
  }

  lemma LastPassOther(s: State, l: Label)
    requires LastPass(s)
    ensures WorldEnabled(s, l) ==> LastPass(World(s, l))
    ensures FlushEnabled(s, l) ==> LastPass(Flush(s, l))
    ensures IngressEnabled(s, l) ==> LastPass(IngressStep(s, l))
    ensures ReceiveEnabled(s, l) ==> LastPass(ReceiveStep(s, l))
  {
    hide LastPass, WorldEnabled, World, FlushEnabled, Flush, IngressEnabled, IngressStep, ReceiveEnabled, ReceiveStep;
    LastPassQuiet(s, l);
    LastPassInput(s, l);
  }

  lemma LastPassKept(s: State, l: Label)
    requires Reachable(s) && LastPass(s) && Enabled(s, l)
    ensures LastPass(After(s, l))
  {
    hide LastPass, Closing, Reachable, World, Flush, IngressStep, QueueStep, TerminalStep, ReceiveStep;
    assert Closing(s) by { ReachableInv(s); }
    if TerminalEnabled(s, l) {
      LastPassTerminal(s, l);
    } else if QueueEnabled(s, l) {
      LastPassQueue(s, l);
    } else {
      LastPassOther(s, l);
    }
  }

  lemma {:induction false} LastPassRun(s: State, labels: seq<Label>, t: State)
    requires Reachable(s) && LastPass(s) && Leads(s, labels, t)
    ensures Reachable(t) && LastPass(t)
    decreases |labels|
  {
    if labels != [] {
      LastPassKept(s, labels[0]);
      ReachableStep(s, labels[0]);
      LastPassRun(After(s, labels[0]), labels[1..], t);
    }
  }

  lemma ReachableStep(s: State, l: Label)
    requires Reachable(s) && Enabled(s, l)
    ensures Reachable(After(s, l))
  {
    var labels :| Leads(Initial(), labels, s);
    assert Leads(s, [l], After(s, l)) by { assert [l][1..] == []; }
    LeadsOn(Initial(), labels, s, [l], After(s, l));
  }

  lemma NoOpenNoJobs(s: State)
    requires Accounts(s) && Open(s) == {} && forall j :: j in s.jobs ==> s.jobs[j].remaining != 0
    ensures s.jobs == map[]
  {
    forall j ensures j !in s.jobs {
      assert |OfJob(Open(s), j)| == 0;
    }
    assert s.jobs.Keys == {};
  }

  /**
   The loop stops: from a closed state outside the completion phase, whenever the check of a pass
   finds that every worker has reported, stopping is the only thing left to do. No send to the
   output needs to have succeeded.
   */
  lemma ClosedLoopStops(s: State, labels: seq<Label>, t: State)
    requires Reachable(s) && !s.inputOpen && !s.pc.Completing? && !s.pc.Checking?
    requires Leads(s, labels, t) && t.pc == Checking && t.workers == map[]
    ensures TerminalEnabled(t, Stop) && !TerminalEnabled(t, Continue)
  {
    assert LastPass(s) by { assert Apart(s) by { ReachableInv(s); } }
    LastPassRun(s, labels, t);
    assert Accounts(t) && Closing(t) by { ReachableInv(t); }
    assert Open(t) == {};
    NoOpenNoJobs(t);
  }
}
