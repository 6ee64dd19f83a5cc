/**
 The end of the library scheduler: once input is closed (or the output gone) and every worker has
 reported, every run reaches `Stopped` within a bounded number of actions of the loop, whatever the
 world does in between and even if the output never takes another event.
 */
module LibraryEnding {
  import opened Prelude
  import opened LibraryScheduler
  import opened LibraryAccounts
  import opened LibraryHandshake
  import opened LibrarySafety
  import opened LibraryTheorems
  import opened LibraryShutdown

  /** Closed, and no worker is left. */
  ghost predicate Quiet(s: State)
  {
    Reachable(s) && !s.inputOpen && s.workers == map[]
  }

  /** What is known of such a state, and all the following needs. */
  ghost predicate Calm(s: State)
  {
    && Closing(s) && !s.inputOpen && |s.queues| == 2
    && s.workers == map[] && s.channel == []
    && (s.pc.Completing? ==> s.pc.ids <= s.jobs.Keys)
  }

  lemma QuietIsCalm(s: State)
    requires Quiet(s)
    ensures Calm(s) && Accounts(s)
  {
    hide Closing;
    assert Accounts(s) && Handshake(s) && Closing(s) by { ReachableInv(s); }
    HeadIsKnown(s);
  }

  lemma HeadIsKnown(s: State)
    requires ChannelOk(s)
    ensures s.channel != [] ==> s.channel[0].key in s.workers
  {
  }

  // ---- nothing new begins ----

  lemma WorldStaysQuiet(s: State, l: Label)
    requires s.workers == map[]
    ensures WorldEnabled(s, l) ==> World(s, l).workers == map[]
    ensures FlushEnabled(s, l) ==> Flush(s, l).workers == map[]
    ensures IngressEnabled(s, l) ==> IngressStep(s, l).workers == map[]
  {
    hide Admitted;
  }

  lemma LoopStaysQuiet(s: State, l: Label)
    requires s.workers == map[] && s.channel == [] && !l.Spawn?
    ensures QueueEnabled(s, l) ==> QueueStep(s, l).workers == map[]
    ensures TerminalEnabled(s, l) ==> TerminalStep(s, l).workers == map[]
    ensures ReceiveEnabled(s, l) ==> ReceiveStep(s, l).workers == map[]
  {
    hide TerminalOf;
  }

  lemma StaysQuiet(s: State, l: Label)
    requires Quiet(s) && Enabled(s, l)
    ensures Quiet(After(s, l))
  {
    hide Reachable, World, Flush, IngressStep, QueueStep, TerminalStep, ReceiveStep;
    QuietIsCalm(s);
    ClosedStartsNothing(s, l);
    ReachableStep(s, l);
    hide WorldEnabled, FlushEnabled, IngressEnabled, QueueEnabled, TerminalEnabled, ReceiveEnabled, Calm;
    assert s.channel == [] by { assert Calm(s); CalmChannel(s); }
    WorldStaysQuiet(s, l);
    LoopStaysQuiet(s, l);
  }

  lemma CalmChannel(s: State)
    requires Calm(s)
    ensures s.channel == []
  {
  }

  // ---- the actions left ----

  ghost function Load(s: State): nat
    requires |s.queues| == 2
  {
    |s.queues[0]| + |s.queues[1]| + |s.jobs|
  }

  /** How many actions the loop has left at most. A pass that completes too few jobs is followed by one more. */
  ghost function Steps(s: State): int
    requires |s.queues| == 2
  {
    match s.pc
    case Receiving => Load(s) + 9
    case Flushing => Load(s) + 8
    case Ingress(_) => Load(s) + 7
    case Retaining(d, i) => if d == 0 then Load(s) + 6 - i else |s.queues[1]| + |s.jobs| + 4 - i
    case Spawning(d) => if d == 0 then |s.queues[1]| + |s.jobs| + 5 else |s.jobs| + 3
    case Completing(ids) => |ids| + if LastPass(s) then 2 else Load(s) + 11
    case Checking => if LastPass(s) then 1 else Load(s) + 10
    case Stopped => 0
  }

  lemma StepsAreFew(s: State)
    requires Calm(s)
    ensures 0 <= Steps(s) <= Load(s) + |s.jobs| + 11
  {
    if s.pc.Completing? {
      SubsetCount(s.pc.ids, s.jobs.Keys);
    }
  }

  lemma WorldAddsNothing(s: State, l: Label)
    requires Calm(s) && WorldEnabled(s, l)
    ensures |World(s, l).queues| == 2 && Steps(World(s, l)) <= Steps(s)
  {
    hide Closing, LastPass;
    if LastPass(s) {
      LastPassQuiet(s, l);
    }
  }

  lemma EarlyAction(s: State, l: Label)
    requires Calm(s)
    ensures FlushEnabled(s, l) ==> |Flush(s, l).queues| == 2 && Steps(Flush(s, l)) < Steps(s)
    ensures IngressEnabled(s, l) ==> |IngressStep(s, l).queues| == 2 && Steps(IngressStep(s, l)) < Steps(s)
    ensures ReceiveEnabled(s, l) ==> |ReceiveStep(s, l).queues| == 2 && Steps(ReceiveStep(s, l)) < Steps(s)
  {
  }

  lemma QueueAction(s: State, l: Label)
    requires Calm(s) && Owned(s) && QueueEnabled(s, l)
    ensures |QueueStep(s, l).queues| == 2 && Steps(QueueStep(s, l)) < Steps(s)
  {
    var t := QueueStep(s, l);
    QueuedAreCancelled(s);
    if l.Drop? {
      assert t.jobs.Keys == s.jobs.Keys;
      assert |t.jobs| == |t.jobs.Keys| && |s.jobs| == |s.jobs.Keys|;
    } else if t.pc.Completing? {
      SubsetCount(t.pc.ids, s.jobs.Keys);
      assert LastPass(t);
    }
  }

  /** In the last pass the check can only stop: no source is left, hence no job. */
  lemma CheckStops(s: State, l: Label)
    requires Calm(s) && Accounts(s) && LastPass(s) && s.pc == Checking && TerminalEnabled(s, l)
    ensures l.Stop?
  {
    assert Open(s) == {};
    NoOpenNoJobs(s);
  }

  lemma CheckAction(s: State, l: Label)
    requires Calm(s) && Accounts(s) && s.pc == Checking && TerminalEnabled(s, l)
    ensures |TerminalStep(s, l).queues| == 2 && Steps(TerminalStep(s, l)) < Steps(s)
  {
    hide Accounts, LastPass;
    if LastPass(s) {
      CheckStops(s, l);
    }
  }

  lemma CompletionEffect(s: State, l: Label)
    requires |s.queues| == 2 && s.pc.Completing? && TerminalEnabled(s, l)
    ensures var t := TerminalStep(s, l);
            && t.queues == s.queues && t.jobs.Keys <= s.jobs.Keys
            && (if l.TerminalsDone? then t.pc == Checking
                else t.pc.Completing? && |t.pc.ids| == |s.pc.ids| - 1)
  {
    hide TerminalOf;
  }

  lemma CompletionAction(s: State, l: Label)
    requires Calm(s) && s.pc.Completing? && TerminalEnabled(s, l)
    ensures |TerminalStep(s, l).queues| == 2 && Steps(TerminalStep(s, l)) < Steps(s)
  {
    CompletionEffect(s, l);
    if LastPass(s) {
      LastPassTerminal(s, l);
    }
    hide TerminalStep, LastPass, Closing;
    var t := TerminalStep(s, l);
    SubsetCount(t.jobs.Keys, s.jobs.Keys);
    assert |t.jobs| == |t.jobs.Keys| && |s.jobs| == |s.jobs.Keys|;
  }

  /** Every action of the loop leaves fewer, and no action of the world adds any. */
  lemma ActionCounts(s: State, l: Label)
    requires Quiet(s) && Enabled(s, l)
    ensures |s.queues| == 2 && |After(s, l).queues| == 2
    ensures Steps(After(s, l)) <= Steps(s) - if LoopLabel(l) then 1 else 0
  {
    QuietIsCalm(s);
    hide Quiet, Calm, Steps, World, Flush, IngressStep, QueueStep, TerminalStep, ReceiveStep;
    assert |s.queues| == 2 && Owned(s);
    if WorldEnabled(s, l) {
      WorldAddsNothing(s, l);
    } else if QueueEnabled(s, l) {
      QueueAction(s, l);
    } else if TerminalEnabled(s, l) && s.pc == Checking {
      CheckAction(s, l);
    } else if TerminalEnabled(s, l) {
      CompletionAction(s, l);
    } else {
      EarlyAction(s, l);
    }
  }

  ghost function LoopActions(labels: seq<Label>): nat
  {
    if labels == [] then 0 else (if LoopLabel(labels[0]) then 1 else 0) + LoopActions(labels[1..])
  }

  lemma {:induction false} RunCounts(s: State, labels: seq<Label>, t: State)
    requires Quiet(s) && Leads(s, labels, t)
    ensures Quiet(t) && |s.queues| == 2 && |t.queues| == 2
    ensures LoopActions(labels) + Steps(t) <= Steps(s)
    decreases |labels|
  {
    hide Quiet, Enabled, After, Steps;
    QuietQueues(s);
    if labels != [] {
      ActionCounts(s, labels[0]);
      StaysQuiet(s, labels[0]);
      RunCounts(After(s, labels[0]), labels[1..], t);
    }
  }

  lemma QuietQueues(s: State)
    requires Quiet(s)
    ensures |s.queues| == 2
  {
    QuietIsCalm(s);
  }

  lemma LoopMayAct(s: State) returns (l: Label)
    requires Reachable(s) && s.pc != Stopped
    ensures Enabled(s, l) && LoopLabel(l)
  {
    hide Reachable;
    l := LoopNeverStuck(s);
  }

  /**
   From any reachable closed state without workers, every run contains a bounded number of actions of
   the loop, and until the loop has stopped it can take another: it stops.
   */
  lemma EveryRunStops(s: State, labels: seq<Label>, t: State)
    requires Quiet(s) && Leads(s, labels, t)
    ensures |s.queues| == 2 && LoopActions(labels) <= Load(s) + |s.jobs| + 11
    ensures t.pc == Stopped || exists l :: Enabled(t, l) && LoopLabel(l)
  {
    RunCounts(s, labels, t);
    QuietIsCalm(s);
    QuietIsCalm(t);
    StepsAreFew(s);
    StepsAreFew(t);
    if t.pc != Stopped {
      var l := LoopMayAct(t);
    }
  }
}
