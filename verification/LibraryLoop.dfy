/**
 The loop of `schedule` itself, in the form of the source: local variables that phases update in
 place. Every phase is proved to be a run of the transition system in `LibraryScheduler`, so the
 invariants and theorems proved there hold for it.

 What the loop cannot control is chosen nondeterministically: the outcome of each send to the
 output, what the input offers, and what the world does between two actions.
 */
module LibraryLoop {
  import opened LibraryEntries
  import opened LibraryScheduler
  import opened LibraryAccounts
  import opened LibraryHandshake
  import opened LibraryDelivery
  import opened LibrarySafety
  import opened LibraryTheorems

  datatype SendResult = Sent | Full | Disconnected
  datatype ReceiveResult = Got(request: Request) | Empty | Closed

  /** The loop of `Aggregate::batch` over one batch; `None` where the entry number overflows. */
  method MergeBatch(job: Job, source: nat, entries: seq<Entry>)
    returns (overflow: bool, merged: Job, accepted: seq<Accepted>)
    requires job.nextId <= MAX_ENTRY_ID
    ensures overflow <==> !Fits(job, source, entries)
    ensures !overflow ==>
              var kept := Fresh(job.seen, Tagged(source, entries));
              && accepted == Numbered(job.nextId, kept)
              && merged == job.(seen := job.seen + Paths(Tagged(source, entries)), nextId := job.nextId + |kept|)
  {
    var items := Tagged(source, entries);
    var seen, nextId := job.seen, job.nextId;
    accepted := [];
    ghost var kept: seq<Item> := [];
    overflow, merged := false, job;
    for i := 0 to |entries|
      invariant Fresh(job.seen, items) == kept + Fresh(seen, items[i..])
      invariant seen == job.seen + Paths(items[..i])
      invariant nextId == job.nextId + |kept| <= MAX_ENTRY_ID
      invariant accepted == Numbered(job.nextId, kept)
    {
      assert items[i..][0] == items[i] && items[i..][1..] == items[i + 1..];
      assert items[..i + 1] == items[..i] + [items[i]];
      PathsSnoc(items[..i], items[i]);
      if entries[i].path !in seen {
        seen := seen + {entries[i].path};
        if nextId == MAX_ENTRY_ID {
          overflow := true;
          return;
        }
        accepted := accepted + [Accepted(nextId, source, entries[i])];
        kept := kept + [items[i]];
        nextId := nextId + 1;
      }
    }
    assert items[..|entries|] == items;
    merged := job.(seen := seen, nextId := nextId);
  }

  lemma AdmittedStep(job: nat, before: seq<(nat, Path)>, next: (nat, Path))
    ensures Admitted(job, before + [next])
         == if next.1 in SourcePaths(before) then Admitted(job, before)
            else Admitted(job, before) + [Source(Key(job, next.0), next.1)]
  {
    assert (before + [next])[..|before|] == before;
  }

  lemma NothingAdmitted(job: nat, sources: seq<(nat, Path)>)
    requires sources == []
    ensures Admitted(job, sources) == [] && SourcePaths(sources) == {}
    ensures ForDomain(Admitted(job, sources), 0) == [] && ForDomain(Admitted(job, sources), 1) == []
  {
  }

  /** The source loop of ingress: the first source under each path joins the queue of its domain. */
  method Enlist(job: nat, sources: seq<(nat, Path)>) returns (remaining: nat, local: seq<Source>, network: seq<Source>)
    ensures remaining == |Admitted(job, sources)|
    ensures local == ForDomain(Admitted(job, sources), 0)
    ensures network == ForDomain(Admitted(job, sources), 1)
  {
    hide Admitted, ForDomain, SourcePaths;
    var paths: set<Path> := {};
    remaining, local, network := 0, [], [];
    NothingAdmitted(job, sources[..0]);
    for i := 0 to |sources|
      invariant paths == SourcePaths(sources[..i])
      invariant remaining == |Admitted(job, sources[..i])|
      invariant local == ForDomain(Admitted(job, sources[..i]), 0)
      invariant network == ForDomain(Admitted(job, sources[..i]), 1)
    {
      var (index, path) := sources[i];
      assert sources[..i + 1] == sources[..i] + [sources[i]];
      AdmittedStep(job, sources[..i], sources[i]);
      SourcePathsSnoc(sources[..i], sources[i]);
      if path !in paths {
        paths := paths + {path};
        var source := Source(Key(job, index), path);
        ForDomainSnoc(Admitted(job, sources[..i]), source, 0);
        ForDomainSnoc(Admitted(job, sources[..i]), source, 1);
        if path.unc {
          network := network + [source];
        } else {
          local := local + [source];
        }
        remaining := remaining + 1;
      }
    }
    assert sources[..|sources|] == sources;
  }

  /** One more action at the end of a run. */
  ghost function Extended(s: State, labels: seq<Label>, t: State, l: Label, u: State): (more: seq<Label>)
    requires Leads(s, labels, t) && Enabled(t, l) && After(t, l) == u
    ensures Leads(s, more, u) && more == labels + [l]
  {
    assert Leads(t, [l], u) by { assert [l][1..] == []; }
    LeadsOn(s, labels, t, [l], u);
    labels + [l]
  }

  /** The requests a run takes from the input, in order, whether they are cancelled by then or not. */
  function Requested(labels: seq<Label>): seq<Request>
  {
    if labels == [] then []
    else
      var last := labels[|labels| - 1];
      Requested(labels[..|labels| - 1]) + if last.Take? || last.TakeCancelled? then [last.request] else []
  }

  lemma NoAction(s: State)
    ensures Leads(s, [], s)
  {
  }

  lemma NothingRequested()
    ensures Requested([]) == []
  {
  }

  lemma RequestedSnoc(labels: seq<Label>, l: Label)
    ensures Requested(labels + [l]) == Requested(labels) + if l.Take? || l.TakeCancelled? then [l.request] else []
  {
    assert (labels + [l])[..|labels|] == labels;
  }

  lemma {:induction false} NoneRequested(labels: seq<Label>, more: seq<Label>)
    requires forall i :: 0 <= i < |more| ==> !more[i].Take? && !more[i].TakeCancelled?
    ensures Requested(labels + more) == Requested(labels)
    decreases |more|
  {
    if more == [] {
      assert labels + more == labels;
    } else {
      var n := |more| - 1;
      NoneRequested(labels, more[..n]);
      RequestedSnoc(labels + more[..n], more[n]);
      assert labels + more == (labels + more[..n]) + [more[n]];
    }
  }

  /** The requests at the front of what the input offers, up to the first offer that is none. */
  function Offered(offers: seq<ReceiveResult>): seq<Request>
  {
    if offers == [] || !offers[0].Got? then [] else [offers[0].request] + Offered(offers[1..])
  }

  lemma OfferedFrom(offers: seq<ReceiveResult>, i: nat)
    requires i <= |offers|
    ensures Offered(offers[i..]) == if i == |offers| || !offers[i].Got? then []
                                    else [offers[i].request] + Offered(offers[i + 1..])
  {
    if i < |offers| {
      assert offers[i..][0] == offers[i] && offers[i..][1..] == offers[i + 1..];
    }
  }

  lemma DoneIs(s: State)
    requires s.pc.Ingress?
    ensures Enabled(s, IngressDone) && After(s, IngressDone) == s.(pc := Retaining(0, 0))
  {
  }

  /** What an offer is answered with. */
  predicate Answers(l: Label, offer: ReceiveResult)
  {
    match offer
    case Got(request) => (l.Take? || l.TakeCancelled?) && l.request == request
    case Empty => l == IngressDone
    case Closed => l == IngressClosed
  }

  /** The last action of the run received an event, or timed out on an empty channel. */
  ghost predicate Polls(s: State, labels: seq<Label>)
  {
    labels != []
    && var n := |labels| - 1;
       labels[n] == Receive || exists t :: Leads(s, labels[..n], t) && t.channel == []
  }

  /** From `s` to `t` only the world acted. */
  ghost predicate OnlyWorld(s: State, t: State)
  {
    && t == s.(cancelled := t.cancelled, workers := t.workers, channel := t.channel, held := t.held,
       history := t.history)
    && s.cancelled <= t.cancelled
    && s.history.Keys == t.history.Keys
    && (forall j :: j in s.history ==> t.history[j].request == s.history[j].request)
  }

  lemma WorldIsOnlyWorld(s: State, l: Label)
    requires WorldEnabled(s, l)
    ensures OnlyWorld(s, World(s, l))
  {
  }

  /** What the loop does not own. */
  datatype Shared = Shared(
    cancelled: set<nat>,
    workers: map<Key, Worker>,
    channel: seq<SourceEvent>,
    held: set<Key>,
    output: seq<Output>,
    history: map<nat, History>)

  lemma TerminalIs(s: State, l: Label)
    requires TerminalEnabled(s, l)
    ensures Enabled(s, l) && After(s, l) == TerminalStep(s, l)
  {
  }

  lemma QueueIs(s: State, l: Label)
    requires QueueEnabled(s, l)
    ensures Enabled(s, l) && After(s, l) == QueueStep(s, l)
  {
  }

  lemma IngressIs(s: State, l: Label)
    requires IngressEnabled(s, l)
    ensures Enabled(s, l) && After(s, l) == IngressStep(s, l)
    ensures !l.IngressClosed? ==> IngressStep(s, l).inputOpen == s.inputOpen
  {
  }

  /** The end of the completion phase. */
  lemma ChecksIs(s: State, stop: bool)
    requires s.pc == Completing({}) && stop == (!s.inputOpen && s.jobs == map[] && s.pending == [])
    ensures TerminalEnabled(s, TerminalsDone) && TerminalStep(s, TerminalsDone) == s.(pc := Checking)
    ensures var t := s.(pc := Checking); var l := if stop then Stop else Continue;
            TerminalEnabled(t, l) && TerminalStep(t, l) == s.(pc := if stop then Stopped else Receiving)
  {
  }

  lemma SpawnDoneIs(s: State, d: nat)
    requires s.pc == Spawning(d) && d < 2 && |s.queues| == 2 && |s.active| == 2
    requires !(s.pending == [] && s.active[d] < SOURCE_SLOTS && s.queues[d] != [])
    ensures QueueEnabled(s, SpawnDone)
    ensures QueueStep(s, SpawnDone)
            == s.(pc := if d == 0 then Retaining(1, 0) else Completing(set j | j in s.jobs && s.jobs[j].remaining == 0))
  {
  }

  class SourceLoop {
    var jobs: map<nat, Job>
    var queues: seq<seq<Source>>
    var active: seq<int>
    var pending: seq<Delivery>
    var nextJob: nat
    var inputOpen: bool
    // what the loop shares with workers, cancellers and the reader of the output, and the history
    var shared: Shared

    constructor ()
      ensures At(Flushing) == Initial() && inputOpen && jobs == map[] && queues == [[], []] && pending == []
    {
      jobs, queues, active, pending := map[], [[], []], [0, 0], [];
      nextJob, inputOpen := 0, true;
      shared := Shared({}, map[], [], {}, [], map[]);
    }

    /** The transition system's state when the loop stands at `pc`. */
    function At(pc: Phase): State
      reads this
    {
      State(pc, jobs, queues, active, pending, nextJob, inputOpen, shared.cancelled, shared.workers, shared.channel,
        shared.held, shared.output, shared.history)
    }

    /** Any number of actions of the world. */
    method Interfere(pc: Phase) returns (ghost labels: seq<Label>)
      modifies this
      ensures Leads(old(At(pc)), labels, At(pc))
      ensures OnlyWorld(old(At(pc)), At(pc))
      ensures forall i :: 0 <= i < |labels| ==> !labels[i].Take? && !labels[i].TakeCancelled?
    {
      labels := [];
      var rounds: nat := *;
      while rounds > 0
        invariant Leads(old(At(pc)), labels, At(pc))
        invariant OnlyWorld(old(At(pc)), At(pc))
        invariant forall i :: 0 <= i < |labels| ==> !labels[i].Take? && !labels[i].TakeCancelled?
      {
        var l: Label := *;
        if WorldEnabled(At(pc), l) {
          var t := World(At(pc), l);
          WorldIsOnlyWorld(At(pc), l);
          labels := Extended(old(At(pc)), labels, At(pc), l, t);
          shared := Shared(t.cancelled, t.workers, t.channel, t.held, t.output, t.history);
        }
        rounds := rounds - 1;
      }
    }

    /** `input_open = false` together with cancelling every live job and clearing `pending`. */
    method Close(pc: Phase)
      modifies this
      ensures At(pc) == ShutDown(old(At(pc)))
    {
      shared := shared.(cancelled := shared.cancelled + Tokens(jobs));
      inputOpen := false;
      shared := shared.(workers := Replied(shared.workers, PendingKeys(pending), HungUp));
      pending := [];
    }

    /** One turn of the flush: drop a cancelled head, or try to send it. */
    method FlushHead() returns (again: bool, ghost l: Label)
      requires pending != []
      modifies this
      ensures FlushEnabled(old(At(Flushing)), l)
      ensures At(if again then Flushing else Ingress(INGRESS_TURN)) == Flush(old(At(Flushing)), l)
      ensures again ==> |pending| < |old(pending)|
    {
      var head := pending[0];
      if IsCancelled(At(Flushing), head.key.job) {
        pending := pending[1..];
        shared := shared.(workers := Replied(shared.workers, {head.key}, HungUp));
        return true, FlushSkip;
      }
      var result: SendResult := *;
      match result {
        case Sent =>
          pending := pending[1..];
          shared := shared.(output := shared.output + [OutBatch(head.key.job, head.entries)]);
          shared := shared.(held := shared.held + {head.key});
          return true, FlushSent;
        case Full =>
          return false, FlushFull;
        case Disconnected =>
          Close(Flushing);
          return false, FlushGone;
      }
    }

    /** The flush of `pending`: drop what is cancelled, send until the output is full or gone. */
    method FlushPending() returns (ghost labels: seq<Label>)
      modifies this
      ensures Leads(old(At(Flushing)), labels, At(Ingress(INGRESS_TURN)))
    {
      labels := [];
      ghost var start := At(Flushing);
      while pending != []
        invariant Leads(start, labels, At(Flushing))
        decreases |pending|
      {
        ghost var mid := At(Flushing);
        ghost var world := Interfere(Flushing);
        labels := Joined(start, labels, mid, world, At(Flushing));
        mid := At(Flushing);
        var again;
        ghost var l;
        again, l := FlushHead();
        labels := Extended(start, labels, mid, l, At(if again then Flushing else Ingress(INGRESS_TURN)));
        if !again {
          return;
        }
      }
      labels := Extended(start, labels, At(Flushing), FlushEmpty, At(Ingress(INGRESS_TURN)));
    }

    /** A request joins: its sources are queued, and its job is remembered. */
    method Accept(request: Request, pc: Phase)
      requires |queues| == 2
      modifies this
      ensures At(pc) == TakeRequest(old(At(pc)), request)
    {
      var job := nextJob + 1;
      var remaining, local, network := Enlist(job, request.sources);
      Enrol(request, job, remaining, [queues[0] + local, queues[1] + network], pc);
    }

    method Enrol(request: Request, job: nat, remaining: nat, grown: seq<seq<Source>>, ghost pc: Phase)
      modifies this
      ensures At(pc) == old(At(pc)).(nextJob := job, queues := grown,
                                     jobs := old(jobs)[job := NewJob(request, remaining)],
                                     history := old(shared).history[job := History(request, [], [], [], 0)])
    {
      nextJob, queues := job, grown;
      jobs := jobs[job := NewJob(request, remaining)];
      shared := shared.(history := shared.history[job := History(request, [], [], [], 0)]);
    }

    /** One offer of the input. */
    method TakeOne(left: nat, offer: ReceiveResult) returns (again: bool, ghost l: Label)
      requires left > 0 && inputOpen && |queues| == 2 && (offer.Got? ==> DistinctIndices(offer.request.sources))
      modifies this
      ensures IngressEnabled(old(At(Ingress(left))), l) && |queues| == 2 && Answers(l, offer)
      ensures again <==> offer.Got?
      ensures At(if again then Ingress(left - 1) else Retaining(0, 0)) == IngressStep(old(At(Ingress(left))), l)
    {
      match offer {
        case Got(request) =>
          if request.token in shared.cancelled {
            var told: bool := *;
            shared := shared.(output := if told then shared.output + [OutRefused] else shared.output);
            return true, TakeCancelled(request, told);
          }
          Accept(request, Ingress(left));
          return true, Take(request);
        case Empty =>
          return false, IngressDone;
        case Closed =>
          Close(Ingress(left));
          return false, IngressClosed;
      }
    }

    /** One offer, and what the world does before it, added to a run. */
    method TakeNext(left: nat, offer: ReceiveResult, ghost start: State, ghost run: seq<Label>)
      returns (again: bool, ghost labels: seq<Label>)
      requires left > 0 && inputOpen && |queues| == 2 && (offer.Got? ==> DistinctIndices(offer.request.sources))
      requires Leads(start, run, At(Ingress(left)))
      modifies this
      ensures Leads(start, labels, At(if again then Ingress(left - 1) else Retaining(0, 0)))
      ensures Requested(labels) == Requested(run) + if offer.Got? then [offer.request] else []
      ensures |queues| == 2 && (again <==> offer.Got?) && (again ==> inputOpen)
    {
      hide Enabled, After, Requested, Leads, IngressStep;
      ghost var mid := At(Ingress(left));
      ghost var world := Interfere(Ingress(left));
      NoneRequested(run, world);
      labels := Joined(start, run, mid, world, At(Ingress(left)));
      mid := At(Ingress(left));
      ghost var l;
      again, l := TakeOne(left, offer);
      IngressIs(mid, l);
      RequestedSnoc(labels, l);
      labels := Extended(start, labels, mid, l, At(if again then Ingress(left - 1) else Retaining(0, 0)));
    }

    /** The ingress turn: the offers of the input, at most 32, up to the first that is no request; then the queues. */
    method TakeRequests(offers: seq<ReceiveResult>) returns (ghost labels: seq<Label>)
      requires |queues| == 2 && |offers| == INGRESS_TURN
      requires forall i :: 0 <= i < |offers| && offers[i].Got? ==> DistinctIndices(offers[i].request.sources)
      modifies this
      ensures Leads(old(At(Ingress(INGRESS_TURN))), labels, At(Retaining(0, 0)))
      ensures Requested(labels) == if old(inputOpen) then Offered(offers) else []
      ensures |queues| == 2
    {
      hide Enabled, After, Requested, Leads, IngressStep, Offered, IngressEnabled, DistinctIndices;
      NothingRequested();
      assert offers[0..] == offers;
      labels := [];
      ghost var start := At(Ingress(INGRESS_TURN));
      NoAction(start);
      var left: nat := INGRESS_TURN;
      while left > 0 && inputOpen
        invariant Leads(start, labels, At(Ingress(left))) && |queues| == 2
        invariant left <= INGRESS_TURN && inputOpen == old(inputOpen)
        invariant inputOpen ==> Requested(labels) + Offered(offers[INGRESS_TURN - left..]) == Offered(offers)
        invariant !inputOpen ==> Requested(labels) == []
      {
        OfferedFrom(offers, INGRESS_TURN - left);
        var again;
        again, labels := TakeNext(left, offers[INGRESS_TURN - left], start, labels);
        if !again {
          return;
        }
        left := left - 1;
      }
      if left == 0 {
        OfferedFrom(offers, INGRESS_TURN);
      }
      DoneIs(At(Ingress(left)));
      RequestedSnoc(labels, IngressDone);
      labels := Extended(start, labels, At(Ingress(left)), IngressDone, At(Retaining(0, 0)));
    }

    /** One element of `retain`. */
    method RetainOne(d: nat, i: nat) returns (kept: bool, ghost l: Label)
      requires d < |queues| && i < |queues[d]| && queues[d][i].key.job in jobs
      modifies this
      ensures QueueEnabled(old(At(Retaining(d, i))), l)
      ensures At(Retaining(d, if kept then i + 1 else i)) == QueueStep(old(At(Retaining(d, i))), l)
    {
      var job := queues[d][i].key.job;
      if !IsCancelled(At(Retaining(d, i)), job) {
        return true, Keep;
      }
      queues := queues[d := queues[d][..i] + queues[d][i + 1..]];
      jobs := jobs[job := jobs[job].(remaining := jobs[job].remaining - 1)];
      shared := shared.(history :=
        shared.history[job := shared.history[job].(dropped := shared.history[job].dropped + 1)]);
      return false, Drop;
    }

    /** Start the oldest queued source of a domain. */
    method SpawnOne(d: nat) returns (ghost l: Label)
      requires d < |queues| == |active| && pending == [] && active[d] < SOURCE_SLOTS && queues[d] != []
      modifies this
      ensures QueueEnabled(old(At(Spawning(d))), l) && At(Spawning(d)) == QueueStep(old(At(Spawning(d))), l)
    {
      var source := queues[d][0];
      queues := queues[d := queues[d][1..]];
      active := active[d := active[d] + 1];
      shared := shared.(workers := shared.workers[source.key := Worker(d == 1, Reading)]);
      return Spawn;
    }


    /** `retain` over one queue. Every queued source belongs to a live job, as `Accounts` guarantees. */
    method Retain(d: nat) returns (ghost labels: seq<Label>)
      requires Accounts(At(Retaining(d, 0))) && d < 2
      modifies this
      ensures Leads(old(At(Retaining(d, 0))), labels, At(Spawning(d)))
    {
      labels := [];
      ghost var start := At(Retaining(d, 0));
      var i := 0;
      while i < |queues[d]|
        invariant |queues| == 2 && i <= |queues[d]|
        invariant Leads(start, labels, At(Retaining(d, i)))
        decreases |queues[d]| - i
      {
        ghost var mid := At(Retaining(d, i));
        ghost var world := Interfere(Retaining(d, i));
        labels := Joined(start, labels, mid, world, At(Retaining(d, i)));
        mid := At(Retaining(d, i));
        QueuedJobLives(start, labels, mid, d, i);
        var kept;
        ghost var l;
        kept, l := RetainOne(d, i);
        i := if kept then i + 1 else i;
        labels := Extended(start, labels, mid, l, At(Retaining(d, i)));
      }
      labels := Extended(start, labels, At(Retaining(d, i)), RetainDone, At(Spawning(d)));
    }

    /** Start queued sources while nothing waits for the output and slots are free. */
    method StartSources(d: nat) returns (ghost labels: seq<Label>)
      requires Accounts(At(Spawning(d))) && d < 2
      modifies this
      ensures Leads(old(At(Spawning(d))), labels,
                    At(if d == 0 then Retaining(1, 0) else Completing(set j | j in jobs && jobs[j].remaining == 0)))
    {
      hide Enabled, After;
      labels := [];
      ghost var start := At(Spawning(d));
      while pending == [] && active[d] < SOURCE_SLOTS && queues[d] != []
        invariant |queues| == 2 && |active| == 2
        invariant Leads(start, labels, At(Spawning(d)))
        decreases |queues[d]|
      {
        ghost var mid := At(Spawning(d));
        ghost var l := SpawnOne(d);
        QueueIs(mid, l);
        labels := Extended(start, labels, mid, l, At(Spawning(d)));
        mid := At(Spawning(d));
        ghost var world := Interfere(Spawning(d));
        labels := Joined(start, labels, mid, world, At(Spawning(d)));
      }
      SpawnDoneIs(At(Spawning(d)), d);
      QueueIs(At(Spawning(d)), SpawnDone);
      labels := Extended(start, labels, At(Spawning(d)), SpawnDone,
                         At(if d == 0 then Retaining(1, 0)
                           else Completing(set j | j in jobs && jobs[j].remaining == 0)));
    }

    /** Offer one completed job's terminal event to the output. */
    method CompleteOne(ids: set<nat>, id: nat) returns (ghost l: Label)
      requires id in ids && id in jobs
      modifies this
      ensures TerminalEnabled(old(At(Completing(ids))), l)
      ensures At(Completing(ids - {id})) == TerminalStep(old(At(Completing(ids))), l)
    {
      var result: SendResult := *;
      match result {
        case Sent =>
          shared := shared.(output := shared.output
            + [OutTerminal(id, TerminalOf(jobs[id], IsCancelled(At(Checking), id)))]);
          jobs := jobs - {id};
          return TerminalSent(id);
        case Full =>
          jobs := if IsCancelled(At(Checking), id) then jobs - {id} else jobs;
          return TerminalFull(id);
        case Disconnected =>
          Close(Completing(ids));
          jobs := jobs - {id};
          return TerminalGone(id);
      }
    }

    /** The completion phase, in any order of the jobs, and the check whether to stop. */
    method CompleteJobs(completed: set<nat>) returns (stop: bool, ghost labels: seq<Label>)
      requires completed <= jobs.Keys
      modifies this
      ensures Leads(old(At(Completing(completed))), labels, At(if stop then Stopped else Receiving))
    {
      hide Enabled, After, IsCancelled, TerminalOf;
      labels := [];
      ghost var start := At(Completing(completed));
      var ids := completed;
      while ids != {}
        invariant ids <= jobs.Keys && Leads(start, labels, At(Completing(ids)))
        decreases |ids|
      {
        var id :| id in ids;
        ghost var mid := At(Completing(ids));
        ghost var world := Interfere(Completing(ids));
        labels := Joined(start, labels, mid, world, At(Completing(ids)));
        mid := At(Completing(ids));
        ghost var l := CompleteOne(ids, id);
        TerminalIs(mid, l);
        ids := ids - {id};
        labels := Extended(start, labels, mid, l, At(Completing(ids)));
      }
      stop := !inputOpen && jobs == map[] && pending == [];
      ChecksIs(At(Completing({})), stop);
      TerminalIs(At(Completing({})), TerminalsDone);
      TerminalIs(At(Checking), if stop then Stop else Continue);
      labels := Extended(start, labels, At(Completing({})), TerminalsDone, At(Checking));
      labels := Extended(start, labels, At(Checking), if stop then Stop else Continue,
                         At(if stop then Stopped else Receiving));
    }

    /** A batch arrives: merge it and queue what is new, or answer at once. */
    method MergeArrived(k: Key, entries: seq<Entry>) returns (panicked: bool)
      requires shared.channel != [] && (k.job in jobs ==> jobs[k.job].nextId <= MAX_ENTRY_ID)
      modifies this
      ensures panicked <==> Merges(old(At(Receiving)), k) && !Fits(old(jobs)[k.job], k.index, entries)
      ensures !panicked ==> At(Receiving) == ReceiveBatch(old(At(Receiving)), k, entries)
    {
      panicked := false;
      if !Merges(At(Receiving), k) {
        shared := shared.(channel := shared.channel[1..]);
        shared := shared.(workers := Replied(shared.workers, {k}, HungUp));
        return;
      }
      var overflow, merged, accepted := MergeBatch(jobs[k.job], k.index, entries);
      if overflow {
        return true;
      }
      var h := shared.history[k.job];
      shared := shared.(channel := shared.channel[1..]);
      jobs := jobs[k.job := merged];
      shared := shared.(history := shared.history[k.job := h.(arrived := h.arrived + [Handed(k.index, entries)])]);
      if accepted == [] {
        shared := shared.(workers := Replied(shared.workers, {k}, Acknowledged));
      } else {
        pending := pending + [Delivery(k, accepted)];
      }
    }

    /** A worker's final event arrives. */
    method CountResult(k: Key, outcome: Outcome)
      requires shared.channel != [] && k in shared.workers && |active| == 2
      modifies this
      ensures At(Receiving) == ReceiveDone(old(At(Receiving)), k, outcome)
    {
      var d := if shared.workers[k].network then 1 else 0;
      shared := shared.(channel := shared.channel[1..]);
      shared := shared.(workers := shared.workers - {k});
      active := active[d := active[d] - 1];
      if k.job in jobs && k.job in shared.history {
        var h := shared.history[k.job];
        jobs := jobs[k.job := AfterResult(jobs[k.job], outcome)];
        shared := shared.(history := shared.history[k.job := h.(results := h.results + [outcome])]);
      }
    }

    /** Receive an event of the workers, or time out if there is none. A merge that runs out of numbers panics. */
    method ReceiveOne() returns (panicked: bool, ghost l: Label)
      requires |active| == 2
      requires forall i :: 0 <= i < |shared.channel| ==> shared.channel[i].key in shared.workers
      requires forall j :: j in jobs ==> jobs[j].nextId <= MAX_ENTRY_ID
      modifies this
      ensures panicked ==> !ReceiveEnabled(old(At(Receiving)), Receive)
      ensures !panicked ==> ReceiveEnabled(old(At(Receiving)), l) && At(Flushing) == ReceiveStep(old(At(Receiving)), l)
      ensures l == if old(shared.channel) == [] then Timeout else Receive
    {
      if shared.channel == [] {
        return false, Timeout;
      }
      match shared.channel[0] {
        case Batch(k, entries) =>
          panicked := MergeArrived(k, entries);
          return panicked, Receive;
        case Finished(k, outcome) =>
          CountResult(k, outcome);
          return false, Receive;
      }
    }

    /** The phases up to the completion check: together they are one run. */
    method QueuePhases(ghost start: State, ghost labels: seq<Label>)
          returns (completed: set<nat>, ghost all: seq<Label>)
      requires Accounts(start) && Leads(start, labels, At(Retaining(0, 0)))
      modifies this
      ensures completed <= jobs.Keys && Leads(start, all, At(Completing(completed)))
    {
      all := labels;
      for d := 0 to 2
        invariant Leads(start, all,
                  At(if d < 2 then Retaining(d, 0) else Completing(set j | j in jobs && jobs[j].remaining == 0)))
      {
        ghost var mid := At(Retaining(d, 0));
        RunKeepsAccounts(start, all, mid);
        ghost var more := Retain(d);
        all := Joined(start, all, mid, more, At(Spawning(d)));
        mid := At(Spawning(d));
        RunKeepsAccounts(start, all, mid);
        more := StartSources(d);
        all := Joined(start, all, mid, more,
          At(if d == 0 then Retaining(1, 0) else Completing(set j | j in jobs && jobs[j].remaining == 0)));
      }
      completed := set j | j in jobs && jobs[j].remaining == 0;
    }

    /**
     One pass of `loop`: flush, ingress, queues, completion, receive. Unless entry numbers run out,
     the pass is a run of the transition system, so the invariant holds again at its end. In between
     it takes what the input offers, if that is still open, and it ends with the check whether to stop
     or with an event, if there is one.
     */
    method Pass(offers: seq<ReceiveResult>)
      returns (stop: bool, panicked: bool, ghost flushed: seq<Label>, ghost asked: State, ghost taken: seq<Label>,
               ghost queued: State, ghost rest: seq<Label>)
      requires Inv(At(Flushing)) && |offers| == INGRESS_TURN
      requires forall i :: 0 <= i < |offers| && offers[i].Got? ==> DistinctIndices(offers[i].request.sources)
      modifies this
      ensures Leads(old(At(Flushing)), flushed, asked) && asked.pc == Ingress(INGRESS_TURN)
      ensures Leads(asked, taken, queued) && queued.pc == Retaining(0, 0)
      ensures Requested(taken) == if asked.inputOpen then Offered(offers) else []
      ensures !panicked ==> Leads(queued, rest, At(if stop then Stopped else Flushing))
      ensures !panicked && !stop ==> Polls(queued, rest)
      ensures !panicked ==> Inv(At(if stop then Stopped else Flushing))
    {
      hide Leads, Requested;
      ghost var start := At(Flushing);
      flushed := FlushPending();
      asked := At(Ingress(INGRESS_TURN));
      RunKeepsInv(start, flushed, asked);
      InvHasQueues(asked);
      taken := TakeRequests(offers);
      queued := At(Retaining(0, 0));
      RunKeepsInv(asked, taken, queued);
      stop, panicked, rest := Work();
    }

    /** The rest of a pass: queues, completion, receive. */
    method Work() returns (stop: bool, panicked: bool, ghost labels: seq<Label>)
      requires Inv(At(Retaining(0, 0)))
      modifies this
      ensures !panicked ==> Leads(old(At(Retaining(0, 0))), labels, At(if stop then Stopped else Flushing))
      ensures !panicked && !stop ==> Polls(old(At(Retaining(0, 0))), labels)
      ensures !panicked ==> Inv(At(if stop then Stopped else Flushing))
    {
      ghost var start := At(Retaining(0, 0));
      panicked := false;
      var completed;
      completed, labels := QueuePhases(start, []);
      ghost var mid := At(Completing(completed));
      ghost var more;
      stop, more := CompleteJobs(completed);
      labels := Joined(start, labels, mid, more, At(if stop then Stopped else Receiving));
      RunKeepsInv(start, labels, At(if stop then Stopped else Receiving));
      if !stop {
        panicked, labels := AwaitEvent(start, labels);
      }
    }

    method AwaitEvent(ghost start: State, ghost labels: seq<Label>) returns (panicked: bool, ghost all: seq<Label>)
      requires Inv(start) && Leads(start, labels, At(Receiving))
      modifies this
      ensures !panicked ==> Leads(start, all, At(Flushing)) && Inv(At(Flushing)) && Polls(start, all)
    {
      ghost var mid := At(Receiving);
      ghost var world := Interfere(Receiving);
      all := Joined(start, labels, mid, world, At(Receiving));
      mid := At(Receiving);
      ReceivingFacts(start, all, mid);
      ghost var l;
      panicked, l := ReceiveOne();
      if !panicked {
        ghost var before := all;
        all := Extended(start, all, mid, l, At(Flushing));
        assert all[..|all| - 1] == before;
        RunKeepsInv(start, all, At(Flushing));
      }
    }
  }

  lemma InvHasQueues(s: State)
    requires Inv(s)
    ensures |s.queues| == 2
  {
  }

  lemma ReceivingFacts(start: State, labels: seq<Label>, s: State)
    requires Inv(start) && Leads(start, labels, s)
    ensures |s.active| == 2
    ensures forall i :: 0 <= i < |s.channel| ==> s.channel[i].key in s.workers
    ensures forall j :: j in s.jobs ==> s.jobs[j].nextId <= MAX_ENTRY_ID
  {
    RunKeepsInv(start, labels, s);
    assert Merged(s) && ChannelOk(s);
    assert forall j :: j in s.jobs ==> MergedOf(s.jobs[j], s.history[j]);
  }

  lemma QueuedJobLives(start: State, labels: seq<Label>, s: State, d: nat, i: nat)
    requires Accounts(start) && Leads(start, labels, s) && d < 2 && |s.queues| == 2 && i < |s.queues[d]|
    ensures s.queues[d][i].key.job in s.jobs
  {
    RunKeepsAccounts(start, labels, s);
    assert s.queues[d][i].key in QueueKeys(s.queues[d]);
    assert s.queues[d][i].key in Open(s);
  }

  /** Two runs, one after the other. */
  ghost function Joined(s: State, labels: seq<Label>, t: State, more: seq<Label>, u: State): (all: seq<Label>)
    requires Leads(s, labels, t) && Leads(t, more, u)
    ensures Leads(s, all, u) && all == labels + more
  {
    LeadsOn(s, labels, t, more, u);
    labels + more
  }
}
