/**
 The library source scheduler (src/library_loading.rs, `schedule` and `source_batch`) as a labelled
 transition system.

 The state holds what `schedule` keeps in local variables, a program counter, and the world around
 the loop: shared cancellation flags, source workers, the bounded channel they report through, the
 acknowledgements the reader of the output owes, everything the output accepted so far, and a
 history per accepted job. Every label is one atomic action; workers, cancellation and the output's
 reader may act between any two actions of the loop.

 A cancellation check and the use made of it are one action: a cancellation that lands between them
 is the same run with the cancellation moved after the use.
 */
module LibraryScheduler {
  import opened LibraryEntries

  const SOURCE_SLOTS: nat := 4
  const INGRESS_TURN: nat := 32

  datatype Key = Key(job: nat, index: nat)

  // `token` names the shared cancellation flag; distinct requests may share one.
  datatype Request = Request(token: nat, sources: seq<(nat, Path)>, unavailable: nat)

  datatype Source = Source(key: Key, path: Path)

  datatype ErrorKind = NotFound | PermissionDenied | Other

  datatype Outcome = Done(skipped: nat) | Failed(kind: ErrorKind)

  /** `Aggregate`: one live job. */
  datatype Job = Job(
    request: Request,
    remaining: int,
    successes: nat,
    failures: nat,
    skipped: nat,
    error: ErrorKind,
    seen: set<Path>,
    nextId: nat)

  // A batch waiting for the output, `pending` in the source.
  datatype Delivery = Delivery(key: Key, entries: seq<Accepted>)

  datatype SourceEvent =
    | Batch(key: Key, entries: seq<Entry>)
    | Finished(key: Key, outcome: Outcome)

  datatype Reply = NoReply | Acknowledged | HungUp

  datatype WorkerPhase =
    | Reading                         // inside the reader
    | Offering(entries: seq<Entry>)   // past the cancellation check of `source_batch`, about to send
    | Waiting(reply: Reply)           // blocked on the acknowledgement
    | Reported                        // sent its final event

  datatype Worker = Worker(network: bool, phase: WorkerPhase)

  datatype Terminal =
    | JobFinished(skipped: nat, failures: nat)
    | JobFailed(kind: ErrorKind)
    | JobCancelled

  // What the output accepted. Requests already cancelled on arrival get no job number.
  datatype Output =
    | OutBatch(job: nat, entries: seq<Accepted>)
    | OutTerminal(job: nat, terminal: Terminal)
    | OutRefused

  // What happened to an accepted job, kept after the scheduler forgets it.
  datatype History = History(
    request: Request,
    log: seq<Handed>,        // batches its workers sent, in sending order
    arrived: seq<Handed>,    // batches merged into the job
    results: seq<Outcome>,   // final results received from its sources
    dropped: nat)            // sources taken out of the queues by cancellation

  datatype Phase =
    | Flushing
    | Ingress(left: nat)
    | Retaining(domain: nat, at: nat)
    | Spawning(domain: nat)
    | Completing(ids: set<nat>)
    | Checking
    | Receiving
    | Stopped

  datatype State = State(
    pc: Phase,
    jobs: map<nat, Job>,
    queues: seq<seq<Source>>,
    active: seq<int>,
    pending: seq<Delivery>,
    nextJob: nat,
    inputOpen: bool,
    cancelled: set<nat>,
    workers: map<Key, Worker>,
    channel: seq<SourceEvent>,
    held: set<Key>,          // delivered batches whose acknowledgement the output's reader still owns
    output: seq<Output>,
    history: map<nat, History>)

  datatype Label =
    // the world
    | Cancel(tokens: set<nat>)
    | Offer(key: Key, batch: seq<Entry>)
    | Send(key: Key)
    | Resume(key: Key)
    | Finish(key: Key, outcome: Outcome)
    | Answer(key: Key, reply: Reply)
    // the loop
    | FlushSkip | FlushSent | FlushFull | FlushGone | FlushEmpty
    | TakeCancelled(request: Request, told: bool) | Take(request: Request) | IngressClosed | IngressDone
    | Keep | Drop | RetainDone
    | Spawn | SpawnDone
    | TerminalSent(id: nat) | TerminalFull(id: nat) | TerminalGone(id: nat) | TerminalsDone
    | Stop | Continue
    | Receive | Timeout

  function Initial(): State
  {
    State(Flushing, map[], [[], []], [0, 0], [], 0, true, {}, map[], [], {}, [], map[])
  }

  // ---- requests ----

  function SourcePaths(sources: seq<(nat, Path)>): set<Path>
  {
    set i | 0 <= i < |sources| :: sources[i].1
  }

  /** The sources of a request that are queued: the first one under each path. */
  function Admitted(job: nat, sources: seq<(nat, Path)>): (r: seq<Source>)
    ensures |r| <= |sources|
  {
    if sources == [] then []
    else
      var init, last := sources[..|sources| - 1], sources[|sources| - 1];
      Admitted(job, init)
      + if last.1 in SourcePaths(init) then [] else [Source(Key(job, last.0), last.1)]
  }

  predicate OnDomain(source: Source, domain: nat)
  {
    source.path.unc == (domain == 1)
  }

  function ForDomain(sources: seq<Source>, domain: nat): (r: seq<Source>)
  {
    if sources == [] then []
    else
      var last := sources[|sources| - 1];
      ForDomain(sources[..|sources| - 1], domain) + if OnDomain(last, domain) then [last] else []
  }

  function NewJob(request: Request, remaining: nat): Job
  {
    Job(request, remaining, 0, request.unavailable, 0, NotFound, {}, 1)
  }

  predicate DistinctIndices(sources: seq<(nat, Path)>)
  {
    forall i, j :: 0 <= i < j < |sources| ==> sources[i].0 != sources[j].0
  }

  // ---- job bookkeeping ----

  /** `Aggregate::terminal`. */
  function TerminalOf(job: Job, cancelled: bool): Terminal
  {
    if cancelled then JobCancelled
    else if job.successes == 0 && job.failures > 0 && job.seen == {} then JobFailed(job.error)
    else JobFinished(job.skipped, job.failures)
  }

  function MergeError(current: ErrorKind, error: ErrorKind): ErrorKind
  {
    if error == PermissionDenied then PermissionDenied
    else if current != PermissionDenied && error != NotFound then Other
    else current
  }

  /** The job after one of its sources reported its final result. */
  function AfterResult(job: Job, outcome: Outcome): Job
  {
    match outcome
    case Done(skipped) =>
      job.(remaining := job.remaining - 1, successes := job.successes + 1, skipped := job.skipped + skipped)
    case Failed(kind) =>
      job.(remaining := job.remaining - 1, failures := job.failures + 1, error := MergeError(job.error, kind))
  }

  function Tokens(jobs: map<nat, Job>): set<nat>
  {
    set j | j in jobs :: jobs[j].request.token
  }

  function PendingKeys(pending: seq<Delivery>): set<Key>
  {
    set i | 0 <= i < |pending| :: pending[i].key
  }

  function Replied(workers: map<Key, Worker>, keys: set<Key>, reply: Reply): map<Key, Worker>
  {
    map k | k in workers ::
      if k in keys && workers[k].phase == Waiting(NoReply) then workers[k].(phase := Waiting(reply)) else workers[k]
  }

  /** Input closed or output gone: cancel every live job and drop what waits for the output. */
  function ShutDown(s: State): State
  {
    s.(cancelled := s.cancelled + Tokens(s.jobs),
       inputOpen := false,
       pending := [],
       workers := Replied(s.workers, PendingKeys(s.pending), HungUp))
  }

  // ---- cancellation of a job, also after the scheduler forgot it ----

  predicate IsCancelled(s: State, job: nat)
  {
    job in s.history && s.history[job].request.token in s.cancelled
  }

  // ---- steps ----

  predicate WorldEnabled(s: State, l: Label)
  {
    match l
    case Cancel(_) => true
    case Offer(k, _) => k in s.workers && s.workers[k].phase == Reading && !IsCancelled(s, k.job)
    case Send(k) => k in s.workers && s.workers[k].phase.Offering? && |s.channel| < 2 * SOURCE_SLOTS
      && k.job in s.history
    case Resume(k) =>
      k in s.workers && s.workers[k].phase.Waiting? && (s.workers[k].phase.reply != NoReply || IsCancelled(s, k.job))
    case Finish(k, _) => k in s.workers && s.workers[k].phase == Reading && |s.channel| < 2 * SOURCE_SLOTS
    case Answer(k, reply) => k in s.held && reply != NoReply
    case _ => false
  }

  function World(s: State, l: Label): State
    requires WorldEnabled(s, l)
  {
    match l
    case Cancel(tokens) => s.(cancelled := s.cancelled + tokens)
    case Offer(k, batch) => s.(workers := s.workers[k := s.workers[k].(phase := Offering(batch))])
    case Send(k) =>
      var entries := s.workers[k].phase.entries;
      var h := s.history[k.job];
      s.(workers := s.workers[k := s.workers[k].(phase := Waiting(NoReply))],
         channel := s.channel + [Batch(k, entries)],
         history := s.history[k.job := h.(log := h.log + [Handed(k.index, entries)])])
    case Resume(k) => s.(workers := s.workers[k := s.workers[k].(phase := Reading)])
    case Finish(k, outcome) =>
      s.(workers := s.workers[k := s.workers[k].(phase := Reported)], channel := s.channel + [Finished(k, outcome)])
    case Answer(k, reply) => s.(held := s.held - {k}, workers := Replied(s.workers, {k}, reply))
  }

  predicate FlushEnabled(s: State, l: Label)
  {
    && s.pc == Flushing
    && match l
       case FlushEmpty => s.pending == []
       case FlushSkip => s.pending != [] && IsCancelled(s, s.pending[0].key.job)
       case FlushSent | FlushFull | FlushGone => s.pending != [] && !IsCancelled(s, s.pending[0].key.job)
       case _ => false
  }

  function Flush(s: State, l: Label): State
    requires FlushEnabled(s, l)
  {
    if l.FlushSkip? then
      s.(pending := s.pending[1..], workers := Replied(s.workers, {s.pending[0].key}, HungUp))
    else if l.FlushSent? then
      s.(pending := s.pending[1..],
         output := s.output + [OutBatch(s.pending[0].key.job, s.pending[0].entries)],
         held := s.held + {s.pending[0].key})
    else if l.FlushGone? then ShutDown(s).(pc := Ingress(INGRESS_TURN))
    else s.(pc := Ingress(INGRESS_TURN))
  }

  predicate IngressEnabled(s: State, l: Label)
  {
    && s.pc.Ingress?
    && match l
       case IngressDone => true
       case IngressClosed => s.inputOpen && s.pc.left > 0
       case TakeCancelled(r, _) => s.inputOpen && s.pc.left > 0 && r.token in s.cancelled
       case Take(r) => s.inputOpen && s.pc.left > 0 && r.token !in s.cancelled && DistinctIndices(r.sources)
         && |s.queues| == 2
       case _ => false
  }

  function TakeRequest(s: State, r: Request): State
    requires |s.queues| == 2
  {
    var job := s.nextJob + 1;
    var admitted := Admitted(job, r.sources);
    s.(nextJob := job,
       queues := [s.queues[0] + ForDomain(admitted, 0), s.queues[1] + ForDomain(admitted, 1)],
       jobs := s.jobs[job := NewJob(r, |admitted|)],
       history := s.history[job := History(r, [], [], [], 0)])
  }

  function IngressStep(s: State, l: Label): State
    requires IngressEnabled(s, l)
  {
    if l.TakeCancelled? then
      s.(pc := Ingress(s.pc.left - 1), output := if l.told then s.output + [OutRefused] else s.output)
    else if l.Take? then TakeRequest(s, l.request).(pc := Ingress(s.pc.left - 1))
    else if l.IngressClosed? then ShutDown(s).(pc := Retaining(0, 0))
    else s.(pc := Retaining(0, 0))
  }

  predicate QueueEnabled(s: State, l: Label)
  {
    match s.pc
    case Retaining(d, i) =>
      && d < |s.queues|
      && i <= |s.queues[d]|
      && (match l
         case RetainDone => i == |s.queues[d]|
         case Keep => i < |s.queues[d]| && !IsCancelled(s, s.queues[d][i].key.job)
         case Drop => i < |s.queues[d]| && IsCancelled(s, s.queues[d][i].key.job) && s.queues[d][i].key.job in s.jobs
         case _ => false)
    case Spawning(d) =>
      && d < |s.queues| == |s.active|
      && (match l
         case Spawn => s.pending == [] && s.active[d] < SOURCE_SLOTS && s.queues[d] != []
         case SpawnDone => !(s.pending == [] && s.active[d] < SOURCE_SLOTS && s.queues[d] != [])
         case _ => false)
    case _ => false
  }

  function QueueStep(s: State, l: Label): State
    requires QueueEnabled(s, l)
  {
    var d := s.pc.domain;
    if l.Keep? then s.(pc := Retaining(d, s.pc.at + 1))
    else if l.Drop? then
      var i := s.pc.at;
      var job := s.queues[d][i].key.job;
      var h := s.history[job];
      s.(queues := s.queues[d := s.queues[d][..i] + s.queues[d][i + 1..]],
         jobs := s.jobs[job := s.jobs[job].(remaining := s.jobs[job].remaining - 1)],
         history := s.history[job := h.(dropped := h.dropped + 1)])
    else if l.RetainDone? then s.(pc := Spawning(d))
    else if l.Spawn? then
      s.(queues := s.queues[d := s.queues[d][1..]],
         active := s.active[d := s.active[d] + 1],
         workers := s.workers[s.queues[d][0].key := Worker(d == 1, Reading)])
    else
      s.(pc := if d == 0 then Retaining(1, 0) else Completing(set j | j in s.jobs && s.jobs[j].remaining == 0))
  }

  predicate TerminalEnabled(s: State, l: Label)
  {
    match s.pc
    case Completing(ids) =>
      (match l
       case TerminalSent(id) => id in ids && id in s.jobs
       case TerminalFull(id) => id in ids && id in s.jobs
       case TerminalGone(id) => id in ids && id in s.jobs
       case TerminalsDone => ids == {}
       case _ => false)
    case Checking =>
      (match l
       case Stop => !s.inputOpen && s.jobs == map[] && s.pending == []
       case Continue => !(!s.inputOpen && s.jobs == map[] && s.pending == [])
       case _ => false)
    case _ => false
  }

  function TerminalStep(s: State, l: Label): State
    requires TerminalEnabled(s, l)
  {
    if l.TerminalSent? then
      var id := l.id;
      s.(pc := Completing(s.pc.ids - {id}),
         jobs := s.jobs - {id},
         output := s.output + [OutTerminal(id, TerminalOf(s.jobs[id], IsCancelled(s, id)))])
    else if l.TerminalFull? then
      var id := l.id;
      s.(pc := Completing(s.pc.ids - {id}), jobs := if IsCancelled(s, id) then s.jobs - {id} else s.jobs)
    else if l.TerminalGone? then
      var id := l.id;
      var t := ShutDown(s);
      t.(pc := Completing(s.pc.ids - {id}), jobs := s.jobs - {id})
    else if l.TerminalsDone? then s.(pc := Checking)
    else if l.Stop? then s.(pc := Stopped)
    else s.(pc := Receiving)
  }

  /** A batch merges only while its job lives uncancelled, and only if entry numbers do not run out. */
  predicate ReceiveEnabled(s: State, l: Label)
  {
    && s.pc == Receiving
    && match l
       case Timeout => true
       case Receive =>
         s.channel != []
         && (match s.channel[0]
             case Batch(k, entries) => Merges(s, k) ==> Fits(s.jobs[k.job], k.index, entries)
             case Finished(k, _) => k in s.workers && |s.active| == 2)
       case _ => false
  }

  predicate Merges(s: State, k: Key)
  {
    k.job in s.jobs && k.job in s.history && !IsCancelled(s, k.job)
  }

  /** No overflow of the 32-bit entry number (`checked_add` in `Aggregate::batch`). */
  predicate Fits(job: Job, source: nat, entries: seq<Entry>)
  {
    job.nextId + |Fresh(job.seen, Tagged(source, entries))| <= MAX_ENTRY_ID
  }

  function ReceiveBatch(s: State, k: Key, entries: seq<Entry>): State
    requires s.channel != []
  {
    if Merges(s, k) then
      var job, h := s.jobs[k.job], s.history[k.job];
      var items := Tagged(k.index, entries);
      var kept := Fresh(job.seen, items);
      var t := s.(
        channel := s.channel[1..],
        jobs := s.jobs[k.job := job.(seen := job.seen + Paths(items), nextId := job.nextId + |kept|)],
        history := s.history[k.job := h.(arrived := h.arrived + [Handed(k.index, entries)])]);
      if kept == [] then t.(workers := Replied(s.workers, {k}, Acknowledged))
      else t.(pending := s.pending + [Delivery(k, Numbered(job.nextId, kept))])
    else s.(channel := s.channel[1..], workers := Replied(s.workers, {k}, HungUp))
  }

  function ReceiveDone(s: State, k: Key, outcome: Outcome): State
    requires s.channel != [] && k in s.workers && |s.active| == 2
  {
    var d := if s.workers[k].network then 1 else 0;
    var t := s.(channel := s.channel[1..], workers := s.workers - {k}, active := s.active[d := s.active[d] - 1]);
    if k.job in s.jobs && k.job in s.history then
      var h := s.history[k.job];
      t.(jobs := s.jobs[k.job := AfterResult(s.jobs[k.job], outcome)],
         history := s.history[k.job := h.(results := h.results + [outcome])])
    else t
  }

  function ReceiveStep(s: State, l: Label): State
    requires ReceiveEnabled(s, l)
  {
    if l.Receive? then
      (match s.channel[0]
       case Batch(k, entries) => ReceiveBatch(s, k, entries).(pc := Flushing)
       case Finished(k, outcome) => ReceiveDone(s, k, outcome).(pc := Flushing))
    else s.(pc := Flushing)
  }

  predicate Enabled(s: State, l: Label)
  {
    WorldEnabled(s, l) || FlushEnabled(s, l) || IngressEnabled(s, l) || QueueEnabled(s, l) || TerminalEnabled(s, l)
    || ReceiveEnabled(s, l)
  }

  function After(s: State, l: Label): State
    requires Enabled(s, l)
  {
    if WorldEnabled(s, l) then World(s, l)
    else if FlushEnabled(s, l) then Flush(s, l)
    else if IngressEnabled(s, l) then IngressStep(s, l)
    else if QueueEnabled(s, l) then QueueStep(s, l)
    else if TerminalEnabled(s, l) then TerminalStep(s, l)
    else ReceiveStep(s, l)
  }

  /** Executing `labels` one after the other takes `s` to `t`. */
  ghost predicate Leads(s: State, labels: seq<Label>, t: State)
    decreases |labels|
  {
    if labels == [] then s == t
    else Enabled(s, labels[0]) && Leads(After(s, labels[0]), labels[1..], t)
  }

  lemma {:induction false} LeadsOn(s: State, labels: seq<Label>, t: State, more: seq<Label>, u: State)
    requires Leads(s, labels, t) && Leads(t, more, u)
    ensures Leads(s, labels + more, u)
    decreases |labels|
  {
    if labels == [] {
      assert labels + more == more;
    } else {
      LeadsOn(After(s, labels[0]), labels[1..], t, more, u);
      assert (labels + more)[1..] == labels[1..] + more;
    }
  }
}
