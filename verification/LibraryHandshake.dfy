/**
 The acknowledgement protocol between source workers, the scheduler and the reader of the output.

 A worker sends one batch and blocks until it is answered, cancelled or hung up on. Hence an
 undelivered batch pins its worker, unless its job is cancelled, and no source has two of them.
 */
module LibraryHandshake {
  import opened Prelude
  import opened LibraryEntries
  import opened LibraryScheduler
  import opened LibraryAccounts

  /** `k` has a batch in the channel. */
  ghost predicate InChannel(channel: seq<SourceEvent>, k: Key)
  {
    exists i :: 0 <= i < |channel| && channel[i].Batch? && channel[i].key == k
  }

  /** `k` has sent its final event and the scheduler has not read it. */
  ghost predicate DoneInChannel(channel: seq<SourceEvent>, k: Key)
  {
    exists i :: 0 <= i < |channel| && channel[i].Finished? && channel[i].key == k
  }

  ghost predicate Pinned(s: State, k: Key)
  {
    IsCancelled(s, k.job) || (k in s.workers && s.workers[k].phase == Waiting(NoReply))
  }

  /** Per source the channel holds at most one batch and at most one final event, in this order. */
  ghost predicate ChannelOrder(channel: seq<SourceEvent>)
  {
    forall i, j :: 0 <= i < j < |channel| && channel[i].key == channel[j].key ==>
      channel[i].Batch? && channel[j].Finished?
  }

  /** `k` has a batch the output did not get yet. */
  ghost predicate Undelivered(s: State, k: Key)
  {
    InChannel(s.channel, k) || k in PendingKeys(s.pending)
  }

  ghost predicate DistinctDeliveries(pending: seq<Delivery>)
  {
    forall i, j :: 0 <= i < j < |pending| ==> pending[i].key != pending[j].key
  }

  ghost predicate ChannelOk(s: State)
  {
    && |s.channel| <= 2 * SOURCE_SLOTS
    && ChannelOrder(s.channel)
    && (forall i :: 0 <= i < |s.channel| ==> s.channel[i].key in s.workers)
    && (forall k :: k in s.workers ==> (s.workers[k].phase == Reported <==> DoneInChannel(s.channel, k)))
  }

  ghost predicate PendingOk(s: State)
  {
    && DistinctDeliveries(s.pending)
    && (forall i :: 0 <= i < |s.pending| ==> s.pending[i].key.job in s.history && s.pending[i].entries != [])
    && (forall k :: k in PendingKeys(s.pending) ==> !InChannel(s.channel, k))
  }

  ghost predicate PinnedOk(s: State)
  {
    forall k :: Undelivered(s, k) ==> Pinned(s, k)
  }

  /** Between its cancellation check and its send a worker has nothing undelivered. */
  ghost predicate OffersOk(s: State)
  {
    forall k :: k in s.workers && s.workers[k].phase.Offering? ==> !Undelivered(s, k)
  }

  /** An acknowledgement still owed answers the batch its worker waits for, unless cancelled. */
  ghost predicate HeldOk(s: State)
  {
    forall k :: k in s.held && k in s.workers && !IsCancelled(s, k.job) ==>
      s.workers[k].phase == Waiting(NoReply) && !Undelivered(s, k)
  }

  /** Running sources together with sources that still wait for the output: at most eight. */
  ghost predicate Bounded(s: State)
  {
    |PendingKeys(s.pending) + s.workers.Keys| <= 2 * SOURCE_SLOTS
  }

  /** Keys with an undelivered or unanswered batch were started: they are in no queue. */
  ghost predicate Started(s: State)
  {
    && |s.queues| == 2
    && (forall k :: k in s.held || k in PendingKeys(s.pending) ==>
          k.job in s.history && k !in QueueKeys(s.queues[0]) && k !in QueueKeys(s.queues[1]))
  }

  ghost predicate Handshake(s: State)
  {
    ChannelOk(s) && PendingOk(s) && PinnedOk(s) && OffersOk(s) && HeldOk(s) && Bounded(s) && Started(s)
  }

  // ---- channel updates ----

  lemma ChannelSnoc(channel: seq<SourceEvent>, e: SourceEvent)
    ensures forall k :: InChannel(channel + [e], k) <==> InChannel(channel, k) || (e.Batch? && e.key == k)
    ensures forall k :: DoneInChannel(channel + [e], k) <==> DoneInChannel(channel, k) || (e.Finished? && e.key == k)
  {
    var t := channel + [e];
    forall k ensures InChannel(t, k) <==> InChannel(channel, k) || (e.Batch? && e.key == k) {
      if InChannel(channel, k) {
        var i :| 0 <= i < |channel| && channel[i].Batch? && channel[i].key == k;
        assert t[i].Batch? && t[i].key == k;
      }
      assert t[|channel|] == e;
    }
    forall k ensures DoneInChannel(t, k) <==> DoneInChannel(channel, k) || (e.Finished? && e.key == k) {
      if DoneInChannel(channel, k) {
        var i :| 0 <= i < |channel| && channel[i].Finished? && channel[i].key == k;
        assert t[i].Finished? && t[i].key == k;
      }
      assert t[|channel|] == e;
    }
  }

  lemma ChannelTail(channel: seq<SourceEvent>)
    requires channel != [] && ChannelOrder(channel)
    ensures ChannelOrder(channel[1..])
    ensures forall k :: InChannel(channel[1..], k)
              <==> InChannel(channel, k) && !(channel[0].Batch? && channel[0].key == k)
    ensures forall k :: DoneInChannel(channel[1..], k)
              <==> DoneInChannel(channel, k) && !(channel[0].Finished? && channel[0].key == k)
  {
    var e, t := channel[0], channel[1..];
    forall k ensures InChannel(t, k) <==> InChannel(channel, k) && !(e.Batch? && e.key == k) {
      if InChannel(t, k) {
        var i :| 0 <= i < |t| && t[i].Batch? && t[i].key == k;
        assert channel[i + 1] == t[i];
      }
      if InChannel(channel, k) && !(e.Batch? && e.key == k) {
        var i :| 0 <= i < |channel| && channel[i].Batch? && channel[i].key == k;
        assert t[i - 1] == channel[i];
      }
    }
    forall k ensures DoneInChannel(t, k) <==> DoneInChannel(channel, k) && !(e.Finished? && e.key == k) {
      if DoneInChannel(t, k) {
        var i :| 0 <= i < |t| && t[i].Finished? && t[i].key == k;
        assert channel[i + 1] == t[i];
      }
      if DoneInChannel(channel, k) && !(e.Finished? && e.key == k) {
        var i :| 0 <= i < |channel| && channel[i].Finished? && channel[i].key == k;
        assert t[i - 1] == channel[i];
      }
    }
  }

  lemma PendingSnoc(pending: seq<Delivery>, d: Delivery)
    ensures PendingKeys(pending + [d]) == PendingKeys(pending) + {d.key}
  {
    forall k | k in PendingKeys(pending) + {d.key} ensures k in PendingKeys(pending + [d]) {
      if k in PendingKeys(pending) {
        var i :| 0 <= i < |pending| && pending[i].key == k;
        assert (pending + [d])[i].key == k;
      } else {
        assert (pending + [d])[|pending|].key == k;
      }
    }
  }

  lemma PendingTail(pending: seq<Delivery>)
    requires pending != [] && DistinctDeliveries(pending)
    ensures PendingKeys(pending[1..]) == PendingKeys(pending) - {pending[0].key}
    ensures DistinctDeliveries(pending[1..])
  {
    forall k | k in PendingKeys(pending) - {pending[0].key} ensures k in PendingKeys(pending[1..]) {
      var i :| 0 <= i < |pending| && pending[i].key == k;
      assert pending[1..][i - 1].key == k;
    }
  }

  // ---- some workers change phase, or flags are raised ----

  /** From `s` to `t` at most the phases of the workers `ks`, the flags and the owed answers change. */
  ghost predicate OnlyPhase(s: State, t: State, ks: set<Key>)
  {
    && t.channel == s.channel && t.pending == s.pending && SameTokens(s, t)
    && t.queues == s.queues
    && s.cancelled <= t.cancelled && t.held <= s.held
    && t.workers.Keys == s.workers.Keys
    && (forall x :: x in s.workers && x !in ks ==> t.workers[x] == s.workers[x])
  }

  ghost predicate SameTokens(s: State, t: State)
  {
    && t.history.Keys == s.history.Keys
    && (forall j :: j in s.history ==> t.history[j].request == s.history[j].request)
  }

  ghost predicate WaitsUndisturbed(s: State, k: Key)
  {
    k in s.workers && !IsCancelled(s, k.job) ==> s.workers[k].phase == Waiting(NoReply) && !Undelivered(s, k)
  }

  lemma OnlyPhaseChannel(s: State, t: State, ks: set<Key>)
    requires ChannelOk(s) && OnlyPhase(s, t, ks)
    requires forall k :: k in ks && k in s.workers ==>
               (t.workers[k].phase == Reported <==> s.workers[k].phase == Reported)
    ensures ChannelOk(t)
  {
  }

  lemma OnlyPhasePinned(s: State, t: State, ks: set<Key>)
    requires PinnedOk(s) && OnlyPhase(s, t, ks)
    requires forall k :: k in ks && Undelivered(s, k) ==> Pinned(t, k)
    ensures PinnedOk(t)
  {
    forall x | Undelivered(t, x) ensures Pinned(t, x) {
      assert Undelivered(s, x);
      assert Pinned(s, x);
    }
  }

  lemma OnlyPhaseOffers(s: State, t: State, ks: set<Key>)
    requires OffersOk(s) && OnlyPhase(s, t, ks)
    requires forall k :: k in ks && k in s.workers && t.workers[k].phase.Offering? ==> !Undelivered(s, k)
    ensures OffersOk(t)
  {
    assert forall x :: Undelivered(t, x) == Undelivered(s, x);
  }

  lemma OnlyPhaseHeld(s: State, t: State, ks: set<Key>)
    requires HeldOk(s) && OnlyPhase(s, t, ks)
    requires forall k :: k in ks && k in t.held ==> WaitsUndisturbed(t, k)
    ensures HeldOk(t)
  {
    assert forall x :: Undelivered(t, x) == Undelivered(s, x);
    forall k | k in t.held && k in t.workers && !IsCancelled(t, k.job)
      ensures t.workers[k].phase == Waiting(NoReply) && !Undelivered(t, k)
    {
      if k in ks {
        assert WaitsUndisturbed(t, k);
      } else {
        assert !IsCancelled(s, k.job);
      }
    }
  }

  lemma OnlyPhaseKeeps(s: State, t: State, ks: set<Key>)
    requires Handshake(s) && OnlyPhase(s, t, ks)
    requires forall k :: k in ks && k in s.workers ==>
               (t.workers[k].phase == Reported <==> s.workers[k].phase == Reported)
    requires forall k :: k in ks && Undelivered(s, k) ==> Pinned(t, k)
    requires forall k :: k in ks && k in s.workers && t.workers[k].phase.Offering? ==> !Undelivered(s, k)
    requires forall k :: k in ks && k in t.held ==> WaitsUndisturbed(t, k)
    ensures Handshake(t)
  {
    OnlyPhaseChannel(s, t, ks);
    OnlyPhasePinned(s, t, ks);
    OnlyPhaseOffers(s, t, ks);
    OnlyPhaseHeld(s, t, ks);
  }

  lemma CancelKeepsHandshake(s: State, tokens: set<nat>)
    requires Handshake(s)
    ensures Handshake(s.(cancelled := s.cancelled + tokens))
  {
    OnlyPhaseKeeps(s, s.(cancelled := s.cancelled + tokens), {});
  }

  lemma OfferKeepsHandshake(s: State, k: Key, batch: seq<Entry>)
    requires Handshake(s) && WorldEnabled(s, Offer(k, batch))
    ensures Handshake(World(s, Offer(k, batch)))
  {
    assert !Undelivered(s, k);
    OnlyPhaseKeeps(s, World(s, Offer(k, batch)), {k});
  }

  lemma ResumeKeepsHandshake(s: State, k: Key)
    requires Handshake(s) && WorldEnabled(s, Resume(k))
    ensures Handshake(World(s, Resume(k)))
  {
    hide Bounded, PendingOk;
    OnlyPhaseKeeps(s, World(s, Resume(k)), {k});
  }

  /** Answering workers that have nothing undelivered, or are cancelled anyway, disturbs nothing. */
  lemma RepliedKeepsHandshake(s: State, ks: set<Key>, reply: Reply)
    requires Handshake(s) && reply != NoReply
    requires forall k :: k in ks ==> IsCancelled(s, k.job) || (!Undelivered(s, k) && (k in s.held ==> k !in s.workers))
    ensures Handshake(s.(workers := Replied(s.workers, ks, reply)))
  {
    hide ChannelOk, PendingOk, Bounded, Started, PinnedOk;
    OnlyPhaseKeeps(s, s.(workers := Replied(s.workers, ks, reply)), ks);
  }

  lemma AnswerKeepsHandshake(s: State, k: Key, reply: Reply)
    requires Handshake(s) && WorldEnabled(s, Answer(k, reply))
    ensures Handshake(World(s, Answer(k, reply)))
  {
    var mid := s.(held := s.held - {k});
    OnlyPhaseKeeps(s, mid, {});
    assert forall x :: Undelivered(mid, x) == Undelivered(s, x);
    if k in s.workers || IsCancelled(s, k.job) {
      RepliedKeepsHandshake(mid, {k}, reply);
    } else {
      assert !Pinned(s, k);
      RepliedKeepsHandshake(mid, {k}, reply);
    }
  }

  // ---- a worker sends ----

  /** From `s` to `t` worker `k` moves on and `e` of `k` enters the channel. */
  ghost predicate SendsEvent(s: State, t: State, k: Key, e: SourceEvent)
  {
    && k in s.workers && e.key == k
    && t.channel == s.channel + [e] && t.pending == s.pending && t.cancelled == s.cancelled && t.held == s.held
    && t.workers.Keys == s.workers.Keys
    && t.queues == s.queues && SameTokens(s, t)
    && (forall x :: x in s.workers && x != k ==> t.workers[x] == s.workers[x])
  }

  lemma SendsEventChannel(s: State, t: State, k: Key, e: SourceEvent)
    requires ChannelOk(s) && SendsEvent(s, t, k, e) && |s.channel| < 2 * SOURCE_SLOTS
    requires !DoneInChannel(s.channel, k) && (e.Batch? ==> !InChannel(s.channel, k))
    requires t.workers[k].phase == Reported <==> e.Finished?
    ensures ChannelOk(t)
  {
    ChannelSnoc(s.channel, e);
    forall i, j | 0 <= i < j < |t.channel| && t.channel[i].key == t.channel[j].key
      ensures t.channel[i].Batch? && t.channel[j].Finished?
    {
      if j == |s.channel| {
        assert t.channel[i] == s.channel[i];
      }
    }
  }

  lemma SendsEventRest(s: State, t: State, k: Key, e: SourceEvent)
    requires Handshake(s) && SendsEvent(s, t, k, e)
    requires e.Batch? ==> t.workers[k].phase == Waiting(NoReply) && !Undelivered(s, k) && s.workers[k].phase.Offering?
    requires e.Finished? ==> t.workers[k].phase == Reported && s.workers[k].phase == Reading
    ensures PendingOk(t) && PinnedOk(t) && OffersOk(t) && HeldOk(t) && Started(t)
  {
    hide ChannelOk, ChannelOrder, DoneInChannel, InChannel, DistinctDeliveries, QueueKeys, Bounded;
    ChannelSnoc(s.channel, e);
    assert forall x: Key :: IsCancelled(t, x.job) == IsCancelled(s, x.job);
    assert forall x :: Undelivered(t, x) == (Undelivered(s, x) || (e.Batch? && x == k));
  }

  lemma SendKeepsHandshake(s: State, k: Key)
    requires Handshake(s) && WorldEnabled(s, Send(k))
    ensures Handshake(World(s, Send(k)))
  {
    var t := World(s, Send(k));
    var e := Batch(k, s.workers[k].phase.entries);
    assert !Undelivered(s, k);
    SendsEventChannel(s, t, k, e);
    SendsEventRest(s, t, k, e);
  }

  lemma FinishKeepsHandshake(s: State, k: Key, outcome: Outcome)
    requires Handshake(s) && WorldEnabled(s, Finish(k, outcome))
    ensures Handshake(World(s, Finish(k, outcome)))
  {
    hide ChannelOrder, InChannel, DoneInChannel, DistinctDeliveries, PendingKeys, QueueKeys;
    var t := World(s, Finish(k, outcome));
    SendsEventChannel(s, t, k, Finished(k, outcome));
    SendsEventRest(s, t, k, Finished(k, outcome));
  }

  lemma WorldKeepsHandshake(s: State, l: Label)
    requires Handshake(s) && WorldEnabled(s, l)
    ensures Handshake(World(s, l))
  {
    match l
    case Cancel(tokens) => CancelKeepsHandshake(s, tokens);
    case Offer(k, batch) => OfferKeepsHandshake(s, k, batch);
    case Send(k) => SendKeepsHandshake(s, k);
    case Resume(k) => ResumeKeepsHandshake(s, k);
    case Finish(k, outcome) => FinishKeepsHandshake(s, k, outcome);
    case Answer(k, reply) => AnswerKeepsHandshake(s, k, reply);
    case _ => assert false;
  }

  // ---- the loop ----

  /** Dropping deliveries keeps every rule: there is only less undelivered. */
  lemma FewerKeepsHandshake(s: State, pending: seq<Delivery>)
    requires Handshake(s) && DistinctDeliveries(pending)
    requires forall d :: d in pending ==> d in s.pending
    ensures Handshake(s.(pending := pending))
    ensures forall x :: Undelivered(s.(pending := pending), x) <==> InChannel(s.channel, x) || x in PendingKeys(pending)
  {
    var t := s.(pending := pending);
    forall k | k in PendingKeys(pending) ensures k in PendingKeys(s.pending) {
      var i :| 0 <= i < |pending| && pending[i].key == k;
      assert pending[i] in s.pending;
    }
    FewerUndelivered(s, t);
    forall i | 0 <= i < |pending| ensures pending[i].key.job in s.history && pending[i].entries != [] {
      assert pending[i] in s.pending;
    }
    SubsetCount(PendingKeys(pending) + s.workers.Keys, PendingKeys(s.pending) + s.workers.Keys);
  }

  lemma FewerUndelivered(s: State, t: State)
    requires PinnedOk(s) && OffersOk(s) && HeldOk(s)
    requires t == s.(pending := t.pending) && PendingKeys(t.pending) <= PendingKeys(s.pending)
    ensures PinnedOk(t) && OffersOk(t) && HeldOk(t)
  {
    assert forall x :: Undelivered(t, x) ==> Undelivered(s, x);
    assert forall x: Key :: IsCancelled(t, x.job) == IsCancelled(s, x.job);
  }

  /** Taking the head of `pending` away leaves nothing of its source. */
  lemma PopKeepsHandshake(s: State)
    requires Handshake(s) && s.pending != []
    ensures Handshake(s.(pending := s.pending[1..]))
    ensures !Undelivered(s.(pending := s.pending[1..]), s.pending[0].key)
  {
    PendingTail(s.pending);
    assert s.pending[0].key in PendingKeys(s.pending);
    FewerKeepsHandshake(s, s.pending[1..]);
  }

  lemma SentKeepsHandshake(s: State)
    requires Handshake(s) && FlushEnabled(s, FlushSent)
    ensures Handshake(Flush(s, FlushSent))
  {
    var k := s.pending[0].key;
    var mid := s.(pending := s.pending[1..]);
    var t := Flush(s, FlushSent);
    PopKeepsHandshake(s);
    assert k in PendingKeys(s.pending) && Undelivered(s, k) && Pinned(s, k);
    assert forall x :: Undelivered(t, x) == Undelivered(mid, x);
    assert forall x: Key :: IsCancelled(t, x.job) == IsCancelled(mid, x.job);
  }

  lemma SkipKeepsHandshake(s: State)
    requires Handshake(s) && FlushEnabled(s, FlushSkip)
    ensures Handshake(Flush(s, FlushSkip))
  {
    PopKeepsHandshake(s);
    RepliedKeepsHandshake(s.(pending := s.pending[1..]), {s.pending[0].key}, HungUp);
  }

  lemma ShutDownKeepsHandshake(s: State)
    requires Handshake(s) && Owned(s)
    ensures Handshake(ShutDown(s))
  {
    var flagged := s.(cancelled := s.cancelled + Tokens(s.jobs));
    CancelKeepsHandshake(s, Tokens(s.jobs));
    var cleared := flagged.(pending := []);
    FewerKeepsHandshake(flagged, []);
    forall k | k in PendingKeys(s.pending)
      ensures IsCancelled(cleared, k.job) || (!Undelivered(cleared, k) && (k in cleared.held ==> k !in cleared.workers))
    {
      if k in s.workers {
        assert k in Open(s);
        assert s.jobs[k.job].request.token in Tokens(s.jobs);
      }
    }
    RepliedKeepsHandshake(cleared, PendingKeys(s.pending), HungUp);
    SamePartsKeep(cleared.(workers := Replied(cleared.workers, PendingKeys(s.pending), HungUp)), ShutDown(s));
  }

  /** The handshake does not look at the counters, the output or the program counter. */
  lemma SamePartsKeep(s: State, t: State)
    requires Handshake(s)
    requires t.channel == s.channel && t.pending == s.pending && t.workers == s.workers && t.held == s.held
    requires t.cancelled == s.cancelled && t.queues == s.queues && SameTokens(s, t)
    ensures Handshake(t)
  {
    OnlyPhaseKeeps(s, t, {});
  }

  lemma FlushKeepsHandshake(s: State, l: Label)
    requires Handshake(s) && Owned(s) && FlushEnabled(s, l)
    ensures Handshake(Flush(s, l))
  {
    if l.FlushSkip? {
      SkipKeepsHandshake(s);
    } else if l.FlushSent? {
      SentKeepsHandshake(s);
    } else if l.FlushGone? {
      ShutDownKeepsHandshake(s);
      SamePartsKeep(ShutDown(s), Flush(s, l));
    } else {
      SamePartsKeep(s, Flush(s, l));
    }
  }

  // ---- ingress: a new job touches nothing old ----

  lemma NewJobKeepsHandshake(s: State, t: State, added: set<Key>)
    requires Handshake(s) && Owned(s) && |t.queues| == 2
    requires t.channel == s.channel && t.pending == s.pending && t.workers == s.workers && t.held == s.held
    requires t.cancelled == s.cancelled
    requires s.history.Keys <= t.history.Keys
    requires forall j :: j in s.history ==> t.history[j] == s.history[j]
    requires forall k :: k in added ==> k.job !in s.history
    requires QueueKeys(t.queues[0]) <= QueueKeys(s.queues[0]) + added
    requires QueueKeys(t.queues[1]) <= QueueKeys(s.queues[1]) + added
    ensures Handshake(t)
  {
    assert forall x :: Undelivered(t, x) == Undelivered(s, x);
    forall k | k in s.workers ensures k.job in s.history {
      assert k in Open(s);
    }
    assert forall x: Key :: x.job in s.history ==> IsCancelled(t, x.job) == IsCancelled(s, x.job);
  }

  lemma TakeQueueKeys(s: State, r: Request)
    requires Owned(s) && DistinctIndices(r.sources)
    ensures var added := QueueKeys(Admitted(s.nextJob + 1, r.sources));
            && (forall k :: k in added ==> k.job !in s.history)
            && QueueKeys(TakeRequest(s, r).queues[0]) <= QueueKeys(s.queues[0]) + added
            && QueueKeys(TakeRequest(s, r).queues[1]) <= QueueKeys(s.queues[1]) + added
  {
    hide Admitted, DistinctIndices;
    var job := s.nextJob + 1;
    var admitted := Admitted(job, r.sources);
    AdmittedDistinct(job, r.sources);
    forall k | k in QueueKeys(admitted) ensures k.job !in s.history {
      AdmittedIndex(job, r.sources, k);
    }
    ForDomainKeys(admitted);
    QueueKeysAppend(s.queues[0], ForDomain(admitted, 0));
    QueueKeysAppend(s.queues[1], ForDomain(admitted, 1));
  }

  lemma TakeKeepsHandshake(s: State, r: Request)
    requires Handshake(s) && Accounts(s) && DistinctIndices(r.sources)
    ensures Handshake(TakeRequest(s, r))
  {
    TakeQueueKeys(s, r);
    NewJobKeepsHandshake(s, TakeRequest(s, r), QueueKeys(Admitted(s.nextJob + 1, r.sources)));
  }

  lemma IngressKeepsHandshake(s: State, l: Label)
    requires Handshake(s) && Accounts(s) && IngressEnabled(s, l)
    ensures Handshake(IngressStep(s, l))
  {
    if l.Take? {
      TakeKeepsHandshake(s, l.request);
      SamePartsKeep(TakeRequest(s, l.request), IngressStep(s, l));
    } else if l.IngressClosed? {
      ShutDownKeepsHandshake(s);
      SamePartsKeep(ShutDown(s), IngressStep(s, l));
    } else {
      SamePartsKeep(s, IngressStep(s, l));
    }
  }

  // ---- queues ----

  lemma ShorterQueuesKeep(s: State, t: State)
    requires Handshake(s) && |t.queues| == 2
    requires t.channel == s.channel && t.pending == s.pending && t.workers == s.workers && t.held == s.held
    requires t.cancelled == s.cancelled && SameTokens(s, t)
    requires QueueKeys(t.queues[0]) <= QueueKeys(s.queues[0])
    requires QueueKeys(t.queues[1]) <= QueueKeys(s.queues[1])
    ensures Handshake(t)
  {
    SamePartsKeep(s, t.(queues := s.queues));
    assert forall x :: Undelivered(t, x) == Undelivered(s, x);
    assert forall x: Key :: IsCancelled(t, x.job) == IsCancelled(s, x.job);
  }

  lemma DropKeepsHandshake(s: State)
    requires Handshake(s) && Accounts(s) && QueueEnabled(s, Drop)
    ensures Handshake(QueueStep(s, Drop))
  {
    hide ChannelOk, PendingOk, PinnedOk, OffersOk, HeldOk, Bounded, Counted, Owned, Slots;
    var d := s.pc.domain;
    var t := QueueStep(s, Drop);
    QueueKeysCut(s.queues[d], s.pc.at);
    assert t.queues[1 - d] == s.queues[1 - d];
    ShorterQueuesKeep(s, t);
  }

  lemma WorkersCount(s: State)
    requires Slots(s)
    ensures |s.workers.Keys| <= 2 * SOURCE_SLOTS
  {
    var a, b := OnNetwork(s.workers, false), OnNetwork(s.workers, true);
    assert s.workers.Keys == a + b;
    assert a !! b;
  }

  /** A fresh worker starts with nothing undelivered and nothing owed. */
  lemma StartKeepsHandshake(s: State, t: State, k: Key, network: bool)
    requires Handshake(s) && s.pending == [] && k !in s.workers && k !in s.held
    requires t == s.(workers := s.workers[k := Worker(network, Reading)])
    requires |t.workers.Keys| <= 2 * SOURCE_SLOTS
    ensures Handshake(t)
  {
    hide ChannelOk, PinnedOk, OffersOk, HeldOk, InChannel, QueueKeys, DistinctDeliveries;
    StartChannel(s, t, k, network);
    StartPins(s, t, k, network);
    assert PendingKeys(t.pending) + t.workers.Keys == t.workers.Keys;
  }

  lemma StartPins(s: State, t: State, k: Key, network: bool)
    requires PinnedOk(s) && OffersOk(s) && HeldOk(s) && k !in s.workers && k !in s.held && s.pending == []
    requires ChannelOk(s)
    requires t == s.(workers := s.workers[k := Worker(network, Reading)])
    ensures PinnedOk(t) && OffersOk(t) && HeldOk(t)
  {
    hide PendingKeys, InChannel, ChannelOk;
    forall x | Undelivered(t, x) ensures Pinned(t, x) {
      assert Undelivered(s, x) && Pinned(s, x);
    }
  }

  lemma StartChannel(s: State, t: State, k: Key, network: bool)
    requires ChannelOk(s) && k !in s.workers && t == s.(workers := s.workers[k := Worker(network, Reading)])
    ensures ChannelOk(t)
  {
    hide ChannelOrder;
    forall i | 0 <= i < |s.channel| ensures s.channel[i].key != k {
    }
  }

  lemma SpawnKeepsHandshake(s: State)
    requires Handshake(s) && Accounts(s) && QueueEnabled(s, Spawn)
    ensures Handshake(QueueStep(s, Spawn))
  {
    hide ChannelOk, PendingOk, PinnedOk, OffersOk, HeldOk, Bounded, Owned, Counted, OnNetwork, Open;
    var d := s.pc.domain;
    var k := s.queues[d][0].key;
    var t := QueueStep(s, Spawn);
    assert k in QueueKeys(s.queues[d]);
    QueueKeepsAccounts(s, Spawn);
    WorkersCount(t);
    StartKeepsHandshake(s, s.(workers := t.workers), k, d == 1);
    QueueKeysCut(s.queues[d], 0);
    assert s.queues[d][..0] + s.queues[d][0 + 1..] == s.queues[d][1..];
    assert t.queues[1 - d] == s.queues[1 - d];
    ShorterQueuesKeep(s.(workers := t.workers), t);
  }

  lemma QueueKeepsHandshake(s: State, l: Label)
    requires Handshake(s) && Accounts(s) && QueueEnabled(s, l)
    ensures Handshake(QueueStep(s, l))
  {
    if l.Drop? {
      DropKeepsHandshake(s);
    } else if l.Spawn? {
      SpawnKeepsHandshake(s);
    } else {
      SamePartsKeep(s, QueueStep(s, l));
    }
  }

  // ---- terminals ----

  lemma TerminalKeepsHandshake(s: State, l: Label)
    requires Handshake(s) && Owned(s) && TerminalEnabled(s, l)
    ensures Handshake(TerminalStep(s, l))
  {
    if l.TerminalGone? {
      ShutDownKeepsHandshake(s);
      SamePartsKeep(ShutDown(s), TerminalStep(s, l));
    } else {
      SamePartsKeep(s, TerminalStep(s, l));
    }
  }

  // ---- receiving ----

  /** Taking a batch of `k` off the channel leaves nothing of `k`. */
  lemma TakeBatchKeepsHandshake(s: State)
    requires Handshake(s) && s.channel != [] && s.channel[0].Batch?
    ensures Handshake(s.(channel := s.channel[1..]))
    ensures !Undelivered(s.(channel := s.channel[1..]), s.channel[0].key)
    ensures s.channel[0].key in s.workers
  {
    var t := s.(channel := s.channel[1..]);
    ChannelTail(s.channel);
    assert forall x :: Undelivered(t, x) ==> Undelivered(s, x);
    assert forall x: Key :: IsCancelled(t, x.job) == IsCancelled(s, x.job);
    assert InChannel(s.channel, s.channel[0].key);
  }

  lemma PushUndelivered(s: State, d: Delivery)
    requires PinnedOk(s) && OffersOk(s) && HeldOk(s)
    requires d.key in s.workers && s.workers[d.key].phase == Waiting(NoReply) && d.key !in s.held
    ensures var t := s.(pending := s.pending + [d]); PinnedOk(t) && OffersOk(t) && HeldOk(t)
  {
    var t := s.(pending := s.pending + [d]);
    PendingSnoc(s.pending, d);
    assert forall x :: Undelivered(t, x) == (Undelivered(s, x) || x == d.key);
    assert forall x: Key :: IsCancelled(t, x.job) == IsCancelled(s, x.job);
  }

  /** An uncancelled batch moves from the channel to the back of `pending`. */
  lemma PushPending(s: State, d: Delivery)
    requires PendingOk(s) && !Undelivered(s, d.key) && d.key.job in s.history && d.entries != []
    ensures PendingOk(s.(pending := s.pending + [d]))
  {
    hide InChannel;
    PendingSnoc(s.pending, d);
    forall i | 0 <= i < |s.pending| ensures s.pending[i].key != d.key {
      assert s.pending[i].key in PendingKeys(s.pending);
    }
  }

  lemma PushKeepsHandshake(s: State, d: Delivery)
    requires Handshake(s) && !Undelivered(s, d.key)
    requires d.key in s.workers && s.workers[d.key].phase == Waiting(NoReply) && d.key !in s.held
    requires d.key.job in s.history && d.entries != []
    requires |s.queues| == 2 && d.key !in QueueKeys(s.queues[0]) && d.key !in QueueKeys(s.queues[1])
    ensures Handshake(s.(pending := s.pending + [d]))
  {
    hide PendingOk, PinnedOk, OffersOk, HeldOk, Undelivered, ChannelOrder, InChannel, DoneInChannel, PendingKeys,
         QueueKeys;
    var t := s.(pending := s.pending + [d]);
    PendingSnoc(s.pending, d);
    PushUndelivered(s, d);
    PushPending(s, d);
    assert PendingKeys(t.pending) + t.workers.Keys == PendingKeys(s.pending) + s.workers.Keys;
  }

  /** The sender of an uncancelled batch waits, owes nothing else and is in no queue. */
  lemma SenderWaits(s: State, k: Key)
    requires Handshake(s) && Accounts(s) && s.channel != [] && s.channel[0].Batch? && s.channel[0].key == k
    requires !IsCancelled(s, k.job)
    ensures k in s.workers && s.workers[k].phase == Waiting(NoReply) && k !in s.held
    ensures k !in QueueKeys(s.queues[0]) && k !in QueueKeys(s.queues[1])
  {
    assert InChannel(s.channel, k);
    assert Undelivered(s, k);
  }

  lemma MergedKeepsHandshake(s: State, k: Key, entries: seq<Entry>)
    requires Handshake(s) && Accounts(s) && s.channel != [] && s.channel[0] == Batch(k, entries) && Merges(s, k)
    ensures Handshake(ReceiveBatch(s, k, entries))
  {
    TakeBatchKeepsHandshake(s);
    SenderWaits(s, k);
    var kept := Fresh(s.jobs[k.job].seen, Tagged(k.index, entries));
    if kept == [] {
      AllSeenKeepsHandshake(s, k, entries);
    } else {
      PushKeepsHandshake(s.(channel := s.channel[1..]), Delivery(k, Numbered(s.jobs[k.job].nextId, kept)));
      SomeFreshKeepsHandshake(s, k, entries);
    }
  }

  lemma AllSeenKeepsHandshake(s: State, k: Key, entries: seq<Entry>)
    requires s.channel != [] && Merges(s, k)
    requires Fresh(s.jobs[k.job].seen, Tagged(k.index, entries)) == []
    requires Handshake(s.(channel := s.channel[1..])) && !Undelivered(s.(channel := s.channel[1..]), k) && k !in s.held
    ensures Handshake(ReceiveBatch(s, k, entries))
  {
    hide Handshake, Fresh, Undelivered;
    var mid := s.(channel := s.channel[1..]);
    RepliedKeepsHandshake(mid, {k}, Acknowledged);
    SamePartsKeep(mid.(workers := Replied(s.workers, {k}, Acknowledged)), ReceiveBatch(s, k, entries));
  }

  lemma SomeFreshKeepsHandshake(s: State, k: Key, entries: seq<Entry>)
    requires s.channel != [] && Merges(s, k)
    requires var kept := Fresh(s.jobs[k.job].seen, Tagged(k.index, entries));
             && kept != []
             && Handshake(s.(channel := s.channel[1..],
                             pending := s.pending + [Delivery(k, Numbered(s.jobs[k.job].nextId, kept))]))
    ensures Handshake(ReceiveBatch(s, k, entries))
  {
    hide Handshake, Fresh;
    var kept := Fresh(s.jobs[k.job].seen, Tagged(k.index, entries));
    var d := Delivery(k, Numbered(s.jobs[k.job].nextId, kept));
    SamePartsKeep(s.(channel := s.channel[1..], pending := s.pending + [d]), ReceiveBatch(s, k, entries));
  }

  lemma UnmergedKeepsHandshake(s: State, k: Key, entries: seq<Entry>)
    requires Handshake(s) && Accounts(s) && s.channel != [] && s.channel[0] == Batch(k, entries) && !Merges(s, k)
    ensures Handshake(ReceiveBatch(s, k, entries))
  {
    var mid := s.(channel := s.channel[1..]);
    TakeBatchKeepsHandshake(s);
    assert k in Open(s);
    RepliedKeepsHandshake(mid, {k}, HungUp);
    assert ReceiveBatch(s, k, entries) == mid.(workers := Replied(s.workers, {k}, HungUp));
  }

  lemma LeaveUndelivered(s: State, t: State, k: Key)
    requires PinnedOk(s) && OffersOk(s) && HeldOk(s) && PendingOk(s)
    requires k in s.workers && s.workers[k].phase == Reported
    requires t == s.(channel := t.channel, workers := s.workers - {k})
    requires forall x :: InChannel(t.channel, x) <==> InChannel(s.channel, x)
    ensures PinnedOk(t) && OffersOk(t) && HeldOk(t) && PendingOk(t)
  {
    assert forall x :: Undelivered(t, x) == Undelivered(s, x);
    assert forall x: Key :: IsCancelled(t, x.job) == IsCancelled(s, x.job);
    assert forall x :: Undelivered(t, x) ==> Pinned(s, x);
  }

  /** A worker that reported leaves; what it left undelivered is cancelled. */
  lemma LeaveKeepsHandshake(s: State)
    requires Handshake(s) && s.channel != [] && s.channel[0].Finished?
    ensures Handshake(s.(channel := s.channel[1..], workers := s.workers - {s.channel[0].key}))
  {
    var k := s.channel[0].key;
    var t := s.(channel := s.channel[1..], workers := s.workers - {k});
    ChannelTail(s.channel);
    assert DoneInChannel(s.channel, k);
    LeaveUndelivered(s, t, k);
    SubsetCount(PendingKeys(t.pending) + t.workers.Keys, PendingKeys(s.pending) + s.workers.Keys);
    forall i | 0 <= i < |t.channel| ensures t.channel[i].key in t.workers {
      assert t.channel[i] == s.channel[i + 1];
    }
  }

  lemma DoneKeepsHandshake(s: State, k: Key, outcome: Outcome)
    requires Handshake(s) && |s.active| == 2 && s.channel != [] && s.channel[0] == Finished(k, outcome)
             && k in s.workers
    ensures Handshake(ReceiveDone(s, k, outcome))
  {
    hide PendingOk, PinnedOk, OffersOk, HeldOk, Bounded, Started, ChannelOk;
    LeaveKeepsHandshake(s);
    SamePartsKeep(s.(channel := s.channel[1..], workers := s.workers - {k}), ReceiveDone(s, k, outcome));
  }

  lemma ReceiveKeepsHandshake(s: State, l: Label)
    requires Handshake(s) && Accounts(s) && ReceiveEnabled(s, l)
    ensures Handshake(ReceiveStep(s, l))
  {
    if l.Receive? {
      match s.channel[0]
      case Batch(k, entries) =>
        if Merges(s, k) {
          MergedKeepsHandshake(s, k, entries);
        } else {
          UnmergedKeepsHandshake(s, k, entries);
        }
        SamePartsKeep(ReceiveBatch(s, k, entries), ReceiveBatch(s, k, entries).(pc := Flushing));
      case Finished(k, outcome) =>
        DoneKeepsHandshake(s, k, outcome);
        SamePartsKeep(ReceiveDone(s, k, outcome), ReceiveDone(s, k, outcome).(pc := Flushing));
    } else {
      SamePartsKeep(s, ReceiveStep(s, l));
    }
  }

  lemma StepKeepsHandshake(s: State, l: Label)
    requires Handshake(s) && Accounts(s) && Enabled(s, l)
    ensures Handshake(After(s, l))
  {
    hide Handshake, World, Flush, IngressStep, QueueStep, TerminalStep, ReceiveStep;
    if WorldEnabled(s, l) {
      WorldKeepsHandshake(s, l);
    } else if FlushEnabled(s, l) {
      FlushKeepsHandshake(s, l);
    } else if IngressEnabled(s, l) {
      IngressKeepsHandshake(s, l);
    } else if QueueEnabled(s, l) {
      QueueKeepsHandshake(s, l);
    } else if TerminalEnabled(s, l) {
      TerminalKeepsHandshake(s, l);
    } else {
      ReceiveKeepsHandshake(s, l);
    }
  }
}
