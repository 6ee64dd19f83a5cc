/**
 The scheduler thread of network directory requests, in the form of the source: a queue and a set
 that it updates in place (src/app/directory_loading.rs:45-83, 298-366).

 Each part is proved to be a run of the transition system in `NetworkScheduler`. Which completions
 and requests have come in when it looks, and which cancellations it sees, is chosen freely.
 */
module NetworkLoop {
  import opened Prelude
  import opened NetworkScheduler

  /** What workers, cancellers and the sender of requests share with the thread, and the history. */
  datatype Shared = Shared(
    running: seq<Request>,
    completions: seq<Request>,
    cancelled: set<nat>,
    known: set<nat>,
    arrived: seq<Request>,
    started: seq<Request>,
    finished: seq<Request>,
    reported: seq<Request>)

  class NetworkDirectoryScheduler {
    const limit: nat
    var pending: seq<Request>
    var active: set<NetworkKey>
    var open: bool
    var shared: Shared

    function View(): State
      reads this
    {
      State(limit, pending, active, open, shared.running, shared.completions, shared.cancelled, shared.known,
            shared.arrived, shared.started, shared.finished, shared.reported)
    }

    constructor (limit: nat)
      ensures View() == Initial(limit) && this.limit == limit && open && pending == [] && active == {}
    {
      this.limit := limit;
      pending, active, open := [], {}, true;
      shared := Shared([], [], {}, {}, [], [], [], []);
    }

    method Push(key: NetworkKey)
      requires open
      modifies `pending, `shared
      ensures View() == After(old(View()), Receive(key))
    {
      var request := Request(|shared.arrived|, key);
      pending := pending + [request];
      shared := shared.(arrived := shared.arrived + [request]);
    }

    method Complete()
      requires shared.completions != []
      modifies `active, `shared
      ensures View() == After(old(View()), Collect)
    {
      var done := shared.completions[0];
      active := active - {done.key};
      shared := shared.(completions := shared.completions[1..], finished := shared.finished + [done]);
    }

    /** `next_ready`: the first request that may run, and no request only if none may. */
    method NextReady(seen: set<nat>) returns (next: Option<Request>)
      requires Visible(View(), seen)
      modifies `pending, `active, `shared
      ensures next.None? <==> FirstReady(old(pending), old(active), seen).None?
      ensures next.None? ==> View() == old(View())
      ensures next.None? ==> forall i :: 0 <= i < |pending| && pending[i].id !in seen ==> pending[i].key in active
      ensures next.Some? ==> View() == StartStep(old(View()), seen)
                             && next.value == old(pending)[FirstReady(old(pending), old(active), seen).value]
    {
      hide Visible;
      var index := Position(seen);
      if index.None? {
        return None;
      }
      var i := index.value;
      var request := pending[i];
      pending := pending[..i] + pending[i + 1..];
      active := active + {request.key};
      shared := shared.(running := shared.running + [request], started := shared.started + [request], known := seen);
      return Some(request);
    }

    method Position(seen: set<nat>) returns (index: Option<nat>)
      ensures index == FirstReady(pending, active, seen)
    {
      var i := 0;
      while i < |pending|
        invariant 0 <= i <= |pending|
        invariant forall j :: 0 <= j < i ==> !Ready(pending[j], active, seen)
      {
        if pending[i].key !in active && pending[i].id !in seen {
          FirstIsFirst(pending, active, seen, i);
          return Some(i);
        }
        i := i + 1;
      }
      return None;
    }

    /** `take_cancelled`. */
    method TakeCancelled(seen: set<nat>) returns (gone: seq<Request>)
      requires Visible(View(), seen)
      modifies `pending, `shared
      ensures gone == Swept(old(pending), seen)
      ensures View() == After(old(View()), Sweep(seen))
    {
      hide Kept, Swept;
      var kept: seq<Request> := [];
      gone := [];
      ghost var before := pending;
      while pending != []
        invariant shared == old(shared)
        invariant Kept(before, seen) == kept + Kept(pending, seen)
        invariant Swept(before, seen) == gone + Swept(pending, seen)
        decreases |pending|
      {
        var request := pending[0];
        SweepHead(pending, seen);
        pending := pending[1..];
        if request.id in seen {
          gone := gone + [request];
        } else {
          kept := kept + [request];
        }
      }
      SweepNothing(pending, seen);
      pending := kept;
      shared := shared.(reported := shared.reported + gone, known := seen);
    }

    /** Workers finish and requests are cancelled, any number of times; added to a run. */
    method Interfere(ghost start: State, ghost run: seq<Label>) returns (ghost labels: seq<Label>)
      requires Leads(start, run, View())
      modifies `shared
      ensures Leads(start, labels, View()) && OnlyOutside(old(View()), View())
    {
      hide Leads, Enabled, After;
      labels := run;
      var rounds: nat := *;
      while rounds > 0
        invariant Leads(start, labels, View()) && OnlyOutside(old(View()), View())
      {
        ghost var before := View();
        var id: int := *;
        var finishes: bool := *;
        if id >= 0 && !finishes {
          CancelIs(before, id);
          shared := shared.(cancelled := shared.cancelled + {id});
          LeadsStep(start, labels, before, Cancel(id));
          labels := labels + [Cancel(id)];
        } else if 0 <= id < |shared.running| {
          var done := shared.running[id];
          DoneIs(before, id);
          shared := shared.(running := shared.running[..id] + shared.running[id + 1..],
            completions := shared.completions + [done]);
          LeadsStep(start, labels, before, WorkerDone(id));
          labels := labels + [WorkerDone(id)];
        }
        rounds := rounds - 1;
      }
    }

    /**
     A look at the cancellation flags: everything cancelled before it began is seen, and of what is
     cancelled meanwhile some may be.
     */
    method Look(before: set<nat>) returns (seen: set<nat>)
      requires shared.known <= shared.cancelled && before <= shared.cancelled
      ensures Visible(View(), seen) && before <= seen
    {
      var more: set<nat> := *;
      seen := before + shared.known + (more * shared.cancelled);
    }

    /** Every completion that was waiting is collected, and whatever comes in meanwhile may be. */
    method CollectCompletions() returns (ghost labels: seq<Label>)
      modifies `active, `shared
      ensures Leads(old(View()), labels, View())
      ensures old(shared.finished) + old(shared.completions) <= shared.finished
      ensures shared.arrived == old(shared.arrived)
      ensures old(shared.running) == [] ==> shared.running == [] && shared.completions == []
    {
      hide Leads, Enabled, After;
      NoStep(View());
      labels := Interfere(old(View()), []);
      var most: nat := *;
      if most < |shared.completions| {
        most := |shared.completions|;
      }
      while most > 0 && shared.completions != []
        invariant Leads(old(View()), labels, View())
        invariant old(shared.finished) + old(shared.completions) <= shared.finished + shared.completions
        invariant |old(shared.finished)| + |old(shared.completions)| <= |shared.finished| + most
        invariant shared.arrived == old(shared.arrived)
        invariant old(shared.running) == [] ==> shared.running == [] && |shared.completions| <= most
      {
        ghost var before := View();
        CollectIs(before);
        assert shared.finished + shared.completions
            == (shared.finished + [shared.completions[0]]) + shared.completions[1..];
        Complete();
        LeadsStep(old(View()), labels, before, Collect);
        labels := Interfere(old(View()), labels + [Collect]);
        most := most - 1;
      }
    }

    /**
     Hands out work until every worker is busy or nothing may run. Each request is looked for with the
     cancellations seen at that moment; `seen` are those of the last look.
     */
    method StartReady() returns (seen: set<nat>, ghost labels: seq<Label>)
      requires shared.known <= shared.cancelled
      modifies `pending, `active, `shared
      ensures Leads(old(View()), labels, View()) && Visible(View(), seen)
      ensures |active| >= limit || FirstReady(pending, active, seen).None?
      ensures shared.arrived == old(shared.arrived) && forall r :: r in pending ==> r in old(pending)
      ensures |pending| < |old(pending)| || (pending == old(pending) && active == old(active))
    {
      hide Leads, Enabled, After, FirstReady, StartStep;
      NoStep(View());
      var before := shared.cancelled;
      labels := Interfere(old(View()), []);
      seen := Look(before);
      while |active| < limit
        invariant Leads(old(View()), labels, View()) && Visible(View(), seen)
        invariant shared.arrived == old(shared.arrived) && forall r :: r in pending ==> r in old(pending)
        invariant |pending| < |old(pending)| || (pending == old(pending) && active == old(active))
        decreases |pending|
      {
        ghost var was := View();
        var next := NextReady(seen);
        if next.None? {
          return;
        }
        StartIs(was, seen);
        LeadsStep(old(View()), labels, was, Start(seen));
        before := shared.cancelled;
        labels := Interfere(old(View()), labels + [Start(seen)]);
        seen := Look(before);
      }
    }

    /** Requests that have come in, all of them in order; one without a network key is refused on the spot. */
    method TakeRequests(offers: seq<Option<NetworkKey>>) returns (ghost labels: seq<Label>)
      requires open
      modifies `pending, `shared
      ensures Leads(old(View()), labels, View())
      ensures KeysOf(shared.arrived) == KeysOf(old(shared.arrived)) + Keyed(offers)
    {
      hide Leads, Enabled, After, KeysOf;
      NoStep(View());
      labels := Interfere(old(View()), []);
      var i := 0;
      while i < |offers|
        invariant 0 <= i <= |offers|
        invariant Leads(old(View()), labels, View()) && open
        invariant KeysOf(shared.arrived) == KeysOf(old(shared.arrived)) + Keyed(offers[..i])
      {
        KeyedSnoc(offers, i);
        if offers[i].Some? {
          KeysOfSnoc(shared.arrived, Request(|shared.arrived|, offers[i].value));
          var key := offers[i].value;
          ghost var before := View();
          ReceiveIs(before, key);
          Push(key);
          LeadsStep(old(View()), labels, before, Receive(key));
          labels := Interfere(old(View()), labels + [Receive(key)]);
        }
        i := i + 1;
      }
      assert offers[..i] == offers;
    }

    /**
     One round of the loop; `offers` are the requests waiting at its end, and `closed` says whether the
     input is closed behind them. It keeps the invariant and collects every completion that was
     waiting. Where it had handed out work, every request that was pending and cancelled when the round
     began is reported and no longer pending, and no worker is free beside a request it could start.
     */
    method Round(offers: seq<Option<NetworkKey>>, closed: bool)
      returns (seen: set<nat>, ghost labels: seq<Label>, ghost settled: State, ghost rest: seq<Label>)
      requires Inv(View())
      modifies `pending, `active, `open, `shared
      ensures Leads(old(View()), labels, settled) && Leads(settled, rest, View()) && Inv(View())
      ensures old(shared.finished) + old(shared.completions) <= settled.finished
      ensures forall r :: r in old(pending) && r.id in old(shared.cancelled) ==>
                r in settled.reported && r !in settled.pending
      ensures Visible(settled, seen)
      ensures |settled.active| >= settled.limit || FirstReady(settled.pending, settled.active, seen).None?
      ensures KeysOf(shared.arrived) == KeysOf(old(shared.arrived)) + if old(open) then Keyed(offers) else []
      ensures open <==> old(open) && !(closed && offers == [] && settled.pending == []
                                       && |settled.active| < settled.limit)
      ensures !old(open) && limit > 0 && old(shared.running) == [] ==> Sooner(old(View()), View())
    {
      hide Leads, Enabled, After, Inv, Visible, FirstReady, Kept, Swept, KeysOf, Sooner;
      ghost var origin := View();
      var before := shared.cancelled;
      labels := CollectCompletions();
      ghost var s1 := View();
      RunKeepsInv(origin, labels, s1);
      RecordsStay(origin, labels, s1);
      SeenIsCancelled(s1);
      var swept := Look(before);
      SweepIs(s1, swept);
      var gone := TakeCancelled(swept);
      SweptAway(s1, swept);
      LeadsStep(origin, labels, s1, Sweep(swept));
      labels := labels + [Sweep(swept)];
      ghost var s2 := View();
      RunKeepsInv(origin, labels, s2);
      SeenIsCancelled(s2);
      ghost var more: seq<Label>;
      seen, more := StartReady();
      settled := View();
      RecordsStay(s2, more, settled);
      rest := AwaitMore(offers, closed);
      if !origin.open && limit > 0 && origin.running == [] {
        RoundIsSooner(origin, labels, s1, swept, more, settled, seen, rest, View());
      }
      LeadsOn(origin, labels, s2, more, settled);
      labels := labels + more;
      LeadsOn(origin, labels, settled, rest, View());
      RunKeepsInv(origin, labels + rest, View());
    }

    /** The waits of the loop: for a completion while work is left, else for a request, and then whatever came in. */
    method AwaitMore(offers: seq<Option<NetworkKey>>, closed: bool) returns (ghost labels: seq<Label>)
      modifies `pending, `active, `open, `shared
      ensures Leads(old(View()), labels, View())
      ensures KeysOf(shared.arrived) == KeysOf(old(shared.arrived)) + if old(open) then Keyed(offers) else []
      ensures open <==> old(open) && !(closed && offers == [] && old(pending) == [] && |old(active)| < limit)
      ensures !old(open) ==> pending == old(pending) && active <= old(active)
    {
      hide Leads, Enabled, After;
      NoStep(View());
      labels := Interfere(old(View()), []);
      ghost var before := View();
      if |active| >= limit || pending != [] {
        if shared.completions != [] {
          CollectIs(before);
          Complete();
          LeadsStep(old(View()), labels, before, Collect);
          labels := labels + [Collect];
        }
      } else if open && closed && offers == [] {
        CloseIs(before);
        open := false;
        LeadsStep(old(View()), labels, before, CloseInput);
        labels := labels + [CloseInput];
      }
      if open {
        ghost var between := View();
        ghost var more := TakeRequests(offers);
        LeadsOn(old(View()), labels, between, more, View());
        labels := labels + more;
      }
    }

    /** Every worker finishes what it runs. */
    method WorkersFinish() returns (ghost labels: seq<Label>)
      modifies `shared
      ensures Leads(old(View()), labels, View()) && OnlyOutside(old(View()), View()) && shared.running == []
    {
      hide Leads, Enabled, After;
      NoStep(View());
      labels := [];
      while shared.running != []
        invariant Leads(old(View()), labels, View()) && OnlyOutside(old(View()), View())
        decreases |shared.running|
      {
        ghost var before := View();
        DoneIs(before, 0);
        shared := shared.(running := shared.running[..0] + shared.running[1..],
          completions := shared.completions + [shared.running[0]]);
        LeadsStep(old(View()), labels, before, WorkerDone(0));
        labels := labels + [WorkerDone(0)];
      }
    }

    /**
     After the input closed, rounds between which the workers finish what they run bring the loop to
     its end, whatever is cancelled meanwhile; then nothing that arrived is owed an answer.
     */
    method RunOut() returns (ghost labels: seq<Label>)
      requires Inv(View()) && !open && limit > 0
      modifies `pending, `active, `open, `shared
      ensures Leads(old(View()), labels, View()) && Inv(View()) && LoopEnds(View())
    {
      hide Leads, Inv, KeysOf, Kept, FirstReady, OnlyOutside;
      NoStep(View());
      labels := [];
      while open || pending != [] || active != {}
        invariant Leads(old(View()), labels, View()) && Inv(View()) && !open && limit > 0
        decreases |pending| + |Kept(pending, shared.cancelled)|, if active == {} then 0 else 1
      {
        ghost var s1 := View();
        ghost var finishing := WorkersFinish();
        ghost var s2 := View();
        RunKeepsInv(s1, finishing, s2);
        SeenIsCancelled(s1);
        ClosedRun(s1, finishing, s2);
        OutsideKeepsQueue(s1, s2);
        LeadsOn(old(View()), labels, s1, finishing, s2);
        labels := labels + finishing;
        var seen;
        ghost var more, settled, rest;
        seen, more, settled, rest := Round([], true);
        KeptMore(pending, shared.cancelled, shared.cancelled);
        LeadsOn(s2, more, settled, rest, View());
        LeadsOn(old(View()), labels, s2, more + rest, View());
        labels := labels + (more + rest);
      }
    }
  }

  /** The keys of requests, in order. */
  function KeysOf(requests: seq<Request>): seq<NetworkKey>
  {
    seq(|requests|, i requires 0 <= i < |requests| => requests[i].key)
  }

  lemma KeysOfSnoc(requests: seq<Request>, r: Request)
    ensures KeysOf(requests + [r]) == KeysOf(requests) + [r.key]
  {
  }

  /** The keys of those offers that have one. */
  function Keyed(offers: seq<Option<NetworkKey>>): seq<NetworkKey>
  {
    if offers == [] then []
    else
      var last := offers[|offers| - 1];
      Keyed(offers[..|offers| - 1]) + if last.Some? then [last.value] else []
  }

  lemma KeyedSnoc(offers: seq<Option<NetworkKey>>, i: nat)
    requires i < |offers|
    ensures Keyed(offers[..i + 1]) == Keyed(offers[..i]) + if offers[i].Some? then [offers[i].value] else []
  {
    assert offers[..i + 1][..i] == offers[..i];
  }

  /** The loop ends, or fewer requests are pending or more of them cancelled, and none was added. */
  ghost predicate Sooner(s: State, t: State)
  {
    if s.pending == [] then LoopEnds(t)
    else |t.pending| + |Kept(t.pending, t.cancelled)| < |s.pending| + |Kept(s.pending, s.cancelled)|
  }

  lemma RoundIsSooner(s: State, labels: seq<Label>, s1: State, swept: set<nat>, more: seq<Label>, settled: State,
                      seen: set<nat>, rest: seq<Label>, t: State)
    requires Inv(s) && Inv(s1) && !s.open && s.limit > 0
    requires s1.pending == s.pending && s1.running == [] && s1.completions == []
    requires Visible(s1, swept) && s.cancelled <= swept && Enabled(s1, Sweep(swept))
    requires Leads(s, labels, After(s1, Sweep(swept))) && Leads(After(s1, Sweep(swept)), more, settled)
    requires Leads(settled, rest, t)
    requires var s2 := After(s1, Sweep(swept));
             |settled.pending| < |s2.pending| || (settled.pending == s2.pending && settled.active == s2.active)
    requires Visible(settled, seen)
    requires |settled.active| >= settled.limit || FirstReady(settled.pending, settled.active, seen).None?
    requires t.pending == settled.pending && t.active <= settled.active
    ensures Sooner(s, t)
  {
    hide Inv, Leads, Enabled, After, FirstReady, Kept, Swept;
    var s2 := After(s1, Sweep(swept));
    SweptAway(s1, swept);
    SeenIsCancelled(s);
    ClosedRun(s, labels, s2);
    ClosedRun(s2, more, settled);
    ClosedRun(settled, rest, t);
    IdleIsFree(s1);
    KeptMore(s.pending, s.cancelled, swept);
    KeptMore(t.pending, t.cancelled, t.cancelled);
    if s2.active == settled.active {
      forall i | 0 <= i < |settled.pending| ensures settled.pending[i].id in settled.cancelled {
        assert !Ready(settled.pending[i], settled.active, seen);
      }
      AllSwept(settled.pending, settled.cancelled);
    }
  }

  lemma OutsideKeepsQueue(s: State, t: State)
    requires OnlyOutside(s, t)
    ensures t.pending == s.pending && t.active == s.active && t.open == s.open
  {
  }

  /** After a sweep nothing seen cancelled is pending, and what was is reported. */
  lemma SweptAway(s: State, seen: set<nat>)
    requires Visible(s, seen)
    ensures var t := After(s, Sweep(seen));
            && (forall r :: r in s.pending && r.id in seen ==> r in t.reported && r !in t.pending)
            && t.pending == Kept(s.pending, seen) && t.running == s.running && t.completions == s.completions
            && t.active == s.active && t.finished == s.finished && t.arrived == s.arrived && t.open == s.open
  {
    SweepSplits(s.pending, seen);
    forall r | r in s.pending && r.id in seen ensures r in Swept(s.pending, seen) {
      assert r in multiset(s.pending) && r !in multiset(Kept(s.pending, seen));
    }
  }

  /** From `s` to `t` the scheduler itself did nothing. */
  ghost predicate OnlyOutside(s: State, t: State)
  {
    && t == s.(running := t.running, completions := t.completions, cancelled := t.cancelled)
    && s.cancelled <= t.cancelled && s.completions <= t.completions
    && (s.running == [] ==> t.running == [] && t.completions == s.completions)
  }

  // ---- single steps, spelt out ----

  lemma {:induction false} FirstIsFirst(pending: seq<Request>, active: set<NetworkKey>, seen: set<nat>, i: nat)
    requires i < |pending| && Ready(pending[i], active, seen)
    requires forall j :: 0 <= j < i ==> !Ready(pending[j], active, seen)
    ensures FirstReady(pending, active, seen) == Some(i)
  {
  }

  lemma SweepHead(pending: seq<Request>, seen: set<nat>)
    requires pending != []
    ensures Kept(pending, seen) == (if pending[0].id in seen then [] else [pending[0]]) + Kept(pending[1..], seen)
    ensures Swept(pending, seen) == (if pending[0].id in seen then [pending[0]] else []) + Swept(pending[1..], seen)
  {
  }

  lemma SweepNothing(pending: seq<Request>, seen: set<nat>)
    requires pending == []
    ensures Kept(pending, seen) == [] && Swept(pending, seen) == []
  {
  }

  lemma SeenIsCancelled(s: State)
    requires Inv(s)
    ensures s.known <= s.cancelled
  {
  }

  lemma DoneIs(s: State, i: nat)
    requires i < |s.running|
    ensures Enabled(s, WorkerDone(i))
    ensures After(s, WorkerDone(i))
            == s.(running := s.running[..i] + s.running[i + 1..], completions := s.completions + [s.running[i]])
  {
  }

  lemma CancelIs(s: State, id: nat)
    ensures Enabled(s, Cancel(id)) && After(s, Cancel(id)) == s.(cancelled := s.cancelled + {id})
  {
  }

  lemma CollectIs(s: State)
    requires s.completions != []
    ensures Enabled(s, Collect)
    ensures After(s, Collect) == s.(completions := s.completions[1..], active := s.active - {s.completions[0].key},
                                    finished := s.finished + [s.completions[0]])
  {
  }

  lemma ReceiveIs(s: State, key: NetworkKey)
    requires s.open
    ensures Enabled(s, Receive(key)) && After(s, Receive(key)).open
    ensures After(s, Receive(key)).arrived == s.arrived + [Request(|s.arrived|, key)]
  {
  }

  lemma SweepIs(s: State, seen: set<nat>)
    requires Visible(s, seen)
    ensures Enabled(s, Sweep(seen))
    ensures Visible(After(s, Sweep(seen)), seen)
  {
    hide Kept, Swept;
  }

  lemma CloseIs(s: State)
    requires s.open
    ensures Enabled(s, CloseInput) && After(s, CloseInput) == s.(open := false)
  {
  }

  lemma StartIs(s: State, seen: set<nat>)
    requires Visible(s, seen) && |s.active| < s.limit && FirstReady(s.pending, s.active, seen).Some?
    ensures Enabled(s, Start(seen)) && After(s, Start(seen)) == StartStep(s, seen)
    ensures |StartStep(s, seen).pending| < |s.pending| && Visible(StartStep(s, seen), seen)
    ensures StartStep(s, seen).arrived == s.arrived
    ensures forall r :: r in StartStep(s, seen).pending ==> r in s.pending
  {
    hide FirstReady;
  }
}
