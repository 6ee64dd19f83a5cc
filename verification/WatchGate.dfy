/**
 The refresh gate: after a refresh of its own the pump leaves a tab alone until the tab has been
 idle for a while (src/app/directory_watch_refresh.rs:20-49).
 */
module WatchGate {
  import opened Prelude
  import opened WatchTypes
  import opened WatchPump
  import opened WatchDecisions

  class RefreshGate {
    var readyAt: map<Key, Option<nat>>

    constructor ()
      ensures readyAt == map[]
    {
      readyAt := map[];
    }

    method Started(key: Key)
      modifies this
      ensures readyAt == old(readyAt)[key := None]
    {
      readyAt := readyAt[key := None];
    }

    /** `retain` in any order of the table. */
    method Update(app: App, now: nat)
      modifies this
      ensures readyAt == GateAfter(old(readyAt), app, now)
    {
      hide OnRoot, BusyOnRoot;
      ghost var before := readyAt;
      var left := readyAt.Keys;
      while left != {}
        invariant left <= before.Keys && readyAt.Keys <= before.Keys
        invariant forall k :: k in left ==> k in readyAt && readyAt[k] == before[k]
        invariant forall k :: k in before.Keys - left ==> (k in readyAt <==> GateKeeps(app, k, before[k], now))
        invariant forall k :: k in readyAt.Keys - left ==> readyAt[k] == GateEntry(app, k, before[k], now)
        decreases left
      {
        var key :| key in left;
        left := left - {key};
        if !OnRoot(app, key) {
          readyAt := readyAt - {key};
        } else if !BusyOnRoot(app, key) {
          var deadline := if readyAt[key].None? then now + IDLE_INTERVAL else readyAt[key].value;
          if now < deadline {
            readyAt := readyAt[key := Some(deadline)];
          } else {
            readyAt := readyAt - {key};
          }
        }
      }
    }

    predicate Waiting(key: Key)
      reads this
    {
      key in readyAt
    }
  }

  // ---- what the gate comes to over many passes ----

  datatype Observation = Observation(app: App, now: nat)

  function Observed(gate: map<Key, Option<nat>>, seen: seq<Observation>): map<Key, Option<nat>>
  {
    if seen == [] then gate
    else GateAfter(Observed(gate, seen[..|seen| - 1]), seen[|seen| - 1].app, seen[|seen| - 1].now)
  }

  /** The tab shows the root, cancelled or not. */
  ghost predicate ThereIn(o: Observation, key: Key)
  {
    key.tab in o.app.tabs && o.app.tabs[key.tab].directory && o.app.tabs[key.tab].visible == Some(key.root)
  }

  ghost predicate IdleIn(o: Observation, key: Key)
  {
    ThereIn(o, key) && !Busy(o.app, key)
  }

  lemma GateSees(o: Observation, key: Key)
    ensures ThereIn(o, key) <==> OnRoot(o.app, key)
    ensures IdleIn(o, key) <==> OnRoot(o.app, key) && !BusyOnRoot(o.app, key)
  {
  }

  /** When the tab was first seen idle on the root. */
  ghost function FirstIdle(seen: seq<Observation>, key: Key): Option<nat>
  {
    if seen == [] then None
    else
      var first := FirstIdle(seen[..|seen| - 1], key);
      if first.Some? then first
      else if IdleIn(seen[|seen| - 1], key) then Some(seen[|seen| - 1].now)
      else None
  }

  /** The tab stayed on the root, and whenever it was idle, that was less than the interval after it first was. */
  ghost predicate StillSettling(seen: seq<Observation>, key: Key)
  {
    forall i :: 0 <= i < |seen| ==>
      && ThereIn(seen[i], key)
      && (IdleIn(seen[i], key) ==>
            FirstIdle(seen, key).Some? && seen[i].now < FirstIdle(seen, key).value + 1_000)
  }

  lemma SettlingSnoc(seen: seq<Observation>, key: Key)
    requires seen != []
    ensures var n := |seen| - 1; var o := seen[n];
            StillSettling(seen, key) <==>
              && StillSettling(seen[..n], key) && ThereIn(o, key)
              && (IdleIn(o, key) ==> o.now < FirstIdle(seen, key).value + 1_000)
  {
    hide ThereIn, IdleIn;
    var n := |seen| - 1;
    forall i | 0 <= i < n && IdleIn(seen[i], key) ensures FirstIdle(seen[..n], key).Some? {
      IdleFound(seen[..n], key, i);
    }
    if StillSettling(seen, key) {
      forall i | 0 <= i < n
        ensures ThereIn(seen[..n][i], key)
        ensures IdleIn(seen[..n][i], key) ==>
                  FirstIdle(seen[..n], key).Some? && seen[..n][i].now < FirstIdle(seen[..n], key).value + 1_000
      {
        assert seen[..n][i] == seen[i];
      }
    }
    if StillSettling(seen[..n], key) {
      forall i | 0 <= i < n
        ensures ThereIn(seen[i], key)
        ensures IdleIn(seen[i], key) ==>
                  FirstIdle(seen, key).Some? && seen[i].now < FirstIdle(seen, key).value + 1_000
      {
        assert seen[..n][i] == seen[i];
      }
    }
  }

  lemma {:induction false} IdleFound(seen: seq<Observation>, key: Key, i: nat)
    requires i < |seen| && IdleIn(seen[i], key)
    ensures FirstIdle(seen, key).Some?
    decreases |seen|
  {
    hide IdleIn;
    if i < |seen| - 1 {
      IdleFound(seen[..|seen| - 1], key, i);
    }
  }

  /**
   A key whose refresh started waits exactly as long as its tab stays on the root and has not been
   seen idle an interval or more after it was first seen idle.
   */
  lemma {:induction false} GateHolds(gate: map<Key, Option<nat>>, key: Key, seen: seq<Observation>)
    ensures key in Observed(gate[key := None], seen) <==> StillSettling(seen, key)
    ensures key in Observed(gate[key := None], seen) ==>
              var first := FirstIdle(seen, key);
              Observed(gate[key := None], seen)[key] == if first.None? then None else Some(first.value + 1_000)
    decreases |seen|
  {
    hide OnRoot, BusyOnRoot, ThereIn, IdleIn;
    if seen != [] {
      var n := |seen| - 1;
      GateSees(seen[n], key);
      GateHolds(gate, key, seen[..n]);
      SettlingSnoc(seen, key);
    }
  }
}
