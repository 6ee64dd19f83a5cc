/**
 Subsequences and insert notifications: what `DirectoryRows::append_pending` relies on when it adds
 a batch to a list that already shows part of it.
 */
module RowSequences {
  import opened Prelude

  ghost predicate Increasing(at: seq<nat>)
  {
    forall i, j :: 0 <= i < j < |at| ==> at[i] < at[j]
  }

  /** `r` is `p` at the places `at`. */
  ghost predicate Embeds<T(!new)>(r: seq<T>, p: seq<T>, at: seq<nat>)
  {
    && |at| == |r| && Increasing(at)
    && (forall i :: 0 <= i < |at| ==> at[i] < |p| && p[at[i]] == r[i])
  }

  ghost predicate Subsequence<T(!new)>(r: seq<T>, p: seq<T>)
  {
    exists at :: Embeds(r, p, at)
  }

  lemma {:induction false} AtLeastItsIndex(at: seq<nat>, i: nat)
    requires Increasing(at) && i < |at|
    ensures i <= at[i]
    decreases i
  {
    if i > 0 {
      AtLeastItsIndex(at, i - 1);
    }
  }

  lemma {:induction false} NoRoomToSkip(at: seq<nat>, i: nat)
    requires Increasing(at) && i < |at| && at[|at| - 1] == |at| - 1
    ensures at[i] == i
    decreases |at| - i
  {
    AtLeastItsIndex(at, i);
    if i < |at| - 1 {
      NoRoomToSkip(at, i + 1);
    }
  }

  lemma SameElementSamePlace<T(!new)>(p: seq<T>, i: nat, j: nat)
    requires Distinct(p) && i < |p| && j < |p| && p[i] == p[j]
    ensures i == j
  {
  }

  /**
   Why looking at the last row is enough: if the last row already shown stands at its own index in
   the new list, the rows shown are exactly the first ones of the new list.
   */
  lemma LastInPlace<T(!new)>(r: seq<T>, p: seq<T>, at: seq<nat>)
    requires Embeds(r, p, at) && Distinct(p) && r != [] && |r| <= |p| && r[|r| - 1] == p[|r| - 1]
    ensures forall i :: 0 <= i < |r| ==> at[i] == i
    ensures r == p[..|r|]
  {
    var m := |r| - 1;
    SameElementSamePlace(p, at[m], m);
    forall i | 0 <= i < |r| ensures at[i] == i {
      NoRoomToSkip(at, i);
    }
  }

  lemma {:induction false} Cover(a: seq<nat>, b: seq<nat>, n: nat)
    requires Increasing(a) && Increasing(b) && (forall i :: 0 <= i < |a| ==> a[i] < n)
             && (forall i :: 0 <= i < |b| ==> b[i] < n)
    requires forall i :: 0 <= i < |a| ==> a[i] !in b
    ensures |a| + |b| <= n
    ensures |a| + |b| == n ==> forall k :: 0 <= k < n ==> k in a || k in b
    decreases n
  {
    if n > 0 {
      if a != [] && a[|a| - 1] == n - 1 {
        var c := a[..|a| - 1];
        assert a == c + [n - 1];
        BelowLast(b, n);
        Cover(c, b, n - 1);
      } else if b != [] && b[|b| - 1] == n - 1 {
        var c := b[..|b| - 1];
        assert b == c + [n - 1];
        BelowLast(a, n);
        Cover(a, c, n - 1);
      } else {
        BelowLast(a, n);
        BelowLast(b, n);
        Cover(a, b, n - 1);
      }
    } else {
      FitsBelow(a, n);
      FitsBelow(b, n);
    }
  }

  /** Two lists that cover everything below `n` between them have `n` elements. */
  lemma {:induction false} CoverCounts(a: seq<nat>, b: seq<nat>, n: nat)
    requires Increasing(a) && Increasing(b) && (forall i :: 0 <= i < |a| ==> a[i] < n)
             && (forall i :: 0 <= i < |b| ==> b[i] < n)
    requires (forall i :: 0 <= i < |a| ==> a[i] !in b) && forall k :: 0 <= k < n ==> k in a || k in b
    ensures |a| + |b| == n
    decreases n
  {
    if n > 0 {
      BelowLast(a, n);
      BelowLast(b, n);
      if a != [] && a[|a| - 1] == n - 1 {
        var c := a[..|a| - 1];
        assert a == c + [n - 1];
        CoverCounts(c, b, n - 1);
      } else {
        assert n - 1 !in a;
        var c := b[..|b| - 1];
        assert b == c + [n - 1];
        CoverCounts(a, c, n - 1);
      }
    }
  }

  lemma FitsBelow(a: seq<nat>, n: nat)
    requires Increasing(a) && forall i :: 0 <= i < |a| ==> a[i] < n
    ensures |a| <= n
  {
    if a != [] {
      AtLeastItsIndex(a, |a| - 1);
    }
  }

  lemma BelowLast(a: seq<nat>, n: nat)
    requires n > 0 && Increasing(a) && (forall i :: 0 <= i < |a| ==> a[i] < n)
    ensures (a == [] || a[|a| - 1] != n - 1) ==> forall i :: 0 <= i < |a| ==> a[i] < n - 1
    ensures n - 1 !in a ==> forall i :: 0 <= i < |a| ==> a[i] < n - 1
  {
  }

  // ---- the list while a batch is being announced ----

  /** How many places of `at` are below `k`. */
  function Below(at: seq<nat>, k: nat): (n: nat)
    ensures n <= |at|
  {
    if at == [] then 0 else if at[|at| - 1] < k then |at| else Below(at[..|at| - 1], k)
  }

  lemma {:induction false} BelowIs(at: seq<nat>, k: nat)
    requires Increasing(at)
    ensures forall i :: 0 <= i < Below(at, k) ==> at[i] < k
    ensures forall i :: Below(at, k) <= i < |at| ==> k <= at[i]
    decreases |at|
  {
    if at != [] && at[|at| - 1] >= k {
      BelowIs(at[..|at| - 1], k);
    }
  }

  lemma BelowAll(at: seq<nat>, n: nat)
    requires forall i :: 0 <= i < |at| ==> at[i] < n
    ensures Below(at, n) == |at|
  {
  }

  lemma BelowStep(at: seq<nat>, k: nat)
    requires Increasing(at)
    ensures k in at ==> Below(at, k + 1) == Below(at, k) + 1 && at[Below(at, k)] == k
    ensures k !in at ==> Below(at, k + 1) == Below(at, k)
  {
    hide Below;
    BelowIs(at, k);
    BelowIs(at, k + 1);
    var b, c := Below(at, k), Below(at, k + 1);
    assert b < |at| ==> at[b] >= k;
    assert b > 0 ==> at[b - 1] < k;
    assert c < |at| ==> at[c] >= k + 1;
    assert c > 0 ==> at[c - 1] < k + 1;
    if k in at {
      var i :| 0 <= i < |at| && at[i] == k;
      assert b <= i < c;
    }
  }

  /** The new list up to `k`, then what was shown beyond. */
  function Partly<T>(r: seq<T>, p: seq<T>, at: seq<nat>, k: nat): seq<T>
    requires k <= |p| && |at| == |r|
  {
    p[..k] + r[Below(at, k)..]
  }

  lemma PartlyEnds<T(!new)>(r: seq<T>, p: seq<T>, at: seq<nat>)
    requires Embeds(r, p, at)
    ensures Partly(r, p, at, 0) == r && Partly(r, p, at, |p|) == p
  {
    hide Below;
    BelowIs(at, 0);
    BelowAll(at, |p|);
    FitsBelow(at[..Below(at, 0)], 0);
  }

  lemma PartlyStep<T(!new)>(r: seq<T>, p: seq<T>, at: seq<nat>, k: nat)
    requires Embeds(r, p, at) && k < |p|
    ensures k in at ==> Partly(r, p, at, k + 1) == Partly(r, p, at, k)
    ensures k !in at ==> Partly(r, p, at, k + 1) == Partly(r, p, at, k)[..k] + [p[k]] + Partly(r, p, at, k)[k..]
    ensures |Partly(r, p, at, k)| >= k
  {
    hide Below;
    BelowStep(at, k);
    assert p[..k + 1] == p[..k] + [p[k]];
    var b := Below(at, k);
    if k in at {
      assert r[b..] == [r[b]] + r[b + 1..];
      assert r[b] == p[k];
    } else {
      assert Partly(r, p, at, k)[..k] == p[..k];
      assert Partly(r, p, at, k)[k..] == r[b..];
    }
  }

  lemma {:induction false} PartlySkip<T(!new)>(r: seq<T>, p: seq<T>, at: seq<nat>, k: nat, n: nat)
    requires Embeds(r, p, at) && k <= n <= |p| && forall i :: k <= i < n ==> i in at
    ensures Partly(r, p, at, n) == Partly(r, p, at, k)
    decreases n - k
  {
    hide Partly;
    if k < n {
      PartlyStep(r, p, at, k);
      PartlySkip(r, p, at, k + 1, n);
    }
  }

  // ---- insert notifications ----

  /**
   A view that shows `list` and is told, in order, that rows of `now` were inserted; `None` if a range is
   out of bounds.
   */
  function Replay<T>(list: seq<T>, ranges: seq<(nat, nat)>, now: seq<T>): Option<seq<T>>
  {
    if ranges == [] then Some(list)
    else
      var base := Replay(list, ranges[..|ranges| - 1], now);
      var (start, count) := ranges[|ranges| - 1];
      if base.None? || start > |base.value| || start + count > |now| then None
      else Some(base.value[..start] + now[start..start + count] + base.value[start..])
  }

  /** A row joins the last range when it continues it. */
  function Announced(ranges: seq<(nat, nat)>, index: nat): seq<(nat, nat)>
  {
    if ranges != [] && ranges[|ranges| - 1].0 + ranges[|ranges| - 1].1 == index then
      ranges[..|ranges| - 1] + [(ranges[|ranges| - 1].0, ranges[|ranges| - 1].1 + 1)]
    else ranges + [(index, 1)]
  }

  /** Two adjacent insertions are one. */
  lemma InsertedTwice<T>(base: seq<T>, now: seq<T>, start: nat, index: nat)
    requires start <= |base| && start <= index < |now|
    ensures var v := base[..start] + now[start..index] + base[start..];
            base[..start] + now[start..index + 1] + base[start..] == v[..index] + [now[index]] + v[index..]
  {
    var v := base[..start] + now[start..index] + base[start..];
    assert now[start..index + 1] == now[start..index] + [now[index]];
    assert v[..index] == base[..start] + now[start..index];
    assert v[index..] == base[start..];
  }

  lemma ReplayOneMore<T>(list: seq<T>, ranges: seq<(nat, nat)>, now: seq<T>, range: (nat, nat))
    ensures Replay(list, ranges + [range], now) ==
              var base := Replay(list, ranges, now);
              if base.None? || range.0 > |base.value| || range.0 + range.1 > |now| then None
              else Some(base.value[..range.0] + now[range.0..range.0 + range.1] + base.value[range.0..])
  {
    assert (ranges + [range])[..|ranges|] == ranges;
  }

  lemma AnnouncedReplays<T>(list: seq<T>, ranges: seq<(nat, nat)>, now: seq<T>, index: nat, v: seq<T>)
    requires Replay(list, ranges, now) == Some(v) && index <= |v| && index < |now|
    ensures Replay(list, Announced(ranges, index), now) == Some(v[..index] + [now[index]] + v[index..])
  {
    hide Replay;
    if ranges != [] && ranges[|ranges| - 1].0 + ranges[|ranges| - 1].1 == index {
      var n := |ranges| - 1;
      var (start, count) := ranges[n];
      assert ranges == ranges[..n] + [ranges[n]];
      ReplayOneMore(list, ranges[..n], now, ranges[n]);
      ReplayOneMore(list, ranges[..n], now, (start, count + 1));
      InsertedTwice(Replay(list, ranges[..n], now).value, now, start, index);
    } else {
      ReplayOneMore(list, ranges, now, (index, 1));
      assert now[index..index + 1] == [now[index]];
    }
  }
}
