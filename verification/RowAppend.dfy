/**
 Appending a batch to the rows already shown (src/app/directory_model.rs:352-455).
 */
module RowAppend {
  import opened Prelude
  import opened GroupRows
  import Grouping
  import opened RowModel
  import opened RowSequences

  /** What a tab and the application contribute. */
  datatype TabView = TabView(pending: seq<Entry>, selected: set<nat>, querying: set<nat>, focused: Option<nat>,
        cut: set<Path>)

  datatype Language = Chinese | English

  datatype RowState = RowState(
    entries: seq<Entry>,
    indices: map<nat, nat>,
    layout: Layout,
    rowHeight: real,
    selected: set<nat>,
    querying: set<nat>,
    focused: Option<nat>,
    cut: set<Path>,
    language: Language,
    updates: map<nat, Entry>)

  function Ids(pending: seq<Entry>): (r: seq<nat>)
    ensures |r| == |pending| && forall i :: 0 <= i < |r| ==> r[i] == pending[i].id
  {
    seq(|pending|, i requires 0 <= i < |pending| => pending[i].id)
  }

  predicate NoHeaders(visuals: seq<Visual>)
  {
    forall i :: 0 <= i < |visuals| ==> visuals[i].Row?
  }

  function ShownIds(visuals: seq<Visual>): (r: seq<nat>)
    requires NoHeaders(visuals)
    ensures |r| == |visuals| && forall i :: 0 <= i < |r| ==> r[i] == visuals[i].id
  {
    seq(|visuals|, i requires 0 <= i < |visuals| => visuals[i].id)
  }

  /** Rows are laid out and known by index; ids of the batch are distinct, and what is shown is part of it in order. */
  ghost predicate Appendable(s: RowState, pending: seq<Entry>)
  {
    && LayoutOk(s.layout, s.rowHeight)
    && (forall i :: 0 <= i < |s.layout.visuals| && s.layout.visuals[i].Row? ==> s.layout.visuals[i].id in s.indices)
    && Distinct(Ids(pending))
    && (NoHeaders(s.layout.visuals) ==> Subsequence(ShownIds(s.layout.visuals), Ids(pending)))
  }

  // ---- counting positions ----

  function RowCount(visuals: seq<Visual>): (n: nat)
    ensures n <= |visuals|
  {
    if visuals == [] then 0 else RowCount(visuals[..|visuals| - 1]) + if visuals[|visuals| - 1].Row? then 1 else 0
  }

  lemma {:induction false} RowCountAll(visuals: seq<Visual>)
    ensures RowCount(visuals) == |visuals| <==> NoHeaders(visuals)
    decreases |visuals|
  {
    if visuals != [] {
      RowCountAll(visuals[..|visuals| - 1]);
      assert visuals == visuals[..|visuals| - 1] + [visuals[|visuals| - 1]];
    }
  }

  lemma LastPosition(visuals: seq<Visual>, positions: map<nat, nat>)
    requires Inverse(visuals, positions) && visuals != [] && visuals[|visuals| - 1].Row?
    ensures var v := visuals[|visuals| - 1];
            Inverse(visuals[..|visuals| - 1], positions - {v.id}) && |positions| == |positions - {v.id}| + 1
  {
    var v := visuals[|visuals| - 1];
    var fewer := positions - {v.id};
    assert fewer.Keys == positions.Keys - {v.id};
    assert |positions| == |positions.Keys| && |fewer| == |fewer.Keys|;
  }

  lemma OtherPositions(visuals: seq<Visual>, positions: map<nat, nat>)
    requires Inverse(visuals, positions) && (visuals == [] || visuals[|visuals| - 1].Header?)
    ensures if visuals == [] then |positions| == 0 else Inverse(visuals[..|visuals| - 1], positions)
  {
    if visuals == [] {
      assert positions.Keys == {};
    }
  }

  lemma {:induction false} PositionsCount(visuals: seq<Visual>, positions: map<nat, nat>)
    requires Inverse(visuals, positions)
    ensures |positions| == RowCount(visuals)
    decreases |visuals|
  {
    hide Inverse;
    if visuals != [] && visuals[|visuals| - 1].Row? {
      LastPosition(visuals, positions);
      PositionsCount(visuals[..|visuals| - 1], positions - {visuals[|visuals| - 1].id});
    } else {
      OtherPositions(visuals, positions);
      if visuals != [] {
        PositionsCount(visuals[..|visuals| - 1], positions);
      }
    }
  }

  /** Comparing two lengths tells whether the list has headers. */
  lemma SameLengthMeansNoHeaders(l: Layout, rowHeight: real)
    requires LayoutOk(l, rowHeight)
    ensures |l.positions| == |l.visuals| <==> NoHeaders(l.visuals)
  {
    PositionsCount(l.visuals, l.positions);
    RowCountAll(l.visuals);
  }

  // ---- which entries are new ----

  predicate LastAligned(visuals: seq<Visual>, pending: seq<Entry>)
  {
    visuals == [] || (|visuals| <= |pending| && visuals[|visuals| - 1] == Row(pending[|visuals| - 1].id))
  }

  function Unlisted(pending: seq<Entry>, indices: map<nat, nat>, k: nat): seq<nat>
    requires k <= |pending|
  {
    if k == 0 then []
    else Unlisted(pending, indices, k - 1) + if pending[k - 1].id in indices then [] else [k - 1]
  }

  lemma {:induction false} UnlistedIs(pending: seq<Entry>, indices: map<nat, nat>, k: nat)
    requires k <= |pending|
    ensures Increasing(Unlisted(pending, indices, k))
    ensures forall i :: i in Unlisted(pending, indices, k) <==> 0 <= i < k && pending[i].id !in indices
    ensures forall i :: 0 <= i < |Unlisted(pending, indices, k)| ==> Unlisted(pending, indices, k)[i] < k
    decreases k
  {
    if k > 0 {
      UnlistedIs(pending, indices, k - 1);
    }
  }

  /** The places of the batch that have no row yet, in order. */
  ghost predicate Fresh(added: seq<nat>, at: seq<nat>, n: nat)
  {
    && Increasing(added)
    && (forall i :: 0 <= i < |added| ==> added[i] < n && added[i] !in at)
    && (forall i :: 0 <= i < n && i !in at ==> i in added)
  }

  lemma TailIsFresh(r: seq<nat>, p: seq<nat>, at: seq<nat>, added: seq<nat>)
    requires Embeds(r, p, at) && Distinct(p) && |r| <= |p| && (r == [] || r[|r| - 1] == p[|r| - 1])
    requires |added| == |p| - |r| && forall i :: 0 <= i < |added| ==> added[i] == |r| + i
    ensures Fresh(added, at, |p|)
  {
    if r != [] {
      LastInPlace(r, p, at);
    }
    forall i | 0 <= i < |r| ensures i in at {
      assert at[i] == i;
    }
    forall i | |r| <= i < |p| ensures i in added {
      assert added[i - |r|] == i;
    }
    forall i | 0 <= i < |added| ensures added[i] !in at {
      forall j | 0 <= j < |at| ensures at[j] != added[i] {
      }
    }
  }

  lemma CountedIsFresh(pending: seq<Entry>, indices: map<nat, nat>, r: seq<nat>, at: seq<nat>)
    requires Embeds(r, Ids(pending), at) && forall i :: 0 <= i < |r| ==> r[i] in indices
    requires |r| <= |pending| && |Unlisted(pending, indices, |pending|)| == |pending| - |r|
    ensures Fresh(Unlisted(pending, indices, |pending|), at, |pending|)
  {
    hide Unlisted;
    var added := Unlisted(pending, indices, |pending|);
    UnlistedIs(pending, indices, |pending|);
    forall i | 0 <= i < |at| ensures at[i] !in added {
      assert r[i] == pending[at[i]].id;
    }
    Cover(at, added, |pending|);
    forall i | 0 <= i < |added| ensures added[i] !in at {
      forall j | 0 <= j < |at| ensures at[j] != added[i] {
        assert at[j] !in added;
      }
    }
  }

  // ---- what a batch changes besides the layout ----

  function Picked(pending: seq<Entry>, added: seq<nat>): (r: seq<Entry>)
    requires forall i :: 0 <= i < |added| ==> added[i] < |pending|
    ensures |r| == |added| && forall i :: 0 <= i < |r| ==> r[i] == pending[added[i]]
  {
    seq(|added|, i requires 0 <= i < |added| => pending[added[i]])
  }

  function IdSet(entries: seq<Entry>): set<nat>
  {
    set i | 0 <= i < |entries| :: entries[i].id
  }

  function PathSet(entries: seq<Entry>): set<Path>
  {
    set i | 0 <= i < |entries| :: entries[i].path
  }

  function Indexed(indices: map<nat, nat>, base: nat, entries: seq<Entry>): map<nat, nat>
  {
    if entries == [] then indices
    else Indexed(indices, base, entries[..|entries| - 1])[entries[|entries| - 1].id := base + |entries| - 1]
  }

  /**
   New entries join the list, and take over selection, size query and cut mark from the tab; all others keep
   theirs.
   */
  ghost predicate Takes(s: RowState, tab: TabView, arrivals: seq<Entry>, t: RowState)
  {
    t == s.(entries := s.entries + arrivals,
            indices := Indexed(s.indices, |s.entries|, arrivals),
            selected := s.selected - IdSet(arrivals) + (tab.selected * IdSet(arrivals)),
            querying := s.querying - IdSet(arrivals) + (tab.querying * IdSet(arrivals)),
            cut := s.cut - PathSet(arrivals) + (tab.cut * PathSet(arrivals)),
            layout := t.layout, focused := t.focused)
  }

  /**
   A batch is taken unless the list is grouped or longer than it, or an entry is known but not shown, or the
   entries are in use elsewhere.
   */
  predicate CanAppend(s: RowState, pending: seq<Entry>, inUse: bool)
  {
    var visuals := s.layout.visuals;
    && NoHeaders(visuals) && |visuals| <= |pending|
    && (LastAligned(visuals, pending) || |Unlisted(pending, s.indices, |pending|)| == |pending| - |visuals|)
    && (|visuals| == |pending| || !inUse || s.entries == [])
  }

  /** Every entry of the batch that is known has a row. */
  ghost predicate KnownAreShown(s: RowState, pending: seq<Entry>)
  {
    forall i :: 0 <= i < |pending| && pending[i].id in s.indices ==> Row(pending[i].id) in s.layout.visuals
  }

  lemma ShownOrUnlisted(s: RowState, pending: seq<Entry>, r: seq<nat>, at: seq<nat>)
    requires Embeds(r, Ids(pending), at) && Distinct(Ids(pending)) && |r| <= |pending|
    requires forall i :: 0 <= i < |r| ==> r[i] in s.indices
    requires forall id :: id in r <==> Row(id) in s.layout.visuals
    ensures |Unlisted(pending, s.indices, |pending|)| == |pending| - |r| <==> KnownAreShown(s, pending)
  {
    var added := Unlisted(pending, s.indices, |pending|);
    UnlistedIs(pending, s.indices, |pending|);
    hide Unlisted;
    forall i | 0 <= i < |at| ensures at[i] !in added {
      assert r[i] == pending[at[i]].id;
    }
    if |added| == |pending| - |r| {
      Cover(at, added, |pending|);
      forall i | 0 <= i < |pending| && pending[i].id in s.indices ensures pending[i].id in r {
        assert i in at;
        var j :| 0 <= j < |at| && at[j] == i;
        assert r[j] == pending[i].id;
      }
    }
    if KnownAreShown(s, pending) {
      forall k | 0 <= k < |pending| ensures k in at || k in added {
        if k !in added {
          var j :| 0 <= j < |r| && r[j] == pending[k].id;
          assert Ids(pending)[at[j]] == Ids(pending)[k];
          assert at[j] == k;
        }
      }
      CoverCounts(at, added, |pending|);
    }
  }

  /**
   A batch is taken exactly if the list shows nothing but entries and not more than the batch has; its last
   row is in its place in the batch, or every known entry of the batch is shown; and nothing is new, the
   entries are not in use elsewhere, or there are none.
   */
  lemma CanAppendMeans(s: RowState, pending: seq<Entry>, inUse: bool)
    requires Appendable(s, pending)
    ensures CanAppend(s, pending, inUse) <==>
              var rows := s.layout.visuals;
              && (forall i :: 0 <= i < |rows| ==> rows[i].Row?) && |rows| <= |pending|
              && (rows == [] || rows[|rows| - 1] == Row(pending[|rows| - 1].id) || KnownAreShown(s, pending))
              && (|rows| == |pending| || !inUse || s.entries == [])
  {
    hide Unlisted, Embeds, KnownAreShown, LayoutOk, Distinct;
    var rows := s.layout.visuals;
    if NoHeaders(rows) && |rows| <= |pending| {
      var r := ShownIds(rows);
      var at :| Embeds(r, Ids(pending), at);
      ShownAre(rows);
      ShownOrUnlisted(s, pending, r, at);
    }
  }

  lemma ShownAre(rows: seq<Visual>)
    requires NoHeaders(rows)
    ensures forall id :: id in ShownIds(rows) <==> Row(id) in rows
    ensures forall i :: 0 <= i < |rows| ==> rows[i].Row? && ShownIds(rows)[i] == rows[i].id
  {
    forall id | Row(id) in rows ensures id in ShownIds(rows) {
      var i :| 0 <= i < |rows| && rows[i] == Row(id);
      assert ShownIds(rows)[i] == id;
    }
  }

  // ---- the new layout ----

  /** The rows up to `first` stay; from there on rows, positions and tops are written anew. */
  function Rewritten(l: Layout, ids: seq<nat>, first: nat, k: nat, rowHeight: real): Layout
    requires first <= k <= |ids| && first <= |l.visuals| <= |ids| && |l.tops| == |l.heights| == |l.visuals|
  {
    Layout(l.visuals[..first] + RowsOf(ids[first..k]) + Resized(l.visuals, |ids|, Row(0))[k..],
           Placed(l.positions, ids, first, k),
           l.tops[..first] + Multiples(first, k, rowHeight) + Resized(l.tops, |ids|, 0.0)[k..],
           Resized(l.heights, |ids|, rowHeight),
           l.extent)
  }

  /** `resize`. */
  function Resized<T>(list: seq<T>, n: nat, value: T): (r: seq<T>)
    requires |list| <= n
    ensures |r| == n && r[..|list|] == list && forall i :: |list| <= i < n ==> r[i] == value
  {
    list + seq(n - |list|, _ => value)
  }

  function Multiples(from: nat, to: nat, h: real): (r: seq<real>)
    requires from <= to
    ensures |r| == to - from && forall i :: 0 <= i < |r| ==> r[i] == Stack(from + i, h)
  {
    seq(to - from, i requires 0 <= i < to - from => Stack(from + i, h))
  }

  function Placed(positions: map<nat, nat>, ids: seq<nat>, first: nat, k: nat): map<nat, nat>
    requires first <= k <= |ids|
    decreases k
  {
    if k == first then positions else Placed(positions, ids, first, k - 1)[ids[k - 1] := k - 1]
  }

  lemma {:induction false} PlacedIs(positions: map<nat, nat>, ids: seq<nat>, first: nat, k: nat)
    requires first <= k <= |ids| && Distinct(ids)
    ensures forall i :: first <= i < k ==>
              ids[i] in Placed(positions, ids, first, k) && Placed(positions, ids, first, k)[ids[i]] == i
    ensures forall id :: id in Placed(positions, ids, first, k) ==>
              if id in ids[first..k] then true
                else id in positions && Placed(positions, ids, first, k)[id] == positions[id]
    ensures forall id :: id in positions ==> id in Placed(positions, ids, first, k)
    decreases k
  {
    if k > first {
      PlacedIs(positions, ids, first, k - 1);
      assert ids[first..k] == ids[first..k - 1] + [ids[k - 1]];
    }
  }

  /** The part of the list ahead of the first new row is already right. */
  lemma PrefixRight(r: seq<nat>, ids: seq<nat>, at: seq<nat>, first: nat)
    requires Embeds(r, ids, at) && first <= |ids| && forall i :: 0 <= i < first ==> i in at
    ensures first <= |r| && r[..first] == ids[..first]
  {
    PartlyEnds(r, ids, at);
    PartlySkip(r, ids, at, 0, first);
    hide Below;
    assert Partly(r, ids, at, first) == r;
  }

  lemma RewrittenVisuals(l: Layout, r: seq<nat>, ids: seq<nat>, first: nat, rowHeight: real)
    requires first <= |l.visuals| <= |ids| && |l.tops| == |l.heights| == |l.visuals|
    requires NoHeaders(l.visuals) && r == ShownIds(l.visuals) && r[..first] == ids[..first]
    ensures Rewritten(l, ids, first, |ids|, rowHeight).visuals == RowsOf(ids)
  {
    var v := l.visuals[..first] + RowsOf(ids[first..]);
    forall i | 0 <= i < first ensures v[i] == Row(ids[i]) {
      assert r[..first][i] == ids[..first][i];
    }
    assert v == RowsOf(ids);
    assert ids[first..|ids|] == ids[first..];
  }

  lemma InSuffix(ids: seq<nat>, first: nat, k: nat)
    requires first <= |ids| && k < |ids|
    ensures k >= first ==> ids[k] in ids[first..]
  {
    if k >= first {
      assert ids[first..][k - first] == ids[k];
    }
  }

  /** An id that is not rewritten kept its place. */
  lemma KeptPlace(l: Layout, r: seq<nat>, ids: seq<nat>, at: seq<nat>, first: nat, id: nat)
    requires Inverse(l.visuals, l.positions) && NoHeaders(l.visuals) && r == ShownIds(l.visuals)
    requires Embeds(r, ids, at) && first <= |r| && first <= |ids| && r[..first] == ids[..first]
    requires id in l.positions && id !in ids[first..]
    ensures l.positions[id] < first && ids[l.positions[id]] == id
  {
    hide Distinct;
    var j := l.positions[id];
    assert l.visuals[j] == Row(id) && r[j] == id && ids[at[j]] == id;
    InSuffix(ids, first, at[j]);
    assert r[..first][at[j]] == ids[..first][at[j]];
    assert l.visuals[at[j]] == Row(id);
  }

  lemma RewrittenInverse(l: Layout, r: seq<nat>, ids: seq<nat>, at: seq<nat>, first: nat)
    requires Inverse(l.visuals, l.positions) && NoHeaders(l.visuals) && r == ShownIds(l.visuals)
    requires Distinct(ids) && Embeds(r, ids, at) && first <= |r| && first <= |ids| && r[..first] == ids[..first]
    ensures Inverse(RowsOf(ids), Placed(l.positions, ids, first, |ids|))
  {
    hide Placed, Embeds, Distinct;
    var positions := Placed(l.positions, ids, first, |ids|);
    assert ids[first..|ids|] == ids[first..];
    PlacedIs(l.positions, ids, first, |ids|);
    forall i | 0 <= i < |ids| ensures ids[i] in positions && positions[ids[i]] == i {
      if i < first {
        FrontPlace(l, r, ids, first, i);
      }
    }
    forall id | id in positions ensures positions[id] < |ids| && RowsOf(ids)[positions[id]] == Row(id) {
      if id in ids[first..] {
        var i :| 0 <= i < |ids| - first && ids[first..][i] == id;
        assert ids[first + i] == id;
      } else {
        KeptPlace(l, r, ids, at, first, id);
      }
    }
  }

  lemma FrontPlace(l: Layout, r: seq<nat>, ids: seq<nat>, first: nat, i: nat)
    requires Inverse(l.visuals, l.positions) && NoHeaders(l.visuals) && r == ShownIds(l.visuals)
    requires Distinct(ids) && first <= |r| && first <= |ids| && r[..first] == ids[..first] && i < first
    ensures ids[i] in l.positions && l.positions[ids[i]] == i && ids[i] !in ids[first..]
  {
    assert r[..first][i] == ids[..first][i];
    assert l.visuals[i] == Row(ids[i]);
    forall j | 0 <= j < |ids| - first ensures ids[first..][j] != ids[i] {
      assert ids[i] != ids[first + j];
    }
  }

  lemma RewrittenOk(l: Layout, r: seq<nat>, ids: seq<nat>, at: seq<nat>, first: nat, rowHeight: real)
    requires LayoutOk(l, rowHeight) && NoHeaders(l.visuals) && r == ShownIds(l.visuals) && |r| <= |ids|
    requires Distinct(ids) && Embeds(r, ids, at) && first <= |ids| && forall i :: 0 <= i < first ==> i in at
    ensures first <= |r|
    ensures var t := Rewritten(l, ids, first, |ids|, rowHeight).(extent := Stack(|ids|, rowHeight));
            t.visuals == RowsOf(ids) && LayoutOk(t, rowHeight)
  {
    hide Inverse, Rewritten, Placed, Stack, SumOf;
    PrefixRight(r, ids, at, first);
    RewrittenVisuals(l, r, ids, first, rowHeight);
    RewrittenInverse(l, r, ids, at, first);
    RewrittenStacked(l, r, ids, first, rowHeight);
    RewrittenParts(l, ids, first, rowHeight);
  }

  lemma RewrittenParts(l: Layout, ids: seq<nat>, first: nat, rowHeight: real)
    requires first <= |l.visuals| <= |ids| && |l.tops| == |l.heights| == |l.visuals|
    ensures Rewritten(l, ids, first, |ids|, rowHeight).positions == Placed(l.positions, ids, first, |ids|)
  {
  }

  lemma RewrittenStacked(l: Layout, r: seq<nat>, ids: seq<nat>, first: nat, rowHeight: real)
    requires LayoutOk(l, rowHeight) && NoHeaders(l.visuals) && r == ShownIds(l.visuals) && first <= |r| <= |ids|
    requires Rewritten(l, ids, first, |ids|, rowHeight).visuals == RowsOf(ids)
    ensures Stacked(Rewritten(l, ids, first, |ids|, rowHeight).(extent := Stack(|ids|, rowHeight)), rowHeight)
  {
    hide Inverse, Placed, Stack, SumOf;
    var t := Rewritten(l, ids, first, |ids|, rowHeight);
    assert l.visuals == RowsOf(r);
    PlainGeometry(l, r, rowHeight);
    assert forall i :: 0 <= i < |ids| ==> t.heights[i] == rowHeight by {
      assert t.heights[..|l.heights|] == l.heights;
      forall i | 0 <= i < |l.heights| ensures t.heights[i] == rowHeight {
        assert t.heights[..|l.heights|][i] == l.heights[i];
      }
    }
    EqualHeights(t.heights, rowHeight);
    forall i | 0 <= i < |ids| ensures t.tops[i] == SumOf(t.heights[..i]) {
      EqualHeights(t.heights[..i], rowHeight);
    }
  }

  // ---- the operation ----

  /** `added`: the tail of the batch, or everything in it that the index does not know. */
  method FindAdded(s: RowState, pending: seq<Entry>) returns (added: seq<nat>)
    requires NoHeaders(s.layout.visuals) && |s.layout.visuals| <= |pending|
    ensures added == NewPlaces(s, pending)
  {
    var shown := |s.layout.visuals|;
    added := [];
    if LastAligned(s.layout.visuals, pending) {
      var i := shown;
      while i < |pending|
        invariant shown <= i <= |pending|
        invariant added == seq(i - shown, j requires 0 <= j => shown + j)
      {
        added := added + [i];
        i := i + 1;
      }
    } else {
      var i := 0;
      while i < |pending|
        invariant 0 <= i <= |pending|
        invariant added == Unlisted(pending, s.indices, i)
      {
        if pending[i].id !in s.indices {
          added := added + [i];
        }
        i := i + 1;
      }
    }
  }

  function NewPlaces(s: RowState, pending: seq<Entry>): (r: seq<nat>)
    requires |s.layout.visuals| <= |pending|
  {
    if LastAligned(s.layout.visuals, pending) then
      seq(|pending| - |s.layout.visuals|, j requires 0 <= j => |s.layout.visuals| + j)
    else Unlisted(pending, s.indices, |pending|)
  }

  lemma NewPlacesFresh(s: RowState, pending: seq<Entry>, at: seq<nat>)
    requires Appendable(s, pending) && NoHeaders(s.layout.visuals) && |s.layout.visuals| <= |pending|
    requires Embeds(ShownIds(s.layout.visuals), Ids(pending), at)
    requires |NewPlaces(s, pending)| == |pending| - |s.layout.visuals|
    ensures Fresh(NewPlaces(s, pending), at, |pending|)
  {
    hide LayoutOk, Embeds, Distinct, Unlisted, Fresh;
    var r := ShownIds(s.layout.visuals);
    if LastAligned(s.layout.visuals, pending) {
      TailIsFresh(r, Ids(pending), at, NewPlaces(s, pending));
    } else {
      CountedIsFresh(pending, s.indices, r, at);
    }
  }

  /** The rows announced so far lead a view from the old list to the batch up to the last of them. */
  lemma AnnounceStep(r: seq<nat>, p: seq<nat>, at: seq<nat>, added: seq<nat>, a: nat, ranges: seq<(nat, nat)>)
    requires Embeds(r, p, at) && Fresh(added, at, |p|) && a < |added|
    requires Replay(r, ranges, p) == Some(Partly(r, p, at, if a == 0 then 0 else added[a - 1] + 1))
    ensures Replay(r, Announced(ranges, added[a]), p) == Some(Partly(r, p, at, added[a] + 1))
  {
    hide Partly, Replay, Announced, Increasing;
    var from := if a == 0 then 0 else added[a - 1] + 1;
    assert added[a] !in at;
    BetweenIsOld(at, added, |p|, a);
    PartlySkip(r, p, at, from, added[a]);
    PartlyStep(r, p, at, added[a]);
    AnnouncedReplays(r, ranges, p, added[a], Partly(r, p, at, added[a]));
  }

  lemma NotBetween(added: seq<nat>, a: nat, i: nat)
    requires Increasing(added) && a <= |added| && (a == 0 || added[a - 1] < i) && (a == |added| || i < added[a])
    ensures i !in added
  {
    forall b | 0 <= b < |added| ensures added[b] != i {
    }
  }

  lemma BetweenIsOld(at: seq<nat>, added: seq<nat>, n: nat, a: nat)
    requires Fresh(added, at, n) && a <= |added|
    ensures var from := if a == 0 then 0 else added[a - 1] + 1;
            var to := if a == |added| then n else added[a];
            from <= to <= n && forall i :: from <= i < to ==> i in at
  {
    var from := if a == 0 then 0 else added[a - 1] + 1;
    var to := if a == |added| then n else added[a];
    forall i | from <= i < to ensures i in at {
      NotBetween(added, a, i);
    }
  }

  lemma AnnounceEnd(r: seq<nat>, p: seq<nat>, at: seq<nat>, added: seq<nat>, ranges: seq<(nat, nat)>)
    requires Embeds(r, p, at) && Fresh(added, at, |p|)
    requires Replay(r, ranges, p) == Some(Partly(r, p, at, if added == [] then 0 else added[|added| - 1] + 1))
    ensures Replay(r, ranges, p) == Some(p)
  {
    BetweenIsOld(at, added, |p|, |added|);
    hide Embeds, Partly, Replay, Fresh;
    PartlySkip(r, p, at, if added == [] then 0 else added[|added| - 1] + 1, |p|);
    PartlyEnds(r, p, at);
  }

  lemma TakesOne(s: RowState, tab: TabView, before: seq<Entry>, e: Entry, t: RowState, u: RowState)
    requires Takes(s, tab, before, t)
    requires u == t.(entries := t.entries + [e],
                     indices := t.indices[e.id := |t.entries|],
                     selected := if e.id in tab.selected then t.selected + {e.id} else t.selected - {e.id},
                     querying := if e.id in tab.querying then t.querying + {e.id} else t.querying - {e.id},
                     cut := if e.path in tab.cut then t.cut + {e.path} else t.cut - {e.path})
    ensures Takes(s, tab, before + [e], u)
  {
    hide Indexed;
    var more := before + [e];
    IdSetSnoc(before, e);
    assert Indexed(s.indices, |s.entries|, more)
      == Indexed(s.indices, |s.entries|, before)[e.id := |s.entries| + |before|] by {
      IndexedSnoc(s.indices, |s.entries|, before, e);
    }
  }

  lemma IndexedSnoc(indices: map<nat, nat>, base: nat, before: seq<Entry>, e: Entry)
    ensures Indexed(indices, base, before + [e]) == Indexed(indices, base, before)[e.id := base + |before|]
  {
    assert (before + [e])[..|before|] == before;
  }

  lemma IdSetSnoc(before: seq<Entry>, e: Entry)
    ensures IdSet(before + [e]) == IdSet(before) + {e.id} && PathSet(before + [e]) == PathSet(before) + {e.path}
  {
    var more := before + [e];
    forall x | x in IdSet(before) + {e.id} ensures x in IdSet(more) {
      if x == e.id {
        assert more[|before|] == e;
      } else {
        var i :| 0 <= i < |before| && before[i].id == x;
        assert more[i] == before[i];
      }
    }
    forall x | x in PathSet(before) + {e.path} ensures x in PathSet(more) {
      if x == e.path {
        assert more[|before|] == e;
      } else {
        var i :| 0 <= i < |before| && before[i].path == x;
        assert more[i] == before[i];
      }
    }
  }

  class DirectoryRows {
    var state: RowState

    constructor (state: RowState)
      ensures this.state == state
    {
      this.state := state;
    }

    /** The loop over `added`: entries, index, marks, and the ranges to announce. */
    method TakeEntries(tab: TabView, added: seq<nat>, ghost at: seq<nat>) returns (ranges: seq<(nat, nat)>)
      requires NoHeaders(state.layout.visuals)
      requires Embeds(ShownIds(state.layout.visuals), Ids(tab.pending), at) && Fresh(added, at, |tab.pending|)
      modifies this
      ensures forall i :: 0 <= i < |added| ==> added[i] < |tab.pending|
      ensures Takes(old(state), tab, Picked(tab.pending, added), state)
      ensures state.layout == old(state).layout && state.rowHeight == old(state).rowHeight
              && state.focused == old(state).focused
      ensures Replay(ShownIds(old(state).layout.visuals), ranges, Ids(tab.pending)) == Some(Ids(tab.pending))
    {
      hide Partly, Replay, Announced, Takes, Increasing;
      ghost var r, p := ShownIds(state.layout.visuals), Ids(tab.pending);
      ranges := [];
      StartAnnouncing(r, p, at);
      StartTaking(state, tab);
      var s := state;
      var a := 0;
      while a < |added|
        invariant 0 <= a <= |added| && state == old(state)
        invariant Takes(state, tab, Picked(tab.pending, added[..a]), s)
        invariant s.layout == state.layout && s.rowHeight == state.rowHeight && s.focused == state.focused
        invariant Replay(r, ranges, p) == Some(Partly(r, p, at, if a == 0 then 0 else added[a - 1] + 1))
      {
        var entry := tab.pending[added[a]];
        ghost var t := s;
        s := s.(indices := s.indices[entry.id := |s.entries|],
                entries := s.entries + [entry],
                selected := if entry.id in tab.selected then s.selected + {entry.id} else s.selected - {entry.id},
                querying := if entry.id in tab.querying then s.querying + {entry.id} else s.querying - {entry.id},
                cut := if entry.path in tab.cut then s.cut + {entry.path} else s.cut - {entry.path});
        TakesOne(state, tab, Picked(tab.pending, added[..a]), entry, t, s);
        assert Picked(tab.pending, added[..a + 1]) == Picked(tab.pending, added[..a]) + [entry];
        AnnounceStep(r, p, at, added, a, ranges);
        ranges := Announced(ranges, added[a]);
        a := a + 1;
      }
      AnnounceEnd(r, p, at, added, ranges);
      assert added[..a] == added;
      state := s;
    }

    /** The suffix rewrite: rows, positions and tops from the first new row on. */
    method Rewrite(tab: TabView, first: nat)
      requires |state.layout.tops| == |state.layout.heights| == |state.layout.visuals| <= |tab.pending|
      requires first <= |state.layout.visuals|
      modifies this
      ensures state == old(state).(layout :=
                Rewritten(old(state).layout, Ids(tab.pending), first, |tab.pending|, state.rowHeight)
                .(extent := Stack(|tab.pending|, state.rowHeight)))
    {
      hide Rewritten;
      var l, n := state.layout, |tab.pending|;
      ghost var ids := Ids(tab.pending);
      var next := Layout(Resized(l.visuals, n, Row(0)), l.positions, Resized(l.tops, n, 0.0),
        Resized(l.heights, n, state.rowHeight), l.extent);
      RewriteStarts(l, ids, first, state.rowHeight);
      var i := first;
      while i < n
        invariant first <= i <= n && |next.visuals| == |next.tops| == n && state == old(state)
        invariant next == Rewritten(l, ids, first, i, state.rowHeight)
      {
        RewriteSteps(l, ids, first, i, state.rowHeight);
        next := next.(visuals := next.visuals[i := Row(tab.pending[i].id)],
                      positions := next.positions[tab.pending[i].id := i],
                      tops := next.tops[i := Stack(i, state.rowHeight)]);
        i := i + 1;
      }
      state := state.(layout := next.(extent := Stack(n, state.rowHeight)));
    }

    /** What happens once it is clear that the batch can be taken. */
    method Commit(tab: TabView, added: seq<nat>, ghost at: seq<nat>) returns (ranges: seq<(nat, nat)>)
      requires LayoutOk(state.layout, state.rowHeight) && NoHeaders(state.layout.visuals) && Distinct(Ids(tab.pending))
      requires |state.layout.visuals| <= |tab.pending|
      requires Embeds(ShownIds(state.layout.visuals), Ids(tab.pending), at) && Fresh(added, at, |tab.pending|)
      modifies this
      ensures forall i :: 0 <= i < |added| ==> added[i] < |tab.pending|
      ensures Takes(old(state), tab, Picked(tab.pending, added), state)
      ensures state.layout.visuals == RowsOf(Ids(tab.pending)) && LayoutOk(state.layout, state.rowHeight)
      ensures state.rowHeight == old(state).rowHeight && state.focused == old(state).focused
      ensures Replay(ShownIds(old(state).layout.visuals), ranges, Ids(tab.pending)) == Some(Ids(tab.pending))
    {
      hide LayoutOk, Embeds, Distinct, Replay, Fresh, Rewritten, NoHeaders, Indexed, IdSet, PathSet;
      ghost var before := state;
      ranges := TakeEntries(tab, added, at);
      FirstIsNew(before, tab.pending, at, added);
      if added != [] {
        RewrittenOk(before.layout, ShownIds(before.layout.visuals), Ids(tab.pending), at, added[0], before.rowHeight);
        Lengths(before.layout, before.rowHeight);
        Rewrite(tab, added[0]);
      }
    }

    /**
     `append_pending`. When it returns true the rows are exactly the batch, laid out as a rebuild
     would, and the ranges announced lead any view of the old rows to the new ones. When it returns
     false nothing changed and nothing was announced. `inUse`: someone else holds the entry list.
     */
    method AppendPending(tab: TabView, inUse: bool) returns (ok: bool, ranges: seq<(nat, nat)>, focus: seq<nat>)
      requires Appendable(state, tab.pending)
      modifies this
      ensures ok <==> CanAppend(old(state), tab.pending, inUse)
      ensures !ok ==> state == old(state) && ranges == [] && focus == []
      ensures ok ==> Extends(old(state), tab, state, ranges)
      ensures ok ==> focus == if old(state).focused == tab.focused then [] else Both(old(state).focused, tab.focused)
      ensures forall id :: id in focus <==>
                ok && old(state).focused != tab.focused && (old(state).focused == Some(id) || tab.focused == Some(id))
    {
      hide LayoutOk, Unlisted, Embeds, Distinct, Replay, Takes, Fresh, LastAligned, Subsequence, NoHeaders, NewPlaces;
      ok, ranges, focus := false, [], [];
      var shown := |state.layout.visuals|;
      SameLengthMeansNoHeaders(state.layout, state.rowHeight);
      if shown != |state.layout.positions| || shown > |tab.pending| {
        return;
      }
      var added := FindAdded(state, tab.pending);
      NewPlacesCount(state, tab.pending);
      if |added| != |tab.pending| - shown {
        return;
      }
      if added != [] && inUse && state.entries != [] {
        return;
      }
      ghost var before := state;
      ghost var at := EmbeddingOf(state, tab.pending);
      NewPlacesFresh(state, tab.pending, at);
      ranges := Commit(tab, added, at);
      focus := if state.focused == tab.focused then [] else Both(state.focused, tab.focused);
      ghost var taken := state;
      state := state.(focused := tab.focused);
      FocusIsSeparate(before, tab, Picked(tab.pending, added), taken, state);
      ok := true;
    }
  }

  /** What a batch that was taken did. */
  ghost predicate Extends(s: RowState, tab: TabView, t: RowState, ranges: seq<(nat, nat)>)
  {
    && NoHeaders(s.layout.visuals) && |s.layout.visuals| <= |tab.pending|
    && t.layout.visuals == RowsOf(Ids(tab.pending)) && LayoutOk(t.layout, t.rowHeight)
    && Replay(ShownIds(s.layout.visuals), ranges, Ids(tab.pending)) == Some(Ids(tab.pending))
    && (forall i :: 0 <= i < |NewPlaces(s, tab.pending)| ==> NewPlaces(s, tab.pending)[i] < |tab.pending|)
    && Takes(s, tab, Picked(tab.pending, NewPlaces(s, tab.pending)), t)
    && t.focused == tab.focused && t.rowHeight == s.rowHeight
  }

  lemma FocusIsSeparate(s: RowState, tab: TabView, arrivals: seq<Entry>, t: RowState, u: RowState)
    requires Takes(s, tab, arrivals, t) && u == t.(focused := u.focused)
    ensures Takes(s, tab, arrivals, u)
  {
    hide Indexed, IdSet, PathSet;
  }

  lemma NewPlacesCount(s: RowState, pending: seq<Entry>)
    requires |s.layout.visuals| <= |pending|
    ensures |NewPlaces(s, pending)| == |pending| - |s.layout.visuals| <==>
              LastAligned(s.layout.visuals, pending)
                || |Unlisted(pending, s.indices, |pending|)| == |pending| - |s.layout.visuals|
  {
    hide Unlisted;
  }

  lemma RewriteStarts(l: Layout, ids: seq<nat>, first: nat, rowHeight: real)
    requires first <= |l.visuals| <= |ids| && |l.tops| == |l.heights| == |l.visuals|
    ensures Rewritten(l, ids, first, first, rowHeight) ==
              Layout(Resized(l.visuals, |ids|, Row(0)), l.positions, Resized(l.tops, |ids|, 0.0),
                Resized(l.heights, |ids|, rowHeight), l.extent)
  {
    hide Stack;
    var v, t := Resized(l.visuals, |ids|, Row(0)), Resized(l.tops, |ids|, 0.0);
    assert RowsOf(ids[first..first]) == [];
    assert v == v[..first] + v[first..] && v[..first] == v[..|l.visuals|][..first];
    assert t == t[..first] + t[first..] && t[..first] == t[..|l.tops|][..first];
  }

  lemma RewriteSteps(l: Layout, ids: seq<nat>, first: nat, k: nat, rowHeight: real)
    requires first <= k < |ids| && first <= |l.visuals| <= |ids| && |l.tops| == |l.heights| == |l.visuals|
    ensures var now := Rewritten(l, ids, first, k, rowHeight);
            && |now.visuals| == |now.tops| == |ids|
            && Rewritten(l, ids, first, k + 1, rowHeight) ==
                 now.(visuals := now.visuals[k := Row(ids[k])], positions := now.positions[ids[k] := k],
                      tops := now.tops[k := Stack(k, rowHeight)])
  {
    hide Stack;
    RewriteStepVisuals(l.visuals[..first], RowsOf(ids[first..k]), Resized(l.visuals, |ids|, Row(0)), k, Row(ids[k]));
    assert RowsOf(ids[first..k + 1]) == RowsOf(ids[first..k]) + [Row(ids[k])];
    RewriteStepVisuals(l.tops[..first], Multiples(first, k, rowHeight), Resized(l.tops, |ids|, 0.0), k,
      Stack(k, rowHeight));
    assert Multiples(first, k + 1, rowHeight) == Multiples(first, k, rowHeight) + [Stack(k, rowHeight)];
  }

  lemma RewriteStepVisuals<T>(front: seq<T>, middle: seq<T>, all: seq<T>, k: nat, v: T)
    requires |front| + |middle| == k < |all|
    ensures (front + middle + all[k..])[k := v] == front + (middle + [v]) + all[k + 1..]
  {
  }

  function Both(a: Option<nat>, b: Option<nat>): seq<nat>
  {
    (if a.Some? then [a.value] else []) + if b.Some? then [b.value] else []
  }

  lemma Lengths(l: Layout, rowHeight: real)
    requires LayoutOk(l, rowHeight)
    ensures |l.tops| == |l.heights| == |l.visuals|
  {
  }

  lemma EmbeddingOf(s: RowState, pending: seq<Entry>) returns (at: seq<nat>)
    requires Appendable(s, pending) && NoHeaders(s.layout.visuals)
    ensures Embeds(ShownIds(s.layout.visuals), Ids(pending), at)
  {
    hide Embeds;
    at :| Embeds(ShownIds(s.layout.visuals), Ids(pending), at);
  }

  /** Everything ahead of the first new entry has its row, and without a new one the rows are the batch. */
  lemma FirstIsNew(s: RowState, pending: seq<Entry>, at: seq<nat>, added: seq<nat>)
    requires NoHeaders(s.layout.visuals) && Embeds(ShownIds(s.layout.visuals), Ids(pending), at)
             && Fresh(added, at, |pending|)
    ensures added != [] ==> added[0] < |pending| && forall i :: 0 <= i < added[0] ==> i in at
    ensures added == [] ==> s.layout.visuals == RowsOf(Ids(pending))
  {
    hide Embeds;
    if added == [] {
      NothingNew(ShownIds(s.layout.visuals), Ids(pending), at);
      assert s.layout.visuals == RowsOf(ShownIds(s.layout.visuals));
    } else {
      BetweenIsOld(at, added, |pending|, 0);
    }
  }

  lemma NothingNew(r: seq<nat>, p: seq<nat>, at: seq<nat>)
    requires Embeds(r, p, at) && Fresh([], at, |p|)
    ensures r == p
  {
    hide Embeds, Partly;
    PartlySkip(r, p, at, 0, |p|);
    PartlyEnds(r, p, at);
  }

  lemma StartAnnouncing(r: seq<nat>, p: seq<nat>, at: seq<nat>)
    requires Embeds(r, p, at)
    ensures Replay(r, [], p) == Some(Partly(r, p, at, 0))
  {
    PartlyEnds(r, p, at);
  }

  lemma StartTaking(s: RowState, tab: TabView)
    ensures Takes(s, tab, Picked(tab.pending, [][..0]), s)
  {
  }

  /**
   The rows, positions, tops and extent after an append are those a rebuild from the batch gives, and
   row `i` begins at `i` row heights.
   */
  lemma AppendedIsRebuilt(s: RowState, tab: TabView, t: RowState, ranges: seq<(nat, nat)>, rebuilt: Layout)
    requires Extends(s, tab, t, ranges)
    requires Built(rebuilt, [Grouping.Group("", "", "", Ids(tab.pending), false)], s.rowHeight)
    ensures t.layout == rebuilt
    ensures forall i :: 0 <= i < |tab.pending| ==> t.layout.tops[i] == Stack(i, s.rowHeight)
    ensures t.layout.extent == Stack(|tab.pending|, s.rowHeight)
  {
    hide LayoutOk, Takes, Replay, NewPlaces;
    PlainIsOneGroup(Ids(tab.pending));
    BuiltAgain(t.layout, rebuilt, [Grouping.Group("", "", "", Ids(tab.pending), false)], s.rowHeight);
    Lengths(t.layout, s.rowHeight);
    PlainGeometry(t.layout, Ids(tab.pending), s.rowHeight);
  }
}
