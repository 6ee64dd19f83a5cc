/**
 The rows of a directory view: what they are, where they are, and how they are laid out
 (src/app/directory_model.rs:96-114, 176-240).
 */
module RowModel {
  import opened Prelude
  import opened GroupRows
  import Grouping

  type Shown(==, !new)     // every other field of an entry that decides whether its row is the same

  /** `EntryPath`: a parent and a leaf. A WebDAV entry has the empty path. */
  datatype Path = Path(anchor: string, parent: seq<string>, leaf: string)

  const NO_PATH := Path("", [], "")

  // The WebDAV item behind an entry.
  datatype WebDavItem = WebDavItem(connection: nat, revision: nat, root: string, path: string)

  datatype Entry = Entry(id: nat, path: Path, name: string, file: bool, shown: Shown, remote: Option<WebDavItem>)

  type Group = Grouping.Group

  // ---- layout ----

  const PLAIN_HEADER: real := 32.0
  const DETAIL_HEADER: real := 48.0

  function HeightOf(v: Visual, rowHeight: real): real
  {
    if v.Row? then rowHeight else if v.detail == "" then PLAIN_HEADER else DETAIL_HEADER
  }

  datatype Layout = Layout(visuals: seq<Visual>, positions: map<nat, nat>, tops: seq<real>, heights: seq<real>,
        extent: real)

  const EMPTY_LAYOUT := Layout([], map[], [], [], 0.0)

  /**
   Entries have the row height and headers 32, or 48 with a detail; every row begins where the rows before
   it end.
   */
  ghost predicate Stacked(l: Layout, rowHeight: real)
  {
    && |l.tops| == |l.heights| == |l.visuals|
    && (forall i :: 0 <= i < |l.visuals| ==>
          l.heights[i] == if l.visuals[i].Row? then rowHeight else if l.visuals[i].detail == "" then 32.0 else 48.0)
    && (forall i :: 0 <= i < |l.visuals| ==> l.tops[i] == SumOf(l.heights[..i]))
    && l.extent == SumOf(l.heights)
  }

  ghost predicate LayoutOk(l: Layout, rowHeight: real)
  {
    Inverse(l.visuals, l.positions) && Stacked(l, rowHeight)
  }

  /** The rows determine the layout: two correct layouts of the same rows are equal. */
  lemma LayoutUnique(a: Layout, b: Layout, rowHeight: real)
    requires LayoutOk(a, rowHeight) && LayoutOk(b, rowHeight) && a.visuals == b.visuals
    ensures a == b
  {
    assert a.heights == b.heights;
    assert a.tops == b.tops;
    forall id | id in a.positions ensures id in b.positions && b.positions[id] == a.positions[id] {
      assert b.visuals[a.positions[id]] == Row(id);
    }
    forall id | id in b.positions ensures id in a.positions {
      assert a.visuals[b.positions[id]] == Row(id);
    }
    assert a.positions == b.positions;
  }

  function Pushed(l: Layout, v: Visual, height: real): Layout
  {
    Layout(l.visuals + [v], if v.Row? then l.positions[v.id := |l.visuals|] else l.positions,
           l.tops + [l.extent], l.heights + [height], l.extent + height)
  }

  lemma PushedStacked(l: Layout, v: Visual, rowHeight: real)
    requires Stacked(l, rowHeight)
    ensures Stacked(Pushed(l, v, HeightOf(v, rowHeight)), rowHeight)
  {
    var h := HeightOf(v, rowHeight);
    var p := Pushed(l, v, h);
    assert p.heights[..|l.heights|] == l.heights;
    forall i | 0 <= i < |p.visuals| ensures p.tops[i] == SumOf(p.heights[..i]) {
      assert p.heights[..i] == l.heights[..i];
      if i == |l.visuals| {
        assert l.heights[..i] == l.heights;
      }
    }
  }

  // ---- a list without headers ----

  /** `n` rows of one height. */
  function Stack(n: nat, h: real): real
  {
    n as real * h
  }

  lemma StackStep(n: nat, h: real)
    ensures Stack(0, h) == 0.0 && Stack(n + 1, h) == Stack(n, h) + h
  {
  }

  lemma {:induction false} EqualHeights(heights: seq<real>, h: real)
    requires forall i :: 0 <= i < |heights| ==> heights[i] == h
    ensures SumOf(heights) == Stack(|heights|, h)
    decreases |heights|
  {
    hide Stack;
    StackStep(if heights == [] then 0 else |heights| - 1, h);
    if heights != [] {
      EqualHeights(heights[..|heights| - 1], h);
    }
  }

  /** Without headers row `i` begins at `i` row heights. */
  lemma PlainGeometry(l: Layout, ids: seq<nat>, rowHeight: real)
    requires LayoutOk(l, rowHeight) && l.visuals == RowsOf(ids)
    ensures forall i :: 0 <= i < |ids| ==> l.tops[i] == Stack(i, rowHeight) && l.heights[i] == rowHeight
    ensures l.extent == Stack(|ids|, rowHeight)
  {
    hide Inverse, SumOf, Stack;
    assert forall i :: 0 <= i < |ids| ==> l.visuals[i].Row? && l.heights[i] == rowHeight;
    EqualHeights(l.heights, rowHeight);
    forall i | 0 <= i < |ids| ensures l.tops[i] == Stack(i, rowHeight) {
      EqualHeights(l.heights[..i], rowHeight);
    }
  }

  // ---- building from groups ----

  /** What `DirectoryRows::new` builds from groups. */
  ghost predicate Built(l: Layout, groups: seq<Group>, rowHeight: real)
  {
    Stacked(l, rowHeight) && l.visuals == Visuals(groups) && Latest(l.visuals, l.positions)
  }

  /** The loop of `DirectoryRows::new`. */
  method BuildLayout(groups: seq<Group>, rowHeight: real) returns (l: Layout)
    ensures Built(l, groups, rowHeight)
  {
    hide Latest, Stacked, HeightOf;
    l := EMPTY_LAYOUT;
    assert Stacked(l, rowHeight) by { EmptyStacked(rowHeight); }
    LatestOfNone();
    var g := 0;
    while g < |groups|
      invariant 0 <= g <= |groups|
      invariant Built(l, groups[..g], rowHeight)
    {
      assert groups[..g + 1][..g] == groups[..g];
      l := PushGroup(l, groups[g], rowHeight);
      g := g + 1;
    }
    assert groups[..g] == groups;
  }

  lemma EmptyStacked(rowHeight: real)
    ensures Stacked(EMPTY_LAYOUT, rowHeight)
  {
  }

  /** One more row. */
  method Push(before: Layout, v: Visual, rowHeight: real) returns (l: Layout)
    requires Stacked(before, rowHeight) && Latest(before.visuals, before.positions)
    ensures Stacked(l, rowHeight) && Latest(l.visuals, l.positions) && l.visuals == before.visuals + [v]
  {
    hide Latest, Stacked, HeightOf;
    PushedStacked(before, v, rowHeight);
    LatestOneMore(before.visuals, before.positions, v);
    l := Pushed(before, v, HeightOf(v, rowHeight));
  }

  /** One group: its header, then its entries. */
  method PushGroup(before: Layout, group: Group, rowHeight: real) returns (l: Layout)
    requires Stacked(before, rowHeight) && Latest(before.visuals, before.positions)
    ensures Stacked(l, rowHeight) && Latest(l.visuals, l.positions) && l.visuals == before.visuals + GroupVisuals(group)
  {
    hide Latest, Stacked, HeightOf;
    l := before;
    if group.headerVisible {
      l := Push(l, HeaderOf(group), rowHeight);
    }
    ghost var start := l.visuals;
    var e := 0;
    while e < |group.entries|
      invariant 0 <= e <= |group.entries|
      invariant Stacked(l, rowHeight) && Latest(l.visuals, l.positions)
      invariant l.visuals == start + RowsOf(group.entries[..e])
    {
      assert RowsOf(group.entries[..e + 1]) == RowsOf(group.entries[..e]) + [Row(group.entries[e])];
      l := Push(l, Row(group.entries[e]), rowHeight);
      e := e + 1;
    }
    assert group.entries[..e] == group.entries;
  }

  /** Built from what grouping gives, positions are the exact inverse of the rows and know every id that was given. */
  lemma GroupedLayout(l: Layout, groups: seq<Group>, entries: seq<Grouping.Entry>, headerVisible: bool,
        descending: bool, rowHeight: real)
    requires Grouping.Finished(groups, entries, headerVisible, descending) && Built(l, groups, rowHeight)
    ensures LayoutOk(l, rowHeight)
    ensures forall id :: id in l.positions <==> Grouping.Seen(entries, id)
  {
    GroupedPositions(groups, entries, headerVisible, descending, l.positions);
  }

  /** A plain list is what building one group without a header gives. */
  lemma PlainIsOneGroup(ids: seq<nat>)
    ensures Visuals([Grouping.Group("", "", "", ids, false)]) == RowsOf(ids)
  {
    var g := Grouping.Group("", "", "", ids, false);
    assert [g][..0] == [];
    assert Visuals([g]) == Visuals([g][..0]) + GroupVisuals(g);
  }

  /** Rows that have a correct layout are distinct, so whatever is built from them is laid out the same. */
  lemma BuiltAgain(l: Layout, built: Layout, groups: seq<Group>, rowHeight: real)
    requires LayoutOk(l, rowHeight) && Built(built, groups, rowHeight) && l.visuals == built.visuals
    ensures built == l
  {
    hide Stacked;
    assert DistinctRows(l.visuals);
    LatestInverts(built.visuals, built.positions);
    LayoutUnique(l, built, rowHeight);
  }
}
