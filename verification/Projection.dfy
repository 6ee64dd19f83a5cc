/**
 Rows of a grouped list or grid, and the table that finds a row by its offset
 (src/group_projection.rs:92-270).
 */
module Projection {
  import opened Prelude
  import opened GroupRows
  import opened Grouping

  // ---- offsets ----

  const MAX_U64: nat := 0xFFFF_FFFF_FFFF_FFFF

  /** `saturating_add`. */
  function Add(a: nat, b: nat): nat
  {
    if a + b > MAX_U64 then MAX_U64 else a + b
  }

  /** Where row `n` begins when numbers have no limit. */
  function Sum(extents: seq<nat>, n: nat): nat
    requires n <= |extents|
  {
    if n == 0 then 0 else Sum(extents, n - 1) + extents[n - 1]
  }

  function Limited(n: nat): nat
  {
    if n > MAX_U64 then MAX_U64 else n
  }

  datatype Offsets = Offsets(starts: seq<nat>, total: nat)

  /** The table of these extents: every start is the sum so far, as far as a word can hold it. */
  ghost predicate TableOf(o: Offsets, extents: seq<nat>)
  {
    && |o.starts| == |extents| && o.total == Limited(Sum(extents, |extents|))
    && forall i :: 0 <= i < |extents| ==> o.starts[i] == Limited(Sum(extents, i))
  }

  /** `VisualOffsets::from_extents`. */
  method FromExtents(extents: seq<nat>) returns (o: Offsets)
    ensures TableOf(o, extents)
  {
    var starts: seq<nat> := [];
    var total: nat := 0;
    var i := 0;
    while i < |extents|
      invariant 0 <= i <= |extents| && |starts| == i && total == Limited(Sum(extents, i))
      invariant forall j :: 0 <= j < i ==> starts[j] == Limited(Sum(extents, j))
    {
      starts := starts + [total];
      total := Add(total, extents[i]);
      i := i + 1;
    }
    o := Offsets(starts, total);
  }

  /** Every row starts where the one before it ends, or at the largest 64-bit number if that is beyond it. */
  lemma RowsFollow(o: Offsets, extents: seq<nat>, i: nat)
    requires TableOf(o, extents) && i < |extents|
    ensures o.starts[0] == 0
    ensures var end := o.starts[i] + extents[i];
            (if i + 1 < |extents| then o.starts[i + 1] else o.total)
            == if end < 0x1_0000_0000_0000_0000 then end else 0xFFFF_FFFF_FFFF_FFFF
    ensures o.total >= o.starts[i]
  {
    SumRises(extents, i, |extents|);
    assert Sum(extents, 0) == 0 && Sum(extents, i + 1) == Sum(extents, i) + extents[i];
  }

  function StartsUpTo(starts: seq<nat>, offset: nat): (n: nat)
    ensures n <= |starts|
    ensures forall i :: 0 <= i < n ==> starts[i] <= offset
    ensures n < |starts| ==> starts[n] > offset
  {
    PartitionPoint(starts, start => start <= offset)
  }

  datatype Location = Location(row: nat, within: nat)

  /** `locate`. */
  function Locate(o: Offsets, offset: nat): Option<Location>
  {
    if offset >= o.total || o.starts == [] then None
    else
      var n := StartsUpTo(o.starts, offset);
      if n == 0 then None else Some(Location(n - 1, offset - o.starts[n - 1]))
  }

  lemma {:induction false} SumRises(extents: seq<nat>, i: nat, j: nat)
    requires i <= j <= |extents|
    ensures Sum(extents, i) <= Sum(extents, j)
    decreases j
  {
    if i < j {
      SumRises(extents, i, j - 1);
    }
  }

  /**
   An offset is found exactly when it lies before the total, and then in the one row that holds it
   when counted without limits: saturation never misplaces it.
   */
  lemma LocateIsExact(o: Offsets, extents: seq<nat>, offset: nat)
    requires TableOf(o, extents) && offset <= MAX_U64
    ensures Locate(o, offset).None? <==> offset >= Limited(Sum(extents, |extents|))
    ensures Locate(o, offset).Some? ==>
              var l := Locate(o, offset).value;
              && l.row < |extents| && o.starts[l.row] + l.within == offset
              && Sum(extents, l.row) <= offset < Sum(extents, l.row + 1) && l.within < extents[l.row]
  {
    if offset < o.total {
      NotEmpty(extents);
      FirstStart(o, extents);
      var n := StartsUpTo(o.starts, offset);
      hide StartsUpTo;
      assert o.starts[n - 1] <= offset;
      if n < |extents| {
        assert o.starts[n] == Limited(Sum(extents, n));
      }
    }
  }

  lemma NotEmpty(extents: seq<nat>)
    ensures Sum(extents, |extents|) > 0 ==> extents != []
  {
  }

  lemma FirstStart(o: Offsets, extents: seq<nat>)
    requires TableOf(o, extents) && extents != []
    ensures o.starts[0] == 0
  {
    assert Sum(extents, 0) == 0;
  }

  /** No other row holds the offset. */
  lemma OneRowHolds(extents: seq<nat>, offset: nat, i: nat, j: nat)
    requires i < |extents| && j < |extents|
    requires Sum(extents, i) <= offset < Sum(extents, i + 1) && Sum(extents, j) <= offset < Sum(extents, j + 1)
    ensures i == j
  {
    if i < j {
      SumRises(extents, i + 1, j);
    } else if j < i {
      SumRises(extents, j + 1, i);
    }
  }

  // ---- lists ----

  ghost predicate Measured(rows: seq<Visual>, extents: seq<nat>, header: nat, entry: nat)
  {
    |extents| == |rows| && forall i :: 0 <= i < |rows| ==> extents[i] == if rows[i].Header? then header else entry
  }

  /** `ListProjection::from_groups`. */
  method ListFromGroups(groups: seq<Group>, header: nat, entry: nat)
    returns (rows: seq<Visual>, offsets: Offsets, positions: map<nat, nat>, ghost extents: seq<nat>)
    ensures rows == Visuals(groups) && Latest(rows, positions)
    ensures Measured(rows, extents, header, entry) && TableOf(offsets, extents)
  {
    hide Latest, TableOf;
    rows, positions := [], map[];
    var sizes: seq<nat> := [];
    assert Latest(rows, positions) by { LatestOfNone(); }
    var g := 0;
    while g < |groups|
      invariant 0 <= g <= |groups|
      invariant rows == Visuals(groups[..g]) && Latest(rows, positions) && Measured(rows, sizes, header, entry)
    {
      var group := groups[g];
      assert groups[..g + 1][..g] == groups[..g];
      if group.headerVisible {
        var row := HeaderOf(group);
        LatestOneMore(rows, positions, row);
        rows, sizes := rows + [row], sizes + [header];
      }
      rows, sizes, positions := ListEntries(rows, sizes, positions, group.entries, header, entry);
      g := g + 1;
    }
    assert groups[..g] == groups;
    offsets := FromExtents(sizes);
    extents := sizes;
  }

  method ListEntries(rows0: seq<Visual>, sizes0: seq<nat>, positions0: map<nat, nat>, ids: seq<nat>, ghost header: nat,
        entry: nat)
    returns (rows: seq<Visual>, sizes: seq<nat>, positions: map<nat, nat>)
    requires Latest(rows0, positions0) && Measured(rows0, sizes0, header, entry)
    ensures rows == rows0 + RowsOf(ids) && Latest(rows, positions) && Measured(rows, sizes, header, entry)
  {
    hide Latest;
    rows, sizes, positions := rows0, sizes0, positions0;
    var e := 0;
    while e < |ids|
      invariant 0 <= e <= |ids|
      invariant rows == rows0 + RowsOf(ids[..e]) && Latest(rows, positions) && Measured(rows, sizes, header, entry)
    {
      LatestOneMore(rows, positions, Row(ids[e]));
      assert RowsOf(ids[..e + 1]) == RowsOf(ids[..e]) + [Row(ids[e])];
      positions := positions[ids[e] := |rows|];
      rows, sizes := rows + [Row(ids[e])], sizes + [entry];
      e := e + 1;
    }
    assert ids[..e] == ids;
  }

  /** The entry position of an id is the one row that shows it, and exactly the ids given have one. */
  lemma PositionsInvert(groups: seq<Group>, entries: seq<Entry>, headerVisible: bool, descending: bool,
        positions: map<nat, nat>)
    requires Finished(groups, entries, headerVisible, descending) && Latest(Visuals(groups), positions)
    ensures forall id, i :: 0 <= i < |Visuals(groups)| ==>
              (Visuals(groups)[i] == Row(id) <==> id in positions && positions[id] == i)
    ensures forall id :: id in positions <==> Seen(entries, id)
  {
    hide Finished, Seen, Visuals, Latest;
    GroupedPositions(groups, entries, headerVisible, descending, positions);
  }

  // ---- grids ----

  datatype GridRow = GridHeader(key: string, title: string, detail: string, count: nat)
        | EntriesRow(key: string, entries: seq<nat>)

  datatype Cell = Cell(row: nat, column: nat)

  /** `chunks`: full rows of `columns`, and the rest. */
  function Chunks(ids: seq<nat>, columns: nat): seq<seq<nat>>
    requires columns > 0
    decreases |ids|
  {
    if ids == [] then [] else if |ids| <= columns then [ids] else [ids[..columns]] + Chunks(ids[columns..], columns)
  }

  function Flat(chunks: seq<seq<nat>>): seq<nat>
  {
    if chunks == [] then [] else chunks[0] + Flat(chunks[1..])
  }

  /** Chunks cut the list in order; every one but the last is full. */
  lemma {:induction false} ChunksCut(ids: seq<nat>, columns: nat)
    requires columns > 0
    ensures Flat(Chunks(ids, columns)) == ids
    ensures forall i :: 0 <= i < |Chunks(ids, columns)| ==> 1 <= |Chunks(ids, columns)[i]| <= columns
    ensures forall i :: 0 <= i < |Chunks(ids, columns)| - 1 ==> |Chunks(ids, columns)[i]| == columns
    decreases |ids|
  {
    if ids != [] {
      var c := Chunks(ids, columns);
      if |ids| > columns {
        ChunksCut(ids[columns..], columns);
        assert c[1..] == Chunks(ids[columns..], columns);
      } else {
        assert c[1..] == [] && Flat(c) == c[0] + Flat(c[1..]);
      }
    }
  }

  function ChunkRows(key: string, chunks: seq<seq<nat>>): (r: seq<GridRow>)
    ensures |r| == |chunks| && forall i :: 0 <= i < |r| ==> r[i] == EntriesRow(key, chunks[i])
  {
    seq(|chunks|, i requires 0 <= i < |chunks| => EntriesRow(key, chunks[i]))
  }

  function GridHeaderRows(g: Group): seq<GridRow>
  {
    if g.headerVisible then [GridHeader(g.key, g.title, g.detail, |g.entries|)] else []
  }

  function GridRows(groups: seq<Group>, columns: nat): seq<GridRow>
    requires columns > 0
  {
    if groups == [] then []
    else
      var g := groups[|groups| - 1];
      GridRows(groups[..|groups| - 1], columns) + GridHeaderRows(g) + ChunkRows(g.key, Chunks(g.entries, columns))
  }

  /**
   From row `at` on stand a header, if the group shows one, with its key, title, detail and count, and its
   entries, cut into rows under its key.
   */
  ghost predicate GridStandsAt(rows: seq<GridRow>, at: nat, g: Group, chunks: seq<seq<nat>>)
  {
    var first := if g.headerVisible then at + 1 else at;
    && first + |chunks| <= |rows|
    && (g.headerVisible ==> rows[at] == GridHeader(g.key, g.title, g.detail, |g.entries|))
    && forall e :: first <= e < first + |chunks| ==> rows[e] == EntriesRow(g.key, chunks[e - first])
  }

  lemma GridStandsLast(front: seq<GridRow>, g: Group, chunks: seq<seq<nat>>)
    ensures GridStandsAt(front + GridHeaderRows(g) + ChunkRows(g.key, chunks), |front|, g, chunks)
  {
  }

  lemma GridStandsOn(rows: seq<GridRow>, more: seq<GridRow>, at: nat, g: Group, chunks: seq<seq<nat>>)
    requires GridStandsAt(rows, at, g, chunks)
    ensures GridStandsAt(rows + more, at, g, chunks)
  {
  }

  /** Every group stands right behind the rows of the groups before it, and takes no more than its rows. */
  lemma {:induction false} GridGroupStands(groups: seq<Group>, columns: nat, k: nat)
    requires columns > 0 && k < |groups|
    ensures var at, chunks := |GridRows(groups[..k], columns)|, Chunks(groups[k].entries, columns);
            && GridStandsAt(GridRows(groups, columns), at, groups[k], chunks)
            && |GridRows(groups[..k + 1], columns)| == at + |chunks| + if groups[k].headerVisible then 1 else 0
    decreases |groups|
  {
    hide Chunks, GridStandsAt, GridRows, GridHeaderRows;
    var n := |groups| - 1;
    var init, g := groups[..n], groups[n];
    var front, header := GridRows(init, columns), GridHeaderRows(g);
    var body := ChunkRows(g.key, Chunks(g.entries, columns));
    GridRowsEnd(groups, columns);
    assert init[..k] == groups[..k];
    if k < n {
      assert init[..k + 1] == groups[..k + 1];
      GridGroupStands(init, columns, k);
      GridStandsOn(front, header + body, |GridRows(groups[..k], columns)|, groups[k],
                   Chunks(groups[k].entries, columns));
      assert GridRows(groups, columns) == front + (header + body);
    } else {
      assert groups[..k + 1] == groups;
      GridStandsLast(front, g, Chunks(g.entries, columns));
    }
  }

  lemma GridRowsEnd(groups: seq<Group>, columns: nat)
    requires columns > 0 && groups != []
    ensures var g := groups[|groups| - 1];
            GridRows(groups, columns)
            == GridRows(groups[..|groups| - 1], columns) + GridHeaderRows(g)
               + ChunkRows(g.key, Chunks(g.entries, columns))
    ensures |GridHeaderRows(groups[|groups| - 1])| == if groups[|groups| - 1].headerVisible then 1 else 0
  {
    hide Chunks;
  }

  predicate Holds(rows: seq<GridRow>, cell: Cell, id: nat)
  {
    cell.row < |rows| && rows[cell.row].EntriesRow? && cell.column < |rows[cell.row].entries|
      && rows[cell.row].entries[cell.column] == id
  }

  /** Every id shown is found in a cell that holds it. */
  ghost predicate FindsCells(rows: seq<GridRow>, positions: map<nat, Cell>)
  {
    && (forall id :: id in positions ==> Holds(rows, positions[id], id))
    && (forall r, c :: 0 <= r < |rows| && rows[r].EntriesRow? && 0 <= c < |rows[r].entries| ==>
          rows[r].entries[c] in positions)
  }

  /** `enumerate` over a chunk that becomes row `row`. */
  method PlaceChunk(positions0: map<nat, Cell>, chunk: seq<nat>, row: nat) returns (positions: map<nat, Cell>)
    ensures forall id :: id in positions <==> id in positions0 || id in chunk
    ensures forall id :: id in positions ==>
              if id in chunk then positions[id].row == row && positions[id].column < |chunk|
                && chunk[positions[id].column] == id
              else positions[id] == positions0[id]
  {
    positions := positions0;
    var c := 0;
    while c < |chunk|
      invariant 0 <= c <= |chunk|
      invariant forall id :: id in positions <==> id in positions0 || id in chunk[..c]
      invariant forall id :: id in positions ==>
                  if id in chunk[..c] then positions[id].row == row && positions[id].column < c
                    && chunk[positions[id].column] == id
                  else positions[id] == positions0[id]
    {
      positions := positions[chunk[c] := Cell(row, c)];
      assert chunk[..c + 1] == chunk[..c] + [chunk[c]];
      c := c + 1;
    }
    assert chunk[..c] == chunk;
  }

  lemma CellsOneMore(rows: seq<GridRow>, positions: map<nat, Cell>, row: GridRow, more: map<nat, Cell>)
    requires FindsCells(rows, positions)
    requires row.GridHeader? ==> more == positions
    requires row.EntriesRow? ==>
               && (forall id :: id in more <==> id in positions || id in row.entries)
               && (forall id :: id in more ==>
                     if id in row.entries then more[id].row == |rows| && more[id].column < |row.entries|
                       && row.entries[more[id].column] == id
                     else more[id] == positions[id])
    ensures FindsCells(rows + [row], more)
  {
    var all := rows + [row];
    assert all[|rows|] == row && forall i :: 0 <= i < |rows| ==> all[i] == rows[i];
    forall id | id in more ensures Holds(all, more[id], id) {
      if !(row.EntriesRow? && id in row.entries) {
        assert Holds(rows, positions[id], id);
      }
    }
  }

  ghost predicate GridMeasured(rows: seq<GridRow>, extents: seq<nat>, header: nat, entry: nat)
  {
    |extents| == |rows| && forall i :: 0 <= i < |rows| ==> extents[i] == if rows[i].GridHeader? then header else entry
  }

  /** `IconProjection::from_groups`; a grid has one column at least. */
  method GridFromGroups(groups: seq<Group>, given: nat, header: nat, entry: nat)
    returns (rows: seq<GridRow>, offsets: Offsets, positions: map<nat, Cell>, ghost extents: seq<nat>)
    ensures rows == GridRows(groups, if given == 0 then 1 else given) && FindsCells(rows, positions)
    ensures GridMeasured(rows, extents, header, entry) && TableOf(offsets, extents)
  {
    hide FindsCells, TableOf, Chunks;
    var columns := if given == 0 then 1 else given;
    rows, positions := [], map[];
    var sizes: seq<nat> := [];
    assert FindsCells(rows, positions) by { NoCells(); }
    var g := 0;
    while g < |groups|
      invariant 0 <= g <= |groups|
      invariant rows == GridRows(groups[..g], columns) && FindsCells(rows, positions)
                && GridMeasured(rows, sizes, header, entry)
    {
      var group := groups[g];
      assert groups[..g + 1][..g] == groups[..g];
      if group.headerVisible {
        var row := GridHeader(group.key, group.title, group.detail, |group.entries|);
        CellsOneMore(rows, positions, row, positions);
        rows, sizes := rows + [row], sizes + [header];
      }
      rows, sizes, positions := GridEntries(rows, sizes, positions, group, columns, header, entry);
      g := g + 1;
    }
    assert groups[..g] == groups;
    offsets := FromExtents(sizes);
    extents := sizes;
  }

  lemma NoCells()
    ensures FindsCells([], map[])
  {
  }

  method GridEntries(rows0: seq<GridRow>, sizes0: seq<nat>, positions0: map<nat, Cell>, group: Group, columns: nat,
        ghost header: nat, entry: nat)
    returns (rows: seq<GridRow>, sizes: seq<nat>, positions: map<nat, Cell>)
    requires columns > 0 && FindsCells(rows0, positions0) && GridMeasured(rows0, sizes0, header, entry)
    ensures rows == rows0 + ChunkRows(group.key, Chunks(group.entries, columns))
    ensures FindsCells(rows, positions) && GridMeasured(rows, sizes, header, entry)
  {
    hide FindsCells, Chunks;
    rows, sizes, positions := rows0, sizes0, positions0;
    var chunks := Chunks(group.entries, columns);
    var i := 0;
    while i < |chunks|
      invariant 0 <= i <= |chunks|
      invariant rows == rows0 + ChunkRows(group.key, chunks[..i]) && FindsCells(rows, positions)
                && GridMeasured(rows, sizes, header, entry)
    {
      var more := PlaceChunk(positions, chunks[i], |rows|);
      CellsOneMore(rows, positions, EntriesRow(group.key, chunks[i]), more);
      assert ChunkRows(group.key, chunks[..i + 1])
        == ChunkRows(group.key, chunks[..i]) + [EntriesRow(group.key, chunks[i])];
      positions := more;
      rows, sizes := rows + [EntriesRow(group.key, chunks[i])], sizes + [entry];
      i := i + 1;
    }
    assert chunks[..i] == chunks;
  }

  // ---- no id has two cells ----

  lemma {:induction false} FlatHas(chunks: seq<seq<nat>>, i: nat, j: nat)
    requires i < |chunks| && j < |chunks[i]|
    ensures chunks[i][j] in Flat(chunks)
    decreases |chunks|
  {
    if i > 0 {
      FlatHas(chunks[1..], i - 1, j);
    }
  }

  lemma {:induction false} FlatFinds(chunks: seq<seq<nat>>, id: nat) returns (i: nat, j: nat)
    requires id in Flat(chunks)
    ensures i < |chunks| && j < |chunks[i]| && chunks[i][j] == id
    decreases |chunks|
  {
    if id in chunks[0] {
      j :| j < |chunks[0]| && chunks[0][j] == id;
      i := 0;
    } else {
      i, j := FlatFinds(chunks[1..], id);
      i := i + 1;
    }
  }

  /** Two places of one id in duplicate-free chunks are the same. */
  lemma {:induction false} ChunkOnce(chunks: seq<seq<nat>>, i: nat, j: nat, k: nat, l: nat)
    requires Distinct(Flat(chunks))
    requires i < |chunks| && j < |chunks[i]| && k < |chunks| && l < |chunks[k]| && chunks[i][j] == chunks[k][l]
    ensures i == k && j == l
    decreases |chunks|
  {
    DistinctParts(chunks[0], Flat(chunks[1..]));
    if i > 0 && k > 0 {
      ChunkOnce(chunks[1..], i - 1, j, k - 1, l);
    } else if i > 0 {
      FlatHas(chunks[1..], i - 1, j);
    } else if k > 0 {
      FlatHas(chunks[1..], k - 1, l);
    }
  }

  /** A cell of a grid stands in the rows of all groups but the last, or in a chunk of the last. */
  predicate InLast(groups: seq<Group>, columns: nat, at: Cell, id: nat)
    requires columns > 0 && groups != []
  {
    var g := groups[|groups| - 1];
    var start := |GridRows(groups[..|groups| - 1], columns)| + |GridHeaderRows(g)|;
    var chunks := Chunks(g.entries, columns);
    start <= at.row < start + |chunks| && at.column < |chunks[at.row - start]|
      && chunks[at.row - start][at.column] == id
  }

  lemma CellPlace(groups: seq<Group>, columns: nat, at: Cell, id: nat)
    requires columns > 0 && groups != []
    ensures Holds(GridRows(groups, columns), at, id)
            <==> Holds(GridRows(groups[..|groups| - 1], columns), at, id) || InLast(groups, columns, at, id)
  {
    hide Chunks;
  }

  lemma NothingHeld(columns: nat, at: Cell, id: nat)
    requires columns > 0
    ensures !Holds(GridRows([], columns), at, id)
  {
  }


  /** The cells show exactly the ids of the groups. */
  lemma {:induction false} CellsShow(groups: seq<Group>, columns: nat, at: Cell, id: nat)
    requires columns > 0 && Holds(GridRows(groups, columns), at, id)
    ensures id in AllIds(groups)
    decreases |groups|
  {
    hide Chunks, GridRows;
    assert groups != [] by { NothingHeld(columns, at, id); }
    CellPlace(groups, columns, at, id);
    var g := groups[|groups| - 1];
    if InLast(groups, columns, at, id) {
      var start := |GridRows(groups[..|groups| - 1], columns)| + |GridHeaderRows(g)|;
      ChunksCut(g.entries, columns);
      FlatHas(Chunks(g.entries, columns), at.row - start, at.column);
    } else {
      CellsShow(groups[..|groups| - 1], columns, at, id);
    }
  }

  lemma {:induction false} CellExists(groups: seq<Group>, columns: nat, id: nat) returns (at: Cell)
    requires columns > 0 && id in AllIds(groups)
    ensures Holds(GridRows(groups, columns), at, id)
    decreases |groups|
  {
    hide Chunks, GridRows;
    var g := groups[|groups| - 1];
    if id in g.entries {
      ChunksCut(g.entries, columns);
      var i, j := FlatFinds(Chunks(g.entries, columns), id);
      at := Cell(|GridRows(groups[..|groups| - 1], columns)| + |GridHeaderRows(g)| + i, j);
    } else {
      at := CellExists(groups[..|groups| - 1], columns, id);
    }
    CellPlace(groups, columns, at, id);
  }

  lemma {:induction false} OneCell(groups: seq<Group>, columns: nat, a: Cell, b: Cell, id: nat)
    requires columns > 0 && Distinct(AllIds(groups))
    requires Holds(GridRows(groups, columns), a, id) && Holds(GridRows(groups, columns), b, id)
    ensures a == b
    decreases |groups|
  {
    hide Chunks, GridRows, Holds;
    assert groups != [] by { NothingHeld(columns, a, id); }
    var init, g := groups[..|groups| - 1], groups[|groups| - 1];
    var chunks := Chunks(g.entries, columns);
    var start := |GridRows(init, columns)| + |GridHeaderRows(g)|;
    DistinctParts(AllIds(init), g.entries);
    ChunksCut(g.entries, columns);
    CellPlace(groups, columns, a, id);
    CellPlace(groups, columns, b, id);
    if InLast(groups, columns, a, id) && InLast(groups, columns, b, id) {
      ChunkOnce(chunks, a.row - start, a.column, b.row - start, b.column);
    } else if InLast(groups, columns, a, id) {
      FlatHas(chunks, a.row - start, a.column);
      CellsShow(init, columns, b, id);
    } else if InLast(groups, columns, b, id) {
      FlatHas(chunks, b.row - start, b.column);
      CellsShow(init, columns, a, id);
    } else {
      OneCell(init, columns, a, b, id);
    }
  }

  /** The cell found for an id is the one cell that shows it, and exactly the ids given have one. */
  lemma CellsInvert(groups: seq<Group>, entries: seq<Entry>, headerVisible: bool, descending: bool, columns: nat,
        positions: map<nat, Cell>)
    requires Finished(groups, entries, headerVisible, descending)
    requires columns > 0 && FindsCells(GridRows(groups, columns), positions)
    ensures forall id, at :: Holds(GridRows(groups, columns), at, id) <==> id in positions && positions[id] == at
    ensures forall id :: id in positions <==> Seen(entries, id)
  {
    hide Finished, Seen, GridRows;
    var rows := GridRows(groups, columns);
    FinishedIds(groups, entries, headerVisible, descending);
    forall id, at | Holds(rows, at, id) ensures id in positions && positions[id] == at {
      assert rows[at.row].entries[at.column] in positions;
      OneCell(groups, columns, at, positions[id], id);
    }
    forall id ensures id in positions <==> Seen(entries, id) {
      if id in positions {
        CellsShow(groups, columns, positions[id], id);
      }
      if Seen(entries, id) {
        var at := CellExists(groups, columns, id);
      }
    }
  }
}
