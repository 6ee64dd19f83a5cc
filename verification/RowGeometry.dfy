/**
 Which rows a viewport touches, from dense tops (src/app/directory_model.rs:159-173) and from a
 sparse table of headers (src/app/file_row_index.rs:44-73, 154-216).
 */
module RowGeometry {
  import opened Prelude
  import opened RowModel

  datatype Range = Range(lo: nat, hi: nat)

  /** Where row `i` begins, by walking from the first row. */
  function Top(heights: seq<real>, i: nat): real
    requires i <= |heights|
  {
    SumOf(heights[..i])
  }

  ghost predicate Positive(heights: seq<real>)
  {
    forall i :: 0 <= i < |heights| ==> heights[i] > 0.0
  }

  lemma TopStep(heights: seq<real>, i: nat)
    requires i < |heights|
    ensures Top(heights, 0) == 0.0 && Top(heights, i + 1) == Top(heights, i) + heights[i]
  {
    assert heights[..i + 1][..i] == heights[..i];
  }

  lemma {:induction false} TopsRise(heights: seq<real>, i: nat, j: nat)
    requires Positive(heights) && i <= j <= |heights|
    ensures 0.0 <= Top(heights, i) <= Top(heights, j)
    ensures i < j ==> Top(heights, i) < Top(heights, j)
    decreases j
  {
    hide Top;
    if j > 0 {
      TopStep(heights, j - 1);
      if i < j {
        TopsRise(heights, i, j - 1);
      } else {
        TopsRise(heights, j - 1, j - 1);
      }
    } else {
      ZeroTop(heights);
    }
  }

  lemma ZeroTop(heights: seq<real>)
    ensures Top(heights, 0) == 0.0
  {
  }

  /** The row's extent, both edges included, meets the viewport. */
  predicate Touches(heights: seq<real>, i: nat, top: real, bottom: real)
    requires i < |heights|
  {
    Top(heights, i) <= bottom && Top(heights, i + 1) >= top
  }

  /** The rows up to `hi` begin by the bottom, and from `lo` on they reach the top. */
  ghost predicate Cuts(heights: seq<real>, top: real, bottom: real, r: Range)
  {
    && r.lo <= r.hi <= |heights|
    && (r.hi > 0 ==> Top(heights, r.hi - 1) <= bottom)
    && (r.hi < |heights| ==> Top(heights, r.hi) > bottom)
    && (r.lo > 0 ==> Top(heights, r.lo) < top)
    && (r.lo < r.hi ==> Top(heights, r.lo + 1) >= top)
  }

  lemma CutsTouch(heights: seq<real>, top: real, bottom: real, r: Range, i: nat)
    requires Positive(heights) && Cuts(heights, top, bottom, r) && i < |heights|
    ensures r.lo <= i < r.hi <==> Touches(heights, i, top, bottom)
  {
    hide Top;
    if i < r.hi {
      TopsRise(heights, i, r.hi - 1);
    } else {
      TopsRise(heights, r.hi, i);
    }
    if i < r.lo {
      TopsRise(heights, i + 1, r.lo);
    } else if i < r.hi {
      TopsRise(heights, r.lo + 1, i + 1);
    }
  }

  lemma CutsUnique(heights: seq<real>, top: real, bottom: real, a: Range, b: Range)
    requires Positive(heights) && Cuts(heights, top, bottom, a) && Cuts(heights, top, bottom, b)
    ensures a == b
  {
    hide Top;
    if a.hi < b.hi {
      TopsRise(heights, a.hi, b.hi - 1);
    }
    if b.hi < a.hi {
      TopsRise(heights, b.hi, a.hi - 1);
    }
    if a.lo < b.lo {
      TopsRise(heights, a.lo + 1, b.lo);
    }
    if b.lo < a.lo {
      TopsRise(heights, b.lo + 1, a.lo);
    }
  }

  // ---- dense ----

  function StartsBefore(tops: seq<real>, x: real): (n: nat)
    ensures n <= |tops|
    ensures forall i :: 0 <= i < n ==> tops[i] < x
    ensures n < |tops| ==> tops[n] >= x
  {
    PartitionPoint(tops, start => start < x)
  }

  function StartsUpTo(tops: seq<real>, x: real): (n: nat)
    ensures n <= |tops|
    ensures forall i :: 0 <= i < n ==> tops[i] <= x
    ensures n < |tops| ==> tops[n] > x
  {
    PartitionPoint(tops, start => start <= x)
  }

  function Max(a: real, b: real): real { if a < b then b else a }

  /** `range_between`. */
  function RangeBetween(tops: seq<real>, heights: seq<real>, top: real, bottom: real): Range
    requires |tops| == |heights|
  {
    if tops == [] || bottom < 0.0 || bottom < top then Range(0, 0)
    else
      var before := StartsBefore(tops, Max(top, 0.0));
      var row := if before == 0 then 0 else before - 1;
      var first := if tops[row] + heights[row] < top then row + 1 else row;
      var end := StartsUpTo(tops, bottom);
      Range(if first < end then first else end, end)
  }

  ghost predicate Tops(tops: seq<real>, heights: seq<real>)
  {
    |tops| == |heights| && forall i :: 0 <= i < |tops| ==> tops[i] == Top(heights, i)
  }

  lemma DenseCuts(tops: seq<real>, heights: seq<real>, top: real, bottom: real)
    requires Tops(tops, heights) && Positive(heights) && tops != [] && 0.0 <= bottom && top <= bottom
    ensures Cuts(heights, top, bottom, RangeBetween(tops, heights, top, bottom))
  {
    hide Top, StartsBefore, StartsUpTo;
    var before := StartsBefore(tops, Max(top, 0.0));
    var row := if before == 0 then 0 else before - 1;
    var first := if tops[row] + heights[row] < top then row + 1 else row;
    var end := StartsUpTo(tops, bottom);
    TopStep(heights, row);
    ZeroTop(heights);
    TopsRise(heights, 0, row);
    assert end > 0 by { assert tops[0] == 0.0; }
    assert tops[end - 1] == Top(heights, end - 1);
    if row + 1 < |heights| {
      assert tops[row + 1] == Top(heights, row + 1);
    }
  }

  /** For every viewport the dense range is exactly the rows it touches. */
  lemma DenseRangeIsTouching(tops: seq<real>, heights: seq<real>, top: real, bottom: real, i: nat)
    requires Tops(tops, heights) && Positive(heights) && top <= bottom && i < |heights|
    ensures var r := RangeBetween(tops, heights, top, bottom); r.lo <= i < r.hi <==> Touches(heights, i, top, bottom)
  {
    hide Top;
    if 0.0 <= bottom {
      DenseCuts(tops, heights, top, bottom);
      CutsTouch(heights, top, bottom, RangeBetween(tops, heights, top, bottom), i);
    } else {
      TopsRise(heights, 0, i);
    }
  }

  // ---- sparse ----

  type Headers = seq<(nat, real)>   // header rows and their heights

  ghost predicate InOrder(headers: Headers, from: nat, rows: nat)
  {
    && (forall i :: 0 <= i < |headers| ==> from <= headers[i].0 < rows && headers[i].1 > 0.0)
    && (forall i, j :: 0 <= i < j < |headers| ==> headers[i].0 < headers[j].0)
  }

  function HeaderAt(headers: Headers, row: nat): Option<real>
  {
    if headers == [] then None else if headers[0].0 == row then Some(headers[0].1) else HeaderAt(headers[1..], row)
  }

  function HeightAt(headers: Headers, rowHeight: real, row: nat): real
  {
    match HeaderAt(headers, row) case None => rowHeight case Some(h) => h
  }

  /** The dense heights the table stands for: every row that is no header is one row height. */
  function Dense(headers: Headers, rowHeight: real, rows: nat): (r: seq<real>)
    ensures |r| == rows && forall i :: 0 <= i < rows ==> r[i] == HeightAt(headers, rowHeight, i)
  {
    seq(rows, i requires 0 <= i < rows => HeightAt(headers, rowHeight, i))
  }

  /** What the headers before `row` add to equal rows. */
  function Extra(headers: Headers, rowHeight: real, row: nat): real
  {
    if headers == [] || headers[0].0 >= row then 0.0
    else (headers[0].1 - rowHeight) + Extra(headers[1..], rowHeight, row)
  }

  /** `row_top`. */
  function RowTop(headers: Headers, rowHeight: real, row: nat): real
  {
    Stack(row, rowHeight) + Extra(headers, rowHeight, row)
  }

  lemma {:induction false} NoHeaderBefore(headers: Headers, from: nat, rows: nat, row: nat)
    requires InOrder(headers, from, rows) && row < from
    ensures HeaderAt(headers, row).None?
    decreases |headers|
  {
    if headers != [] {
      assert InOrder(headers[1..], from, rows);
      NoHeaderBefore(headers[1..], from, rows, row);
    }
  }

  lemma {:induction false} ExtraStep(headers: Headers, from: nat, rowHeight: real, rows: nat, row: nat)
    requires InOrder(headers, from, rows)
    ensures Extra(headers, rowHeight, row + 1)
            == Extra(headers, rowHeight, row) + HeightAt(headers, rowHeight, row) - rowHeight
    decreases |headers|
  {
    if headers != [] {
      var h := headers[0].0;
      assert InOrder(headers[1..], h + 1, rows);
      ExtraStep(headers[1..], h + 1, rowHeight, rows, row);
      if row <= h {
        NoHeaderBefore(headers[1..], h + 1, rows, row);
        ExtraNothing(headers[1..], h + 1, rowHeight, rows, row);
      }
    }
  }

  lemma ExtraNothing(headers: Headers, from: nat, rowHeight: real, rows: nat, row: nat)
    requires InOrder(headers, from, rows) && row <= from
    ensures Extra(headers, rowHeight, row) == 0.0
  {
  }

  /** The sparse formula gives the top that a walk over the dense heights gives. */
  lemma {:induction false} RowTopIsTop(headers: Headers, rowHeight: real, rows: nat, row: nat)
    requires InOrder(headers, 0, rows) && row <= rows
    ensures RowTop(headers, rowHeight, row) == Top(Dense(headers, rowHeight, rows), row)
    decreases row
  {
    hide Top, Stack, Extra, HeightAt;
    var dense := Dense(headers, rowHeight, rows);
    StackStep(if row == 0 then 0 else row - 1, rowHeight);
    if row == 0 {
      ExtraNothing(headers, 0, rowHeight, rows, 0);
      ZeroTop(dense);
    } else {
      RowTopIsTop(headers, rowHeight, rows, row - 1);
      ExtraStep(headers, 0, rowHeight, rows, row - 1);
      TopStep(dense, row - 1);
    }
  }

  lemma DensePositive(headers: Headers, rowHeight: real, rows: nat)
    requires InOrder(headers, 0, rows) && rowHeight > 0.0
    ensures Positive(Dense(headers, rowHeight, rows))
  {
    forall i | 0 <= i < rows ensures HeightAt(headers, rowHeight, i) > 0.0 {
      HeightPositive(headers, 0, rowHeight, rows, i);
    }
  }

  lemma {:induction false} HeightPositive(headers: Headers, from: nat, rowHeight: real, rows: nat, row: nat)
    requires InOrder(headers, from, rows) && rowHeight > 0.0
    ensures HeightAt(headers, rowHeight, row) > 0.0
    decreases |headers|
  {
    if headers != [] {
      assert InOrder(headers[1..], from, rows);
      HeightPositive(headers[1..], from, rowHeight, rows, row);
    }
  }

  // ---- the row at an offset ----

  function Floor(x: real, h: real): int
    requires h > 0.0
  {
    (x / h).Floor
  }

  function Times(a: real, h: real): real
  {
    a * h
  }

  lemma Scale(a: real, b: real, h: real)
    requires h > 0.0
    ensures a <= b ==> Times(a, h) <= Times(b, h)
    ensures a < b ==> Times(a, h) < Times(b, h)
  {
    assert b * h - a * h == (b - a) * h;
  }

  lemma BetweenStacks(f: nat, q: real, h: real)
    requires h > 0.0 && f as real <= q < f as real + 1.0
    ensures Stack(f, h) <= Times(q, h) < Stack(f + 1, h)
  {
    var g := (f + 1) as real;
    assert g == f as real + 1.0;
    assert Stack(f, h) == Times(f as real, h) && Stack(f + 1, h) == Times(g, h);
    hide Times, Stack;
    Scale(f as real, q, h);
    Scale(q, g, h);
  }

  lemma FloorIs(x: real, h: real)
    requires h > 0.0 && x >= 0.0
    ensures Floor(x, h) >= 0 && Stack(Floor(x, h), h) <= x < Stack(Floor(x, h) + 1, h)
  {
    var q := x / h;
    assert Times(q, h) == x && Times(0.0, h) == 0.0;
    hide Times, Stack;
    Scale(q, 0.0, h);
    BetweenStacks(q.Floor, q, h);
  }

  /** The row at `y`: it begins by `y` and ends after it, unless it is the last one. */
  ghost predicate RowHolds(heights: seq<real>, row: nat, y: real)
  {
    row < |heights| && Top(heights, row) <= y && (y < Top(heights, row + 1) || row == |heights| - 1)
  }

  /** Between two headers tops grow by one row height. */
  lemma {:induction false} PlainStretch(headers: Headers, rowHeight: real, rows: nat, from: nat, row: nat)
    requires InOrder(headers, 0, rows) && from <= row <= rows
    requires forall i :: from <= i < row ==> HeaderAt(headers, i).None?
    ensures Extra(headers, rowHeight, row) == Extra(headers, rowHeight, from)
    decreases row
  {
    hide Extra, HeaderAt;
    if from < row {
      PlainStretch(headers, rowHeight, rows, from, row - 1);
      ExtraStep(headers, 0, rowHeight, rows, row - 1);
    }
  }

  lemma {:induction false} HeaderAtIs(headers: Headers, from: nat, rows: nat, row: nat)
    requires InOrder(headers, from, rows)
    ensures HeaderAt(headers, row).Some? <==> exists i :: 0 <= i < |headers| && headers[i].0 == row
    ensures forall i :: 0 <= i < |headers| && headers[i].0 == row ==> HeaderAt(headers, row) == Some(headers[i].1)
    decreases |headers|
  {
    if headers != [] {
      var others := headers[1..];
      assert InOrder(others, headers[0].0 + 1, rows);
      HeaderAtIs(others, headers[0].0 + 1, rows, row);
      assert forall i :: 0 < i < |headers| ==> headers[i] == others[i - 1];
      if headers[0].0 != row && HeaderAt(others, row).Some? {
        var i :| 0 <= i < |others| && others[i].0 == row;
        assert headers[i + 1].0 == row;
      }
    }
  }

  /** Headers passed: the first `k`; rows from `start` up to the next header are plain. */
  ghost predicate Passed(headers: Headers, rowHeight: real, rows: nat, k: nat, offset: real, start: nat)
  {
    && k <= |headers| && start == (if k == 0 then 0 else headers[k - 1].0 + 1) && start <= rows
    && offset == Extra(headers, rowHeight, start)
  }

  lemma PassOne(headers: Headers, rowHeight: real, rows: nat, k: nat, offset: real, start: nat)
    requires InOrder(headers, 0, rows) && Passed(headers, rowHeight, rows, k, offset, start) && k < |headers|
    ensures start <= headers[k].0
    ensures RowTop(headers, rowHeight, headers[k].0) == Stack(headers[k].0, rowHeight) + offset
    ensures HeightAt(headers, rowHeight, headers[k].0) == headers[k].1
    ensures Passed(headers, rowHeight, rows, k + 1, offset + (headers[k].1 - rowHeight), headers[k].0 + 1)
  {
    hide Extra, HeaderAt, Stack;
    var next := headers[k].0;
    StretchIsPlain(headers, rows, k, start, next);
    PlainStretch(headers, rowHeight, rows, start, next);
    HeaderAtIs(headers, 0, rows, next);
    ExtraStep(headers, 0, rowHeight, rows, next);
  }

  lemma StretchIsPlain(headers: Headers, rows: nat, k: nat, start: nat, end: nat)
    requires InOrder(headers, 0, rows) && k <= |headers| && start == (if k == 0 then 0 else headers[k - 1].0 + 1)
    requires k < |headers| ==> end <= headers[k].0
    ensures forall i :: start <= i < end ==> HeaderAt(headers, i).None?
  {
    hide HeaderAt;
    forall i | start <= i < end ensures HeaderAt(headers, i).None? {
      HeaderAtIs(headers, 0, rows, i);
      forall j | 0 <= j < |headers| ensures headers[j].0 != i {
        if j < k {
          assert headers[j].0 <= headers[k - 1].0;
        } else {
          assert headers[k].0 <= headers[j].0;
        }
      }
    }
  }

  /** In a plain stretch from `start` to `end` the row is found by division. */
  lemma DivisionFinds(headers: Headers, rowHeight: real, rows: nat, k: nat, offset: real, start: nat, y: real)
    requires InOrder(headers, 0, rows) && rowHeight > 0.0 && rows > 0
             && Passed(headers, rowHeight, rows, k, offset, start)
    requires RowTop(headers, rowHeight, start) <= y
    requires k < |headers| ==> y < RowTop(headers, rowHeight, headers[k].0)
    ensures y - offset >= 0.0
    ensures var q := Floor(Max(y - offset, 0.0), rowHeight);
            q >= 0 && RowHolds(Dense(headers, rowHeight, rows), if q < rows - 1 then q else rows - 1, y)
  {
    hide Extra, HeaderAt, Stack, Top, Floor;
    var dense := Dense(headers, rowHeight, rows);
    var end := if k < |headers| then headers[k].0 else rows;
    StackRises(0, start, rowHeight);
    var q := Floor(y - offset, rowHeight);
    FloorIs(y - offset, rowHeight);
    StretchIsPlain(headers, rows, k, start, end);
    assert start <= q by {
      if q < start {
        StackRises(q + 1, start, rowHeight);
      }
    }
    var row := if q < rows - 1 then q else rows - 1;
    if k < |headers| {
      PassOne(headers, rowHeight, rows, k, offset, start);
      assert q < end by {
        if q >= end {
          StackRises(end, q, rowHeight);
        }
      }
      StretchTops(headers, rowHeight, rows, start, end, row, offset);
      StretchTops(headers, rowHeight, rows, start, end, row + 1, offset);
    } else {
      LastStretch(headers, rowHeight, rows, start, offset, y, q);
    }
  }

  lemma LastStretch(headers: Headers, rowHeight: real, rows: nat, start: nat, offset: real, y: real, q: nat)
    requires InOrder(headers, 0, rows) && rowHeight > 0.0 && rows > 0 && start <= rows
             && offset == Extra(headers, rowHeight, start)
    requires forall i :: start <= i < rows ==> HeaderAt(headers, i).None?
    requires RowTop(headers, rowHeight, start) <= y && Stack(q, rowHeight) <= y - offset < Stack(q + 1, rowHeight)
             && start <= q
    ensures RowHolds(Dense(headers, rowHeight, rows), if q < rows - 1 then q else rows - 1, y)
  {
    hide Extra, HeaderAt, Stack, Top;
    var dense := Dense(headers, rowHeight, rows);
    if q < rows {
      StretchTops(headers, rowHeight, rows, start, rows, q, offset);
      StretchTops(headers, rowHeight, rows, start, rows, q + 1, offset);
    } else if start < rows {
      StretchTops(headers, rowHeight, rows, start, rows, rows - 1, offset);
      StackRises(rows - 1, q, rowHeight);
    } else {
      DensePositive(headers, rowHeight, rows);
      RowTopIsTop(headers, rowHeight, rows, rows);
      TopsRise(dense, rows - 1, rows);
    }
  }

  lemma StretchTops(headers: Headers, rowHeight: real, rows: nat, start: nat, end: nat, row: nat, offset: real)
    requires InOrder(headers, 0, rows) && start <= row <= end <= rows && offset == Extra(headers, rowHeight, start)
    requires forall i :: start <= i < end ==> HeaderAt(headers, i).None?
    ensures Top(Dense(headers, rowHeight, rows), row) == Stack(row, rowHeight) + offset
  {
    hide Extra, HeaderAt, Stack, Top;
    PlainStretch(headers, rowHeight, rows, start, row);
    RowTopIsTop(headers, rowHeight, rows, row);
  }

  lemma StackRises(i: nat, j: nat, h: real)
    requires i <= j && h > 0.0
    ensures 0.0 <= Stack(i, h) <= Stack(j, h)
  {
    assert (j - i) as real * h >= 0.0;
    assert j as real * h == i as real * h + (j - i) as real * h;
  }

  /** `row_at`: a walk over the headers only. */
  method RowAt(headers: Headers, rowHeight: real, rows: nat, y: real) returns (row: nat)
    requires InOrder(headers, 0, rows) && rowHeight > 0.0 && rows > 0 && y >= 0.0
    ensures RowHolds(Dense(headers, rowHeight, rows), row, y)
  {
    hide Extra, HeaderAt, Stack, Top, Floor, RowTop;
    var offset := 0.0;
    ghost var start := 0;
    StartsAtZero(headers, rowHeight, rows);
    var k := 0;
    while k < |headers|
      invariant 0 <= k <= |headers| && Passed(headers, rowHeight, rows, k, offset, start)
      invariant RowTop(headers, rowHeight, start) <= y
    {
      var (header, height) := headers[k];
      PassOne(headers, rowHeight, rows, k, offset, start);
      var top := Stack(header, rowHeight) + offset;
      if y < top {
        break;
      }
      NextTop(headers, rowHeight, rows, header);
      if y < top + height {
        RowTopIsTop(headers, rowHeight, rows, header);
        RowTopIsTop(headers, rowHeight, rows, header + 1);
        return header;
      }
      offset := offset + (height - rowHeight);
      start := header + 1;
      k := k + 1;
    }
    DivisionFinds(headers, rowHeight, rows, k, offset, start, y);
    var q := Floor(Max(y - offset, 0.0), rowHeight);
    row := if q < rows - 1 then q else rows - 1;
  }

  lemma StartsAtZero(headers: Headers, rowHeight: real, rows: nat)
    requires InOrder(headers, 0, rows)
    ensures Passed(headers, rowHeight, rows, 0, 0.0, 0) && RowTop(headers, rowHeight, 0) == 0.0
  {
    ExtraNothing(headers, 0, rowHeight, rows, 0);
    StackStep(0, rowHeight);
  }

  lemma NextTop(headers: Headers, rowHeight: real, rows: nat, row: nat)
    requires InOrder(headers, 0, rows)
    ensures RowTop(headers, rowHeight, row + 1) == RowTop(headers, rowHeight, row) + HeightAt(headers, rowHeight, row)
  {
    hide Extra, Stack;
    StackStep(row, rowHeight);
    ExtraStep(headers, 0, rowHeight, rows, row);
  }

  /** `rows_between`: the same range as over the dense heights. */
  method RowsBetween(headers: Headers, rowHeight: real, rows: nat, top: real, bottom: real) returns (r: Range)
    requires InOrder(headers, 0, rows) && rowHeight > 0.0
    ensures forall tops :: Tops(tops, Dense(headers, rowHeight, rows)) ==>
              r == RangeBetween(tops, Dense(headers, rowHeight, rows), top, bottom)
  {
    hide Top, RowTop, RangeBetween;
    ghost var dense := Dense(headers, rowHeight, rows);
    DensePositive(headers, rowHeight, rows);
    if rows == 0 || bottom < 0.0 || bottom < top {
      NothingToShow(headers, rowHeight, rows, top, bottom);
      return Range(0, 0);
    }
    var from := Max(top, 0.0);
    var extent := RowTop(headers, rowHeight, rows);
    RowTopIsTop(headers, rowHeight, rows, rows);
    if from > extent {
      TopsRise(dense, rows - 1, rows);
      r := Range(rows, rows);
    } else {
      var first := RowAt(headers, rowHeight, rows, from);
      RowTopIsTop(headers, rowHeight, rows, first);
      ghost var found := first;
      if first > 0 && RowTop(headers, rowHeight, first) >= from {
        first := first - 1;
      }
      var last := RowAt(headers, rowHeight, rows, bottom);
      r := Range(first, if last + 1 < rows then last + 1 else rows);
      SparseCuts(dense, top, bottom, found, first, last);
    }
    SameAsDense(dense, top, bottom, r);
  }

  lemma NothingToShow(headers: Headers, rowHeight: real, rows: nat, top: real, bottom: real)
    requires rows == 0 || bottom < 0.0 || bottom < top
    ensures forall tops :: Tops(tops, Dense(headers, rowHeight, rows)) ==>
              RangeBetween(tops, Dense(headers, rowHeight, rows), top, bottom) == Range(0, 0)
  {
  }

  lemma SameAsDense(dense: seq<real>, top: real, bottom: real, r: Range)
    requires Positive(dense) && dense != [] && 0.0 <= bottom && top <= bottom && Cuts(dense, top, bottom, r)
    ensures forall tops :: Tops(tops, dense) ==> r == RangeBetween(tops, dense, top, bottom)
  {
    hide Cuts, RangeBetween, Top;
    forall tops | Tops(tops, dense) ensures r == RangeBetween(tops, dense, top, bottom) {
      SameAsOne(tops, dense, top, bottom, r);
    }
  }

  lemma SameAsOne(tops: seq<real>, dense: seq<real>, top: real, bottom: real, r: Range)
    requires Tops(tops, dense) && Positive(dense) && dense != [] && 0.0 <= bottom && top <= bottom
             && Cuts(dense, top, bottom, r)
    ensures r == RangeBetween(tops, dense, top, bottom)
  {
    hide Cuts, RangeBetween;
    DenseCuts(tops, dense, top, bottom);
    CutsUnique(dense, top, bottom, r, RangeBetween(tops, dense, top, bottom));
  }

  lemma SparseCuts(dense: seq<real>, top: real, bottom: real, found: nat, first: nat, last: nat)
    requires Positive(dense) && dense != [] && 0.0 <= bottom && top <= bottom && Max(top, 0.0) <= Top(dense, |dense|)
    requires RowHolds(dense, found, Max(top, 0.0)) && RowHolds(dense, last, bottom)
    requires first == if found > 0 && Top(dense, found) >= Max(top, 0.0) then found - 1 else found
    ensures Cuts(dense, top, bottom, Range(first, last + 1))
  {
    hide Top;
    ZeroTop(dense);
    if found > 0 {
      TopsRise(dense, 0, found);
      TopsRise(dense, found - 1, found);
    }
    if last < found {
      TopsRise(dense, last + 1, found);
    }
  }

  // ---- building the table ----

  datatype FileRow = FileRow(header: bool, id: int, height: real)

  datatype RowLayout = VisibleOrder(projected: set<int>) | Recorded(positions: map<int, nat>, headers: Headers)

  function HeadersOf(layout: RowLayout): Headers
  {
    if layout.VisibleOrder? then [] else layout.headers
  }

  predicate NoHeaderRow(rows: seq<FileRow>)
  {
    forall i :: 0 <= i < |rows| ==> !rows[i].header
  }

  /** The table of the first `n` rows: their headers in order, nothing else. */
  ghost predicate HeadersTo(rows: seq<FileRow>, headers: Headers, n: nat)
    requires n <= |rows|
  {
    && InOrder(headers, 0, n)
    && (forall k :: 0 <= k < |headers| ==> rows[headers[k].0].header && headers[k].1 == rows[headers[k].0].height)
    && (forall j :: 0 <= j < n && rows[j].header ==> HeaderAt(headers, j).Some?)
  }

  /** Every entry row of the first `n` under its id. */
  ghost predicate PositionsTo(rows: seq<FileRow>, positions: map<int, nat>, n: nat)
    requires n <= |rows|
  {
    && (forall id :: id in positions ==>
          positions[id] < n && rows[positions[id]].id == id > 0 && !rows[positions[id]].header)
    && (forall j :: 0 <= j < n && !rows[j].header && rows[j].id > 0 ==> rows[j].id in positions)
  }

  lemma HeaderStays(headers: Headers, more: Headers, n: nat, j: nat)
    requires InOrder(headers, 0, n) && InOrder(more, 0, n + 1) && headers <= more && HeaderAt(headers, j).Some?
    ensures HeaderAt(more, j).Some?
  {
    hide HeaderAt;
    HeaderAtIs(headers, 0, n, j);
    HeaderAtIs(more, 0, n + 1, j);
    var k :| 0 <= k < |headers| && headers[k].0 == j;
    assert more[k].0 == j;
  }

  lemma OneMoreInOrder(headers: Headers, n: nat, height: real)
    requires InOrder(headers, 0, n) && height > 0.0
    ensures InOrder(headers + [(n, height)], 0, n + 1)
  {
  }

  lemma LastHeader(headers: Headers, n: nat, height: real)
    requires InOrder(headers + [(n, height)], 0, n + 1)
    ensures HeaderAt(headers + [(n, height)], n).Some?
  {
    hide HeaderAt;
    HeaderAtIs(headers + [(n, height)], 0, n + 1, n);
    assert (headers + [(n, height)])[|headers|].0 == n;
  }

  lemma HeadersMore(rows: seq<FileRow>, headers: Headers, n: nat)
    requires n < |rows| && HeadersTo(rows, headers, n) && (rows[n].header ==> rows[n].height > 0.0)
    ensures HeadersTo(rows, if rows[n].header then headers + [(n, rows[n].height)] else headers, n + 1)
  {
    if rows[n].header {
      HeadersOneMore(rows, headers, n);
    }
  }

  lemma HeadersOneMore(rows: seq<FileRow>, headers: Headers, n: nat)
    requires n < |rows| && HeadersTo(rows, headers, n) && rows[n].header && rows[n].height > 0.0
    ensures HeadersTo(rows, headers + [(n, rows[n].height)], n + 1)
  {
    hide HeaderAt;
    var more := headers + [(n, rows[n].height)];
    OneMoreInOrder(headers, n, rows[n].height);
    LastHeader(headers, n, rows[n].height);
    forall j | 0 <= j < n + 1 && rows[j].header ensures HeaderAt(more, j).Some? {
      if j < n {
        HeaderStays(headers, more, n, j);
      }
    }
    forall k | 0 <= k < |more|
      ensures more[k].0 < |rows| && rows[more[k].0].header && more[k].1 == rows[more[k].0].height
    {
      if k < |headers| {
        assert more[k] == headers[k];
      }
    }
  }

  lemma TableHeights(rows: seq<FileRow>, headers: Headers, rowHeight: real)
    requires HeadersTo(rows, headers, |rows|)
    ensures forall i :: 0 <= i < |rows| ==> HeightAt(headers, rowHeight, i) == if rows[i].header then rows[i].height
              else rowHeight
  {
    hide HeaderAt;
    forall i | 0 <= i < |rows|
      ensures HeightAt(headers, rowHeight, i) == if rows[i].header then rows[i].height else rowHeight
    {
      HeaderAtIs(headers, 0, |rows|, i);
    }
  }

  /** `RowLayout::build`: the table stands for the rows it was built from. */
  method BuildTable(rows: seq<FileRow>, visibleOrder: bool, ghost rowHeight: real) returns (layout: RowLayout)
    requires forall i :: 0 <= i < |rows| && rows[i].header ==> rows[i].height > 0.0
    ensures layout.VisibleOrder? <==> visibleOrder && NoHeaderRow(rows)
    ensures InOrder(HeadersOf(layout), 0, |rows|)
    ensures forall i :: 0 <= i < |rows| ==>
              HeightAt(HeadersOf(layout), rowHeight, i) == if rows[i].header then rows[i].height else rowHeight
    ensures layout.VisibleOrder? ==> forall id :: id in layout.projected
                                       <==> exists i :: 0 <= i < |rows| && rows[i].id == id
    ensures layout.Recorded? ==> PositionsTo(rows, layout.positions, |rows|)
  {
    hide HeadersTo, HeightAt;
    if visibleOrder && NoHeaderRow(rows) {
      layout := VisibleOrder(set i | 0 <= i < |rows| :: rows[i].id);
      PlainTable(rows);
      TableHeights(rows, [], rowHeight);
      return;
    }
    var positions: map<int, nat> := map[];
    var headers: Headers := [];
    NoTable(rows);
    var i := 0;
    while i < |rows|
      invariant 0 <= i <= |rows|
      invariant HeadersTo(rows, headers, i) && PositionsTo(rows, positions, i)
    {
      HeadersMore(rows, headers, i);
      if rows[i].header {
        headers := headers + [(i, rows[i].height)];
      } else if rows[i].id > 0 {
        positions := positions[rows[i].id := i];
      }
      i := i + 1;
    }
    TableHeights(rows, headers, rowHeight);
    TableInOrder(rows, headers);
    layout := Recorded(positions, headers);
  }

  lemma NoTable(rows: seq<FileRow>)
    ensures HeadersTo(rows, [], 0)
  {
  }

  lemma PlainTable(rows: seq<FileRow>)
    requires NoHeaderRow(rows)
    ensures HeadersTo(rows, [], |rows|)
  {
  }

  lemma TableInOrder(rows: seq<FileRow>, headers: Headers)
    requires HeadersTo(rows, headers, |rows|)
    ensures InOrder(headers, 0, |rows|)
  {
  }

  /** `extent`: all headers count, since all stand in the list. */
  function Extent(headers: Headers, rowHeight: real, rows: nat): real
  {
    Stack(rows, rowHeight) + AllExtra(headers, rowHeight)
  }

  function AllExtra(headers: Headers, rowHeight: real): real
  {
    if headers == [] then 0.0 else (headers[0].1 - rowHeight) + AllExtra(headers[1..], rowHeight)
  }

  /** The extent is the sum of the dense heights. */
  lemma ExtentIsSum(headers: Headers, rowHeight: real, rows: nat)
    requires InOrder(headers, 0, rows)
    ensures Extent(headers, rowHeight, rows) == SumOf(Dense(headers, rowHeight, rows))
  {
    hide Stack, Extra, AllExtra, HeightAt;
    RowTopIsTop(headers, rowHeight, rows, rows);
    AllBefore(headers, 0, rowHeight, rows);
    assert Dense(headers, rowHeight, rows)[..rows] == Dense(headers, rowHeight, rows);
  }

  lemma {:induction false} AllBefore(headers: Headers, from: nat, rowHeight: real, rows: nat)
    requires InOrder(headers, from, rows)
    ensures AllExtra(headers, rowHeight) == Extra(headers, rowHeight, rows)
    decreases |headers|
  {
    if headers != [] {
      assert InOrder(headers[1..], from, rows);
      AllBefore(headers[1..], from, rowHeight, rows);
    }
  }
}
