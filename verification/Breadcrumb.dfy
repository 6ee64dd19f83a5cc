/**
 The width policy of the breadcrumb bar, over reals (src/app/breadcrumb_layout.rs:11-84).
 */
module Breadcrumb {
  import opened Prelude

  datatype Item = Item(index: nat, x: real, width: real)

  datatype Bar = Bar(visible: seq<Item>, hidden: seq<nat>, overflowX: real, overflowWidth: real)

  const SPACING := 2.0
  const ANCESTOR := 180.0      // an ancestor is never wider
  const CURRENT := 320.0       // nor is more reserved for the current item
  const BUTTON := 44.0

  function Min(a: real, b: real): real { if a < b then a else b }

  function Max(a: real, b: real): real { if a < b then b else a }

  /** `finite_width`. */
  function Width(w: real): (r: real)
    ensures r >= 0.0 && (r == w || (w < 0.0 && r == 0.0))
  {
    Max(w, 0.0)
  }

  function Capped(w: real): real { Min(w, ANCESTOR) }

  // ---- measures ----

  /** Where item `i` begins when every item is shown in full. */
  function Offset(widths: seq<real>, i: nat): real
    requires i <= |widths|
  {
    if i == 0 then 0.0 else Offset(widths, i - 1) + widths[i - 1] + SPACING
  }

  /** What showing the ancestors from `i` on takes. */
  function Span(widths: seq<real>, i: nat, last: nat): real
    requires i <= last <= |widths|
    decreases last - i
  {
    if i == last then 0.0 else SPACING + Capped(widths[i]) + Span(widths, i + 1, last)
  }

  ghost predicate Sizes(widths: seq<real>)
  {
    forall i :: 0 <= i < |widths| ==> widths[i] >= 0.0
  }

  lemma {:induction false} OffsetIsSum(widths: seq<real>, i: nat)
    requires i <= |widths|
    ensures Offset(widths, i) == SumOf(widths[..i]) + 2.0 * i as real
    decreases i
  {
    if i > 0 {
      OffsetIsSum(widths, i - 1);
      assert widths[..i][..i - 1] == widths[..i - 1];
    }
  }

  lemma {:induction false} OffsetRises(widths: seq<real>, i: nat, j: nat)
    requires Sizes(widths) && i <= j <= |widths|
    ensures 0.0 <= Offset(widths, i) <= Offset(widths, j)
    decreases j
  {
    if i < j {
      OffsetRises(widths, i, j - 1);
    } else if j > 0 {
      OffsetRises(widths, j - 1, j - 1);
    }
  }

  lemma {:induction false} SpanRises(widths: seq<real>, i: nat, j: nat, last: nat)
    requires Sizes(widths) && i <= j <= last <= |widths|
    ensures Span(widths, i, last) >= Span(widths, j, last) >= 0.0
    decreases last - i
  {
    if i < last {
      if i < j {
        SpanRises(widths, i + 1, j, last);
      } else {
        SpanRises(widths, i + 1, i + 1, last);
      }
    }
  }

  /** The ancestors from `i` on take their widths, at most 180 each, and 2 in front of each. */
  lemma {:induction false} SpanIsSum(widths: seq<real>, i: nat, last: nat)
    requires i <= last <= |widths|
    ensures Span(widths, i, last)
         == SumOf(seq(last - i, k requires 0 <= k < last - i => if widths[i + k] < 180.0 then widths[i + k] else 180.0))
            + 2.0 * (last - i) as real
    decreases last
  {
    if i < last {
      SpanIsSum(widths, i, last - 1);
      SpanSnoc(widths, i, last - 1);
      var all := seq(last - i, k requires 0 <= k < last - i => if widths[i + k] < 180.0 then widths[i + k] else 180.0);
      var n := last - 1 - i;
      assert all[..n] == seq(n, k requires 0 <= k < n => if widths[i + k] < 180.0 then widths[i + k] else 180.0);
    }
  }

  // ---- what a bar promises ----

  predicate Shown(bar: Bar, i: nat)
  {
    exists k :: 0 <= k < |bar.visible| && bar.visible[k].index == i
  }

  /** Every index is either shown or hidden, and listed once, in order. */
  ghost predicate Partitions(bar: Bar, n: nat)
  {
    && (forall j, k :: 0 <= j < k < |bar.visible| ==> bar.visible[j].index < bar.visible[k].index)
    && (forall j, k :: 0 <= j < k < |bar.hidden| ==> bar.hidden[j] < bar.hidden[k])
    && (forall k :: 0 <= k < |bar.visible| ==> bar.visible[k].index < n)
    && (forall k :: 0 <= k < |bar.hidden| ==> bar.hidden[k] < n)
    && (forall i: nat :: i < n ==> (Shown(bar, i) <==> i !in bar.hidden))
  }

  function End(item: Item): real { item.x + item.width }

  /**
   Items follow each other without overlap inside the budget, and so does the overflow button, behind the
   first one.
   */
  ghost predicate Fits(bar: Bar, available: real)
  {
    && (forall k :: 0 <= k < |bar.visible| ==>
          bar.visible[k].x >= 0.0 && bar.visible[k].width >= 0.0 && End(bar.visible[k]) <= available)
    && (forall j, k :: 0 <= j < k < |bar.visible| ==> End(bar.visible[j]) <= bar.visible[k].x)
    && (bar.hidden != [] ==>
          && |bar.visible| >= 2 && bar.overflowWidth >= 0.0
          && End(bar.visible[0]) <= bar.overflowX && bar.overflowX + bar.overflowWidth <= bar.visible[1].x)
  }

  // ---- the overflow case ----

  datatype Plan = Plan(overflow: real, gap: real, root: real, current: real)

  /** What is set aside before any ancestor is shown. */
  function Reserve(widths: seq<real>, available: real): Plan
    requires |widths| >= 3
  {
    var overflow := Min(BUTTON, available / 3.0);
    var gap := Min(SPACING, (available - overflow) / 2.0);
    var room := Max(available - overflow - 2.0 * gap, 0.0);
    var root := Min(Capped(widths[0]), room / 3.0);
    Plan(overflow, gap, root, Min(Min(widths[|widths| - 1], CURRENT), room - root))
  }

  /** The largest width under three limits. */
  ghost predicate Largest(w: real, a: real, b: real, c: real)
  {
    w <= a && w <= b && w <= c && (w == a || w == b || w == c)
  }

  /**
   How the budget is shared before any ancestor is shown, part after part the largest possible: the
   button at most 44 and a third of the budget; two gaps of at most 2 beside it; the root its width, but
   at most 180 and a third of the rest; the current item its width, but at most 320 and what the root leaves.
   */
  ghost predicate Shares(widths: seq<real>, available: real, p: Plan)
    requires |widths| >= 3
  {
    var room := available - p.overflow - 2.0 * p.gap;
    && Largest(p.overflow, 44.0, available / 3.0, 44.0)
    && Largest(p.gap, 2.0, (available - p.overflow) / 2.0, 2.0)
    && Largest(p.root, widths[0], 180.0, room / 3.0)
    && Largest(p.current, widths[|widths| - 1], 320.0, room - p.root)
  }

  lemma ReserveShares(widths: seq<real>, available: real)
    requires |widths| >= 3 && Sizes(widths) && available >= 0.0
    ensures forall p :: Shares(widths, available, p) <==> p == Reserve(widths, available)
  {
  }

  function Reserved(p: Plan): real
  {
    p.root + p.overflow + p.current + 2.0 * p.gap
  }

  lemma ReserveFits(widths: seq<real>, available: real)
    requires |widths| >= 3 && Sizes(widths) && available >= 0.0
    ensures var p := Reserve(widths, available);
            p.overflow >= 0.0 && p.gap >= 0.0 && p.root >= 0.0 && p.current >= 0.0 && Reserved(p) <= available
  {
  }

  /** The ancestors from `i` on fit beside what is reserved. */
  predicate SuffixFits(widths: seq<real>, available: real, i: nat)
    requires |widths| >= 3 && i < |widths|
  {
    Reserved(Reserve(widths, available)) + Span(widths, i, |widths| - 1) <= available
  }

  /** The loop that retains ancestors, from the last one down to index 2. */
  method RetainAncestors(widths: seq<real>, available: real, used0: real) returns (start: nat)
    requires |widths| >= 3 && Sizes(widths) && used0 <= available
    ensures 2 <= start < |widths|
    ensures used0 + Span(widths, start, |widths| - 1) <= available
    ensures start > 2 ==> used0 + Span(widths, start - 1, |widths| - 1) > available
  {
    var last := |widths| - 1;
    start := last;
    var used := used0;
    var i := last;
    while i > 2
      invariant 2 <= i <= last && start == i
      invariant used == used0 + Span(widths, i, last) <= available
    {
      i := i - 1;
      var width := Capped(widths[i]);
      if used + SPACING + width > available {
        return;
      }
      used := used + (SPACING + width);
      start := i;
    }
  }

  method HiddenFrom(start: nat) returns (hidden: seq<nat>)
    requires start >= 2
    ensures |hidden| == start - 1 && forall k :: 0 <= k < |hidden| ==> hidden[k] == k + 1
  {
    hidden := [];
    var i := 1;
    while i < start
      invariant 1 <= i <= start && |hidden| == i - 1
      invariant forall k :: 0 <= k < |hidden| ==> hidden[k] == k + 1
    {
      hidden := hidden + [i];
      i := i + 1;
    }
  }

  /** Where the ancestor at `start + k` stands, behind the button. */
  ghost predicate Placed(visible: seq<Item>, widths: seq<real>, x0: real, start: nat)
  {
    && start + |visible| <= |widths| && |visible| >= 1
    && (forall k :: 1 <= k < |visible| ==>
          visible[k] == Item(start + k - 1, x0 + Span(widths, start, start + k - 1), Capped(widths[start + k - 1])))
  }

  lemma {:induction false} SpanSnoc(widths: seq<real>, i: nat, j: nat)
    requires i <= j < |widths|
    ensures Span(widths, i, j + 1) == Span(widths, i, j) + SPACING + Capped(widths[j])
    decreases j - i
  {
    if i < j {
      SpanSnoc(widths, i + 1, j);
    }
  }

  method PlaceAncestors(first: Item, widths: seq<real>, x0: real, start: nat) returns (visible: seq<Item>, x: real)
    requires 2 <= start < |widths|
    ensures |visible| == |widths| - start && visible[0] == first
    ensures Placed(visible, widths, x0, start) && x == x0 + Span(widths, start, |widths| - 1)
  {
    var last := |widths| - 1;
    visible := [first];
    x := x0;
    var i := start;
    while i < last
      invariant start <= i <= last && |visible| == i - start + 1 && visible[0] == first
      invariant Placed(visible, widths, x0, start) && x == x0 + Span(widths, start, i)
    {
      var width := Capped(widths[i]);
      visible := visible + [Item(i, x, width)];
      SpanSnoc(widths, start, i);
      x := x + width + SPACING;
      i := i + 1;
    }
  }

  lemma {:induction false} SpanSplits(widths: seq<real>, i: nat, j: nat, last: nat)
    requires i <= j <= last <= |widths|
    ensures Span(widths, i, last) == Span(widths, i, j) + Span(widths, j, last)
    decreases j - i
  {
    if i < j {
      SpanSplits(widths, i + 1, j, last);
    }
  }

  lemma PlacedFits(visible: seq<Item>, widths: seq<real>, p: Plan, start: nat, x: real, w: real, available: real,
        hidden: seq<nat>)
    requires Sizes(widths) && |widths| >= 3 && 2 <= start < |widths| && |visible| == |widths| - start
    requires p.overflow >= 0.0 && p.gap >= 0.0 && p.root >= 0.0
    requires visible[0] == Item(0, 0.0, p.root)
    requires var x0 := p.root + p.gap + p.overflow + p.gap;
             Placed(visible, widths, x0, start) && x == x0 + Span(widths, start, |widths| - 1)
    requires x <= available && 0.0 <= w <= available - x
    ensures Fits(Bar(visible + [Item(|widths| - 1, x, w)], hidden, p.root + p.gap, p.overflow), available)
  {
    var all := visible + [Item(|widths| - 1, x, w)];
    var last := |widths| - 1;
    var x0 := p.root + p.gap + p.overflow + p.gap;
    SpanRises(widths, start, last, last);
    forall k | 1 <= k < |all| ensures all[k].x >= x0 && all[k].width >= 0.0 && End(all[k]) <= available {
      PlaceInside(all, visible, widths, x0, start, x, w, k, available);
    }
    forall j, k | 0 <= j < k < |all| ensures End(all[j]) <= all[k].x {
      if j == 0 {
        PlaceInside(all, visible, widths, x0, start, x, w, k, available);
      } else {
        PlaceBefore(all, visible, widths, x0, start, x, w, j, k);
      }
    }
  }

  lemma PlaceInside(all: seq<Item>, visible: seq<Item>, widths: seq<real>, x0: real, start: nat, x: real, w: real,
        k: nat, available: real)
    requires Sizes(widths) && 2 <= start < |widths| && |visible| == |widths| - start && 1 <= k <= |visible|
    requires all == visible + [Item(|widths| - 1, x, w)] && Placed(visible, widths, x0, start)
    requires x == x0 + Span(widths, start, |widths| - 1) && 0.0 <= w && x + w <= available
    ensures all[k].x >= x0 && all[k].width >= 0.0 && End(all[k]) <= available
  {
    var last := |widths| - 1;
    SpanRises(widths, start, last, last);
    if k < |visible| {
      var i := start + k - 1;
      SpanSplits(widths, start, i, last);
      SpanRises(widths, i + 1, last, last);
      SpanRises(widths, start, start, i);
    }
  }

  lemma PlaceBefore(all: seq<Item>, visible: seq<Item>, widths: seq<real>, x0: real, start: nat, x: real, w: real,
        j: nat, k: nat)
    requires Sizes(widths) && 2 <= start < |widths| && |visible| == |widths| - start && 1 <= j < k <= |visible|
    requires all == visible + [Item(|widths| - 1, x, w)] && Placed(visible, widths, x0, start)
    requires x == x0 + Span(widths, start, |widths| - 1)
    ensures End(all[j]) <= all[k].x
  {
    var i, to := start + j - 1, start + k - 1;
    SpanSplits(widths, start, i, to);
    SpanRises(widths, i + 1, to, to);
  }

  lemma OverflowPartitions(bar: Bar, n: nat, start: nat)
    requires n >= 3 && 2 <= start < n && |bar.visible| == n - start + 1
    requires bar.visible[0].index == 0 && forall k :: 1 <= k < |bar.visible| ==> bar.visible[k].index == start + k - 1
    requires |bar.hidden| == start - 1 && forall k :: 0 <= k < |bar.hidden| ==> bar.hidden[k] == k + 1
    ensures Partitions(bar, n)
  {
    forall i: nat | i < n ensures Shown(bar, i) <==> i !in bar.hidden {
      if 1 <= i < start {
        assert bar.hidden[i - 1] == i;
      } else if i == 0 {
        assert bar.visible[0].index == i;
      } else {
        assert bar.visible[i - start + 1].index == i;
      }
    }
  }

  /**
   What is shown when not everything fits: the root, a suffix of the ancestors that is the longest from
   index 2 on to fit beside what is reserved, and the current item with at least its reserve.
   */
  ghost predicate Squeezed(bar: Bar, widths: seq<real>, available: real)
    requires |widths| >= 3
  {
    var start := |bar.hidden| + 1;
    && 2 <= start < |widths| && bar.hidden == seq(start - 1, k requires 0 <= k => k + 1)
    && SuffixFits(widths, available, start)
    && (forall i :: 2 <= i < start ==> !SuffixFits(widths, available, i))
    && InOrder(bar, widths, available, Reserve(widths, available))
  }

  /**
   Root, button, ancestors and the current item stand one behind the other: the button and the first of
   the others a gap apart, all others 2. The root has its share, ancestors their widths up to 180, and the
   current item all it needs, up to the end of the budget.
   */
  ghost predicate InOrder(bar: Bar, widths: seq<real>, available: real, p: Plan)
    requires |widths| >= 3
  {
    var n, start := |bar.visible| - 1, |bar.hidden| + 1;
    && n == |widths| - start >= 1
    && bar.visible[0] == Item(0, 0.0, p.root)
    && bar.overflowX == p.root + p.gap && bar.overflowWidth == p.overflow
    && bar.visible[1].x == bar.overflowX + bar.overflowWidth + p.gap
    && (forall k :: 1 <= k < n ==>
          && bar.visible[k].index == start + k - 1
          && bar.visible[k].width == (if widths[start + k - 1] < 180.0 then widths[start + k - 1] else 180.0)
          && bar.visible[k + 1].x == End(bar.visible[k]) + 2.0)
    && bar.visible[n].index == |widths| - 1
    && Largest(bar.visible[n].width, widths[|widths| - 1], available - bar.visible[n].x, widths[|widths| - 1])
    && bar.visible[n].width >= p.current
  }

  method LayoutOverflow(widths: seq<real>, available: real) returns (bar: Bar)
    requires |widths| >= 3 && Sizes(widths) && available >= 0.0
    ensures Partitions(bar, |widths|) && Fits(bar, available) && Squeezed(bar, widths, available)
  {
    hide Span, Partitions, Fits, Reserve, InOrder, Shares;
    var last := |widths| - 1;
    var p := Reserve(widths, available);
    ReserveFits(widths, available);
    var start := RetainAncestors(widths, available, p.root + p.overflow + p.current + 2.0 * p.gap);
    var hidden := HiddenFrom(start);
    var visible, x := PlaceAncestors(Item(0, 0.0, p.root), widths, p.root + p.gap + p.overflow + p.gap, start);
    var width := Min(widths[last], Max(available - x, 0.0));
    PlacedFits(visible, widths, p, start, x, width, available, hidden);
    bar := Bar(visible + [Item(last, x, width)], hidden, p.root + p.gap, p.overflow);
    OverflowPartitions(bar, |widths|, start);
    CurrentIsCapped(widths, available);
    PlacedInOrder(visible, widths, p, start, x, width, available, hidden);
    forall i | 2 <= i < start ensures !SuffixFits(widths, available, i) {
      SpanRises(widths, i, start - 1, last);
    }
  }

  lemma PlacedInOrder(visible: seq<Item>, widths: seq<real>, p: Plan, start: nat, x: real, w: real, available: real,
        hidden: seq<nat>)
    requires |widths| >= 3 && 2 <= start < |widths| && |visible| == |widths| - start && |hidden| == start - 1
    requires visible[0] == Item(0, 0.0, p.root)
    requires var x0 := p.root + p.gap + p.overflow + p.gap;
             Placed(visible, widths, x0, start) && x == x0 + Span(widths, start, |widths| - 1)
    requires Largest(w, widths[|widths| - 1], available - x, widths[|widths| - 1]) && w >= p.current
    ensures InOrder(Bar(visible + [Item(|widths| - 1, x, w)], hidden, p.root + p.gap, p.overflow), widths, available, p)
  {
    var all := visible + [Item(|widths| - 1, x, w)];
    var x0 := p.root + p.gap + p.overflow + p.gap;
    var n := |all| - 1;
    assert all[1].x == x0;
    forall k | 1 <= k < n ensures all[k + 1].x == End(all[k]) + 2.0 {
      SpanSnoc(widths, start, start + k - 1);
      assert k + 1 < n ==> all[k + 1] == visible[k + 1];
    }
  }

  lemma CurrentIsCapped(widths: seq<real>, available: real)
    requires |widths| >= 3
    ensures Reserve(widths, available).current <= widths[|widths| - 1]
  {
  }

  // ---- the policy ----

  function Full(widths: seq<real>): real
  {
    SumOf(widths) + 2.0 * (if widths == [] then 0 else |widths| - 1) as real
  }

  /** The full width is where the last item ends when every item is shown in full. */
  lemma FullIsEnd(widths: seq<real>)
    requires widths != []
    ensures var last := |widths| - 1; Full(widths) == Offset(widths, last) + widths[last]
  {
    OffsetIsSum(widths, |widths| - 1);
    hide Offset;
    assert widths[..|widths| - 1] + [widths[|widths| - 1]] == widths;
  }

  method LayoutAll(widths: seq<real>, available: real) returns (bar: Bar)
    requires widths != [] && Sizes(widths) && Full(widths) <= available
    ensures |bar.visible| == |widths| && bar.hidden == [] && bar.overflowWidth == 0.0
    ensures forall i :: 0 <= i < |widths| ==> bar.visible[i] == Item(i, Offset(widths, i), widths[i])
  {
    var visible: seq<Item> := [];
    var x := 0.0;
    var i := 0;
    while i < |widths|
      invariant 0 <= i <= |widths| && |visible| == i && x == Offset(widths, i)
      invariant forall k :: 0 <= k < i ==> visible[k] == Item(k, Offset(widths, k), widths[k])
    {
      visible := visible + [Item(i, x, widths[i])];
      x := x + (widths[i] + SPACING);
      i := i + 1;
    }
    bar := Bar(visible, [], 0.0, 0.0);
  }

  lemma AllShown(widths: seq<real>, bar: Bar)
    requires |bar.visible| == |widths| && bar.hidden == []
    requires forall i :: 0 <= i < |widths| ==> bar.visible[i].index == i
    ensures Partitions(bar, |widths|)
  {
    forall i: nat | i < |widths| ensures Shown(bar, i) {
      assert bar.visible[i].index == i;
    }
  }

  lemma AllFits(widths: seq<real>, available: real, bar: Bar)
    requires widths != [] && Sizes(widths) && Full(widths) <= available
    requires |bar.visible| == |widths| && bar.hidden == []
    requires forall i :: 0 <= i < |widths| ==> bar.visible[i] == Item(i, Offset(widths, i), widths[i])
    ensures Partitions(bar, |widths|) && Fits(bar, available)
  {
    hide Offset, SumOf, Partitions;
    var n := |widths|;
    assert widths[..n] == widths;
    OffsetIsSum(widths, n);
    AllShown(widths, bar);
    forall k | 0 <= k < n ensures bar.visible[k].x >= 0.0 && End(bar.visible[k]) <= available {
      OffsetStep(widths, k);
      OffsetRises(widths, k, k);
      OffsetRises(widths, k + 1, n);
    }
    forall j, k | 0 <= j < k < n ensures End(bar.visible[j]) <= bar.visible[k].x {
      OffsetStep(widths, j);
      OffsetRises(widths, j + 1, k);
    }
  }

  lemma OffsetStep(widths: seq<real>, i: nat)
    requires i < |widths|
    ensures Offset(widths, i + 1) == Offset(widths, i) + widths[i] + SPACING
  {
  }

  /**
   `layout`, over widths that are already finite. Shown and hidden items partition the path, nothing
   overlaps or leaves the budget; everything is shown in full when it fits, and otherwise, from three
   items on, the ancestors shown are the longest suffix from index 2 that fits beside what is
   reserved, and the current item gets at least its reserve. `Shares` says what is reserved.
   */
  method Layout(given: seq<real>, budget: real) returns (bar: Bar)
    ensures Policy(bar, Widths(given), Width(budget))
  {
    hide Partitions, Fits, Squeezed, FewShown, Span, Reserve, Offset, SumOf;
    var available := Width(budget);
    var widths := Widths(given);
    if widths == [] {
      bar := Bar([], [], 0.0, 0.0);
      NothingFits(available);
      return;
    }
    if Full(widths) <= available {
      bar := LayoutAll(widths, available);
      AllFits(widths, available, bar);
    } else if |widths| <= 2 {
      bar := LayoutFew(widths, available);
    } else {
      bar := LayoutOverflow(widths, available);
    }
  }

  function Widths(given: seq<real>): (r: seq<real>)
    ensures |r| == |given| && forall i :: 0 <= i < |r| ==> r[i] == Width(given[i])
  {
    seq(|given|, i requires 0 <= i < |given| => Width(given[i]))
  }

  ghost predicate ShownInFull(bar: Bar, widths: seq<real>)
  {
    && bar.hidden == [] && |bar.visible| == |widths|
    && forall i :: 0 <= i < |widths| ==> bar.visible[i] == Item(i, Offset(widths, i), widths[i])
  }

  ghost predicate Policy(bar: Bar, widths: seq<real>, available: real)
  {
    && Partitions(bar, |widths|) && Fits(bar, available)
    && (widths != [] && Full(widths) <= available ==> ShownInFull(bar, widths))
    && (1 <= |widths| <= 2 && Full(widths) > available ==> FewShown(bar, widths, available))
    && (|widths| >= 3 && Full(widths) > available ==> Squeezed(bar, widths, available))
  }

  lemma NothingFits(available: real)
    ensures Partitions(Bar([], [], 0.0, 0.0), 0) && Fits(Bar([], [], 0.0, 0.0), available)
  {
  }

  /**
   One item takes the whole budget. Of two, a gap of at most 2 apart, the first takes its width but at
   most a third of the rest, and the second its width up to the end of the budget.
   */
  ghost predicate FewShown(bar: Bar, widths: seq<real>, available: real)
    requires 1 <= |widths| <= 2
  {
    && bar.hidden == []
    && (|widths| == 1 ==> bar.visible == [Item(0, 0.0, available)])
    && (|widths| == 2 ==>
          && |bar.visible| == 2 && bar.visible[0].index == 0 && bar.visible[1].index == 1 && bar.visible[0].x == 0.0
          && var gap := bar.visible[1].x - End(bar.visible[0]);
             && Largest(gap, 2.0, available, 2.0)
             && Largest(bar.visible[0].width, widths[0], (available - gap) / 3.0, widths[0])
             && Largest(bar.visible[1].width, widths[1], available - bar.visible[1].x, widths[1]))
  }

  method LayoutFew(widths: seq<real>, available: real) returns (bar: Bar)
    requires 1 <= |widths| <= 2 && Sizes(widths) && available >= 0.0
    ensures Partitions(bar, |widths|) && Fits(bar, available) && FewShown(bar, widths, available)
  {
    if |widths| == 1 {
      bar := Bar([Item(0, 0.0, available)], [], 0.0, 0.0);
      assert bar.visible[0].index == 0;
    } else {
      var gap := Min(SPACING, available);
      var room := available - gap;
      var root := Min(widths[0], room / 3.0);
      var second := Min(widths[1], room - root);
      bar := Bar([Item(0, 0.0, root), Item(1, root + gap, second)], [], 0.0, 0.0);
      TwoFit(widths, available, gap, root, second, bar);
    }
  }

  ghost predicate TwoShares(widths: seq<real>, available: real, gap: real, root: real, second: real)
    requires |widths| == 2
  {
    && Largest(gap, 2.0, available, 2.0) && Largest(root, widths[0], (available - gap) / 3.0, widths[0])
    && Largest(second, widths[1], available - gap - root, widths[1])
  }

  lemma TwoInside(widths: seq<real>, available: real, gap: real, root: real, second: real)
    requires |widths| == 2 && Sizes(widths) && available >= 0.0 && TwoShares(widths, available, gap, root, second)
    ensures 0.0 <= gap && 0.0 <= root && 0.0 <= second && root + gap + second <= available
  {
  }

  lemma TwoFit(widths: seq<real>, available: real, gap: real, root: real, second: real, bar: Bar)
    requires |widths| == 2 && Sizes(widths) && available >= 0.0 && TwoShares(widths, available, gap, root, second)
    requires bar == Bar([Item(0, 0.0, root), Item(1, root + gap, second)], [], 0.0, 0.0)
    ensures Partitions(bar, 2) && Fits(bar, available) && FewShown(bar, widths, available)
  {
    TwoInside(widths, available, gap, root, second);
    hide TwoShares, Largest, Partitions, Fits, FewShown;
    TwoListed(bar);
    TwoPlaced(root, gap, second, available);
    TwoAreFew(widths, available, gap, root, second);
  }

  lemma TwoListed(bar: Bar)
    requires |bar.visible| == 2 && bar.visible[0].index == 0 && bar.visible[1].index == 1 && bar.hidden == []
    ensures Partitions(bar, 2)
  {
    forall i: nat | i < 2 ensures Shown(bar, i) {
      assert bar.visible[i].index == i;
    }
  }

  lemma TwoPlaced(root: real, gap: real, second: real, available: real)
    requires 0.0 <= gap && 0.0 <= root && 0.0 <= second && root + gap + second <= available
    ensures Fits(Bar([Item(0, 0.0, root), Item(1, root + gap, second)], [], 0.0, 0.0), available)
  {
  }

  lemma TwoAreFew(widths: seq<real>, available: real, gap: real, root: real, second: real)
    requires |widths| == 2 && TwoShares(widths, available, gap, root, second)
    ensures FewShown(Bar([Item(0, 0.0, root), Item(1, root + gap, second)], [], 0.0, 0.0), widths, available)
  {
    var bar := Bar([Item(0, 0.0, root), Item(1, root + gap, second)], [], 0.0, 0.0);
    assert bar.visible[1].x - End(bar.visible[0]) == gap;
    assert available - bar.visible[1].x == available - gap - root;
    hide Largest;
  }

  // ---- index 1 ----

  /**
   The suffix shown is the longest of all, the one from index 1 included, exactly if that one does not fit
   beside what is reserved. If it does fit, the second item is the only one hidden.
   */
  lemma LongestUnlessFirstFits(widths: seq<real>, available: real, bar: Bar)
    requires |widths| >= 3 && Sizes(widths) && Squeezed(bar, widths, available)
    ensures (forall i :: 1 <= i < |bar.hidden| + 1 ==> !SuffixFits(widths, available, i))
            <==> Reserved(Reserve(widths, available)) + Span(widths, 1, |widths| - 1) > available
    ensures Reserved(Reserve(widths, available)) + Span(widths, 1, |widths| - 1) <= available ==> bar.hidden == [1]
  {
    hide Span, Reserve;
    SpanRises(widths, 1, 2, |widths| - 1);
    if SuffixFits(widths, available, 1) {
      assert SuffixFits(widths, available, 2);
    }
  }

  /** The second item can be hidden although it would fit: whatever meets the policy hides it here. */
  lemma SecondHiddenThoughItFits(bar: Bar)
    requires Squeezed(bar, [10.0, 10.0, 1000.0], 500.0)
    ensures Full([10.0, 10.0, 1000.0]) > 500.0 && SuffixFits([10.0, 10.0, 1000.0], 500.0, 1) && bar.hidden == [1]
  {
    var widths := [10.0, 10.0, 1000.0];
    assert widths[..2] == [10.0, 10.0] && widths[..2][..1] == [10.0] && widths[..2][..1][..0] == [];
    assert SumOf(widths[..2]) == 20.0 by { assert SumOf(widths[..2][..1]) == 10.0; }
    assert SumOf(widths) == 1020.0;
    assert Span(widths, 1, 2) == SPACING + 10.0 by { assert Span(widths, 2, 2) == 0.0; }
    assert Reserve(widths, 500.0) == Plan(44.0, 2.0, 10.0, 320.0);
    LongestUnlessFirstFits(widths, 500.0, bar);
  }
}
