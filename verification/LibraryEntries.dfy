/**
 The entries one library job accepts (src/library_loading.rs, `Aggregate`).

 Sources hand over batches of files. A job keeps the first file it sees under each path and
 numbers what it keeps 1, 2, 3, ... across all of its sources.
 */
module LibraryEntries {

  // How a path is spelled is irrelevant here; only equality and the UNC test matter.
  type Spelling(==, !new, 0)
  type Payload(==, !new, 0)

  datatype Path = Path(spelling: Spelling, unc: bool)

  datatype Entry = Entry(path: Path, payload: Payload)

  // One call of a reader's batch callback: the source index and what it handed over.
  datatype Handed = Handed(source: nat, entries: seq<Entry>)

  // An entry together with the source that found it.
  datatype Item = Item(source: nat, entry: Entry)

  // What the scheduler passes on: the entry carries its number and its source.
  datatype Accepted = Accepted(id: nat, source: nat, entry: Entry)

  // Entry numbers are 32-bit; the number after the largest assigned one must exist as well.
  const MAX_ENTRY_ID: nat := 0xFFFF_FFFF

  function Tagged(source: nat, entries: seq<Entry>): (items: seq<Item>)
    ensures |items| == |entries|
    ensures forall i :: 0 <= i < |items| ==> items[i] == Item(source, entries[i])
  {
    seq(|entries|, i requires 0 <= i < |entries| => Item(source, entries[i]))
  }

  /** All items of a log of batches, in the order they were handed over. */
  function Items(log: seq<Handed>): seq<Item>
  {
    if log == [] then [] else Items(log[..|log| - 1]) + Tagged(log[|log| - 1].source, log[|log| - 1].entries)
  }

  function Paths(items: seq<Item>): set<Path>
  {
    set i | 0 <= i < |items| :: items[i].entry.path
  }

  /** The items whose path no earlier item has. */
  function FirstOnly(items: seq<Item>): (r: seq<Item>)
  {
    if items == [] then []
    else
      var init, last := items[..|items| - 1], items[|items| - 1];
      FirstOnly(init) + if last.entry.path in Paths(init) then [] else [last]
  }

  function Numbered(first: nat, items: seq<Item>): (r: seq<Accepted>)
    ensures |r| == |items|
    ensures forall i :: 0 <= i < |r| ==> r[i] == Accepted(first + i, items[i].source, items[i].entry)
  {
    seq(|items|, i requires 0 <= i < |items| => Accepted(first + i, items[i].source, items[i].entry))
  }

  /** The reference meaning of a job's list: first occurrences by path, numbered from 1. */
  function AcceptedOf(log: seq<Handed>): seq<Accepted>
  {
    Numbered(1, FirstOnly(Items(log)))
  }

  /** What `Aggregate::batch` keeps of one batch when `seen` is already taken. */
  function Fresh(seen: set<Path>, items: seq<Item>): (r: seq<Item>)
    decreases |items|
  {
    if items == [] then []
    else if items[0].entry.path in seen then Fresh(seen, items[1..])
    else [items[0]] + Fresh(seen + {items[0].entry.path}, items[1..])
  }

  lemma PathsAppend(a: seq<Item>, b: seq<Item>)
    ensures Paths(a + b) == Paths(a) + Paths(b)
  {
    forall p | p in Paths(a) + Paths(b) ensures p in Paths(a + b) {
      if p in Paths(a) {
        var i :| 0 <= i < |a| && a[i].entry.path == p;
        assert (a + b)[i].entry.path == p;
      } else {
        var i :| 0 <= i < |b| && b[i].entry.path == p;
        assert (a + b)[|a| + i].entry.path == p;
      }
    }
  }

  lemma {:induction false} FirstOnlyAppend(a: seq<Item>, b: seq<Item>)
    ensures FirstOnly(a + b) == FirstOnly(a) + Fresh(Paths(a), b)
    decreases |b|
  {
    if b == [] {
      assert a + b == a;
    } else {
      var a1 := a + [b[0]];
      assert a + b == a1 + b[1..];
      FirstOnlyAppend(a1, b[1..]);
      PathsAppend(a, [b[0]]);
      assert Paths([b[0]]) == {b[0].entry.path} by {
        assert [b[0]][0].entry.path in Paths([b[0]]);
      }
      assert a1[..|a1| - 1] == a;
      if b[0].entry.path in Paths(a) {
        assert Paths(a1) == Paths(a);
      }
    }
  }

  lemma ItemsSnoc(log: seq<Handed>, h: Handed)
    ensures Items(log + [h]) == Items(log) + Tagged(h.source, h.entries)
  {
    assert (log + [h])[..|log|] == log;
  }

  lemma {:induction false} ItemsAppend(a: seq<Handed>, b: seq<Handed>)
    ensures Items(a + b) == Items(a) + Items(b)
    decreases |b|
  {
    if b == [] {
      assert a + b == a;
    } else {
      hide Items;
      var init, last := b[..|b| - 1], b[|b| - 1];
      assert a + b == (a + init) + [last] && b == init + [last];
      ItemsSnoc(a + init, last);
      ItemsSnoc(init, last);
      ItemsAppend(a, init);
    }
  }

  /** Merging a further batch appends exactly the fresh items, with consecutive numbers. */
  lemma AcceptedExtends(log: seq<Handed>, h: Handed)
    ensures AcceptedOf(log + [h])
         == AcceptedOf(log) + Numbered(|AcceptedOf(log)| + 1, Fresh(Paths(Items(log)), Tagged(h.source, h.entries)))
    ensures Paths(Items(log + [h])) == Paths(Items(log)) + Paths(Tagged(h.source, h.entries))
  {
    hide Items, Fresh, Paths, FirstOnly;
    ItemsSnoc(log, h);
    FirstOnlyAppend(Items(log), Tagged(h.source, h.entries));
    PathsAppend(Items(log), Tagged(h.source, h.entries));
  }

  /** A longer log only appends to the accepted list. */
  lemma AcceptedPrefix(log: seq<Handed>, more: seq<Handed>)
    ensures AcceptedOf(log) <= AcceptedOf(log + more)
  {
    ItemsAppend(log, more);
    FirstOnlyAppend(Items(log), Items(more));
  }

  /** `x` stands in `items` and nothing before its first position has its path. */
  ghost predicate IsFirst(items: seq<Item>, x: Item)
  {
    exists i :: FirstAt(items, x, i)
  }

  ghost predicate FirstAt(items: seq<Item>, x: Item, i: int)
  {
    0 <= i < |items| && items[i] == x && x.entry.path !in Paths(items[..i])
  }

  lemma PathsSnoc(items: seq<Item>, last: Item)
    ensures Paths(items + [last]) == Paths(items) + {last.entry.path}
  {
    PathsAppend(items, [last]);
    assert [last][0].entry.path in Paths([last]);
  }

  lemma IsFirstSnoc(init: seq<Item>, last: Item, x: Item)
    ensures IsFirst(init + [last], x) <==> IsFirst(init, x) || (x == last && last.entry.path !in Paths(init))
  {
    var items := init + [last];
    assert items[..|init|] == init;
    if IsFirst(items, x) {
      var i :| FirstAt(items, x, i);
      if i < |init| {
        assert items[..i] == init[..i];
        assert FirstAt(init, x, i);
      }
    }
    if IsFirst(init, x) {
      var i :| FirstAt(init, x, i);
      assert items[..i] == init[..i];
      assert FirstAt(items, x, i);
    }
    if x == last && last.entry.path !in Paths(init) {
      assert FirstAt(items, x, |init|);
    }
  }

  /**
   `FirstOnly` is first-occurrence de-duplication: an item is kept exactly when it stands at a
   position that no earlier item shares a path with.
   */
  lemma {:induction false} FirstOnlyMembers(items: seq<Item>, x: Item)
    ensures x in FirstOnly(items) <==> IsFirst(items, x)
  {
    if items != [] {
      var init, last := items[..|items| - 1], items[|items| - 1];
      assert items == init + [last];
      FirstOnlyMembers(init, x);
      IsFirstSnoc(init, last, x);
    }
  }

  /** No path is lost and none is kept twice. */
  lemma {:induction false} FirstOnlyPaths(items: seq<Item>)
    ensures Paths(FirstOnly(items)) == Paths(items)
    ensures forall i, j :: 0 <= i < j < |FirstOnly(items)|
              ==> FirstOnly(items)[i].entry.path != FirstOnly(items)[j].entry.path
  {
    if items != [] {
      var init, last := items[..|items| - 1], items[|items| - 1];
      assert items == init + [last];
      FirstOnlyPaths(init);
      PathsSnoc(init, last);
      PathsSnoc(FirstOnly(init), last);
      if last.entry.path !in Paths(init) {
        forall i | 0 <= i < |FirstOnly(init)| ensures FirstOnly(init)[i].entry.path != last.entry.path {
          assert FirstOnly(init)[i].entry.path in Paths(FirstOnly(init));
        }
      } else {
        assert FirstOnly(items) == FirstOnly(init);
      }
    } else {
      assert Paths(items) == {};
    }
  }
}
