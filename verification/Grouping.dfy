/**
 Grouping entries by key, batch by batch (src/group_projection.rs:30-91).
 */
module Grouping {
  import opened Prelude

  // ---- keys and buckets ----

  /** `GroupSortKey`: groups are ordered by rank, then by their stable key. */
  datatype SortKey = SortKey(rank: nat, stable: string)

  predicate TextBelow(a: string, b: string)
  {
    if b == [] then false
    else if a == [] then true
    else a[0] < b[0] || (a[0] == b[0] && TextBelow(a[1..], b[1..]))
  }

  predicate Below(a: SortKey, b: SortKey)
  {
    a.rank < b.rank || (a.rank == b.rank && TextBelow(a.stable, b.stable))
  }

  lemma {:induction false} TextOrder(a: string, b: string, c: string)
    ensures !TextBelow(a, a)
    ensures TextBelow(a, b) && TextBelow(b, c) ==> TextBelow(a, c)
    ensures TextBelow(a, b) || TextBelow(b, a) || a == b
    decreases |a| + |b| + |c|
  {
    if a != [] {
      TextOrder(a[1..], if b == [] then [] else b[1..], if c == [] then [] else c[1..]);
      if b != [] && a[0] == b[0] && a[1..] == b[1..] {
        assert a == [a[0]] + a[1..] && b == [b[0]] + b[1..];
      }
    }
  }

  lemma KeyOrder(a: SortKey, b: SortKey, c: SortKey)
    ensures !Below(a, a)
    ensures Below(a, b) && Below(b, c) ==> Below(a, c)
    ensures Below(a, b) || Below(b, a) || a == b
    ensures !(Below(a, b) && Below(b, a))
  {
    TextOrder(a.stable, b.stable, c.stable);
    TextOrder(a.stable, b.stable, a.stable);
  }

  // What `group_bucket` says about an entry, for the field and context at hand.
  datatype Bucket = Bucket(sortKey: SortKey, title: string)

  datatype Entry = Entry(id: nat, bucket: Bucket)

  datatype Group = Group(key: string, title: string, detail: string, entries: seq<nat>, headerVisible: bool)

  // ---- the builder on values ----

  /** The first entry of every id, in order. */
  function Firsts(entries: seq<Entry>): seq<Entry>
  {
    if entries == [] then []
    else
      var before := Firsts(entries[..|entries| - 1]);
      if Seen(entries[..|entries| - 1], entries[|entries| - 1].id) then before else before + [entries[|entries| - 1]]
  }

  predicate Seen(entries: seq<Entry>, id: nat)
  {
    exists i :: 0 <= i < |entries| && entries[i].id == id
  }

  /** Ids of a group in order of arrival. */
  function IdsUnder(entries: seq<Entry>, key: SortKey): seq<nat>
  {
    if entries == [] then []
    else IdsUnder(entries[..|entries| - 1], key)
         + if entries[|entries| - 1].bucket.sortKey == key then [entries[|entries| - 1].id] else []
  }

  /** The title a group gets from its first entry. */
  function LabelUnder(entries: seq<Entry>, key: SortKey): string
  {
    if entries == [] then ""
    else if IdsUnder(entries[..|entries| - 1], key) == [] && entries[|entries| - 1].bucket.sortKey == key
      then entries[|entries| - 1].bucket.title
    else LabelUnder(entries[..|entries| - 1], key)
  }

  function GroupUnder(entries: seq<Entry>, key: SortKey, headerVisible: bool): Group
  {
    Group(key.stable, LabelUnder(entries, key), "", IdsUnder(entries, key), headerVisible)
  }

  predicate KeyUsed(entries: seq<Entry>, key: SortKey)
  {
    exists i :: 0 <= i < |entries| && entries[i].bucket.sortKey == key
  }

  /** The groups are those of the first entries of every id, by key. */
  ghost predicate GroupsOf(groups: map<SortKey, Group>, entries: seq<Entry>, headerVisible: bool)
  {
    && (forall key :: key in groups <==> KeyUsed(Firsts(entries), key))
    && (forall key :: key in groups ==> groups[key] == GroupUnder(Firsts(entries), key, headerVisible))
  }

  lemma SeenSnoc(entries: seq<Entry>, e: Entry)
    ensures forall id :: Seen(entries + [e], id) <==> Seen(entries, id) || e.id == id
  {
    var more := entries + [e];
    forall id ensures Seen(more, id) <==> Seen(entries, id) || e.id == id {
      if Seen(entries, id) {
        var i :| 0 <= i < |entries| && entries[i].id == id;
        assert more[i] == entries[i];
      }
      assert more[|entries|] == e;
    }
  }

  lemma FirstsSnoc(entries: seq<Entry>, e: Entry)
    ensures Firsts(entries + [e]) == if Seen(entries, e.id) then Firsts(entries) else Firsts(entries) + [e]
  {
    assert (entries + [e])[..|entries|] == entries;
  }

  lemma UsedSnoc(entries: seq<Entry>, e: Entry, key: SortKey)
    ensures KeyUsed(entries + [e], key) <==> KeyUsed(entries, key) || e.bucket.sortKey == key
  {
    var more := entries + [e];
    assert more[|entries|] == e;
    if KeyUsed(entries, key) {
      var i :| 0 <= i < |entries| && entries[i].bucket.sortKey == key;
      assert more[i] == entries[i];
    }
  }

  lemma {:induction false} UsedMeansIds(entries: seq<Entry>, key: SortKey)
    ensures KeyUsed(entries, key) <==> IdsUnder(entries, key) != []
    decreases |entries|
  {
    if entries != [] {
      var n := |entries| - 1;
      UsedMeansIds(entries[..n], key);
      UsedSnoc(entries[..n], entries[n], key);
      assert entries == entries[..n] + [entries[n]];
    }
  }

  lemma GroupSnoc(entries: seq<Entry>, e: Entry, key: SortKey)
    ensures IdsUnder(entries + [e], key) == IdsUnder(entries, key) + if e.bucket.sortKey == key then [e.id] else []
    ensures LabelUnder(entries + [e], key) ==
              if !KeyUsed(entries, key) && e.bucket.sortKey == key then e.bucket.title else LabelUnder(entries, key)
  {
    assert (entries + [e])[..|entries|] == entries;
    UsedMeansIds(entries, key);
  }

  lemma UnusedIsEmpty(entries: seq<Entry>, key: SortKey)
    requires !KeyUsed(entries, key)
    ensures IdsUnder(entries, key) == []
  {
    UsedMeansIds(entries, key);
  }

  class GroupProjectionBuilder {
    const headerVisible: bool      // the field is not `None`
    const descending: bool
    var groups: map<SortKey, Group>
    var seen: set<nat>
    ghost var given: seq<Entry>

    constructor (headerVisible: bool, descending: bool)
      ensures this.headerVisible == headerVisible && this.descending == descending
      ensures given == [] && Valid()
    {
      this.headerVisible, this.descending := headerVisible, descending;
      groups, seen, given := map[], {}, [];
    }

    ghost predicate Valid()
      reads this
    {
      GroupsOf(groups, given, headerVisible) && forall id :: id in seen <==> Seen(given, id)
    }

    /** `extend`: what has been given so far is all that counts, not how it was split. */
    method Extend(entries: seq<Entry>)
      requires Valid()
      modifies this
      ensures Valid() && given == old(given) + entries
    {
      hide Firsts, Seen, GroupsOf;
      var i := 0;
      while i < |entries|
        invariant 0 <= i <= |entries|
        invariant Valid() && given == old(given) + entries[..i]
      {
        ghost var before := given;
        var entry := entries[i];
        given := given + [entry];
        SeenSnoc(before, entry);
        assert old(given) + entries[..i + 1] == (old(given) + entries[..i]) + [entry];
        if entry.id in seen {
          RepeatKeeps(groups, before, entry, headerVisible);
        } else {
          seen := seen + {entry.id};
          var key := entry.bucket.sortKey;
          var group := if key in groups then groups[key]
            else Group(key.stable, entry.bucket.title, "", [], headerVisible);
          NewEntry(groups, before, entry, headerVisible, group.(entries := group.entries + [entry.id]));
          groups := groups[key := group.(entries := group.entries + [entry.id])];
        }
        i := i + 1;
      }
      assert entries[..i] == entries;
    }

    /** `finish`: the groups by sort key, or from the last to the first. */
    method Finish() returns (result: seq<Group>)
      requires Valid()
      ensures Finished(result, given, headerVisible, descending)
    {
      hide Firsts, KeyUsed, GroupUnder, Ordered, Seen;
      var keys := SortKeys(groups.Keys);
      result := [];
      var i := 0;
      while i < |keys|
        invariant 0 <= i <= |keys| && |result| == i
        invariant forall j :: 0 <= j < i ==> result[j] == groups[keys[j]]
      {
        result := result + [groups[keys[i]]];
        i := i + 1;
      }
      ghost var order := keys;
      if descending {
        result := Reverse(result);
        order := Reversed(keys);
        ReversedOrder(keys);
        assert forall i :: 0 <= i < |order| ==> result[i] == groups[order[i]];
      }
      assert Lists(order, result, given, headerVisible, descending);
    }
  }

  /** The groups listed are those of `keys`, in their order. */
  ghost predicate Lists(keys: seq<SortKey>, result: seq<Group>, entries: seq<Entry>, headerVisible: bool,
        descending: bool)
  {
    && Ordered(keys, descending) && (forall k :: k in keys <==> KeyUsed(Firsts(entries), k))
    && |result| == |keys| && forall i :: 0 <= i < |keys| ==>
                               result[i] == GroupUnder(Firsts(entries), keys[i], headerVisible)
  }

  ghost predicate Finished(result: seq<Group>, entries: seq<Entry>, headerVisible: bool, descending: bool)
  {
    exists keys :: Lists(keys, result, entries, headerVisible, descending)
  }

  lemma RepeatKeeps(groups: map<SortKey, Group>, before: seq<Entry>, e: Entry, headerVisible: bool)
    requires GroupsOf(groups, before, headerVisible) && Seen(before, e.id)
    ensures GroupsOf(groups, before + [e], headerVisible)
  {
    hide Firsts, Seen;
    FirstsSnoc(before, e);
  }

  lemma NewEntry(groups: map<SortKey, Group>, before: seq<Entry>, e: Entry, headerVisible: bool, group: Group)
    requires GroupsOf(groups, before, headerVisible) && !Seen(before, e.id)
    requires var key := e.bucket.sortKey;
             var base := if key in groups then groups[key]
               else Group(key.stable, e.bucket.title, "", [], headerVisible);
             group == base.(entries := base.entries + [e.id])
    ensures GroupsOf(groups[e.bucket.sortKey := group], before + [e], headerVisible)
  {
    hide Firsts, Seen, KeyUsed, IdsUnder, LabelUnder;
    FirstsSnoc(before, e);
    var f := Firsts(before);
    var more := groups[e.bucket.sortKey := group];
    forall key
      ensures key in more <==> KeyUsed(f + [e], key)
      ensures key in more ==> more[key] == GroupUnder(f + [e], key, headerVisible)
    {
      UsedSnoc(f, e, key);
      GroupSnoc(f, e, key);
      if key == e.bucket.sortKey && key !in groups {
        UnusedIsEmpty(f, key);
      }
    }
  }

  // ---- sorted keys ----

  ghost predicate Ordered(keys: seq<SortKey>, descending: bool)
  {
    forall i, j :: 0 <= i < j < |keys| ==> if descending then Below(keys[j], keys[i]) else Below(keys[i], keys[j])
  }

  function Reversed<T>(s: seq<T>): (r: seq<T>)
    ensures |r| == |s| && forall i :: 0 <= i < |r| ==> r[i] == s[|s| - 1 - i]
  {
    seq(|s|, i requires 0 <= i < |s| => s[|s| - 1 - i])
  }

  method Reverse<T>(s: seq<T>) returns (r: seq<T>)
    ensures r == Reversed(s)
  {
    r := [];
    var i := |s|;
    while i > 0
      invariant 0 <= i <= |s| && |r| == |s| - i
      invariant forall j :: 0 <= j < |r| ==> r[j] == s[|s| - 1 - j]
    {
      i := i - 1;
      r := r + [s[i]];
    }
  }

  lemma ReversedOrder(keys: seq<SortKey>)
    requires Ordered(keys, false)
    ensures Ordered(Reversed(keys), true) && forall k :: k in Reversed(keys) <==> k in keys
  {
    hide Below;
    var r := Reversed(keys);
    forall i, j | 0 <= i < j < |r| ensures Below(r[j], r[i]) {
      assert Below(keys[|keys| - 1 - j], keys[|keys| - 1 - i]);
    }
    forall k ensures k in r <==> k in keys {
      if k in keys {
        var i :| 0 <= i < |keys| && keys[i] == k;
        assert r[|keys| - 1 - i] == k;
      }
    }
  }

  /** The order a `BTreeMap` iterates in. */
  method SortKeys(keys: set<SortKey>) returns (r: seq<SortKey>)
    ensures Ordered(r, false) && forall k :: k in r <==> k in keys
  {
    r := [];
    var left := keys;
    while left != {}
      invariant left <= keys && Ordered(r, false) && forall k :: k in r <==> k in keys - left
      decreases left
    {
      var key :| key in left;
      left := left - {key};
      r := InsertKey(r, key);
    }
  }

  method InsertKey(keys: seq<SortKey>, key: SortKey) returns (r: seq<SortKey>)
    requires Ordered(keys, false) && key !in keys
    ensures Ordered(r, false) && forall k :: k in r <==> k in keys || k == key
  {
    hide Below;
    var i := 0;
    while i < |keys| && Below(keys[i], key)
      invariant 0 <= i <= |keys| && forall j :: 0 <= j < i ==> Below(keys[j], key)
    {
      i := i + 1;
    }
    r := keys[..i] + [key] + keys[i..];
    forall j | i <= j < |keys| ensures Below(key, keys[j]) {
      KeyOrder(key, keys[i], keys[j]);
      assert keys[i] in keys;
    }
    assert forall k :: k in keys <==> k in keys[..i] || k in keys[i..];
    InsertedOrder(keys, i, key);
  }

  lemma InsertedOrder(keys: seq<SortKey>, i: nat, key: SortKey)
    requires Ordered(keys, false) && i <= |keys|
    requires (forall j :: 0 <= j < i ==> Below(keys[j], key)) && (forall j :: i <= j < |keys| ==> Below(key, keys[j]))
    ensures Ordered(keys[..i] + [key] + keys[i..], false)
  {
    hide Below;
    var r := keys[..i] + [key] + keys[i..];
    forall j, k | 0 <= j < k < |r| ensures Below(r[j], r[k]) {
      assert r[j] == if j < i then keys[j] else if j == i then key else keys[j - 1];
      assert r[k] == if k < i then keys[k] else if k == i then key else keys[k - 1];
    }
  }

  // ---- what a projection promises ----

  /**
   What is finished depends on the entries given alone: any split into batches gives the same groups in the
   same order.
   */
  lemma BatchesDoNotMatter(a: seq<Group>, b: seq<Group>, entries: seq<Entry>, headerVisible: bool, descending: bool)
    requires Finished(a, entries, headerVisible, descending) && Finished(b, entries, headerVisible, descending)
    ensures a == b
  {
    hide Firsts, KeyUsed, GroupUnder, Ordered;
    var keys :| Lists(keys, a, entries, headerVisible, descending);
    var others :| Lists(others, b, entries, headerVisible, descending);
    OneOrder(keys, others, descending);
  }

  /** The order of the groups is determined too. */
  lemma {:induction false} OneOrder(a: seq<SortKey>, b: seq<SortKey>, descending: bool)
    requires Ordered(a, descending) && Ordered(b, descending) && forall k :: k in a <==> k in b
    ensures a == b
    decreases |a|
  {
    hide Below;
    if a == [] {
      HeadIsMember(b);
    } else {
      assert a[0] in b && b != [];
      assert b[0] in a;
      SameHead(a, b, descending);
      forall k ensures k in a[1..] <==> k in b[1..] {
        TailMembers(a, descending, k);
        TailMembers(b, descending, k);
      }
      OneOrder(a[1..], b[1..], descending);
      assert a == [a[0]] + a[1..] && b == [b[0]] + b[1..];
    }
  }

  lemma HeadIsMember(a: seq<SortKey>)
    ensures a != [] ==> a[0] in a
  {
  }

  lemma SameHead(a: seq<SortKey>, b: seq<SortKey>, descending: bool)
    requires Ordered(a, descending) && Ordered(b, descending) && a != [] && b != [] && a[0] in b && b[0] in a
    ensures a[0] == b[0]
  {
    hide Below;
    var i :| 0 <= i < |b| && b[i] == a[0];
    var j :| 0 <= j < |a| && a[j] == b[0];
    KeyOrder(a[0], b[0], a[0]);
  }

  lemma TailMembers(a: seq<SortKey>, descending: bool, k: SortKey)
    requires Ordered(a, descending) && a != []
    ensures k in a[1..] <==> k in a && k != a[0]
  {
    hide Below;
    KeyOrder(a[0], a[0], a[0]);
    if k in a && k != a[0] {
      var i :| 0 <= i < |a| && a[i] == k;
      assert a[1..][i - 1] == k;
    }
    if k in a[1..] {
      var i :| 0 <= i < |a| - 1 && a[1..][i] == k;
      assert a[i + 1] == k;
    }
  }

  lemma {:induction false} FirstsAre(entries: seq<Entry>)
    ensures forall i, j :: 0 <= i < j < |Firsts(entries)| ==> Firsts(entries)[i].id != Firsts(entries)[j].id
    ensures forall id :: Seen(Firsts(entries), id) <==> Seen(entries, id)
    decreases |entries|
  {
    hide Seen;
    if entries != [] {
      var n := |entries| - 1;
      var before := Firsts(entries[..n]);
      FirstsAre(entries[..n]);
      assert entries == entries[..n] + [entries[n]];
      SeenSnoc(entries[..n], entries[n]);
      SeenSnoc(before, entries[n]);
      assert forall i :: 0 <= i < |before| ==> Seen(before, before[i].id) by { MembersSeen(before); }
    }
  }

  lemma MembersSeen(entries: seq<Entry>)
    ensures forall i :: 0 <= i < |entries| ==> Seen(entries, entries[i].id)
  {
  }

  lemma {:induction false} UnderMembers(entries: seq<Entry>, key: SortKey, id: nat)
    ensures id in IdsUnder(entries, key)
            <==> exists i :: 0 <= i < |entries| && entries[i].id == id && entries[i].bucket.sortKey == key
    decreases |entries|
  {
    if entries != [] {
      var n := |entries| - 1;
      UnderMembers(entries[..n], key, id);
      if id in IdsUnder(entries[..n], key) {
        var i :| 0 <= i < |entries[..n]| && entries[..n][i].id == id && entries[..n][i].bucket.sortKey == key;
        assert entries[i] == entries[..n][i];
      }
      if exists i :: 0 <= i < |entries| && entries[i].id == id && entries[i].bucket.sortKey == key {
        var i :| 0 <= i < |entries| && entries[i].id == id && entries[i].bucket.sortKey == key;
        assert i < n ==> entries[..n][i] == entries[i];
      }
    }
  }

  /** Every id given is in exactly one group, once: the group of its first entry. */
  lemma EachIdOnce(entries: seq<Entry>, id: nat, a: SortKey, b: SortKey)
    requires id in IdsUnder(Firsts(entries), a) && id in IdsUnder(Firsts(entries), b)
    ensures a == b && Seen(entries, id)
  {
    hide Firsts, IdsUnder, Seen;
    var f := Firsts(entries);
    FirstsAre(entries);
    UnderMembers(f, a, id);
    UnderMembers(f, b, id);
    var i :| 0 <= i < |f| && f[i].id == id && f[i].bucket.sortKey == a;
    var j :| 0 <= j < |f| && f[j].id == id && f[j].bucket.sortKey == b;
    assert i == j;
    MembersSeen(f);
  }

  lemma GivenIsGrouped(entries: seq<Entry>, id: nat)
    requires Seen(entries, id)
    ensures exists key :: KeyUsed(Firsts(entries), key) && id in IdsUnder(Firsts(entries), key)
  {
    hide Firsts, IdsUnder;
    var f := Firsts(entries);
    FirstsAre(entries);
    var i :| 0 <= i < |f| && f[i].id == id;
    UnderMembers(f, f[i].bucket.sortKey, id);
    assert KeyUsed(f, f[i].bucket.sortKey);
  }

  lemma {:induction false} NoIdTwice(entries: seq<Entry>, key: SortKey)
    requires forall i, j :: 0 <= i < j < |entries| ==> entries[i].id != entries[j].id
    ensures forall i, j :: 0 <= i < j < |IdsUnder(entries, key)| ==>
              IdsUnder(entries, key)[i] != IdsUnder(entries, key)[j]
    decreases |entries|
  {
    if entries != [] {
      var n := |entries| - 1;
      NoIdTwice(entries[..n], key);
      UnderMembers(entries[..n], key, entries[n].id);
      assert entries[n].id !in IdsUnder(entries[..n], key);
    }
  }

  // ---- all groups together ----

  /** The ids of all groups, one group after the other. */
  function AllIds(groups: seq<Group>): seq<nat>
  {
    if groups == [] then [] else AllIds(groups[..|groups| - 1]) + groups[|groups| - 1].entries
  }

  /** Every id of some of the groups stands under the key of one of them. */
  lemma {:induction false} IdsHaveKeys(keys: seq<SortKey>, groups: seq<Group>, firsts: seq<Entry>, id: nat)
    requires |keys| == |groups| && forall i :: 0 <= i < |keys| ==> groups[i].entries == IdsUnder(firsts, keys[i])
    ensures id in AllIds(groups) <==> exists i :: 0 <= i < |keys| && id in IdsUnder(firsts, keys[i])
    decreases |groups|
  {
    hide IdsUnder;
    if groups != [] {
      IdsHaveKeys(keys[..|keys| - 1], groups[..|groups| - 1], firsts, id);
    }
  }

  lemma {:induction false} KeysApart(keys: seq<SortKey>, groups: seq<Group>, entries: seq<Entry>, descending: bool)
    requires |keys| == |groups| && Ordered(keys, descending)
    requires forall i :: 0 <= i < |keys| ==> groups[i].entries == IdsUnder(Firsts(entries), keys[i])
    ensures Distinct(AllIds(groups))
    decreases |groups|
  {
    hide IdsUnder, Firsts, Below;
    if groups != [] {
      var n := |groups| - 1;
      var firsts := Firsts(entries);
      KeysApart(keys[..n], groups[..n], entries, descending);
      FirstsAre(entries);
      NoIdTwice(firsts, keys[n]);
      forall id | id in AllIds(groups[..n]) ensures id !in groups[n].entries {
        IdsHaveKeys(keys[..n], groups[..n], firsts, id);
        var i :| 0 <= i < n && id in IdsUnder(firsts, keys[i]);
        if id in groups[n].entries {
          EachIdOnce(entries, id, keys[i], keys[n]);
          KeyOrder(keys[i], keys[n], keys[i]);
        }
      }
      DistinctJoin(AllIds(groups[..n]), groups[n].entries);
    }
  }

  /** The groups together list every id given exactly once. */
  lemma FinishedIds(groups: seq<Group>, entries: seq<Entry>, headerVisible: bool, descending: bool)
    requires Finished(groups, entries, headerVisible, descending)
    ensures Distinct(AllIds(groups))
    ensures forall id :: id in AllIds(groups) <==> Seen(entries, id)
  {
    hide IdsUnder, Firsts, Below, Seen, KeyUsed, AllIds, Ordered;
    var keys :| Lists(keys, groups, entries, headerVisible, descending);
    var firsts := Firsts(entries);
    KeysApart(keys, groups, entries, descending);
    forall id ensures id in AllIds(groups) <==> Seen(entries, id) {
      IdsHaveKeys(keys, groups, firsts, id);
      if id in AllIds(groups) {
        var i :| 0 <= i < |keys| && id in IdsUnder(firsts, keys[i]);
        EachIdOnce(entries, id, keys[i], keys[i]);
      }
      if Seen(entries, id) {
        GivenIsGrouped(entries, id);
        var key :| KeyUsed(firsts, key) && id in IdsUnder(firsts, key);
        assert key in keys;
      }
    }
  }
}
