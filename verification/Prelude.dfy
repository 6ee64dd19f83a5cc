/**
 What several parts share: optional values, partition points, and how finite sets and multisets grow.
 */
module Prelude {

  datatype Option<+T> = None | Some(value: T) {
    function GetOr(other: T): T { if Some? then value else other }
  }

  /** `partition_point`: how many leading elements satisfy the test. */
  function PartitionPoint<T>(items: seq<T>, test: T -> bool): (n: nat)
    ensures n <= |items|
    ensures forall i :: 0 <= i < n ==> test(items[i])
    ensures n < |items| ==> !test(items[n])
  {
    if items == [] || !test(items[0]) then 0 else 1 + PartitionPoint(items[1..], test)
  }

  function SumOf(parts: seq<real>): real
  {
    if parts == [] then 0.0 else SumOf(parts[..|parts| - 1]) + parts[|parts| - 1]
  }

  ghost predicate Distinct<T(!new)>(items: seq<T>)
  {
    forall i, j :: 0 <= i < j < |items| ==> items[i] != items[j]
  }

  lemma DistinctParts<T(!new)>(a: seq<T>, b: seq<T>)
    requires Distinct(a + b)
    ensures Distinct(a) && Distinct(b)
    ensures forall x :: x in a ==> x !in b
  {
    var all := a + b;
    assert forall i :: 0 <= i < |a| ==> all[i] == a[i];
    assert forall j :: 0 <= j < |b| ==> all[|a| + j] == b[j];
    forall i, j | 0 <= i < |a| && 0 <= j < |b| ensures a[i] != b[j] {
      assert all[i] != all[|a| + j];
    }
  }

  lemma DistinctSingle<T(!new)>(x: T)
    ensures Distinct([x])
  {
  }

  lemma DistinctJoin<T(!new)>(a: seq<T>, b: seq<T>)
    requires Distinct(a) && Distinct(b) && forall x :: x in a ==> x !in b
    ensures Distinct(a + b)
  {
    var all := a + b;
    forall i, j | 0 <= i < j < |all| ensures all[i] != all[j] {
      if i < |a| <= j {
        assert all[i] in a && all[j] in b;
      }
    }
  }

  lemma SubsetCount<T>(a: set<T>, b: set<T>)
    requires a <= b
    ensures |a| <= |b|
  {
    assert b == a + (b - a);
  }

  lemma BagRemove<K>(a: set<K>, b: multiset<K>, k: K)
    requires multiset(a) == b + multiset{k}
    ensures k in a && multiset(a - {k}) == b
  {
    assert k in b + multiset{k} && k in multiset(a);
    var c := multiset(a - {k});
    assert multiset(a) == c + multiset{k};
    forall x ensures c[x] == b[x] {
      assert (c + multiset{k})[x] == (b + multiset{k})[x];
    }
  }
}
