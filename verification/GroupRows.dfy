/**
 The rows of a grouped list: every group's header, if it shows one, and then its entries
 (src/group_projection.rs:93-104, 161-179; src/app/directory_model.rs:194-214).
 */
module GroupRows {
  import opened Prelude
  import opened Grouping

  /** `ListVisualRow`. */
  datatype Visual = Header(key: string, title: string, detail: string, count: nat) | Row(id: nat)

  function RowsOf(ids: seq<nat>): (r: seq<Visual>)
    ensures |r| == |ids| && forall i :: 0 <= i < |r| ==> r[i] == Row(ids[i])
  {
    seq(|ids|, i requires 0 <= i < |ids| => Row(ids[i]))
  }

  function HeaderOf(g: Group): Visual
  {
    Header(g.key, g.title, g.detail, |g.entries|)
  }

  function GroupVisuals(g: Group): seq<Visual>
  {
    (if g.headerVisible then [HeaderOf(g)] else []) + RowsOf(g.entries)
  }

  /** The rows the groups call for. */
  function Visuals(groups: seq<Group>): seq<Visual>
  {
    if groups == [] then [] else Visuals(groups[..|groups| - 1]) + GroupVisuals(groups[|groups| - 1])
  }

  /** From row `at` on stand the group's header, if shown, with its key, title, detail and count, and the entries. */
  ghost predicate StandsAt(rows: seq<Visual>, at: nat, g: Group)
  {
    var first := if g.headerVisible then at + 1 else at;
    && first + |g.entries| <= |rows|
    && (g.headerVisible ==> rows[at] == Header(g.key, g.title, g.detail, |g.entries|))
    && forall e :: first <= e < first + |g.entries| ==> rows[e] == Row(g.entries[e - first])
  }

  lemma StandsLast(front: seq<Visual>, g: Group)
    ensures StandsAt(front + GroupVisuals(g), |front|, g)
  {
  }

  lemma StandsOn(rows: seq<Visual>, more: seq<Visual>, at: nat, g: Group)
    requires StandsAt(rows, at, g)
    ensures StandsAt(rows + more, at, g)
  {
  }

  /** How many rows a group takes. */
  function RowCount(g: Group): nat
  {
    |g.entries| + if g.headerVisible then 1 else 0
  }

  /** Every group stands right behind the rows of the groups before it, and takes no more than its rows. */
  lemma {:induction false} GroupStands(groups: seq<Group>, k: nat)
    requires k < |groups|
    ensures StandsAt(Visuals(groups), |Visuals(groups[..k])|, groups[k])
    ensures |Visuals(groups[..k + 1])| == |Visuals(groups[..k])| + RowCount(groups[k])
    decreases |groups|
  {
    var n := |groups| - 1;
    var init := groups[..n];
    assert init[..k] == groups[..k];
    hide StandsAt;
    if k < n {
      assert init[..k + 1] == groups[..k + 1];
      GroupStands(init, k);
      StandsOn(Visuals(init), GroupVisuals(groups[n]), |Visuals(groups[..k])|, groups[k]);
    } else {
      assert groups[..k + 1] == groups;
      StandsLast(Visuals(init), groups[n]);
    }
  }

  // ---- positions ----

  /** Every entry row is found, under the last row that shows its id. */
  ghost predicate Latest(visuals: seq<Visual>, positions: map<nat, nat>)
  {
    && (forall i :: 0 <= i < |visuals| && visuals[i].Row? ==> visuals[i].id in positions)
    && (forall id :: id in positions ==> positions[id] < |visuals| && visuals[positions[id]] == Row(id))
    && (forall id, j :: id in positions && positions[id] < j < |visuals| ==> visuals[j] != Row(id))
  }

  /** `positions` is the exact inverse of the entry rows. */
  ghost predicate Inverse(visuals: seq<Visual>, positions: map<nat, nat>)
  {
    && (forall i :: 0 <= i < |visuals| && visuals[i].Row? ==>
          visuals[i].id in positions && positions[visuals[i].id] == i)
    && (forall id :: id in positions ==> positions[id] < |visuals| && visuals[positions[id]] == Row(id))
  }

  lemma LatestOneMore(visuals: seq<Visual>, positions: map<nat, nat>, v: Visual)
    requires Latest(visuals, positions)
    ensures Latest(visuals + [v], if v.Row? then positions[v.id := |visuals|] else positions)
  {
    var more := visuals + [v];
    assert more[|visuals|] == v && forall i :: 0 <= i < |visuals| ==> more[i] == visuals[i];
  }

  lemma LatestOfNone()
    ensures Latest([], map[])
  {
  }

  // ---- no entry has two rows ----

  ghost predicate DistinctRows(visuals: seq<Visual>)
  {
    forall i, j :: 0 <= i < j < |visuals| && visuals[i].Row? ==> visuals[i] != visuals[j]
  }

  lemma LatestInverts(visuals: seq<Visual>, positions: map<nat, nat>)
    requires Latest(visuals, positions) && DistinctRows(visuals)
    ensures Inverse(visuals, positions)
  {
    forall i | 0 <= i < |visuals| && visuals[i].Row? ensures positions[visuals[i].id] == i {
      assert visuals[positions[visuals[i].id]] == visuals[i];
    }
  }

  /** The rows show exactly the ids of the groups. */
  lemma {:induction false} VisualsShow(groups: seq<Group>, id: nat)
    ensures Row(id) in Visuals(groups) <==> id in AllIds(groups)
    decreases |groups|
  {
    if groups != [] {
      var g := groups[|groups| - 1];
      VisualsShow(groups[..|groups| - 1], id);
      assert id in g.entries ==> Row(id) in RowsOf(g.entries);
    }
  }

  lemma {:induction false} VisualsDistinct(groups: seq<Group>)
    requires Distinct(AllIds(groups))
    ensures DistinctRows(Visuals(groups))
    decreases |groups|
  {
    if groups != [] {
      var init, g := groups[..|groups| - 1], groups[|groups| - 1];
      var front, tail := Visuals(init), GroupVisuals(g);
      DistinctParts(AllIds(init), g.entries);
      VisualsDistinct(init);
      forall i, j | 0 <= i < |front| && front[i].Row? && 0 <= j < |tail| ensures front[i] != tail[j] {
        VisualsShow(init, front[i].id);
      }
      assert DistinctRows(tail);
    }
  }

  /** The positions of grouped rows are their exact inverse, and are known for exactly the ids that were given. */
  lemma GroupedPositions(groups: seq<Group>, entries: seq<Entry>, headerVisible: bool, descending: bool,
        positions: map<nat, nat>)
    requires Finished(groups, entries, headerVisible, descending) && Latest(Visuals(groups), positions)
    ensures Inverse(Visuals(groups), positions)
    ensures forall id :: id in positions <==> Seen(entries, id)
  {
    hide Finished, Seen, Visuals, AllIds;
    FinishedIds(groups, entries, headerVisible, descending);
    VisualsDistinct(groups);
    LatestInverts(Visuals(groups), positions);
    forall id ensures id in positions <==> Seen(entries, id) {
      VisualsShow(groups, id);
    }
  }
}
