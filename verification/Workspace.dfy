/**
 The dependency boundaries of the workspace, checked over an arbitrary and possibly cyclic
 dependency graph (tools/check_workspace.py:14-65).
 */
module Workspace {
  import opened Prelude

  type Id = string

  // A dependency of kind `None` is a normal one; others are for building or testing.
  datatype Dependency = Dependency(pkg: Id, kinds: seq<Option<string>>)

  datatype Node = Node(id: Id, deps: seq<Dependency>)

  datatype Metadata = Metadata(names: map<Id, string>, members: seq<Id>, nodes: seq<Node>)

  type Graph = map<Id, seq<Id>>

  /** Every edge leads to a node of the graph. */
  ghost predicate Closed(g: Graph)
  {
    forall a, b :: a in g && b in g[a] ==> b in g
  }

  /** A walk along edges; a walk of one node takes no edge. */
  ghost predicate Walk(g: Graph, path: seq<Id>)
  {
    path != [] && forall i :: 0 <= i < |path| - 1 ==> path[i] in g && path[i + 1] in g[path[i]]
  }

  ghost predicate Leads(g: Graph, from: Id, to: Id, path: seq<Id>)
  {
    Walk(g, path) && |path| >= 2 && path[0] == from && path[|path| - 1] == to
  }

  /** `to` can be reached from `from` by one or more edges. */
  ghost predicate Reaches(g: Graph, from: Id, to: Id)
  {
    exists path :: Leads(g, from, to, path)
  }

  lemma EdgeReaches(g: Graph, from: Id, to: Id)
    requires from in g && to in g[from]
    ensures Reaches(g, from, to)
  {
    assert Leads(g, from, to, [from, to]);
  }

  lemma ReachesFurther(g: Graph, from: Id, mid: Id, to: Id)
    requires Reaches(g, from, mid) && mid in g && to in g[mid]
    ensures Reaches(g, from, to)
  {
    var path :| Leads(g, from, mid, path);
    assert Leads(g, from, to, path + [to]);
  }

  /** A set that holds the first steps and is closed under steps holds everything within reach. */
  lemma {:induction false} ClosedHoldsWalk(g: Graph, visited: set<Id>, path: seq<Id>)
    requires Walk(g, path) && |path| >= 2
    requires path[0] in g && (forall b :: b in g[path[0]] ==> b in visited)
    requires forall a, b :: a in visited && a in g && b in g[a] ==> b in visited
    ensures path[|path| - 1] in visited
    decreases |path|
  {
    var n := |path| - 1;
    if n >= 2 {
      ClosedHoldsWalk(g, visited, path[..n]);
      assert path[n - 1] in g && path[n] in g[path[n - 1]];
    } else {
      assert path[1] in g[path[0]];
    }
  }

  /** The inner `reachable`: a worklist that ends on cycles too. */
  method Reachable(g: Graph, from: Id) returns (visited: set<Id>)
    requires Closed(g) && from in g
    ensures forall to :: to in visited <==> Reaches(g, from, to)
  {
    visited := {};
    var pending := g[from];
    forall b | b in pending ensures Reaches(g, from, b) {
      EdgeReaches(g, from, b);
    }
    while pending != []
      invariant visited <= g.Keys && forall b :: b in pending ==> b in g
      invariant forall b :: b in visited || b in pending ==> Reaches(g, from, b)
      invariant forall b :: b in g[from] ==> b in visited || b in pending
      invariant forall a, b :: a in visited && b in g[a] ==> b in visited || b in pending
      decreases g.Keys - visited, |pending|
    {
      var dependency := pending[|pending| - 1];
      ghost var was := pending;
      pending := pending[..|pending| - 1];
      assert forall b :: b in was <==> b in pending || b == dependency;
      if dependency !in visited {
        visited := visited + {dependency};
        forall b | b in g[dependency] ensures Reaches(g, from, b) {
          ReachesFurther(g, from, dependency, b);
        }
        pending := pending + g[dependency];
      }
    }
    forall to | Reaches(g, from, to) ensures to in visited {
      var path :| Leads(g, from, to, path);
      ClosedHoldsWalk(g, visited, path);
    }
  }

  // ---- the report ----

  const MEMBERS := ["asterfiles", "asterfiles-domain", "asterfiles-platform-windows", "asterfiles-webdav",
        "asterfiles-ui"]

  const DOMAIN_FORBIDDEN := {"windows", "windows-sys", "slint"}
  const APPLICATION_FORBIDDEN := {"windows", "windows-sys", "windows-core"}
  const UI_FORBIDDEN := {"asterfiles-domain", "asterfiles-platform-windows", "asterfiles-webdav"}

  datatype Violation =
    | MissingMember(name: string)
    | DomainDepends(found: set<string>)
    | ApplicationDepends(found: set<string>)
    | UiDepends(found: set<string>)

  /** The graph of normal dependencies; the last node of an id counts. */
  function GraphOf(nodes: seq<Node>): Graph
  {
    if nodes == [] then map[]
    else GraphOf(nodes[..|nodes| - 1])[nodes[|nodes| - 1].id := Normal(nodes[|nodes| - 1].deps)]
  }

  function Normal(deps: seq<Dependency>): seq<Id>
  {
    if deps == [] then []
    else Normal(deps[..|deps| - 1]) + if None in deps[|deps| - 1].kinds then [deps[|deps| - 1].pkg] else []
  }

  lemma {:induction false} NormalMeans(deps: seq<Dependency>, to: Id)
    ensures to in Normal(deps) <==> exists d :: d in deps && d.pkg == to && None in d.kinds
    decreases |deps|
  {
    if deps != [] {
      var init, last := deps[..|deps| - 1], deps[|deps| - 1];
      NormalMeans(init, to);
      assert deps == init + [last];
    }
  }

  /** Node `i` is the last one with this id. */
  ghost predicate LastOf(nodes: seq<Node>, i: nat, id: Id)
  {
    i < |nodes| && nodes[i].id == id && forall j :: i < j < |nodes| ==> nodes[j].id != id
  }

  /** An edge of the graph is a dependency, one of whose kinds is normal, of the last node with the id. */
  lemma {:induction false} EdgesMean(nodes: seq<Node>, from: Id, to: Id)
    ensures from in GraphOf(nodes) <==> exists i: nat :: LastOf(nodes, i, from)
    ensures from in GraphOf(nodes) ==>
              (to in GraphOf(nodes)[from] <==> exists i: nat, d ::
                LastOf(nodes, i, from) && d in nodes[i].deps && d.pkg == to && None in d.kinds)
    decreases |nodes|
  {
    if nodes != [] {
      var n := |nodes| - 1;
      var init := nodes[..n];
      EdgesMean(init, from, to);
      if nodes[n].id == from {
        assert LastOf(nodes, n, from);
        NormalMeans(nodes[n].deps, to);
      } else {
        assert forall i: nat :: LastOf(init, i, from) <==> LastOf(nodes, i, from);
      }
    }
  }

  /** Members by name; the last one of a name counts. */
  function MembersOf(m: Metadata): map<string, Id>
    requires forall i :: 0 <= i < |m.members| ==> m.members[i] in m.names
  {
    MembersUpTo(m, |m.members|)
  }

  function MembersUpTo(m: Metadata, n: nat): map<string, Id>
    requires n <= |m.members| && forall i :: 0 <= i < |m.members| ==> m.members[i] in m.names
  {
    if n == 0 then map[] else MembersUpTo(m, n - 1)[m.names[m.members[n - 1]] := m.members[n - 1]]
  }

  /** The member of a name is the last one that has it. */
  lemma {:induction false} MembersMean(m: Metadata, n: nat, name: string)
    requires n <= |m.members| && forall i :: 0 <= i < |m.members| ==> m.members[i] in m.names
    ensures name in MembersUpTo(m, n) <==> exists i :: 0 <= i < n && m.names[m.members[i]] == name
    ensures name in MembersUpTo(m, n) ==>
              exists i :: 0 <= i < n && MembersUpTo(m, n)[name] == m.members[i] && m.names[m.members[i]] == name
                          && forall j :: i < j < n ==> m.names[m.members[j]] != name
    decreases n
  {
    if n > 0 {
      MembersMean(m, n - 1, name);
    }
  }

  /** What `cargo metadata` promises: ids resolve. */
  ghost predicate Resolved(m: Metadata)
  {
    && (forall i :: 0 <= i < |m.members| ==> m.members[i] in m.names && m.members[i] in GraphOf(m.nodes))
    && Closed(GraphOf(m.nodes))
    && (forall id :: id in GraphOf(m.nodes) ==> id in m.names)
  }

  lemma {:induction false} MembersAreNodes(m: Metadata, n: nat)
    requires Resolved(m) && n <= |m.members|
    ensures forall name :: name in MembersUpTo(m, n) ==> MembersUpTo(m, n)[name] in GraphOf(m.nodes)
    decreases n
  {
    if n > 0 {
      MembersAreNodes(m, n - 1);
    }
  }

  /** A package of this name is within reach of the member. */
  ghost predicate ReachesName(m: Metadata, member: Id, name: string)
    requires Resolved(m)
  {
    exists to :: to in m.names && m.names[to] == name && Reaches(GraphOf(m.nodes), member, to)
  }

  /** A package of this name is a direct dependency of the member. */
  ghost predicate UsesName(m: Metadata, member: Id, name: string)
    requires Resolved(m) && member in GraphOf(m.nodes)
  {
    exists to :: to in GraphOf(m.nodes)[member] && to in m.names && m.names[to] == name
  }

  ghost predicate Keeps(m: Metadata, member: string, forbidden: set<string>)
    requires Resolved(m)
  {
    member in MembersOf(m) ==> forall name :: name in forbidden ==> !ReachesName(m, MembersOf(m)[member], name)
  }

  ghost predicate KeepsDirectly(m: Metadata, member: string, forbidden: set<string>)
    requires Resolved(m)
  {
    MembersAreNodes(m, |m.members|);
    member in MembersOf(m) ==> forall name :: name in forbidden ==> !UsesName(m, MembersOf(m)[member], name)
  }

  /** All members are there and none crosses its boundary. */
  ghost predicate Clean(m: Metadata)
    requires Resolved(m)
  {
    && (forall i :: 0 <= i < |MEMBERS| ==> MEMBERS[i] in MembersOf(m))
    && Keeps(m, "asterfiles-domain", DOMAIN_FORBIDDEN)
    && KeepsDirectly(m, "asterfiles", APPLICATION_FORBIDDEN)
    && Keeps(m, "asterfiles-ui", UI_FORBIDDEN)
  }

  method Names(m: Metadata, ids: set<Id>) returns (names: set<string>)
    requires forall id :: id in ids ==> id in m.names
    ensures forall name :: name in names <==> exists id :: id in ids && m.names[id] == name
  {
    names := set id | id in ids :: m.names[id];
  }

  /** Forbidden names within reach of a member. */
  method ForbiddenReach(m: Metadata, member: Id, forbidden: set<string>) returns (found: set<string>)
    requires Resolved(m) && member in GraphOf(m.nodes)
    ensures forall name :: name in found <==> name in forbidden && ReachesName(m, member, name)
  {
    hide GraphOf, Reaches;
    var g := GraphOf(m.nodes);
    var visited := Reachable(g, member);
    forall id | id in visited ensures id in m.names {
      ReachedIsNode(g, member, id);
    }
    var names := Names(m, visited);
    found := names * forbidden;
    forall name ensures name in names <==> ReachesName(m, member, name) {
    }
  }

  lemma ReachedIsNode(g: Graph, from: Id, to: Id)
    requires Closed(g) && Reaches(g, from, to)
    ensures to in g
  {
    var path :| Leads(g, from, to, path);
    assert path[|path| - 2] in g && path[|path| - 1] in g[path[|path| - 2]];
  }

  method ForbiddenDirect(m: Metadata, member: Id, forbidden: set<string>) returns (found: set<string>)
    requires Resolved(m) && member in GraphOf(m.nodes)
    ensures forall name :: name in found <==> name in forbidden && UsesName(m, member, name)
  {
    hide GraphOf;
    var direct := set id | id in GraphOf(m.nodes)[member];
    var names := Names(m, direct);
    found := names * forbidden;
  }

  /** A violation names exactly what crosses the boundary. */
  ghost predicate Explains(m: Metadata, v: Violation)
    requires Resolved(m)
  {
    MembersAreNodes(m, |m.members|);
    match v
    case MissingMember(name) => name in MEMBERS && name !in MembersOf(m)
    case DomainDepends(found) =>
      && "asterfiles-domain" in MembersOf(m) && found != {}
      && forall name :: name in found
           <==> name in DOMAIN_FORBIDDEN && ReachesName(m, MembersOf(m)["asterfiles-domain"], name)
    case ApplicationDepends(found) =>
      && "asterfiles" in MembersOf(m) && found != {}
      && forall name :: name in found
           <==> name in APPLICATION_FORBIDDEN && UsesName(m, MembersOf(m)["asterfiles"], name)
    case UiDepends(found) =>
      && "asterfiles-ui" in MembersOf(m) && found != {}
      && forall name :: name in found <==> name in UI_FORBIDDEN && ReachesName(m, MembersOf(m)["asterfiles-ui"], name)
  }

  /** The first loop of `inspect`. */
  method MissingMembers(m: Metadata) returns (violations: seq<Violation>)
    requires Resolved(m)
    ensures forall v :: v in violations <==> v.MissingMember? && v.name in MEMBERS && v.name !in MembersOf(m)
    ensures violations == [] <==> forall i :: 0 <= i < |MEMBERS| ==> MEMBERS[i] in MembersOf(m)
  {
    var members := MembersOf(m);
    violations := [];
    var i := 0;
    while i < |MEMBERS|
      invariant 0 <= i <= |MEMBERS|
      invariant forall v :: v in violations <==> v.MissingMember? && v.name in MEMBERS[..i] && v.name !in members
      invariant violations == [] <==> forall j :: 0 <= j < i ==> MEMBERS[j] in members
    {
      assert MEMBERS[..i + 1] == MEMBERS[..i] + [MEMBERS[i]];
      if MEMBERS[i] !in members {
        violations := violations + [MissingMember(MEMBERS[i])];
      }
      i := i + 1;
    }
    assert MEMBERS[..i] == MEMBERS;
  }

  /** The boundary of the domain: one violation exactly if it is crossed, naming all that crosses it. */
  method DomainBoundary(m: Metadata) returns (report: seq<Violation>)
    requires Resolved(m)
    ensures forall v :: v in report <==> v.DomainDepends? && Explains(m, v)
    ensures report == [] <==> Keeps(m, "asterfiles-domain", DOMAIN_FORBIDDEN)
  {
    hide GraphOf, ReachesName, UsesName;
    MembersAreNodes(m, |m.members|);
    report := [];
    if "asterfiles-domain" in MembersOf(m) {
      var found := ForbiddenReach(m, MembersOf(m)["asterfiles-domain"], DOMAIN_FORBIDDEN);
      if found != {} {
        report := [DomainDepends(found)];
      }
      forall v: Violation | v.DomainDepends? && Explains(m, v) ensures v in report {
        assert v.found == found;
      }
    }
  }

  method ApplicationBoundary(m: Metadata) returns (report: seq<Violation>)
    requires Resolved(m)
    ensures forall v :: v in report <==> v.ApplicationDepends? && Explains(m, v)
    ensures report == [] <==> KeepsDirectly(m, "asterfiles", APPLICATION_FORBIDDEN)
  {
    hide GraphOf, ReachesName, UsesName;
    MembersAreNodes(m, |m.members|);
    report := [];
    if "asterfiles" in MembersOf(m) {
      var found := ForbiddenDirect(m, MembersOf(m)["asterfiles"], APPLICATION_FORBIDDEN);
      if found != {} {
        report := [ApplicationDepends(found)];
      }
      forall v: Violation | v.ApplicationDepends? && Explains(m, v) ensures v in report {
        assert v.found == found;
      }
    }
  }

  method UiBoundary(m: Metadata) returns (report: seq<Violation>)
    requires Resolved(m)
    ensures forall v :: v in report <==> v.UiDepends? && Explains(m, v)
    ensures report == [] <==> Keeps(m, "asterfiles-ui", UI_FORBIDDEN)
  {
    hide GraphOf, ReachesName, UsesName;
    MembersAreNodes(m, |m.members|);
    report := [];
    if "asterfiles-ui" in MembersOf(m) {
      var found := ForbiddenReach(m, MembersOf(m)["asterfiles-ui"], UI_FORBIDDEN);
      if found != {} {
        report := [UiDepends(found)];
      }
      forall v: Violation | v.UiDepends? && Explains(m, v) ensures v in report {
        assert v.found == found;
      }
    }
  }

  /**
   `inspect`: it passes exactly when the workspace is clean, and otherwise reports every missing member and
   every crossed boundary with all that crosses it, and nothing else.
   */
  method Inspect(m: Metadata) returns (passed: bool, violations: seq<Violation>)
    requires Resolved(m)
    ensures passed <==> violations == []
    ensures passed <==> Clean(m)
    ensures forall v :: v in violations <==> Explains(m, v)
    ensures (exists v :: v in violations && v.DomainDepends?) <==> !Keeps(m, "asterfiles-domain", DOMAIN_FORBIDDEN)
    ensures (exists v :: v in violations && v.ApplicationDepends?)
            <==> !KeepsDirectly(m, "asterfiles", APPLICATION_FORBIDDEN)
    ensures (exists v :: v in violations && v.UiDepends?) <==> !Keeps(m, "asterfiles-ui", UI_FORBIDDEN)
  {
    hide GraphOf, MembersOf, Resolved, Keeps, KeepsDirectly;
    var missing := MissingMembers(m);
    var domain := DomainBoundary(m);
    var application := ApplicationBoundary(m);
    var ui := UiBoundary(m);
    violations := missing + domain + application + ui;
    passed := violations == [];
    forall v ensures v in violations <==> Explains(m, v) {
      assert v in violations <==> v in missing || v in domain || v in application || v in ui;
      MissingExplained(m, v);
    }
    assert domain != [] ==> domain[0] in violations && domain[0] in domain;
    assert application != [] ==> application[0] in violations && application[0] in application;
    assert ui != [] ==> ui[0] in violations && ui[0] in ui;
  }

  lemma MissingExplained(m: Metadata, v: Violation)
    requires Resolved(m)
    ensures v.MissingMember? ==> (Explains(m, v) <==> v.name in MEMBERS && v.name !in MembersOf(m))
  {
    hide GraphOf;
  }
}
