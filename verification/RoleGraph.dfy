/** The gates on the dependency graph of an executable specification, and the
    depth-first search behind the last of them. */
module RoleGraph {
  import opened Wrappers
  import opened Sequences
  import opened Texts

  /** An edge as written; either end may be missing. */
  datatype Edge = Edge(from: Option<Text>, to: Option<Text>)

  type Graph = map<Text, seq<Text>>

  /** Present and not the empty string. */
  predicate Truthy(end: Option<Text>) {
    end.Some? && end.value != []
  }

  function Successors(g: Graph, n: Text): seq<Text> {
    if n in g then g[n] else []
  }

  ghost predicate IsWalk(g: Graph, w: seq<Text>) {
    forall i :: 0 <= i < |w| - 1 ==> w[i + 1] in Successors(g, w[i])
  }

  ghost predicate ClosedWalk(g: Graph, w: seq<Text>) {
    |w| >= 2 && w[0] == w[|w| - 1] && IsWalk(g, w)
  }

  ghost predicate Cyclic(g: Graph) {
    exists w :: ClosedWalk(g, w)
  }

  /** Every node comes after all its successors. */
  ghost predicate ReverseTopological(g: Graph, order: seq<Text>) {
    forall i, s :: 0 <= i < |order| && s in Successors(g, order[i]) ==> s in order[..i]
  }

  // ----- A reverse topological order excludes closed walks -----

  /** Where a node first appears. */
  ghost function Rank(order: seq<Text>, n: Text): (k: nat)
    requires n in order
    ensures k < |order| && order[k] == n
    ensures forall j :: 0 <= j < k ==> order[j] != n
  {
    if order[0] == n then 0 else 1 + Rank(order[1..], n)
  }

  lemma RankDrops(g: Graph, order: seq<Text>, n: Text, s: Text)
    requires ReverseTopological(g, order) && n in order && s in Successors(g, n)
    ensures s in order && Rank(order, s) < Rank(order, n)
  {
    var k := Rank(order, n);
    assert s in order[..k];
    var j :| 0 <= j < k && order[j] == s;
  }

  lemma {:induction false} WalkDescends(g: Graph, order: seq<Text>, w: seq<Text>)
    requires ReverseTopological(g, order) && IsWalk(g, w) && |w| >= 1 && w[0] in order
    ensures w[|w| - 1] in order
    ensures |w| >= 2 ==> Rank(order, w[|w| - 1]) < Rank(order, w[0])
    decreases |w|
  {
    if |w| >= 2 {
      RankDrops(g, order, w[0], w[1]);
      WalkDescends(g, order, w[1..]);
    }
  }

  /** A graph whose nodes all stand in a reverse topological order has no cycle. */
  lemma OrderedIsAcyclic(g: Graph, order: seq<Text>)
    requires ReverseTopological(g, order) && forall n :: n in g ==> n in order
    ensures !Cyclic(g)
  {
    forall w | ClosedWalk(g, w)
      ensures false
    {
      assert w[0 + 1] in Successors(g, w[0]);
      WalkDescends(g, order, w);
    }
  }

  // ----- The search -----

  ghost predicate PathOf(g: Graph, path: seq<Text>, node: Text) {
    IsWalk(g, path) && (path != [] ==> node in Successors(g, path[|path| - 1]))
  }

  /** A path that comes back to one of its nodes holds a closed walk. */
  lemma PathCloses(g: Graph, path: seq<Text>, node: Text)
    requires PathOf(g, path, node) && node in path
    ensures Cyclic(g)
  {
    var k :| 0 <= k < |path| && path[k] == node;
    var w := path[k..] + [node];
    forall i | 0 <= i < |w| - 1
      ensures w[i + 1] in Successors(g, w[i])
    {
      assert i < |w| - 2 ==> path[k + i + 1] in Successors(g, path[k + i]);
    }
    assert ClosedWalk(g, w);
  }

  ghost predicate Closed(g: Graph, universe: set<Text>) {
    forall n, s :: s in Successors(g, n) ==> s in universe
  }

  class CycleSearch {
    const outgoing: Graph
    var visiting: set<Text>
    var visited: set<Text>
    ghost var order: seq<Text>

    constructor (outgoing: Graph)
      ensures this.outgoing == outgoing && visiting == {} && Valid()
      ensures order == []
    {
      this.outgoing := outgoing;
      visiting, visited, order := {}, {}, [];
    }

    ghost predicate Valid()
      reads this
    {
      && visiting !! visited
      && (forall n :: n in visited <==> n in order)
      && ReverseTopological(outgoing, order)
    }

    /** `path` is the chain of pending calls. */
    method Visit(node: Text, ghost path: seq<Text>, ghost universe: set<Text>) returns (found: bool)
      requires Valid() && Closed(outgoing, universe) && node in universe
      requires PathOf(outgoing, path, node) && forall n :: n in visiting <==> n in path
      modifies this
      ensures found ==> Cyclic(outgoing)
      ensures !found ==> Valid() && visiting == old(visiting) && node in visited && old(visited) <= visited
      decreases universe - visiting - visited
    {
      if node in visiting {
        PathCloses(outgoing, path, node);
        return true;
      }
      if node in visited {
        return false;
      }
      visiting := visiting + {node};
      var next := Successors(outgoing, node);
      ghost var path' := path + [node];
      for i := 0 to |next|
        invariant Valid() && visiting == old(visiting) + {node} && old(visited) <= visited
        invariant forall k :: 0 <= k < i ==> next[k] in visited
      {
        assert next[i] in Successors(outgoing, node);
        ExtendPath(outgoing, path, node, next[i]);
        assert node !in universe - visiting - visited;
        var inner := Visit(next[i], path', universe);
        if inner {
          return true;
        }
      }
      ExtendOrder(outgoing, order, node);
      visiting := visiting - {node};
      visited := visited + {node};
      order := order + [node];
      found := false;
    }
  }

  lemma ExtendPath(g: Graph, path: seq<Text>, node: Text, next: Text)
    requires PathOf(g, path, node) && next in Successors(g, node)
    ensures PathOf(g, path + [node], next)
  {
  }

  lemma ExtendOrder(g: Graph, order: seq<Text>, node: Text)
    requires ReverseTopological(g, order)
    requires forall s :: s in Successors(g, node) ==> s in order
    ensures ReverseTopological(g, order + [node])
  {
    var longer := order + [node];
    assert forall i :: 0 <= i <= |order| ==> longer[..i] == order[..i];
    assert order[..|order|] == order;
  }

  // ----- The graph behind the edges -----

  /** Ends of the usable edges that leave n, in edge order. */
  function Targets(edges: seq<Edge>, n: Text): seq<Text> {
    if edges == [] then []
    else
      var rest := Targets(edges[..|edges| - 1], n);
      var e := edges[|edges| - 1];
      if Truthy(e.from) && Truthy(e.to) && e.from.value == n then rest + [e.to.value] else rest
  }

  lemma {:induction false} TargetsAreEdges(edges: seq<Edge>, n: Text, t: Text)
    ensures t in Targets(edges, n) <==> n != [] && t != [] && Edge(Some(n), Some(t)) in edges
  {
    if edges == [] {
    } else {
      TargetsAreEdges(edges[..|edges| - 1], n, t);
      assert edges == edges[..|edges| - 1] + [edges[|edges| - 1]];
    }
  }

  ghost function GraphOf(nodes: seq<Text>, edges: seq<Edge>): Graph {
    map n | n in nodes :: Targets(edges, n)
  }

  method BuildOutgoing(nodes: seq<Text>, edges: seq<Edge>) returns (outgoing: Graph)
    ensures outgoing == GraphOf(nodes, edges)
  {
    outgoing := map n | n in nodes :: [];
    assert forall n :: Targets([], n) == [];
    for i := 0 to |edges|
      invariant outgoing == GraphOf(nodes, edges[..i])
    {
      var edge := edges[i];
      assert edges[..i + 1][..i] == edges[..i];
      if Truthy(edge.from) && Truthy(edge.to) {
        var from := edge.from.value;
        if from in outgoing {
          outgoing := outgoing[from := outgoing[from] + [edge.to.value]];
        }
      }
    }
    assert edges[..|edges|] == edges;
  }

  /** Consecutive nodes are joined by usable edges that leave listed nodes. */
  ghost predicate DependencyStep(nodes: seq<Text>, edges: seq<Edge>, a: Text, b: Text) {
    a in nodes && a != [] && b != [] && Edge(Some(a), Some(b)) in edges
  }

  ghost predicate DependencyLoop(nodes: seq<Text>, edges: seq<Edge>, w: seq<Text>) {
    && |w| >= 2 && w[0] == w[|w| - 1]
    && forall i :: 0 <= i < |w| - 1 ==> DependencyStep(nodes, edges, w[i], w[i + 1])
  }

  lemma StepsAreEdges(nodes: seq<Text>, edges: seq<Edge>, a: Text, b: Text)
    ensures b in Successors(GraphOf(nodes, edges), a) <==> DependencyStep(nodes, edges, a, b)
  {
    TargetsAreEdges(edges, a, b);
  }

  lemma LoopsAreClosedWalks(nodes: seq<Text>, edges: seq<Edge>, w: seq<Text>)
    ensures ClosedWalk(GraphOf(nodes, edges), w) <==> DependencyLoop(nodes, edges, w)
  {
    forall i | 0 <= i < |w| - 1
      ensures w[i + 1] in Successors(GraphOf(nodes, edges), w[i]) <==> DependencyStep(nodes, edges, w[i], w[i + 1])
    {
      StepsAreEdges(nodes, edges, w[i], w[i + 1]);
    }
  }

  lemma CyclicIffLoop(nodes: seq<Text>, edges: seq<Edge>)
    ensures Cyclic(GraphOf(nodes, edges)) <==> exists w :: DependencyLoop(nodes, edges, w)
  {
    var g := GraphOf(nodes, edges);
    if w :| ClosedWalk(g, w) {
      LoopsAreClosedWalks(nodes, edges, w);
    }
    if w :| DependencyLoop(nodes, edges, w) {
      LoopsAreClosedWalks(nodes, edges, w);
    }
  }

  /** Every node that a call of the search can reach. */
  ghost function Universe(g: Graph): (universe: set<Text>)
    ensures Closed(g, universe) && g.Keys <= universe
  {
    g.Keys + set n, s | n in g && s in g[n] :: s
  }

  method SearchAll(outgoing: Graph, nodes: seq<Text>) returns (found: bool, ghost order: seq<Text>)
    requires outgoing.Keys == set n | n in nodes
    ensures found <==> Cyclic(outgoing)
    ensures !found ==> ReverseTopological(outgoing, order) && forall n :: n in nodes ==> n in order
  {
    var search := new CycleSearch(outgoing);
    for i := 0 to |nodes|
      invariant search.Valid() && search.visiting == {} && fresh(search)
      invariant forall k :: 0 <= k < i ==> nodes[k] in search.visited
    {
      assert nodes[i] in outgoing.Keys;
      var inner := search.Visit(nodes[i], [], Universe(outgoing));
      if inner {
        return true, [];
      }
    }
    OrderedIsAcyclic(outgoing, search.order);
    found, order := false, search.order;
  }

  /** True iff the edges hold a closed walk; when false, the finished nodes in
      finishing order put every node after all its successors. */
  method HasCycle(nodes: seq<Text>, edges: seq<Edge>) returns (found: bool, ghost order: seq<Text>)
    ensures found <==> exists w :: DependencyLoop(nodes, edges, w)
    ensures !found ==> ReverseTopological(GraphOf(nodes, edges), order)
    ensures !found ==> forall n :: n in nodes ==> n in order
  {
    var outgoing := BuildOutgoing(nodes, edges);
    found, order := SearchAll(outgoing, nodes);
    CyclicIffLoop(nodes, edges);
  }

  // ----- The gates -----

  /** v is the first value that repeats an earlier one. */
  ghost predicate FirstRepeat(values: seq<Text>, v: Text) {
    exists j :: 0 <= j < |values| && values[j] == v && v in values[..j] && Distinct(values[..j])
  }

  lemma FirstRepeatUnique(values: seq<Text>, v: Text, v': Text)
    requires FirstRepeat(values, v) && FirstRepeat(values, v')
    ensures v == v'
  {
    var j :| 0 <= j < |values| && values[j] == v && v in values[..j] && Distinct(values[..j]);
    var k :| 0 <= k < |values| && values[k] == v' && v' in values[..k] && Distinct(values[..k]);
    RepeatsNotBefore(values, j, k);
    RepeatsNotBefore(values, k, j);
  }

  lemma RepeatsNotBefore(values: seq<Text>, j: nat, k: nat)
    requires j < |values| && values[j] in values[..j] && k < |values| && Distinct(values[..k])
    ensures k <= j
  {
  }

  method FirstDuplicate(values: seq<Text>) returns (r: Option<Text>)
    ensures r.None? <==> Distinct(values)
    ensures r.Some? ==> FirstRepeat(values, r.value)
  {
    var seen := {};
    for j := 0 to |values|
      invariant forall v :: v in seen <==> v in values[..j]
      invariant Distinct(values[..j])
    {
      if values[j] in seen {
        return Some(values[j]);
      }
      seen := seen + {values[j]};
      assert values[..j + 1] == values[..j] + [values[j]];
    }
    assert values[..|values|] == values;
    r := None;
  }

  lemma NothingRepeats()
    ensures forall v :: !FirstRepeat([], v)
  {
  }

  /** A usable id is the first to repeat iff the search found a usable one. */
  lemma UsableRepeat(values: seq<Text>, found: Option<Text>)
    requires found.None? <==> Distinct(values)
    requires found.Some? ==> FirstRepeat(values, found.value)
    ensures (exists v :: v != [] && FirstRepeat(values, v)) <==> found.Some? && found.value != []
  {
    if found.Some? {
      forall v | FirstRepeat(values, v)
        ensures v == found.value
      {
        FirstRepeatUnique(values, v, found.value);
      }
    }
  }

  predicate Dangling(nodes: seq<Text>, e: Edge) {
    !Truthy(e.from) || !Truthy(e.to) || e.from.value !in nodes || e.to.value !in nodes
  }

  /** e is the first edge that does not join two listed nodes. */
  ghost predicate FirstDangling(nodes: seq<Text>, edges: seq<Edge>, e: Edge) {
    exists i :: 0 <= i < |edges| && edges[i] == e && Dangling(nodes, e)
      && forall k :: 0 <= k < i ==> !Dangling(nodes, edges[k])
  }

  datatype RoleNode = RoleNode(roleId: Text, nodeRef: Text, dependsOn: seq<Text>, parallelizable: bool)
  datatype RoleEdge = RoleEdge(from: Text, to: Text)

  datatype Verdict =
    | NoNodes
    | DuplicateNode(id: Text)
    | DanglingEdge(edge: Edge)
    | RoleGraphCycle
    | Accepted(nodes: seq<RoleNode>, edges: seq<RoleEdge>)

  /** Roles of the nodes that node `id` depends on, in edge order. */
  function DependsOn(edges: seq<Edge>, id: Text, roleIdFor: Text -> Text): seq<Text> {
    if edges == [] then []
    else
      (if edges[0].to == Some(id) && edges[0].from.Some? then [roleIdFor(edges[0].from.value)] else [])
      + DependsOn(edges[1..], id, roleIdFor)
  }

  function ProjectNode(edges: seq<Edge>, id: Text, roleIdFor: Text -> Text): RoleNode {
    RoleNode(roleIdFor(id), id, DependsOn(edges, id, roleIdFor),
             forall e | e in edges :: e.to != Some(id) && e.from != Some(id))
  }

  /** There are nodes, no id but the empty one is the first to repeat, every edge
      joins two listed nodes, and no edges close a loop. */
  ghost predicate PassesGates(nodes: seq<Text>, edges: seq<Edge>) {
    && nodes != [] && (forall id :: id != [] ==> !FirstRepeat(nodes, id))
    && (forall e :: e in edges ==> !Dangling(nodes, e)) && !exists w :: DependencyLoop(nodes, edges, w)
  }

  ghost predicate AtMostOnce(values: seq<Text>, v: Text) {
    forall i, j :: 0 <= i < j < |values| && values[i] == v ==> values[j] != v
  }

  lemma {:induction false} SomeRepeatsFirst(values: seq<Text>) returns (v: Text)
    requires !Distinct(values)
    ensures FirstRepeat(values, v) && !AtMostOnce(values, v)
  {
    var n := |values| - 1;
    if Distinct(values[..n]) {
      v := values[n];
      DistinctSnoc(values[..n], v);
      assert values == values[..n] + [v];
      var i :| 0 <= i < n && values[..n][i] == v;
      assert values[i] == v;
    } else {
      v := SomeRepeatsFirst(values[..n]);
      var j :| 0 <= j < n && values[..n][j] == v && v in values[..n][..j] && Distinct(values[..n][..j]);
      assert values[..n][..j] == values[..j];
    }
  }

  /** The ids that pass the gates are distinct iff the empty id occurs at most
      once. */
  lemma PassingDistinctIff(nodes: seq<Text>, edges: seq<Edge>)
    requires PassesGates(nodes, edges)
    ensures Distinct(nodes) <==> AtMostOnce(nodes, [])
  {
    if !Distinct(nodes) {
      var v := SomeRepeatsFirst(nodes);
    }
  }

  /** Without edges the gates only look at the first repeat. */
  lemma PassesWithoutEdges(nodes: seq<Text>)
    requires nodes != []
    ensures PassesGates(nodes, []) <==> forall id :: id != [] ==> !FirstRepeat(nodes, id)
  {
    forall w
      ensures !DependencyLoop(nodes, [], w)
    {
      if |w| >= 2 {
        assert !DependencyStep(nodes, [], w[0], w[0 + 1]);
      }
    }
  }

  /** The empty id may repeat, and then hides that `a` repeats after it. */
  lemma EmptyIdHidesRepeats()
    ensures PassesGates([[], [], [97], [97]], []) && !AtMostOnce([[], [], [97], [97]], [97])
  {
    var nodes: seq<Text> := [[], [], [97], [97]];
    assert nodes[2] == nodes[3] == [97];
    assert nodes[1] == [] && nodes[..1] == [[]] && [] in nodes[..1];
    assert FirstRepeat(nodes, []);
    forall id: Text | FirstRepeat(nodes, id)
      ensures id == []
    {
      FirstRepeatUnique(nodes, id, []);
    }
    PassesWithoutEdges(nodes);
  }

  /** The accepted role graph is the node graph with every id renamed. */
  ghost predicate Projects(v: Verdict, nodeIds: seq<Text>, edges: seq<Edge>, roleIdFor: Text -> Text)
    requires v.Accepted?
  {
    && |v.nodes| == |nodeIds| && |v.edges| == |edges|
    && (forall i :: 0 <= i < |nodeIds| ==> v.nodes[i] == ProjectNode(edges, nodeIds[i], roleIdFor))
    && (forall i :: 0 <= i < |edges| ==>
          && edges[i].from.Some? && edges[i].to.Some?
          && v.edges[i] == RoleEdge(roleIdFor(edges[i].from.value), roleIdFor(edges[i].to.value)))
  }

  method TuneRoleGraph(nodeIds: seq<Text>, edges: seq<Edge>, roleIdFor: Text -> Text) returns (v: Verdict)
    ensures v.NoNodes? <==> nodeIds == []
    ensures v.DuplicateNode? <==> exists id :: id != [] && FirstRepeat(nodeIds, id)
    ensures v.DuplicateNode? ==> v.id != [] && FirstRepeat(nodeIds, v.id)
    ensures v.DanglingEdge? ==> FirstDangling(nodeIds, edges, v.edge)
    ensures v.RoleGraphCycle? || v.Accepted? ==> forall e :: e in edges ==> !Dangling(nodeIds, e)
    ensures v.RoleGraphCycle? ==> exists w :: DependencyLoop(nodeIds, edges, w)
    ensures v.Accepted? ==> !exists w :: DependencyLoop(nodeIds, edges, w)
    ensures v.Accepted? <==> PassesGates(nodeIds, edges)
    ensures v.Accepted? ==> Projects(v, nodeIds, edges, roleIdFor)
  {
    hide Distinct, FirstRepeat, ProjectNode, DependencyLoop, ReverseTopological, GraphOf;
    if nodeIds == [] {
      NothingRepeats();
      return NoNodes;
    }
    var duplicate := FirstDuplicate(nodeIds);
    UsableRepeat(nodeIds, duplicate);
    if duplicate.Some? && duplicate.value != [] {
      return DuplicateNode(duplicate.value);
    }
    for i := 0 to |edges|
      invariant forall k :: 0 <= k < i ==> !Dangling(nodeIds, edges[k])
    {
      if Dangling(nodeIds, edges[i]) {
        return DanglingEdge(edges[i]);
      }
    }
    var cyclic, _ := HasCycle(nodeIds, edges);
    if cyclic {
      return RoleGraphCycle;
    }
    var roles := seq(|nodeIds|, i requires 0 <= i < |nodeIds| => ProjectNode(edges, nodeIds[i], roleIdFor));
    var roleEdges := seq(|edges|, i requires 0 <= i < |edges| && edges[i].from.Some? && edges[i].to.Some? =>
      RoleEdge(roleIdFor(edges[i].from.value), roleIdFor(edges[i].to.value)));
    v := Accepted(roles, roleEdges);
  }

  // ----- What the accepted role graph says -----

  /** The edge ends in the node. */
  predicate Enters(e: Edge, id: Text) {
    e.to == Some(id)
  }

  function EdgesInto(edges: seq<Edge>, id: Text): set<int> {
    set k | 0 <= k < |edges| && Enters(edges[k], id)
  }

  lemma EdgesIntoSnoc(edges: seq<Edge>, e: Edge, id: Text)
    ensures |EdgesInto(edges + [e], id)| == |EdgesInto(edges, id)| + (if Enters(e, id) then 1 else 0)
  {
    var before := EdgesInto(edges, id);
    if Enters(e, id) {
      assert EdgesInto(edges + [e], id) == before + {|edges|};
    } else {
      assert EdgesInto(edges + [e], id) == before;
    }
  }

  /** The role that an edge makes node `id` depend on, if it does. */
  function RoleBy(e: Edge, id: Text, roleIdFor: Text -> Text): seq<Text> {
    if Enters(e, id) && e.from.Some? then [roleIdFor(e.from.value)] else []
  }

  lemma DependsOnCons(e: Edge, more: seq<Edge>, id: Text, roleIdFor: Text -> Text)
    ensures DependsOn([e] + more, id, roleIdFor) == RoleBy(e, id, roleIdFor) + DependsOn(more, id, roleIdFor)
  {
    assert ([e] + more)[1..] == more;
  }

  lemma {:induction false} DependsOnSnoc(edges: seq<Edge>, e: Edge, id: Text, roleIdFor: Text -> Text)
    ensures DependsOn(edges + [e], id, roleIdFor) == DependsOn(edges, id, roleIdFor) + RoleBy(e, id, roleIdFor)
  {
    hide RoleBy;
    if edges == [] {
      DependsOnCons(e, [], id, roleIdFor);
      assert edges + [e] == [e] + [];
    } else {
      hide DependsOn;
      var first, rest := edges[0], edges[1..];
      assert edges == [first] + rest && edges + [e] == [first] + (rest + [e]);
      DependsOnCons(first, rest, id, roleIdFor);
      DependsOnCons(first, rest + [e], id, roleIdFor);
      DependsOnSnoc(rest, e, id, roleIdFor);
    }
  }

  /** Some edge ends in the node and starts at a node of role r. */
  ghost predicate DependsBy(edges: seq<Edge>, id: Text, roleIdFor: Text -> Text, r: Text) {
    exists k :: 0 <= k < |edges| && Enters(edges[k], id) && edges[k].from.Some? && r == roleIdFor(edges[k].from.value)
  }

  lemma {:induction false} DependsOnMeans(edges: seq<Edge>, id: Text, roleIdFor: Text -> Text)
    requires forall k :: 0 <= k < |edges| ==> edges[k].from.Some?
    ensures forall r :: r in DependsOn(edges, id, roleIdFor) <==> DependsBy(edges, id, roleIdFor, r)
    ensures |DependsOn(edges, id, roleIdFor)| == |EdgesInto(edges, id)|
  {
    if edges == [] {
    } else {
      var init, e := edges[..|edges| - 1], edges[|edges| - 1];
      assert edges == init + [e];
      DependsOnMeans(init, id, roleIdFor);
      DependsOnSnoc(init, e, id, roleIdFor);
      EdgesIntoSnoc(init, e, id);
      forall r
        ensures DependsBy(edges, id, roleIdFor, r) <==>
          (Enters(e, id) && r == roleIdFor(e.from.value)) || DependsBy(init, id, roleIdFor, r)
      {
        DependsBySnoc(init, e, id, roleIdFor, r);
      }
    }
  }

  lemma DependsBySnoc(edges: seq<Edge>, e: Edge, id: Text, roleIdFor: Text -> Text, r: Text)
    requires e.from.Some?
    ensures DependsBy(edges + [e], id, roleIdFor, r) <==>
      (Enters(e, id) && r == roleIdFor(e.from.value)) || DependsBy(edges, id, roleIdFor, r)
  {
    var all := edges + [e];
    assert all[|edges|] == e;
    if k :| 0 <= k < |edges| && Enters(edges[k], id) && edges[k].from.Some? && r == roleIdFor(edges[k].from.value) {
      assert all[k] == edges[k];
    }
  }

  /** The two halves of an accepted role graph: node i has the role of its id; it
      depends on r iff some edge ends in it and starts at a node of role r, once for
      each edge into it; it is parallelizable iff no edge touches it; and the role
      edges into it from r are the edges it depends on r by. */
  lemma RoleNodeMeans(v: Verdict, nodeIds: seq<Text>, edges: seq<Edge>, roleIdFor: Text -> Text, i: nat, r: Text)
    requires v.Accepted? && Projects(v, nodeIds, edges, roleIdFor) && i < |nodeIds|
    ensures var n := v.nodes[i];
      && n.nodeRef == nodeIds[i] && n.roleId == roleIdFor(nodeIds[i])
      && (r in n.dependsOn <==> DependsBy(edges, nodeIds[i], roleIdFor, r))
      && |n.dependsOn| == |EdgesInto(edges, nodeIds[i])|
      && (n.parallelizable <==>
            !exists k :: 0 <= k < |edges| && (edges[k].from == Some(nodeIds[i]) || edges[k].to == Some(nodeIds[i])))
      && (r in n.dependsOn <==>
            exists k :: 0 <= k < |edges| && Enters(edges[k], nodeIds[i]) && v.edges[k] == RoleEdge(r, n.roleId))
  {
    DependsOnMeans(edges, nodeIds[i], roleIdFor);
    assert v.nodes[i] == ProjectNode(edges, nodeIds[i], roleIdFor);
    forall k | 0 <= k < |edges| && Enters(edges[k], nodeIds[i])
      ensures v.edges[k] == RoleEdge(r, v.nodes[i].roleId) <==> r == roleIdFor(edges[k].from.value)
    {
    }
    if r in v.nodes[i].dependsOn {
      var k :| 0 <= k < |edges| && Enters(edges[k], nodeIds[i]) && edges[k].from.Some?
        && r == roleIdFor(edges[k].from.value);
      assert v.edges[k] == RoleEdge(r, v.nodes[i].roleId);
    }
    assert forall e :: e in edges <==> exists k :: 0 <= k < |edges| && edges[k] == e;
  }

  ghost predicate Joins(nodes: seq<Text>, e: Edge) {
    exists i, j ::
      && 0 <= i < |nodes| && 0 <= j < |nodes| && nodes[i] != [] && nodes[j] != []
      && e == Edge(Some(nodes[i]), Some(nodes[j]))
  }

  /** An edge dangles iff it does not join two listed nodes whose ids are not
      empty. */
  lemma DanglingIff(nodes: seq<Text>, e: Edge)
    ensures Dangling(nodes, e) <==> !Joins(nodes, e)
  {
    if !Dangling(nodes, e) {
      AcceptedEdge(nodes, e);
    }
  }

  lemma AcceptedEdge(nodes: seq<Text>, e: Edge)
    requires !Dangling(nodes, e)
    ensures Joins(nodes, e)
  {
    var i :| 0 <= i < |nodes| && nodes[i] == e.from.value;
    var j :| 0 <= j < |nodes| && nodes[j] == e.to.value;
  }
}
