/** What the cycle gate on node ids says about the renamed role graph. */
module RoleProjection {
  import opened Wrappers
  import opened Texts
  import opened RoleGraph

  /** Every edge joins two listed nodes. */
  ghost predicate NoDangling(nodes: seq<Text>, edges: seq<Edge>) {
    forall e :: e in edges ==> !Dangling(nodes, e)
  }

  ghost predicate RoleStep(edges: seq<Edge>, f: Text -> Text, r: Text, s: Text) {
    exists e :: e in edges && Truthy(e.from) && Truthy(e.to) && f(e.from.value) == r && f(e.to.value) == s
  }

  ghost predicate RoleWalk(edges: seq<Edge>, f: Text -> Text, w: seq<Text>) {
    forall i :: 0 <= i < |w| - 1 ==> RoleStep(edges, f, w[i], w[i + 1])
  }

  ghost predicate RoleLoop(edges: seq<Edge>, f: Text -> Text, w: seq<Text>) {
    |w| >= 2 && w[0] == w[|w| - 1] && RoleWalk(edges, f, w)
  }

  /** Two different usable node ids never get the same role id. */
  ghost predicate InjectiveOn(f: Text -> Text, nodes: seq<Text>) {
    forall a, b :: a in nodes && b in nodes && a != [] && b != [] && f(a) == f(b) ==> a == b
  }

  ghost predicate NodeWalk(nodes: seq<Text>, edges: seq<Edge>, v: seq<Text>) {
    forall i :: 0 <= i < |v| - 1 ==> DependencyStep(nodes, edges, v[i], v[i + 1])
  }

  /** A walk of nodes whose roles are the walk w. */
  ghost predicate Lifts(nodes: seq<Text>, edges: seq<Edge>, f: Text -> Text, w: seq<Text>, v: seq<Text>) {
    && |v| == |w| && NodeWalk(nodes, edges, v)
    && forall i :: 0 <= i < |w| ==> v[i] in nodes && v[i] != [] && f(v[i]) == w[i]
  }

  lemma PrependStep(nodes: seq<Text>, edges: seq<Edge>, f: Text -> Text, w: seq<Text>, a: Text, v: seq<Text>)
    requires |w| >= 2 && Lifts(nodes, edges, f, w[1..], v)
    requires DependencyStep(nodes, edges, a, v[0]) && f(a) == w[0]
    ensures Lifts(nodes, edges, f, w, [a] + v)
  {
    var longer := [a] + v;
    forall i | 0 <= i < |longer| - 1
      ensures DependencyStep(nodes, edges, longer[i], longer[i + 1])
    {
      assert i > 0 ==> DependencyStep(nodes, edges, v[i - 1], v[i - 1 + 1]);
    }
    forall i | 0 <= i < |w|
      ensures longer[i] in nodes && longer[i] != [] && f(longer[i]) == w[i]
    {
      assert i > 0 ==> w[i] == w[1..][i - 1];
    }
  }

  lemma {:induction false} LiftWalk(nodes: seq<Text>, edges: seq<Edge>, f: Text -> Text, w: seq<Text>)
    returns (v: seq<Text>)
    requires NoDangling(nodes, edges) && InjectiveOn(f, nodes)
    requires |w| >= 2 && RoleWalk(edges, f, w)
    ensures Lifts(nodes, edges, f, w, v)
    decreases |w|
  {
    assert RoleStep(edges, f, w[0], w[0 + 1]);
    var e :| e in edges && Truthy(e.from) && Truthy(e.to) && f(e.from.value) == w[0] && f(e.to.value) == w[1];
    var a, b := e.from.value, e.to.value;
    assert !Dangling(nodes, e) && e == Edge(Some(a), Some(b));
    if |w| == 2 {
      v := [a, b];
    } else {
      var rest := LiftWalk(nodes, edges, f, w[1..]);
      assert rest[0] == b;
      PrependStep(nodes, edges, f, w, a, rest);
      v := [a] + rest;
    }
  }

  /** With an injective renaming the role graph has no new cycle. */
  lemma RoleLoopLifts(nodes: seq<Text>, edges: seq<Edge>, f: Text -> Text, w: seq<Text>)
    requires NoDangling(nodes, edges) && InjectiveOn(f, nodes) && RoleLoop(edges, f, w)
    ensures exists v :: DependencyLoop(nodes, edges, v)
  {
    var v := LiftWalk(nodes, edges, f, w);
    assert f(v[0]) == w[0] && f(v[|v| - 1]) == w[|w| - 1];
    assert DependencyLoop(nodes, edges, v);
  }

  ghost predicate GatePasses(nodes: seq<Text>, edges: seq<Edge>) {
    NoDangling(nodes, edges) && !exists v :: DependencyLoop(nodes, edges, v)
  }

  ghost predicate RolesAcyclic(edges: seq<Edge>, f: Text -> Text) {
    !exists w :: RoleLoop(edges, f, w)
  }

  lemma SingleEdgeWalk(nodes: seq<Text>, a: Text, b: Text, v: seq<Text>)
    requires |v| >= 2 && NodeWalk(nodes, [Edge(Some(a), Some(b))], v)
    ensures v[0] == a && v[|v| - 1] == b
  {
    assert DependencyStep(nodes, [Edge(Some(a), Some(b))], v[0], v[0 + 1]);
    assert DependencyStep(nodes, [Edge(Some(a), Some(b))], v[|v| - 2], v[|v| - 2 + 1]);
  }

  /** Two ids that share a role turn an accepted edge into a cycle of roles. */
  lemma CollidingRoles(nodes: seq<Text>, f: Text -> Text, a: Text, b: Text)
    requires a in nodes && b in nodes && a != [] && b != [] && a != b && f(a) == f(b)
    ensures GatePasses(nodes, [Edge(Some(a), Some(b))])
    ensures !RolesAcyclic([Edge(Some(a), Some(b))], f)
  {
    var e := Edge(Some(a), Some(b));
    var edges := [e];
    forall v
      ensures !DependencyLoop(nodes, edges, v)
    {
      if |v| >= 2 && NodeWalk(nodes, edges, v) {
        SingleEdgeWalk(nodes, a, b, v);
      }
    }
    assert e in edges && Truthy(e.from) && Truthy(e.to);
    assert RoleStep(edges, f, f(a), f(a));
    assert RoleLoop(edges, f, [f(a), f(a)]);
  }

  /** The gate on node ids keeps every role graph acyclic iff no two node ids
      share a role id. */
  lemma GateGuardsRolesIff(nodes: seq<Text>, f: Text -> Text)
    ensures InjectiveOn(f, nodes) <==> forall edges :: GatePasses(nodes, edges) ==> RolesAcyclic(edges, f)
  {
    if InjectiveOn(f, nodes) {
      forall edges | GatePasses(nodes, edges)
        ensures RolesAcyclic(edges, f)
      {
        if w :| RoleLoop(edges, f, w) {
          RoleLoopLifts(nodes, edges, f, w);
        }
      }
    } else {
      var a, b :| a in nodes && b in nodes && a != [] && b != [] && f(a) == f(b) && a != b;
      CollidingRoles(nodes, f, a, b);
    }
  }
}
