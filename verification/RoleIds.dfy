/** The program's own renaming of node ids to role ids. */
module RoleIds {
  import opened Wrappers
  import opened Texts
  import opened RoleGraph
  import opened RoleProjection

  const DASH: CodeUnit := 45
  const KELVIN: CodeUnit := 0x212A
  const DOTTED_I: CodeUnit := 0x0130

  /** A lower-case letter or a digit. */
  predicate IsWord(u: CodeUnit) {
    97 <= u <= 122 || 48 <= u <= 57
  }

  /** Lower case, as far as it makes letters out of other code units: the Latin
      capitals, the Kelvin sign, and the dotted capital I, which becomes an i
      and a combining dot. Other code units stay outside a-z and 0-9. */
  function LowerUnit(u: CodeUnit): Text {
    if 65 <= u <= 90 then [u + 32]
    else if u == KELVIN then [107]
    else if u == DOTTED_I then [105, 0x0307]
    else [u]
  }

  function LowerCase(t: Text): Text {
    if t == [] then [] else LowerUnit(t[0]) + LowerCase(t[1..])
  }

  /** `replace(/[^a-z0-9]+/g, "-")`: each run becomes one dash; `inRun` says that
      the dash of the current run has been written. */
  function DashRuns(t: Text, inRun: bool): Text {
    if t == [] then []
    else if IsWord(t[0]) then [t[0]] + DashRuns(t[1..], false)
    else (if inRun then [] else [DASH]) + DashRuns(t[1..], true)
  }

  function TrimFront(t: Text): Text {
    if t != [] && t[0] == DASH then TrimFront(t[1..]) else t
  }

  function TrimBack(t: Text): Text {
    if t != [] && t[|t| - 1] == DASH then TrimBack(t[..|t| - 1]) else t
  }

  const ROLE: Text := Ascii("role-")
  const NODE: Text := Ascii("node")

  function Slug(nodeId: Text): Text {
    TrimBack(TrimFront(DashRuns(LowerCase(nodeId), false)))
  }

  function RoleIdFor(nodeId: Text): Text {
    ROLE + (if Slug(nodeId) == [] then NODE else Slug(nodeId))
  }

  // ----- Ids that collide -----

  ghost predicate AllWord(t: Text) {
    forall i :: 0 <= i < |t| ==> IsWord(t[i])
  }

  ghost predicate NoWord(t: Text) {
    forall i :: 0 <= i < |t| ==> !IsWord(t[i])
  }

  lemma {:induction false} LowerJoin(a: Text, b: Text)
    ensures LowerCase(a + b) == LowerCase(a) + LowerCase(b)
  {
    if a == [] {
      assert a + b == b;
    } else {
      hide LowerUnit;
      LowerJoin(a[1..], b);
      assert (a + b)[1..] == a[1..] + b;
      Associate(LowerUnit(a[0]), LowerCase(a[1..]), LowerCase(b));
    }
  }

  lemma {:induction false} LowerKeepsWords(t: Text)
    requires AllWord(t)
    ensures LowerCase(t) == t
  {
    if t == [] {
    } else {
      LowerKeepsWords(t[1..]);
      assert LowerUnit(t[0]) == [t[0]];
    }
  }

  lemma {:induction false} DashWords(w: Text, rest: Text, inRun: bool)
    requires AllWord(w) && w != []
    ensures DashRuns(w + rest, inRun) == w + DashRuns(rest, false)
    decreases |w|
  {
    var t := w + rest;
    assert t[1..] == w[1..] + rest;
    if |w| == 1 {
      assert t[1..] == rest;
    } else {
      DashWords(w[1..], rest, false);
    }
  }

  lemma {:induction false} DashGap(gap: Text, rest: Text, inRun: bool)
    requires NoWord(gap) && gap != []
    ensures DashRuns(gap + rest, inRun) == (if inRun then [] else [DASH]) + DashRuns(rest, true)
    decreases |gap|
  {
    var t := gap + rest;
    assert t[1..] == gap[1..] + rest;
    if |gap| == 1 {
      assert t[1..] == rest;
    } else {
      DashGap(gap[1..], rest, true);
    }
  }

  lemma TrimNothing(t: Text)
    requires t != [] && t[0] != DASH && t[|t| - 1] != DASH
    ensures TrimBack(TrimFront(t)) == t
  {
  }

  /** Two words with anything between them that is no word. */
  lemma TwoWords(u: Text, gap: Text, v: Text)
    requires AllWord(u) && AllWord(v) && u != [] && v != [] && gap != [] && NoWord(LowerCase(gap))
    ensures Slug(u + gap + v) == u + [DASH] + v
  {
    hide LowerCase, DashRuns, TrimFront, TrimBack;
    var low := LowerCase(gap);
    LowerNonempty(gap);
    calc {
      LowerCase(u + gap + v);
      { LowerJoin(u + gap, v); LowerJoin(u, gap); }
      LowerCase(u) + low + LowerCase(v);
      { LowerKeepsWords(u); LowerKeepsWords(v); }
      u + low + v;
      { Associate(u, low, v); }
      u + (low + v);
    }
    DashWords(u, low + v, false);
    DashGap(low, v, false);
    LastWords(v);
    Associate(u, [DASH], v);
    TrimNothing(u + [DASH] + v);
  }

  lemma LowerNonempty(t: Text)
    requires t != []
    ensures LowerCase(t) != []
  {
  }

  lemma LastWords(v: Text)
    requires AllWord(v) && v != []
    ensures DashRuns(v, true) == v
  {
    DashWords(v, [], true);
    assert v + [] == v && v + DashRuns([], false) == v;
  }

  /** Ids that differ only in what separates two words share a role id. */
  lemma GapsCollide(u: Text, gap: Text, gap': Text, v: Text)
    requires AllWord(u) && AllWord(v) && u != [] && v != []
    requires gap != [] && NoWord(LowerCase(gap)) && gap' != [] && NoWord(LowerCase(gap'))
    ensures RoleIdFor(u + gap + v) == RoleIdFor(u + gap' + v)
  {
    TwoWords(u, gap, v);
    TwoWords(u, gap', v);
  }

  /** "x.y" and "x-y" are such ids: an edge between them passes the gates, and
      its role graph is a cycle. */
  lemma DotAndDashCollide()
    ensures var (a, b) := (Ascii("x.y"), Ascii("x-y"));
      && a != b && RoleIdFor(a) == RoleIdFor(b)
      && GatePasses([a, b], [Edge(Some(a), Some(b))])
      && !RolesAcyclic([Edge(Some(a), Some(b))], RoleIdFor)
      && !InjectiveOn(RoleIdFor, [a, b])
  {
    var a, b := Ascii("x.y"), Ascii("x-y");
    assert a == [120] + [46] + [121] && b == [120] + [45] + [121];
    assert LowerCase([46]) == [46] && LowerCase([45]) == [45];
    GapsCollide([120], [46], [45], [121]);
    assert a[1] != b[1];
    CollidingRoles([a, b], RoleIdFor, a, b);
  }

  // ----- Ids that do not -----

  /** Lower-case words and digits with single dashes between them. */
  ghost predicate IsSlug(t: Text) {
    && t != [] && t[0] != DASH && t[|t| - 1] != DASH
    && (forall i :: 0 <= i < |t| ==> IsWord(t[i]) || t[i] == DASH)
    && (forall i :: 0 <= i < |t| - 1 ==> !(t[i] == DASH && t[i + 1] == DASH))
  }

  ghost predicate Dashed(t: Text) {
    && (forall i :: 0 <= i < |t| ==> IsWord(t[i]) || t[i] == DASH)
    && (forall i :: 0 <= i < |t| - 1 ==> !(t[i] == DASH && t[i + 1] == DASH))
  }

  lemma {:induction false} DashedStays(t: Text, inRun: bool)
    requires Dashed(t) && (inRun && t != [] ==> t[0] != DASH)
    ensures LowerCase(t) == t && DashRuns(t, inRun) == t
  {
    if t == [] {
    } else {
      DashedStays(t[1..], !IsWord(t[0]));
      assert LowerUnit(t[0]) == [t[0]];
    }
  }

  /** On such ids the renaming is a prefix, so the cycle gate is exact. */
  lemma SlugsAreSafe(nodes: seq<Text>)
    requires forall id :: id in nodes ==> IsSlug(id)
    ensures forall id :: id in nodes ==> RoleIdFor(id) == ROLE + id
    ensures InjectiveOn(RoleIdFor, nodes)
    ensures forall edges :: GatePasses(nodes, edges) ==> RolesAcyclic(edges, RoleIdFor)
  {
    forall id | id in nodes
      ensures RoleIdFor(id) == ROLE + id && RoleIdFor(id)[|ROLE|..] == id
    {
      DashedStays(id, false);
      TrimNothing(id);
    }
    GateGuardsRolesIff(nodes, RoleIdFor);
  }

  /** The gate on node ids protects the program's role graph iff no two usable
      node ids have one role id. */
  lemma GateGuardsOwnRolesIff(nodes: seq<Text>)
    ensures InjectiveOn(RoleIdFor, nodes)
       <==> forall edges :: GatePasses(nodes, edges) ==> RolesAcyclic(edges, RoleIdFor)
  {
    GateGuardsRolesIff(nodes, RoleIdFor);
  }

  // ----- What every role id looks like -----

  /** The words of a text without what separates them. */
  function Words(t: Text): Text {
    if t == [] then [] else (if IsWord(t[0]) then [t[0]] else []) + Words(t[1..])
  }

  lemma {:induction false} WordsSnoc(t: Text, u: CodeUnit)
    ensures Words(t + [u]) == Words(t) + (if IsWord(u) then [u] else [])
  {
    var all := t + [u];
    if t == [] {
      assert all == [u] && all[1..] == [];
    } else {
      var rest := t[1..];
      assert all[0] == t[0] && all[1..] == rest + [u];
      WordsSnoc(rest, u);
      hide IsWord;
      Associate(if IsWord(t[0]) then [t[0]] else [], Words(rest), if IsWord(u) then [u] else []);
    }
  }

  lemma {:induction false} RunsKeepWords(t: Text, inRun: bool)
    ensures Words(DashRuns(t, inRun)) == Words(t)
  {
    if t == [] {
    } else {
      RunsKeepWords(t[1..], !IsWord(t[0]));
      var rest := DashRuns(t[1..], !IsWord(t[0]));
      assert ([t[0]] + rest)[1..] == rest && ([DASH] + rest)[1..] == rest;
      assert [] + rest == rest;
    }
  }

  lemma {:induction false} FrontKeepsWords(t: Text)
    ensures Words(TrimFront(t)) == Words(t)
  {
    if t != [] && t[0] == DASH {
      FrontKeepsWords(t[1..]);
    }
  }

  lemma {:induction false} BackKeepsWords(t: Text)
    ensures Words(TrimBack(t)) == Words(t)
  {
    if t != [] && t[|t| - 1] == DASH {
      var init := t[..|t| - 1];
      BackKeepsWords(init);
      WordsSnoc(init, DASH);
      assert t == init + [DASH];
    }
  }

  lemma {:induction false} RunsAreDashed(t: Text, inRun: bool)
    ensures Dashed(DashRuns(t, inRun))
    ensures inRun && DashRuns(t, inRun) != [] ==> DashRuns(t, inRun)[0] != DASH
  {
    if t == [] {
    } else {
      RunsAreDashed(t[1..], !IsWord(t[0]));
    }
  }

  lemma {:induction false} FrontIsDashed(t: Text)
    requires Dashed(t)
    ensures Dashed(TrimFront(t)) && (TrimFront(t) != [] ==> TrimFront(t)[0] != DASH)
  {
    if t != [] && t[0] == DASH {
      assert forall i :: 0 <= i < |t| - 1 ==> t[1..][i] == t[i + 1];
      FrontIsDashed(t[1..]);
    }
  }

  lemma {:induction false} BackIsDashed(t: Text)
    requires Dashed(t) && (t != [] ==> t[0] != DASH)
    ensures TrimBack(t) == [] || IsSlug(TrimBack(t))
  {
    if t != [] && t[|t| - 1] == DASH {
      BackIsDashed(t[..|t| - 1]);
    }
  }

  /** A slug holds the lower-cased letters and digits of the id in order, in words
      with single dashes between them; it is empty iff there are none. */
  lemma SlugKeepsWords(id: Text)
    ensures Words(Slug(id)) == Words(LowerCase(id))
    ensures Slug(id) == [] || IsSlug(Slug(id))
    ensures Slug(id) == [] <==> Words(LowerCase(id)) == []
  {
    var runs := DashRuns(LowerCase(id), false);
    RunsKeepWords(LowerCase(id), false);
    FrontKeepsWords(runs);
    BackKeepsWords(TrimFront(runs));
    RunsAreDashed(LowerCase(id), false);
    FrontIsDashed(runs);
    BackIsDashed(TrimFront(runs));
    if Slug(id) != [] {
      assert IsWord(Slug(id)[0]);
    }
  }

  /** The role id is the slug behind a prefix, `node` standing for no slug; capitals
      become small letters. */
  lemma RoleIdIs(id: Text, u: CodeUnit)
    ensures RoleIdFor(id) == Ascii("role-") + (if Words(LowerCase(id)) == [] then Ascii("node") else Slug(id))
    ensures ('A' as int) <= u <= ('Z' as int) ==> LowerUnit(u) == [u - ('A' as int) + ('a' as int)]
    ensures LowerUnit(0x212A) == [('k' as int)] && LowerUnit(0x130) == [('i' as int), 0x307]
    ensures ('a' as int) <= u <= ('z' as int) || ('0' as int) <= u <= ('9' as int) ==> LowerUnit(u) == [u]
  {
    SlugKeepsWords(id);
  }
}
