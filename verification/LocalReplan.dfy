/** Local replanning (agent_kernel/local_replan.py): a failed node and what depends on it is cut out
    of the plan and replaced. */
module LocalReplan {
  import opened Basics
  import opened Schemas
  import opened PlanGraph
  import opened CompileCheck

  predicate DependsOn(nodes: seq<Subgoal>, child: string, parent: string) {
    exists s :: s in nodes && s.id == child && parent in s.dependencies
  }

  ghost predicate Downstream(nodes: seq<Subgoal>, p: seq<string>) {
    |p| > 0 && forall i :: 0 <= i < |p| - 1 ==> DependsOn(nodes, p[i + 1], p[i])
  }

  /** `x` is `root` or depends on it, directly or through other nodes. */
  ghost predicate Descends(nodes: seq<Subgoal>, root: string, x: string) {
    exists p :: Downstream(nodes, p) && p[0] == root && p[|p| - 1] == x
  }

  lemma {:induction false} DescendsRoot(nodes: seq<Subgoal>, root: string)
    ensures Descends(nodes, root, root)
  {
    assert Downstream(nodes, [root]) && [root][0] == root && [root][|[root]| - 1] == root;
  }

  lemma {:induction false} DescendsStep(nodes: seq<Subgoal>, root: string, parent: string, child: string)
    requires Descends(nodes, root, parent) && DependsOn(nodes, child, parent)
    ensures Descends(nodes, root, child)
  {
    var p :| Downstream(nodes, p) && p[0] == root && p[|p| - 1] == parent;
    var q := p + [child];
    assert Downstream(nodes, q) && q[0] == root && q[|q| - 1] == child;
  }

  /** A set that holds the root and every dependant of its members holds every descendant. */
  lemma {:induction false} ClosedHoldsPath(nodes: seq<Subgoal>, out: set<string>, p: seq<string>, i: nat)
    requires Downstream(nodes, p) && p[0] in out && i < |p|
    requires forall parent, child :: parent in out && DependsOn(nodes, child, parent) ==> child in out
    ensures p[i] in out
  {
    if i > 0 {
      ClosedHoldsPath(nodes, out, p, i - 1);
    }
  }

  predicate Child(children: map<string, seq<string>>, parent: string, child: string) {
    parent in children && child in children[parent]
  }

  method BuildChildren(nodes: seq<Subgoal>) returns (children: map<string, seq<string>>)
    ensures forall p, c :: Child(children, p, c) <==> DependsOn(nodes, c, p)
  {
    children := map[];
    for i := 0 to |nodes|
      invariant forall p, c :: Child(children, p, c) <==> DependsOn(nodes[..i], c, p)
    {
      var s := nodes[i];
      var before := children;
      for j := 0 to |s.dependencies|
        invariant forall p, c :: Child(children, p, c) <==>
                    Child(before, p, c) || (c == s.id && p in s.dependencies[..j])
      {
        var dep := s.dependencies[j];
        children := children[dep := (if dep in children then children[dep] else []) + [s.id]];
        assert s.dependencies[..j + 1] == s.dependencies[..j] + [dep];
      }
      assert s.dependencies[..|s.dependencies|] == s.dependencies;
      DependsOnNext(nodes, i);
    }
    assert nodes[..|nodes|] == nodes;
  }

  lemma {:induction false} DependsOnNext(nodes: seq<Subgoal>, i: nat)
    requires i < |nodes|
    ensures forall p, c :: DependsOn(nodes[..i + 1], c, p) <==>
              DependsOn(nodes[..i], c, p) || (c == nodes[i].id && p in nodes[i].dependencies)
  {
    var before, s := nodes[..i], nodes[i];
    assert nodes[..i + 1] == before + [s];
    forall p, c ensures DependsOn(before + [s], c, p) <==>
                        DependsOn(before, c, p) || (c == s.id && p in s.dependencies)
    {
      if DependsOn(before + [s], c, p) {
        var t :| t in before + [s] && t.id == c && p in t.dependencies;
        assert t in before || t == s;
      }
      if t :| t in before && t.id == c && p in t.dependencies {
        assert t in before + [s];
      }
      assert s in before + [s];
    }
  }

  /** `compute_descendants` returns exactly the root and everything downstream of it. */
  method ComputeDescendants(nodes: seq<Subgoal>, root: string) returns (out: set<string>)
    ensures forall x :: x in out <==> Descends(nodes, root, x)
  {
    var children := BuildChildren(nodes);
    out := {};
    var stack := [root];
    DescendsRoot(nodes, root);
    while stack != []
      invariant forall x :: x in out || x in stack ==> Descends(nodes, root, x)
      invariant root in out || root in stack
      invariant forall p, c :: p in out && DependsOn(nodes, c, p) ==> c in out || c in stack
      decreases Ids(nodes) + {root} - out, |stack|
    {
      var cur := stack[|stack| - 1];
      ghost var below := stack[..|stack| - 1];
      assert stack == below + [cur];
      stack := stack[..|stack| - 1];
      if cur in out {
        continue;
      }
      assert cur in Ids(nodes) + {root} by { DescendantKnown(nodes, root, cur); }
      var reached := if cur in children then children[cur] else [];
      assert forall c :: c in reached <==> Child(children, cur, c);
      forall c | c in reached ensures Descends(nodes, root, c) {
        DescendsStep(nodes, root, cur, c);
      }
      assert cur in Ids(nodes) + {root} - out && cur !in Ids(nodes) + {root} - (out + {cur});
      out := out + {cur};
      var pushed := Unseen(reached, out);
      stack := stack + pushed;
    }
    forall x | Descends(nodes, root, x) ensures x in out {
      var p :| Downstream(nodes, p) && p[0] == root && p[|p| - 1] == x;
      ClosedHoldsPath(nodes, out, p, |p| - 1);
    }
  }

  lemma {:induction false} DescendantKnown(nodes: seq<Subgoal>, root: string, x: string)
    requires Descends(nodes, root, x)
    ensures x == root || x in Ids(nodes)
  {
    var p :| Downstream(nodes, p) && p[0] == root && p[|p| - 1] == x;
    if |p| > 1 {
      assert DependsOn(nodes, p[|p| - 2 + 1], p[|p| - 2]);
    }
  }

  /** The children that are pushed on the stack. */
  method Unseen(xs: seq<string>, out: set<string>) returns (ys: seq<string>)
    ensures forall x :: x in ys <==> x in xs && x !in out
  {
    ys := [];
    for i := 0 to |xs|
      invariant forall x :: x in ys <==> x in xs[..i] && x !in out
    {
      assert xs[..i + 1] == xs[..i] + [xs[i]];
      if xs[i] !in out {
        ys := ys + [xs[i]];
      }
    }
    assert xs[..|xs|] == xs;
  }

  /* ---- cutting the failed subtree out ---- */

  predicate Finished(s: Subgoal) {
    s.state in {DONE, SKIPPED}
  }

  /** The ids of the finished nodes. */
  function FinishedIds(nodes: seq<Subgoal>): set<string> {
    if nodes == [] then {}
    else
      var last := nodes[|nodes| - 1];
      FinishedIds(nodes[..|nodes| - 1]) + (if Finished(last) then {last.id} else {})
  }

  /** The node is cut out: it is downstream of the failed node and not finished. */
  ghost predicate Dropped(nodes: seq<Subgoal>, failedId: string, id: string) {
    Descends(nodes, failedId, id) && id !in FinishedIds(nodes)
  }

  ghost function Survivors(nodes: seq<Subgoal>, failedId: string, prefix: seq<Subgoal>): seq<Subgoal> {
    if prefix == [] then []
    else
      var last := prefix[|prefix| - 1];
      Survivors(nodes, failedId, prefix[..|prefix| - 1]) + (if Dropped(nodes, failedId, last.id) then [] else [last])
  }

  /** The plan after a replan with one replacement node. */
  ghost function Replanned(nodes: seq<Subgoal>, failedId: string, replacement: Subgoal): seq<Subgoal> {
    Survivors(nodes, failedId, nodes) + [replacement.(state := DRAFT)]
  }

  method ApplyLocalReplan(current: seq<Subgoal>, failedId: string, replacement: Subgoal) returns (kept: seq<Subgoal>)
    ensures kept == Replanned(current, failedId, replacement)
  {
    var affected := ComputeDescendants(current, failedId);
    var frozen := FinishedIds(current);
    kept := [];
    for i := 0 to |current|
      invariant kept == Survivors(current, failedId, current[..i])
    {
      assert current[..i + 1][..i] == current[..i];
      if current[i].id in affected && current[i].id !in frozen {
        continue;
      }
      kept := kept + [current[i]];
    }
    assert current[..|current|] == current;
    kept := kept + [replacement.(state := DRAFT)];
  }

  /** The positions of the nodes that stay. */
  ghost function Positions(nodes: seq<Subgoal>, failedId: string, prefix: seq<Subgoal>): seq<nat> {
    if prefix == [] then []
    else
      var n := |prefix| - 1;
      Positions(nodes, failedId, prefix[..n]) + (if Dropped(nodes, failedId, prefix[n].id) then [] else [n])
  }

  /** The survivors are the nodes at exactly the positions that are not dropped, ... */
  lemma {:induction false} SurvivorsAt(nodes: seq<Subgoal>, failedId: string, prefix: seq<Subgoal>)
    ensures var at := Positions(nodes, failedId, prefix);
            && |at| == |Survivors(nodes, failedId, prefix)|
            && forall k :: 0 <= k < |at| ==> at[k] < |prefix| && prefix[at[k]] == Survivors(nodes, failedId, prefix)[k]
  {
    if prefix != [] {
      SurvivorsAt(nodes, failedId, prefix[..|prefix| - 1]);
    }
  }

  lemma {:induction false} PositionIff(nodes: seq<Subgoal>, failedId: string, prefix: seq<Subgoal>, i: nat)
    ensures i in Positions(nodes, failedId, prefix) <==> i < |prefix| && !Dropped(nodes, failedId, prefix[i].id)
  {
    if prefix != [] {
      PositionIff(nodes, failedId, prefix[..|prefix| - 1], i);
    }
  }

  /** ... in their old order. */
  lemma {:induction false} PositionsOrdered(nodes: seq<Subgoal>, failedId: string, prefix: seq<Subgoal>)
    ensures Increasing(Positions(nodes, failedId, prefix))
  {
    if prefix != [] {
      var n := |prefix| - 1;
      PositionsOrdered(nodes, failedId, prefix[..n]);
      var shorter := Positions(nodes, failedId, prefix[..n]);
      forall k | 0 <= k < |shorter| ensures shorter[k] < n {
        assert shorter[k] in shorter;
        PositionIff(nodes, failedId, prefix[..n], shorter[k]);
      }
      assert Increasing(shorter + []) && Increasing(shorter + [n]);
    }
  }

  /** No finished node is dropped. */
  lemma {:induction false} SurvivorsFinished(nodes: seq<Subgoal>, failedId: string, prefix: seq<Subgoal>)
    requires FinishedIds(prefix) <= FinishedIds(nodes)
    ensures FinishedIds(Survivors(nodes, failedId, prefix)) == FinishedIds(prefix)
  {
    if prefix != [] {
      var n := |prefix| - 1;
      SurvivorsFinished(nodes, failedId, prefix[..n]);
      var rest := Survivors(nodes, failedId, prefix[..n]);
      if !Dropped(nodes, failedId, prefix[n].id) {
        assert (rest + [prefix[n]])[..|rest|] == rest;
      } else {
        assert rest + [] == rest;
      }
    }
  }

  /** No unfinished survivor depends on a node that was cut out. */
  lemma {:induction false} SurvivorsDependOnSurvivors(nodes: seq<Subgoal>, failedId: string, id: string, d: string)
    requires id in GraphOf(nodes) && d in GraphOf(nodes)[id]
    requires !Dropped(nodes, failedId, id) && id !in FinishedIds(nodes)
    ensures !Dropped(nodes, failedId, d)
  {
    if Dropped(nodes, failedId, d) {
      var i := GraphEntry(nodes, id);
      assert DependsOn(nodes, id, d);
      DescendsStep(nodes, failedId, d, id);
    }
  }

  /* ---- well-formed plans ---- */

  /** Every dependency is a node of the plan, there is no cycle, and what a finished node depends on
      is finished. */
  ghost predicate WellFormed(g: Graph, finished: set<string>) {
    && finished <= g.Keys
    && (forall a, d :: a in g && d in g[a] ==> d in g)
    && (forall a, d :: a in finished && d in g[a] ==> d in finished)
    && Acyclic(g)
  }

  /** The part of the graph that survives a replan. */
  ghost function Cut(g: Graph, nodes: seq<Subgoal>, failedId: string): Graph {
    map a | a in g && !Dropped(nodes, failedId, a) :: g[a]
  }

  lemma {:induction false} SurvivorsNext(nodes: seq<Subgoal>, failedId: string, prefix: seq<Subgoal>, s: Subgoal)
    ensures Survivors(nodes, failedId, prefix + [s])
            == Survivors(nodes, failedId, prefix) + (if Dropped(nodes, failedId, s.id) then [] else [s])
  {
    assert (prefix + [s])[..|prefix|] == prefix;
  }

  lemma {:induction false} GraphNext(nodes: seq<Subgoal>, s: Subgoal)
    ensures GraphOf(nodes + [s]) == GraphOf(nodes)[s.id := s.dependencies]
  {
    assert (nodes + [s])[..|nodes|] == nodes;
  }

  lemma {:induction false} CutNext(g: Graph, nodes: seq<Subgoal>, failedId: string, id: string, deps: seq<string>)
    ensures Cut(g[id := deps], nodes, failedId)
            == if Dropped(nodes, failedId, id) then Cut(g, nodes, failedId) else Cut(g, nodes, failedId)[id := deps]
  {}

  lemma {:induction false} SurvivorsGraph(nodes: seq<Subgoal>, failedId: string, prefix: seq<Subgoal>)
    ensures GraphOf(Survivors(nodes, failedId, prefix)) == Cut(GraphOf(prefix), nodes, failedId)
  {
    if prefix != [] {
      var n := |prefix| - 1;
      var before, s := prefix[..n], prefix[n];
      var rest := Survivors(nodes, failedId, before);
      SurvivorsGraph(nodes, failedId, before);
      assert prefix == before + [s];
      SurvivorsNext(nodes, failedId, before, s);
      GraphNext(before, s);
      CutNext(GraphOf(before), nodes, failedId, s.id, s.dependencies);
      GraphNext(rest, s);
      assert rest + [] == rest;
    }
  }

  /** A survivor depends on survivors. */
  lemma {:induction false} SurvivorEdge(nodes: seq<Subgoal>, failedId: string, a: string, d: string)
    requires WellFormed(GraphOf(nodes), FinishedIds(nodes))
    requires a in GraphOf(nodes) && !Dropped(nodes, failedId, a) && d in GraphOf(nodes)[a]
    ensures d in GraphOf(nodes) && !Dropped(nodes, failedId, d)
  {
    if a !in FinishedIds(nodes) {
      SurvivorsDependOnSurvivors(nodes, failedId, a, d);
    }
  }

  ghost predicate Closed(g: Graph) {
    forall a, d :: a in g && d in g[a] ==> d in g
  }

  lemma {:induction false} CutClosed(nodes: seq<Subgoal>, failedId: string)
    requires WellFormed(GraphOf(nodes), FinishedIds(nodes))
    ensures Closed(Cut(GraphOf(nodes), nodes, failedId))
  {
    var cut := Cut(GraphOf(nodes), nodes, failedId);
    forall a, d | a in cut && d in cut[a] ensures d in cut {
      SurvivorEdge(nodes, failedId, a, d);
    }
  }

  /** A new node on top of a part of the graph that is closed. */
  lemma {:induction false} OnTop(g: Graph, cut: Graph, finished: set<string>, id: string, deps: seq<string>)
    requires WellFormed(g, finished) && Closed(cut) && finished <= cut.Keys <= g.Keys
    requires forall a :: a in cut ==> cut[a] == g[a]
    requires id !in g && forall d :: d in deps ==> d in finished
    ensures WellFormed(cut[id := deps], finished)
  {
    var after := cut[id := deps];
    forall a, d | a in after && d in after[a] ensures d in cut && (a != id ==> Edge(g, a, d)) {
      if a == id {
        assert d in finished;
      }
    }
    var alone: Graph := map[id := []];
    assert Acyclic(alone) by { IsolatedAcyclic(id); }
    LayeredAcyclic(after, g, alone);
  }

  /** A replan keeps the plan well formed when the replacement has a fresh id and depends on finished
      nodes only. */
  lemma {:induction false} ReplanWellFormed(nodes: seq<Subgoal>, failedId: string, g: Graph, finished: set<string>,
                                            id: string, deps: seq<string>)
    requires g == GraphOf(nodes) && finished == FinishedIds(nodes) && WellFormed(g, finished)
    requires id !in g && forall d :: d in deps ==> d in finished
    ensures WellFormed(Cut(g, nodes, failedId)[id := deps], finished)
  {
    CutClosed(nodes, failedId);
    OnTop(g, Cut(g, nodes, failedId), finished, id, deps);
  }

  lemma {:induction false} IsolatedAcyclic(id: string)
    ensures Acyclic(map[id := []])
  {
    var g: Graph := map[id := []];
    RankedReachesNoCycle(g, {id}, map[id := 0], id);
  }

  /** Adding a closed, cycle-free batch of new, unfinished nodes keeps the plan well formed. */
  lemma {:induction false} AppendWellFormed(g: Graph, finished: set<string>, batch: Graph)
    requires WellFormed(g, finished) && WellFormed(batch, {}) && g.Keys !! batch.Keys
    ensures WellFormed(g + batch, finished)
  {
    LayeredAcyclic(g + batch, g, batch);
  }
}
