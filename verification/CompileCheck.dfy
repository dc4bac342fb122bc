/** Plan compilation checks (agent_kernel/compile_check.py). */
module CompileCheck {
  import opened Basics
  import opened PyText
  import opened Schemas
  import opened PlanGraph

  datatype Code =
    | ToolNotRegistered | InputSchemaIncomplete | RetryPolicyMissing
    | DependencyNotFound | DependencyCycle
    | PreconditionNotEvaluable | SuccessCriteriaNotExecutable
    | FallbackSelfLoop

  /** Every issue of the check has the severity "error". */
  datatype Issue = Issue(code: Code, subgoalId: string)

  /** The registered tool names and the input keys each one requires. */
  type Tools = map<string, seq<string>>

  const PRECONDITION_OPS := {"input_present", "dependency_done", "tool_available", "env_flag"}
  const SUCCESS_OPS := {"tool_output_contains", "artifact_exists", "field_equals", "exit_code_is", "predicate_ref"}

  /* ---- dependency graph ---- */

  function Ids(nodes: seq<Subgoal>): set<string> {
    set s | s in nodes :: s.id
  }

  /** `{n.id: list(n.dependencies) for n in nodes}`: the last node with an id wins. */
  function GraphOf(nodes: seq<Subgoal>): Graph {
    if nodes == [] then map[]
    else
      var last := nodes[|nodes| - 1];
      GraphOf(nodes[..|nodes| - 1])[last.id := last.dependencies]
  }

  lemma {:induction false} GraphKeys(nodes: seq<Subgoal>)
    ensures GraphOf(nodes).Keys == Ids(nodes)
  {
    if nodes != [] {
      GraphKeys(nodes[..|nodes| - 1]);
      assert nodes == nodes[..|nodes| - 1] + [nodes[|nodes| - 1]];
    }
  }

  /** An entry of the graph is the dependency list of a node. */
  lemma {:induction false} GraphEntry(nodes: seq<Subgoal>, id: string) returns (i: nat)
    requires id in GraphOf(nodes)
    ensures i < |nodes| && nodes[i].id == id && nodes[i].dependencies == GraphOf(nodes)[id]
  {
    i := |nodes| - 1;
    if nodes[i].id != id {
      i := GraphEntry(nodes[..|nodes| - 1], id);
    }
  }

  predicate DistinctIds(nodes: seq<Subgoal>) {
    forall i, j :: 0 <= i < j < |nodes| ==> nodes[i].id != nodes[j].id
  }

  lemma {:induction false} GraphAt(nodes: seq<Subgoal>, i: nat)
    requires DistinctIds(nodes) && i < |nodes|
    ensures nodes[i].id in GraphOf(nodes) && GraphOf(nodes)[nodes[i].id] == nodes[i].dependencies
  {
    if i < |nodes| - 1 {
      GraphAt(nodes[..|nodes| - 1], i);
    }
  }

  /* ---- cycle search ---- */

  /** A snapshot of the search: its three sets, the nodes being visited (outermost first) and
      the finishing times of the visited ones. */
  datatype Search = Search(
    visiting: set<string>, visited: set<string>, inCycle: set<string>,
    stack: seq<string>, rank: map<string, nat>, clock: nat)

  ghost predicate SearchInv(g: Graph, d: Search) {
    && StackInv(g, d)
    && d.inCycle <= d.visiting + d.visited
    && (forall c :: c in d.inCycle ==> ReachesCycle(g, c))
    && d.rank.Keys == d.visited && (forall v :: v in d.visited ==> d.rank[v] < d.clock)
    && RankedOn(g, d.visited - d.inCycle, d.rank)
  }

  ghost predicate StackInv(g: Graph, d: Search) {
    && (forall x :: x in d.visiting <==> x in d.stack)
    && (d.stack != [] ==> Walk(g, d.stack))
    && d.visited <= g.Keys && d.visiting !! d.visited
  }

  /** `e` is at least as far as `d`, with the same nodes on the stack; finished verdicts are kept. */
  ghost predicate Advanced(d: Search, e: Search) {
    && e.stack == d.stack && e.visiting == d.visiting
    && d.visited <= e.visited && d.inCycle <= e.inCycle
    && forall v :: v in d.visited && v in e.inCycle ==> v in d.inCycle
  }

  /** The node is marked, or the known ones among `deps` are finished and unmarked. */
  ghost predicate Cleared(g: Graph, d: Search, node: string, deps: seq<string>) {
    node in d.inCycle || forall x :: x in deps && x in g ==> x in d.visited && x !in d.inCycle
  }

  ghost function Entered(d: Search, node: string): Search {
    d.(visiting := d.visiting + {node}, stack := d.stack + [node])
  }

  lemma {:induction false} EnterInv(g: Graph, d: Search, node: string)
    requires SearchInv(g, d) && node in g && node !in d.visiting && node !in d.visited
    requires d.stack != [] ==> Edge(g, d.stack[|d.stack| - 1], node)
    ensures SearchInv(g, Entered(d, node))
  {}

  /** Marking nodes that are still being visited keeps the invariant if they reach a cycle. */
  lemma {:induction false} MarkInv(g: Graph, d: Search, marks: set<string>)
    requires SearchInv(g, d) && marks <= d.visiting
    requires forall m :: m in marks ==> ReachesCycle(g, m)
    ensures SearchInv(g, d.(inCycle := d.inCycle + marks))
  {}

  lemma {:induction false} BackEdgeInv(g: Graph, d: Search, dep: string)
    requires SearchInv(g, d) && d.stack != [] && dep in d.visiting && Edge(g, d.stack[|d.stack| - 1], dep)
    ensures SearchInv(g, d.(inCycle := d.inCycle + {d.stack[|d.stack| - 1], dep}))
  {
    var i :| 0 <= i < |d.stack| && d.stack[i] == dep;
    StackClosesCycle(g, d.stack, i);
    MarkInv(g, d, {d.stack[|d.stack| - 1], dep});
  }

  ghost function Left(d: Search, node: string): Search
    requires d.stack != []
  {
    d.(visiting := d.visiting - {node}, visited := d.visited + {node},
       stack := d.stack[..|d.stack| - 1], rank := d.rank[node := d.clock], clock := d.clock + 1)
  }

  /** The ranks stay good when the node is left. */
  lemma {:induction false} LeaveRanked(g: Graph, d: Search, node: string)
    requires SearchInv(g, d) && node in g && node !in d.visited
    requires node in d.inCycle || forall x :: Edge(g, node, x) ==> x in d.visited && x !in d.inCycle
    ensures d.stack != [] ==> RankedOn(g, d.visited + {node} - d.inCycle, d.rank[node := d.clock])
  {
    var done := d.visited - d.inCycle;
    if node in d.inCycle {
      assert d.visited + {node} - d.inCycle == done;
    } else {
      assert d.visited + {node} - d.inCycle == done + {node};
      RankLast(g, done, d.rank, node, d.clock);
    }
  }

  /** Entering a node, advancing below it and leaving it again advances the search. */
  lemma {:induction false} LeaveInv(g: Graph, before: Search, d: Search, node: string)
    requires SearchInv(g, before) && SearchInv(g, d) && node in g
    requires node !in before.visiting && node !in before.visited
    requires Advanced(Entered(before, node), d)
    requires node in d.inCycle || forall x :: Edge(g, node, x) ==> x in d.visited && x !in d.inCycle
    ensures SearchInv(g, Left(d, node)) && Advanced(before, Left(d, node))
  {
    assert d.stack == Left(d, node).stack + [node];
    LeaveRanked(g, d, node);
  }

  lemma {:induction false} RankLast(g: Graph, s: set<string>, rank: map<string, nat>, node: string, top: nat)
    requires RankedOn(g, s, rank) && node in g && node !in s
    requires forall v :: v in s ==> rank[v] < top
    requires forall d :: Edge(g, node, d) ==> d in s
    ensures RankedOn(g, s + {node}, rank[node := top])
  {}

  /** The sets shared by the nested `dfs` of `_find_cycle_nodes`. */
  class CycleSearch {
    const graph: Graph
    var visiting: set<string>
    var visited: set<string>
    var inCycle: set<string>
    ghost var stack: seq<string>
    ghost var rank: map<string, nat>
    ghost var clock: nat

    constructor (graph: Graph)
      ensures SearchInv(graph, State()) && this.graph == graph && stack == [] && visited == {}
    {
      this.graph := graph;
      visiting, visited, inCycle := {}, {}, {};
      stack, rank, clock := [], map[], 0;
    }

    ghost function State(): Search
      reads this
    {
      Search(visiting, visited, inCycle, stack, rank, clock)
    }

    method Dfs(node: string)
      requires SearchInv(graph, State()) && node in graph
      requires stack != [] ==> Edge(graph, stack[|stack| - 1], node)
      modifies this
      ensures SearchInv(graph, State()) && Advanced(old(State()), State())
      ensures node in visited || node in visiting
      decreases graph.Keys - visiting - visited, 1
    {
      if node in visited {
        return;
      }
      if node in visiting {
        ghost var i :| 0 <= i < |stack| && stack[i] == node;
        StackClosesCycle(graph, stack, i);
        MarkInv(graph, State(), {node});
        inCycle := inCycle + {node};
        return;
      }
      ghost var before := State();
      EnterInv(graph, before, node);
      Enter(node);
      assert node in graph.Keys - before.visiting - before.visited && node !in graph.Keys - visiting - visited;
      DfsDependencies(node);
      LeaveInv(graph, before, State(), node);
      Leave(node);
    }

    method Enter(node: string)
      modifies this
      ensures State() == Entered(old(State()), node)
    {
      visiting := visiting + {node};
      stack := stack + [node];
    }

    method Leave(node: string)
      requires stack != []
      modifies this
      ensures State() == Left(old(State()), node)
    {
      visiting := visiting - {node};
      visited := visited + {node};
      stack, rank, clock := stack[..|stack| - 1], rank[node := clock], clock + 1;
    }

    /** The loop over the dependencies of the node on top of the stack. */
    method DfsDependencies(node: string)
      requires SearchInv(graph, State()) && stack != [] && stack[|stack| - 1] == node && node in graph
      modifies this
      ensures SearchInv(graph, State()) && Advanced(old(State()), State())
      ensures node in inCycle || forall d :: Edge(graph, node, d) ==> d in visited && d !in inCycle
      decreases graph.Keys - visiting - visited, 2
    {
      var deps := graph[node];
      for k := 0 to |deps|
        invariant SearchInv(graph, State()) && Advanced(old(State()), State())
        invariant Cleared(graph, State(), node, deps[..k])
      {
        assert deps[..k + 1] == deps[..k] + [deps[k]];
        var dep := deps[k];
        if dep !in graph {
          continue;
        }
        assert Edge(graph, node, dep);
        if dep in visiting {
          BackEdgeInv(graph, State(), dep);
          inCycle := inCycle + {node, dep};
          continue;
        }
        Dfs(dep);
        if dep in inCycle {
          CycleThroughEdge(graph, node, dep);
          MarkInv(graph, State(), {node});
          inCycle := inCycle + {node};
        }
      }
      assert deps[..|deps|] == deps;
    }
  }

  /** `_find_cycle_nodes` finds exactly the nodes from which a dependency cycle can be reached. */
  method FindCycleNodes(nodes: seq<Subgoal>) returns (inCycle: set<string>)
    ensures forall n :: n in inCycle <==> ReachesCycle(GraphOf(nodes), n)
  {
    var graph := GraphOf(nodes);
    GraphKeys(nodes);
    var search := new CycleSearch(graph);
    for k := 0 to |nodes|
      invariant SearchInv(graph, search.State()) && search.graph == graph && search.stack == [] && fresh(search)
      invariant forall j :: 0 <= j < k ==> nodes[j].id in search.visited
    {
      if nodes[k].id !in search.visited {
        search.Dfs(nodes[k].id);
      }
    }
    inCycle := search.inCycle;
    forall n | n in graph && n !in inCycle ensures !ReachesCycle(graph, n) {
      RankedReachesNoCycle(graph, search.visited - inCycle, search.rank, n);
    }
  }

  /* ---- fallback chains ---- */

  /** The first non-blank entry among the keys that may name a fallback node. */
  function FallbackTarget(fallback: map<string, string>): string {
    var a := if "on_failure" in fallback then Strip(fallback["on_failure"]) else "";
    var b := if "target" in fallback then Strip(fallback["target"]) else "";
    var c := if "fallback_to" in fallback then Strip(fallback["fallback_to"]) else "";
    if a != "" then a else if b != "" then b else c
  }

  function FallbackEdges(nodes: seq<Subgoal>): map<string, string> {
    if nodes == [] then map[]
    else
      var last := nodes[|nodes| - 1];
      var rest := FallbackEdges(nodes[..|nodes| - 1]);
      if FallbackTarget(last.fallback) == "" then rest else rest[last.id := FallbackTarget(last.fallback)]
  }

  /** The fallback chain from `n` leaves the edges after at most `k` hops. */
  predicate EndsWithin(edges: map<string, string>, n: string, k: nat)
    decreases k
  {
    n == "" || n !in edges || (k > 0 && EndsWithin(edges, edges[n], k - 1))
  }

  ghost predicate LoopsForever(edges: map<string, string>, n: string) {
    forall k: nat :: !EndsWithin(edges, n, k)
  }

  /** Following the edges never leads out of `seen`. */
  ghost predicate Trapped(edges: map<string, string>, seen: set<string>) {
    seen <= edges.Keys && "" !in seen && forall x {:trigger edges[x]} :: x in seen ==> edges[x] in seen
  }

  lemma {:induction false} TrappedNeverEnds(edges: map<string, string>, seen: set<string>, n: string, k: nat)
    requires Trapped(edges, seen) && n in seen
    ensures !EndsWithin(edges, n, k)
    decreases k
  {
    if k > 0 {
      TrappedNeverEnds(edges, seen, edges[n], k - 1);
    }
  }

  lemma {:induction false} TrappedLoops(edges: map<string, string>, seen: set<string>)
    requires Trapped(edges, seen)
    ensures forall n :: n in seen ==> LoopsForever(edges, n)
  {
    forall n, k: nat | n in seen ensures !EndsWithin(edges, n, k) {
      TrappedNeverEnds(edges, seen, n, k);
    }
  }

  lemma {:induction false} EndsLater(edges: map<string, string>, n: string, k: nat, m: nat)
    requires EndsWithin(edges, n, k) && k <= m
    ensures EndsWithin(edges, n, m)
    decreases k
  {
    if n != "" && n in edges {
      EndsLater(edges, edges[n], k - 1, m - 1);
    }
  }

  /** Following the chain from `start` for `hops` hops leads to `cur`. */
  predicate LeadsTo(edges: map<string, string>, start: string, cur: string, hops: nat)
    decreases hops
  {
    if hops == 0 then start == cur
    else start != "" && start in edges && LeadsTo(edges, edges[start], cur, hops - 1)
  }

  lemma {:induction false} LeadsOn(edges: map<string, string>, start: string, cur: string, hops: nat)
    requires LeadsTo(edges, start, cur, hops) && cur != "" && cur in edges
    ensures LeadsTo(edges, start, edges[cur], hops + 1)
    decreases hops
  {
    if hops > 0 {
      LeadsOn(edges, edges[start], cur, hops - 1);
    }
  }

  lemma {:induction false} LeadsOut(edges: map<string, string>, start: string, cur: string, hops: nat)
    requires LeadsTo(edges, start, cur, hops) && (cur == "" || cur !in edges)
    ensures EndsWithin(edges, start, hops)
    decreases hops
  {
    if hops > 0 {
      LeadsOut(edges, edges[start], cur, hops - 1);
    }
  }

  lemma {:induction false} ChainEnds(edges: map<string, string>, seen: set<string>, start: string, cur: string,
                                     hops: nat)
    requires seen <= edges.Keys && hops == |seen|
    requires LeadsTo(edges, start, cur, hops) && (cur == "" || cur !in edges)
    ensures EndsWithin(edges, start, |edges|)
  {
    LeadsOut(edges, start, cur, hops);
    SubsetSize(seen, edges.Keys);
    EndsLater(edges, start, hops, |edges|);
  }

  /** One walk of `_find_fallback_cycles`: whether the chain from `start` loops, and the nodes it meets. */
  method WalkFallback(edges: map<string, string>, start: string) returns (loops: bool, seen: set<string>)
    ensures seen <= edges.Keys
    ensures start in edges && start != "" ==> start in seen
    ensures loops ==> Trapped(edges, seen)
    ensures !loops ==> EndsWithin(edges, start, |edges|)
  {
    seen, loops := {}, false;
    ghost var hops: nat := 0;
    var cur := start;
    while cur != "" && cur in edges
      invariant seen <= edges.Keys && "" !in seen
      invariant start == cur || start in seen
      invariant forall x {:trigger edges[x]} :: x in seen ==> edges[x] in seen || edges[x] == cur
      invariant hops == |seen| && LeadsTo(edges, start, cur, hops)
      decreases edges.Keys - seen
    {
      if cur in seen {
        loops := true;
        return;
      }
      LeadsOn(edges, start, cur, hops);
      hops := hops + 1;
      seen := seen + {cur};
      cur := edges[cur];
    }
    ChainEnds(edges, seen, start, cur, hops);
  }

  /** `_find_fallback_cycles` flags exactly the nodes whose chain never ends; every other chain ends
      within as many hops as there are fallback edges. */
  method FindFallbackCycles(nodes: seq<Subgoal>) returns (flagged: set<string>)
    ensures forall n :: n in flagged <==> LoopsForever(FallbackEdges(nodes), n)
    ensures forall n :: n !in flagged ==> EndsWithin(FallbackEdges(nodes), n, |FallbackEdges(nodes)|)
  {
    var edges := FallbackEdges(nodes);
    flagged := {};
    var starts := edges.Keys;
    while starts != {}
      invariant starts <= edges.Keys && flagged <= edges.Keys
      invariant forall n :: n in flagged ==> LoopsForever(edges, n)
      invariant forall n :: n in edges && n !in starts && n !in flagged ==> EndsWithin(edges, n, |edges|)
      decreases starts
    {
      var start :| start in starts;
      var loops, seen := WalkFallback(edges, start);
      if loops {
        TrappedLoops(edges, seen);
        flagged := flagged + seen;
        assert start == "" || start in flagged;
      }
      starts := starts - {start};
    }
    forall n | n !in flagged ensures !LoopsForever(edges, n) && EndsWithin(edges, n, |edges|) {
      assert EndsWithin(edges, n, |edges|);
    }
  }

  /* ---- the whole check ---- */

  predicate NodeIssue(s: Subgoal, known: set<string>, tools: Tools, code: Code) {
    match code
    case ToolNotRegistered => s.toolName !in tools
    case InputSchemaIncomplete => s.toolName in tools &&
      exists k :: k in NonBlank(tools[s.toolName]) && !HasInput(s.inputs, k)
    case RetryPolicyMissing => s.toolName in tools && s.retryPolicy.None?
    case DependencyNotFound => exists d :: d in s.dependencies && d !in known
    case PreconditionNotEvaluable => exists c :: c in s.preconditions && c.op !in PRECONDITION_OPS
    case SuccessCriteriaNotExecutable => exists c :: c in s.successCriteria && c.op !in SUCCESS_OPS
    case _ => false
  }

  /** What the check has to report, stated on the plan itself. */
  ghost predicate Flagged(nodes: seq<Subgoal>, tools: Tools, issue: Issue) {
    match issue.code
    case DependencyCycle => ReachesCycle(GraphOf(nodes), issue.subgoalId)
    case FallbackSelfLoop => LoopsForever(FallbackEdges(nodes), issue.subgoalId)
    case _ => exists s :: s in nodes && s.id == issue.subgoalId && NodeIssue(s, Ids(nodes), tools, issue.code)
  }

  ghost predicate CompilesCleanly(nodes: seq<Subgoal>, tools: Tools) {
    forall issue :: !Flagged(nodes, tools, issue)
  }

  ghost predicate NodeIssues(nodes: seq<Subgoal>, known: set<string>, tools: Tools, codes: set<Code>, issue: Issue) {
    issue.code in codes && exists s :: s in nodes && s.id == issue.subgoalId && NodeIssue(s, known, tools, issue.code)
  }

  method CheckTools(nodes: seq<Subgoal>, known: set<string>, tools: Tools) returns (issues: seq<Issue>)
    ensures forall x :: x in issues <==>
              NodeIssues(nodes, known, tools, {ToolNotRegistered, InputSchemaIncomplete, RetryPolicyMissing}, x)
  {
    issues := [];
    ghost var codes := {ToolNotRegistered, InputSchemaIncomplete, RetryPolicyMissing};
    for i := 0 to |nodes|
      invariant forall x :: x in issues <==> NodeIssues(nodes[..i], known, tools, codes, x)
    {
      var s := nodes[i];
      assert nodes[..i + 1] == nodes[..i] + [s];
      if s.toolName !in tools {
        issues := issues + [Issue(ToolNotRegistered, s.id)];
        continue;
      }
      if exists k :: k in NonBlank(tools[s.toolName]) && !HasInput(s.inputs, k) {
        issues := issues + [Issue(InputSchemaIncomplete, s.id)];
      }
      if s.retryPolicy.None? {
        issues := issues + [Issue(RetryPolicyMissing, s.id)];
      }
    }
    assert nodes[..|nodes|] == nodes;
  }

  method CheckDependencies(nodes: seq<Subgoal>, known: set<string>, tools: Tools) returns (issues: seq<Issue>)
    ensures forall x :: x in issues <==> NodeIssues(nodes, known, tools, {DependencyNotFound}, x)
  {
    issues := [];
    for i := 0 to |nodes|
      invariant forall x :: x in issues <==> NodeIssues(nodes[..i], known, tools, {DependencyNotFound}, x)
    {
      var s := nodes[i];
      assert nodes[..i + 1] == nodes[..i] + [s];
      var before := issues;
      for j := 0 to |s.dependencies|
        invariant forall x :: x in issues <==>
                    x in before ||
                    (x == Issue(DependencyNotFound, s.id) && exists d :: d in s.dependencies[..j] && d !in known)
      {
        if s.dependencies[j] !in known {
          issues := issues + [Issue(DependencyNotFound, s.id)];
        }
        assert s.dependencies[..j + 1] == s.dependencies[..j] + [s.dependencies[j]];
      }
      assert s.dependencies[..|s.dependencies|] == s.dependencies;
    }
    assert nodes[..|nodes|] == nodes;
  }

  method CheckConditions(nodes: seq<Subgoal>, known: set<string>, tools: Tools) returns (issues: seq<Issue>)
    ensures forall x :: x in issues <==>
              NodeIssues(nodes, known, tools, {PreconditionNotEvaluable, SuccessCriteriaNotExecutable}, x)
  {
    issues := [];
    ghost var codes := {PreconditionNotEvaluable, SuccessCriteriaNotExecutable};
    for i := 0 to |nodes|
      invariant forall x :: x in issues <==> NodeIssues(nodes[..i], known, tools, codes, x)
    {
      var s := nodes[i];
      assert nodes[..i + 1] == nodes[..i] + [s];
      var pre := UnsupportedOps(s.preconditions, PRECONDITION_OPS, Issue(PreconditionNotEvaluable, s.id));
      var crit := UnsupportedOps(s.successCriteria, SUCCESS_OPS, Issue(SuccessCriteriaNotExecutable, s.id));
      issues := issues + pre + crit;
    }
    assert nodes[..|nodes|] == nodes;
  }

  method UnsupportedOps(checks: seq<Check>, supported: set<string>, issue: Issue) returns (issues: seq<Issue>)
    ensures forall x :: x in issues <==> x == issue && exists c :: c in checks && c.op !in supported
  {
    issues := [];
    for i := 0 to |checks|
      invariant forall x :: x in issues <==> x == issue && exists c :: c in checks[..i] && c.op !in supported
    {
      assert checks[..i + 1] == checks[..i] + [checks[i]];
      if checks[i].op !in supported {
        issues := issues + [issue];
      }
    }
    assert checks[..|checks|] == checks;
  }

  /** One issue of the given code for every id of a set, in an arbitrary order. */
  method IssuePerId(code: Code, ids: set<string>) returns (issues: seq<Issue>)
    ensures forall x :: x in issues <==> x.code == code && x.subgoalId in ids
  {
    issues := [];
    var rest := ids;
    while rest != {}
      invariant rest <= ids
      invariant forall x :: x in issues <==> x.code == code && x.subgoalId in ids - rest
      decreases rest
    {
      var id :| id in rest;
      issues := issues + [Issue(code, id)];
      rest := rest - {id};
    }
  }

  /** `plan_compile_check` reports exactly the defects of the plan. */
  method PlanCompileCheck(nodes: seq<Subgoal>, tools: Tools) returns (issues: seq<Issue>)
    ensures forall x :: x in issues <==> Flagged(nodes, tools, x)
  {
    var known := Ids(nodes);
    var a := CheckTools(nodes, known, tools);
    var b := CheckDependencies(nodes, known, tools);
    var cycles := FindCycleNodes(nodes);
    var c := IssuePerId(DependencyCycle, cycles);
    var d := CheckConditions(nodes, known, tools);
    var loops := FindFallbackCycles(nodes);
    var e := IssuePerId(FallbackSelfLoop, loops);
    issues := a + b + c + d + e;
  }

  /* ---- what a clean plan gives the scheduler ---- */

  /** A plan without unknown dependencies and cycles can be ordered so that dependencies come first. */
  lemma {:induction false} CleanPlanHasRank(nodes: seq<Subgoal>, tools: Tools) returns (rank: map<string, nat>)
    requires CompilesCleanly(nodes, tools)
    ensures forall s, d :: s in nodes && d in s.dependencies ==> d in Ids(nodes)
    ensures RankedOn(GraphOf(nodes), Ids(nodes), rank)
  {
    forall s, d | s in nodes && d in s.dependencies ensures d in Ids(nodes) {
      var issue := Issue(DependencyNotFound, s.id);
      assert !Flagged(nodes, tools, issue);
    }
    forall n ensures !ReachesCycle(GraphOf(nodes), n) {
      assert !Flagged(nodes, tools, Issue(DependencyCycle, n));
    }
    GraphKeys(nodes);
    rank := TopologicalRank(GraphOf(nodes), GraphOf(nodes).Keys);
  }
}
