/** When a plan compiles (agent_kernel/compile_check.py), stated on its nodes. */
module CleanPlans {
  import opened PyText
  import opened Schemas
  import opened PlanGraph
  import opened CompileCheck

  /* ---- fallbacks ---- */

  /** The entry is there, and `text` is what it says. */
  predicate Says(fallback: map<string, string>, key: string, text: string) {
    key in fallback && text != "" && Strip(fallback[key]) == text
  }

  predicate Silent(fallback: map<string, string>, key: string) {
    key in fallback ==> Blank(fallback[key])
  }

  /** `on_failure` comes before `target`, and that before `fallback_to`. */
  predicate NamesFallback(fallback: map<string, string>, text: string) {
    || Says(fallback, "on_failure", text)
    || (Silent(fallback, "on_failure") && Says(fallback, "target", text))
    || (Silent(fallback, "on_failure") && Silent(fallback, "target") && Says(fallback, "fallback_to", text))
  }

  predicate NamesNone(fallback: map<string, string>) {
    Silent(fallback, "on_failure") && Silent(fallback, "target") && Silent(fallback, "fallback_to")
  }

  lemma {:induction false} TargetIs(fallback: map<string, string>, text: string)
    ensures NamesFallback(fallback, text) <==> text != "" && FallbackTarget(fallback) == text
    ensures NamesNone(fallback) <==> FallbackTarget(fallback) == ""
  {}

  /** A stored fallback that is a text names itself. */
  lemma {:induction false} FallbackTextNames(text: string, to: string)
    ensures NamesFallback(ParseFallback(Some(FallbackText(text))), to) <==> to != "" && Strip(text) == to
  {}

  /** The node at `k` has the id and names this fallback; no later one with the id names any. */
  predicate FallsBackAt(nodes: seq<Subgoal>, id: string, to: string, k: nat) {
    && k < |nodes| && nodes[k].id == id && NamesFallback(nodes[k].fallback, to)
    && forall j :: k < j < |nodes| && nodes[j].id == id ==> NamesNone(nodes[j].fallback)
  }

  predicate FallsBack(nodes: seq<Subgoal>, id: string, to: string) {
    exists k: nat :: k < |nodes| && FallsBackAt(nodes, id, to, k)
  }

  lemma {:induction false} NamesSome(fallback: map<string, string>, to: string)
    requires NamesFallback(fallback, to)
    ensures !NamesNone(fallback)
  {}

  lemma {:induction false} EdgeIs(nodes: seq<Subgoal>, id: string, to: string)
    ensures FallsBack(nodes, id, to) <==> id in FallbackEdges(nodes) && FallbackEdges(nodes)[id] == to
  {
    if nodes != [] {
      var n := |nodes| - 1;
      EdgeIs(nodes[..n], id, to);
      TargetIs(nodes[n].fallback, to);
      if nodes[n].id == id && !NamesNone(nodes[n].fallback) {
        LastFallsBack(nodes, id, to);
      } else {
        EarlierFallsBack(nodes, id, to);
      }
    }
  }

  lemma {:induction false} LastFallsBack(nodes: seq<Subgoal>, id: string, to: string)
    requires nodes != [] && nodes[|nodes| - 1].id == id && !NamesNone(nodes[|nodes| - 1].fallback)
    ensures FallsBack(nodes, id, to) <==> NamesFallback(nodes[|nodes| - 1].fallback, to)
  {
    if NamesFallback(nodes[|nodes| - 1].fallback, to) {
      assert FallsBackAt(nodes, id, to, |nodes| - 1);
    }
  }

  lemma {:induction false} EarlierFallsBack(nodes: seq<Subgoal>, id: string, to: string)
    requires nodes != [] && (nodes[|nodes| - 1].id != id || NamesNone(nodes[|nodes| - 1].fallback))
    ensures FallsBack(nodes, id, to) <==> FallsBack(nodes[..|nodes| - 1], id, to)
  {
    var n := |nodes| - 1;
    if k: nat :| k < n && FallsBackAt(nodes[..n], id, to, k) {
      StillFallsBack(nodes, id, to, k);
    }
    if k: nat :| k < |nodes| && FallsBackAt(nodes, id, to, k) {
      NamesSome(nodes[k].fallback, to);
      AlreadyFallsBack(nodes, id, to, k);
    }
  }

  lemma {:induction false} StillFallsBack(nodes: seq<Subgoal>, id: string, to: string, k: nat)
    requires nodes != [] && (nodes[|nodes| - 1].id != id || NamesNone(nodes[|nodes| - 1].fallback))
    requires FallsBackAt(nodes[..|nodes| - 1], id, to, k)
    ensures FallsBackAt(nodes, id, to, k)
  {}

  lemma {:induction false} AlreadyFallsBack(nodes: seq<Subgoal>, id: string, to: string, k: nat)
    requires FallsBackAt(nodes, id, to, k) && k < |nodes| - 1
    ensures FallsBackAt(nodes[..|nodes| - 1], id, to, k)
  {}

  /** The chain of fallbacks from `id` ends after at most `hops` hops. */
  ghost predicate Ends(nodes: seq<Subgoal>, id: string, hops: nat)
    decreases hops
  {
    || id == "" || (forall to :: !FallsBack(nodes, id, to))
    || (hops > 0 && forall to :: FallsBack(nodes, id, to) ==> Ends(nodes, to, hops - 1))
  }

  lemma {:induction false} NoFallback(nodes: seq<Subgoal>, id: string)
    requires id !in FallbackEdges(nodes)
    ensures forall to :: !FallsBack(nodes, id, to)
  {
    forall to ensures !FallsBack(nodes, id, to) { EdgeIs(nodes, id, to); }
  }

  lemma {:induction false} OneFallback(nodes: seq<Subgoal>, id: string)
    requires id in FallbackEdges(nodes)
    ensures forall to :: FallsBack(nodes, id, to) <==> to == FallbackEdges(nodes)[id]
  {
    forall to ensures FallsBack(nodes, id, to) <==> to == FallbackEdges(nodes)[id] { EdgeIs(nodes, id, to); }
  }

  lemma {:induction false} EndsAlong(nodes: seq<Subgoal>, id: string, to: string, hops: nat)
    requires id != "" && forall x :: FallsBack(nodes, id, x) <==> x == to
    ensures Ends(nodes, id, hops) <==> hops > 0 && Ends(nodes, to, hops - 1)
  {
    assert FallsBack(nodes, id, to);
  }

  lemma {:induction false} EndsIs(nodes: seq<Subgoal>, id: string, hops: nat)
    ensures Ends(nodes, id, hops) <==> EndsWithin(FallbackEdges(nodes), id, hops)
    decreases hops
  {
    var edges := FallbackEdges(nodes);
    if id != "" {
      if id !in edges {
        NoFallback(nodes, id);
      } else {
        OneFallback(nodes, id);
        EndsAlong(nodes, id, edges[id], hops);
        if hops > 0 { EndsIs(nodes, edges[id], hops - 1); }
      }
    }
  }

  ghost predicate EndsSometime(nodes: seq<Subgoal>, id: string) {
    exists hops: nat :: Ends(nodes, id, hops)
  }

  /* ---- the whole plan ---- */

  /** The node's tool is registered and has its inputs, there is a retry policy, its dependencies are nodes, and its
      conditions can be evaluated. */
  predicate Ready(s: Subgoal, nodes: seq<Subgoal>, tools: Tools) {
    && s.toolName in tools && s.retryPolicy.Some?
    && (forall key :: key in tools[s.toolName] && !Blank(key) ==> HasInput(s.inputs, key))
    && (forall d :: d in s.dependencies ==> exists k :: 0 <= k < |nodes| && nodes[k].id == d)
    && (forall c :: c in s.preconditions ==>
          c.op == "input_present" || c.op == "dependency_done" || c.op == "tool_available" || c.op == "env_flag")
    && (forall c :: c in s.successCriteria ==>
          c.op == "tool_output_contains" || c.op == "artifact_exists" || c.op == "field_equals"
          || c.op == "exit_code_is" || c.op == "predicate_ref")
  }

  ghost predicate Ranked(nodes: seq<Subgoal>) {
    exists rank: map<string, nat> :: RankedOn(GraphOf(nodes), Ids(nodes), rank)
  }

  lemma {:induction false} ReadyIff(s: Subgoal, nodes: seq<Subgoal>, tools: Tools)
    ensures Ready(s, nodes, tools) <==> forall code :: !NodeIssue(s, Ids(nodes), tools, code)
  {
    forall d ensures d in Ids(nodes) <==> exists k :: 0 <= k < |nodes| && nodes[k].id == d {}
    if Ready(s, nodes, tools) {
      forall code ensures !NodeIssue(s, Ids(nodes), tools, code) {}
    } else {
      assert NodeIssue(s, Ids(nodes), tools, ToolNotRegistered)
        || NodeIssue(s, Ids(nodes), tools, InputSchemaIncomplete)
        || NodeIssue(s, Ids(nodes), tools, RetryPolicyMissing)
        || NodeIssue(s, Ids(nodes), tools, DependencyNotFound)
        || NodeIssue(s, Ids(nodes), tools, PreconditionNotEvaluable)
        || NodeIssue(s, Ids(nodes), tools, SuccessCriteriaNotExecutable);
    }
  }

  /** A plan compiles exactly if every node is ready, the dependencies can be ordered, and every chain of fallbacks
      ends. */
  lemma {:induction false} CompilesIff(nodes: seq<Subgoal>, tools: Tools)
    ensures CompilesCleanly(nodes, tools) <==>
              && (forall s :: s in nodes ==> Ready(s, nodes, tools))
              && Ranked(nodes)
              && forall id :: EndsSometime(nodes, id)
  {
    if CompilesCleanly(nodes, tools) {
      CleanIsReady(nodes, tools);
    } else {
      var issue :| Flagged(nodes, tools, issue);
      FlaggedIsNot(nodes, tools, issue);
    }
  }

  lemma {:induction false} CleanIsReady(nodes: seq<Subgoal>, tools: Tools)
    requires CompilesCleanly(nodes, tools)
    ensures forall s :: s in nodes ==> Ready(s, nodes, tools)
    ensures Ranked(nodes)
    ensures forall id :: EndsSometime(nodes, id)
  {
    var rank := CleanPlanHasRank(nodes, tools);
    assert Ranked(nodes);
    forall s | s in nodes ensures Ready(s, nodes, tools) {
      forall code ensures !NodeIssue(s, Ids(nodes), tools, code) {
        assert !Flagged(nodes, tools, Issue(code, s.id));
      }
      ReadyIff(s, nodes, tools);
    }
    forall id ensures EndsSometime(nodes, id) {
      assert !Flagged(nodes, tools, Issue(FallbackSelfLoop, id));
      var hops: nat :| EndsWithin(FallbackEdges(nodes), id, hops);
      EndsIs(nodes, id, hops);
    }
  }

  lemma {:induction false} FlaggedIsNot(nodes: seq<Subgoal>, tools: Tools, issue: Issue)
    requires Flagged(nodes, tools, issue)
    ensures !(&& (forall s :: s in nodes ==> Ready(s, nodes, tools))
              && Ranked(nodes)
              && forall id :: EndsSometime(nodes, id))
  {
    match issue.code
    case DependencyCycle =>
      if Ranked(nodes) {
        var rank :| RankedOn(GraphOf(nodes), Ids(nodes), rank);
        GraphKeys(nodes);
        if issue.subgoalId in Ids(nodes) {
          RankedReachesNoCycle(GraphOf(nodes), Ids(nodes), rank, issue.subgoalId);
        } else {
          OutsideNoCycle(nodes, issue.subgoalId);
        }
      }
    case FallbackSelfLoop =>
      forall hops: nat ensures !Ends(nodes, issue.subgoalId, hops) {
        EndsIs(nodes, issue.subgoalId, hops);
      }
      assert !EndsSometime(nodes, issue.subgoalId);
    case _ =>
      var s :| s in nodes && s.id == issue.subgoalId && NodeIssue(s, Ids(nodes), tools, issue.code);
      ReadyIff(s, nodes, tools);
  }

  lemma {:induction false} OutsideNoCycle(nodes: seq<Subgoal>, id: string)
    requires id !in GraphOf(nodes)
    ensures !ReachesCycle(GraphOf(nodes), id)
  {}

  /** Of a node whose tool is not registered, neither missing inputs nor a missing policy are reported. */
  lemma {:induction false} UnregisteredAlone(nodes: seq<Subgoal>, tools: Tools, id: string)
    requires id in Ids(nodes) && forall s :: s in nodes && s.id == id ==> s.toolName !in tools
    ensures Flagged(nodes, tools, Issue(ToolNotRegistered, id))
    ensures !Flagged(nodes, tools, Issue(InputSchemaIncomplete, id))
    ensures !Flagged(nodes, tools, Issue(RetryPolicyMissing, id))
  {}
}
