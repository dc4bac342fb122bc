/** The one way into the scheduler's last resort: a step that raises leaves its task running. */
module Stranded {
  import opened PyText
  import opened Schemas
  import opened CompileCheck
  import opened KernelState
  import opened PlanSteps
  import opened StepObjects
  import opened Runs
  import opened Progress

  /** A planning task without dependencies, conditions or fallback. */
  predicate LonePlan(t: Task) {
    && t.kind == "plan_goal"
    && t.payload.dependencies.None? && t.payload.preconditions.None? && t.payload.successCriteria.None?
    && t.payload.fallback.None?
  }

  predicate PlansFreely(tools: Tools) {
    "plan_goal" in tools && NonBlank(tools["plan_goal"]) == []
  }

  /** A worker that reports success with no plan. */
  predicate RepliesEmpty(env: Env) {
    PlansFreely(env.tools) && env.reply.ok && NonBlank(env.reply.planIssues) == [] && EmptyPlan(env.reply)
  }

  /** A node that has nothing the compile check could object to. */
  predicate Bare(sg: Subgoal, tools: Tools) {
    && sg.toolName in tools && NonBlank(tools[sg.toolName]) == []
    && sg.dependencies == [] && sg.preconditions == [] && sg.successCriteria == [] && sg.fallback == map[]
    && sg.retryPolicy.Some?
  }

  predicate AllBare(sgs: seq<Subgoal>, tools: Tools) {
    forall k :: 0 <= k < |sgs| ==> Bare(sgs[k], tools)
  }

  lemma {:induction false} BareGraph(sgs: seq<Subgoal>, tools: Tools)
    requires AllBare(sgs, tools)
    ensures (forall a :: a in GraphOf(sgs) ==> GraphOf(sgs)[a] == []) && FallbackEdges(sgs) == map[]
  {
    if sgs != [] {
      var n := |sgs| - 1;
      BareGraph(sgs[..n], tools);
      assert Bare(sgs[n], tools);
    }
  }

  lemma {:induction false} BareNode(sg: Subgoal, known: set<string>, tools: Tools, code: Code)
    requires Bare(sg, tools)
    ensures !NodeIssue(sg, known, tools, code)
  {}

  lemma {:induction false} BareCompiles(sgs: seq<Subgoal>, tools: Tools)
    requires AllBare(sgs, tools)
    ensures CompilesCleanly(sgs, tools)
  {
    BareGraph(sgs, tools);
    NoEdgesAcyclic(GraphOf(sgs));
    forall s, code | s in sgs ensures !NodeIssue(s, Ids(sgs), tools, code) {
      BareNode(s, Ids(sgs), tools, code);
    }
    forall issue ensures !Flagged(sgs, tools, issue) {
      if issue.code == FallbackSelfLoop { assert EndsWithin(FallbackEdges(sgs), issue.subgoalId, 0); }
    }
  }

  lemma {:induction false} LonePlanBare(t: Task, tools: Tools)
    requires LonePlan(t) && PlansFreely(tools)
    ensures Nodes([t]) == [FromTask(t)] && Bare(FromTask(t), tools)
  {}

  lemma {:induction false} LonePlanClean(t: Task, tools: Tools)
    requires LonePlan(t) && PlansFreely(tools)
    ensures CodesFor(Nodes([t]), tools, t.id) == {}
  {
    LonePlanBare(t, tools);
    BareCompiles(Nodes([t]), tools);
  }

  lemma {:induction false} LoneChecked(p: KState, t: Task, tools: Tools)
    requires p.tasks == [t] && LonePlan(t) && PlansFreely(tools)
    ensures Checked(p, tools).tasks == [t.(status := MarkedStatus(t.status, false))]
  {
    LonePlanClean(t, tools);
  }

  lemma {:induction false} LonePick(t: Task)
    requires t.payload.dependencies.None?
    ensures Pick([t]) == if t.status in {Done, Skipped, Failed, Blocked, Running} then None else Some(0)
  {}

  /** The first step of a run hands the planning task to the worker. */
  lemma {:induction false} FirstReady(s: KState, env: Env)
    requires Fresh(s) && s.status == Active && s.used < s.max && PlansFreely(env.tools)
    ensures Calls(s, env, GoalPlanner) && Called(s, env, GoalPlanner) == 0
    ensures var v := AtCall(s, env, GoalPlanner);
            && |v.tasks| == 1 && LonePlan(v.tasks[0]) && v.tasks[0].status == Running && v.status == Active
            && v.tasks[0].id == MintedId(s.nextSeq) && v.nextSeq == s.nextSeq + 1
  {
    var p := Planned(s, GoalPlanner);
    var t := p.tasks[0];
    assert p.tasks == [t];
    LoneChecked(p, t, env.tools);
    LonePick(t.(status := Ready));
    CallFrame(s, env, GoalPlanner);
  }

  lemma {:induction false} PlanGoalPlans()
    ensures IsPlanGoal("plan_goal")
  {
    assert Lower(Strip("plan_goal")) == "plan_goal";
  }

  lemma {:induction false} FirstCall(s: KState, env: Env)
    requires Fresh(s) && s.status == Active && s.used < s.max && RepliesEmpty(env)
    ensures Calls(s, env, GoalPlanner) && Step(s, env, GoalPlanner).raised
    ensures var v := Step(s, env, GoalPlanner).state;
            |v.tasks| == 1 && LonePlan(v.tasks[0]) && v.tasks[0].status == Running && v.status == Active
  {
    FirstReady(s, env);
    PlanGoalPlans();
    StepRaisesIff(s, env, GoalPlanner);
    RaisedState(s, env, GoalPlanner);
  }

  lemma {:induction false} LastResort(v: KState, env: Env)
    requires |v.tasks| == 1 && LonePlan(v.tasks[0]) && v.tasks[0].status == Running && v.status == Active
    requires v.used < v.max && PlansFreely(env.tools)
    ensures var o := Step(v, env, GoalPlanner);
            !o.raised && o.state.status == Aborted && Unexplained(o.state.tasks) && o.state.tasks == v.tasks
  {
    var p := Planned(v, GoalPlanner);
    LoneChecked(p, v.tasks[0], env.tools);
    LonePick(v.tasks[0]);
    IdleAborts(Checked(p, env.tools));
  }

  lemma {:induction false} IdleAborts(c: KState)
    requires |c.tasks| == 1 && c.tasks[0].status == Running
    ensures Idle(c).status == Aborted && Idle(c).tasks == c.tasks && Unexplained(c.tasks)
  {}

  /** A first step whose worker reports success with no plan raises and strands its task: the next step aborts the
      run for no reason the plan shows. */
  lemma {:induction false} EmptyPlanStrandsRun(s: KState, env: Env)
    requires Fresh(s) && s.status == Active && s.used + 1 < s.max && RepliesEmpty(env)
    ensures var first := Step(s, env, GoalPlanner);
            var second := Step(first.state, env, GoalPlanner);
            && first.raised && SomeRunning(first.state.tasks)
            && !second.raised && second.state.status == Aborted && Unexplained(second.state.tasks)
  {
    FirstCall(s, env);
    StepBudget(s, env, GoalPlanner);
    LastResort(Step(s, env, GoalPlanner).state, env);
  }
}
