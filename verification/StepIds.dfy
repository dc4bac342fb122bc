/** When a step keeps the ids of the plan distinct, without any assumption on the planner: every id that a step mints
    goes unchecked. */
module StepIds {
  import opened PyText
  import opened Schemas
  import opened CompileCheck
  import opened LocalReplan
  import opened FailureRouter
  import opened CircuitBreakers
  import opened KernelState
  import opened PlanBatches
  import opened TaskLives
  import opened StepObjects
  import opened MintedIds

  predicate UniqueIds(tasks: seq<Task>) {
    forall j, k :: 0 <= j < k < |tasks| ==> tasks[j].id != tasks[k].id
  }

  predicate SameIds(a: seq<Task>, b: seq<Task>) {
    |a| == |b| && forall k :: 0 <= k < |a| ==> a[k].id == b[k].id
  }

  lemma {:induction false} SameUnique(a: seq<Task>, b: seq<Task>)
    requires SameIds(a, b)
    ensures UniqueIds(a) <==> UniqueIds(b)
  {}

  lemma {:induction false} TaskIdsHave(tasks: seq<Task>, id: string)
    ensures id in TaskIds(tasks) <==> exists k :: 0 <= k < |tasks| && tasks[k].id == id
  {
    if tasks != [] {
      var n := |tasks| - 1;
      TaskIdsHave(tasks[..n], id);
      if k :| 0 <= k < |tasks| && tasks[k].id == id {
        if k < n { assert tasks[..n][k].id == id; }
      }
    }
  }

  /* ---- appended tasks ---- */

  predicate NewIds(tasks: seq<Task>, more: seq<Task>) {
    forall k :: 0 <= k < |more| ==> more[k].id !in TaskIds(tasks)
  }

  lemma {:induction false} NotShared(tasks: seq<Task>, more: seq<Task>, j: nat, k: nat)
    requires UniqueIds(tasks + more) && j < |tasks| && k < |more|
    ensures tasks[j].id != more[k].id
  {
    var all := tasks + more;
    assert all[j] == tasks[j] && all[|tasks| + k] == more[k];
  }

  lemma {:induction false} AppendedUnique(tasks: seq<Task>, more: seq<Task>)
    requires UniqueIds(tasks)
    ensures UniqueIds(tasks + more) <==> UniqueIds(more) && NewIds(tasks, more)
  {
    var all := tasks + more;
    if UniqueIds(all) {
      forall k | 0 <= k < |more| ensures more[k].id !in TaskIds(tasks) {
        TaskIdsHave(tasks, more[k].id);
        forall j | 0 <= j < |tasks| ensures tasks[j].id != more[k].id {
          NotShared(tasks, more, j, k);
        }
      }
      forall j, k | 0 <= j < k < |more| ensures more[j].id != more[k].id {
        assert all[|tasks| + j].id != all[|tasks| + k].id;
      }
    } else if UniqueIds(more) && NewIds(tasks, more) {
      var j, k :| 0 <= j < k < |all| && all[j].id == all[k].id;
      ApartAcross(tasks, more, j, k);
    }
  }

  lemma {:induction false} ApartAcross(tasks: seq<Task>, more: seq<Task>, j: nat, k: nat)
    requires UniqueIds(tasks) && UniqueIds(more) && NewIds(tasks, more) && j < k < |tasks| + |more|
    ensures (tasks + more)[j].id != (tasks + more)[k].id
  {
    if j < |tasks| <= k {
      TaskIdsHave(tasks, tasks[j].id);
    }
  }

  lemma {:induction false} BatchIdsAre(v: KState, specs: seq<Spec>, k: nat)
    requires k < |CompiledBatch(v, specs).subgoals|
    ensures |CompiledBatch(v, specs).subgoals| == |AssignIds(specs, TaskIds(v.tasks), SeqOf(v)).subgoals|
    ensures BatchTasks(CompiledBatch(v, specs).subgoals, v.nextObj)[k].id
            == AssignIds(specs, TaskIds(v.tasks), SeqOf(v)).subgoals[k].id
  {
    var b := AssignIds(specs, TaskIds(v.tasks), SeqOf(v));
    BatchTasksAt(CompiledBatch(v, specs).subgoals, v.nextObj, k);
    RemappedAt(b.subgoals, b.idMap, b.usedIds, k);
  }

  /** A batch keeps the ids distinct exactly if its minted ids are free when they are minted. */
  lemma {:induction false} BatchUniqueIff(v: KState, specs: seq<Spec>)
    requires UniqueIds(v.tasks)
    ensures UniqueIds(v.tasks + BatchTasks(CompiledBatch(v, specs).subgoals, v.nextObj))
            <==> MintsAreFree(specs, TaskIds(v.tasks), SeqOf(v))
  {
    var sgs := AssignIds(specs, TaskIds(v.tasks), SeqOf(v)).subgoals;
    var more := BatchTasks(CompiledBatch(v, specs).subgoals, v.nextObj);
    forall k | 0 <= k < |more| ensures |more| == |sgs| && more[k].id == sgs[k].id {
      BatchIdsAre(v, specs, k);
    }
    AppendedUnique(v.tasks, more);
    BatchIdsFreshIff(specs, TaskIds(v.tasks), SeqOf(v));
    assert UniqueIds(more) <==> DistinctIds(sgs);
  }

  lemma {:induction false} LooseIdsAre(specs: seq<TaskSpec>, seqNo: nat, obj: nat, k: nat)
    requires k < |LooseTasks(specs, seqNo, obj)|
    ensures LooseTasks(specs, seqNo, obj)[k].id == MintedId(seqNo + k)
  {
    var n := |specs| - 1;
    var rest := LooseTasks(specs[..n], seqNo, obj);
    if k < |rest| {
      LooseIdsAre(specs[..n], seqNo, obj, k);
    }
  }

  /** None of the next `n` minted ids is in use. */
  predicate MintsUnused(tasks: seq<Task>, seqNo: nat, n: nat) {
    forall m: nat :: seqNo <= m < seqNo + n ==> MintedId(m) !in TaskIds(tasks)
  }

  lemma {:induction false} MintedApart(more: seq<Task>, seqNo: nat)
    requires forall k :: 0 <= k < |more| ==> more[k].id == MintedId(seqNo + k)
    ensures UniqueIds(more)
  {
    forall j, k | 0 <= j < k < |more| ensures more[j].id != more[k].id {
      if MintedId(seqNo + j) == MintedId(seqNo + k) { MintedIdInjective(seqNo + j, seqNo + k); }
    }
  }

  lemma {:induction false} MintedNew(tasks: seq<Task>, more: seq<Task>, seqNo: nat)
    requires forall k :: 0 <= k < |more| ==> more[k].id == MintedId(seqNo + k)
    ensures NewIds(tasks, more) <==> MintsUnused(tasks, seqNo, |more|)
  {
    if NewIds(tasks, more) {
      forall m: nat | seqNo <= m < seqNo + |more| ensures MintedId(m) !in TaskIds(tasks) {
        assert more[m - seqNo].id == MintedId(m);
      }
    }
  }

  /** So do loose tasks, exactly if none of the minted ids is in use. */
  lemma {:induction false} LooseUniqueIff(tasks: seq<Task>, specs: seq<TaskSpec>, seqNo: nat, obj: nat)
    requires UniqueIds(tasks)
    ensures UniqueIds(tasks + LooseTasks(specs, seqNo, obj))
            <==> MintsUnused(tasks, seqNo, |LooseTasks(specs, seqNo, obj)|)
  {
    var more := LooseTasks(specs, seqNo, obj);
    forall k | 0 <= k < |more| ensures more[k].id == MintedId(seqNo + k) {
      LooseIdsAre(specs, seqNo, obj, k);
    }
    MintedApart(more, seqNo);
    MintedNew(tasks, more, seqNo);
    AppendedUnique(tasks, more);
  }

  /* ---- replans ---- */

  /** The replacement's id is not in use, except perhaps by a task that the replan drops. */
  ghost predicate ReplanMintIsFree(tasks: seq<Task>, i: nat, id: string)
    requires i < |tasks|
  {
    forall k :: 0 <= k < |tasks| && tasks[k].id == id ==> Dropped(Nodes(tasks), tasks[i].id, id)
  }

  lemma {:induction false} SurvivorIds(tasks: seq<Task>, failedId: string)
    requires UniqueIds(tasks)
    ensures DistinctIds(Survivors(Nodes(tasks), failedId, Nodes(tasks)))
  {
    var nodes := Nodes(tasks);
    var at := Positions(nodes, failedId, nodes);
    SurvivorsAt(nodes, failedId, nodes);
    PositionsOrdered(nodes, failedId, nodes);
    var kept := Survivors(nodes, failedId, nodes);
    forall j, k | 0 <= j < k < |kept| ensures kept[j].id != kept[k].id {
      assert at[j] < at[k] < |tasks|;
      assert kept[j] == FromTask(tasks[at[j]]) && kept[k] == FromTask(tasks[at[k]]);
    }
  }

  lemma {:induction false} SurvivorHas(tasks: seq<Task>, failedId: string, id: string)
    ensures (exists s :: s in Survivors(Nodes(tasks), failedId, Nodes(tasks)) && s.id == id)
            <==> exists k :: 0 <= k < |tasks| && tasks[k].id == id && !Dropped(Nodes(tasks), failedId, id)
  {
    var nodes := Nodes(tasks);
    var at := Positions(nodes, failedId, nodes);
    var kept := Survivors(nodes, failedId, nodes);
    SurvivorsAt(nodes, failedId, nodes);
    if s :| s in kept && s.id == id {
      var q :| 0 <= q < |kept| && kept[q] == s;
      assert at[q] in at;
      PositionIff(nodes, failedId, nodes, at[q]);
      assert tasks[at[q]].id == id;
    }
    if k :| 0 <= k < |tasks| && tasks[k].id == id && !Dropped(nodes, failedId, id) {
      PositionIff(nodes, failedId, nodes, k);
      var q :| 0 <= q < |at| && at[q] == k;
      assert kept[q].id == id && kept[q] in kept;
    }
  }

  lemma {:induction false} SnocDistinctIds(nodes: seq<Subgoal>, s: Subgoal)
    requires DistinctIds(nodes)
    ensures DistinctIds(nodes + [s]) <==> forall x :: x in nodes ==> x.id != s.id
  {
    var all := nodes + [s];
    if DistinctIds(all) {
      forall x | x in nodes ensures x.id != s.id {
        var k :| 0 <= k < |nodes| && nodes[k] == x;
        assert all[k] == x && all[|nodes|] == s;
      }
    }
  }

  lemma {:induction false} MaterialisedIds(merged: seq<Subgoal>, tasks: seq<Task>, obj: nat)
    ensures var r := MaterialisedAll(merged, tasks, obj);
            |r| == |merged| && forall k :: 0 <= k < |r| ==> r[k].id == merged[k].id
  {}

  /** A replan keeps the ids distinct exactly if the replacement's id is free. */
  lemma {:induction false} ReplanUniqueIff(s: KState, i: nat, constrained: bool, canDelegate: bool)
    requires UniqueIds(s.tasks) && i < |s.tasks|
    ensures UniqueIds(ReplannedTasks(s, i, constrained, canDelegate))
            <==> ReplanMintIsFree(s.tasks, i, MintedId(SeqOf(s)))
  {
    var nodes, failedId, id := Nodes(s.tasks), s.tasks[i].id, MintedId(SeqOf(s));
    var r := Replacement(s, s.tasks[i], constrained, canDelegate);
    var kept := Survivors(nodes, failedId, nodes);
    var merged := Replanned(nodes, failedId, r);
    MaterialisedIds(merged, s.tasks, s.nextObj);
    SurvivorIds(s.tasks, failedId);
    SnocDistinctIds(kept, r.(state := DRAFT));
    SurvivorHas(s.tasks, failedId, id);
    var after := ReplannedTasks(s, i, constrained, canDelegate);
    assert UniqueIds(after) <==> DistinctIds(merged);
    assert DistinctIds(merged) <==> forall x :: x in kept ==> x.id != id;
  }

  /** The replan of the task at `i` breaks the circuit, or mints an id that is free. */
  ghost predicate ReplanIsFree(v: KState, i: nat, env: Env)
    requires i < |v.tasks|
  {
    ReplanLoops(v, i, env) || ReplanMintIsFree(WithStatus(v, i, FailedRetryable).tasks, i, MintedId(SeqOf(v)))
  }

  /** The state is `v` with the task at `i` failed, as far as a replan looks at it. */
  predicate FailedView(v: KState, w: KState, i: nat)
    requires i < |v.tasks|
  {
    && w.tasks == WithStatus(v, i, FailedRetryable).tasks && SeqOf(w) == SeqOf(v)
    && w.breaker.actionStreaks == v.breaker.actionStreaks
  }

  lemma {:induction false} LoopsAlike(v: KState, w: KState, i: nat, env: Env)
    requires i < |v.tasks| && FailedView(v, w, i)
    ensures ReplanLoops(w, i, env) <==> ReplanLoops(v, i, env)
  {}

  lemma {:induction false} BrokenSameIds(w: KState, i: nat, constrained: bool, env: Env)
    requires i < |w.tasks| && ReplanLoops(w, i, env)
    ensures SameIds(w.tasks, AfterReplan(w, i, constrained, env).tasks)
  {}

  lemma {:induction false} RewrittenTasks(w: KState, i: nat, constrained: bool, env: Env)
    requires i < |w.tasks| && !ReplanLoops(w, i, env)
    ensures AfterReplan(w, i, constrained, env).tasks == ReplannedTasks(w, i, constrained, env.canDelegate)
  {}

  lemma {:induction false} AfterReplanUniqueIff(v: KState, w: KState, i: nat, constrained: bool, env: Env)
    requires i < |v.tasks| && UniqueIds(v.tasks) && FailedView(v, w, i)
    ensures UniqueIds(AfterReplan(w, i, constrained, env).tasks) <==> ReplanIsFree(v, i, env)
  {
    SameUnique(v.tasks, w.tasks);
    LoopsAlike(v, w, i, env);
    if ReplanLoops(v, i, env) {
      BrokenSameIds(w, i, constrained, env);
      SameUnique(w.tasks, AfterReplan(w, i, constrained, env).tasks);
    } else {
      RewrittenTasks(w, i, constrained, env);
      ReplanUniqueIff(w, i, constrained, env.canDelegate);
    }
  }

  /** The state is `v`, as far as a replan looks at it. */
  predicate ReplanView(v: KState, u: KState) {
    u.tasks == v.tasks && SeqOf(u) == SeqOf(v) && u.breaker.actionStreaks == v.breaker.actionStreaks
  }

  lemma {:induction false} CompileFailedUniqueIff(v: KState, u: KState, i: nat, env: Env)
    requires i < |v.tasks| && UniqueIds(v.tasks) && ReplanView(v, u)
    ensures UniqueIds(CompileFailedRoute(u, i, env).tasks) <==> ReplanIsFree(v, i, env)
  {
    var f := WithStatus(u, i, FailedRetryable).(lastError := "planner_compile_failed");
    AfterReplanUniqueIff(v, Log(f, PlannerCompileFailedRoute(u.tasks[i].id)), i, true, env);
  }

  /* ---- failures ---- */

  predicate Replans(d: Decision) {
    !IsRetryable(d) && d.action in {RouteAction.LocalReplan, LocalReplanWithConstraints}
  }

  /** Other transitions leave all ids alone. */
  lemma {:induction false} TransitionSameIds(c: KState, i: nat, d: Decision, env: Env)
    requires i < |c.tasks| && !Replans(d)
    ensures SameIds(c.tasks, Transition(c, i, d, env).tasks)
  {}

  lemma {:induction false} TransitionReplans(c: KState, i: nat, d: Decision, env: Env)
    requires i < |c.tasks| && Replans(d)
    ensures Transition(c, i, d, env) == ReplanRoute(c, i, d.action, env)
  {}

  lemma {:induction false} ReplanRouteUniqueIff(v: KState, c: KState, i: nat, action: RouteAction, env: Env)
    requires i < |v.tasks| && UniqueIds(v.tasks) && ReplanView(v, c)
    ensures UniqueIds(ReplanRoute(c, i, action, env).tasks) <==> ReplanIsFree(v, i, env)
  {
    var w := Log(WithStatus(c, i, FailedRetryable), FailureFallback(c.tasks[i].id, action));
    AfterReplanUniqueIff(v, w, i, action == LocalReplanWithConstraints, env);
  }

  lemma {:induction false} TransitionUniqueIff(v: KState, c: KState, i: nat, d: Decision, env: Env)
    requires i < |v.tasks| && UniqueIds(v.tasks) && ReplanView(v, c)
    ensures UniqueIds(Transition(c, i, d, env).tasks) <==> (Replans(d) ==> ReplanIsFree(v, i, env))
  {
    if Replans(d) {
      TransitionReplans(c, i, d, env);
      ReplanRouteUniqueIff(v, c, i, d.action, env);
    } else {
      TransitionSameIds(c, i, d, env);
      SameUnique(c.tasks, Transition(c, i, d, env).tasks);
    }
  }

  lemma {:induction false} StagnationSameIds(s: KState, obj: nat, stalled: bool)
    ensures SameIds(s.tasks, StagnationChecked(s, obj, stalled).tasks)
  {}

  /** The failure is counted and breaks no circuit. */
  predicate Goes(v: KState, i: nat, d: Decision)
    requires i < |v.tasks|
  {
    Counter(Bump(v.breaker.errorStreaks, v.tasks[i].id, d.fingerprint), v.tasks[i].id, d.fingerprint) < SAME_ERROR_LIMIT
  }

  lemma {:induction false} RouteFailureUniqueIff(v: KState, i: nat, codes: set<Code>, env: Env)
    requires i < |v.tasks| && UniqueIds(v.tasks)
    ensures var d := DecisionFor(v, codes, env);
            UniqueIds(RouteFailure(v, i, codes, env).tasks)
            <==> (Goes(v, i, d) && Replans(d) ==> ReplanIsFree(v, i, env))
  {
    var d := DecisionFor(v, codes, env);
    var c := FailureCounted(v, v.tasks[i].id, d, env);
    if Goes(v, i, d) {
      TransitionUniqueIff(v, c, i, d, env);
      var t := Transition(c, i, d, env);
      StagnationSameIds(t, v.tasks[i].obj, env.secondsStalled);
      SameUnique(t.tasks, StagnationChecked(t, v.tasks[i].obj, env.secondsStalled).tasks);
    } else {
      SameUnique(v.tasks, Log(GiveUp(c, i), CircuitBroken).tasks);
    }
  }

  /* ---- the step ---- */

  /** Every id that the planner's reply makes the kernel mint is free. */
  ghost predicate PlanMintsFree(v: KState, i: nat, env: Env)
    requires i < |v.tasks|
  {
    if NonBlank(env.reply.planIssues) != [] || AppendSubgoals(v, env.reply.subgoals, env.tools).rejected then
      ReplanIsFree(v, i, env)
    else if AppendSubgoals(v, env.reply.subgoals, env.tools).added > 0 then
      MintsAreFree(env.reply.subgoals, TaskIds(v.tasks), SeqOf(v))
    else MintsUnused(v.tasks, SeqOf(v), |LooseTasks(env.reply.tasks, SeqOf(v), v.nextObj)|)
  }

  /** Every id that follows from the worker's reply is free. */
  ghost predicate MintsFree(v: KState, i: nat, codes: set<Code>, env: Env)
    requires i < |v.tasks|
  {
    var plans := IsPlanGoal(v.tasks[i].kind);
    var d := DecisionFor(v, codes, env);
    if plans && env.reply.ok then PlanMintsFree(v, i, env)
    else if Routed(v, i, env) then Goes(v, i, d) && Replans(d) ==> ReplanIsFree(v, i, env)
    else !env.reply.ok ==> ReplanIsFree(v, i, env)
  }

  lemma {:induction false} RejectedUniqueIff(v: KState, i: nat, env: Env)
    requires i < |v.tasks| && UniqueIds(v.tasks)
    ensures UniqueIds(Rejected(v, i, env).tasks) <==> ReplanIsFree(v, i, env)
  {
    var l := Log(v, PlannerCompileFailed(v.tasks[i].id));
    CompileFailedUniqueIff(v, l, i, env);
  }

  lemma {:induction false} SubgoalsUniqueIff(v: KState, i: nat, env: Env)
    requires i < |v.tasks| && UniqueIds(v.tasks) && AppendSubgoals(v, env.reply.subgoals, env.tools).added > 0
    ensures var a := AppendSubgoals(v, env.reply.subgoals, env.tools).state;
            i < |a.tasks| && (UniqueIds(PlanDone(a, i).tasks)
                              <==> MintsAreFree(env.reply.subgoals, TaskIds(v.tasks), SeqOf(v)))
  {
    var a := AppendSubgoals(v, env.reply.subgoals, env.tools).state;
    BatchUniqueIff(v, env.reply.subgoals);
    SameUnique(a.tasks, PlanDone(a, i).tasks);
  }

  lemma {:induction false} TasksUniqueIff(v: KState, i: nat, env: Env)
    requires i < |v.tasks| && UniqueIds(v.tasks)
    ensures var b := AppendTasks(v, env.reply.tasks).state;
            var free := MintsUnused(v.tasks, SeqOf(v), |LooseTasks(env.reply.tasks, SeqOf(v), v.nextObj)|);
            i < |b.tasks| && (UniqueIds(b.tasks) <==> free) && (UniqueIds(PlanDone(b, i).tasks) <==> free)
  {
    var b := AppendTasks(v, env.reply.tasks).state;
    LooseUniqueIff(v.tasks, env.reply.tasks, SeqOf(v), v.nextObj);
    assert v.tasks + [] == v.tasks;
    SameUnique(b.tasks, PlanDone(b, i).tasks);
  }

  lemma {:induction false} PlanReplyUniqueIff(v: KState, i: nat, env: Env)
    requires i < |v.tasks| && UniqueIds(v.tasks)
    ensures UniqueIds(PlanReply(v, i, env).state.tasks) <==> PlanMintsFree(v, i, env)
  {
    if NonBlank(env.reply.planIssues) != [] || AppendSubgoals(v, env.reply.subgoals, env.tools).rejected {
      RejectedUniqueIff(v, i, env);
    } else if AppendSubgoals(v, env.reply.subgoals, env.tools).added > 0 {
      SubgoalsUniqueIff(v, i, env);
    } else {
      TasksUniqueIff(v, i, env);
    }
  }

  lemma {:induction false} ResolveUniqueIff(v: KState, i: nat, codes: set<Code>, env: Env)
    requires i < |v.tasks| && UniqueIds(v.tasks)
    ensures UniqueIds(Resolve(v, i, codes, env).state.tasks) <==> MintsFree(v, i, codes, env)
  {
    if IsPlanGoal(v.tasks[i].kind) && env.reply.ok {
      PlanReplyUniqueIff(v, i, env);
    } else if Routed(v, i, env) {
      RouteFailureUniqueIff(v, i, codes, env);
    } else if env.reply.ok {
      SameUnique(v.tasks, Passed(v, i).tasks);
    } else {
      CompileFailedUniqueIff(v, v, i, env);
    }
  }

  lemma {:induction false} PlannedUnique(s: KState, planner: Planner)
    requires UniqueIds(s.tasks)
    ensures UniqueIds(Planned(s, planner).tasks)
  {}

  lemma {:induction false} CheckedUnique(p: KState, tools: Tools)
    requires UniqueIds(p.tasks)
    ensures UniqueIds(Checked(p, tools).tasks)
  {
    SameUnique(p.tasks, Checked(p, tools).tasks);
  }

  lemma {:induction false} CallSameIds(s: KState, env: Env, planner: Planner)
    requires Calls(s, env, planner)
    ensures SameIds(Checked(Planned(s, planner), env.tools).tasks, AtCall(s, env, planner).tasks)
  {
    CallFrame(s, env, planner);
  }

  lemma {:induction false} PreparedUnique(s: KState, env: Env, planner: Planner)
    requires UniqueIds(s.tasks)
    ensures UniqueIds(Planned(s, planner).tasks) && UniqueIds(Checked(Planned(s, planner), env.tools).tasks)
    ensures Calls(s, env, planner) ==> UniqueIds(AtCall(s, env, planner).tasks)
  {
    PlannedUnique(s, planner);
    CheckedUnique(Planned(s, planner), env.tools);
    if Calls(s, env, planner) {
      CallSameIds(s, env, planner);
      SameUnique(Checked(Planned(s, planner), env.tools).tasks, AtCall(s, env, planner).tasks);
    }
  }

  /** A step keeps the ids of the plan distinct exactly if it calls no worker, or every id that it mints because of the
      reply is free: for a batch, for loose tasks and for the replacement of a failed task. */
  lemma {:induction false} StepIdsIff(s: KState, env: Env, planner: Planner)
    requires UniqueIds(s.tasks)
    ensures UniqueIds(Step(s, env, planner).state.tasks) <==>
              (Calls(s, env, planner) ==>
                 MintsFree(AtCall(s, env, planner), Called(s, env, planner), CallCodes(s, env, planner), env))
  {
    PreparedUnique(s, env, planner);
    if Calls(s, env, planner) {
      StepIsResolve(s, env, planner);
      ResolveUniqueIff(AtCall(s, env, planner), Called(s, env, planner), CallCodes(s, env, planner), env);
    } else {
      StepIsQuiet(s, env, planner);
    }
  }
}
