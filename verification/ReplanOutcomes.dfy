/** What a replan leaves: which tasks stay, and what the new task is. */
module ReplanOutcomes {
  import opened Basics
  import opened PyText
  import opened Schemas
  import opened LocalReplan
  import opened CircuitBreakers
  import opened KernelState
  import opened PlanInvariant
  import opened PlanSteps

  /* ---- the new task ---- */

  /** The new task asks the planner again: it carries the run's goal, and points to the failed task. */
  predicate AsksPlanner(n: Task, failed: Task, goal: string, constrained: bool) {
    && IsPlanGoal(n.kind)
    && n.description == "Replan failed node " + failed.id + (if constrained then " with stricter constraints" else "")
    && n.payload.extras == map["goal" := goal] && n.payload.supervisorSource == Some(failed.id)
    && n.payload.dependencies.None? && n.payload.preconditions.None? && n.payload.successCriteria.None?
    && n.payload.fallback.None?
  }

  /** The new task tries the failed one's work again, without the key that forces a failure and with an instruction. */
  ghost predicate TriesAgain(n: Task, failed: Task) {
    && n.kind == (if failed.kind == "" then "code_task" else failed.kind)
    && n.description == "Fallback execution for " + failed.id
    && n.payload.dependencies == failed.payload.dependencies && n.payload.preconditions == failed.payload.preconditions
    && n.payload.successCriteria == failed.payload.successCriteria && n.payload.fallback == failed.payload.fallback
    && n.payload.supervisorSource == failed.payload.supervisorSource
    && (forall key :: key in n.payload.extras <==>
                      key == "instruction" || (key in failed.payload.extras && key != "force_fail"))
    && (forall key :: key in failed.payload.extras && key in n.payload.extras ==>
                      n.payload.extras[key] == failed.payload.extras[key])
    && ("instruction" !in failed.payload.extras ==> n.payload.extras["instruction"] == "fallback_retry")
  }

  /** A draft with the failed task's retry policy, unused attempts and a new identity, that replaces it. */
  ghost predicate Replaces(n: Task, failed: Task, goal: string, constrained: bool, canDelegate: bool) {
    && n.status == Draft && n.retries == 0 && n.priority == 30
    && n.payload.retryPolicy == Some(Policy(failed)) && Policy(n) == Policy(failed)
    && if canDelegate then AsksPlanner(n, failed, goal, constrained) else TriesAgain(n, failed)
  }

  lemma {:induction false} PlannerKind()
    ensures IsPlanGoal("plan_goal")
  {}

  lemma {:induction false} NewTaskReplaces(s: KState, i: nat, constrained: bool, canDelegate: bool)
    requires i < |s.tasks|
    ensures var n := NewTask(s, i, constrained, canDelegate);
            && Replaces(n, s.tasks[i], s.goal, constrained, canDelegate)
            && n.id == MintedId(SeqOf(s)) && n.obj == s.nextObj
  {
    NewTaskView(s, i, constrained, canDelegate);
    PlannerKind();
  }

  /* ---- the tasks that stay ---- */

  /** A task that stays, with its retry policy spelled out. */
  function Spelled(t: Task): Task {
    t.(payload := t.payload.(retryPolicy := Some(Policy(t))))
  }

  /** What a task that stays becomes, whatever its status: statuses that no subgoal has are replaced. */
  lemma {:induction false} SyncedIs(t: Task)
    ensures Synced(t, FromTask(t)) == Spelled(t).(status := match t.status
              case Pending => Draft
              case Unlisted(_) => Draft
              case WaitingUser => Blocked
              case FailedFatal => Failed
              case other => other)
  {}

  /** The task at `j` is downstream of the failed one, and not finished. */
  ghost predicate Falls(before: seq<Task>, i: nat, j: nat)
    requires i < |before| && j < |before|
  {
    Descends(Nodes(before), before[i].id, before[j].id) && before[j].id !in FinishedIds(Nodes(before))
  }

  /** The tasks at increasing positions `at` stay: all that do not fall. */
  ghost predicate StaysAt(before: seq<Task>, i: nat, kept: seq<Task>, at: seq<nat>)
    requires i < |before|
  {
    && Increasing(at) && |kept| == |at|
    && (forall j: nat :: j in at <==> j < |before| && !Falls(before, i, j))
    && (forall k :: 0 <= k < |at| ==> at[k] < |before| && kept[k] == Spelled(before[at[k]]))
  }

  ghost predicate Stays(before: seq<Task>, i: nat, kept: seq<Task>)
    requires i < |before|
  {
    exists at: seq<nat> :: StaysAt(before, i, kept, at)
  }

  lemma {:induction false} KeptSpelled(s: KState, i: nat, kept: seq<Task>, k: nat)
    requires MayRun(s, i) && KeptOf(s.tasks, i, kept) && k < |kept|
    ensures Staying(s.tasks, i)[k] < |s.tasks| && kept[k] == Spelled(s.tasks[Staying(s.tasks, i)[k]])
  {
    var j := Staying(s.tasks, i)[k];
    assert GoodTask(s.tasks[j], s.nextSeq, s.nextObj);
    ResyncedView(s.tasks[j]);
  }

  lemma {:induction false} KeptStays(s: KState, i: nat, kept: seq<Task>)
    requires MayRun(s, i) && KeptOf(s.tasks, i, kept)
    ensures Stays(s.tasks, i, kept)
  {
    var at := Staying(s.tasks, i);
    PositionsOrdered(Nodes(s.tasks), s.tasks[i].id, Nodes(s.tasks));
    forall j: nat ensures j in at <==> j < |s.tasks| && !Falls(s.tasks, i, j) {
      StayingIff(s.tasks, i, j);
    }
    forall k | 0 <= k < |at| ensures at[k] < |s.tasks| && kept[k] == Spelled(s.tasks[at[k]]) {
      KeptSpelled(s, i, kept, k);
    }
    assert StaysAt(s.tasks, i, kept, at);
  }

  /** The plan `after` is the tasks that stay and one new task that replaces the failed one. */
  ghost predicate Replan(before: seq<Task>, i: nat, after: seq<Task>, goal: string, constrained: bool,
                         canDelegate: bool)
    requires i < |before|
  {
    && after != [] && Stays(before, i, after[..|after| - 1])
    && Replaces(after[|after| - 1], before[i], goal, constrained, canDelegate)
  }

  lemma {:induction false} ReplannedIs(s: KState, i: nat, constrained: bool, canDelegate: bool)
    requires MayRun(s, i)
    ensures var after := ReplannedTasks(s, i, constrained, canDelegate);
            && Replan(s.tasks, i, after, s.goal, constrained, canDelegate)
            && after[|after| - 1].id == MintedId(SeqOf(s)) && after[|after| - 1].obj == s.nextObj
  {
    var after := ReplannedTasks(s, i, constrained, canDelegate);
    FreshId(s);
    ReplannedShape(s, i, constrained, canDelegate);
    KeptStays(s, i, after[..|after| - 1]);
    NewTaskReplaces(s, i, constrained, canDelegate);
  }

  /* ---- the replan as a whole ---- */

  /** The same replacement was tried twice in a row already. */
  predicate Loops(s: KState, failed: Task, env: Env) {
    var key := if failed.payload.supervisorSource.Some? && failed.payload.supervisorSource.value != ""
               then failed.payload.supervisorSource.value else failed.id;
    Counter(s.breaker.actionStreaks, key, env.actionFingerprint) >= 2
  }

  lemma {:induction false} LoopsIff(s: KState, i: nat, env: Env)
    requires i < |s.tasks|
    ensures ReplanLoops(s, i, env) <==> Loops(s, s.tasks[i], env)
  {}

  /** The replan is logged; the plan is rewritten, or the third equal replacement in a row breaks the circuit. */
  ghost predicate ReplanEnds(s: KState, i: nat, constrained: bool, env: Env, r: KState)
    requires i < |s.tasks|
  {
    && LocalReplanned(s.tasks[i].id, MintedId(SeqOf(s)), constrained) in r.trace
    && if Loops(s, s.tasks[i], env) then
         && r.tasks == s.tasks[i := s.tasks[i].(status := Failed)] && r.status == Aborted
         && r.lastError == "same_replan_action_loop"
       else
         && Replan(s.tasks, i, r.tasks, s.goal, constrained, env.canDelegate)
         && r.tasks[|r.tasks| - 1].id == MintedId(SeqOf(s)) && r.tasks[|r.tasks| - 1].obj == s.nextObj
         && r.status == (if s.status == Aborted then Aborted else Active) && r.lastError == s.lastError
  }

  lemma {:induction false} BrokenReplan(s: KState, i: nat, constrained: bool, env: Env)
    requires i < |s.tasks| && ReplanLoops(s, i, env)
    ensures var r := AfterReplan(s, i, constrained, env);
            && LocalReplanned(s.tasks[i].id, MintedId(SeqOf(s)), constrained) in r.trace
            && r.tasks == s.tasks[i := s.tasks[i].(status := Failed)] && r.status == Aborted
            && r.lastError == "same_replan_action_loop"
  {}

  lemma {:induction false} RewrittenReplan(s: KState, i: nat, constrained: bool, env: Env)
    requires i < |s.tasks| && !ReplanLoops(s, i, env)
    ensures var r := AfterReplan(s, i, constrained, env);
            && LocalReplanned(s.tasks[i].id, MintedId(SeqOf(s)), constrained) in r.trace
            && r.tasks == ReplannedTasks(s, i, constrained, env.canDelegate)
            && r.status == (if s.status == Aborted then Aborted else Active) && r.lastError == s.lastError
  {}

  lemma {:induction false} AfterReplanIs(s: KState, i: nat, constrained: bool, env: Env)
    requires MayRun(s, i)
    ensures ReplanEnds(s, i, constrained, env, AfterReplan(s, i, constrained, env))
  {
    LoopsIff(s, i, env);
    if ReplanLoops(s, i, env) {
      BrokenReplan(s, i, constrained, env);
    } else {
      RewrittenReplan(s, i, constrained, env);
      ReplannedIs(s, i, constrained, env.canDelegate);
    }
  }

  lemma {:induction false} FailedFalls(s: KState, i: nat)
    requires MayRun(s, i)
    ensures Falls(s.tasks, i, i)
  {
    FailedIsDropped(s, i);
  }

  lemma {:induction false} StaysApart(s: KState, i: nat, kept: seq<Task>, at: seq<nat>, k: nat)
    requires MayRun(s, i) && StaysAt(s.tasks, i, kept, at) && k < |kept|
    ensures kept[k].obj != s.tasks[i].obj
  {
    FailedFalls(s, i);
    assert at[k] in at && at[k] != i;
    assert s.tasks[at[k]].obj != s.tasks[i].obj;
  }

  /** The failed object is gone. */
  lemma {:induction false} ReplanDropsObject(s: KState, i: nat, after: seq<Task>, constrained: bool, canDelegate: bool)
    requires MayRun(s, i) && Replan(s.tasks, i, after, s.goal, constrained, canDelegate)
    requires after[|after| - 1].obj == s.nextObj
    ensures forall k :: 0 <= k < |after| ==> after[k].obj != s.tasks[i].obj
  {
    var kept := after[..|after| - 1];
    var at: seq<nat> :| StaysAt(s.tasks, i, kept, at);
    assert GoodTask(s.tasks[i], s.nextSeq, s.nextObj);
    forall k | 0 <= k < |after| ensures after[k].obj != s.tasks[i].obj {
      if k < |kept| {
        StaysApart(s, i, kept, at, k);
        assert kept[k] == after[k];
      }
    }
  }
}
