/** The scheduler itself (agent_kernel/kernel.py): the methods that update an agent state in place, each
    proved against the step functions. */
module Kernel {
  import opened PyText
  import opened Schemas
  import opened CompileCheck
  import opened LocalReplan
  import opened FailureRouter
  import opened CircuitBreakers
  import opened KernelState
  import opened Progress

  class AgentState {
    var goal: string
    var tasks: seq<Task>
    var status: RunStatus
    var trace: seq<Event>
    var budgetStepsUsed: int
    var budgetStepsMax: int
    var activeTaskId: string
    var goalDone: bool
    var lastError: string
    var nextTaskSeq: nat
    var nextObject: nat   // the identity of the next Task object

    constructor (goal: string, budgetStepsMax: int)
      ensures tasks == [] && status == Active && trace == [] && this.goal == goal && !goalDone
      ensures budgetStepsUsed == 0 && this.budgetStepsMax == budgetStepsMax && nextTaskSeq == 1
    {
      this.goal, tasks, status, trace := goal, [], Active, [];
      budgetStepsUsed, this.budgetStepsMax := 0, budgetStepsMax;
      activeTaskId, goalDone, lastError := "", false, "";
      nextTaskSeq, nextObject := 1, 0;
    }

    method Log(e: Event)
      modifies this`trace
      ensures trace == old(trace) + [e]
    {
      trace := trace + [e];
    }
  }

  class AgentKernel {
    const planner: Planner
    const breaker: CircuitBreaker

    constructor (planner: Planner)
      ensures this.planner == planner && fresh(breaker) && breaker.State() == BreakerState(map[], map[], 0)
      ensures Configured()
    {
      this.planner := planner;
      breaker := new CircuitBreaker(2, 3, 10);
    }

    /** The limits the kernel gives its circuit breaker. */
    predicate Configured()
    {
      breaker.sameErrorLimit == SAME_ERROR_LIMIT && breaker.sameActionReplanLimit == SAME_ACTION_LIMIT
        && breaker.stagnationCycleLimit == STAGNATION_CYCLES
    }

    /** The state and the breaker as one value. */
    ghost function View(st: AgentState): KState
      reads st, breaker
    {
      KState(st.goal, st.tasks, st.status, st.trace, st.budgetStepsUsed, st.budgetStepsMax,
             st.activeTaskId, st.goalDone, st.lastError, st.nextTaskSeq, st.nextObject, breaker.State())
    }

    method Bootstrap(st: AgentState)
      modifies st
      ensures View(st) == Bootstrapped(old(View(st)), planner)
    {
      if st.tasks != [] {
        return;
      }
      var payload := EMPTY_PAYLOAD.(extras := map["goal" := st.goal]);
      var t;
      match planner {
        case SimplePlanner =>
          t := Task(st.nextObject, MintedId(st.nextTaskSeq), "bootstrap",
                    "Start toward goal: " + st.goal, payload, 10, Draft, 0);
        case GoalPlanner =>
          t := Task(st.nextObject, MintedId(st.nextTaskSeq), "plan_goal",
                    "Plan decomposition for goal: " + st.goal, payload, 5, Draft, 0);
      }
      st.tasks := [t];
      st.nextTaskSeq, st.nextObject := st.nextTaskSeq + 1, st.nextObject + 1;
    }

    /** The compile check at the start of a step, and the marking of every task. */
    method CheckAndMark(st: AgentState, tools: Tools) returns (issues: seq<Issue>)
      modifies st`tasks, st`trace
      ensures View(st) == Checked(old(View(st)), tools)
      ensures forall x :: x in issues <==> Flagged(Nodes(old(st.tasks)), tools, x)
    {
      var nodes := Nodes(st.tasks);
      issues := PlanCompileCheck(nodes, tools);
      MarkAll(st, issues, nodes, tools);
    }

    method MarkAll(st: AgentState, issues: seq<Issue>, nodes: seq<Subgoal>, tools: Tools)
      requires forall x :: x in issues <==> Flagged(nodes, tools, x)
      modifies st`tasks, st`trace
      ensures st.tasks == MarkedTasks(old(st.tasks), nodes, tools)
      ensures st.trace == old(st.trace) + BlockEvents(old(st.tasks), nodes, tools)
    {
      var before := st.tasks;
      ghost var trace := st.trace;
      assert trace + [] == trace;
      for i := 0 to |before|
        invariant st.tasks == MarkedUpTo(before, i, nodes, tools)
        invariant st.trace == trace + BlockEvents(before[..i], nodes, tools)
      {
        var codes := CodesOf(issues, before[i].id, nodes, tools);
        MarkOne(st, i, codes);
        BlockEventsNext(trace, before, i, nodes, tools);
        MarkedNext(before, i, nodes, tools);
      }
      assert before[..|before|] == before;
    }

    /** The first `n` tasks are marked. */
    ghost function MarkedUpTo(tasks: seq<Task>, n: nat, nodes: seq<Subgoal>, tools: Tools): (r: seq<Task>)
      requires n <= |tasks|
      ensures |r| == |tasks|
      ensures n < |tasks| ==> r[n] == tasks[n]
      ensures n == 0 ==> r == tasks
      ensures n == |tasks| ==> r == MarkedTasks(tasks, nodes, tools)
    {
      MarkedTasks(tasks, nodes, tools)[..n] + tasks[n..]
    }

    lemma {:induction false} MarkedNext(tasks: seq<Task>, n: nat, nodes: seq<Subgoal>, tools: Tools)
      requires n < |tasks|
      ensures MarkedUpTo(tasks, n + 1, nodes, tools)
              == MarkedUpTo(tasks, n, nodes, tools)[n := Marked(tasks[n], nodes, tools)]
    {}

    lemma {:induction false} BlockEventsNext(trace: seq<Event>, tasks: seq<Task>, i: nat, nodes: seq<Subgoal>,
                                             tools: Tools)
      requires i < |tasks|
      ensures trace + BlockEvents(tasks[..i + 1], nodes, tools)
              == trace + BlockEvents(tasks[..i], nodes, tools)
                  + BlockEvent(tasks[i], CodesFor(nodes, tools, tasks[i].id))
    {
      assert tasks[..i + 1][..i] == tasks[..i];
    }

    method MarkOne(st: AgentState, i: nat, codes: set<Code>)
      requires i < |st.tasks|
      modifies st`tasks, st`trace
      ensures st.tasks
              == old(st.tasks)[i := old(st.tasks)[i].(status := MarkedStatus(old(st.tasks)[i].status, codes != {}))]
      ensures st.trace == old(st.trace) + BlockEvent(old(st.tasks)[i], codes)
    {
      var t := st.tasks[i];
      if codes == {} {
        if t.status in {Draft, Pending} {
          st.tasks := st.tasks[i := t.(status := Ready)];
        }
      } else if t.status !in {Done, Skipped, Failed} {
        st.tasks := st.tasks[i := t.(status := Blocked)];
        st.Log(CompileBlocked(t.id, codes));
      }
    }

    /** The issues of one task, from the grouped issues. */
    method CodesOf(issues: seq<Issue>, id: string, ghost nodes: seq<Subgoal>,
                   ghost tools: Tools) returns (codes: set<Code>)
      requires forall x :: x in issues <==> Flagged(nodes, tools, x)
      ensures codes == CodesFor(nodes, tools, id)
    {
      codes := set x | x in issues && x.subgoalId == id :: x.code;
      forall c | c in CodesFor(nodes, tools, id) ensures c in codes {
        assert Issue(c, id) in issues;
      }
    }

    /** `_pick_runnable_task`. */
    method PickRunnable(tasks: seq<Task>) returns (best: Option<nat>)
      ensures best == Pick(tasks)
      ensures forall j :: 0 <= j < |tasks| && Runnable(tasks, j) ==> best.Some? && NotAfter(tasks, best.value, j)
    {
      best := None;
      for k := 0 to |tasks|
        invariant best == PickAmong(tasks, k)
      {
        if tasks[k].status !in {Done, Skipped, Failed, Blocked, Running} && DependenciesDone(tasks, tasks[k]) {
          if best.None? || Before(tasks[k], tasks[best.value]) {
            best := Some(k);
          }
        }
      }
      forall j | 0 <= j < |tasks| && Runnable(tasks, j) ensures best.Some? && NotAfter(tasks, best.value, j) {
        PickIsLeast(tasks, j);
      }
    }

    /** The id loop and the renaming loop of `_append_generated_subgoals`. */
    method CompileBatch(usedIds: set<string>, generated: seq<Spec>, seqNo: nat) returns (subgoals: seq<Subgoal>,
                        nextSeq: nat)
      ensures var b := AssignIds(generated, usedIds, seqNo);
              subgoals == Remapped(b.subgoals, b.idMap, b.usedIds) && nextSeq == b.seqNo
    {
      var b := Batch([], map[], usedIds, seqNo);
      for k := 0 to |generated|
        invariant b == AssignIds(generated[..k], usedIds, seqNo)
      {
        assert generated[..k + 1][..k] == generated[..k];
        b := Assigned(b, generated[k], k + 1);
      }
      assert generated[..|generated|] == generated;
      subgoals := RenameDependencies(b);
      nextSeq := b.seqNo;
    }

    method RenameDependencies(b: Batch) returns (renamed: seq<Subgoal>)
      ensures renamed == Remapped(b.subgoals, b.idMap, b.usedIds)
    {
      renamed := [];
      for k := 0 to |b.subgoals|
        invariant renamed == Remapped(b.subgoals[..k], b.idMap, b.usedIds)
      {
        assert b.subgoals[..k + 1][..k] == b.subgoals[..k];
        renamed := renamed +
            [b.subgoals[k].(dependencies := RemapDeps(b.subgoals[k].dependencies, b.idMap, b.usedIds))];
      }
      assert b.subgoals[..|b.subgoals|] == b.subgoals;
    }

    method AppendBatch(st: AgentState, subgoals: seq<Subgoal>) returns (added: nat)
      modifies st`tasks
      ensures added == |subgoals| && st.tasks == old(st.tasks) + BatchTasks(subgoals, st.nextObject)
    {
      ghost var before := st.tasks;
      added := 0;
      assert before + [] == before;
      while added < |subgoals|
        invariant added <= |subgoals|
        invariant st.tasks == before + BatchTasks(subgoals[..added], st.nextObject)
      {
        assert subgoals[..added + 1][..added] == subgoals[..added];
        st.tasks := st.tasks + [ToTask(subgoals[added], 20 + added, st.nextObject + added)];
        added := added + 1;
      }
      assert subgoals[..|subgoals|] == subgoals;
    }

    /** Whether a list of subgoals compiles. */
    method Compiles(subgoals: seq<Subgoal>, tools: Tools) returns (ok: bool)
      ensures ok <==> CompilesCleanly(subgoals, tools)
    {
      var issues := PlanCompileCheck(subgoals, tools);
      ok := issues == [];
      if ok {
        forall x ensures !Flagged(subgoals, tools, x) { assert x !in issues; }
      } else {
        assert issues[0] in issues;
      }
    }

    /** `_append_generated_subgoals`. */
    method AppendGeneratedSubgoals(st: AgentState, generated: seq<Spec>, tools: Tools) returns (added: nat,
                                   rejected: bool)
      modifies st`tasks, st`nextTaskSeq, st`nextObject
      ensures Appended(View(st), added, rejected) == AppendSubgoals(old(View(st)), generated, tools)
    {
      var seqNo := if st.nextTaskSeq == 0 then 1 else st.nextTaskSeq;
      var subgoals, nextSeq := CompileBatch(TaskIds(st.tasks), generated, seqNo);
      var ok := Compiles(subgoals, tools);
      if !ok {
        return 0, true;
      }
      rejected, added := false, |subgoals|;
      if subgoals != [] {
        AppendCompiled(st, subgoals, nextSeq);
      }
    }

    method AppendCompiled(st: AgentState, subgoals: seq<Subgoal>, nextSeq: nat)
      modifies st`tasks, st`nextTaskSeq, st`nextObject
      ensures View(st) == BatchAppended(old(View(st)), subgoals, nextSeq)
    {
      var seqNo := if st.nextTaskSeq == 0 then 1 else st.nextTaskSeq;
      var added := AppendBatch(st, subgoals);
      st.nextTaskSeq := if seqNo >= nextSeq then seqNo else nextSeq;
      st.nextObject := st.nextObject + added;
    }

    /** The loop of `_append_generated_tasks`. */
    method AppendDescribed(st: AgentState, generated: seq<TaskSpec>, seqNo: nat) returns (added: nat)
      modifies st`tasks
      ensures st.tasks == old(st.tasks) + LooseTasks(generated, seqNo, st.nextObject)
      ensures added == |LooseTasks(generated, seqNo, st.nextObject)|
    {
      ghost var before := st.tasks;
      added := 0;
      assert before + [] == before;
      for k := 0 to |generated|
        invariant added == |LooseTasks(generated[..k], seqNo, st.nextObject)|
        invariant st.tasks == before + LooseTasks(generated[..k], seqNo, st.nextObject)
      {
        assert generated[..k + 1][..k] == generated[..k];
        var spec := generated[k];
        if spec.NotATask? || Blank(spec.description) {
          continue;
        }
        st.tasks := st.tasks + [LooseTask(spec, added, seqNo, st.nextObject)];
        added := added + 1;
      }
      assert generated[..|generated|] == generated;
    }

    /** `_append_generated_tasks`. */
    method AppendGeneratedTasks(st: AgentState, generated: seq<TaskSpec>) returns (added: nat)
      modifies st`tasks, st`nextTaskSeq, st`nextObject
      ensures Appended(View(st), added, false) == AppendTasks(old(View(st)), generated)
    {
      var seqNo := if st.nextTaskSeq == 0 then 1 else st.nextTaskSeq;
      added := AppendDescribed(st, generated, seqNo);
      if added > 0 {
        st.nextTaskSeq := seqNo + added;
        st.nextObject := st.nextObject + added;
      } else {
        assert st.tasks == old(st.tasks);
      }
    }

    method SetStatus(st: AgentState, i: nat, status: Status)
      requires i < |st.tasks|
      modifies st`tasks
      ensures View(st) == WithStatus(old(View(st)), i, status)
    {
      st.tasks := st.tasks[i := st.tasks[i].(status := status)];
    }

    /** `_handle_local_replan`: whether the plan was rewritten. */
    method HandleLocalReplan(st: AgentState, i: nat, constrained: bool, env: Env) returns (ok: bool)
      requires Configured() && i < |st.tasks|
      modifies st, breaker
      ensures View(st) == Handled(old(View(st)), i, constrained, env)
      ensures ok <==> !ReplanLoops(old(View(st)), i, env)
    {
      var failed := st.tasks[i];
      var nodes := Nodes(st.tasks);
      var seqNo := if st.nextTaskSeq == 0 then 1 else st.nextTaskSeq;
      var replacement := MakeReplacement(st, failed, seqNo, constrained, env.canDelegate);
      var merged := ApplyLocalReplan(nodes, failed.id, replacement);
      var triggered := CountReplan(st, failed, replacement.id, constrained, env);
      if triggered {
        BreakReplan(st, i);
        return false;
      }
      var rebuilt := Materialise(merged, st.tasks, st.nextObject);
      Rewrite(st, rebuilt);
      return true;
    }

    method CountReplan(st: AgentState, failed: Task, replacementId: string, constrained: bool,
                       env: Env) returns (triggered: bool)
      requires Configured()
      modifies st`trace, breaker
      ensures View(st) == CountedReplan(old(View(st)), failed, replacementId, constrained, env)
      ensures triggered <==> Counter(breaker.actionStreaks, PathKey(failed), env.actionFingerprint) >= SAME_ACTION_LIMIT
    {
      triggered := breaker.OnReplanAction(PathKey(failed), env.actionFingerprint);
      st.Log(LocalReplanned(failed.id, replacementId, constrained));
    }

    method BreakReplan(st: AgentState, i: nat)
      requires i < |st.tasks|
      modifies st
      ensures View(st) == ReplanBroken(old(View(st)), i)
    {
      SetStatus(st, i, Failed);
      st.status, st.lastError := Aborted, "same_replan_action_loop";
      st.Log(CircuitBroken);
    }

    method Rewrite(st: AgentState, rebuilt: seq<Task>)
      modifies st
      ensures View(st) == RewrittenPlan(old(View(st)), rebuilt)
    {
      var seqNo := if st.nextTaskSeq == 0 then 1 else st.nextTaskSeq;
      st.tasks := rebuilt;
      st.nextTaskSeq, st.nextObject := seqNo + 1, st.nextObject + 1;
    }

    /** Merged subgoals become tasks again: old ones are synced, the new one is created. */
    method Materialise(merged: seq<Subgoal>, before: seq<Task>, obj: nat) returns (rebuilt: seq<Task>)
      ensures rebuilt == MaterialisedAll(merged, before, obj)
    {
      rebuilt := [];
      for k := 0 to |merged|
        invariant rebuilt == MaterialisedAll(merged[..k], before, obj)
      {
        assert merged[..k + 1][..k] == merged[..k];
        var j := LastIndex(before, merged[k].id);
        if j.Some? {
          rebuilt := rebuilt + [Synced(before[j.value], merged[k])];
        } else {
          rebuilt := rebuilt + [ToTask(merged[k], 30, obj)];
        }
      }
      assert merged[..|merged|] == merged;
    }

    method MakeReplacement(st: AgentState, failed: Task, seqNo: nat, constrained: bool,
                           canDelegate: bool) returns (r: Subgoal)
      requires seqNo == SeqOf(View(st))
      ensures r == Replacement(View(st), failed, constrained, canDelegate)
    {
      if canDelegate {
        var intent := "Replan failed node " + failed.id;
        if constrained {
          intent := intent + " with stricter constraints";
        }
        var inputs := EMPTY_PAYLOAD.(extras := map["goal" := st.goal], supervisorSource := Some(failed.id));
        r := Subgoal(MintedId(seqNo), intent, "plan_goal", "plan_goal", inputs, [], [], [], map[],
                     Some(Policy(failed)), DRAFT, 0);
        assert intent == "Replan failed node " + failed.id + (if constrained then " with stricter constraints" else "");
      } else {
        var extras := SetDefault(failed.payload.extras - {"force_fail"}, "instruction", "fallback_retry");
        var kind := OrText(failed.kind, "code_task");
        r := Subgoal(MintedId(seqNo), "Fallback execution for " + failed.id, kind, kind,
                     failed.payload.(extras := extras), [], [], [], map[], Some(Policy(failed)), DRAFT, 0);
      }
    }

    /** A replan together with the status update of its callers. */
    method Replan(st: AgentState, i: nat, constrained: bool, env: Env)
      requires Configured() && i < |st.tasks|
      modifies st, breaker
      ensures View(st) == AfterReplan(old(View(st)), i, constrained, env)
    {
      var ok := HandleLocalReplan(st, i, constrained, env);
      if ok && st.status != Aborted {
        st.status := Active;
      }
    }

    method RouteCompileFailure(st: AgentState, i: nat, env: Env)
      requires Configured() && i < |st.tasks|
      modifies st, breaker
      ensures View(st) == CompileFailedRoute(old(View(st)), i, env)
    {
      SetStatus(st, i, FailedRetryable);
      st.lastError := "planner_compile_failed";
      st.Log(PlannerCompileFailedRoute(st.tasks[i].id));
      Replan(st, i, true, env);
    }

    method FinishPlanTask(st: AgentState, i: nat)
      requires i < |st.tasks|
      modifies st, breaker
      ensures View(st) == PlanDone(old(View(st)), i)
    {
      SetStatus(st, i, Done);
      breaker.MarkDoneProgress(st.budgetStepsUsed);
      st.status := Active;
    }

    method FinishTask(st: AgentState, i: nat)
      requires i < |st.tasks|
      modifies st, breaker
      ensures View(st) == Passed(old(View(st)), i)
    {
      SetStatus(st, i, Done);
      breaker.MarkDoneProgress(st.budgetStepsUsed);
      if AllFinished(st.tasks) {
        st.status, st.goalDone := Completed, true;
      } else {
        st.status := Active;
      }
      st.lastError := "";
    }

    method Reject(st: AgentState, i: nat, env: Env)
      requires Configured() && i < |st.tasks|
      modifies st, breaker
      ensures View(st) == Rejected(old(View(st)), i, env)
    {
      st.Log(PlannerCompileFailed(st.tasks[i].id));
      RouteCompileFailure(st, i, env);
    }

    /** The reply of a planning task that reported success. */
    method TakePlan(st: AgentState, i: nat, env: Env) returns (raised: bool)
      requires Configured() && i < |st.tasks|
      modifies st, breaker
      ensures Outcome(View(st), raised) == PlanReply(old(View(st)), i, env)
    {
      if NonBlank(env.reply.planIssues) != [] {
        Reject(st, i, env);
        return false;
      }
      var added, rejected := AppendGeneratedSubgoals(st, env.reply.subgoals, env.tools);
      if rejected {
        Reject(st, i, env);
        return false;
      }
      if added == 0 {
        added := AppendGeneratedTasks(st, env.reply.tasks);
      }
      if added == 0 {
        return true;
      }
      FinishPlanTask(st, i);
      return false;
    }

    method Retry(st: AgentState, i: nat)
      requires i < |st.tasks|
      modifies st
      ensures View(st) == RetryOrGiveUp(old(View(st)), i)
    {
      var t := st.tasks[i];
      var policy := Policy(t);
      var next := t.retries + 1;
      if next < policy.maxAttempts {
        st.Log(RetryScheduled(t.obj, t.id, next, policy.maxAttempts, RetryDelayMs(policy, next)));
        st.tasks := st.tasks[i := t.(retries := next, status := Ready)];
        st.status := Active;
      } else {
        st.Log(RetryExhausted(t.id, next, policy.maxAttempts));
        SetStatus(st, i, Failed);
        st.status := Aborted;
      }
    }

    method ParkTask(st: AgentState, i: nat, action: RouteAction)
      requires i < |st.tasks|
      modifies st
      ensures View(st) == Park(old(View(st)), i, action)
    {
      st.Log(FailureFallback(st.tasks[i].id, action));
      SetStatus(st, i, Blocked);
      st.status := AwaitingUser;
    }

    method ReplanTask(st: AgentState, i: nat, action: RouteAction, env: Env)
      requires Configured() && i < |st.tasks|
      modifies st, breaker
      ensures View(st) == ReplanRoute(old(View(st)), i, action, env)
    {
      SetStatus(st, i, FailedRetryable);
      st.Log(FailureFallback(st.tasks[i].id, action));
      Replan(st, i, action == LocalReplanWithConstraints, env);
    }

    method Abandon(st: AgentState, i: nat)
      requires i < |st.tasks|
      modifies st
      ensures View(st) == GiveUp(old(View(st)), i)
    {
      SetStatus(st, i, Failed);
      st.status := Aborted;
    }

    /** The transition chosen by the failure router. */
    method Act(st: AgentState, i: nat, d: Decision, env: Env)
      requires Configured() && i < |st.tasks|
      modifies st, breaker
      ensures View(st) == Transition(old(View(st)), i, d, env)
    {
      if IsRetryable(d) {
        Retry(st, i);
      } else if d.action == AskUser || d.action == RepairAuth {
        ParkTask(st, i, d.action);
      } else if d.action == RouteAction.LocalReplan || d.action == LocalReplanWithConstraints {
        ReplanTask(st, i, d.action, env);
      } else {
        Abandon(st, i);
      }
    }

    /** The failure is logged and counted; `triggered` if the circuit breaks. */
    method CountFailure(st: AgentState, id: string, d: Decision, env: Env) returns (triggered: bool)
      requires Configured()
      modifies st`lastError, st`trace, breaker
      ensures View(st) == FailureCounted(old(View(st)), id, d, env)
      ensures triggered <==> Counter(breaker.errorStreaks, id, d.fingerprint) >= SAME_ERROR_LIMIT
    {
      st.lastError := OrText(env.reply.error, "execution_failed");
      st.Log(FailureRouted(id, d));
      triggered := breaker.OnError(id, d.fingerprint);
    }

    method StopIfStagnant(st: AgentState, obj: nat, env: Env)
      requires Configured()
      modifies st`tasks, st`status, st`trace
      ensures View(st) == StagnationChecked(old(View(st)), obj, env.secondsStalled)
    {
      var stagnant := breaker.CheckStagnation(st.budgetStepsUsed, env.secondsStalled);
      if stagnant && st.status !in {Completed, Aborted} {
        st.tasks := FailObject(st.tasks, obj);
        st.status := Aborted;
        st.Log(CircuitBroken);
      }
    }

    /** The failure path of `run_step`. `ownCodes` are the compile issues of the failed task. */
    method Fail(st: AgentState, i: nat, ownCodes: set<Code>, env: Env)
      requires Configured() && i < |st.tasks|
      modifies st, breaker
      ensures View(st) == RouteFailure(old(View(st)), i, ownCodes, env)
    {
      var t := st.tasks[i];
      var d := Classify(env.fingerprint, ownCodes, RoutedFingerprints(st.trace), env.hits);
      var triggered := CountFailure(st, t.id, d, env);
      if triggered {
        SetStatus(st, i, Failed);
        st.status := Aborted;
        st.Log(CircuitBroken);
        return;
      }
      Act(st, i, d, env);
      StopIfStagnant(st, t.obj, env);
    }

    /** The task at `i` is handed to the worker, whose reply is `env.reply`. */
    method Invoke(st: AgentState, i: nat, env: Env)
      requires i < |st.tasks|
      modifies st
      ensures View(st) == Invoked(old(View(st)), i, env.reply.ok)
    {
      var t := st.tasks[i];
      st.activeTaskId := t.id;
      st.tasks := st.tasks[i := WithBudget(t.(status := Running), st.budgetStepsUsed, st.budgetStepsMax)];
      st.Log(TaskSelected(t.id));
      st.Log(WorkerStarted(t.obj, t.id));
      st.Log(ToolInvoked(t.id, t.retries));
      st.budgetStepsUsed := st.budgetStepsUsed + 1;
      st.Log(WorkerReplied(t.id, env.reply.ok));
    }

    method Conclude(st: AgentState, i: nat, ownCodes: set<Code>, env: Env) returns (raised: bool)
      requires Configured() && i < |st.tasks|
      modifies st, breaker
      ensures Outcome(View(st), raised) == Resolve(old(View(st)), i, ownCodes, env)
    {
      var plans := IsPlanGoal(st.tasks[i].kind);
      if plans && env.reply.ok {
        raised := TakePlan(st, i, env);
      } else if env.reply.ok && env.criteriaMet {
        FinishTask(st, i);
        raised := false;
      } else if plans && Lower(Strip(env.reply.error)) == "planner_compile_failed" {
        RouteCompileFailure(st, i, env);
        raised := false;
      } else {
        Fail(st, i, ownCodes, env);
        raised := false;
      }
    }

    method Settle(st: AgentState)
      modifies st
      ensures View(st) == Idle(old(View(st)))
    {
      if st.tasks != [] && AllFinished(st.tasks) {
        st.status, st.goalDone := Completed, true;
        st.Log(AllTasksDone);
      } else if exists t :: t in st.tasks && t.status in {Failed, FailedFatal} {
        st.status := Aborted;
      } else if exists t :: t in st.tasks && t.status == Blocked {
        st.status := AwaitingUser;
      } else {
        st.status := Aborted;
      }
    }

    /** `run_step`. */
    method RunStep(st: AgentState, env: Env) returns (raised: bool)
      requires Configured()
      modifies st, breaker
      ensures Outcome(View(st), raised) == Step(old(View(st)), env, planner)
    {
      raised := false;
      st.Log(PlanningStarted);
      Bootstrap(st);
      st.Log(PlanningCompleted(|st.tasks|));
      assert View(st) == Planned(old(View(st)), planner);
      if st.status != Active {
        return;
      }
      if st.budgetStepsUsed >= st.budgetStepsMax {
        st.status, st.lastError := Aborted, "budget_exhausted";
        st.Log(BudgetExhausted(st.budgetStepsUsed));
        return;
      }
      raised := CheckAndRun(st, env);
    }

    method CheckAndRun(st: AgentState, env: Env) returns (raised: bool)
      requires Configured()
      modifies st, breaker
      ensures Outcome(View(st), raised) == Dispatch(old(View(st)), env)
    {
      ghost var p := View(st);
      var issues := CheckAndMark(st, env.tools);
      var pick := PickRunnable(st.tasks);
      if pick.None? {
        Settle(st);
        return false;
      }
      var i := pick.value;
      var id := st.tasks[i].id;
      var ownCodes := CodesOf(issues, id, Nodes(p.tasks), env.tools);
      Invoke(st, i, env);
      raised := Conclude(st, i, ownCodes, env);
    }

    /** `run`: steps until the run is over, or until a step does not use any budget. */
    method Run(st: AgentState, envs: nat -> Env) returns (raised: bool)
      requires Configured()
      modifies st, breaker
      ensures Outcome(View(st), raised) == Progress.Run(old(View(st)), envs, 0, planner)
    {
      var n := 0;
      while true
        invariant Progress.Run(View(st), envs, n, planner) == Progress.Run(old(View(st)), envs, 0, planner)
        decreases Horizon(View(st))
      {
        var prevUsed := st.budgetStepsUsed;
        RunGoesOn(View(st), envs, n, planner);
        raised := RunStep(st, envs(n));
        if raised || st.status in {Completed, Aborted, AwaitingUser} {
          return;
        }
        if st.budgetStepsUsed <= prevUsed {
          return;
        }
        n := n + 1;
      }
    }
  }
}
