/** The life of a Task object through a step: which tasks stay as they are, what becomes of the executed
    one, and which are new. */
module TaskLives {
  import opened PyText
  import opened Schemas
  import opened CompileCheck
  import opened FailureRouter
  import opened CircuitBreakers
  import opened KernelState
  import opened PlanInvariant
  import opened PlanSteps
  import opened PlanBatches
  import opened StepFrame

  /** A task up to the spelling of its retry policy. */
  function Settled(t: Task): Task {
    t.(payload := t.payload.(retryPolicy := Some(Policy(t))))
  }

  lemma {:induction false} SettledView(t: Task)
    ensures Settled(Settled(t)) == Settled(t) && Policy(Settled(t)) == Policy(t)
  {}

  lemma {:induction false} ResyncedSettled(t: Task)
    requires t.status in LIVE_STATUSES
    ensures Resynced(t) == Settled(t)
  {}

  /** What the executed task `v` can become. */
  ghost predicate Next(v: Task, t: Task, retried: bool) {
    && t.obj == v.obj && Policy(t) == Policy(v)
    && if retried then t.status in {Ready, Failed} && t.retries == v.retries + 1 && t.retries < Policy(v).maxAttempts
       else t.status in {Done, Failed, Blocked} && t.retries == v.retries
  }

  ghost predicate IsNew(t: Task, nextObj: nat) {
    t.obj >= nextObj && t.status == Draft && t.retries == 0
  }

  /** `t` is another task of `v`, settled or unchanged. */
  ghost predicate Kin(v: seq<Task>, i: nat, t: Task) {
    exists j :: 0 <= j < |v| && j != i && Settled(v[j]) == Settled(t)
  }

  ghost predicate Offspring(v: seq<Task>, i: nat, t: Task, nextObj: nat, retried: bool)
    requires i < |v|
  {
    Kin(v, i, t) || Next(v[i], t, retried) || IsNew(t, nextObj)
  }

  ghost predicate Present(r: seq<Task>, t: Task) {
    exists k :: 0 <= k < |r| && Settled(r[k]) == Settled(t)
  }

  /** The plan `r` after the task at `i` of `v` was executed. */
  ghost predicate Evolves(v: seq<Task>, i: nat, r: seq<Task>, nextObj: nat, retried: bool)
    requires i < |v|
  {
    && (forall k :: 0 <= k < |r| ==> Offspring(v, i, r[k], nextObj, retried))
    && (forall j :: 0 <= j < |v| && j != i && IsFinished(v[j].status) ==> Present(r, v[j]))
  }

  lemma {:induction false} KinIntro(v: seq<Task>, i: nat, j: nat, t: Task)
    requires j < |v| && j != i && Settled(v[j]) == Settled(t)
    ensures Kin(v, i, t)
  {}

  lemma {:induction false} PresentIntro(r: seq<Task>, k: nat, t: Task)
    requires k < |r| && Settled(r[k]) == Settled(t)
    ensures Present(r, t)
  {}

  lemma {:induction false} UpdateEvolves(v: seq<Task>, i: nat, t: Task, more: seq<Task>, nextObj: nat, retried: bool)
    requires i < |v| && Next(v[i], t, retried)
    requires forall k :: 0 <= k < |more| ==> IsNew(more[k], nextObj)
    ensures Evolves(v, i, (v + more)[i := t], nextObj, retried)
  {
    var r := (v + more)[i := t];
    forall k | 0 <= k < |r| ensures Offspring(v, i, r[k], nextObj, retried) {
      if k != i {
        if k < |v| { KinIntro(v, i, k, r[k]); } else { assert IsNew(more[k - |v|], nextObj); }
      }
    }
    forall j | 0 <= j < |v| && j != i ensures Present(r, v[j]) {
      PresentIntro(r, j, v[j]);
    }
  }

  lemma {:induction false} StatusEvolves(v: seq<Task>, i: nat, t: Task, nextObj: nat, retried: bool)
    requires i < |v| && Next(v[i], t, retried)
    ensures Evolves(v, i, v[i := t], nextObj, retried)
  {
    UpdateEvolves(v, i, t, [], nextObj, retried);
    assert v + [] == v;
  }

  /** The other tasks do not depend on how the executed one is marked. */
  lemma {:induction false} EvolvesFromMarked(v: seq<Task>, w: seq<Task>, i: nat, r: seq<Task>, nextObj: nat)
    requires i < |v| && |w| == |v| && forall j :: 0 <= j < |v| && j != i ==> w[j] == v[j]
    requires forall k :: 0 <= k < |r| ==> Kin(w, i, r[k]) || IsNew(r[k], nextObj)
    requires forall j :: 0 <= j < |w| && j != i && IsFinished(w[j].status) ==> Present(r, w[j])
    ensures Evolves(v, i, r, nextObj, false)
  {}

  lemma {:induction false} ReplannedIsKin(s: KState, i: nat, kept: seq<Task>, k: nat)
    requires MayRun(s, i) && KeptOf(s.tasks, i, kept) && k < |kept|
    ensures Kin(s.tasks, i, kept[k])
  {
    var j := KeptTask(s, i, kept, k);
    assert GoodTask(s.tasks[j], s.nextSeq, s.nextObj);
    ResyncedSettled(s.tasks[j]);
    SettledView(s.tasks[j]);
    KinIntro(s.tasks, i, j, kept[k]);
  }

  lemma {:induction false} FinishedIsKept(s: KState, i: nat, kept: seq<Task>, j: nat)
    requires MayRun(s, i) && KeptOf(s.tasks, i, kept) && j < |s.tasks| && IsFinished(s.tasks[j].status)
    ensures Present(kept, s.tasks[j])
  {
    NodesGraph(s.tasks);
    TaskInGraph(s.tasks, j);
    StayingIff(s.tasks, i, j);
    var k :| 0 <= k < |Staying(s.tasks, i)| && Staying(s.tasks, i)[k] == j;
    assert GoodTask(s.tasks[j], s.nextSeq, s.nextObj);
    ResyncedSettled(s.tasks[j]);
    SettledView(s.tasks[j]);
    PresentIntro(kept, k, s.tasks[j]);
  }

  lemma {:induction false} PresentMore(r: seq<Task>, t: Task, x: Task)
    requires Present(r, t)
    ensures Present(r + [x], t)
  {
    var k :| 0 <= k < |r| && Settled(r[k]) == Settled(t);
    PresentIntro(r + [x], k, t);
  }

  /** A replan keeps every finished task and invents one new task. */
  lemma {:induction false} ReplanEvolves(s: KState, v: seq<Task>, i: nat, constrained: bool, canDelegate: bool)
    requires MayRun(s, i) && |v| == |s.tasks| && forall j :: 0 <= j < |v| && j != i ==> s.tasks[j] == v[j]
    ensures Evolves(v, i, ReplannedTasks(s, i, constrained, canDelegate), s.nextObj, false)
  {
    FreshId(s);
    ReplannedShape(s, i, constrained, canDelegate);
    NewTaskView(s, i, constrained, canDelegate);
    var r := ReplannedTasks(s, i, constrained, canDelegate);
    var n := |r| - 1;
    var kept := r[..n];
    assert r == kept + [r[n]];
    forall k | 0 <= k < |r| ensures Kin(s.tasks, i, r[k]) || IsNew(r[k], s.nextObj) {
      if k < n { ReplannedIsKin(s, i, kept, k); }
    }
    forall j | 0 <= j < |s.tasks| && j != i && IsFinished(s.tasks[j].status) ensures Present(r, s.tasks[j]) {
      FinishedIsKept(s, i, kept, j);
      PresentMore(kept, s.tasks[j], r[n]);
    }
    EvolvesFromMarked(v, s.tasks, i, r, s.nextObj);
  }

  lemma {:induction false} AfterReplanEvolves(s: KState, v: seq<Task>, i: nat, constrained: bool, env: Env)
    requires MayRun(s, i) && |v| == |s.tasks| && s.tasks == v[i := s.tasks[i]]
    requires v[i].(status := Failed) == s.tasks[i].(status := Failed)
    ensures Evolves(v, i, AfterReplan(s, i, constrained, env).tasks, s.nextObj, false)
  {
    if ReplanLoops(s, i, env) {
      var t := v[i].(status := Failed);
      StatusEvolves(v, i, t, s.nextObj, false);
      assert v[i := s.tasks[i]][i := t] == v[i := t];
    } else {
      ReplanEvolves(s, v, i, constrained, env.canDelegate);
    }
  }

  lemma {:induction false} CompileFailedRouteEvolves(s: KState, i: nat, env: Env)
    requires MayRun(s, i)
    ensures Evolves(s.tasks, i, CompileFailedRoute(s, i, env).tasks, s.nextObj, false)
  {
    StatusUpdate(s, i, FailedRetryable);
    var f := WithStatus(s, i, FailedRetryable).(lastError := "planner_compile_failed");
    AfterReplanEvolves(Log(f, PlannerCompileFailedRoute(s.tasks[i].id)), s.tasks, i, true, env);
  }

  lemma {:induction false} ReplanRouteEvolves(s: KState, i: nat, action: RouteAction, env: Env)
    requires MayRun(s, i)
    ensures Evolves(s.tasks, i, ReplanRoute(s, i, action, env).tasks, s.nextObj, false)
  {
    StatusUpdate(s, i, FailedRetryable);
    AfterReplanEvolves(Log(WithStatus(s, i, FailedRetryable), FailureFallback(s.tasks[i].id, action)), s.tasks, i,
                       action == LocalReplanWithConstraints, env);
  }

  lemma {:induction false} RetryPolicyStable(t: Task)
    requires t.retries + 1 < Policy(t).maxAttempts
    ensures Policy(t.(retries := t.retries + 1, status := Ready)) == Policy(t)
  {}

  predicate HasBudgetFor(t: Task) {
    t.retries + 1 < Policy(t).maxAttempts
  }

  /** A retry or its refusal leaves every other task alone, and advances the failed one by one attempt exactly if
      attempts are left. */
  lemma {:induction false} RetryEvolves(s: KState, i: nat)
    requires MayRun(s, i)
    ensures var r := RetryOrGiveUp(s, i).tasks;
            && |r| == |s.tasks| && (forall j :: 0 <= j < |r| && j != i ==> r[j] == s.tasks[j])
            && Next(s.tasks[i], r[i], HasBudgetFor(s.tasks[i]))
            && (HasBudgetFor(s.tasks[i]) ==> r[i].status == Ready)
    ensures Evolves(s.tasks, i, RetryOrGiveUp(s, i).tasks, s.nextObj, HasBudgetFor(s.tasks[i]))
  {
    RetryView(s, i);
    var t := s.tasks[i];
    if HasBudgetFor(t) { RetryPolicyStable(t); }
    StatusEvolves(s.tasks, i, AfterRetry(t), s.nextObj, HasBudgetFor(t));
  }

  lemma {:induction false} TransitionEvolves(s: KState, i: nat, d: Decision, env: Env)
    requires MayRun(s, i)
    ensures Evolves(s.tasks, i, Transition(s, i, d, env).tasks, s.nextObj, IsRetryable(d) && HasBudgetFor(s.tasks[i]))
  {
    if IsRetryable(d) {
      RetryEvolves(s, i);
    } else {
      match d.action {
        case AskUser => StatusEvolves(s.tasks, i, s.tasks[i].(status := Blocked), s.nextObj, false);
        case RepairAuth => StatusEvolves(s.tasks, i, s.tasks[i].(status := Blocked), s.nextObj, false);
        case LocalReplan => ReplanRouteEvolves(s, i, d.action, env);
        case LocalReplanWithConstraints => ReplanRouteEvolves(s, i, d.action, env);
        case _ => StatusEvolves(s.tasks, i, s.tasks[i].(status := Failed), s.nextObj, false);
      }
    }
  }

  lemma {:induction false} KinIsOther(v: seq<Task>, i: nat, t: Task)
    requires DistinctTasks(v) && i < |v| && Kin(v, i, t)
    ensures t.obj != v[i].obj
  {}

  lemma {:induction false} OffspringFailed(v: seq<Task>, i: nat, t: Task, nextSeq: nat, nextObj: nat, retried: bool)
    requires GoodTasks(v, nextSeq, nextObj) && i < |v| && Offspring(v, i, t, nextObj, retried)
    ensures Offspring(v, i, if t.obj == v[i].obj then t.(status := Failed) else t, nextObj, retried)
  {}

  /** Failing the executed object once more, after stagnation. */
  lemma {:induction false} StagnationEvolves(v: seq<Task>, i: nat, r: seq<Task>, nextSeq: nat, nextObj: nat,
                                             retried: bool)
    requires GoodTasks(v, nextSeq, nextObj) && i < |v| && Evolves(v, i, r, nextObj, retried)
    ensures Evolves(v, i, FailObject(r, v[i].obj), nextObj, retried)
  {
    var f := FailObject(r, v[i].obj);
    forall k | 0 <= k < |f| ensures Offspring(v, i, f[k], nextObj, retried) {
      assert Offspring(v, i, r[k], nextObj, retried);
      OffspringFailed(v, i, r[k], nextSeq, nextObj, retried);
    }
    forall j | 0 <= j < |v| && j != i && IsFinished(v[j].status) ensures Present(f, v[j]) {
      assert Present(r, v[j]);
      var k :| 0 <= k < |r| && Settled(r[k]) == Settled(v[j]);
      assert r[k].obj == Settled(r[k]).obj == v[j].obj;
      PresentIntro(f, k, v[j]);
    }
  }

  lemma {:induction false} RouteFailureEvolves(s: KState, i: nat, ownCodes: set<Code>, env: Env)
    requires MayRun(s, i)
    ensures Evolves(s.tasks, i, RouteFailure(s, i, ownCodes, env).tasks, s.nextObj, Retries(s, i, ownCodes, env))
  {
    var d := DecisionFor(s, ownCodes, env);
    var c := FailureCounted(s, s.tasks[i].id, d, env);
    StatusEvolves(s.tasks, i, s.tasks[i].(status := Failed), s.nextObj, false);
    ConcludedEvolves(c, i, d, env);
  }

  lemma {:induction false} ConcludedEvolves(c: KState, i: nat, d: Decision, env: Env)
    requires MayRun(c, i)
    ensures Evolves(c.tasks, i,
                    StagnationChecked(Transition(c, i, d, env), c.tasks[i].obj, env.secondsStalled).tasks, c.nextObj,
                    IsRetryable(d) && HasBudgetFor(c.tasks[i]))
  {
    TransitionEvolves(c, i, d, env);
    StagnationEvolves(c.tasks, i, Transition(c, i, d, env).tasks, c.nextSeq, c.nextObj,
                      IsRetryable(d) && HasBudgetFor(c.tasks[i]));
  }

  /* ---- plan replies ---- */

  lemma {:induction false} BatchIsNew(s: KState, specs: seq<Spec>, k: nat)
    requires PlanInv(s) && (forall spec :: spec in specs ==> GoodSpec(spec)) && k < |CompiledBatch(s, specs).subgoals|
    ensures IsNew(BatchTasks(CompiledBatch(s, specs).subgoals, s.nextObj)[k], s.nextObj)
  {
    CompiledBatchInv(s, specs);
    BatchTaskGood(CompiledBatch(s, specs), TaskGraph(s.tasks).Keys, SeqOf(s), s.nextObj, k);
  }

  lemma {:induction false} PlanDoneEvolves(s: KState, after: KState, more: seq<Task>, i: nat)
    requires MayRun(s, i) && after.tasks == s.tasks + more
    requires forall k :: 0 <= k < |more| ==> IsNew(more[k], s.nextObj)
    ensures Evolves(s.tasks, i, PlanDone(after, i).tasks, s.nextObj, false)
  {
    UpdateEvolves(s.tasks, i, s.tasks[i].(status := Done), more, s.nextObj, false);
  }

  lemma {:induction false} SubgoalsEvolve(s: KState, i: nat, specs: seq<Spec>, tools: Tools)
    requires MayRun(s, i) && forall spec :: spec in specs ==> GoodSpec(spec)
    requires AppendSubgoals(s, specs, tools).added > 0
    ensures Evolves(s.tasks, i, PlanDone(AppendSubgoals(s, specs, tools).state, i).tasks, s.nextObj, false)
  {
    var more := BatchTasks(CompiledBatch(s, specs).subgoals, s.nextObj);
    forall k | 0 <= k < |more| ensures IsNew(more[k], s.nextObj) { BatchIsNew(s, specs, k); }
    PlanDoneEvolves(s, AppendSubgoals(s, specs, tools).state, more, i);
  }

  lemma {:induction false} LooseEvolve(s: KState, i: nat, specs: seq<TaskSpec>)
    requires MayRun(s, i) && forall spec :: spec in specs ==> GoodTaskSpec(spec)
    requires AppendTasks(s, specs).added > 0
    ensures Evolves(s.tasks, i, PlanDone(AppendTasks(s, specs).state, i).tasks, s.nextObj, false)
  {
    var more := LooseTasks(specs, SeqOf(s), s.nextObj);
    LooseTasksView(specs, SeqOf(s), s.nextObj);
    forall k | 0 <= k < |more| ensures IsNew(more[k], s.nextObj) {
      assert LooseAt(more[k], SeqOf(s) + k, s.nextObj + k);
    }
    PlanDoneEvolves(s, AppendTasks(s, specs).state, more, i);
  }

  lemma {:induction false} PlanReplyEvolves(s: KState, i: nat, env: Env)
    requires MayRun(s, i) && GoodReply(env.reply) && !PlanReply(s, i, env).raised
    ensures Evolves(s.tasks, i, PlanReply(s, i, env).state.tasks, s.nextObj, false)
  {
    CompileFailedRouteEvolves(Log(s, PlannerCompileFailed(s.tasks[i].id)), i, env);
    if NonBlank(env.reply.planIssues) == [] {
      var a := AppendSubgoals(s, env.reply.subgoals, env.tools);
      if !a.rejected && a.added > 0 {
        SubgoalsEvolve(s, i, env.reply.subgoals, env.tools);
      } else if !a.rejected {
        LooseEvolve(s, i, env.reply.tasks);
      }
    }
  }

  /** The failure of the task at `i` is routed, not settled by the planner or a success. */
  predicate Routed(v: KState, i: nat, env: Env)
    requires i < |v.tasks|
  {
    var plans := IsPlanGoal(v.tasks[i].kind);
    !(plans && env.reply.ok) && !(env.reply.ok && env.criteriaMet)
      && !(plans && Lower(Strip(env.reply.error)) == "planner_compile_failed")
  }

  ghost predicate Retried(v: KState, i: nat, ownCodes: set<Code>, env: Env)
    requires i < |v.tasks|
  {
    Routed(v, i, env) && Retries(v, i, ownCodes, env)
  }

  lemma {:induction false} ResolveEvolves(v: KState, i: nat, ownCodes: set<Code>, env: Env)
    requires MayRun(v, i) && GoodReply(env.reply) && !Resolve(v, i, ownCodes, env).raised
    ensures Evolves(v.tasks, i, Resolve(v, i, ownCodes, env).state.tasks, v.nextObj, Retried(v, i, ownCodes, env))
  {
    if Routed(v, i, env) {
      RouteFailureEvolves(v, i, ownCodes, env);
    } else if IsPlanGoal(v.tasks[i].kind) && env.reply.ok {
      PlanReplyEvolves(v, i, env);
    } else if env.reply.ok {
      StatusEvolves(v.tasks, i, v.tasks[i].(status := Done), v.nextObj, false);
    } else {
      CompileFailedRouteEvolves(v, i, env);
    }
  }

  /** The ledger, budget and status after the reply. */
  lemma {:induction false} ResolveFrame(v: KState, i: nat, ownCodes: set<Code>, env: Env)
    requires i < |v.tasks| && !Resolve(v, i, ownCodes, env).raised
    ensures var r := Resolve(v, i, ownCodes, env).state;
            var d := DecisionFor(v, ownCodes, env);
            && r.used == v.used && r.max == v.max
            && (r.status == Completed ==> AllFinished(r.tasks))
            && Ledger(r.trace) == Ledger(v.trace)
                                  + (if Routed(v, i, env) then [FailureRouted(v.tasks[i].id, d)] else [])
                                  + (if Retried(v, i, ownCodes, env) then RetryEntry(v.tasks[i]) else [])
            && r.breaker.errorStreaks
               == (if Routed(v, i, env) then Bump(v.breaker.errorStreaks, v.tasks[i].id, d.fingerprint)
                   else v.breaker.errorStreaks)
  {
    assert Ledger(v.trace) + [] == Ledger(v.trace);
    assert Ledger(v.trace) + [] + [] == Ledger(v.trace);
    if Routed(v, i, env) {
      RouteFailureFrame(v, i, ownCodes, env);
    } else if IsPlanGoal(v.tasks[i].kind) && env.reply.ok {
      PlanReplyQuiet(v, i, env);
    } else if env.reply.ok {
      PassedQuiet(v, i);
    } else {
      CompileFailedRouteQuiet(v, i, env);
    }
  }
}
