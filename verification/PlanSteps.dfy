/** Every part of `run_step` keeps the plan invariant. */
module PlanSteps {
  import opened Basics
  import opened PyText
  import opened Schemas
  import opened PlanGraph
  import opened CompileCheck
  import opened LocalReplan
  import opened FailureRouter
  import opened KernelState
  import opened PlanInvariant

  /* ---- bootstrap, marking, calling the worker ---- */

  lemma {:induction false} NoEdgesAcyclic(g: Graph)
    requires forall a :: a in g ==> g[a] == []
    ensures WellFormed(g, {})
  {
    var rank: map<string, nat> := map a | a in g :: 0;
    forall n ensures !ReachesCycle(g, n) {
      if n in g { RankedReachesNoCycle(g, g.Keys, rank, n); }
    }
  }

  lemma {:induction false} MintedIdBelow(n: nat)
    ensures IdBelow(MintedId(n), n + 1)
  {
    forall m: nat | MintedId(n) == MintedId(m) ensures m < n + 1 {
      MintedIdInjective(n, m);
    }
  }

  /** A first task without dependencies, with an id minted for it. */
  lemma {:induction false} FirstTaskKeeps(t: Task, nextSeq: nat, nextObj: nat)
    requires t.obj == nextObj && t.id == MintedId(nextSeq) && t.status == Draft && Deps(t) == []
    requires GoodTask(t, nextSeq + 1, nextObj + 1)
    ensures GoodTasks([t], nextSeq + 1, nextObj + 1)
  {
    TaskSnoc([], t);
    assert [] + [t] == [t];
    NoEdgesAcyclic(TaskGraph([t]));
    AppendKeeps([], [t], nextSeq, nextObj, nextSeq + 1, nextObj + 1);
  }

  lemma {:induction false} PlannedView(s: KState, planner: Planner)
    requires s.tasks == []
    ensures var p := Planned(s, planner);
            && |p.tasks| == 1 && p.nextSeq == s.nextSeq + 1 && p.nextObj == s.nextObj + 1
            && p.tasks[0].obj == s.nextObj && p.tasks[0].id == MintedId(s.nextSeq) && p.tasks[0].status == Draft
            && Deps(p.tasks[0]) == [] && p.tasks[0].retries == 0
  {}

  lemma {:induction false} PlannedKeeps(s: KState, planner: Planner)
    requires PlanInv(s)
    ensures PlanInv(Planned(s, planner))
  {
    var p := Planned(s, planner);
    if s.tasks == [] {
      PlannedView(s, planner);
      MintedIdBelow(s.nextSeq);
      FirstTaskKeeps(p.tasks[0], s.nextSeq, s.nextObj);
      assert p.tasks == [p.tasks[0]];
    }
  }

  lemma {:induction false} MarkedView(t: Task, nodes: seq<Subgoal>, tools: Tools)
    requires t.status in LIVE_STATUSES
    ensures var m := Marked(t, nodes, tools);
            && m.id == t.id && m.obj == t.obj && Deps(m) == Deps(t) && m.status in LIVE_STATUSES
            && (IsFinished(m.status) <==> IsFinished(t.status))
  {}

  lemma {:induction false} CheckedKeeps(s: KState, tools: Tools)
    requires PlanInv(s)
    ensures PlanInv(Checked(s, tools)) && SameShape(s.tasks, Checked(s, tools).tasks)
  {
    var nodes := Nodes(s.tasks);
    var after := MarkedTasks(s.tasks, nodes, tools);
    forall k | 0 <= k < |after|
      ensures after[k].id == s.tasks[k].id && after[k].obj == s.tasks[k].obj && Deps(after[k]) == Deps(s.tasks[k])
      ensures after[k].status in LIVE_STATUSES && (IsFinished(after[k].status) <==> IsFinished(s.tasks[k].status))
    {
      assert GoodTask(s.tasks[k], s.nextSeq, s.nextObj);
      MarkedView(s.tasks[k], nodes, tools);
    }
    SameShapeKeeps(s.tasks, after, s.nextSeq, s.nextObj);
  }

  /** The task at `i` may run: it is unfinished and its dependencies are finished. */
  ghost predicate CanRun(tasks: seq<Task>, i: nat, nextSeq: nat, nextObj: nat) {
    && GoodTasks(tasks, nextSeq, nextObj) && i < |tasks| && !IsFinished(tasks[i].status)
    && forall d :: d in Deps(tasks[i]) ==> d in DoneIds(tasks)
  }

  ghost predicate MayRun(s: KState, i: nat) {
    CanRun(s.tasks, i, s.nextSeq, s.nextObj)
  }

  /** No task of the plan with the given identity is finished. */
  ghost predicate Unfinished(tasks: seq<Task>, obj: nat) {
    forall k :: 0 <= k < |tasks| && tasks[k].obj == obj ==> !IsFinished(tasks[k].status)
  }

  /** A task that is updated but not finished. */
  ghost predicate Reworked(was: Task, t: Task) {
    t.id == was.id && t.obj == was.obj && Deps(t) == Deps(was) && t.status in LIVE_STATUSES && !IsFinished(t.status)
  }

  lemma {:induction false} UpdateKeeps(tasks: seq<Task>, i: nat, t: Task, nextSeq: nat, nextObj: nat)
    requires CanRun(tasks, i, nextSeq, nextObj) && Reworked(tasks[i], t)
    ensures CanRun(tasks[i := t], i, nextSeq, nextObj) && Unfinished(tasks[i := t], t.obj)
  {
    var after := tasks[i := t];
    forall k | 0 <= k < |after| ensures after[k].status in LIVE_STATUSES {
      assert GoodTask(tasks[k], nextSeq, nextObj);
    }
    SameShapeKeeps(tasks, after, nextSeq, nextObj);
    SameShapeSameGraph(tasks, after);
  }

  lemma {:induction false} InvokedKeeps(s: KState, i: nat, ok: bool)
    requires MayRun(s, i)
    ensures MayRun(Invoked(s, i, ok), i)
  {
    var t := WithBudget(s.tasks[i].(status := Running), s.used, s.max);
    UpdateKeeps(s.tasks, i, t, s.nextSeq, s.nextObj);
    assert Invoked(s, i, ok).tasks == s.tasks[i := t];
  }

  lemma {:induction false} StatusUpdate(s: KState, i: nat, status: Status)
    requires MayRun(s, i) && status in LIVE_STATUSES && !IsFinished(status)
    ensures MayRun(WithStatus(s, i, status), i) && Unfinished(WithStatus(s, i, status).tasks, s.tasks[i].obj)
  {
    UpdateKeeps(s.tasks, i, s.tasks[i].(status := status), s.nextSeq, s.nextObj);
  }

  lemma {:induction false} DoneKeeps(s: KState, i: nat)
    requires MayRun(s, i)
    ensures PlanInv(WithStatus(s, i, Done))
  {
    FinishKeeps(s.tasks, i, s.nextSeq, s.nextObj);
  }

  /* ---- local replan ---- */

  /** A surviving task as the replan writes it back: its retry policy is spelled out. */
  function Resynced(t: Task): Task {
    Synced(t, FromTask(t))
  }

  lemma {:induction false} ResyncedView(t: Task)
    requires t.status in LIVE_STATUSES
    ensures Resynced(t) == t.(payload := t.payload.(retryPolicy := Some(Policy(t))))
    ensures Deps(Resynced(t)) == Deps(t) && Policy(Resynced(t)) == Policy(t)
  {}

  lemma {:induction false} LastIndexDistinct(tasks: seq<Task>, i: nat)
    requires DistinctTasks(tasks) && i < |tasks|
    ensures LastIndex(tasks, tasks[i].id) == Some(i)
  {}

  function NewTask(s: KState, i: nat, constrained: bool, canDelegate: bool): Task
    requires i < |s.tasks|
  {
    ToTask(Replacement(s, s.tasks[i], constrained, canDelegate).(state := DRAFT), 30, s.nextObj)
  }

  /** The positions of the tasks that survive a replan of the task at `i`. */
  ghost function Staying(tasks: seq<Task>, i: nat): seq<nat>
    requires i < |tasks|
  {
    Positions(Nodes(tasks), tasks[i].id, Nodes(tasks))
  }

  ghost predicate FreshTaskId(tasks: seq<Task>, id: string) {
    forall k :: 0 <= k < |tasks| ==> tasks[k].id != id
  }

  lemma {:induction false} StayingIff(tasks: seq<Task>, i: nat, j: nat)
    requires i < |tasks|
    ensures j in Staying(tasks, i) <==> j < |tasks| && !Dropped(Nodes(tasks), tasks[i].id, tasks[j].id)
  {
    PositionIff(Nodes(tasks), tasks[i].id, Nodes(tasks), j);
  }

  /** The new plan: the tasks that are not dropped, in their old order, and one new task. */
  lemma {:induction false} ReplannedShape(s: KState, i: nat, constrained: bool, canDelegate: bool)
    requires DistinctTasks(s.tasks) && i < |s.tasks| && FreshTaskId(s.tasks, MintedId(SeqOf(s)))
    ensures var after := ReplannedTasks(s, i, constrained, canDelegate);
            && |after| > 0 && KeptOf(s.tasks, i, after[..|after| - 1])
            && after[|after| - 1] == NewTask(s, i, constrained, canDelegate)
  {
    var nodes := Nodes(s.tasks);
    var failedId := s.tasks[i].id;
    var at := Staying(s.tasks, i);
    SurvivorsAt(nodes, failedId, nodes);
    var r := Replacement(s, s.tasks[i], constrained, canDelegate);
    var merged := Replanned(nodes, failedId, r);
    var after := ReplannedTasks(s, i, constrained, canDelegate);
    forall k | 0 <= k < |at| ensures after[k] == Resynced(s.tasks[at[k]]) {
      assert merged[k] == nodes[at[k]] == FromTask(s.tasks[at[k]]);
      LastIndexDistinct(s.tasks, at[k]);
    }
    assert merged[|at|] == r.(state := DRAFT);
  }

  lemma {:induction false} SurvivorView(s: KState, i: nat, k: nat)
    requires PlanInv(s) && i < |s.tasks| && k < |Staying(s.tasks, i)|
    requires Staying(s.tasks, i)[k] < |s.tasks|
    ensures var m := s.tasks[Staying(s.tasks, i)[k]];
            var survivors := Survivors(Nodes(s.tasks), s.tasks[i].id, Nodes(s.tasks));
            && k < |survivors| && survivors[k].id == m.id && survivors[k].dependencies == Deps(Resynced(m))
            && (Finished(survivors[k]) <==> IsFinished(Resynced(m).status))
            && Resynced(m).id == m.id
  {
    SurvivorsAt(Nodes(s.tasks), s.tasks[i].id, Nodes(s.tasks));
    var m := s.tasks[Staying(s.tasks, i)[k]];
    assert GoodTask(m, s.nextSeq, s.nextObj);
    ResyncedView(m);
    SubgoalView(m);
  }

  /** The graph of the surviving tasks is the surviving part of the graph. */
  lemma {:induction false} KeptGraph(s: KState, i: nat, kept: seq<Task>)
    requires PlanInv(s) && i < |s.tasks|
    requires KeptOf(s.tasks, i, kept)
    ensures TaskGraph(kept) == Cut(TaskGraph(s.tasks), Nodes(s.tasks), s.tasks[i].id)
    ensures DoneIds(kept) == DoneIds(s.tasks)
  {
    var nodes := Nodes(s.tasks);
    var survivors := Survivors(nodes, s.tasks[i].id, nodes);
    SurvivorsAt(nodes, s.tasks[i].id, nodes);
    forall k | 0 <= k < |kept| ensures Shows(survivors[k], kept[k]) {
      SurvivorView(s, i, k);
    }
    TasksAgree(kept, survivors);
    SurvivorsGraph(nodes, s.tasks[i].id, nodes);
    SurvivorsFinished(nodes, s.tasks[i].id, nodes);
    NodesGraph(s.tasks);
  }

  /** The next minted id is not in the plan. */
  lemma {:induction false} FreshId(s: KState)
    requires PlanInv(s)
    ensures FreshTaskId(s.tasks, MintedId(SeqOf(s))) && MintedId(SeqOf(s)) !in TaskGraph(s.tasks)
  {
    forall k | 0 <= k < |s.tasks| ensures s.tasks[k].id != MintedId(SeqOf(s)) {
      assert GoodTask(s.tasks[k], s.nextSeq, s.nextObj);
    }
    NotBefore(s.tasks, MintedId(SeqOf(s)));
  }

  lemma {:induction false} NewTaskView(s: KState, i: nat, constrained: bool, canDelegate: bool)
    requires i < |s.tasks|
    ensures var r := NewTask(s, i, constrained, canDelegate);
            && r.id == MintedId(SeqOf(s)) && r.obj == s.nextObj && r.status == Draft && r.retries == 0
            && Policy(r) == Policy(s.tasks[i])
            && Deps(r) == if canDelegate then [] else Deps(s.tasks[i])
  {
    ParsePolicyStable(s.tasks[i].payload.retryPolicy, s.tasks[i].retries);
  }

  /** The surviving tasks after a replan: those at the staying positions, resynced. */
  ghost predicate KeptOf(tasks: seq<Task>, i: nat, kept: seq<Task>)
    requires i < |tasks|
  {
    var at := Staying(tasks, i);
    |kept| == |at| && forall k :: 0 <= k < |at| ==> at[k] < |tasks| && kept[k] == Resynced(tasks[at[k]])
  }

  lemma {:induction false} KeptTask(s: KState, i: nat, kept: seq<Task>, k: nat) returns (j: nat)
    requires MayRun(s, i) && KeptOf(s.tasks, i, kept) && k < |kept|
    ensures j < |s.tasks| && j == Staying(s.tasks, i)[k] && j != i
    ensures kept[k].id == s.tasks[j].id && kept[k].obj == s.tasks[j].obj && kept[k].status == s.tasks[j].status
  {
    j := Staying(s.tasks, i)[k];
    assert j in Staying(s.tasks, i);
    StayingIff(s.tasks, i, j);
    FailedIsDropped(s, i);
    assert GoodTask(s.tasks[j], s.nextSeq, s.nextObj);
    ResyncedView(s.tasks[j]);
  }

  lemma {:induction false} KeptTasksGood(s: KState, i: nat, kept: seq<Task>)
    requires MayRun(s, i) && KeptOf(s.tasks, i, kept)
    ensures DistinctTasks(kept) && FreshTaskId(kept, MintedId(SeqOf(s)))
    ensures forall k :: 0 <= k < |kept| ==>
              GoodTask(kept[k], SeqOf(s) + 1, s.nextObj) && kept[k].obj != s.tasks[i].obj
  {
    PositionsOrdered(Nodes(s.tasks), s.tasks[i].id, Nodes(s.tasks));
    KeptDistinct(s, i, kept);
    forall k | 0 <= k < |kept|
      ensures GoodTask(kept[k], SeqOf(s) + 1, s.nextObj) && kept[k].obj != s.tasks[i].obj
              && kept[k].id != MintedId(SeqOf(s))
    {
      KeptTaskGood(s, i, kept, k);
    }
  }

  lemma {:induction false} KeptTaskGood(s: KState, i: nat, kept: seq<Task>, k: nat)
    requires MayRun(s, i) && KeptOf(s.tasks, i, kept) && k < |kept|
    ensures GoodTask(kept[k], SeqOf(s) + 1, s.nextObj) && kept[k].obj != s.tasks[i].obj
              && kept[k].id != MintedId(SeqOf(s))
  {
    FreshId(s);
    var j := KeptTask(s, i, kept, k);
    assert GoodTask(s.tasks[j], s.nextSeq, s.nextObj);
  }

  lemma {:induction false} KeptDistinct(s: KState, i: nat, kept: seq<Task>)
    requires MayRun(s, i) && KeptOf(s.tasks, i, kept)
    requires Increasing(Staying(s.tasks, i))
    ensures DistinctTasks(kept)
  {
    forall j, k | 0 <= j < k < |kept| ensures kept[j].id != kept[k].id && kept[j].obj != kept[k].obj {
      var a := KeptTask(s, i, kept, j);
      var b := KeptTask(s, i, kept, k);
      assert a < b;
    }
  }

  lemma {:induction false} ReplanKeeps(s: KState, i: nat, constrained: bool, canDelegate: bool)
    requires MayRun(s, i)
    ensures GoodTasks(ReplannedTasks(s, i, constrained, canDelegate), SeqOf(s) + 1, s.nextObj + 1)
    ensures var after := ReplannedTasks(s, i, constrained, canDelegate);
            forall k :: 0 <= k < |after| ==> after[k].obj != s.tasks[i].obj
  {
    FreshId(s);
    var after := ReplannedTasks(s, i, constrained, canDelegate);
    ReplannedShape(s, i, constrained, canDelegate);
    var n := |after| - 1;
    assert after == after[..n] + [after[n]];
    NewTaskView(s, i, constrained, canDelegate);
    assert GoodTask(s.tasks[i], s.nextSeq, s.nextObj);
    KeptAndNew(s, i, after[..n], after[n]);
  }

  lemma {:induction false} KeptAndNewGraph(s: KState, i: nat, kept: seq<Task>, r: Task)
    requires MayRun(s, i) && KeptOf(s.tasks, i, kept)
    requires r.id == MintedId(SeqOf(s)) && r.status == Draft && forall d :: d in Deps(r) ==> d in DoneIds(s.tasks)
    ensures WellFormed(TaskGraph(kept + [r]), DoneIds(kept + [r]))
  {
    FreshId(s);
    KeptGraph(s, i, kept);
    NodesGraph(s.tasks);
    TaskSnoc(kept, r);
    ReplanWellFormed(Nodes(s.tasks), s.tasks[i].id, TaskGraph(s.tasks), DoneIds(s.tasks), r.id, Deps(r));
  }

  lemma {:induction false} KeptAndNew(s: KState, i: nat, kept: seq<Task>, r: Task)
    requires MayRun(s, i) && KeptOf(s.tasks, i, kept)
    requires r.id == MintedId(SeqOf(s)) && r.obj == s.nextObj && r.status == Draft
    requires forall d :: d in Deps(r) ==> d in DoneIds(s.tasks)
    ensures GoodTasks(kept + [r], SeqOf(s) + 1, s.nextObj + 1)
    ensures forall k :: 0 <= k < |kept + [r]| ==> (kept + [r])[k].obj != s.tasks[i].obj
  {
    KeptAndNewGraph(s, i, kept, r);
    KeptTasksGood(s, i, kept);
    MintedIdBelow(SeqOf(s));
    assert GoodTask(s.tasks[i], s.nextSeq, s.nextObj);
    SnocGood(kept, r, SeqOf(s) + 1, s.nextObj);
  }

  lemma {:induction false} SnocGood(kept: seq<Task>, r: Task, nextSeq: nat, nextObj: nat)
    requires DistinctTasks(kept) && FreshTaskId(kept, r.id) && r.obj == nextObj && GoodTask(r, nextSeq, nextObj + 1)
    requires forall k :: 0 <= k < |kept| ==> GoodTask(kept[k], nextSeq, nextObj)
    ensures DistinctTasks(kept + [r])
    ensures forall k :: 0 <= k < |kept + [r]| ==> GoodTask((kept + [r])[k], nextSeq, nextObj + 1)
  {}

  lemma {:induction false} FailedIsDropped(s: KState, i: nat)
    requires PlanInv(s) && i < |s.tasks| && !IsFinished(s.tasks[i].status)
    ensures Dropped(Nodes(s.tasks), s.tasks[i].id, s.tasks[i].id)
  {
    NodesGraph(s.tasks);
    TaskInGraph(s.tasks, i);
    DescendsRoot(Nodes(s.tasks), s.tasks[i].id);
  }

  lemma {:induction false} AfterReplanKeeps(s: KState, i: nat, constrained: bool, env: Env)
    requires MayRun(s, i)
    ensures PlanInv(AfterReplan(s, i, constrained, env))
    ensures Unfinished(AfterReplan(s, i, constrained, env).tasks, s.tasks[i].obj)
  {
    if ReplanLoops(s, i, env) {
      StatusUpdate(s, i, Failed);
      ReplanBrokenView(s, i, constrained, env);
    } else {
      ReplanKeeps(s, i, constrained, env.canDelegate);
      ReplanDoneView(s, i, constrained, env);
    }
  }

  lemma {:induction false} ReplanBrokenView(s: KState, i: nat, constrained: bool, env: Env)
    requires i < |s.tasks| && ReplanLoops(s, i, env)
    ensures var r := AfterReplan(s, i, constrained, env);
            r.tasks == WithStatus(s, i, Failed).tasks && r.nextSeq == s.nextSeq && r.nextObj == s.nextObj
  {}

  lemma {:induction false} ReplanDoneView(s: KState, i: nat, constrained: bool, env: Env)
    requires i < |s.tasks| && !ReplanLoops(s, i, env)
    ensures var r := AfterReplan(s, i, constrained, env);
            && r.tasks == ReplannedTasks(s, i, constrained, env.canDelegate)
            && r.nextSeq == SeqOf(s) + 1 && r.nextObj == s.nextObj + 1
  {}

  /* ---- failures ---- */

  function AfterRetry(t: Task): Task {
    if t.retries + 1 < Policy(t).maxAttempts then t.(retries := t.retries + 1, status := Ready)
    else t.(status := Failed)
  }

  lemma {:induction false} RetryView(s: KState, i: nat)
    requires i < |s.tasks|
    ensures var r := RetryOrGiveUp(s, i);
            r.tasks == s.tasks[i := AfterRetry(s.tasks[i])] && r.nextSeq == s.nextSeq && r.nextObj == s.nextObj
  {}

  lemma {:induction false} RetryKeeps(s: KState, i: nat)
    requires MayRun(s, i)
    ensures PlanInv(RetryOrGiveUp(s, i)) && Unfinished(RetryOrGiveUp(s, i).tasks, s.tasks[i].obj)
  {
    RetryView(s, i);
    UpdateKeeps(s.tasks, i, AfterRetry(s.tasks[i]), s.nextSeq, s.nextObj);
  }

  lemma {:induction false} ReplanRouteKeeps(s: KState, i: nat, action: RouteAction, env: Env)
    requires MayRun(s, i)
    ensures PlanInv(ReplanRoute(s, i, action, env)) && Unfinished(ReplanRoute(s, i, action, env).tasks, s.tasks[i].obj)
  {
    StatusUpdate(s, i, FailedRetryable);
    AfterReplanKeeps(Log(WithStatus(s, i, FailedRetryable), FailureFallback(s.tasks[i].id, action)), i,
                     action == LocalReplanWithConstraints, env);
  }

  lemma {:induction false} ParkKeeps(s: KState, i: nat, action: RouteAction)
    requires MayRun(s, i)
    ensures PlanInv(Park(s, i, action)) && Unfinished(Park(s, i, action).tasks, s.tasks[i].obj)
  {
    StatusUpdate(s, i, Blocked);
  }

  lemma {:induction false} GiveUpKeeps(s: KState, i: nat)
    requires MayRun(s, i)
    ensures PlanInv(GiveUp(s, i)) && Unfinished(GiveUp(s, i).tasks, s.tasks[i].obj)
  {
    StatusUpdate(s, i, Failed);
  }

  lemma {:induction false} TransitionKeeps(s: KState, i: nat, d: Decision, env: Env)
    requires MayRun(s, i)
    ensures PlanInv(Transition(s, i, d, env)) && Unfinished(Transition(s, i, d, env).tasks, s.tasks[i].obj)
  {
    if IsRetryable(d) {
      RetryKeeps(s, i);
    } else {
      match d.action {
        case AskUser => ParkKeeps(s, i, d.action);
        case RepairAuth => ParkKeeps(s, i, d.action);
        case LocalReplan => ReplanRouteKeeps(s, i, d.action, env);
        case LocalReplanWithConstraints => ReplanRouteKeeps(s, i, d.action, env);
        case _ => GiveUpKeeps(s, i);
      }
    }
  }

  lemma {:induction false} StagnationKeeps(s: KState, obj: nat, stalled: bool)
    requires PlanInv(s) && Unfinished(s.tasks, obj)
    ensures PlanInv(StagnationChecked(s, obj, stalled))
  {
    var after := FailObject(s.tasks, obj);
    forall k | 0 <= k < |after|
      ensures after[k].status in LIVE_STATUSES && (IsFinished(s.tasks[k].status) <==> IsFinished(after[k].status))
    {
      assert GoodTask(s.tasks[k], s.nextSeq, s.nextObj);
    }
    SameShapeKeeps(s.tasks, after, s.nextSeq, s.nextObj);
  }

  lemma {:induction false} RouteFailureKeeps(s: KState, i: nat, ownCodes: set<Code>, env: Env)
    requires MayRun(s, i)
    ensures PlanInv(RouteFailure(s, i, ownCodes, env))
  {
    var d := DecisionFor(s, ownCodes, env);
    var c := FailureCounted(s, s.tasks[i].id, d, env);
    GiveUpKeeps(c, i);
    TransitionKeeps(c, i, d, env);
    StagnationKeeps(Transition(c, i, d, env), s.tasks[i].obj, env.secondsStalled);
  }

  lemma {:induction false} CompileFailedRouteKeeps(s: KState, i: nat, env: Env)
    requires MayRun(s, i)
    ensures PlanInv(CompileFailedRoute(s, i, env))
  {
    StatusUpdate(s, i, FailedRetryable);
    var f := WithStatus(s, i, FailedRetryable).(lastError := "planner_compile_failed");
    AfterReplanKeeps(Log(f, PlannerCompileFailedRoute(s.tasks[i].id)), i, true, env);
  }
}
