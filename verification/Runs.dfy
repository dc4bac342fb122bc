/** Safety over whole runs of the scheduler: any number of steps, with any worker replies, failure texts
    and clocks. */
module Runs {
  import opened PyText
  import opened Schemas
  import opened PlanGraph
  import opened CompileCheck
  import opened KernelState
  import opened PlanInvariant
  import opened PlanSteps
  import opened PlanBatches
  import opened TaskLives
  import opened Attempts
  import opened StepObjects

  /** A state before its first step; its kernel may have served other runs before. */
  ghost predicate Fresh(s: KState) {
    s.tasks == [] && s.trace == []
  }

  /** What happens to a run: a step, or a session that lets a waiting run go on. */
  datatype Move = Go(env: Env) | Resume

  /** A session resumes any run that is not over. */
  function Resumed(s: KState): KState {
    if s.status in {Completed, Aborted} then s else s.(status := Active)
  }

  /** A resumption changes nothing but the status, and makes a run active that is not over. */
  lemma {:induction false} ResumedIs(s: KState)
    ensures Resumed(s) == s.(status := Resumed(s).status)
    ensures Resumed(s).status == Active <==> s.status in {Active, AwaitingUser}
    ensures s.status in {Completed, Aborted} ==> Resumed(s).status == s.status
  {
    assert s.status.Active? || s.status.Completed? || s.status.Aborted? || s.status.AwaitingUser?;
  }

  ghost function Moved(s: KState, move: Move, planner: Planner): KState {
    match move
    case Go(env) => Step(s, env, planner).state
    case Resume => Resumed(s)
  }

  /** The state after a sequence of moves; a caller may go on after a step that raised. */
  ghost function After(s: KState, moves: seq<Move>, planner: Planner): KState {
    if moves == [] then s
    else Moved(After(s, moves[..|moves| - 1], planner), moves[|moves| - 1], planner)
  }

  ghost predicate GoodMove(move: Move) {
    move.Go? ==> GoodReply(move.env.reply)
  }

  ghost predicate GoodMoves(moves: seq<Move>) {
    forall move :: move in moves ==> GoodMove(move)
  }

  lemma {:induction false} FreshInv(s: KState)
    requires Fresh(s)
    ensures PlanInv(s) && ObjInv(s)
  {
    NoEdgesAcyclic(map[]);
  }

  lemma {:induction false} MoveKeepsInv(s: KState, move: Move, planner: Planner)
    requires PlanInv(s) && ObjInv(s) && GoodMove(move)
    ensures PlanInv(Moved(s, move, planner)) && ObjInv(Moved(s, move, planner))
  {
    if move.Go? {
      StepKeepsPlan(s, move.env, planner);
      StepKeepsAttempts(s, move.env, planner);
    }
  }

  lemma {:induction false} ReachableInv(s: KState, moves: seq<Move>, planner: Planner)
    requires Fresh(s) && GoodMoves(moves)
    ensures PlanInv(After(s, moves, planner)) && ObjInv(After(s, moves, planner))
  {
    if moves == [] {
      FreshInv(s);
    } else {
      var n := |moves| - 1;
      assert moves[n] in moves;
      ReachableInv(s, moves[..n], planner);
      MoveKeepsInv(After(s, moves[..n], planner), moves[n], planner);
    }
  }

  /* ---- the plan ---- */

  /** In every reachable state the ids are distinct, every dependency names a task of the plan, there is no
      dependency cycle, and what a finished task depends on is finished. */
  lemma {:induction false} PlanAlwaysWellFormed(s: KState, moves: seq<Move>, planner: Planner)
    requires Fresh(s) && GoodMoves(moves)
    ensures var tasks := After(s, moves, planner).tasks;
            && (forall j, k :: 0 <= j < k < |tasks| ==> tasks[j].id != tasks[k].id)
            && (forall i, d :: 0 <= i < |tasks| && d in Deps(tasks[i]) ==> Supplied(tasks, tasks[i], d))
            && (forall i :: 0 <= i < |tasks| ==>
               tasks[i].id in TaskGraph(tasks) && TaskGraph(tasks)[tasks[i].id] == Deps(tasks[i]))
            && Acyclic(TaskGraph(tasks))
  {
    ReachableInv(s, moves, planner);
    var m := After(s, moves, planner);
    forall i | 0 <= i < |m.tasks|
      ensures m.tasks[i].id in TaskGraph(m.tasks) && TaskGraph(m.tasks)[m.tasks[i].id] == Deps(m.tasks[i])
    {
      TaskInGraph(m.tasks, i);
    }
    forall i, d | 0 <= i < |m.tasks| && d in Deps(m.tasks[i]) ensures Supplied(m.tasks, m.tasks[i], d) {
      DependencySupplied(m, i, d);
    }
  }

  /** The dependency `d` of `t` is a task of the plan, finished if `t` is. */
  ghost predicate Supplied(tasks: seq<Task>, t: Task, d: string) {
    exists k :: 0 <= k < |tasks| && tasks[k].id == d && (IsFinished(t.status) ==> IsFinished(tasks[k].status))
  }

  lemma {:induction false} DependencySupplied(m: KState, i: nat, d: string)
    requires PlanInv(m) && i < |m.tasks| && d in Deps(m.tasks[i])
    ensures Supplied(m.tasks, m.tasks[i], d)
  {
    TaskInGraph(m.tasks, i);
    var k := GraphHasTask(m.tasks, d);
    TaskInGraph(m.tasks, k);
  }

  ghost predicate FinishedIn(tasks: seq<Task>, id: string) {
    exists k :: 0 <= k < |tasks| && tasks[k].id == id && IsFinished(tasks[k].status)
  }

  lemma {:induction false} DoneIdHasTask(tasks: seq<Task>, id: string)
    requires id in DoneIds(tasks)
    ensures FinishedIn(tasks, id)
  {
    var n := |tasks| - 1;
    if !(tasks[n].id == id && IsFinished(tasks[n].status)) {
      DoneIdHasTask(tasks[..n], id);
      var k :| 0 <= k < n && tasks[..n][k].id == id && IsFinished(tasks[..n][k].status);
      assert tasks[k].id == id && IsFinished(tasks[k].status);
    }
  }

  lemma {:induction false} CalledIsReady(s: KState, env: Env, planner: Planner)
    requires PlanInv(s) && Calls(s, env, planner)
    ensures var p := Planned(s, planner);
            var t := p.tasks[Called(s, env, planner)];
            !IsFinished(t.status) && forall d :: d in Deps(t) ==> FinishedIn(p.tasks, d)
  {
    var p := Planned(s, planner);
    CallReady(s, env, planner);
    SameShapeSameGraph(p.tasks, Checked(p, env.tools).tasks);
    forall d | d in Deps(p.tasks[Called(s, env, planner)]) ensures FinishedIn(p.tasks, d) {
      DoneIdHasTask(p.tasks, d);
    }
  }

  /** In a whole run the worker is only ever handed an unfinished task whose dependencies are all finished. */
  lemma {:induction false} WorkerSeesFinishedDependencies(s: KState, moves: seq<Move>, env: Env, planner: Planner)
    requires Fresh(s) && GoodMoves(moves) && Calls(After(s, moves, planner), env, planner)
    ensures var p := Planned(After(s, moves, planner), planner);
            var t := p.tasks[Called(After(s, moves, planner), env, planner)];
            !IsFinished(t.status) && forall d :: d in Deps(t) ==> FinishedIn(p.tasks, d)
  {
    ReachableInv(s, moves, planner);
    CalledIsReady(After(s, moves, planner), env, planner);
  }

  /* ---- finished tasks ---- */

  lemma {:induction false} MarkedFinished(tasks: seq<Task>, nodes: seq<Subgoal>, tools: Tools, j: nat)
    requires j < |tasks| && IsFinished(tasks[j].status)
    ensures MarkedTasks(tasks, nodes, tools)[j] == tasks[j]
  {}

  lemma {:induction false} CheckedKeepsFinished(s: KState, tools: Tools, planner: Planner, j: nat)
    requires j < |s.tasks| && IsFinished(s.tasks[j].status)
    ensures var p := Planned(s, planner);
            j < |p.tasks| == |Checked(p, tools).tasks| && p.tasks[j] == s.tasks[j] == Checked(p, tools).tasks[j]
  {
    var p := Planned(s, planner);
    MarkedFinished(p.tasks, Nodes(p.tasks), tools, j);
  }

  lemma {:induction false} CallKeepsFinished(s: KState, env: Env, planner: Planner, j: nat)
    requires PlanInv(s) && Calls(s, env, planner) && j < |s.tasks| && IsFinished(s.tasks[j].status)
    ensures var v, i := AtCall(s, env, planner), Called(s, env, planner);
            MayRun(v, i) && j < |v.tasks| && j != i && v.tasks[j] == s.tasks[j]
  {
    CheckedKeepsFinished(s, env.tools, planner, j);
    CallReady(s, env, planner);
    CallFrame(s, env, planner);
  }

  lemma {:induction false} StepKeepsFinished(s: KState, env: Env, planner: Planner, j: nat)
    requires PlanInv(s) && GoodReply(env.reply) && j < |s.tasks| && IsFinished(s.tasks[j].status)
    ensures Present(Step(s, env, planner).state.tasks, s.tasks[j])
  {
    CheckedKeepsFinished(s, env.tools, planner, j);
    if Calls(s, env, planner) {
      CallKeepsFinished(s, env, planner, j);
      ExecutionKeepsFinished(AtCall(s, env, planner), Called(s, env, planner), CallCodes(s, env, planner), env, j);
      StepIsResolve(s, env, planner);
    } else {
      StepIsQuiet(s, env, planner);
      PresentIntro(Step(s, env, planner).state.tasks, j, s.tasks[j]);
    }
  }

  lemma {:induction false} ExecutionKeepsFinished(v: KState, i: nat, codes: set<Code>, env: Env, j: nat)
    requires MayRun(v, i) && GoodReply(env.reply) && j < |v.tasks| && j != i && IsFinished(v.tasks[j].status)
    ensures Present(Resolve(v, i, codes, env).state.tasks, v.tasks[j])
  {
    if Resolve(v, i, codes, env).raised {
      ResolveRaises(v, i, codes, env);
      PresentIntro(v.tasks, j, v.tasks[j]);
    } else {
      ResolveEvolves(v, i, codes, env);
      EvolvedPresent(v.tasks, i, Resolve(v, i, codes, env).state.tasks, v.nextObj, Retried(v, i, codes, env), j);
    }
  }

  lemma {:induction false} EvolvedPresent(v: seq<Task>, i: nat, r: seq<Task>, nextObj: nat, retried: bool, j: nat)
    requires i < |v| && Evolves(v, i, r, nextObj, retried) && j < |v| && j != i && IsFinished(v[j].status)
    ensures Present(r, v[j])
  {}

  lemma {:induction false} MoveKeepsFinished(s: KState, move: Move, planner: Planner, t: Task)
    requires PlanInv(s) && GoodMove(move) && Present(s.tasks, t) && IsFinished(t.status)
    ensures Present(Moved(s, move, planner).tasks, t)
  {
    var k :| 0 <= k < |s.tasks| && Settled(s.tasks[k]) == Settled(t);
    assert s.tasks[k].status == Settled(s.tasks[k]).status == t.status;
    if move.Go? {
      StepKeepsFinished(s, move.env, planner, k);
      SamePresent(Moved(s, move, planner).tasks, s.tasks[k], t);
    } else {
      PresentIntro(Resumed(s).tasks, k, t);
    }
  }

  lemma {:induction false} SamePresent(r: seq<Task>, a: Task, b: Task)
    requires Present(r, a) && Settled(a) == Settled(b)
    ensures Present(r, b)
  {}

  /** A finished task is never removed or changed by later moves, up to the spelling of its retry policy. */
  lemma {:induction false} FinishedTasksStay(s: KState, before: seq<Move>, after: seq<Move>, planner: Planner, j: nat)
    requires Fresh(s) && GoodMoves(before + after)
    requires j < |After(s, before, planner).tasks| && IsFinished(After(s, before, planner).tasks[j].status)
    ensures Present(After(s, before + after, planner).tasks, After(s, before, planner).tasks[j])
    decreases |after|
  {
    var t := After(s, before, planner).tasks[j];
    if after == [] {
      assert before + after == before;
      PresentIntro(After(s, before, planner).tasks, j, t);
    } else {
      var n := |after| - 1;
      var moves := before + after[..n];
      MovesSplit(s, before, after, planner);
      FinishedTasksStay(s, before, after[..n], planner, j);
      ReachableInv(s, moves, planner);
      MoveKeepsFinished(After(s, moves, planner), after[n], planner, t);
    }
  }

  lemma {:induction false} MovesSplit(s: KState, before: seq<Move>, after: seq<Move>, planner: Planner)
    requires after != [] && GoodMoves(before + after)
    ensures var n := |after| - 1;
            && GoodMoves(before + after[..n]) && GoodMove(after[n])
            && After(s, before + after, planner) == Moved(After(s, before + after[..n], planner), after[n], planner)
  {
    var n := |after| - 1;
    var moves := before + after[..n];
    assert before + after == moves + [after[n]];
    assert (before + after)[..|before + after| - 1] == moves;
    forall move | move in moves ensures GoodMove(move) {
      assert move in before + after;
    }
    assert after[n] in before + after;
  }

  /* ---- running tasks and exceptions ---- */

  ghost predicate NoneRunning(tasks: seq<Task>) {
    forall k :: 0 <= k < |tasks| ==> tasks[k].status != Running
  }

  lemma {:induction false} EvolvedNotRunning(v: seq<Task>, i: nat, r: seq<Task>, nextObj: nat, retried: bool)
    requires i < |v| && Evolves(v, i, r, nextObj, retried)
             && forall j :: 0 <= j < |v| && j != i ==> v[j].status != Running
    ensures NoneRunning(r)
  {}

  lemma {:induction false} CheckedNotRunning(s: KState, env: Env, planner: Planner)
    requires NoneRunning(s.tasks)
    ensures NoneRunning(Planned(s, planner).tasks) && NoneRunning(Checked(Planned(s, planner), env.tools).tasks)
  {}

  lemma {:induction false} ExecutionLeavesNoneRunning(v: KState, i: nat, codes: set<Code>, env: Env)
    requires MayRun(v, i) && GoodReply(env.reply) && !Resolve(v, i, codes, env).raised
    requires forall j :: 0 <= j < |v.tasks| && j != i ==> v.tasks[j].status != Running
    ensures NoneRunning(Resolve(v, i, codes, env).state.tasks)
  {
    ResolveEvolves(v, i, codes, env);
    EvolvedNotRunning(v.tasks, i, Resolve(v, i, codes, env).state.tasks, v.nextObj, Retried(v, i, codes, env));
  }

  lemma {:induction false} CallIsAlone(s: KState, env: Env, planner: Planner)
    requires PlanInv(s) && Calls(s, env, planner) && NoneRunning(Checked(Planned(s, planner), env.tools).tasks)
    ensures var v, i := AtCall(s, env, planner), Called(s, env, planner);
            MayRun(v, i) && forall j :: 0 <= j < |v.tasks| && j != i ==> v.tasks[j].status != Running
  {
    CallReady(s, env, planner);
    CallFrame(s, env, planner);
  }

  lemma {:induction false} CallLeavesNoneRunning(s: KState, env: Env, planner: Planner)
    requires PlanInv(s) && GoodReply(env.reply) && Calls(s, env, planner) && !Step(s, env, planner).raised
    requires NoneRunning(Checked(Planned(s, planner), env.tools).tasks)
    ensures NoneRunning(Step(s, env, planner).state.tasks)
  {
    CallIsAlone(s, env, planner);
    StepIsResolve(s, env, planner);
    ExecutionLeavesNoneRunning(AtCall(s, env, planner), Called(s, env, planner), CallCodes(s, env, planner), env);
  }

  /** A step that returns leaves no task running. */
  lemma {:induction false} StepLeavesNoneRunning(s: KState, env: Env, planner: Planner)
    requires PlanInv(s) && GoodReply(env.reply) && NoneRunning(s.tasks) && !Step(s, env, planner).raised
    ensures NoneRunning(Step(s, env, planner).state.tasks)
  {
    CheckedNotRunning(s, env, planner);
    if Calls(s, env, planner) {
      CallLeavesNoneRunning(s, env, planner);
    } else {
      StepIsQuiet(s, env, planner);
    }
  }

  /** The reply holds nothing that could become a task. */
  predicate EmptyPlan(reply: Reply) {
    && (forall spec :: spec in reply.subgoals ==> spec.NotADict?)
    && (forall spec :: spec in reply.tasks ==> spec.NotATask? || Blank(spec.description))
  }

  lemma {:induction false} NoSubgoals(specs: seq<Spec>, usedIds: set<string>, seqNo: nat)
    ensures AssignIds(specs, usedIds, seqNo).subgoals == [] <==> forall spec :: spec in specs ==> spec.NotADict?
  {
    if specs != [] {
      var n := |specs| - 1;
      NoSubgoals(specs[..n], usedIds, seqNo);
      assert specs == specs[..n] + [specs[n]];
    }
  }

  lemma {:induction false} NoLooseTasks(specs: seq<TaskSpec>, seqNo: nat, obj: nat)
    ensures LooseTasks(specs, seqNo, obj) == []
            <==> forall spec :: spec in specs ==> spec.NotATask? || Blank(spec.description)
  {
    if specs != [] {
      var n := |specs| - 1;
      NoLooseTasks(specs[..n], seqNo, obj);
      assert specs == specs[..n] + [specs[n]];
    }
  }

  lemma {:induction false} EmptyBatchIsClean(tools: Tools)
    ensures CompilesCleanly([], tools)
  {
    NoEdgesAcyclic(map[]);
    forall issue ensures !Flagged([], tools, issue) {
      if issue.code == FallbackSelfLoop { assert EndsWithin(map[], issue.subgoalId, 0); }
    }
  }

  /** `run_step` raises exactly when a planning task's worker reports success with no plan at all. */
  lemma {:induction false} StepRaisesIff(s: KState, env: Env, planner: Planner)
    ensures Step(s, env, planner).raised <==>
              && Calls(s, env, planner) && env.reply.ok
              && IsPlanGoal(AtCall(s, env, planner).tasks[Called(s, env, planner)].kind)
              && NonBlank(env.reply.planIssues) == [] && EmptyPlan(env.reply)
  {
    if Calls(s, env, planner) {
      StepIsResolve(s, env, planner);
      ResolveRaisesIff(AtCall(s, env, planner), Called(s, env, planner), CallCodes(s, env, planner), env);
      PlanReplyRaisesIff(AtCall(s, env, planner), Called(s, env, planner), env);
    } else {
      StepIsQuiet(s, env, planner);
    }
  }

  lemma {:induction false} ResolveRaisesIff(v: KState, i: nat, codes: set<Code>, env: Env)
    requires i < |v.tasks|
    ensures Resolve(v, i, codes, env).raised <==>
              env.reply.ok && IsPlanGoal(v.tasks[i].kind) && PlanReply(v, i, env).raised
  {}

  lemma {:induction false} PlanReplyRaisesIff(v: KState, i: nat, env: Env)
    requires i < |v.tasks|
    ensures PlanReply(v, i, env).raised <==> NonBlank(env.reply.planIssues) == [] && EmptyPlan(env.reply)
  {
    var b := CompiledBatch(v, env.reply.subgoals);
    NoSubgoals(env.reply.subgoals, TaskIds(v.tasks), SeqOf(v));
    NoLooseTasks(env.reply.tasks, SeqOf(v), v.nextObj);
    EmptyBatchIsClean(env.tools);
  }
}
