/** A run that calls the worker over and over and finishes nothing: how far the cycle gap of the stagnation guard can
    grow. */
module Stalled {
  import opened PyText
  import opened Schemas
  import opened CompileCheck
  import opened FailureRouter
  import opened CircuitBreakers
  import opened KernelState
  import opened StepObjects
  import opened Runs
  import opened Progress
  import opened Stranded
  import opened Sessions

  /* ---- planning tasks that are picked one after the other ---- */

  predicate Waits(t: Task) {
    LonePlan(t) && t.status in {Ready, Running}
  }

  predicate AllWait(tasks: seq<Task>) {
    forall k :: 0 <= k < |tasks| ==> Waits(tasks[k])
  }

  function ReadyCount(tasks: seq<Task>): nat {
    if tasks == [] then 0
    else ReadyCount(tasks[..|tasks| - 1]) + (if tasks[|tasks| - 1].status == Ready then 1 else 0)
  }

  lemma {:induction false} ReadyUpdate(tasks: seq<Task>, i: nat, t: Task)
    requires i < |tasks| && tasks[i].status == Ready && t.status == Running
    ensures ReadyCount(tasks[i := t]) == ReadyCount(tasks) - 1
  {
    var n := |tasks| - 1;
    if i == n {
      assert tasks[i := t][..n] == tasks[..n];
    } else {
      assert tasks[i := t][..n] == tasks[..n][i := t];
      ReadyUpdate(tasks[..n], i, t);
    }
  }

  lemma {:induction false} SomeIsReady(tasks: seq<Task>) returns (i: nat)
    requires ReadyCount(tasks) > 0
    ensures i < |tasks| && tasks[i].status == Ready
  {
    i := |tasks| - 1;
    if tasks[i].status != Ready {
      i := SomeIsReady(tasks[..i]);
    }
  }

  lemma {:induction false} WaitingIsBare(tasks: seq<Task>, tools: Tools)
    requires AllWait(tasks) && PlansFreely(tools)
    ensures AllBare(Nodes(tasks), tools)
  {
    forall k | 0 <= k < |tasks| ensures Bare(Nodes(tasks)[k], tools) {
      assert Waits(tasks[k]);
      LonePlanBare(tasks[k], tools);
    }
  }

  lemma {:induction false} WaitingIsClean(tasks: seq<Task>, tools: Tools, id: string)
    requires AllWait(tasks) && PlansFreely(tools)
    ensures CodesFor(Nodes(tasks), tools, id) == {}
  {
    WaitingIsBare(tasks, tools);
    BareCompiles(Nodes(tasks), tools);
  }

  lemma {:induction false} WaitingStays(tasks: seq<Task>, tools: Tools)
    requires AllWait(tasks) && PlansFreely(tools)
    ensures MarkedTasks(tasks, Nodes(tasks), tools) == tasks
  {
    forall k | 0 <= k < |tasks| ensures MarkedTasks(tasks, Nodes(tasks), tools)[k] == tasks[k] {
      assert Waits(tasks[k]);
      WaitingIsClean(tasks, tools, tasks[k].id);
    }
  }

  lemma {:induction false} ReadyIsPicked(tasks: seq<Task>)
    requires AllWait(tasks) && ReadyCount(tasks) > 0
    ensures Pick(tasks).Some? && tasks[Pick(tasks).value].status == Ready
  {
    var j := SomeIsReady(tasks);
    assert Waits(tasks[j]) && Runnable(tasks, j);
    PickIsFirst(tasks, |tasks|, j);
    assert Waits(tasks[Pick(tasks).value]);
  }

  /** A state in which only such tasks are left. */
  ghost predicate Stuck(s: KState) {
    s.tasks != [] && AllWait(s.tasks) && s.status == Active
  }

  lemma {:induction false} StuckCalls(s: KState, env: Env, planner: Planner)
    requires Stuck(s) && ReadyCount(s.tasks) > 0 && s.used < s.max && RepliesEmpty(env)
    ensures Calls(s, env, planner) && Checked(Planned(s, planner), env.tools).tasks == s.tasks
    ensures var i := Called(s, env, planner); i < |s.tasks| && s.tasks[i].status == Ready && LonePlan(s.tasks[i])
  {
    WaitingStays(s.tasks, env.tools);
    ReadyIsPicked(s.tasks);
    assert Waits(s.tasks[Pick(s.tasks).value]);
  }

  lemma {:induction false} StuckAtCall(s: KState, env: Env, planner: Planner)
    requires Stuck(s) && ReadyCount(s.tasks) > 0 && s.used < s.max && RepliesEmpty(env)
    ensures Calls(s, env, planner)
    ensures var v := AtCall(s, env, planner);
            && Stuck(v) && ReadyCount(v.tasks) == ReadyCount(s.tasks) - 1
            && v.used == s.used + 1 && v.max == s.max && v.breaker == s.breaker
            && v.tasks[Called(s, env, planner)].kind == "plan_goal"
  {
    StuckCalls(s, env, planner);
    CallFrame(s, env, planner);
    var v, i := AtCall(s, env, planner), Called(s, env, planner);
    ReadyUpdate(s.tasks, i, v.tasks[i]);
    assert Waits(v.tasks[i]);
    forall k | 0 <= k < |v.tasks| ensures Waits(v.tasks[k]) {
      if k != i { assert Waits(s.tasks[k]); }
    }
  }

  /** One call: the worker reports success with no plan, and the next step picks another task. */
  lemma {:induction false} StuckStep(s: KState, env: Env, planner: Planner)
    requires Stuck(s) && ReadyCount(s.tasks) > 0 && s.used < s.max && RepliesEmpty(env)
    ensures var r := Step(s, env, planner).state;
            && Stuck(r) && ReadyCount(r.tasks) == ReadyCount(s.tasks) - 1
            && r.used == s.used + 1 && r.max == s.max && r.breaker == s.breaker
  {
    StuckAtCall(s, env, planner);
    PlanGoalPlans();
    StepRaisesIff(s, env, planner);
    RaisedState(s, env, planner);
  }

  predicate Repeats(moves: seq<Move>, env: Env) {
    forall k :: 0 <= k < |moves| ==> moves[k] == Go(env)
  }

  lemma {:induction false} RepeatsBefore(moves: seq<Move>, env: Env)
    requires Repeats(moves, env) && moves != []
    ensures Repeats(moves[..|moves| - 1], env) && moves == moves[..|moves| - 1] + [Go(env)]
  {}

  function Again(env: Env, n: nat): (moves: seq<Move>)
    ensures |moves| == n && Repeats(moves, env)
  {
    seq(n, i => Go(env))
  }

  /** `n` calls later, with nothing finished. */
  ghost predicate Burned(s: KState, r: KState, n: nat) {
    && Stuck(r) && ReadyCount(r.tasks) + n == ReadyCount(s.tasks)
    && r.used == s.used + n && r.max == s.max && r.breaker == s.breaker
  }

  lemma {:induction false} BurnsMore(s: KState, r: KState, env: Env, planner: Planner, n: nat)
    requires Burned(s, r, n) && ReadyCount(s.tasks) > n && s.used + n < s.max && RepliesEmpty(env)
    ensures Burned(s, Step(r, env, planner).state, n + 1)
  {
    StuckStep(r, env, planner);
  }

  lemma {:induction false} StuckLonger(s: KState, moves: seq<Move>, env: Env, planner: Planner, n: nat)
    requires Burned(s, After(s, moves, planner), n) && ReadyCount(s.tasks) > n && s.used + n < s.max
    requires RepliesEmpty(env)
    ensures Burned(s, After(s, moves + [Go(env)], planner), n + 1)
  {
    AfterSnoc(s, moves, Go(env), planner);
    BurnsMore(s, After(s, moves, planner), env, planner, n);
  }

  lemma {:induction false} StuckRun(s: KState, moves: seq<Move>, env: Env, planner: Planner)
    requires Stuck(s) && ReadyCount(s.tasks) >= |moves| && s.used + |moves| <= s.max && RepliesEmpty(env)
    requires Repeats(moves, env)
    ensures Burned(s, After(s, moves, planner), |moves|)
  {
    if moves != [] {
      var n := |moves| - 1;
      var before := moves[..n];
      RepeatsBefore(moves, env);
      StuckRun(s, before, env, planner);
      StuckLonger(s, before, env, planner, n);
    }
  }

  lemma {:induction false} AfterSnoc(s: KState, moves: seq<Move>, move: Move, planner: Planner)
    ensures After(s, moves + [move], planner) == Moved(After(s, moves, planner), move, planner)
  {
    assert (moves + [move])[..|moves|] == moves;
  }

  /* ---- the gap ---- */

  /** Planning tasks with minted ids. */
  function LoneTasks(n: nat): (tasks: seq<Task>)
    ensures |tasks| == n && AllWait(tasks)
  {
    if n == 0 then []
    else LoneTasks(n - 1) + [Task(n - 1, MintedId(n - 1), "plan_goal", "", EMPTY_PAYLOAD, 5, Ready, 0)]
  }

  lemma {:induction false} LoneTasksReady(n: nat)
    ensures ReadyCount(LoneTasks(n)) == n
  {
    if n > 0 {
      LoneTasksReady(n - 1);
      assert LoneTasks(n)[..n - 1] == LoneTasks(n - 1);
    }
  }

  const EMPTY_REPLY := Env(map["plan_goal" := []], Reply(true, "", [], [], []), false,
                           KeywordHits(false, false, false, false, false, false, false, false), "", "", false, false)

  /** A run with this budget, on a breaker with this last cycle of progress. */
  ghost predicate Starts(s: KState, max: int, lastDone: int) {
    s.used == 0 && s.max == max && s.breaker.lastDoneCycle == lastDone
  }

  lemma {:induction false} GapReached(max: int, lastDone: int) returns (s: KState, moves: seq<Move>)
    requires lastDone >= 0 && max - lastDone >= STAGNATION_CYCLES
    ensures Starts(s, max, lastDone) && CycleGap(After(s, moves, GoalPlanner)) >= STAGNATION_CYCLES
  {
    var n := lastDone + STAGNATION_CYCLES;
    s := KState("", LoneTasks(n), Active, [], 0, max, "", false, "", n, n, BreakerState(map[], map[], lastDone));
    moves := Again(EMPTY_REPLY, n);
    LoneTasksReady(n);
    assert NonBlank([]) == [];
    StuckRun(s, moves, EMPTY_REPLY, GoalPlanner);
  }

  /** The cycle guard is out of reach in every run with this budget, on a breaker with this last cycle of progress,
      exactly if the budget ends less than the limit after that cycle. */
  lemma {:induction false} GapOutOfReachIff(max: int, lastDone: int)
    requires lastDone >= 0
    ensures (forall s, moves, planner :: Starts(s, max, lastDone) ==>
               CycleGap(After(s, moves, planner)) < STAGNATION_CYCLES)
            <==> max - lastDone < STAGNATION_CYCLES
  {
    if max - lastDone < STAGNATION_CYCLES {
      forall s, moves, planner | Starts(s, max, lastDone)
        ensures CycleGap(After(s, moves, planner)) < STAGNATION_CYCLES
      {
        StaleProgressSilences(s, moves, planner);
      }
    } else {
      var s, moves := GapReached(max, lastDone);
    }
  }
}
