/** What a step answers: how a run is completed, exhausted or left idle, in terms of the plan and of the worker's
    reply. */
module StepOutcomes {
  import opened PyText
  import opened Schemas
  import opened CompileCheck
  import opened KernelState
  import opened StepFrame
  import opened TaskLives
  import opened StepObjects

  /** Every other task of the plan is finished. */
  predicate OthersFinished(tasks: seq<Task>, i: nat) {
    forall j :: 0 <= j < |tasks| && j != i ==> IsFinished(tasks[j].status)
  }

  lemma {:induction false} FinishedWith(tasks: seq<Task>, i: nat)
    requires i < |tasks|
    ensures AllFinished(tasks[i := tasks[i].(status := Done)]) <==> OthersFinished(tasks, i)
  {
    var after := tasks[i := tasks[i].(status := Done)];
    if AllFinished(after) {
      forall j | 0 <= j < |tasks| && j != i ensures IsFinished(tasks[j].status) {
        assert after[j] in after;
      }
    }
  }

  /** The worker did what was asked, and the criteria hold of it. */
  predicate Satisfies(t: Task, env: Env) {
    !IsPlanGoal(t.kind) && env.reply.ok && env.criteriaMet
  }

  lemma {:induction false} PassResolves(v: KState, i: nat, codes: set<Code>, env: Env)
    requires i < |v.tasks| && Satisfies(v.tasks[i], env)
    ensures var o := Resolve(v, i, codes, env);
            && !o.raised && o.state.tasks == v.tasks[i := v.tasks[i].(status := Done)]
            && o.state.lastError == "" && o.state.trace == v.trace
            && o.state.breaker == v.breaker.(lastDoneCycle := Max(v.breaker.lastDoneCycle, v.used))
            && (if OthersFinished(v.tasks, i) then o.state.status == Completed && o.state.goalDone
                else o.state.status == Active && o.state.goalDone == v.goalDone)
  {
    FinishedWith(v.tasks, i);
  }

  /** A task whose reply satisfies its criteria is done, and nothing else changes in the plan; the run is completed
      exactly if every other task is finished. */
  lemma {:induction false} PassedStep(s: KState, env: Env, planner: Planner)
    requires Calls(s, env, planner) && Satisfies(AtCall(s, env, planner).tasks[Called(s, env, planner)], env)
    ensures var v, i := AtCall(s, env, planner), Called(s, env, planner);
            var o := Step(s, env, planner);
            && !o.raised && o.state.tasks == v.tasks[i := v.tasks[i].(status := Done)]
            && o.state.lastError == ""
            && o.state.breaker == v.breaker.(lastDoneCycle := Max(v.breaker.lastDoneCycle, v.used))
            && (if OthersFinished(v.tasks, i) then o.state.status == Completed && o.state.goalDone
                else o.state.status == Active && o.state.goalDone == v.goalDone)
  {
    StepIsResolve(s, env, planner);
    PassResolves(AtCall(s, env, planner), Called(s, env, planner), CallCodes(s, env, planner), env);
  }

  lemma {:induction false} OtherwiseNotCompleted(v: KState, i: nat, codes: set<Code>, env: Env)
    requires i < |v.tasks| && !Satisfies(v.tasks[i], env) && v.status == Active
    ensures Resolve(v, i, codes, env).state.status != Completed
  {
    if Routed(v, i, env) {
      RouteFailureFrame(v, i, codes, env);
    } else if IsPlanGoal(v.tasks[i].kind) && env.reply.ok {
      PlanReplyQuiet(v, i, env);
    } else {
      CompileFailedRouteQuiet(v, i, env);
    }
  }

  /** A step that calls the worker completes the run exactly if the called task is not a planning task, its reply
      satisfies it, and every other task of the plan is finished. The goal is then done, the task too, and no error is
      left. */
  lemma {:induction false} CompletesIff(s: KState, env: Env, planner: Planner)
    requires Calls(s, env, planner)
    ensures var v, i := AtCall(s, env, planner), Called(s, env, planner);
            var r := Step(s, env, planner).state;
            && (r.status == Completed <==> Satisfies(v.tasks[i], env) && OthersFinished(v.tasks, i))
            && (r.status == Completed ==>
                  r.goalDone && r.lastError == "" && i < |r.tasks| && r.tasks[i].status == Done)
  {
    var v, i := AtCall(s, env, planner), Called(s, env, planner);
    if Satisfies(v.tasks[i], env) {
      PassedStep(s, env, planner);
    } else {
      StepIsResolve(s, env, planner);
      CallStatus(s, env, planner);
      OtherwiseNotCompleted(v, i, CallCodes(s, env, planner), env);
    }
  }

  lemma {:induction false} CallStatus(s: KState, env: Env, planner: Planner)
    requires Calls(s, env, planner)
    ensures AtCall(s, env, planner).status == Active
  {}

  /* ---- without a call ---- */

  /** How the plan looks when the step looks for a task. */
  ghost function Plan(s: KState, env: Env, planner: Planner): seq<Task> {
    Checked(Planned(s, planner), env.tools).tasks
  }

  predicate SomeStatus(tasks: seq<Task>, statuses: set<Status>) {
    exists k :: 0 <= k < |tasks| && tasks[k].status in statuses
  }

  lemma {:induction false} IdleIs(c: KState)
    requires c.tasks != []
    ensures var r := Idle(c);
            && r.tasks == c.tasks && r.lastError == c.lastError
            && (if AllFinished(c.tasks) then r.status == Completed && r.goalDone && AllTasksDone in r.trace
                else r.goalDone == c.goalDone
                     && r.status == (if SomeStatus(c.tasks, {Failed, FailedFatal}) then Aborted
                                     else if SomeStatus(c.tasks, {Blocked}) then AwaitingUser
                                     else Aborted))
  {}

  /** A step of a running run that calls no worker ends the run: the budget is exhausted; or all tasks are finished,
      and the run is completed; or some task failed, and it is aborted; or some task is blocked, and it waits for the
      user; or nothing explains why nothing can run, and it is aborted. */
  lemma {:induction false} IdleStep(s: KState, env: Env, planner: Planner)
    requires s.status == Active && !Calls(s, env, planner)
    ensures var r, plan := Step(s, env, planner).state, Plan(s, env, planner);
            && !Step(s, env, planner).raised
            && if s.used >= s.max then
                 r.status == Aborted && r.lastError == "budget_exhausted" && BudgetExhausted(s.used) in r.trace
               else
                 && r.tasks == plan && r.lastError == s.lastError
                 && (if AllFinished(plan) then r.status == Completed && r.goalDone && AllTasksDone in r.trace
                     else r.goalDone == s.goalDone
                          && r.status == (if SomeStatus(plan, {Failed, FailedFatal}) then Aborted
                                          else if SomeStatus(plan, {Blocked}) then AwaitingUser
                                          else Aborted))
  {
    var p := Planned(s, planner);
    if s.used < s.max {
      StepIsIdle(s, env, planner);
      IdleIs(Checked(p, env.tools));
    }
  }

  lemma {:induction false} StepIsIdle(s: KState, env: Env, planner: Planner)
    requires s.status == Active && !Calls(s, env, planner) && s.used < s.max
    ensures var c := Checked(Planned(s, planner), env.tools);
            && Step(s, env, planner) == Outcome(Idle(c), false) && c.tasks != []
            && c.lastError == s.lastError && c.goalDone == s.goalDone
  {}

  /* ---- the plan before the call ---- */

  /** The first task of an empty plan: it carries the goal, and asks for a plan of it if the kernel has a planner. */
  lemma {:induction false} FirstTask(s: KState, planner: Planner)
    ensures var p := Planned(s, planner);
            if s.tasks != [] then p.tasks == s.tasks
            else
              && |p.tasks| == 1 && p.tasks[0].payload.extras == map["goal" := s.goal]
              && p.tasks[0].status == Draft && p.tasks[0].retries == 0
              && p.tasks[0].id == MintedId(s.nextSeq) && p.tasks[0].obj == s.nextObj
              && p.tasks[0].payload == EMPTY_PAYLOAD.(extras := map["goal" := s.goal])
              && (planner == GoalPlanner ==>
                    p.tasks[0].kind == "plan_goal" && p.tasks[0].priority == 5
                    && p.tasks[0].description == "Plan decomposition for goal: " + s.goal)
              && (planner == SimplePlanner ==>
                    p.tasks[0].kind == "bootstrap" && p.tasks[0].priority == 10
                    && p.tasks[0].description == "Start toward goal: " + s.goal)
  {}

  /** The check blocks every task that has an issue, unless it is finished or failed, readies every draft without one,
      and leaves all other tasks alone. */
  lemma {:induction false} CheckedIs(s: KState, tools: Tools, k: nat)
    requires k < |s.tasks|
    ensures |Checked(s, tools).tasks| == |s.tasks|
    ensures var t, c := s.tasks[k], Checked(s, tools).tasks[k];
            var flagged := exists code :: Flagged(Nodes(s.tasks), tools, Issue(code, t.id));
            && c == t.(status := c.status)
            && c.status == (if flagged && t.status !in {Done, Skipped, Failed} then Blocked
                            else if !flagged && t.status in {Draft, Pending} then Ready
                            else t.status)
  {
    var codes := CodesFor(Nodes(s.tasks), tools, s.tasks[k].id);
    if code :| Flagged(Nodes(s.tasks), tools, Issue(code, s.tasks[k].id)) {
      assert code in codes;
    }
  }

  /** The worker is handed the picked task, marked running, with the budget added to its inputs unless it is there. */
  lemma {:induction false} HandedOver(s: KState, env: Env, planner: Planner)
    requires Calls(s, env, planner)
    ensures var v, i, plan := AtCall(s, env, planner), Called(s, env, planner), Plan(s, env, planner);
            && v.tasks == plan[i := v.tasks[i]] && v.activeTask == plan[i].id && v.used == s.used + 1
            && Handed(plan[i], s.used, s.max, v.tasks[i])
  {
    HandedTask(Plan(s, env, planner)[Called(s, env, planner)], s.used, s.max);
    CallHandsOver(s, env, planner);
  }

  predicate Handed(t: Task, used: int, max: int, w: Task) {
    && w.status == Running && w == t.(status := Running, payload := t.payload.(extras := w.payload.extras))
    && w.payload.extras.Keys == t.payload.extras.Keys + {"budget_steps_used", "budget_steps_max"}
    && (forall key :: key in t.payload.extras ==> w.payload.extras[key] == t.payload.extras[key])
    && ("budget_steps_used" !in t.payload.extras ==> w.payload.extras["budget_steps_used"] == IntText(used))
    && ("budget_steps_max" !in t.payload.extras ==> w.payload.extras["budget_steps_max"] == IntText(max))
  }

  lemma {:induction false} HandedTask(t: Task, used: int, max: int)
    ensures Handed(t, used, max, WithBudget(t.(status := Running), used, max))
  {}

  lemma {:induction false} CallHandsOver(s: KState, env: Env, planner: Planner)
    requires Calls(s, env, planner)
    ensures var v, i, plan := AtCall(s, env, planner), Called(s, env, planner), Plan(s, env, planner);
            && i < |plan| && v.tasks == plan[i := v.tasks[i]] && v.activeTask == plan[i].id && v.used == s.used + 1
            && v.tasks[i] == WithBudget(plan[i].(status := Running), s.used, s.max)
  {}

  /** The number can be read back. */
  lemma {:induction false} IntTextParses(n: int)
    ensures var s := IntText(n);
            && (n < 0 <==> s[..1] == "-")
            && ParseNat(if n < 0 then s[1..] else s) == if n < 0 then -n else n
  {
    ParseDigits(if n < 0 then -n else n);
    if n >= 0 { DigitsStart(n); }
  }

  lemma {:induction false} DigitsStart(n: nat)
    ensures Digits(n) != "" && Digits(n)[0] != '-'
  {
    if n >= 10 { DigitsStart(n / 10); }
  }

  /** Ids are minted from one on. */
  lemma {:induction false} MintsFrom(s: KState)
    ensures SeqOf(s) == Max(1, s.nextSeq)
  {}
}
