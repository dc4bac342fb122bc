/** What becomes of a task whose worker failed, in terms of what the error text says and of what was routed before. */
module FailureOutcomes {
  import opened PyText
  import opened Schemas
  import opened FailureRouter
  import opened CircuitBreakers
  import opened KernelState
  import opened PlanInvariant
  import opened PlanSteps
  import opened TaskLives
  import opened StepObjects
  import opened Guarantees
  import opened ReplanOutcomes

  /* ---- what decides ---- */

  /** The worker's reply is a failure to be routed; a planner whose plan does not compile is not. */
  predicate WorkerFails(t: Task, env: Env) {
    if IsPlanGoal(t.kind) then !env.reply.ok && Lower(Strip(env.reply.error)) != "planner_compile_failed"
    else !(env.reply.ok && env.criteriaMet)
  }

  /** The same failure was routed twice before in this run, or was the latest one counted for the task id. */
  predicate Breaks(v: KState, t: Task, env: Env) {
    CountOf(RoutedFingerprints(v.trace), env.fingerprint) >= 2
    || Counter(v.breaker.errorStreaks, t.id, env.fingerprint) >= 1
  }

  /** The text is that of a transient error, and asks for nothing of the user. */
  predicate Transient(hits: KeywordHits) {
    hits.retryable && !NeedsUser(hits)
  }

  /** The text asks for something of the user, or says that the goal cannot be executed, and that is not transient. */
  predicate Waits(hits: KeywordHits) {
    NeedsUser(hits) || (!hits.retryable && hits.notExecutable)
  }

  predicate AttemptsLeft(t: Task) {
    t.retries + 1 < Policy(t).maxAttempts
  }

  /** No progress for ten worker calls, or for too long by the clock. */
  predicate Stagnant(v: KState, env: Env) {
    v.used - v.breaker.lastDoneCycle >= 10 || env.secondsStalled
  }

  /* ---- the four answers ---- */

  /** The plan is that of `v` with the task at `i` in its place. */
  predicate Becomes(v: KState, i: nat, r: KState, t: Task, status: RunStatus)
    requires i < |v.tasks|
  {
    r.tasks == v.tasks[i := t] && r.status == status
  }

  lemma {:induction false} OnlyOne(tasks: seq<Task>, i: nat, t: Task)
    requires DistinctTasks(tasks) && i < |tasks| && t.obj == tasks[i].obj
    ensures FailObject(tasks[i := t], t.obj) == tasks[i := t.(status := Failed)]
  {}

  lemma {:induction false} NobodyThere(tasks: seq<Task>, obj: nat)
    requires forall k :: 0 <= k < |tasks| ==> tasks[k].obj != obj
    ensures FailObject(tasks, obj) == tasks
  {}

  lemma {:induction false} StagnationIs(v: KState, i: nat, r: KState, t: Task, status: RunStatus, env: Env)
    requires DistinctTasks(v.tasks) && i < |v.tasks| && t.obj == v.tasks[i].obj && Becomes(v, i, r, t, status)
    requires r.used == v.used && r.breaker.lastDoneCycle == v.breaker.lastDoneCycle
    ensures var q := StagnationChecked(r, t.obj, env.secondsStalled);
            if status in {Completed, Aborted} || !Stagnant(v, env) then Becomes(v, i, q, t, status)
            else Becomes(v, i, q, t.(status := Failed), Aborted)
  {
    OnlyOne(v.tasks, i, t);
  }

  /** The failure is counted. */
  lemma {:induction false} CountedIs(v: KState, i: nat, env: Env)
    requires i < |v.tasks|
    ensures var d := DecisionFor(v, {}, env);
            var c := FailureCounted(v, v.tasks[i].id, d, env);
            && d.fingerprint == env.fingerprint
            && c.tasks == v.tasks && c.status == v.status && c.used == v.used && c.goal == v.goal
            && c.nextSeq == v.nextSeq && c.nextObj == v.nextObj
            && c.breaker.lastDoneCycle == v.breaker.lastDoneCycle
            && c.breaker.actionStreaks == v.breaker.actionStreaks
            && c.lastError == (if env.reply.error == "" then "execution_failed" else env.reply.error)
            && (Counter(c.breaker.errorStreaks, v.tasks[i].id, d.fingerprint) >= SAME_ERROR_LIMIT
                <==> Counter(v.breaker.errorStreaks, v.tasks[i].id, env.fingerprint) >= 1)
  {}

  /** The router's answer. */
  lemma {:induction false} AnswerIs(v: KState, env: Env)
    ensures var d := DecisionFor(v, {}, env);
            if CountOf(RoutedFingerprints(v.trace), env.fingerprint) >= 2 then
              !IsRetryable(d) && d.action == CircuitBreak
            else if Transient(env.hits) then IsRetryable(d)
            else if Waits(env.hits) then !IsRetryable(d) && d.action in {AskUser, RepairAuth}
            else !IsRetryable(d) && d.action == (if env.hits.capability then LocalReplanWithConstraints
                                                 else RouteAction.LocalReplan)
  {}

  lemma {:induction false} BrokenIs(v: KState, i: nat, env: Env)
    requires MayRun(v, i) && Breaks(v, v.tasks[i], env)
    ensures Becomes(v, i, RouteFailure(v, i, {}, env), v.tasks[i].(status := Failed), Aborted)
  {
    CountedIs(v, i, env);
    AnswerIs(v, env);
    var d := DecisionFor(v, {}, env);
    var c := FailureCounted(v, v.tasks[i].id, d, env);
    if Counter(c.breaker.errorStreaks, v.tasks[i].id, d.fingerprint) < SAME_ERROR_LIMIT {
      assert Transition(c, i, d, env) == GiveUp(c, i);
    }
  }

  lemma {:induction false} GoesOn(v: KState, i: nat, env: Env)
    requires i < |v.tasks| && !Breaks(v, v.tasks[i], env)
    ensures var d := DecisionFor(v, {}, env);
            RouteFailure(v, i, {}, env)
            == StagnationChecked(Transition(FailureCounted(v, v.tasks[i].id, d, env), i, d, env), v.tasks[i].obj,
                                 env.secondsStalled)
  {
    CountedIs(v, i, env);
  }

  /** The retry of the task at `i`, or its refusal, and the stagnation check. */
  predicate RetryEnds(v: KState, i: nat, env: Env, r: KState)
    requires i < |v.tasks|
  {
    var t := v.tasks[i];
    if !AttemptsLeft(t) then Becomes(v, i, r, t.(status := Failed), Aborted)
    else if Stagnant(v, env) then Becomes(v, i, r, t.(retries := t.retries + 1, status := Failed), Aborted)
    else Becomes(v, i, r, t.(retries := t.retries + 1, status := Ready), Active)
  }

  lemma {:induction false} RetryThenStagnation(v: KState, c: KState, i: nat, env: Env)
    requires MayRun(v, i) && c.tasks == v.tasks && c.used == v.used
    requires c.breaker.lastDoneCycle == v.breaker.lastDoneCycle
    ensures RetryEnds(v, i, env, StagnationChecked(RetryOrGiveUp(c, i), v.tasks[i].obj, env.secondsStalled))
  {
    var t := v.tasks[i];
    RetryBecomes(v, c, i);
    if AttemptsLeft(t) {
      StagnationIs(v, i, RetryOrGiveUp(c, i), t.(retries := t.retries + 1, status := Ready), Active, env);
    } else {
      StagnationIs(v, i, RetryOrGiveUp(c, i), t.(status := Failed), Aborted, env);
    }
  }

  lemma {:induction false} RetryIs(v: KState, i: nat, env: Env)
    requires MayRun(v, i) && !Breaks(v, v.tasks[i], env) && Transient(env.hits)
    ensures RetryEnds(v, i, env, RouteFailure(v, i, {}, env))
  {
    CountedIs(v, i, env);
    AnswerIs(v, env);
    GoesOn(v, i, env);
    RetryThenStagnation(v, FailureCounted(v, v.tasks[i].id, DecisionFor(v, {}, env), env), i, env);
  }

  lemma {:induction false} RetryBecomes(v: KState, c: KState, i: nat)
    requires i < |v.tasks| && c.tasks == v.tasks
    ensures var t, r := v.tasks[i], RetryOrGiveUp(c, i);
            && r.used == c.used && r.breaker == c.breaker
            && if AttemptsLeft(t) then Becomes(v, i, r, t.(retries := t.retries + 1, status := Ready), Active)
               else Becomes(v, i, r, t.(status := Failed), Aborted)
  {}

  lemma {:induction false} WaitIs(v: KState, i: nat, env: Env)
    requires MayRun(v, i) && !Breaks(v, v.tasks[i], env) && Waits(env.hits)
    ensures var t, r := v.tasks[i], RouteFailure(v, i, {}, env);
            if Stagnant(v, env) then Becomes(v, i, r, t.(status := Failed), Aborted)
            else Becomes(v, i, r, t.(status := Blocked), AwaitingUser)
  {
    var d := DecisionFor(v, {}, env);
    var t, c := v.tasks[i], FailureCounted(v, v.tasks[i].id, d, env);
    CountedIs(v, i, env);
    AnswerIs(v, env);
    GoesOn(v, i, env);
    assert Transition(c, i, d, env) == Park(c, i, d.action);
    ParkBecomes(v, c, i, d.action);
    StagnationIs(v, i, Park(c, i, d.action), t.(status := Blocked), AwaitingUser, env);
  }

  lemma {:induction false} ParkBecomes(v: KState, c: KState, i: nat, action: RouteAction)
    requires i < |v.tasks| && c.tasks == v.tasks
    ensures var r := Park(c, i, action);
            Becomes(v, i, r, v.tasks[i].(status := Blocked), AwaitingUser) && r.used == c.used && r.breaker == c.breaker
  {}

  /** The state in which the failed task is replanned. */
  function Failing(v: KState, i: nat, error: string): KState
    requires i < |v.tasks|
  {
    v.(tasks := v.tasks[i := v.tasks[i].(status := FailedRetryable)], lastError := error)
  }

  /** Replans look at nothing else. */
  predicate SameForReplan(a: KState, b: KState) {
    && a.tasks == b.tasks && a.goal == b.goal && a.status == b.status && a.lastError == b.lastError
    && a.nextSeq == b.nextSeq && a.nextObj == b.nextObj && a.breaker.actionStreaks == b.breaker.actionStreaks
  }

  lemma {:induction false} SameReplan(a: KState, b: KState, i: nat, constrained: bool, env: Env, r: KState)
    requires SameForReplan(a, b) && i < |a.tasks| && ReplanEnds(a, i, constrained, env, r)
    ensures ReplanEnds(b, i, constrained, env, r)
  {}

  /** The failed task is replanned; a stagnant run is aborted after that, with the new plan. */
  ghost predicate ReplannedFrom(w: KState, i: nat, constrained: bool, env: Env, stagnant: bool, r: KState)
    requires i < |w.tasks|
  {
    && ReplanEnds(w, i, constrained, env, r.(status := if Loops(w, w.tasks[i], env) then Aborted else Active))
    && r.status == (if Loops(w, w.tasks[i], env) || stagnant then Aborted else Active)
  }

  lemma {:induction false} RewrittenWithout(w: KState, i: nat, constrained: bool, env: Env)
    requires MayRun(w, i) && !ReplanLoops(w, i, env)
    ensures var r := AfterReplan(w, i, constrained, env);
            forall k :: 0 <= k < |r.tasks| ==> r.tasks[k].obj != w.tasks[i].obj
  {
    ReplanKeeps(w, i, constrained, env.canDelegate);
    RewrittenReplan(w, i, constrained, env);
  }

  lemma {:induction false} StagnationPlain(a: KState, obj: nat, stalled: bool)
    requires a.status in {Active, Aborted}
    requires a.status == Aborted || forall k :: 0 <= k < |a.tasks| ==> a.tasks[k].obj != obj
    ensures var r := StagnationChecked(a, obj, stalled);
            && r.tasks == a.tasks && a.trace <= r.trace && r.lastError == a.lastError
            && r.status == (if a.used - a.breaker.lastDoneCycle >= 10 || stalled then Aborted else a.status)
  {
    if a.status != Aborted { NobodyThere(a.tasks, obj); }
  }

  lemma {:induction false} ReplanStatus(w: KState, i: nat, constrained: bool, env: Env)
    requires MayRun(w, i) && w.status == Active
    ensures var a := AfterReplan(w, i, constrained, env);
            && ReplanEnds(w, i, constrained, env, a) && a.used == w.used
            && a.breaker.lastDoneCycle == w.breaker.lastDoneCycle
            && a.status == (if Loops(w, w.tasks[i], env) then Aborted else Active)
            && (a.status == Aborted || forall k :: 0 <= k < |a.tasks| ==> a.tasks[k].obj != w.tasks[i].obj)
  {
    AfterReplanIs(w, i, constrained, env);
    ReplanClock(w, i, constrained, env);
    LoopsIff(w, i, env);
    if !ReplanLoops(w, i, env) {
      RewrittenWithout(w, i, constrained, env);
    }
  }

  lemma {:induction false} ReplanThenStagnation(v: KState, w: KState, i: nat, constrained: bool, env: Env, obj: nat)
    requires MayRun(w, i) && obj == w.tasks[i].obj && w.status == Active
    requires w.used == v.used && w.breaker.lastDoneCycle == v.breaker.lastDoneCycle
    ensures var r := StagnationChecked(AfterReplan(w, i, constrained, env), obj, env.secondsStalled);
            ReplannedFrom(w, i, constrained, env, Stagnant(v, env), r)
  {
    var a := AfterReplan(w, i, constrained, env);
    ReplanStatus(w, i, constrained, env);
    StagnationPlain(a, obj, env.secondsStalled);
    LoggedEnds(w, i, constrained, env, a, StagnationChecked(a, obj, env.secondsStalled));
  }

  lemma {:induction false} LoggedEnds(w: KState, i: nat, constrained: bool, env: Env, a: KState, r: KState)
    requires i < |w.tasks| && ReplanEnds(w, i, constrained, env, a) && w.status == Active
    requires r.tasks == a.tasks && a.trace <= r.trace && r.lastError == a.lastError
    ensures ReplanEnds(w, i, constrained, env, r.(status := if Loops(w, w.tasks[i], env) then Aborted else Active))
  {}

  lemma {:induction false} ReplanClock(w: KState, i: nat, constrained: bool, env: Env)
    requires i < |w.tasks|
    ensures var r := AfterReplan(w, i, constrained, env);
            r.used == w.used && r.breaker.lastDoneCycle == w.breaker.lastDoneCycle
  {}

  /** The counted failure, with the task marked for the replan. */
  function MarkedForReplan(v: KState, i: nat, env: Env): KState
    requires i < |v.tasks|
  {
    var d := DecisionFor(v, {}, env);
    Log(WithStatus(FailureCounted(v, v.tasks[i].id, d, env), i, FailedRetryable),
        FailureFallback(v.tasks[i].id, d.action))
  }

  lemma {:induction false} GoesOnToReplan(v: KState, i: nat, env: Env)
    requires i < |v.tasks| && !Breaks(v, v.tasks[i], env) && !Transient(env.hits) && !Waits(env.hits)
    ensures RouteFailure(v, i, {}, env)
            == StagnationChecked(AfterReplan(MarkedForReplan(v, i, env), i, env.hits.capability, env), v.tasks[i].obj,
                                 env.secondsStalled)
  {
    AnswerIs(v, env);
    GoesOn(v, i, env);
    var d := DecisionFor(v, {}, env);
    TransitionIsReplan(FailureCounted(v, v.tasks[i].id, d, env), i, d, env);
  }

  lemma {:induction false} TransitionIsReplan(c: KState, i: nat, d: Decision, env: Env)
    requires i < |c.tasks| && !IsRetryable(d) && d.action in {RouteAction.LocalReplan, LocalReplanWithConstraints}
    ensures Transition(c, i, d, env)
            == AfterReplan(Log(WithStatus(c, i, FailedRetryable), FailureFallback(c.tasks[i].id, d.action)), i,
                           d.action == LocalReplanWithConstraints, env)
  {}

  lemma {:induction false} MarkedIs(v: KState, i: nat, env: Env)
    requires MayRun(v, i)
    ensures var w := MarkedForReplan(v, i, env);
            && MayRun(w, i) && w.used == v.used && w.breaker.lastDoneCycle == v.breaker.lastDoneCycle
            && SameForReplan(w, Failing(v, i, if env.reply.error == "" then "execution_failed" else env.reply.error))
  {
    CountedIs(v, i, env);
    StatusUpdate(FailureCounted(v, v.tasks[i].id, DecisionFor(v, {}, env), env), i, FailedRetryable);
  }

  lemma {:induction false} ReplanIs(v: KState, i: nat, env: Env)
    requires MayRun(v, i) && v.status == Active && !Breaks(v, v.tasks[i], env)
    requires !Transient(env.hits) && !Waits(env.hits)
    ensures var error := if env.reply.error == "" then "execution_failed" else env.reply.error;
            ReplannedFrom(Failing(v, i, error), i, env.hits.capability, env, Stagnant(v, env),
                          RouteFailure(v, i, {}, env))
  {
    var error := if env.reply.error == "" then "execution_failed" else env.reply.error;
    GoesOnToReplan(v, i, env);
    MarkedIs(v, i, env);
    ReplanThenStagnation(v, MarkedForReplan(v, i, env), i, env.hits.capability, env, v.tasks[i].obj);
    SameReplannedFrom(MarkedForReplan(v, i, env), Failing(v, i, error), i, env.hits.capability, env, Stagnant(v, env),
                      RouteFailure(v, i, {}, env));
  }

  lemma {:induction false} SameReplannedFrom(a: KState, b: KState, i: nat, constrained: bool, env: Env, stagnant: bool,
                                             r: KState)
    requires SameForReplan(a, b) && i < |a.tasks| && ReplannedFrom(a, i, constrained, env, stagnant, r)
    ensures ReplannedFrom(b, i, constrained, env, stagnant, r)
  {
    SameReplan(a, b, i, constrained, env, r.(status := if Loops(a, a.tasks[i], env) then Aborted else Active));
  }

  /* ---- the step ---- */

  lemma {:induction false} FailsIsRouted(v: KState, i: nat, env: Env)
    requires i < |v.tasks|
    ensures WorkerFails(v.tasks[i], env) <==> Routed(v, i, env)
  {}

  lemma {:induction false} FailedStepRoutes(s: KState, env: Env, planner: Planner)
    requires Calls(s, env, planner) && WorkerFails(AtCall(s, env, planner).tasks[Called(s, env, planner)], env)
    ensures Step(s, env, planner)
            == Outcome(RouteFailure(AtCall(s, env, planner), Called(s, env, planner), {}, env), false)
  {
    StepIsResolve(s, env, planner);
    CalledHasNoIssues(s, env, planner);
    FailsIsRouted(AtCall(s, env, planner), Called(s, env, planner), env);
  }

  /** What a failure makes of the called task and of the run. */
  ghost predicate Answers(v: KState, i: nat, env: Env, r: KState)
    requires i < |v.tasks|
  {
    var t := v.tasks[i];
    var error := if env.reply.error == "" then "execution_failed" else env.reply.error;
    if Breaks(v, t, env) then Becomes(v, i, r, t.(status := Failed), Aborted)
    else if Transient(env.hits) then RetryEnds(v, i, env, r)
    else if Waits(env.hits) then
      if Stagnant(v, env) then Becomes(v, i, r, t.(status := Failed), Aborted)
      else Becomes(v, i, r, t.(status := Blocked), AwaitingUser)
    else ReplannedFrom(Failing(v, i, error), i, env.hits.capability, env, Stagnant(v, env), r)
  }

  lemma {:induction false} RouteAnswers(v: KState, i: nat, env: Env)
    requires MayRun(v, i) && v.status == Active
    ensures Answers(v, i, env, RouteFailure(v, i, {}, env))
  {
    if Breaks(v, v.tasks[i], env) {
      BrokenIs(v, i, env);
    } else if Transient(env.hits) {
      RetryIs(v, i, env);
    } else if Waits(env.hits) {
      WaitIs(v, i, env);
    } else {
      ReplanIs(v, i, env);
    }
  }

  /** A failure is answered by what its text says and by what failed before: a repeated one breaks the circuit, a
      transient one is retried while attempts are left, one that needs the user is parked, and any other one is
      replanned, with constraints exactly for a capability gap. A stagnant run is aborted on top of that. */
  lemma {:induction false} FailedStep(s: KState, env: Env, planner: Planner)
    requires PlanInv(s) && Calls(s, env, planner)
    requires WorkerFails(AtCall(s, env, planner).tasks[Called(s, env, planner)], env)
    ensures var o := Step(s, env, planner);
            !o.raised && Answers(AtCall(s, env, planner), Called(s, env, planner), env, o.state)
  {
    CallReady(s, env, planner);
    CallLedger(s, env, planner);
    FailedStepRoutes(s, env, planner);
    CallIsActive(s, env, planner);
    RouteAnswers(AtCall(s, env, planner), Called(s, env, planner), env);
  }

  lemma {:induction false} CallIsActive(s: KState, env: Env, planner: Planner)
    requires Calls(s, env, planner)
    ensures AtCall(s, env, planner).status == Active
  {}

  /* ---- exactly when ---- */

  /** The object is scheduled once more. */
  predicate Rescheduled(r: seq<Task>, t: Task) {
    exists k :: 0 <= k < |r| && r[k].obj == t.obj && r[k].status == Ready && r[k].retries == t.retries + 1
  }

  lemma {:induction false} BecomesAlone(v: KState, i: nat, r: KState, t: Task, status: RunStatus)
    requires DistinctTasks(v.tasks) && i < |v.tasks| && t.obj == v.tasks[i].obj && Becomes(v, i, r, t, status)
    ensures Rescheduled(r.tasks, v.tasks[i]) <==> t.status == Ready && t.retries == v.tasks[i].retries + 1
  {
    if t.status == Ready && t.retries == v.tasks[i].retries + 1 {
      assert r.tasks[i] == t;
    }
  }

  lemma {:induction false} ReplannedAlone(v: KState, i: nat, env: Env, error: string, constrained: bool, stagnant: bool,
                                          r: KState)
    requires MayRun(v, i) && ReplannedFrom(Failing(v, i, error), i, constrained, env, stagnant, r)
    ensures !Rescheduled(r.tasks, v.tasks[i])
  {
    var w := Failing(v, i, error);
    StatusUpdate(v, i, FailedRetryable);
    if Loops(w, w.tasks[i], env) {
      assert r.tasks == w.tasks[i := w.tasks[i].(status := Failed)];
    } else {
      ReplanDropsObject(w, i, r.tasks, constrained, env.canDelegate);
    }
  }

  /** The new object is in the plan. */
  predicate Added(r: seq<Task>, obj: nat) {
    exists k :: 0 <= k < |r| && r[k].obj == obj
  }

  lemma {:induction false} BecomesAddsNothing(v: KState, i: nat, r: KState, t: Task, status: RunStatus)
    requires MayRun(v, i) && t.obj == v.tasks[i].obj && Becomes(v, i, r, t, status)
    ensures !Added(r.tasks, v.nextObj)
  {
    forall k | 0 <= k < |r.tasks| ensures r.tasks[k].obj != v.nextObj {
      assert GoodTask(v.tasks[k], v.nextSeq, v.nextObj);
    }
  }

  lemma {:induction false} ReplanAdds(v: KState, i: nat, env: Env, error: string, constrained: bool, stagnant: bool,
                                      r: KState)
    requires MayRun(v, i) && ReplannedFrom(Failing(v, i, error), i, constrained, env, stagnant, r)
    ensures Added(r.tasks, v.nextObj) <==> !Loops(v, v.tasks[i], env)
    ensures r.status in {Active, Aborted}
  {
    var w := Failing(v, i, error);
    if Loops(w, w.tasks[i], env) {
      var t := w.tasks[i].(status := Failed);
      assert r.tasks == v.tasks[i := t];
      BecomesAddsNothing(v, i, r, t, r.status);
    } else {
      assert r.tasks[|r.tasks| - 1].obj == v.nextObj;
    }
  }

  lemma {:induction false} AnswersIff(v: KState, i: nat, env: Env, r: KState)
    requires MayRun(v, i) && Answers(v, i, env, r)
    ensures var t := v.tasks[i];
            && (Rescheduled(r.tasks, t) <==>
                !Breaks(v, t, env) && Transient(env.hits) && AttemptsLeft(t) && !Stagnant(v, env))
            && (r.status == AwaitingUser <==> !Breaks(v, t, env) && Waits(env.hits) && !Stagnant(v, env))
            && (Added(r.tasks, v.nextObj) <==>
                !Breaks(v, t, env) && !Transient(env.hits) && !Waits(env.hits) && !Loops(v, t, env))
  {
    var t := v.tasks[i];
    if Breaks(v, t, env) || Transient(env.hits) || Waits(env.hits) {
      var n := r.tasks[i];
      BecomesAlone(v, i, r, n, r.status);
      BecomesAddsNothing(v, i, r, n, r.status);
    } else {
      var error := if env.reply.error == "" then "execution_failed" else env.reply.error;
      ReplannedAlone(v, i, env, error, env.hits.capability, Stagnant(v, env), r);
      ReplanAdds(v, i, env, error, env.hits.capability, Stagnant(v, env), r);
    }
  }

  /** A failed task is scheduled again exactly if its failure is new, the text is that of a transient error and asks for
      nothing of the user, attempts are left, and the run is not stagnant; the run waits for the user exactly if the
      failure is new, the text asks for it, and the run is not stagnant; and a new task replaces the failed one exactly
      if the failure is new, the text says neither, and the same replacement was not tried twice in a row. */
  lemma {:induction false} FailureIff(s: KState, env: Env, planner: Planner)
    requires PlanInv(s) && Calls(s, env, planner)
    requires WorkerFails(AtCall(s, env, planner).tasks[Called(s, env, planner)], env)
    ensures var v := AtCall(s, env, planner);
            var t, r := v.tasks[Called(s, env, planner)], Step(s, env, planner).state;
            && (Rescheduled(r.tasks, t) <==>
                !Breaks(v, t, env) && Transient(env.hits) && AttemptsLeft(t) && !Stagnant(v, env))
            && (r.status == AwaitingUser <==> !Breaks(v, t, env) && Waits(env.hits) && !Stagnant(v, env))
            && (Added(r.tasks, v.nextObj) <==>
                !Breaks(v, t, env) && !Transient(env.hits) && !Waits(env.hits) && !Loops(v, t, env))
  {
    CallReady(s, env, planner);
    FailedStep(s, env, planner);
    AnswersIff(AtCall(s, env, planner), Called(s, env, planner), env, Step(s, env, planner).state);
  }

  /** A retry is logged, with its back-off, exactly if the failure is new and transient and attempts are left. */
  lemma {:induction false} RetryPartIff(v: KState, i: nat, env: Env)
    requires i < |v.tasks| && WorkerFails(v.tasks[i], env)
    ensures RetryPart(v, i, {}, env) != [] <==>
              !Breaks(v, v.tasks[i], env) && Transient(env.hits) && AttemptsLeft(v.tasks[i])
  {
    CountedIs(v, i, env);
    AnswerIs(v, env);
    FailsIsRouted(v, i, env);
  }
}
