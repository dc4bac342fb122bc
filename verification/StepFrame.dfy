/** What one step does to the budget, the run status, the error streaks and the ledger: the trace
    entries that record worker calls, routed failures and scheduled retries. */
module StepFrame {
  import opened PyText
  import opened Schemas
  import opened CompileCheck
  import opened FailureRouter
  import opened CircuitBreakers
  import opened KernelState

  predicate InLedger(e: Event) {
    e.WorkerStarted? || e.FailureRouted? || e.RetryScheduled?
  }

  function Ledger(trace: seq<Event>): seq<Event> {
    if trace == [] then []
    else
      var e := trace[|trace| - 1];
      Ledger(trace[..|trace| - 1]) + (if InLedger(e) then [e] else [])
  }

  lemma {:induction false} LedgerLog(trace: seq<Event>, e: Event)
    ensures Ledger(trace + [e]) == Ledger(trace) + (if InLedger(e) then [e] else [])
  {}

  lemma {:induction false} LedgerAppendQuiet(trace: seq<Event>, more: seq<Event>)
    requires forall e :: e in more ==> !InLedger(e)
    ensures Ledger(trace + more) == Ledger(trace)
  {
    if more == [] {
      assert trace + more == trace;
    } else {
      var n := |more| - 1;
      LedgerAppendQuiet(trace, more[..n]);
      LedgerLog(trace + more[..n], more[n]);
      assert trace + more == (trace + more[..n]) + [more[n]];
      assert more[n] in more;
    }
  }

  /** What the end of a step can change at most: the status, the replan counters, quiet trace entries. */
  ghost predicate Quiet(a: KState, b: KState) {
    && b.used == a.used && b.max == a.max
    && b.breaker.errorStreaks == a.breaker.errorStreaks
    && Ledger(b.trace) == Ledger(a.trace)
  }

  lemma {:induction false} LogQuiet(s: KState, e: Event)
    requires !InLedger(e)
    ensures Quiet(s, Log(s, e))
  {}

  lemma {:induction false} PlannedQuiet(s: KState, planner: Planner)
    ensures Quiet(s, Planned(s, planner)) && Planned(s, planner).status == s.status
  {
    LogQuiet(s, PlanningStarted);
    var b := Bootstrapped(Log(s, PlanningStarted), planner);
    LogQuiet(b, PlanningCompleted(|b.tasks|));
  }

  lemma {:induction false} BlockEventsQuiet(tasks: seq<Task>, nodes: seq<Subgoal>, tools: Tools)
    ensures forall e :: e in BlockEvents(tasks, nodes, tools) ==> !InLedger(e)
  {
    if tasks != [] {
      BlockEventsQuiet(tasks[..|tasks| - 1], nodes, tools);
    }
  }

  lemma {:induction false} CheckedQuiet(s: KState, tools: Tools)
    ensures Quiet(s, Checked(s, tools)) && Checked(s, tools).status == s.status
  {
    BlockEventsQuiet(s.tasks, Nodes(s.tasks), tools);
    LedgerAppendQuiet(s.trace, BlockEvents(s.tasks, Nodes(s.tasks), tools));
  }

  /** Nothing to run ends the run. */
  lemma {:induction false} IdleQuiet(s: KState)
    ensures Quiet(s, Idle(s)) && Idle(s).status != Active
    ensures Idle(s).status == Completed ==> AllFinished(Idle(s).tasks)
  {}

  lemma {:induction false} ExhaustedQuiet(s: KState)
    ensures Quiet(s, Exhausted(s)) && Exhausted(s).status == Aborted
  {}

  /** A call costs one budget step and leaves one ledger entry. */
  lemma {:induction false} InvokedFrame(s: KState, i: nat, ok: bool)
    requires i < |s.tasks|
    ensures var v := Invoked(s, i, ok);
            && v.used == s.used + 1 && v.max == s.max && v.status == s.status && v.breaker == s.breaker
            && Ledger(v.trace) == Ledger(s.trace) + [WorkerStarted(s.tasks[i].obj, s.tasks[i].id)]
  {
    var t := s.tasks[i];
    LedgerLog(s.trace, TaskSelected(t.id));
    var tr := s.trace + [TaskSelected(t.id)];
    LedgerLog(tr, WorkerStarted(t.obj, t.id));
    LedgerLog(tr + [WorkerStarted(t.obj, t.id)], ToolInvoked(t.id, t.retries));
    LedgerLog(tr + [WorkerStarted(t.obj, t.id)] + [ToolInvoked(t.id, t.retries)], WorkerReplied(t.id, ok));
    assert Ledger(s.trace) + [] == Ledger(s.trace);
    var l := Ledger(s.trace) + [WorkerStarted(t.obj, t.id)];
    assert l + [] == l;
  }

  lemma {:induction false} AfterReplanQuiet(s: KState, i: nat, constrained: bool, env: Env)
    requires i < |s.tasks|
    ensures var r := AfterReplan(s, i, constrained, env);
            Quiet(s, r) && r.status in {Active, Aborted}
  {
    var c := ReplanCounted(s, i, constrained, env);
    var b := s.(breaker := s.breaker.(actionStreaks :=
        Bump(s.breaker.actionStreaks, PathKey(s.tasks[i]), env.actionFingerprint)));
    LogQuiet(b, LocalReplanned(s.tasks[i].id, MintedId(SeqOf(s)), constrained));
    assert Quiet(s, c);
    LogQuiet(GiveUp(c, i).(lastError := "same_replan_action_loop"), CircuitBroken);
  }

  lemma {:induction false} CompileFailedRouteQuiet(s: KState, i: nat, env: Env)
    requires i < |s.tasks|
    ensures var r := CompileFailedRoute(s, i, env);
            Quiet(s, r) && r.status in {Active, Aborted}
  {
    var f := WithStatus(s, i, FailedRetryable).(lastError := "planner_compile_failed");
    LogQuiet(f, PlannerCompileFailedRoute(s.tasks[i].id));
    AfterReplanQuiet(Log(f, PlannerCompileFailedRoute(s.tasks[i].id)), i, true, env);
  }

  lemma {:induction false} RejectedQuiet(s: KState, i: nat, env: Env)
    requires i < |s.tasks|
    ensures Quiet(s, Rejected(s, i, env)) && Rejected(s, i, env).status in {Active, Aborted}
  {
    LogQuiet(s, PlannerCompileFailed(s.tasks[i].id));
    CompileFailedRouteQuiet(Log(s, PlannerCompileFailed(s.tasks[i].id)), i, env);
  }

  lemma {:induction false} AppendSubgoalsQuiet(s: KState, specs: seq<Spec>, tools: Tools)
    ensures var a := AppendSubgoals(s, specs, tools);
            Quiet(s, a.state) && s.tasks <= a.state.tasks
  {}

  lemma {:induction false} AppendTasksQuiet(s: KState, specs: seq<TaskSpec>)
    ensures var a := AppendTasks(s, specs);
            Quiet(s, a.state) && s.tasks <= a.state.tasks
  {}

  lemma {:induction false} PlanDoneQuiet(s: KState, a: KState, i: nat)
    requires i < |s.tasks| && Quiet(s, a) && s.tasks <= a.tasks
    ensures Quiet(s, PlanDone(a, i)) && PlanDone(a, i).status == Active
  {}

  lemma {:induction false} PlanReplyQuiet(s: KState, i: nat, env: Env)
    requires i < |s.tasks|
    ensures var r := PlanReply(s, i, env);
            && (!r.raised ==> Quiet(s, r.state) && r.state.status in {Active, Aborted})
            && (r.raised ==> r.state == s)
  {
    if NonBlank(env.reply.planIssues) != [] {
      RejectedQuiet(s, i, env);
    } else {
      var a := AppendSubgoals(s, env.reply.subgoals, env.tools);
      AppendSubgoalsQuiet(s, env.reply.subgoals, env.tools);
      var b := AppendTasks(s, env.reply.tasks);
      AppendTasksQuiet(s, env.reply.tasks);
      if a.rejected {
        RejectedQuiet(s, i, env);
      } else if a.added > 0 {
        PlanDoneQuiet(s, a.state, i);
      } else if b.added > 0 {
        PlanDoneQuiet(s, b.state, i);
      }
    }
  }

  lemma {:induction false} PassedQuiet(s: KState, i: nat)
    requires i < |s.tasks|
    ensures var r := Passed(s, i);
            Quiet(s, r) && r.status in {Active, Completed} && (r.status == Completed ==> AllFinished(r.tasks))
  {}

  /* ---- failures ---- */

  /** The retry entry of a failed step, if it schedules one. */
  function RetryEntry(t: Task): seq<Event> {
    if t.retries + 1 < Policy(t).maxAttempts then [RetryEvent(t)] else []
  }

  /** `b` follows `a` with the given new ledger entries and the same budget and error streaks. */
  ghost predicate Entered(a: KState, b: KState, entries: seq<Event>) {
    && b.used == a.used && b.max == a.max && b.breaker.errorStreaks == a.breaker.errorStreaks
    && Ledger(b.trace) == Ledger(a.trace) + entries
  }

  lemma {:induction false} RescheduledFrame(s: KState, i: nat)
    requires i < |s.tasks|
    ensures Entered(s, Rescheduled(s, i), [RetryEvent(s.tasks[i])]) && Rescheduled(s, i).status == Active
  {}

  lemma {:induction false} GivenUpFrame(s: KState, i: nat, e: Event)
    requires i < |s.tasks| && !InLedger(e)
    ensures var r := GiveUp(Log(s, e), i); Entered(s, r, []) && r.status == Aborted
  {}

  lemma {:induction false} RetryFrame(s: KState, i: nat)
    requires i < |s.tasks|
    ensures var r := RetryOrGiveUp(s, i);
            Entered(s, r, RetryEntry(s.tasks[i])) && r.status in {Active, Aborted}
  {
    var t := s.tasks[i];
    if t.retries + 1 < Policy(t).maxAttempts {
      RescheduledFrame(s, i);
    } else {
      GivenUpFrame(s, i, RetryExhausted(t.id, t.retries + 1, Policy(t).maxAttempts));
    }
  }

  lemma {:induction false} ParkFrame(s: KState, i: nat, action: RouteAction)
    requires i < |s.tasks|
    ensures Quiet(s, Park(s, i, action)) && Park(s, i, action).status == AwaitingUser
  {
    LogQuiet(s, FailureFallback(s.tasks[i].id, action));
  }

  lemma {:induction false} ReplanRouteFrame(s: KState, i: nat, action: RouteAction, env: Env)
    requires i < |s.tasks|
    ensures Quiet(s, ReplanRoute(s, i, action, env)) && ReplanRoute(s, i, action, env).status in {Active, Aborted}
  {
    var f := WithStatus(s, i, FailedRetryable);
    var e := FailureFallback(s.tasks[i].id, action);
    LogQuiet(f, e);
    AfterReplanQuiet(Log(f, e), i, action == LocalReplanWithConstraints, env);
  }

  lemma {:induction false} TransitionFrame(s: KState, i: nat, d: Decision, env: Env)
    requires i < |s.tasks|
    ensures var r := Transition(s, i, d, env);
            && Entered(s, r, if IsRetryable(d) then RetryEntry(s.tasks[i]) else [])
            && r.status != Completed && (d.action == CircuitBreak ==> r.status == Aborted)
  {
    if IsRetryable(d) {
      RetryFrame(s, i);
    } else {
      assert Ledger(s.trace) + [] == Ledger(s.trace);
      match d.action {
        case AskUser => ParkFrame(s, i, d.action);
        case RepairAuth => ParkFrame(s, i, d.action);
        case LocalReplan => ReplanRouteFrame(s, i, d.action, env);
        case LocalReplanWithConstraints => ReplanRouteFrame(s, i, d.action, env);
        case _ =>
      }
    }
  }

  lemma {:induction false} StagnationFrame(s: KState, obj: nat, stalled: bool)
    ensures var r := StagnationChecked(s, obj, stalled);
            Quiet(s, r) && (r.status == s.status || r.status == Aborted) && (s.status == Aborted ==> r == s)
  {}

  /** The failed task is scheduled again. */
  predicate Retries(s: KState, i: nat, ownCodes: set<Code>, env: Env)
    requires i < |s.tasks|
  {
    var t := s.tasks[i];
    var d := DecisionFor(s, ownCodes, env);
    Counter(Bump(s.breaker.errorStreaks, t.id, d.fingerprint), t.id, d.fingerprint) < SAME_ERROR_LIMIT && IsRetryable(d)
      && t.retries + 1 < Policy(t).maxAttempts
  }

  lemma {:induction false} FailureCountedFrame(s: KState, id: string, d: Decision, env: Env)
    ensures var c := FailureCounted(s, id, d, env);
            && c.tasks == s.tasks && c.used == s.used && c.max == s.max
            && c.breaker.errorStreaks == Bump(s.breaker.errorStreaks, id, d.fingerprint)
            && Ledger(c.trace) == Ledger(s.trace) + [FailureRouted(id, d)]
  {}

  lemma {:induction false} BrokenFrame(c: KState, i: nat)
    requires i < |c.tasks|
    ensures var r := Log(GiveUp(c, i), CircuitBroken);
            Entered(c, r, []) && r.status == Aborted
  {}

  /** What the failed task becomes, and the stagnation check after it. */
  lemma {:induction false} ConcludedFrame(c: KState, i: nat, d: Decision, obj: nat, env: Env)
    requires i < |c.tasks|
    ensures var r := StagnationChecked(Transition(c, i, d, env), obj, env.secondsStalled);
            && Entered(c, r, if IsRetryable(d) then RetryEntry(c.tasks[i]) else [])
            && r.status != Completed && (d.action == CircuitBreak ==> r.status == Aborted)
  {
    TransitionFrame(c, i, d, env);
    StagnationFrame(Transition(c, i, d, env), obj, env.secondsStalled);
  }

  /** A routed failure counts one error, and leaves one routing entry and possibly a retry entry. */
  lemma {:induction false} RouteFailureFrame(s: KState, i: nat, ownCodes: set<Code>, env: Env)
    requires i < |s.tasks|
    ensures var r := RouteFailure(s, i, ownCodes, env);
            var t := s.tasks[i];
            var d := DecisionFor(s, ownCodes, env);
            && r.used == s.used && r.max == s.max && r.status != Completed
            && r.breaker.errorStreaks == Bump(s.breaker.errorStreaks, t.id, d.fingerprint)
            && Ledger(r.trace) == Ledger(s.trace) + [FailureRouted(t.id, d)]
                                  + (if Retries(s, i, ownCodes, env) then RetryEntry(t) else [])
            && (Counter(r.breaker.errorStreaks, t.id, d.fingerprint) >= SAME_ERROR_LIMIT ==> r.status == Aborted)
            && (d.action == CircuitBreak ==> r.status == Aborted)
  {
    var t := s.tasks[i];
    var d := DecisionFor(s, ownCodes, env);
    var c := FailureCounted(s, t.id, d, env);
    FailureCountedFrame(s, t.id, d, env);
    if Counter(c.breaker.errorStreaks, t.id, d.fingerprint) >= SAME_ERROR_LIMIT {
      BrokenFrame(c, i);
    } else {
      ConcludedFrame(c, i, d, t.obj, env);
    }
  }
}
