/** What one whole step does to the objects of the plan. */
module StepObjects {
  import opened Schemas
  import opened CompileCheck
  import opened FailureRouter
  import opened KernelState
  import opened PlanInvariant
  import opened PlanSteps
  import opened PlanBatches
  import opened StepFrame
  import opened TaskLives
  import opened Attempts

  /** The step hands a task to the worker. */
  ghost predicate Calls(s: KState, env: Env, planner: Planner) {
    var p := Planned(s, planner);
    p.status == Active && p.used < p.max && Pick(Checked(p, env.tools).tasks).Some?
  }

  /** The position of that task. */
  ghost function Called(s: KState, env: Env, planner: Planner): (i: nat)
    requires Calls(s, env, planner)
    ensures i < |Planned(s, planner).tasks|
    ensures i < |Checked(Planned(s, planner), env.tools).tasks|
  {
    Pick(Checked(Planned(s, planner), env.tools).tasks).value
  }

  /** The state in which the worker is called. */
  ghost function AtCall(s: KState, env: Env, planner: Planner): (v: KState)
    requires Calls(s, env, planner)
    ensures Called(s, env, planner) < |v.tasks|
  {
    Invoked(Checked(Planned(s, planner), env.tools), Called(s, env, planner), env.reply.ok)
  }

  ghost function CallCodes(s: KState, env: Env, planner: Planner): set<Code>
    requires Calls(s, env, planner)
  {
    OwnCodes(Planned(s, planner), Called(s, env, planner), env.tools)
  }

  /** A step is an execution, or does not call the worker at all. */
  lemma {:induction false} StepIsResolve(s: KState, env: Env, planner: Planner)
    requires Calls(s, env, planner)
    ensures Step(s, env, planner)
            == Resolve(AtCall(s, env, planner), Called(s, env, planner), CallCodes(s, env, planner), env)
  {}

  lemma {:induction false} StepIsQuiet(s: KState, env: Env, planner: Planner)
    requires !Calls(s, env, planner)
    ensures var o := Step(s, env, planner);
            && !o.raised && Quiet(s, o.state) && o.state.status != Active
            && (o.state.tasks == Planned(s, planner).tasks
                || o.state.tasks == Checked(Planned(s, planner), env.tools).tasks)
            && o.state.nextObj == Planned(s, planner).nextObj && o.state.nextSeq == Planned(s, planner).nextSeq
            && (o.state.status == Completed ==> s.status == Completed || AllFinished(o.state.tasks))
            && (s.status != Active ==> o.state.status == s.status && o.state.tasks == Planned(s, planner).tasks)
  {
    var p := Planned(s, planner);
    PlannedQuiet(s, planner);
    ExhaustedQuiet(p);
    if p.status == Active && p.used < p.max {
      CheckedQuiet(p, env.tools);
      StepIdles(s, env, planner);
      IdleQuiet(Checked(p, env.tools));
      IdleKeeps(Checked(p, env.tools));
    }
  }

  lemma {:induction false} StepIdles(s: KState, env: Env, planner: Planner)
    requires !Calls(s, env, planner) && Planned(s, planner).status == Active
    requires Planned(s, planner).used < Planned(s, planner).max
    ensures Step(s, env, planner) == Outcome(Idle(Checked(Planned(s, planner), env.tools)), false)
  {}

  /** Before the call: the plan is well formed, the task may run, and it has been executed exactly as often as
      it was retried. */
  lemma {:induction false} CallReady(s: KState, env: Env, planner: Planner)
    requires PlanInv(s) && Calls(s, env, planner)
    ensures MayRun(Checked(Planned(s, planner), env.tools), Called(s, env, planner))
    ensures MayRun(AtCall(s, env, planner), Called(s, env, planner))
    ensures SameShape(Planned(s, planner).tasks, Checked(Planned(s, planner), env.tools).tasks)
  {
    PlannedKeeps(s, planner);
    CheckedKeeps(Planned(s, planner), env.tools);
    PickMayRun(Checked(Planned(s, planner), env.tools));
    InvokedKeeps(Checked(Planned(s, planner), env.tools), Called(s, env, planner), env.reply.ok);
  }

  lemma {:induction false} CallFrame(s: KState, env: Env, planner: Planner)
    requires Calls(s, env, planner)
    ensures var v := AtCall(s, env, planner);
            var i := Called(s, env, planner);
            var c := Checked(Planned(s, planner), env.tools);
            && v.tasks == c.tasks[i := v.tasks[i]] && v.nextObj == c.nextObj && v.nextSeq == c.nextSeq
            && v.tasks[i].obj == c.tasks[i].obj && v.tasks[i].id == c.tasks[i].id
            && v.tasks[i].retries == c.tasks[i].retries
            && v.tasks[i].kind == c.tasks[i].kind
            && Policy(v.tasks[i]) == Policy(c.tasks[i]) && v.tasks[i].status == Running
  {}

  lemma {:induction false} CallLedger(s: KState, env: Env, planner: Planner)
    requires Calls(s, env, planner)
    ensures var v := AtCall(s, env, planner);
            var t := v.tasks[Called(s, env, planner)];
            && Ledger(v.trace) == Ledger(s.trace) + [WorkerStarted(t.obj, t.id)]
            && v.used == s.used + 1 && v.max == s.max && s.used < s.max && s.status == Active
            && v.breaker.errorStreaks == s.breaker.errorStreaks
  {
    PlannedQuiet(s, planner);
    CheckedQuiet(Planned(s, planner), env.tools);
    InvokedFrame(Checked(Planned(s, planner), env.tools), Called(s, env, planner), env.reply.ok);
  }

  /* ---- identities never run backwards ---- */

  lemma {:induction false} AfterReplanGrows(s: KState, i: nat, constrained: bool, env: Env)
    requires i < |s.tasks|
    ensures AfterReplan(s, i, constrained, env).nextObj >= s.nextObj
  {}

  lemma {:induction false} RouteFailureGrows(s: KState, i: nat, ownCodes: set<Code>, env: Env)
    requires i < |s.tasks|
    ensures RouteFailure(s, i, ownCodes, env).nextObj >= s.nextObj
  {
    var d := DecisionFor(s, ownCodes, env);
    var c := FailureCounted(s, s.tasks[i].id, d, env);
    TransitionGrows(c, i, d, env);
  }

  lemma {:induction false} TransitionGrows(s: KState, i: nat, d: Decision, env: Env)
    requires i < |s.tasks|
    ensures Transition(s, i, d, env).nextObj >= s.nextObj
  {
    if IsRetryable(d) {
      RetryView(s, i);
    } else if d.action in {RouteAction.LocalReplan, LocalReplanWithConstraints} {
      AfterReplanGrows(Log(WithStatus(s, i, FailedRetryable), FailureFallback(s.tasks[i].id, d.action)), i,
                       d.action == LocalReplanWithConstraints, env);
    }
  }

  lemma {:induction false} CompileFailedRouteGrows(s: KState, i: nat, env: Env)
    requires i < |s.tasks|
    ensures CompileFailedRoute(s, i, env).nextObj >= s.nextObj
  {}

  lemma {:induction false} RejectedGrows(s: KState, i: nat, env: Env)
    requires i < |s.tasks|
    ensures Rejected(s, i, env).nextObj >= s.nextObj
  {
    CompileFailedRouteGrows(Log(s, PlannerCompileFailed(s.tasks[i].id)), i, env);
  }

  lemma {:induction false} PlanReplyGrows(s: KState, i: nat, env: Env)
    requires i < |s.tasks|
    ensures PlanReply(s, i, env).state.nextObj >= s.nextObj
  {
    RejectedGrows(s, i, env);
    AppendedGrows(s, env);
  }

  lemma {:induction false} AppendedGrows(s: KState, env: Env)
    ensures AppendSubgoals(s, env.reply.subgoals, env.tools).state.nextObj >= s.nextObj
    ensures AppendTasks(s, env.reply.tasks).state.nextObj >= s.nextObj
  {}

  lemma {:induction false} ResolveGrows(v: KState, i: nat, ownCodes: set<Code>, env: Env)
    requires i < |v.tasks|
    ensures Resolve(v, i, ownCodes, env).state.nextObj >= v.nextObj
  {
    if Routed(v, i, env) {
      RouteFailureGrows(v, i, ownCodes, env);
    } else if IsPlanGoal(v.tasks[i].kind) && env.reply.ok {
      PlanReplyGrows(v, i, env);
    } else if !env.reply.ok {
      CompileFailedRouteGrows(v, i, env);
    }
  }

  /* ---- the attempts invariant ---- */

  function RoutedPart(v: KState, i: nat, ownCodes: set<Code>, env: Env): seq<Event>
    requires i < |v.tasks|
  {
    if Routed(v, i, env) then [FailureRouted(v.tasks[i].id, DecisionFor(v, ownCodes, env))] else []
  }

  ghost function RetryPart(v: KState, i: nat, ownCodes: set<Code>, env: Env): seq<Event>
    requires i < |v.tasks|
  {
    if Retried(v, i, ownCodes, env) then RetryEntry(v.tasks[i]) else []
  }

  lemma {:induction false} ResolvedParts(v: KState, i: nat, codes: set<Code>, env: Env)
    requires i < |v.tasks| && !Resolve(v, i, codes, env).raised
    ensures Ledger(Resolve(v, i, codes, env).state.trace)
            == Ledger(v.trace) + RoutedPart(v, i, codes, env) + RetryPart(v, i, codes, env)
  {
    ResolveFrame(v, i, codes, env);
  }

  lemma {:induction false} ResolvedLedger(v: KState, i: nat, codes: set<Code>, env: Env, l: seq<Event>)
    requires i < |v.tasks| && !Resolve(v, i, codes, env).raised
    requires Ledger(v.trace) == l + [WorkerStarted(v.tasks[i].obj, v.tasks[i].id)]
    ensures Ledger(Resolve(v, i, codes, env).state.trace)
            == l + Entries(v.tasks[i], RoutedPart(v, i, codes, env), RetryPart(v, i, codes, env))
  {
    ResolvedParts(v, i, codes, env);
    EntriesJoin(l, v.tasks[i], RoutedPart(v, i, codes, env), RetryPart(v, i, codes, env));
  }

  /** The ledger after an execution that does not raise. */
  lemma {:induction false} ExecutionLedger(s: KState, env: Env, planner: Planner)
    requires Calls(s, env, planner) && !Step(s, env, planner).raised
    ensures var v := AtCall(s, env, planner);
            var i := Called(s, env, planner);
            Ledger(Step(s, env, planner).state.trace)
            == Ledger(s.trace) + Entries(v.tasks[i], RoutedPart(v, i, CallCodes(s, env, planner), env),
                                         RetryPart(v, i, CallCodes(s, env, planner), env))
  {
    StepIsResolve(s, env, planner);
    CallLedger(s, env, planner);
    ResolvedLedger(AtCall(s, env, planner), Called(s, env, planner), CallCodes(s, env, planner), env, Ledger(s.trace));
  }

  lemma {:induction false} PlanReplyRaises(v: KState, i: nat, env: Env)
    requires i < |v.tasks|
    ensures PlanReply(v, i, env).raised ==> PlanReply(v, i, env).state == v
  {
    PlanReplyQuiet(v, i, env);
  }

  lemma {:induction false} ResolveRaises(v: KState, i: nat, codes: set<Code>, env: Env)
    requires i < |v.tasks| && Resolve(v, i, codes, env).raised
    ensures Resolve(v, i, codes, env).state == v
  {
    PlanReplyRaises(v, i, env);
  }

  lemma {:induction false} RaisedState(s: KState, env: Env, planner: Planner)
    requires Calls(s, env, planner) && Step(s, env, planner).raised
    ensures Step(s, env, planner).state == AtCall(s, env, planner)
  {
    StepIsResolve(s, env, planner);
    ResolveRaises(AtCall(s, env, planner), Called(s, env, planner), CallCodes(s, env, planner), env);
  }

  /** The attempts invariant when the task at `i` of `v` has just been handed to the worker. */
  ghost predicate ReadyToCount(l: seq<Event>, v: KState, i: nat)
    requires i < |v.tasks|
  {
    && Executions(l, v.tasks[i].obj) == v.tasks[i].retries
    && BackoffMs(l, v.tasks[i].obj) == BackoffTotal(Policy(v.tasks[i]), v.tasks[i].retries)
    && v.tasks[i].retries < Policy(v.tasks[i]).maxAttempts && v.tasks[i].status == Running
    && (forall j :: 0 <= j < |v.tasks| && j != i ==> TaskOk(l, v.tasks[j]))
    && (forall obj: nat :: obj >= v.nextObj ==> Untouched(l, obj))
  }

  lemma {:induction false} CountedAt(l: seq<Event>, c: KState, v: KState, i: nat)
    requires AllOk(l, c.tasks, c.nextObj) && i < |c.tasks| && Runnable(c.tasks, i)
             && GoodTask(c.tasks[i], c.nextSeq, c.nextObj)
    requires |v.tasks| == |c.tasks| && v.tasks == c.tasks[i := v.tasks[i]] && v.nextObj == c.nextObj
    requires v.tasks[i].obj == c.tasks[i].obj && v.tasks[i].retries == c.tasks[i].retries
    requires Policy(v.tasks[i]) == Policy(c.tasks[i]) && v.tasks[i].status == Running
    ensures ReadyToCount(l, v, i)
  {}

  lemma {:induction false} CheckedAllOk(s: KState, env: Env, planner: Planner)
    requires PlanInv(s) && ObjInv(s)
    ensures var c := Checked(Planned(s, planner), env.tools);
            ObjInv(c) && PlanInv(c) && Ledger(c.trace) == Ledger(s.trace)
  {
    var p := Planned(s, planner);
    PlannedKeeps(s, planner);
    PlannedOk(s, planner);
    CheckedOk(p, env.tools);
    CheckedKeeps(p, env.tools);
    PlannedQuiet(s, planner);
    CheckedQuiet(p, env.tools);
  }

  lemma {:induction false} CalledOk(s: KState, env: Env, planner: Planner)
    requires PlanInv(s) && ObjInv(s) && Calls(s, env, planner)
    ensures ReadyToCount(Ledger(s.trace), AtCall(s, env, planner), Called(s, env, planner))
  {
    var c := Checked(Planned(s, planner), env.tools);
    CheckedAllOk(s, env, planner);
    CallFrame(s, env, planner);
    CountedAt(Ledger(s.trace), c, AtCall(s, env, planner), Called(s, env, planner));
  }

  lemma {:induction false} ExecutedOk(s: KState, env: Env, planner: Planner)
    requires PlanInv(s) && ObjInv(s) && GoodReply(env.reply) && Calls(s, env, planner) && !Step(s, env, planner).raised
    ensures ObjInv(Step(s, env, planner).state)
  {
    var v := AtCall(s, env, planner);
    var i := Called(s, env, planner);
    var codes := CallCodes(s, env, planner);
    var r := Step(s, env, planner).state;
    CallReady(s, env, planner);
    CalledOk(s, env, planner);
    StepIsResolve(s, env, planner);
    ResolveEvolves(v, i, codes, env);
    ExecutionLedger(s, env, planner);
    ResolveGrows(v, i, codes, env);
    EvolvedOk(Ledger(s.trace), v, i, RoutedPart(v, i, codes, env), RetryPart(v, i, codes, env), r);
  }

  lemma {:induction false} EvolvedOk(l: seq<Event>, v: KState, i: nat, routed: seq<Event>, retry: seq<Event>, r: KState)
    requires MayRun(v, i) && Evolves(v.tasks, i, r.tasks, v.nextObj, retry != []) && r.nextObj >= v.nextObj
    requires RoutedEntry(routed) && (retry == [] || retry == RetryEntry(v.tasks[i]))
    requires Ledger(r.trace) == l + Entries(v.tasks[i], routed, retry)
    requires ReadyToCount(l, v, i)
    ensures ObjInv(r)
  {
    assert GoodTask(v.tasks[i], v.nextSeq, v.nextObj);
    forall k | 0 <= k < |r.tasks| ensures TaskOk(Ledger(r.trace), r.tasks[k]) {
      assert Offspring(v.tasks, i, r.tasks[k], v.nextObj, retry != []);
      OffspringOk(l, v.tasks, i, routed, retry, r.tasks[k], v.nextSeq, v.nextObj);
    }
    UntouchedAfter(l, v.tasks[i], routed, retry, v.nextObj, r.nextObj);
  }

  lemma {:induction false} InterruptedOk(l: seq<Event>, v: KState, i: nat)
    requires MayRun(v, i) && ReadyToCount(l, v, i)
    requires Ledger(v.trace) == l + [WorkerStarted(v.tasks[i].obj, v.tasks[i].id)]
    ensures ObjInv(v)
  {
    var m := l + Entries(v.tasks[i], [], []);
    assert Ledger(v.trace) == m;
    assert GoodTask(v.tasks[i], v.nextSeq, v.nextObj);
    forall k | 0 <= k < |v.tasks| ensures TaskOk(m, v.tasks[k]) {
      EntryCounts(l, v.tasks[i], [], [], v.tasks[k].obj);
      if k != i { OkElsewhere(l, m, v.tasks[k]); }
    }
    UntouchedAfter(l, v.tasks[i], [], [], v.nextObj, v.nextObj);
  }

  lemma {:induction false} RaisedOk(s: KState, env: Env, planner: Planner)
    requires PlanInv(s) && ObjInv(s) && Calls(s, env, planner) && Step(s, env, planner).raised
    ensures ObjInv(Step(s, env, planner).state)
  {
    CallReady(s, env, planner);
    CalledOk(s, env, planner);
    CallLedger(s, env, planner);
    RaisedState(s, env, planner);
    InterruptedOk(Ledger(s.trace), AtCall(s, env, planner), Called(s, env, planner));
  }

  /** Every step keeps the attempts invariant. */
  lemma {:induction false} StepKeepsAttempts(s: KState, env: Env, planner: Planner)
    requires PlanInv(s) && ObjInv(s) && GoodReply(env.reply)
    ensures ObjInv(Step(s, env, planner).state)
  {
    if Calls(s, env, planner) {
      if Step(s, env, planner).raised { RaisedOk(s, env, planner); } else { ExecutedOk(s, env, planner); }
    } else {
      QuietOk(s, env, planner);
    }
  }

  lemma {:induction false} QuietOk(s: KState, env: Env, planner: Planner)
    requires PlanInv(s) && ObjInv(s) && !Calls(s, env, planner)
    ensures ObjInv(Step(s, env, planner).state)
  {
    StepIsQuiet(s, env, planner);
    PlannedOk(s, planner);
    PlannedQuiet(s, planner);
    CheckedAllOk(s, env, planner);
  }
}
