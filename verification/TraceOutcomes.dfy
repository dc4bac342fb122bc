/** What a step writes to the trace, in terms of the plan, the worker's reply and the history. */
module TraceOutcomes {
  import opened Basics
  import opened PyText
  import opened Schemas
  import opened CompileCheck
  import opened FailureRouter
  import opened CircuitBreakers
  import opened KernelState
  import opened PlanInvariant
  import opened PlanSteps
  import opened Attempts
  import opened StepObjects
  import opened StepOutcomes
  import opened ReplanOutcomes
  import opened FailureOutcomes
  import opened PlanOutcomes

  /* ---- the router's decision ---- */

  /** The position of a category's keyword list in the order in which they are tried. */
  function Turn(category: FailureCategory): nat {
    match category
    case MissingInput => 0
    case AuthError => 1
    case PermissionDenied => 2
    case EnvironmentMissing => 3
    case TransientToolError => 4
    case GoalNotExecutable => 5
    case CapabilityGap => 6
    case LogicConflict => 7
    case _ => 8
  }

  predicate Hit(hits: KeywordHits, category: FailureCategory) {
    match category
    case MissingInput => hits.missingInput
    case AuthError => hits.auth
    case PermissionDenied => hits.permission
    case EnvironmentMissing => hits.environment
    case TransientToolError => hits.retryable
    case GoalNotExecutable => hits.notExecutable
    case CapabilityGap => hits.capability
    case LogicConflict => hits.logic
    case _ => false
  }

  /** The category of the first list with a hit, or unknown without one. */
  predicate FirstHit(hits: KeywordHits, category: FailureCategory) {
    && (category == Unknown || Hit(hits, category))
    && forall c :: Turn(c) < Turn(category) ==> !Hit(hits, c)
  }

  predicate Answered(category: FailureCategory, action: RouteAction) {
    match category
    case RepeatedSameError => action == CircuitBreak
    case TransientToolError => action == Retry
    case AuthError => action == RepairAuth
    case CapabilityGap => action == LocalReplanWithConstraints
    case LogicConflict => action == RouteAction.LocalReplan
    case Unknown => action == RouteAction.LocalReplan
    case _ => action == AskUser
  }

  /** The third occurrence of a failure breaks the circuit; a compile issue of the task asks for input; otherwise the
      first keyword list that the text hits decides. */
  lemma {:induction false} ClassifyIs(fp: string, ownCodes: set<Code>, prior: seq<string>, hits: KeywordHits)
    ensures var d := Classify(fp, ownCodes, prior, hits);
            && d.fingerprint == fp && Answered(d.category, d.action)
            && (if CountOf(prior, fp) >= 2 then d.category == RepeatedSameError
                else if ownCodes * {InputSchemaIncomplete, PreconditionNotEvaluable} != {} then
                  d.category == MissingInput
                else FirstHit(hits, d.category))
  {
    var d := Classify(fp, ownCodes, prior, hits);
    if InputSchemaIncomplete in ownCodes || PreconditionNotEvaluable in ownCodes {
      var c :| c in ownCodes && c in {InputSchemaIncomplete, PreconditionNotEvaluable};
      assert c in ownCodes * {InputSchemaIncomplete, PreconditionNotEvaluable};
    }
  }

  /* ---- failures ---- */

  /** The decision that is logged for a failure. */
  ghost predicate Decides(v: KState, env: Env, d: Decision) {
    && d.fingerprint == env.fingerprint && Answered(d.category, d.action)
    && if CountOf(RoutedFingerprints(v.trace), env.fingerprint) >= 2 then d.category == RepeatedSameError
       else FirstHit(env.hits, d.category)
  }

  function ReplanNews(s: KState, t: Task, constrained: bool, env: Env): seq<Event> {
    [LocalReplanned(t.id, MintedId(SeqOf(s)), constrained)] + (if Loops(s, t, env) then [CircuitBroken] else [])
  }

  lemma {:induction false} ReplanLogs(s: KState, i: nat, constrained: bool, env: Env)
    requires i < |s.tasks|
    ensures AfterReplan(s, i, constrained, env).trace == s.trace + ReplanNews(s, s.tasks[i], constrained, env)
  {
    LoopsIff(s, i, env);
    var e := LocalReplanned(s.tasks[i].id, MintedId(SeqOf(s)), constrained);
    assert (s.trace + [e]) + [CircuitBroken] == s.trace + ([e] + [CircuitBroken]);
    assert s.trace + [e] == s.trace + ([e] + []);
  }

  /** What is logged about a retry: the attempt, and by how much the total back-off grows. */
  function RetryNews(t: Task): Event {
    var total := BackoffTotal(Policy(t), t.retries + 1) - BackoffTotal(Policy(t), t.retries);
    if AttemptsLeft(t) then RetryScheduled(t.obj, t.id, t.retries + 1, Policy(t).maxAttempts, total)
    else RetryExhausted(t.id, t.retries + 1, Policy(t).maxAttempts)
  }

  /** What is logged after the decision. */
  function FailureNews(v: KState, t: Task, d: Decision, env: Env): seq<Event> {
    if Counter(v.breaker.errorStreaks, t.id, env.fingerprint) >= 1 then [CircuitBroken]
    else if Breaks(v, t, env) then []
    else if Transient(env.hits) then
      [RetryNews(t)] + (if AttemptsLeft(t) && Stagnant(v, env) then [CircuitBroken] else [])
    else if Waits(env.hits) then
      [FailureFallback(t.id, d.action)] + (if Stagnant(v, env) then [CircuitBroken] else [])
    else
      [FailureFallback(t.id, d.action)] + ReplanNews(v, t, env.hits.capability, env)
        + (if Stagnant(v, env) && !Loops(v, t, env) then [CircuitBroken] else [])
  }

  lemma {:induction false} StagnationLogs(r: KState, obj: nat, stalled: bool)
    ensures StagnationChecked(r, obj, stalled).trace
            == r.trace + (if r.status !in {Completed, Aborted} && (r.used - r.breaker.lastDoneCycle >= 10 || stalled)
                          then [CircuitBroken] else [])
  {
    assert r.trace + [] == r.trace;
  }

  lemma {:induction false} RetryLogs(v: KState, c: KState, i: nat)
    requires i < |v.tasks| && c.tasks == v.tasks
    ensures RetryOrGiveUp(c, i).trace == c.trace + [RetryNews(v.tasks[i])]
  {
    if AttemptsLeft(v.tasks[i]) { RetryEventIs(v.tasks[i]); }
  }

  lemma {:induction false} RetryEventIs(t: Task)
    requires AttemptsLeft(t)
    ensures RetryEvent(t) == RetryNews(t)
  {
    DelayStep(Policy(t), t.retries);
  }

  lemma {:induction false} ParkLogs(c: KState, i: nat, action: RouteAction)
    requires i < |c.tasks|
    ensures Park(c, i, action).trace == c.trace + [FailureFallback(c.tasks[i].id, action)]
  {}

  lemma {:induction false} CountedLogs(v: KState, i: nat, env: Env)
    requires i < |v.tasks|
    ensures var d := DecisionFor(v, {}, env);
            && Decides(v, env, d)
            && FailureCounted(v, v.tasks[i].id, d, env).trace == v.trace + [FailureRouted(v.tasks[i].id, d)]
  {
    ClassifyIs(env.fingerprint, {}, RoutedFingerprints(v.trace), env.hits);
  }

  lemma {:induction false} Regroup3<T>(a: seq<T>, b: seq<T>, c: seq<T>, d: seq<T>)
    ensures ((a + b) + c) + d == a + (b + (c + d))
  {}

  lemma {:induction false} Regroup4<T>(a: seq<T>, b: seq<T>, c: seq<T>, d: seq<T>, e: seq<T>)
    ensures (((a + b) + c) + d) + e == a + (b + (c + d + e))
  {}

  lemma {:induction false} BreakLogs(v: KState, i: nat, env: Env)
    requires i < |v.tasks| && Breaks(v, v.tasks[i], env)
    ensures var d := DecisionFor(v, {}, env);
            RouteFailure(v, i, {}, env).trace
            == v.trace + ([FailureRouted(v.tasks[i].id, d)] + FailureNews(v, v.tasks[i], d, env))
  {
    var d := DecisionFor(v, {}, env);
    var c := FailureCounted(v, v.tasks[i].id, d, env);
    CountedIs(v, i, env);
    AnswerIs(v, env);
    CountedLogs(v, i, env);
    Regroup3(v.trace, [FailureRouted(v.tasks[i].id, d)], FailureNews(v, v.tasks[i], d, env), []);
    if Counter(c.breaker.errorStreaks, v.tasks[i].id, d.fingerprint) < SAME_ERROR_LIMIT {
      assert Transition(c, i, d, env) == GiveUp(c, i);
      StagnationLogs(GiveUp(c, i), v.tasks[i].obj, env.secondsStalled);
    }
  }

  lemma {:induction false} TransientLogs(v: KState, i: nat, env: Env)
    requires i < |v.tasks| && !Breaks(v, v.tasks[i], env) && Transient(env.hits)
    ensures var d := DecisionFor(v, {}, env);
            RouteFailure(v, i, {}, env).trace
            == v.trace + ([FailureRouted(v.tasks[i].id, d)] + FailureNews(v, v.tasks[i], d, env))
  {
    var t, d := v.tasks[i], DecisionFor(v, {}, env);
    var c := FailureCounted(v, t.id, d, env);
    CountedIs(v, i, env);
    AnswerIs(v, env);
    CountedLogs(v, i, env);
    GoesOn(v, i, env);
    RetryLogs(v, c, i);
    RetryBecomes(v, c, i);
    StagnationLogs(RetryOrGiveUp(c, i), t.obj, env.secondsStalled);
    Regroup3(v.trace, [FailureRouted(t.id, d)], [RetryNews(t)],
             if AttemptsLeft(t) && Stagnant(v, env) then [CircuitBroken] else []);
  }

  lemma {:induction false} WaitLogs(v: KState, i: nat, env: Env)
    requires i < |v.tasks| && !Breaks(v, v.tasks[i], env) && Waits(env.hits)
    ensures var d := DecisionFor(v, {}, env);
            RouteFailure(v, i, {}, env).trace
            == v.trace + ([FailureRouted(v.tasks[i].id, d)] + FailureNews(v, v.tasks[i], d, env))
  {
    var t, d := v.tasks[i], DecisionFor(v, {}, env);
    var c := FailureCounted(v, t.id, d, env);
    CountedIs(v, i, env);
    AnswerIs(v, env);
    CountedLogs(v, i, env);
    GoesOn(v, i, env);
    assert Transition(c, i, d, env) == Park(c, i, d.action);
    ParkLogs(c, i, d.action);
    ParkBecomes(v, c, i, d.action);
    StagnationLogs(Park(c, i, d.action), t.obj, env.secondsStalled);
    Regroup3(v.trace, [FailureRouted(t.id, d)], [FailureFallback(t.id, d.action)],
             if Stagnant(v, env) then [CircuitBroken] else []);
  }

  lemma {:induction false} SameNews(a: KState, b: KState, t: Task, constrained: bool, env: Env)
    requires a.nextSeq == b.nextSeq && a.breaker.actionStreaks == b.breaker.actionStreaks
    ensures ReplanNews(a, t, constrained, env) == ReplanNews(b, t, constrained, env)
  {}

  lemma {:induction false} MarkedLogs(v: KState, i: nat, env: Env)
    requires MayRun(v, i) && v.status == Active
    ensures var t, d, w := v.tasks[i], DecisionFor(v, {}, env), MarkedForReplan(v, i, env);
            && w.trace == v.trace + [FailureRouted(t.id, d)] + [FailureFallback(t.id, d.action)]
            && MayRun(w, i) && w.status == Active && w.used == v.used
            && w.breaker.lastDoneCycle == v.breaker.lastDoneCycle
            && w.tasks[i] == t.(status := FailedRetryable)
            && w.nextSeq == v.nextSeq && w.breaker.actionStreaks == v.breaker.actionStreaks
  {
    CountedIs(v, i, env);
    CountedLogs(v, i, env);
    MarkedIs(v, i, env);
  }

  lemma {:induction false} MarkedRouteLogs(v: KState, i: nat, env: Env)
    requires MayRun(v, i) && v.status == Active && !Breaks(v, v.tasks[i], env)
    requires !Transient(env.hits) && !Waits(env.hits)
    ensures RouteFailure(v, i, {}, env).trace
            == MarkedForReplan(v, i, env).trace + ReplanNews(v, v.tasks[i], env.hits.capability, env)
               + (if Stagnant(v, env) && !Loops(v, v.tasks[i], env) then [CircuitBroken] else [])
  {
    var t, w := v.tasks[i], MarkedForReplan(v, i, env);
    var a := AfterReplan(w, i, env.hits.capability, env);
    MarkedLogs(v, i, env);
    GoesOnToReplan(v, i, env);
    ReplanLogs(w, i, env.hits.capability, env);
    ReplanStatus(w, i, env.hits.capability, env);
    StagnationLogs(a, t.obj, env.secondsStalled);
    SameNews(v, w, t, env.hits.capability, env);
  }

  lemma {:induction false} RewriteLogs(v: KState, i: nat, env: Env)
    requires MayRun(v, i) && v.status == Active && !Breaks(v, v.tasks[i], env)
    requires !Transient(env.hits) && !Waits(env.hits)
    ensures var d := DecisionFor(v, {}, env);
            RouteFailure(v, i, {}, env).trace
            == v.trace + ([FailureRouted(v.tasks[i].id, d)] + FailureNews(v, v.tasks[i], d, env))
  {
    var t, d := v.tasks[i], DecisionFor(v, {}, env);
    MarkedLogs(v, i, env);
    MarkedRouteLogs(v, i, env);
    CountedIs(v, i, env);
    Regroup4(v.trace, [FailureRouted(t.id, d)], [FailureFallback(t.id, d.action)],
             ReplanNews(v, t, env.hits.capability, env),
             if Stagnant(v, env) && !Loops(v, t, env) then [CircuitBroken] else []);
  }

  lemma {:induction false} RouteLogs(v: KState, i: nat, env: Env)
    requires MayRun(v, i) && v.status == Active
    ensures var d := DecisionFor(v, {}, env);
            RouteFailure(v, i, {}, env).trace
            == v.trace + ([FailureRouted(v.tasks[i].id, d)] + FailureNews(v, v.tasks[i], d, env))
  {
    if Breaks(v, v.tasks[i], env) {
      BreakLogs(v, i, env);
    } else if Transient(env.hits) {
      TransientLogs(v, i, env);
    } else if Waits(env.hits) {
      WaitLogs(v, i, env);
    } else {
      RewriteLogs(v, i, env);
    }
  }

  /** A failure is logged with the decision of the first keyword list it hits, and with what then happened. */
  lemma {:induction false} FailureLogs(s: KState, env: Env, planner: Planner) returns (d: Decision)
    requires PlanInv(s) && Calls(s, env, planner)
    requires WorkerFails(AtCall(s, env, planner).tasks[Called(s, env, planner)], env)
    ensures var v, i := AtCall(s, env, planner), Called(s, env, planner);
            && Decides(v, env, d)
            && Step(s, env, planner).state.trace
               == v.trace + ([FailureRouted(v.tasks[i].id, d)] + FailureNews(v, v.tasks[i], d, env))
  {
    var v, i := AtCall(s, env, planner), Called(s, env, planner);
    d := DecisionFor(v, {}, env);
    CallReady(s, env, planner);
    CallIsActive(s, env, planner);
    FailedStepRoutes(s, env, planner);
    CountedLogs(v, i, env);
    RouteLogs(v, i, env);
  }

  /* ---- plans that do not compile ---- */

  function PlanFailsNews(v: KState, t: Task, env: Env): seq<Event> {
    (if env.reply.ok then [PlannerCompileFailed(t.id)] else []) + [PlannerCompileFailedRoute(t.id)]
      + ReplanNews(v, t, true, env)
  }

  lemma {:induction false} CompileFailedLogs(v: KState, i: nat, env: Env)
    requires i < |v.tasks|
    ensures var id := v.tasks[i].id;
            CompileFailedRoute(v, i, env).trace
            == v.trace + [PlannerCompileFailedRoute(id)] + ReplanNews(v, v.tasks[i], true, env)
  {
    var f := WithStatus(v, i, FailedRetryable).(lastError := "planner_compile_failed");
    var w := Log(f, PlannerCompileFailedRoute(v.tasks[i].id));
    ReplanLogs(w, i, true, env);
  }

  lemma {:induction false} PlanFailsResolve(v: KState, i: nat, codes: set<Code>, env: Env)
    requires i < |v.tasks| && PlanFails(v, i, env)
    ensures Resolve(v, i, codes, env).state
            == CompileFailedRoute(if env.reply.ok then Log(v, PlannerCompileFailed(v.tasks[i].id)) else v, i, env)
  {}

  lemma {:induction false} RejectedLogs(v: KState, i: nat, env: Env)
    requires i < |v.tasks|
    ensures var id := v.tasks[i].id;
            CompileFailedRoute(Log(v, PlannerCompileFailed(id)), i, env).trace
            == v.trace + ([PlannerCompileFailed(id)] + [PlannerCompileFailedRoute(id)]
                          + ReplanNews(v, v.tasks[i], true, env))
  {
    var id := v.tasks[i].id;
    var w := Log(v, PlannerCompileFailed(id));
    CompileFailedLogs(w, i, env);
    SameNews(w, v, v.tasks[i], true, env);
    Regroup(v.trace, [PlannerCompileFailed(id)], [PlannerCompileFailedRoute(id)],
            ReplanNews(v, v.tasks[i], true, env));
  }

  lemma {:induction false} Regroup<T>(a: seq<T>, b: seq<T>, c: seq<T>, d: seq<T>)
    ensures ((a + b) + c) + d == a + (b + c + d)
  {}

  lemma {:induction false} Regroup2<T>(a: seq<T>, b: seq<T>, c: seq<T>)
    ensures (a + b) + c == a + ([] + b + c)
  {}

  lemma {:induction false} PlanFailsResolveLogs(v: KState, i: nat, codes: set<Code>, env: Env)
    requires i < |v.tasks| && PlanFails(v, i, env)
    ensures Resolve(v, i, codes, env).state.trace == v.trace + PlanFailsNews(v, v.tasks[i], env)
  {
    PlanFailsResolve(v, i, codes, env);
    if env.reply.ok {
      RejectedLogs(v, i, env);
    } else {
      CompileFailedLogs(v, i, env);
      Regroup2(v.trace, [PlannerCompileFailedRoute(v.tasks[i].id)], ReplanNews(v, v.tasks[i], true, env));
    }
  }

  /** A plan that does not compile is logged where the kernel finds it out, and so is the replan. */
  lemma {:induction false} PlanFailsLogs(s: KState, env: Env, planner: Planner)
    requires Calls(s, env, planner) && PlanFails(AtCall(s, env, planner), Called(s, env, planner), env)
    ensures var v, i := AtCall(s, env, planner), Called(s, env, planner);
            Step(s, env, planner).state.trace == v.trace + PlanFailsNews(v, v.tasks[i], env)
  {
    StepIsResolve(s, env, planner);
    PlanFailsResolveLogs(AtCall(s, env, planner), Called(s, env, planner), CallCodes(s, env, planner), env);
  }

  /* ---- before the call, and without one ---- */

  /** The entry names the task and the codes of its issues. */
  ghost predicate TellsIssues(e: Event, t: Task, nodes: seq<Subgoal>, tools: Tools) {
    && e.CompileBlocked? && e.taskId == t.id
    && forall code :: code in e.codes <==> Flagged(nodes, tools, Issue(code, t.id))
  }

  ghost predicate HasIssue(t: Task, nodes: seq<Subgoal>, tools: Tools) {
    exists code :: Flagged(nodes, tools, Issue(code, t.id))
  }

  /** One entry, in order, for every task that has an issue and is neither finished nor failed. */
  ghost predicate BlockedAt(tasks: seq<Task>, nodes: seq<Subgoal>, tools: Tools, log: seq<Event>, at: seq<nat>) {
    && Increasing(at) && |log| == |at|
    && (forall j: nat :: j in at <==>
          j < |tasks| && HasIssue(tasks[j], nodes, tools) && tasks[j].status !in {Done, Skipped, Failed})
    && forall k :: 0 <= k < |log| ==> at[k] < |tasks| && TellsIssues(log[k], tasks[at[k]], nodes, tools)
  }

  lemma {:induction false} CodesTell(t: Task, nodes: seq<Subgoal>, tools: Tools)
    ensures CodesFor(nodes, tools, t.id) != {} <==> HasIssue(t, nodes, tools)
    ensures TellsIssues(CompileBlocked(t.id, CodesFor(nodes, tools, t.id)), t, nodes, tools)
  {
    if code :| Flagged(nodes, tools, Issue(code, t.id)) {
      assert code in CodesFor(nodes, tools, t.id);
    }
  }

  lemma {:induction false} BlockedLogs(tasks: seq<Task>, nodes: seq<Subgoal>, tools: Tools) returns (at: seq<nat>)
    ensures BlockedAt(tasks, nodes, tools, BlockEvents(tasks, nodes, tools), at)
  {
    at := [];
    if tasks != [] {
      var n := |tasks| - 1;
      at := BlockedLogs(tasks[..n], nodes, tools);
      CodesTell(tasks[n], nodes, tools);
      BlockedNext(tasks, nodes, tools, BlockEvents(tasks[..n], nodes, tools), at);
      if BlockEvent(tasks[n], CodesFor(nodes, tools, tasks[n].id)) != [] {
        at := at + [n];
      }
    }
  }

  lemma {:induction false} BlockedNext(tasks: seq<Task>, nodes: seq<Subgoal>, tools: Tools, log: seq<Event>,
                                       at: seq<nat>)
    requires tasks != [] && BlockedAt(tasks[..|tasks| - 1], nodes, tools, log, at)
    ensures var t := tasks[|tasks| - 1];
            var codes := CodesFor(nodes, tools, t.id);
            if codes != {} && t.status !in {Done, Skipped, Failed} then
              BlockedAt(tasks, nodes, tools, log + [CompileBlocked(t.id, codes)], at + [|tasks| - 1])
            else BlockedAt(tasks, nodes, tools, log + [], at)
  {
    CodesTell(tasks[|tasks| - 1], nodes, tools);
    assert log + [] == log;
  }

  function PlanningNews(tasks: seq<Task>): seq<Event> {
    [PlanningStarted] + [PlanningCompleted(|tasks|)]
  }

  function CallNews(t: Task, ok: bool): seq<Event> {
    [TaskSelected(t.id)] + [WorkerStarted(t.obj, t.id)] + [ToolInvoked(t.id, t.retries)] + [WorkerReplied(t.id, ok)]
  }

  lemma {:induction false} PlannedLogs(s: KState, planner: Planner)
    ensures Planned(s, planner).trace == s.trace + PlanningNews(Planned(s, planner).tasks)
  {
    Regroup3(s.trace, [PlanningStarted], [PlanningCompleted(|Planned(s, planner).tasks|)], []);
  }

  lemma {:induction false} InvokedLogs(s: KState, i: nat, ok: bool)
    requires i < |s.tasks|
    ensures Invoked(s, i, ok).trace == s.trace + CallNews(s.tasks[i], ok)
  {
    var t := s.tasks[i];
    Regroup5(s.trace, [TaskSelected(t.id)], [WorkerStarted(t.obj, t.id)], [ToolInvoked(t.id, t.retries)],
             [WorkerReplied(t.id, ok)]);
  }

  lemma {:induction false} Regroup5<T>(a: seq<T>, b: seq<T>, c: seq<T>, d: seq<T>, e: seq<T>)
    ensures (((a + b) + c) + d) + e == a + (b + c + d + e)
  {}

  /** Up to the worker's reply: the planning, the blocked tasks, and the call. */
  lemma {:induction false} CallLogs(s: KState, env: Env, planner: Planner) returns (blocked: seq<Event>, at: seq<nat>)
    requires Calls(s, env, planner)
    ensures var p, v, i := Planned(s, planner).tasks, AtCall(s, env, planner), Called(s, env, planner);
            && BlockedAt(p, Nodes(p), env.tools, blocked, at)
            && v.trace == s.trace + PlanningNews(p) + blocked + CallNews(v.tasks[i], env.reply.ok)
  {
    var p := Planned(s, planner);
    blocked := BlockEvents(p.tasks, Nodes(p.tasks), env.tools);
    at := BlockedLogs(p.tasks, Nodes(p.tasks), env.tools);
    PlannedLogs(s, planner);
    CalledLogs(s, env, planner);
  }

  lemma {:induction false} CalledLogs(s: KState, env: Env, planner: Planner)
    requires Calls(s, env, planner)
    ensures var p, v := Planned(s, planner), AtCall(s, env, planner);
            v.trace == p.trace + BlockEvents(p.tasks, Nodes(p.tasks), env.tools)
                       + CallNews(v.tasks[Called(s, env, planner)], env.reply.ok)
  {
    InvokedLogs(Checked(Planned(s, planner), env.tools), Called(s, env, planner), env.reply.ok);
  }

  /** Without a call: the planning, and the end of the budget; or the blocked tasks, and that all tasks are finished. */
  lemma {:induction false} IdleLogs(s: KState, env: Env, planner: Planner) returns (blocked: seq<Event>, at: seq<nat>)
    requires s.status == Active && !Calls(s, env, planner)
    ensures var p, trace := Planned(s, planner).tasks, Step(s, env, planner).state.trace;
            && BlockedAt(p, Nodes(p), env.tools, blocked, at)
            && trace == if s.used >= s.max then s.trace + PlanningNews(p) + [BudgetExhausted(s.used)]
                        else s.trace + PlanningNews(p) + blocked
                             + (if AllFinished(Plan(s, env, planner)) then [AllTasksDone] else [])
  {
    var p := Planned(s, planner);
    blocked := BlockEvents(p.tasks, Nodes(p.tasks), env.tools);
    at := BlockedLogs(p.tasks, Nodes(p.tasks), env.tools);
    PlannedLogs(s, planner);
    if s.used < s.max {
      StepIsIdle(s, env, planner);
      assert Checked(p, env.tools).trace + [] == Checked(p, env.tools).trace;
    }
  }
}
