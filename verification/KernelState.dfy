/** The scheduler's state and one `run_step` of it as a function (agent_kernel/kernel.py). The worker,
    the failure text and the clock are an arbitrary environment chosen anew for every step. */
module KernelState {
  import opened PyText
  import opened Schemas
  import opened CompileCheck
  import opened LocalReplan
  import opened FailureRouter
  import opened CircuitBreakers

  datatype RunStatus = Active | Completed | Aborted | AwaitingUser

  datatype Event =
    | PlanningStarted
    | PlanningCompleted(taskCount: nat)
    | BudgetExhausted(used: int)
    | CompileBlocked(taskId: string, codes: set<Code>)
    | AllTasksDone
    | TaskSelected(taskId: string)
    | WorkerStarted(obj: nat, taskId: string)
    | ToolInvoked(taskId: string, retryCount: nat)
    | WorkerReplied(taskId: string, ok: bool)
    | PlannerCompileFailed(taskId: string)
    | PlannerCompileFailedRoute(taskId: string)
    | FailureRouted(taskId: string, decision: Decision)
    | CircuitBroken
    | RetryScheduled(obj: nat, taskId: string, attempt: nat, maxAttempts: int, delayMs: int)
    | RetryExhausted(taskId: string, attempts: nat, maxAttempts: int)
    | FailureFallback(taskId: string, action: RouteAction)
    | LocalReplanned(taskId: string, replacementId: string, constrained: bool)

  /** An AgentState together with its kernel's circuit breaker. `nextObj` is the identity the next
      Task object will get. */
  datatype KState = KState(
    goal: string, tasks: seq<Task>, status: RunStatus, trace: seq<Event>,
    used: int, max: int, activeTask: string, goalDone: bool, lastError: string,
    nextSeq: nat, nextObj: nat, breaker: BreakerState)

  /** One entry of `generated_subgoals`; the kernel skips entries that are not dicts. */
  datatype Spec = NotADict | Spec(
    id: string, intent: string, executorType: string, toolName: string, inputs: Payload,
    dependencies: seq<string>, preconditions: seq<Check>, successCriteria: seq<Check>,
    fallback: map<string, string>, retryPolicy: RetryPolicy)

  /** One entry of `generated_tasks`. */
  datatype TaskSpec = NotATask | TaskSpec(description: string, kind: string, payload: Payload, priority: int)

  datatype Reply = Reply(ok: bool, error: string, planIssues: seq<string>, subgoals: seq<Spec>, tasks: seq<TaskSpec>)

  datatype Env = Env(
    tools: Tools,              // the worker's registry
    reply: Reply,              // what the worker returns if it is called
    criteriaMet: bool,         // whether the success criteria hold of that reply
    hits: KeywordHits,         // what the failure router finds in the error text
    fingerprint: string,       // the hash of the failure
    actionFingerprint: string, // the hash of the replacement action
    canDelegate: bool,         // whether the worker has a planner
    secondsStalled: bool)      // whether the wall clock shows stagnation

  datatype Planner = SimplePlanner | GoalPlanner

  /** `raised`: the step ended in an uncaught exception. */
  datatype Outcome = Outcome(state: KState, raised: bool)

  const SAME_ERROR_LIMIT := 2
  const SAME_ACTION_LIMIT := 3
  const STAGNATION_CYCLES := 10

  function Log(s: KState, e: Event): KState {
    s.(trace := s.trace + [e])
  }

  function Nodes(tasks: seq<Task>): (nodes: seq<Subgoal>)
    ensures |nodes| == |tasks|
    ensures forall i :: 0 <= i < |tasks| ==> nodes[i] == FromTask(tasks[i])
  {
    if tasks == [] then [] else Nodes(tasks[..|tasks| - 1]) + [FromTask(tasks[|tasks| - 1])]
  }

  function SeqOf(s: KState): nat {
    if s.nextSeq == 0 then 1 else s.nextSeq
  }

  predicate IsPlanGoal(kind: string) {
    Lower(Strip(kind)) == "plan_goal"
  }

  predicate IsFinished(s: Status) {
    s == Done || s == Skipped
  }

  predicate AllFinished(tasks: seq<Task>) {
    forall t :: t in tasks ==> IsFinished(t.status)
  }

  /* ---- planning and compile marking ---- */

  function Bootstrapped(s: KState, planner: Planner): KState {
    if s.tasks != [] then s
    else
      var payload := EMPTY_PAYLOAD.(extras := map["goal" := s.goal]);
      var t := match planner
        case SimplePlanner => Task(s.nextObj, MintedId(s.nextSeq), "bootstrap",
                                   "Start toward goal: " + s.goal, payload, 10, Draft, 0)
        case GoalPlanner => Task(s.nextObj, MintedId(s.nextSeq), "plan_goal",
                                 "Plan decomposition for goal: " + s.goal, payload, 5, Draft, 0);
      s.(tasks := [t], nextSeq := s.nextSeq + 1, nextObj := s.nextObj + 1)
  }

  function Planned(s: KState, planner: Planner): KState {
    var b := Bootstrapped(Log(s, PlanningStarted), planner);
    Log(b, PlanningCompleted(|b.tasks|))
  }

  ghost function CodesFor(nodes: seq<Subgoal>, tools: Tools, id: string): set<Code> {
    set c: Code | Flagged(nodes, tools, Issue(c, id))
  }

  function MarkedStatus(s: Status, flagged: bool): Status {
    if flagged then (if s in {Done, Skipped, Failed} then s else Blocked)
    else (if s in {Draft, Pending} then Ready else s)
  }

  ghost function Marked(t: Task, nodes: seq<Subgoal>, tools: Tools): Task {
    t.(status := MarkedStatus(t.status, CodesFor(nodes, tools, t.id) != {}))
  }

  ghost function MarkedTasks(tasks: seq<Task>, nodes: seq<Subgoal>, tools: Tools): seq<Task> {
    seq(|tasks|, i requires 0 <= i < |tasks| => Marked(tasks[i], nodes, tools))
  }

  /** The trace entry of a task that is blocked. */
  function BlockEvent(t: Task, codes: set<Code>): seq<Event> {
    if codes != {} && t.status !in {Done, Skipped, Failed} then [CompileBlocked(t.id, codes)] else []
  }

  ghost function BlockEvents(tasks: seq<Task>, nodes: seq<Subgoal>, tools: Tools): seq<Event> {
    if tasks == [] then []
    else
      var t := tasks[|tasks| - 1];
      BlockEvents(tasks[..|tasks| - 1], nodes, tools) + BlockEvent(t, CodesFor(nodes, tools, t.id))
  }

  ghost function Checked(s: KState, tools: Tools): KState {
    var nodes := Nodes(s.tasks);
    s.(tasks := MarkedTasks(s.tasks, nodes, tools), trace := s.trace + BlockEvents(s.tasks, nodes, tools))
  }

  /* ---- choosing a task ---- */

  /** `status_by_id.get(id)`: the last task with the id wins. */
  function StatusById(tasks: seq<Task>, id: string): Option<Status> {
    if tasks == [] then None
    else if tasks[|tasks| - 1].id == id then Some(tasks[|tasks| - 1].status)
    else StatusById(tasks[..|tasks| - 1], id)
  }

  predicate DependenciesDone(tasks: seq<Task>, t: Task) {
    forall d :: d in Deps(t) ==> var st := StatusById(tasks, d); st.Some? && IsFinished(st.value)
  }

  predicate Runnable(tasks: seq<Task>, i: nat)
    requires i < |tasks|
  {
    tasks[i].status !in {Done, Skipped, Failed, Blocked, Running} && DependenciesDone(tasks, tasks[i])
  }

  predicate Before(a: Task, b: Task) {
    a.priority < b.priority || (a.priority == b.priority && StrLess(a.id, b.id))
  }

  /** The first of the stably sorted candidates among the first `k` tasks. */
  function PickAmong(tasks: seq<Task>, k: nat): (r: Option<nat>)
    requires k <= |tasks|
    ensures r.Some? ==> r.value < k && Runnable(tasks, r.value)
  {
    if k == 0 then None
    else
      var r := PickAmong(tasks, k - 1);
      if !Runnable(tasks, k - 1) then r
      else if r.None? || Before(tasks[k - 1], tasks[r.value]) then Some(k - 1)
      else r
  }

  function Pick(tasks: seq<Task>): (r: Option<nat>)
    ensures r.Some? ==> r.value < |tasks| && Runnable(tasks, r.value)
  {
    PickAmong(tasks, |tasks|)
  }

  /** What `run_step` does when nothing is runnable. */
  function Idle(s: KState): KState {
    if s.tasks != [] && AllFinished(s.tasks) then Log(s.(status := Completed, goalDone := true), AllTasksDone)
    else if exists t :: t in s.tasks && t.status in {Failed, FailedFatal} then s.(status := Aborted)
    else if exists t :: t in s.tasks && t.status == Blocked then s.(status := AwaitingUser)
    else s.(status := Aborted)
  }

  /* ---- appending a planner's output ---- */

  function FromSpec(spec: Spec, id: string): Subgoal
    requires spec.Spec?
  {
    Subgoal(id, Strip(spec.intent), OrText(spec.executorType, spec.toolName), OrText(spec.toolName, spec.executorType),
            spec.inputs, NonBlank(spec.dependencies), KeepChecks(spec.preconditions), KeepChecks(spec.successCriteria),
            spec.fallback, Some(NormalPolicy(spec.retryPolicy)), DRAFT, 0)
  }

  /** `position` counts from one. */
  function RawId(spec: Spec, position: nat): string
    requires spec.Spec?
  {
    if Blank(spec.id) then PositionId(position) else Strip(spec.id)
  }

  datatype Batch = Batch(subgoals: seq<Subgoal>, idMap: map<string, string>, usedIds: set<string>, seqNo: nat)

  function Assigned(b: Batch, spec: Spec, position: nat): Batch {
    if spec.NotADict? then b
    else
      var raw := RawId(spec, position);
      var clash := raw in b.usedIds || raw in b.idMap.Values;
      var id := if clash then MintedId(b.seqNo) else raw;
      Batch(b.subgoals + [FromSpec(spec, id)], b.idMap[raw := id][id := id], b.usedIds + {id},
            if clash then b.seqNo + 1 else b.seqNo)
  }

  /** The first loop of `_append_generated_subgoals`: every spec gets an id. */
  function AssignIds(specs: seq<Spec>, usedIds: set<string>, seqNo: nat): Batch {
    if specs == [] then Batch([], map[], usedIds, seqNo)
    else Assigned(AssignIds(specs[..|specs| - 1], usedIds, seqNo), specs[|specs| - 1], |specs|)
  }

  function RemapDeps(deps: seq<string>, idMap: map<string, string>, usedIds: set<string>): seq<string> {
    if deps == [] then []
    else
      var last := deps[|deps| - 1];
      var d := if last in idMap then idMap[last] else last;
      RemapDeps(deps[..|deps| - 1], idMap, usedIds) + (if d in usedIds then [d] else [])
  }

  /** The second loop: dependencies are renamed, and unknown ones removed. */
  function Remapped(sgs: seq<Subgoal>, idMap: map<string, string>, usedIds: set<string>): (r: seq<Subgoal>)
    ensures |r| == |sgs|
  {
    if sgs == [] then []
    else
      var last := sgs[|sgs| - 1];
      Remapped(sgs[..|sgs| - 1], idMap, usedIds)
        + [last.(dependencies := RemapDeps(last.dependencies, idMap, usedIds))]
  }

  function BatchTasks(sgs: seq<Subgoal>, obj: nat): (r: seq<Task>)
    ensures |r| == |sgs|
  {
    if sgs == [] then []
    else BatchTasks(sgs[..|sgs| - 1], obj) + [ToTask(sgs[|sgs| - 1], 20 + |sgs| - 1, obj + |sgs| - 1)]
  }

  function TaskIds(tasks: seq<Task>): set<string> {
    if tasks == [] then {} else TaskIds(tasks[..|tasks| - 1]) + {tasks[|tasks| - 1].id}
  }

  function CompiledBatch(s: KState, specs: seq<Spec>): Batch {
    var b := AssignIds(specs, TaskIds(s.tasks), SeqOf(s));
    b.(subgoals := Remapped(b.subgoals, b.idMap, b.usedIds))
  }

  datatype Appended = Appended(state: KState, added: nat, rejected: bool)

  ghost function AppendSubgoals(s: KState, specs: seq<Spec>, tools: Tools): Appended {
    var b := CompiledBatch(s, specs);
    if !CompilesCleanly(b.subgoals, tools) then Appended(s, 0, true)
    else if b.subgoals == [] then Appended(s, 0, false)
    else Appended(BatchAppended(s, b.subgoals, b.seqNo), |b.subgoals|, false)
  }

  function BatchAppended(s: KState, sgs: seq<Subgoal>, seqNo: nat): KState {
    s.(tasks := s.tasks + BatchTasks(sgs, s.nextObj), nextObj := s.nextObj + |sgs|,
       nextSeq := if SeqOf(s) >= seqNo then SeqOf(s) else seqNo)
  }

  function LooseTask(spec: TaskSpec, added: nat, seqNo: nat, obj: nat): Task
    requires spec.TaskSpec?
  {
    Task(obj + added, MintedId(seqNo + added), OrText(spec.kind, "code_task"), Strip(spec.description),
         spec.payload, OrInt(spec.priority, 20 + added), Draft, 0)
  }

  function LooseTasks(specs: seq<TaskSpec>, seqNo: nat, obj: nat): seq<Task> {
    if specs == [] then []
    else
      var rest := LooseTasks(specs[..|specs| - 1], seqNo, obj);
      var spec := specs[|specs| - 1];
      if spec.NotATask? || Blank(spec.description) then rest
      else rest + [LooseTask(spec, |rest|, seqNo, obj)]
  }

  function AppendTasks(s: KState, specs: seq<TaskSpec>): Appended {
    var ts := LooseTasks(specs, SeqOf(s), s.nextObj);
    if ts == [] then Appended(s, 0, false)
    else Appended(s.(tasks := s.tasks + ts, nextSeq := SeqOf(s) + |ts|, nextObj := s.nextObj + |ts|), |ts|, false)
  }

  /* ---- executing a task ---- */

  function IntText(n: int): string {
    if n < 0 then "-" + Digits(-n) else Digits(n)
  }

  function SetDefault(m: map<string, string>, key: string, value: string): map<string, string> {
    if key in m then m else m[key := value]
  }

  function WithBudget(t: Task, used: int, max: int): Task {
    t.(payload := t.payload.(extras :=
      SetDefault(SetDefault(t.payload.extras, "budget_steps_used", IntText(used)), "budget_steps_max", IntText(max))))
  }

  /** The task at `i` is marked running and handed to the worker; the call costs one budget step. */
  function Invoked(s: KState, i: nat, ok: bool): KState
    requires i < |s.tasks|
  {
    var t := s.tasks[i];
    var s1 := s.(activeTask := t.id, tasks := s.tasks[i := WithBudget(t.(status := Running), s.used, s.max)]);
    var s2 := Log(Log(s1, TaskSelected(t.id)), WorkerStarted(t.obj, t.id));
    var s3 := Log(s2, ToolInvoked(t.id, t.retries));
    Log(s3.(used := s3.used + 1), WorkerReplied(t.id, ok))
  }

  function WithStatus(s: KState, i: nat, status: Status): KState
    requires i < |s.tasks|
  {
    s.(tasks := s.tasks[i := s.tasks[i].(status := status)])
  }

  function GiveUp(s: KState, i: nat): KState
    requires i < |s.tasks|
  {
    WithStatus(s, i, Failed).(status := Aborted)
  }

  function Progressed(s: KState): KState {
    s.(breaker := s.breaker.(lastDoneCycle := Max(s.breaker.lastDoneCycle, s.used)))
  }

  function PlanDone(s: KState, i: nat): KState
    requires i < |s.tasks|
  {
    Progressed(WithStatus(s, i, Done)).(status := Active)
  }

  function Passed(s: KState, i: nat): KState
    requires i < |s.tasks|
  {
    var p := Progressed(WithStatus(s, i, Done)).(lastError := "");
    if AllFinished(p.tasks) then p.(status := Completed, goalDone := true) else p.(status := Active)
  }

  /* ---- local replan ---- */

  function LastIndex(tasks: seq<Task>, id: string): (r: Option<nat>)
    ensures r.Some? ==> r.value < |tasks| && tasks[r.value].id == id
    ensures r.None? ==> forall k :: 0 <= k < |tasks| ==> tasks[k].id != id
  {
    if tasks == [] then None
    else if tasks[|tasks| - 1].id == id then Some(|tasks| - 1)
    else LastIndex(tasks[..|tasks| - 1], id)
  }

  function Synced(t: Task, sg: Subgoal): Task {
    t.(status := ToTaskStatus(sg.state), retries := sg.attemptCount,
       payload := t.payload.(retryPolicy := if sg.retryPolicy.Some? then sg.retryPolicy else t.payload.retryPolicy))
  }

  function Materialised(sg: Subgoal, tasks: seq<Task>, obj: nat): Task {
    var j := LastIndex(tasks, sg.id);
    if j.Some? then Synced(tasks[j.value], sg) else ToTask(sg, 30, obj)
  }

  function MaterialisedAll(merged: seq<Subgoal>, tasks: seq<Task>, obj: nat): (r: seq<Task>)
    ensures |r| == |merged|
    ensures forall k :: 0 <= k < |merged| ==> r[k] == Materialised(merged[k], tasks, obj)
  {
    if merged == [] then []
    else MaterialisedAll(merged[..|merged| - 1], tasks, obj) + [Materialised(merged[|merged| - 1], tasks, obj)]
  }

  function Replacement(s: KState, t: Task, constrained: bool, canDelegate: bool): Subgoal {
    var id := MintedId(SeqOf(s));
    if canDelegate then
      Subgoal(id, "Replan failed node " + t.id + (if constrained then " with stricter constraints" else ""),
              "plan_goal", "plan_goal",
              EMPTY_PAYLOAD.(extras := map["goal" := s.goal], supervisorSource := Some(t.id)),
              [], [], [], map[], Some(Policy(t)), DRAFT, 0)
    else
      var kind := OrText(t.kind, "code_task");
      Subgoal(id, "Fallback execution for " + t.id, kind, kind,
              t.payload.(extras := SetDefault(t.payload.extras - {"force_fail"}, "instruction", "fallback_retry")),
              [], [], [], map[], Some(Policy(t)), DRAFT, 0)
  }

  function PathKey(t: Task): string {
    OrText(if t.payload.supervisorSource.Some? then t.payload.supervisorSource.value else "", t.id)
  }

  function CountedReplan(s: KState, failed: Task, replacementId: string, constrained: bool, env: Env): KState {
    Log(s.(breaker := s.breaker.(actionStreaks :=
        Bump(s.breaker.actionStreaks, PathKey(failed), env.actionFingerprint))),
        LocalReplanned(failed.id, replacementId, constrained))
  }

  /** The replan of `_handle_local_replan` up to the circuit breaker's verdict. */
  function ReplanCounted(s: KState, i: nat, constrained: bool, env: Env): KState
    requires i < |s.tasks|
  {
    CountedReplan(s, s.tasks[i], MintedId(SeqOf(s)), constrained, env)
  }

  predicate ReplanLoops(s: KState, i: nat, env: Env)
    requires i < |s.tasks|
  {
    Counter(Bump(s.breaker.actionStreaks, PathKey(s.tasks[i]), env.actionFingerprint), PathKey(s.tasks[i]),
            env.actionFingerprint)
      >= SAME_ACTION_LIMIT
  }

  ghost function ReplannedTasks(s: KState, i: nat, constrained: bool, canDelegate: bool): seq<Task>
    requires i < |s.tasks|
  {
    var t := s.tasks[i];
    MaterialisedAll(Replanned(Nodes(s.tasks), t.id, Replacement(s, t, constrained, canDelegate)), s.tasks, s.nextObj)
  }

  /** `_handle_local_replan`. */
  ghost function Handled(s: KState, i: nat, constrained: bool, env: Env): KState
    requires i < |s.tasks|
  {
    var c := ReplanCounted(s, i, constrained, env);
    if ReplanLoops(s, i, env) then ReplanBroken(c, i)
    else RewrittenPlan(c, ReplannedTasks(s, i, constrained, env.canDelegate))
  }

  function ReplanBroken(c: KState, i: nat): KState
    requires i < |c.tasks|
  {
    Log(GiveUp(c, i).(lastError := "same_replan_action_loop"), CircuitBroken)
  }

  function RewrittenPlan(c: KState, tasks: seq<Task>): KState {
    c.(tasks := tasks, nextSeq := SeqOf(c) + 1, nextObj := c.nextObj + 1)
  }

  /** `_handle_local_replan` followed by its caller's status update. */
  ghost function AfterReplan(s: KState, i: nat, constrained: bool, env: Env): KState
    requires i < |s.tasks|
  {
    var h := Handled(s, i, constrained, env);
    if ReplanLoops(s, i, env) then h
    else h.(status := if h.status == Aborted then Aborted else Active)
  }

  ghost function CompileFailedRoute(s: KState, i: nat, env: Env): KState
    requires i < |s.tasks|
  {
    var f := WithStatus(s, i, FailedRetryable).(lastError := "planner_compile_failed");
    AfterReplan(Log(f, PlannerCompileFailedRoute(s.tasks[i].id)), i, true, env)
  }

  /* ---- failures ---- */

  function Pow2(n: nat): nat {
    if n == 0 then 1 else 2 * Pow2(n - 1)
  }

  /** `_retry_delay_seconds`, in milliseconds. */
  function RetryDelayMs(p: RetryPolicy, attempt: nat): int {
    if p.baseDelayMs <= 0 then 0
    else if Lower(Strip(p.backoff)) == "exponential" then p.baseDelayMs * Pow2(Max(1, attempt) - 1)
    else p.baseDelayMs
  }

  function RoutedFingerprints(trace: seq<Event>): seq<string> {
    if trace == [] then []
    else
      var e := trace[|trace| - 1];
      RoutedFingerprints(trace[..|trace| - 1]) + (if e.FailureRouted? then [e.decision.fingerprint] else [])
  }

  function RetryEvent(t: Task): (e: Event)
    ensures e.RetryScheduled?
  {
    RetryScheduled(t.obj, t.id, t.retries + 1, Policy(t).maxAttempts, RetryDelayMs(Policy(t), t.retries + 1))
  }

  function Rescheduled(s: KState, i: nat): KState
    requires i < |s.tasks|
  {
    var t := s.tasks[i];
    Log(s, RetryEvent(t)).(tasks := s.tasks[i := t.(retries := t.retries + 1, status := Ready)], status := Active)
  }

  function RetryOrGiveUp(s: KState, i: nat): KState
    requires i < |s.tasks|
  {
    var t := s.tasks[i];
    if t.retries + 1 < Policy(t).maxAttempts then Rescheduled(s, i)
    else GiveUp(Log(s, RetryExhausted(t.id, t.retries + 1, Policy(t).maxAttempts)), i)
  }

  /** The task waits for the user. */
  function Park(s: KState, i: nat, action: RouteAction): KState
    requires i < |s.tasks|
  {
    WithStatus(Log(s, FailureFallback(s.tasks[i].id, action)), i, Blocked).(status := AwaitingUser)
  }

  ghost function ReplanRoute(s: KState, i: nat, action: RouteAction, env: Env): KState
    requires i < |s.tasks|
  {
    AfterReplan(Log(WithStatus(s, i, FailedRetryable), FailureFallback(s.tasks[i].id, action)), i,
                action == LocalReplanWithConstraints, env)
  }

  ghost function Transition(s: KState, i: nat, d: Decision, env: Env): KState
    requires i < |s.tasks|
  {
    if IsRetryable(d) then RetryOrGiveUp(s, i)
    else match d.action
      case AskUser => Park(s, i, d.action)
      case RepairAuth => Park(s, i, d.action)
      case LocalReplan => ReplanRoute(s, i, d.action, env)
      case LocalReplanWithConstraints => ReplanRoute(s, i, d.action, env)
      case _ => GiveUp(s, i)
  }

  function FailObject(tasks: seq<Task>, obj: nat): (r: seq<Task>)
    ensures |r| == |tasks|
    ensures forall k :: 0 <= k < |tasks| ==>
              r[k] == if tasks[k].obj == obj then tasks[k].(status := Failed) else tasks[k]
  {
    if tasks == [] then []
    else
      var last := tasks[|tasks| - 1];
      FailObject(tasks[..|tasks| - 1], obj) + [if last.obj == obj then last.(status := Failed) else last]
  }

  /** The stagnation check that ends a failed step; the task may meanwhile have left the plan. */
  function StagnationChecked(s: KState, obj: nat, secondsStalled: bool): KState {
    if (s.used - s.breaker.lastDoneCycle >= STAGNATION_CYCLES || secondsStalled)
        && s.status !in {Completed, Aborted} then
      Log(s.(tasks := FailObject(s.tasks, obj), status := Aborted), CircuitBroken)
    else s
  }

  function DecisionFor(s: KState, ownCodes: set<Code>, env: Env): Decision {
    Classify(env.fingerprint, ownCodes, RoutedFingerprints(s.trace), env.hits)
  }

  /** The failure is logged and counted against the task id. */
  function FailureCounted(s: KState, id: string, d: Decision, env: Env): KState {
    var l := Log(s.(lastError := OrText(env.reply.error, "execution_failed")), FailureRouted(id, d));
    l.(breaker := l.breaker.(errorStreaks := Bump(l.breaker.errorStreaks, id, d.fingerprint)))
  }

  ghost function RouteFailure(s: KState, i: nat, ownCodes: set<Code>, env: Env): KState
    requires i < |s.tasks|
  {
    var t := s.tasks[i];
    var d := DecisionFor(s, ownCodes, env);
    var c := FailureCounted(s, t.id, d, env);
    if Counter(c.breaker.errorStreaks, t.id, d.fingerprint) >= SAME_ERROR_LIMIT then
      Log(GiveUp(c, i), CircuitBroken)
    else
      StagnationChecked(Transition(c, i, d, env), t.obj, env.secondsStalled)
  }

  /* ---- the step ---- */

  /** The planner's output does not compile: the plan task itself is replanned. */
  ghost function Rejected(s: KState, i: nat, env: Env): KState
    requires i < |s.tasks|
  {
    CompileFailedRoute(Log(s, PlannerCompileFailed(s.tasks[i].id)), i, env)
  }

  /** A `plan_goal` task whose worker reported success. When nothing at all was added, `run_step` reaches the
      failure router with `compile_issues` rebound to a list, and raises. */
  ghost function PlanReply(s: KState, i: nat, env: Env): Outcome
    requires i < |s.tasks|
  {
    if NonBlank(env.reply.planIssues) != [] then Outcome(Rejected(s, i, env), false)
    else
      var a := AppendSubgoals(s, env.reply.subgoals, env.tools);
      if a.rejected then Outcome(Rejected(s, i, env), false)
      else if a.added > 0 then Outcome(PlanDone(a.state, i), false)
      else
        var b := AppendTasks(s, env.reply.tasks);
        if b.added > 0 then Outcome(PlanDone(b.state, i), false)
        else Outcome(s, true)
  }

  /** What follows from the worker's reply to the task at `i`. */
  ghost function Resolve(v: KState, i: nat, ownCodes: set<Code>, env: Env): Outcome
    requires i < |v.tasks|
  {
    var plans := IsPlanGoal(v.tasks[i].kind);
    if plans && env.reply.ok then PlanReply(v, i, env)
    else if env.reply.ok && env.criteriaMet then Outcome(Passed(v, i), false)
    else if plans && Lower(Strip(env.reply.error)) == "planner_compile_failed" then
      Outcome(CompileFailedRoute(v, i, env), false)
    else Outcome(RouteFailure(v, i, ownCodes, env), false)
  }

  ghost function Execute(s: KState, i: nat, ownCodes: set<Code>, env: Env): Outcome
    requires i < |s.tasks|
  {
    Resolve(Invoked(s, i, env.reply.ok), i, ownCodes, env)
  }

  function Exhausted(s: KState): KState {
    Log(s.(status := Aborted, lastError := "budget_exhausted"), BudgetExhausted(s.used))
  }

  /** The codes reported for the task at `i` when the plan `p` was checked. */
  ghost function OwnCodes(p: KState, i: nat, tools: Tools): set<Code>
    requires i < |p.tasks|
  {
    CodesFor(Nodes(p.tasks), tools, p.tasks[i].id)
  }

  /** The part of a step after the compile check of plan `p`. */
  ghost function Dispatch(p: KState, env: Env): Outcome {
    var c := Checked(p, env.tools);
    match Pick(c.tasks)
    case None => Outcome(Idle(c), false)
    case Some(i) => Execute(c, i, OwnCodes(p, i, env.tools), env)
  }

  ghost function Step(s: KState, env: Env, planner: Planner): Outcome {
    var p := Planned(s, planner);
    if p.status != Active then Outcome(p, false)
    else if p.used >= p.max then Outcome(Exhausted(p), false)
    else Dispatch(p, env)
  }
}
