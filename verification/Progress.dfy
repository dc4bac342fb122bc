/** The scheduler never deadlocks, and `run` ends. */
module Progress {
  import opened PyText
  import opened Schemas
  import opened PlanGraph
  import opened CompileCheck
  import opened KernelState
  import opened PlanInvariant
  import opened PlanSteps
  import opened StepFrame
  import opened TaskLives
  import opened StepObjects
  import opened Runs

  /* ---- the choice of a task ---- */

  lemma {:induction false} PickNone(tasks: seq<Task>, k: nat, j: nat)
    requires j < k <= |tasks| && PickAmong(tasks, k).None?
    ensures !Runnable(tasks, j)
  {
    if j < k - 1 {
      PickNone(tasks, k - 1, j);
    }
  }

  lemma {:induction false} BeforeTransitive(a: Task, b: Task, c: Task)
    requires !Before(b, a) && !Before(c, b)
    ensures !Before(c, a)
  {
    if Before(c, a) {
      StrLessTotal(a.id, b.id);
      StrLessTotal(b.id, c.id);
      if a.priority == b.priority == c.priority {
        if a.id != b.id && b.id != c.id { StrLessTransitive(a.id, b.id, c.id); }
        NotBoth(c.id, a.id);
      }
    }
  }

  lemma {:induction false} NotBoth(a: string, b: string)
    ensures !(StrLess(a, b) && StrLess(b, a))
  {
    if StrLess(a, b) && StrLess(b, a) {
      StrLessTransitive(a, b, a);
      StrLessIrreflexive(a);
    }
  }

  lemma {:induction false} NotBeforeSelf(t: Task)
    ensures !Before(t, t)
  {
    StrLessIrreflexive(t.id);
  }

  /** The picked task is a runnable one, and no runnable task comes before it in the order of priority and id. */
  lemma {:induction false} PickIsFirst(tasks: seq<Task>, k: nat, j: nat)
    requires j < k <= |tasks| && Runnable(tasks, j)
    ensures PickAmong(tasks, k).Some? && !Before(tasks[j], tasks[PickAmong(tasks, k).value])
  {
    var last := k - 1;
    if j < last {
      PickIsFirst(tasks, last, j);
      var r := PickAmong(tasks, last).value;
      if Runnable(tasks, last) && Before(tasks[last], tasks[r]) {
        NotBeforeAsym(tasks[last], tasks[r]);
        BeforeTransitive(tasks[last], tasks[r], tasks[j]);
      }
    } else {
      NotBeforeSelf(tasks[j]);
      var r := PickAmong(tasks, last);
      if r.Some? && !Before(tasks[j], tasks[r.value]) {
        assert PickAmong(tasks, k) == r;
      }
    }
  }

  lemma {:induction false} NotBeforeAsym(a: Task, b: Task)
    requires Before(a, b)
    ensures !Before(b, a)
  {
    NotBoth(a.id, b.id);
  }

  lemma {:induction false} BeforeThrough(a: Task, b: Task, c: Task)
    requires Before(a, b) && !Before(c, b)
    ensures Before(a, c)
  {
    StrLessTotal(c.id, b.id);
    StrLessTotal(a.id, c.id);
    if a.priority == b.priority == c.priority {
      if b.id != c.id { StrLessTransitive(a.id, b.id, c.id); }
    }
  }

  /** Ties go to the earlier task. */
  lemma {:induction false} PickIsStable(tasks: seq<Task>, k: nat, j: nat)
    requires k <= |tasks| && PickAmong(tasks, k).Some? && j < PickAmong(tasks, k).value && Runnable(tasks, j)
    ensures Before(tasks[PickAmong(tasks, k).value], tasks[j])
  {
    var last := k - 1;
    if PickAmong(tasks, k).value < last {
      PickIsStable(tasks, last, j);
    } else {
      PickIsFirst(tasks, last, j);
      BeforeThrough(tasks[last], tasks[PickAmong(tasks, last).value], tasks[j]);
    }
  }

  /** By priority number, then by id, then by position. */
  predicate NotAfter(tasks: seq<Task>, r: nat, j: nat)
    requires r < |tasks| && j < |tasks|
  {
    && tasks[r].priority <= tasks[j].priority
    && (tasks[r].priority == tasks[j].priority ==> !StrLess(tasks[j].id, tasks[r].id))
    && (tasks[r].priority == tasks[j].priority && tasks[r].id == tasks[j].id ==> r <= j)
  }

  /** If any task can run, one is picked: it has the lowest priority number of those that can, among these the least
      id, and among these the first position. */
  lemma {:induction false} PickIsLeast(tasks: seq<Task>, j: nat)
    requires j < |tasks| && Runnable(tasks, j)
    ensures Pick(tasks).Some? && NotAfter(tasks, Pick(tasks).value, j)
  {
    PickIsFirst(tasks, |tasks|, j);
    var r := Pick(tasks).value;
    if j < r {
      PickIsStable(tasks, |tasks|, j);
      StrLessIrreflexive(tasks[j].id);
    }
  }

  /** A task can run exactly if it is neither finished, failed, blocked nor running, and all it depends on is
      finished. */
  lemma {:induction false} RunnableIff(tasks: seq<Task>, j: nat)
    requires DistinctTasks(tasks) && j < |tasks|
    ensures Runnable(tasks, j) <==>
              && tasks[j].status !in {Done, Skipped, Failed, Blocked, Running}
              && forall d :: d in Deps(tasks[j]) ==> FinishedIn(tasks, d)
  {
    forall d ensures FinishedIn(tasks, d) <==> StatusById(tasks, d).Some? && IsFinished(StatusById(tasks, d).value) {
      StatusFinished(tasks, d);
    }
  }

  lemma {:induction false} StatusFinished(tasks: seq<Task>, d: string)
    requires DistinctTasks(tasks)
    ensures FinishedIn(tasks, d) <==> StatusById(tasks, d).Some? && IsFinished(StatusById(tasks, d).value)
  {
    if k :| 0 <= k < |tasks| && tasks[k].id == d && IsFinished(tasks[k].status) {
      LookupDistinct(tasks, k);
    }
    if StatusById(tasks, d).Some? {
      var k := StatusHasTask(tasks, d);
      LookupDistinct(tasks, k);
    }
  }

  lemma {:induction false} StatusHasTask(tasks: seq<Task>, d: string) returns (k: nat)
    requires StatusById(tasks, d).Some?
    ensures k < |tasks| && tasks[k].id == d
  {
    k := |tasks| - 1;
    if tasks[k].id != d {
      k := StatusHasTask(tasks[..k], d);
    }
  }

  /** The task that a step hands to the worker is the least of those that can run, by priority, id and position. */
  lemma {:induction false} CalledIsLeast(s: KState, env: Env, planner: Planner, j: nat)
    requires Calls(s, env, planner)
    requires var c := Checked(Planned(s, planner), env.tools).tasks; j < |c| && Runnable(c, j)
    ensures var c := Checked(Planned(s, planner), env.tools).tasks;
            var r := Called(s, env, planner);
            Runnable(c, r) && NotAfter(c, r, j)
  {
    PickIsLeast(Checked(Planned(s, planner), env.tools).tasks, j);
  }

  /* ---- no deadlock ---- */

  /** Nothing in the plan explains why nothing can run. */
  ghost predicate Unexplained(tasks: seq<Task>) {
    && !AllFinished(tasks)
    && (forall k :: 0 <= k < |tasks| ==> tasks[k].status !in {Failed, FailedFatal, Blocked})
  }

  function UnfinishedIds(tasks: seq<Task>): set<string> {
    if tasks == [] then {}
    else
      var t := tasks[|tasks| - 1];
      UnfinishedIds(tasks[..|tasks| - 1]) + (if IsFinished(t.status) then {} else {t.id})
  }

  lemma {:induction false} UnfinishedIff(tasks: seq<Task>, i: nat)
    requires DistinctTasks(tasks) && i < |tasks|
    ensures tasks[i].id in UnfinishedIds(tasks) <==> !IsFinished(tasks[i].status)
  {
    var n := |tasks| - 1;
    if i < n {
      UnfinishedIff(tasks[..n], i);
    } else {
      NotUnfinished(tasks[..n], tasks[n].id);
    }
  }

  lemma {:induction false} NotUnfinished(tasks: seq<Task>, id: string)
    requires forall k :: 0 <= k < |tasks| ==> tasks[k].id != id
    ensures id !in UnfinishedIds(tasks)
  {
    if tasks != [] {
      NotUnfinished(tasks[..|tasks| - 1], id);
    }
  }

  lemma {:induction false} UnfinishedHasTask(tasks: seq<Task>, id: string) returns (i: nat)
    requires id in UnfinishedIds(tasks)
    ensures i < |tasks| && tasks[i].id == id && !IsFinished(tasks[i].status)
  {
    i := |tasks| - 1;
    if tasks[i].id != id || IsFinished(tasks[i].status) {
      i := UnfinishedHasTask(tasks[..i], id);
    }
  }

  lemma {:induction false} LookupDistinct(tasks: seq<Task>, i: nat)
    requires DistinctTasks(tasks) && i < |tasks|
    ensures StatusById(tasks, tasks[i].id) == Some(tasks[i].status)
  {
    if i < |tasks| - 1 {
      LookupDistinct(tasks[..|tasks| - 1], i);
    }
  }

  lemma {:induction false} MarkedDistinct(tasks: seq<Task>, nodes: seq<Subgoal>, tools: Tools)
    requires DistinctTasks(tasks)
    ensures DistinctTasks(MarkedTasks(tasks, nodes, tools)) && |MarkedTasks(tasks, nodes, tools)| == |tasks|
    ensures TaskGraph(MarkedTasks(tasks, nodes, tools)) == TaskGraph(tasks)
  {
    var c := MarkedTasks(tasks, nodes, tools);
    MarkedGraph(tasks, c);
  }

  lemma {:induction false} MarkedGraph(a: seq<Task>, b: seq<Task>)
    requires |a| == |b| && forall k :: 0 <= k < |a| ==> a[k].id == b[k].id && Deps(a[k]) == Deps(b[k])
    ensures TaskGraph(a) == TaskGraph(b)
  {
    if a != [] {
      var n := |a| - 1;
      assert a[n].id == b[n].id && Deps(a[n]) == Deps(b[n]);
      MarkedGraph(a[..n], b[..n]);
    }
  }

  /** An unfinished task of an unexplained plan passed every check. */
  lemma {:induction false} UnexplainedIsClean(tasks: seq<Task>, tools: Tools, i: nat)
    requires i < |tasks| && !IsFinished(tasks[i].status) && Unexplained(MarkedTasks(tasks, Nodes(tasks), tools))
    ensures CodesFor(Nodes(tasks), tools, tasks[i].id) == {}
  {
    var c := MarkedTasks(tasks, Nodes(tasks), tools);
    assert c[i].status !in {Failed, FailedFatal, Blocked};
  }

  lemma {:induction false} NoCode(nodes: seq<Subgoal>, tools: Tools, id: string, code: Code)
    requires CodesFor(nodes, tools, id) == {}
    ensures !Flagged(nodes, tools, Issue(code, id))
  {
    assert code !in CodesFor(nodes, tools, id);
  }

  lemma {:induction false} NoCycleFlagged(nodes: seq<Subgoal>, tools: Tools, id: string)
    requires !Flagged(nodes, tools, Issue(DependencyCycle, id))
    ensures !ReachesCycle(GraphOf(nodes), id)
  {}

  lemma {:induction false} NoDependencyFlagged(nodes: seq<Subgoal>, tools: Tools, s: Subgoal)
    requires s in nodes && !Flagged(nodes, tools, Issue(DependencyNotFound, s.id))
    ensures forall d :: d in s.dependencies ==> d in Ids(nodes)
  {
    assert !NodeIssue(s, Ids(nodes), tools, DependencyNotFound);
  }

  lemma {:induction false} CleanTaskGraph(tasks: seq<Task>, tools: Tools, i: nat)
    requires DistinctTasks(tasks) && i < |tasks| && CodesFor(Nodes(tasks), tools, tasks[i].id) == {}
    ensures !ReachesCycle(TaskGraph(tasks), tasks[i].id)
    ensures forall d :: d in Deps(tasks[i]) ==> d in TaskGraph(tasks)
  {
    var nodes, id := Nodes(tasks), tasks[i].id;
    NodesGraph(tasks);
    GraphKeys(nodes);
    NoCode(nodes, tools, id, DependencyCycle);
    NoCycleFlagged(nodes, tools, id);
    NoCode(nodes, tools, id, DependencyNotFound);
    SubgoalView(tasks[i]);
    assert nodes[i] in nodes && nodes[i].dependencies == Deps(tasks[i]);
    NoDependencyFlagged(nodes, tools, nodes[i]);
  }

  /** In an unexplained plan some unfinished task has finished dependencies only. */
  lemma {:induction false} SomeReady(tasks: seq<Task>, tools: Tools) returns (i: nat)
    requires DistinctTasks(tasks) && Unexplained(MarkedTasks(tasks, Nodes(tasks), tools))
    ensures i < |tasks| && !IsFinished(tasks[i].status)
            && DependenciesDone(MarkedTasks(tasks, Nodes(tasks), tools), tasks[i])
  {
    var c := MarkedTasks(tasks, Nodes(tasks), tools);
    var g := TaskGraph(tasks);
    var open := UnfinishedIds(tasks);
    forall x | x in open ensures x in g && !ReachesCycle(g, x) {
      var k := UnfinishedHasTask(tasks, x);
      TaskInGraph(tasks, k);
      UnexplainedIsClean(tasks, tools, k);
      CleanTaskGraph(tasks, tools, k);
    }
    assert open != {} by { OpenExists(tasks, tools); }
    var n := Sink(g, open);
    i := UnfinishedHasTask(tasks, n);
    TaskInGraph(tasks, i);
    UnexplainedIsClean(tasks, tools, i);
    CleanTaskGraph(tasks, tools, i);
    forall d | d in Deps(tasks[i]) ensures StatusById(c, d).Some? && IsFinished(StatusById(c, d).value) {
      assert Edge(g, n, d);
      FinishedDependency(tasks, tools, d);
    }
  }

  lemma {:induction false} OpenExists(tasks: seq<Task>, tools: Tools)
    requires DistinctTasks(tasks) && !AllFinished(MarkedTasks(tasks, Nodes(tasks), tools))
    ensures UnfinishedIds(tasks) != {}
  {
    if forall k :: 0 <= k < |tasks| ==> IsFinished(tasks[k].status) {
      forall k | 0 <= k < |tasks| ensures MarkedTasks(tasks, Nodes(tasks), tools)[k] == tasks[k] {
        MarkedFinished(tasks, Nodes(tasks), tools, k);
      }
    } else {
      var k :| 0 <= k < |tasks| && !IsFinished(tasks[k].status);
      UnfinishedIff(tasks, k);
    }
  }

  lemma {:induction false} FinishedDependency(tasks: seq<Task>, tools: Tools, d: string)
    requires DistinctTasks(tasks) && d in TaskGraph(tasks) && d !in UnfinishedIds(tasks)
    ensures var st := StatusById(MarkedTasks(tasks, Nodes(tasks), tools), d); st.Some? && IsFinished(st.value)
  {
    var k := GraphHasTask(tasks, d);
    UnfinishedIff(tasks, k);
    MarkedFinished(tasks, Nodes(tasks), tools, k);
    MarkedDistinct(tasks, Nodes(tasks), tools);
    LookupDistinct(MarkedTasks(tasks, Nodes(tasks), tools), k);
  }

  ghost predicate SomeRunning(tasks: seq<Task>) {
    exists k :: 0 <= k < |tasks| && tasks[k].status == Running
  }

  /** With distinct ids and nothing runnable, the scheduler's last resort, failing a run for no reason it knows,
      is reached exactly if a task was left running and no task has failed or is blocked. */
  lemma {:induction false} NoDeadlock(p: KState, tools: Tools)
    requires DistinctTasks(p.tasks) && Pick(Checked(p, tools).tasks).None?
    ensures var c := Checked(p, tools).tasks;
            Unexplained(c) <==>
              SomeRunning(c) && forall k :: 0 <= k < |c| ==> c[k].status !in {Failed, FailedFatal, Blocked}
  {
    if Unexplained(Checked(p, tools).tasks) {
      var c := MarkedTasks(p.tasks, Nodes(p.tasks), tools);
      var i := SomeReady(p.tasks, tools);
      PickNone(c, |c|, i);
      UnexplainedIsClean(p.tasks, tools, i);
      assert Deps(c[i]) == Deps(p.tasks[i]);
      assert c[i].status !in {Failed, FailedFatal, Blocked};
      assert c[i].status == Running;
    }
  }

  /** No step of the run ended in an exception. */
  ghost predicate NeverRaised(s: KState, moves: seq<Move>, planner: Planner) {
    moves == [] ||
      (var before, last := After(s, moves[..|moves| - 1], planner), moves[|moves| - 1];
       NeverRaised(s, moves[..|moves| - 1], planner) && (last.Go? ==> !Step(before, last.env, planner).raised))
  }

  lemma {:induction false} NoneRunningAfter(s: KState, moves: seq<Move>, planner: Planner)
    requires Fresh(s) && GoodMoves(moves) && NeverRaised(s, moves, planner)
    ensures NoneRunning(After(s, moves, planner).tasks)
  {
    if moves != [] {
      var n := |moves| - 1;
      assert moves[n] in moves;
      NoneRunningAfter(s, moves[..n], planner);
      if moves[n].Go? {
        ReachableInv(s, moves[..n], planner);
        StepLeavesNoneRunning(After(s, moves[..n], planner), moves[n].env, planner);
      }
    }
  }

  /** In a run in which no step raised, the last resort is never reached. */
  lemma {:induction false} NeverDeadlocks(s: KState, moves: seq<Move>, planner: Planner, env: Env)
    requires Fresh(s) && GoodMoves(moves) && NeverRaised(s, moves, planner)
    ensures var c := Checked(Planned(After(s, moves, planner), planner), env.tools);
            c.tasks != [] && (Pick(c.tasks).None? ==> !Unexplained(c.tasks))
  {
    var m := After(s, moves, planner);
    var p := Planned(m, planner);
    ReachableInv(s, moves, planner);
    PlannedKeeps(m, planner);
    NoneRunningAfter(s, moves, planner);
    CheckedNotRunning(m, env, planner);
    if Pick(Checked(p, env.tools).tasks).None? {
      NoDeadlock(p, env.tools);
    }
  }

  /* ---- run ends ---- */

  /** The number of times the worker was started. */
  function Started(trace: seq<Event>): nat {
    if trace == [] then 0
    else Started(trace[..|trace| - 1]) + (if trace[|trace| - 1].WorkerStarted? then 1 else 0)
  }

  lemma {:induction false} StartedNext(trace: seq<Event>, e: Event)
    ensures Started(trace + [e]) == Started(trace) + (if e.WorkerStarted? then 1 else 0)
  {}

  lemma {:induction false} StartedOfLedger(trace: seq<Event>)
    ensures Started(Ledger(trace)) == Started(trace)
  {
    if trace != [] {
      var n := |trace| - 1;
      var l := Ledger(trace[..n]);
      StartedOfLedger(trace[..n]);
      if InLedger(trace[n]) {
        StartedNext(l, trace[n]);
        assert Ledger(trace) == l + [trace[n]];
      } else {
        assert Ledger(trace) == l;
      }
    }
  }

  lemma {:induction false} StartedAppend(a: seq<Event>, b: seq<Event>)
    ensures Started(a + b) == Started(a) + Started(b)
  {
    if b == [] {
      assert a + b == a;
    } else {
      var n := |b| - 1;
      StartedAppend(a, b[..n]);
      StartedNext(a + b[..n], b[n]);
      assert a + b == (a + b[..n]) + [b[n]];
    }
  }

  /** What one step does to the budget. */
  lemma {:induction false} StepBudget(s: KState, env: Env, planner: Planner)
    ensures var o := Step(s, env, planner);
            && o.state.max == s.max
            && o.state.used - s.used == Started(o.state.trace) - Started(s.trace)
            && o.state.used == (if Calls(s, env, planner) then s.used + 1 else s.used)
            && (Calls(s, env, planner) ==> s.status == Active && s.used < s.max)
            && (!Calls(s, env, planner) ==> o.state.status != Active)
            && (o.state.status == Completed && !o.raised ==> s.status == Completed || AllFinished(o.state.tasks))
  {
    StartedOfLedger(s.trace);
    StartedOfLedger(Step(s, env, planner).state.trace);
    if Calls(s, env, planner) {
      CallBudget(s, env, planner);
    } else {
      StepIsQuiet(s, env, planner);
    }
  }

  lemma {:induction false} CallBudget(s: KState, env: Env, planner: Planner)
    requires Calls(s, env, planner)
    ensures var o := Step(s, env, planner);
            && o.state.max == s.max && o.state.used == s.used + 1 && s.status == Active && s.used < s.max
            && Started(Ledger(o.state.trace)) == Started(Ledger(s.trace)) + 1
            && (o.state.status == Completed && !o.raised ==> AllFinished(o.state.tasks))
  {
    var v, i := AtCall(s, env, planner), Called(s, env, planner);
    CallLedger(s, env, planner);
    StepIsResolve(s, env, planner);
    StartedNext(Ledger(s.trace), WorkerStarted(v.tasks[i].obj, v.tasks[i].id));
    ResolveBudget(v, i, CallCodes(s, env, planner), env);
  }

  lemma {:induction false} ResolveStartsNothing(v: KState, i: nat, codes: set<Code>, env: Env)
    requires i < |v.tasks| && !Resolve(v, i, codes, env).raised
    ensures Started(Ledger(Resolve(v, i, codes, env).state.trace)) == Started(Ledger(v.trace))
  {
    ResolvedParts(v, i, codes, env);
    PartsStartNothing(Ledger(v.trace), RoutedPart(v, i, codes, env), RetryPart(v, i, codes, env));
  }

  lemma {:induction false} ResolveBudget(v: KState, i: nat, codes: set<Code>, env: Env)
    requires i < |v.tasks|
    ensures var o := Resolve(v, i, codes, env);
            && o.state.max == v.max && o.state.used == v.used
            && Started(Ledger(o.state.trace)) == Started(Ledger(v.trace))
            && (o.state.status == Completed && !o.raised ==> AllFinished(o.state.tasks))
  {
    if Resolve(v, i, codes, env).raised {
      ResolveRaises(v, i, codes, env);
    } else {
      ResolveStartsNothing(v, i, codes, env);
      ResolveFrame(v, i, codes, env);
    }
  }

  lemma {:induction false} PartsStartNothing(l: seq<Event>, a: seq<Event>, b: seq<Event>)
    requires |a| <= 1 && forall k :: 0 <= k < |a| ==> !a[k].WorkerStarted?
    requires |b| <= 1 && forall k :: 0 <= k < |b| ==> !b[k].WorkerStarted?
    ensures Started(l + a + b) == Started(l)
  {
    StartedAppend(l + a, b);
    StartedAppend(l, a);
    NoneStarted(a);
    NoneStarted(b);
  }

  lemma {:induction false} NoneStarted(l: seq<Event>)
    requires |l| <= 1 && forall k :: 0 <= k < |l| ==> !l[k].WorkerStarted?
    ensures Started(l) == 0
  {}

  /** An upper bound on the steps `run` can still take. */
  function Horizon(s: KState): nat {
    if s.status == Active then 1 + Max(0, s.max - s.used) else 0
  }

  /** `run`: step until the run is over, or a step makes no progress. The worker's `n`-th reply is `envs(n)`. */
  ghost function Run(s: KState, envs: nat -> Env, n: nat, planner: Planner): Outcome
    decreases Horizon(s)
  {
    var o := Step(s, envs(n), planner);
    StepBudget(s, envs(n), planner);
    if o.raised || o.state.status != Active || o.state.used <= s.used then o
    else Run(o.state, envs, n + 1, planner)
  }

  /** `run` ends for every worker: in a final status or with an exception, after at most as many worker calls as
      the budget has left, each costing one step; a completed run has finished every task. */
  lemma {:induction false} RunEnds(s: KState, envs: nat -> Env, n: nat, planner: Planner)
    ensures var o := Run(s, envs, n, planner);
            && (o.raised || o.state.status in {Completed, Aborted, AwaitingUser})
            && Started(o.state.trace) - Started(s.trace) == o.state.used - s.used
            && 0 <= o.state.used - s.used <= Max(0, s.max - s.used)
            && (o.state.status == Completed && !o.raised ==> s.status == Completed || AllFinished(o.state.tasks))
    decreases Horizon(s)
  {
    var o := Step(s, envs(n), planner);
    StepBudget(s, envs(n), planner);
    RunGoesOn(s, envs, n, planner);
    if !(o.raised || o.state.status != Active || o.state.used <= s.used) {
      RunEnds(o.state, envs, n + 1, planner);
    }
  }

  /** One turn of the loop of `run`: it ends with the step, or goes on with less budget left. */
  lemma {:induction false} RunGoesOn(s: KState, envs: nat -> Env, n: nat, planner: Planner)
    ensures var o := Step(s, envs(n), planner);
            if o.raised || o.state.status != Active || o.state.used <= s.used then Run(s, envs, n, planner) == o
            else Run(s, envs, n, planner) == Run(o.state, envs, n + 1, planner) && Horizon(o.state) < Horizon(s)
  {
    StepBudget(s, envs(n), planner);
  }

  type Turn = (KState, nat) -> Outcome

  /** Turn `n` of the loop is a step with the worker's `n`-th reply. */
  ghost predicate IsTurn(turn: Turn, envs: nat -> Env, planner: Planner) {
    forall s, n {:trigger Step(s, envs(n), planner)} :: turn(s, n) == Step(s, envs(n), planner)
  }

  /** The state before the `k`-th turn from turn `n` on. */
  ghost function AtTurn(turn: Turn, s: KState, n: nat, k: nat): KState {
    if k == 0 then s else turn(AtTurn(turn, s, n, k - 1), n + (k - 1)).state
  }

  /** That turn does not end the loop: nothing was raised, the run is active, and the step has used budget. */
  ghost predicate GoesOnAt(turn: Turn, s: KState, n: nat, k: nat) {
    var before := AtTurn(turn, s, n, k);
    var o := turn(before, n + k);
    !o.raised && o.state.status == Active && o.state.used > before.used
  }

  lemma {:induction false} TurnsFrom(turn: Turn, s: KState, n: nat, k: nat)
    ensures AtTurn(turn, s, n, k + 1) == AtTurn(turn, turn(s, n).state, n + 1, k)
    ensures GoesOnAt(turn, s, n, k + 1) == GoesOnAt(turn, turn(s, n).state, n + 1, k)
  {
    if k > 0 {
      TurnsFrom(turn, s, n, k - 1);
      assert n + 1 + (k - 1) == n + k;
    }
    assert n + 1 + k == n + (k + 1);
  }

  /** The first turn that does not go on is the `k`-th. */
  ghost predicate EndsAt(turn: Turn, s: KState, n: nat, k: nat) {
    !GoesOnAt(turn, s, n, k) && forall j :: 0 <= j < k ==> GoesOnAt(turn, s, n, j)
  }

  lemma {:induction false} EndsLater(turn: Turn, s: KState, n: nat, k: nat)
    requires GoesOnAt(turn, s, n, 0) && EndsAt(turn, turn(s, n).state, n + 1, k)
    ensures EndsAt(turn, s, n, k + 1)
    ensures turn(AtTurn(turn, s, n, k + 1), n + (k + 1)) == turn(AtTurn(turn, turn(s, n).state, n + 1, k), n + 1 + k)
  {
    TurnsFrom(turn, s, n, k);
    forall j | 0 <= j < k + 1 ensures GoesOnAt(turn, s, n, j) {
      if j > 0 { TurnsFrom(turn, s, n, j - 1); }
    }
    assert n + (k + 1) == n + 1 + k;
  }

  /** `run` follows the turns: it goes on after a turn that goes on, with less budget, and ends with any other. */
  ghost predicate Follows(turn: Turn, run: Turn, s: KState, n: nat) {
    var o := turn(s, n);
    if GoesOnAt(turn, s, n, 0) then run(s, n) == run(o.state, n + 1) && Horizon(o.state) < Horizon(s)
    else run(s, n) == o
  }

  lemma {:induction false} LoopIsTurns(turn: Turn, run: Turn, s: KState, n: nat) returns (k: nat)
    requires forall u, m :: Follows(turn, run, u, m)
    ensures run(s, n) == turn(AtTurn(turn, s, n, k), n + k) && EndsAt(turn, s, n, k)
    decreases Horizon(s)
  {
    k := 0;
    assert Follows(turn, run, s, n);
    if GoesOnAt(turn, s, n, 0) {
      var more := LoopIsTurns(turn, run, turn(s, n).state, n + 1);
      EndsLater(turn, s, n, more);
      k := more + 1;
    }
  }

  ghost predicate IsRun(run: Turn, envs: nat -> Env, planner: Planner) {
    forall s, n {:trigger Run(s, envs, n, planner)} :: run(s, n) == Run(s, envs, n, planner)
  }

  lemma {:induction false} RunFollows(turn: Turn, run: Turn, envs: nat -> Env, planner: Planner, s: KState, n: nat)
    requires IsTurn(turn, envs, planner) && IsRun(run, envs, planner)
    ensures Follows(turn, run, s, n)
  {
    RunGoesOn(s, envs, n, planner);
  }

  /** `run` answers what the first turn answers that does not go on. */
  lemma {:induction false} RunIsTurns(turn: Turn, run: Turn, envs: nat -> Env, planner: Planner, s: KState, n: nat)
    returns (k: nat)
    requires IsTurn(turn, envs, planner) && IsRun(run, envs, planner)
    ensures run(s, n) == turn(AtTurn(turn, s, n, k), n + k) && EndsAt(turn, s, n, k)
  {
    forall u, m ensures Follows(turn, run, u, m) {
      RunFollows(turn, run, envs, planner, u, m);
    }
    k := LoopIsTurns(turn, run, s, n);
  }
}
