/** Appending a planner's output keeps the plan well formed, provided the planner does not use ids of the
    minted form itself and does not smuggle dependencies into its inputs. */
module PlanBatches {
  import opened PyText
  import opened Schemas
  import opened PlanGraph
  import opened CompileCheck
  import opened LocalReplan
  import opened KernelState
  import opened PlanInvariant
  import opened PlanSteps

  ghost predicate GoodSpec(spec: Spec) {
    spec.Spec? ==> ParseDependencies(spec.inputs.dependencies) == [] && !Minted(Strip(spec.id))
  }

  ghost predicate GoodTaskSpec(spec: TaskSpec) {
    spec.TaskSpec? ==> ParseDependencies(spec.payload.dependencies) == []
  }

  /** The planner's output does not use the kernel's own ids and keys. */
  ghost predicate GoodReply(reply: Reply) {
    && (forall spec :: spec in reply.subgoals ==> GoodSpec(spec))
    && (forall spec :: spec in reply.tasks ==> GoodTaskSpec(spec))
  }

  ghost predicate MintedBelow(ids: set<string>, seqNo: nat) {
    forall id :: id in ids ==> IdBelow(id, seqNo)
  }

  /** The batch's nodes have new, distinct ids; minted ones are below the batch's counter. */
  ghost predicate BatchInv(b: Batch, known: set<string>, seqNo: nat) {
    && seqNo <= b.seqNo && known <= b.usedIds
    && MintedBelow(b.usedIds, b.seqNo)
    && DistinctIds(b.subgoals)
    && forall k :: 0 <= k < |b.subgoals| ==> NewNode(b.subgoals[k], b.usedIds, known)
  }

  ghost predicate NewNode(sg: Subgoal, usedIds: set<string>, known: set<string>) {
    sg.id in usedIds && sg.id !in known && sg.state == DRAFT && sg.attemptCount == 0
    && ParseDependencies(sg.inputs.dependencies) == []
  }

  lemma {:induction false} IdBelowMore(id: string, a: nat, b: nat)
    requires IdBelow(id, a) && a <= b
    ensures IdBelow(id, b)
  {}

  lemma {:induction false} RawNotMinted(spec: Spec, position: nat)
    requires spec.Spec? && GoodSpec(spec)
    ensures !Minted(RawId(spec, position))
  {
    PositionIdNotMinted(position);
  }

  lemma {:induction false} FreshMinted(ids: set<string>, seqNo: nat)
    requires MintedBelow(ids, seqNo)
    ensures MintedId(seqNo) !in ids
  {}

  /** The id given to a spec is not used yet. */
  lemma {:induction false} AssignedKeeps(b: Batch, spec: Spec, position: nat, known: set<string>, seqNo: nat)
    requires BatchInv(b, known, seqNo) && GoodSpec(spec)
    ensures BatchInv(Assigned(b, spec, position), known, seqNo)
  {
    if spec.Spec? {
      RawNotMinted(spec, position);
      var after := Assigned(b, spec, position);
      var n := |b.subgoals|;
      var id := after.subgoals[n].id;
      FreshMinted(b.usedIds, b.seqNo);
      forall x | x in after.usedIds ensures IdBelow(x, after.seqNo) {
        if x in b.usedIds { IdBelowMore(x, b.seqNo, after.seqNo); } else { MintedIdBelow(b.seqNo); }
      }
      forall k | 0 <= k < |after.subgoals| ensures NewNode(after.subgoals[k], after.usedIds, known) {
        if k < n { assert NewNode(b.subgoals[k], b.usedIds, known); }
      }
      assert DistinctIds(after.subgoals) by {
        forall k | 0 <= k < n ensures after.subgoals[k].id != id { assert NewNode(b.subgoals[k], b.usedIds, known); }
      }
    }
  }

  lemma {:induction false} AssignIdsKeeps(specs: seq<Spec>, known: set<string>, seqNo: nat)
    requires MintedBelow(known, seqNo) && forall spec :: spec in specs ==> GoodSpec(spec)
    ensures BatchInv(AssignIds(specs, known, seqNo), known, seqNo)
  {
    if specs != [] {
      var n := |specs| - 1;
      AssignIdsKeeps(specs[..n], known, seqNo);
      assert specs[n] in specs;
      AssignedKeeps(AssignIds(specs[..n], known, seqNo), specs[n], |specs|, known, seqNo);
    }
  }

  lemma {:induction false} RemappedAt(sgs: seq<Subgoal>, idMap: map<string, string>, usedIds: set<string>, k: nat)
    requires k < |sgs|
    ensures Remapped(sgs, idMap, usedIds)[k] == sgs[k].(dependencies := RemapDeps(sgs[k].dependencies, idMap, usedIds))
  {
    if k < |sgs| - 1 {
      RemappedAt(sgs[..|sgs| - 1], idMap, usedIds, k);
    }
  }

  lemma {:induction false} RemapKeeps(b: Batch, known: set<string>, seqNo: nat)
    requires BatchInv(b, known, seqNo)
    ensures BatchInv(b.(subgoals := Remapped(b.subgoals, b.idMap, b.usedIds)), known, seqNo)
  {
    var after := Remapped(b.subgoals, b.idMap, b.usedIds);
    forall k | 0 <= k < |after| ensures after[k].id == b.subgoals[k].id && NewNode(after[k], b.usedIds, known) {
      RemappedAt(b.subgoals, b.idMap, b.usedIds, k);
      assert NewNode(b.subgoals[k], b.usedIds, known);
    }
  }

  lemma {:induction false} TaskIdsAreKeys(tasks: seq<Task>)
    ensures TaskIds(tasks) == TaskGraph(tasks).Keys
  {
    if tasks != [] {
      TaskIdsAreKeys(tasks[..|tasks| - 1]);
    }
  }

  lemma {:induction false} PlanIdsBelow(s: KState)
    requires PlanInv(s)
    ensures MintedBelow(TaskIds(s.tasks), SeqOf(s))
  {
    TaskIdsAreKeys(s.tasks);
    forall id | id in TaskIds(s.tasks) ensures IdBelow(id, SeqOf(s)) {
      var k := GraphHasTask(s.tasks, id);
      assert GoodTask(s.tasks[k], s.nextSeq, s.nextObj);
      IdBelowMore(id, s.nextSeq, SeqOf(s));
    }
  }

  lemma {:induction false} BatchTasksAt(sgs: seq<Subgoal>, obj: nat, k: nat)
    requires k < |sgs|
    ensures BatchTasks(sgs, obj)[k] == ToTask(sgs[k], 20 + k, obj + k)
  {
    if k < |sgs| - 1 {
      BatchTasksAt(sgs[..|sgs| - 1], obj, k);
    }
  }

  /** A batch task depends on what its node depends on. */
  lemma {:induction false} BatchTaskView(sg: Subgoal, priority: int, obj: nat)
    requires sg.state == DRAFT && ParseDependencies(sg.inputs.dependencies) == []
    ensures var t := ToTask(sg, priority, obj);
            t.id == sg.id && t.obj == obj && t.status == Draft && t.retries == sg.attemptCount
            && Deps(t) == NonBlank(sg.dependencies)
  {}

  /** A batch without compile issues is closed and cycle-free. */
  lemma {:induction false} CleanBatch(sgs: seq<Subgoal>, tools: Tools)
    requires CompilesCleanly(sgs, tools) && DistinctIds(sgs)
    ensures forall a, d :: a in GraphOf(sgs) && d in GraphOf(sgs)[a] ==> d in GraphOf(sgs)
    ensures Acyclic(GraphOf(sgs))
  {
    GraphKeys(sgs);
    forall a, d | a in GraphOf(sgs) && d in GraphOf(sgs)[a] ensures d in Ids(sgs) {
      var i := GraphEntry(sgs, a);
      assert sgs[i] in sgs && NodeIssue(sgs[i], Ids(sgs), tools, DependencyNotFound) ==
        (exists x :: x in sgs[i].dependencies && x !in Ids(sgs));
      assert !Flagged(sgs, tools, Issue(DependencyNotFound, a));
    }
    forall n ensures !ReachesCycle(GraphOf(sgs), n) {
      assert !Flagged(sgs, tools, Issue(DependencyCycle, n));
    }
  }

  lemma {:induction false} BatchGraph(sgs: seq<Subgoal>, obj: nat)
    requires DistinctIds(sgs)
    requires forall k :: 0 <= k < |sgs| ==> sgs[k].state == DRAFT && ParseDependencies(sgs[k].inputs.dependencies) == []
    ensures TaskGraph(BatchTasks(sgs, obj)).Keys == GraphOf(sgs).Keys
    ensures forall a, d :: a in GraphOf(sgs) && d in TaskGraph(BatchTasks(sgs, obj))[a] ==> d in GraphOf(sgs)[a]
  {
    if sgs != [] {
      var n := |sgs| - 1;
      BatchGraph(sgs[..n], obj);
      BatchTaskView(sgs[n], 20 + n, obj + n);
      TaskSnoc(BatchTasks(sgs[..n], obj), ToTask(sgs[n], 20 + n, obj + n));
    }
  }

  lemma {:induction false} BatchWellFormed(sgs: seq<Subgoal>, tools: Tools, obj: nat)
    requires CompilesCleanly(sgs, tools) && DistinctIds(sgs)
    requires forall k :: 0 <= k < |sgs| ==> sgs[k].state == DRAFT && ParseDependencies(sgs[k].inputs.dependencies) == []
    ensures WellFormed(TaskGraph(BatchTasks(sgs, obj)), {})
  {
    CleanBatch(sgs, tools);
    BatchGraph(sgs, obj);
    NoEdgesAcyclic(map[]);
    LayeredAcyclic(TaskGraph(BatchTasks(sgs, obj)), GraphOf(sgs), map[]);
  }

  lemma {:induction false} BatchTaskGood(b: Batch, known: set<string>, seqNo: nat, obj: nat, k: nat)
    requires BatchInv(b, known, seqNo) && k < |b.subgoals|
    ensures var t := BatchTasks(b.subgoals, obj)[k];
            GoodTask(t, b.seqNo, obj + |b.subgoals|) && t.obj == obj + k && t.id == b.subgoals[k].id
            && t.id !in known && t.status == Draft && t.retries == 0
  {
    assert NewNode(b.subgoals[k], b.usedIds, known);
    BatchTasksAt(b.subgoals, obj, k);
    BatchTaskView(b.subgoals[k], 20 + k, obj + k);
    assert IdBelow(b.subgoals[k].id, b.seqNo);
  }

  lemma {:induction false} CompiledBatchInv(s: KState, specs: seq<Spec>)
    requires PlanInv(s) && forall spec :: spec in specs ==> GoodSpec(spec)
    ensures BatchInv(CompiledBatch(s, specs), TaskGraph(s.tasks).Keys, SeqOf(s))
  {
    TaskIdsAreKeys(s.tasks);
    PlanIdsBelow(s);
    AssignIdsKeeps(specs, TaskIds(s.tasks), SeqOf(s));
    RemapKeeps(AssignIds(specs, TaskIds(s.tasks), SeqOf(s)), TaskIds(s.tasks), SeqOf(s));
  }

  lemma {:induction false} AppendSubgoalsKeeps(s: KState, specs: seq<Spec>, tools: Tools)
    requires PlanInv(s) && forall spec :: spec in specs ==> GoodSpec(spec)
    ensures PlanInv(AppendSubgoals(s, specs, tools).state)
    ensures s.tasks <= AppendSubgoals(s, specs, tools).state.tasks
  {
    var b := CompiledBatch(s, specs);
    if CompilesCleanly(b.subgoals, tools) && b.subgoals != [] {
      CompiledBatchInv(s, specs);
      BatchKeeps(s, b, tools);
    }
  }

  lemma {:induction false} BatchKeeps(s: KState, b: Batch, tools: Tools)
    requires PlanInv(s) && BatchInv(b, TaskGraph(s.tasks).Keys, SeqOf(s)) && CompilesCleanly(b.subgoals, tools)
    ensures GoodTasks(s.tasks + BatchTasks(b.subgoals, s.nextObj), b.seqNo, s.nextObj + |b.subgoals|)
  {
    var more := BatchTasks(b.subgoals, s.nextObj);
    forall k | 0 <= k < |more|
      ensures GoodTask(more[k], b.seqNo, s.nextObj + |b.subgoals|) && more[k].obj == s.nextObj + k
      ensures more[k].id == b.subgoals[k].id && more[k].id !in TaskGraph(s.tasks) && more[k].status == Draft
    {
      BatchTaskGood(b, TaskGraph(s.tasks).Keys, SeqOf(s), s.nextObj, k);
    }
    forall k | 0 <= k < |b.subgoals|
      ensures b.subgoals[k].state == DRAFT && ParseDependencies(b.subgoals[k].inputs.dependencies) == [] {
      assert NewNode(b.subgoals[k], b.usedIds, TaskGraph(s.tasks).Keys);
    }
    BatchWellFormed(b.subgoals, tools, s.nextObj);
    AppendKeeps(s.tasks, more, s.nextSeq, s.nextObj, b.seqNo, s.nextObj + |b.subgoals|);
  }

  /* ---- generated_tasks ---- */

  ghost predicate LooseAt(t: Task, seqNo: nat, obj: nat) {
    t.id == MintedId(seqNo) && t.obj == obj && t.status == Draft && t.retries == 0 && Deps(t) == []
  }

  ghost predicate AllLoose(ts: seq<Task>, seqNo: nat, obj: nat) {
    forall k :: 0 <= k < |ts| ==> LooseAt(ts[k], seqNo + k, obj + k)
  }

  lemma {:induction false} LooseTaskView(spec: TaskSpec, added: nat, seqNo: nat, obj: nat)
    requires spec.TaskSpec? && GoodTaskSpec(spec)
    ensures LooseAt(LooseTask(spec, added, seqNo, obj), seqNo + added, obj + added)
  {}

  lemma {:induction false} LooseTasksView(specs: seq<TaskSpec>, seqNo: nat, obj: nat)
    requires forall spec :: spec in specs ==> GoodTaskSpec(spec)
    ensures AllLoose(LooseTasks(specs, seqNo, obj), seqNo, obj)
  {
    if specs != [] {
      var rest := LooseTasks(specs[..|specs| - 1], seqNo, obj);
      LooseTasksView(specs[..|specs| - 1], seqNo, obj);
      var spec := specs[|specs| - 1];
      assert GoodTaskSpec(spec);
      if spec.TaskSpec? {
        LooseTaskView(spec, |rest|, seqNo, obj);
        var t := LooseTask(spec, |rest|, seqNo, obj);
        assert AllLoose(rest + [t], seqNo, obj);
      }
    }
  }

  lemma {:induction false} LooseGraph(ts: seq<Task>, seqNo: nat, obj: nat)
    requires AllLoose(ts, seqNo, obj)
    ensures forall a :: a in TaskGraph(ts) ==> TaskGraph(ts)[a] == []
  {
    if ts != [] {
      var n := |ts| - 1;
      LooseGraph(ts[..n], seqNo, obj);
      assert LooseAt(ts[n], seqNo + n, obj + n);
    }
  }

  lemma {:induction false} AppendTasksKeeps(s: KState, specs: seq<TaskSpec>)
    requires PlanInv(s) && forall spec :: spec in specs ==> GoodTaskSpec(spec)
    ensures PlanInv(AppendTasks(s, specs).state)
    ensures s.tasks <= AppendTasks(s, specs).state.tasks
  {
    var ts := LooseTasks(specs, SeqOf(s), s.nextObj);
    LooseTasksView(specs, SeqOf(s), s.nextObj);
    LooseKeeps(s.tasks, ts, s.nextSeq, SeqOf(s), s.nextObj);
  }

  lemma {:induction false} LooseTaskGood(tasks: seq<Task>, t: Task, nextSeq: nat, seqNo: nat, obj: nat, seqAfter: nat,
                                         objAfter: nat)
    requires forall j :: 0 <= j < |tasks| ==> IdBelow(tasks[j].id, nextSeq)
    requires nextSeq <= seqNo < seqAfter && obj < objAfter && LooseAt(t, seqNo, obj)
    ensures GoodTask(t, seqAfter, objAfter) && t.id !in TaskGraph(tasks)
  {
    MintedIdBelow(seqNo);
    IdBelowMore(t.id, seqNo + 1, seqAfter);
    forall j | 0 <= j < |tasks| ensures tasks[j].id != t.id {
      assert IdBelow(tasks[j].id, nextSeq);
    }
    NotBefore(tasks, t.id);
  }

  lemma {:induction false} LooseKeeps(tasks: seq<Task>, ts: seq<Task>, nextSeq: nat, seqNo: nat, obj: nat)
    requires GoodTasks(tasks, nextSeq, obj) && nextSeq <= seqNo
    requires AllLoose(ts, seqNo, obj)
    ensures GoodTasks(tasks + ts, seqNo + |ts|, obj + |ts|)
  {
    forall j | 0 <= j < |tasks| ensures IdBelow(tasks[j].id, nextSeq) {
      assert GoodTask(tasks[j], nextSeq, obj);
    }
    forall k | 0 <= k < |ts| ensures GoodTask(ts[k], seqNo + |ts|, obj + |ts|) && ts[k].id !in TaskGraph(tasks) {
      LooseTaskGood(tasks, ts[k], nextSeq, seqNo + k, obj + k, seqNo + |ts|, obj + |ts|);
    }
    assert DistinctTasks(ts) by {
      forall j, k | 0 <= j < k < |ts| ensures ts[j].id != ts[k].id && ts[j].obj != ts[k].obj {
        LooseDistinct(ts[j], ts[k], seqNo + j, seqNo + k, obj + j, obj + k);
      }
    }
    LooseGraph(ts, seqNo, obj);
    NoEdgesAcyclic(TaskGraph(ts));
    AppendKeeps(tasks, ts, nextSeq, obj, seqNo + |ts|, obj + |ts|);
  }

  lemma {:induction false} LooseDistinct(a: Task, b: Task, m: nat, n: nat, x: nat, y: nat)
    requires LooseAt(a, m, x) && LooseAt(b, n, y) && m != n && x != y
    ensures a.id != b.id && a.obj != b.obj
  {
    if a.id == b.id { MintedIdInjective(m, n); }
  }

  /* ---- the whole step ---- */

  lemma {:induction false} PrefixRuns(a: KState, b: KState, i: nat)
    requires MayRun(a, i) && PlanInv(b) && a.tasks <= b.tasks
    ensures MayRun(b, i)
  {
    assert b.tasks == a.tasks + b.tasks[|a.tasks|..];
    GraphAppend(a.tasks, b.tasks[|a.tasks|..]);
  }

  lemma {:induction false} RejectedKeeps(s: KState, i: nat, env: Env)
    requires MayRun(s, i)
    ensures PlanInv(Rejected(s, i, env))
  {
    CompileFailedRouteKeeps(Log(s, PlannerCompileFailed(s.tasks[i].id)), i, env);
  }

  lemma {:induction false} SubgoalsDoneKeeps(s: KState, i: nat, env: Env)
    requires MayRun(s, i) && GoodReply(env.reply)
    ensures var a := AppendSubgoals(s, env.reply.subgoals, env.tools).state; i < |a.tasks| && PlanInv(PlanDone(a, i))
  {
    AppendSubgoalsKeeps(s, env.reply.subgoals, env.tools);
    PlanDoneKeeps(s, AppendSubgoals(s, env.reply.subgoals, env.tools).state, i);
  }

  lemma {:induction false} TasksDoneKeeps(s: KState, i: nat, env: Env)
    requires MayRun(s, i) && GoodReply(env.reply)
    ensures var b := AppendTasks(s, env.reply.tasks).state; i < |b.tasks| && PlanInv(PlanDone(b, i))
  {
    AppendTasksKeeps(s, env.reply.tasks);
    PlanDoneKeeps(s, AppendTasks(s, env.reply.tasks).state, i);
  }

  lemma {:induction false} PlanReplyKeeps(s: KState, i: nat, env: Env)
    requires MayRun(s, i) && GoodReply(env.reply)
    ensures PlanInv(PlanReply(s, i, env).state)
  {
    RejectedKeeps(s, i, env);
    SubgoalsDoneKeeps(s, i, env);
    TasksDoneKeeps(s, i, env);
  }

  lemma {:induction false} PlanDoneKeeps(s: KState, after: KState, i: nat)
    requires MayRun(s, i) && PlanInv(after) && s.tasks <= after.tasks
    ensures PlanInv(PlanDone(after, i))
  {
    PrefixRuns(s, after, i);
    DoneKeeps(after, i);
  }

  lemma {:induction false} PassedKeeps(s: KState, i: nat)
    requires MayRun(s, i)
    ensures PlanInv(Passed(s, i))
  {
    DoneKeeps(s, i);
  }

  lemma {:induction false} ResolveKeeps(v: KState, i: nat, ownCodes: set<Code>, env: Env)
    requires MayRun(v, i) && GoodReply(env.reply)
    ensures PlanInv(Resolve(v, i, ownCodes, env).state)
  {
    if IsPlanGoal(v.tasks[i].kind) && env.reply.ok {
      PlanReplyKeeps(v, i, env);
    } else if env.reply.ok && env.criteriaMet {
      PassedKeeps(v, i);
    } else {
      CompileFailedRouteKeeps(v, i, env);
      RouteFailureKeeps(v, i, ownCodes, env);
    }
  }

  lemma {:induction false} ExecuteKeeps(c: KState, i: nat, codes: set<Code>, env: Env)
    requires MayRun(c, i) && GoodReply(env.reply)
    ensures PlanInv(Execute(c, i, codes, env).state)
  {
    InvokedKeeps(c, i, env.reply.ok);
    ResolveKeeps(Invoked(c, i, env.reply.ok), i, codes, env);
  }

  /** The task that is picked may run. */
  lemma {:induction false} PickMayRun(s: KState)
    requires PlanInv(s) && Pick(s.tasks).Some?
    ensures MayRun(s, Pick(s.tasks).value)
  {
    RunnableDependencies(s.tasks, Pick(s.tasks).value);
  }

  lemma {:induction false} DispatchKeeps(p: KState, env: Env)
    requires PlanInv(p) && GoodReply(env.reply)
    ensures PlanInv(Dispatch(p, env).state)
  {
    var c := Checked(p, env.tools);
    CheckedKeeps(p, env.tools);
    if Pick(c.tasks).Some? {
      var i := Pick(c.tasks).value;
      PickMayRun(c);
      ExecuteKeeps(c, i, OwnCodes(p, i, env.tools), env);
    } else {
      IdleKeeps(c);
    }
  }

  lemma {:induction false} IdleKeeps(c: KState)
    ensures Idle(c).tasks == c.tasks && Idle(c).nextSeq == c.nextSeq && Idle(c).nextObj == c.nextObj
  {}

  /** Every step keeps the plan invariant, whatever the worker, the failure text and the clock do. */
  lemma {:induction false} StepKeepsPlan(s: KState, env: Env, planner: Planner)
    requires PlanInv(s) && GoodReply(env.reply)
    ensures PlanInv(Step(s, env, planner).state)
  {
    PlannedKeeps(s, planner);
    DispatchKeeps(Planned(s, planner), env);
  }
}
