/** Every step keeps the plan well formed: distinct ids, no cycle, every dependency present, and what a
    finished task depends on finished. */
module PlanInvariant {
  import opened PyText
  import opened Schemas
  import opened PlanGraph
  import opened CompileCheck
  import opened LocalReplan
  import opened KernelState

  /* ---- the plan as a graph ---- */

  function TaskGraph(tasks: seq<Task>): Graph {
    if tasks == [] then map[]
    else
      var t := tasks[|tasks| - 1];
      TaskGraph(tasks[..|tasks| - 1])[t.id := Deps(t)]
  }

  function DoneIds(tasks: seq<Task>): set<string> {
    if tasks == [] then {}
    else
      var t := tasks[|tasks| - 1];
      DoneIds(tasks[..|tasks| - 1]) + (if IsFinished(t.status) then {t.id} else {})
  }

  ghost predicate DistinctTasks(tasks: seq<Task>) {
    forall i, j :: 0 <= i < j < |tasks| ==> tasks[i].id != tasks[j].id && tasks[i].obj != tasks[j].obj
  }

  const LIVE_STATUSES := {Draft, Ready, Running, Done, FailedRetryable, Blocked, Failed}

  /** A task as the kernel keeps it: with a status the kernel writes, and an id and identity handed out before. */
  ghost predicate GoodTask(t: Task, nextSeq: nat, nextObj: nat) {
    && t.status in LIVE_STATUSES
    && t.obj < nextObj
    && IdBelow(t.id, nextSeq)
  }

  /** If the id has the form of a minted one, its number is below the counter. */
  ghost predicate IdBelow(id: string, nextSeq: nat) {
    forall n: nat :: id == MintedId(n) ==> n < nextSeq
  }

  ghost predicate GoodTasks(tasks: seq<Task>, nextSeq: nat, nextObj: nat) {
    && DistinctTasks(tasks)
    && (forall i :: 0 <= i < |tasks| ==> GoodTask(tasks[i], nextSeq, nextObj))
    && WellFormed(TaskGraph(tasks), DoneIds(tasks))
  }

  ghost predicate PlanInv(s: KState) {
    GoodTasks(s.tasks, s.nextSeq, s.nextObj)
  }

  /* ---- the graph under the updates of a step ---- */

  /** `b` differs from `a` at most in what the dependency graph does not show. */
  ghost predicate SameShape(a: seq<Task>, b: seq<Task>) {
    && |a| == |b|
    && forall k :: 0 <= k < |a| ==>
         a[k].id == b[k].id && a[k].obj == b[k].obj && Deps(a[k]) == Deps(b[k])
         && (IsFinished(a[k].status) <==> IsFinished(b[k].status))
  }

  lemma {:induction false} SameShapeSameGraph(a: seq<Task>, b: seq<Task>)
    requires SameShape(a, b)
    ensures TaskGraph(a) == TaskGraph(b) && DoneIds(a) == DoneIds(b)
  {
    if a != [] {
      var n := |a| - 1;
      assert a[n].id == b[n].id;
      SameShapeSameGraph(a[..n], b[..n]);
    }
  }

  lemma {:induction false} SameShapeKeeps(a: seq<Task>, b: seq<Task>, nextSeq: nat, nextObj: nat)
    requires GoodTasks(a, nextSeq, nextObj) && SameShape(a, b)
    requires forall k :: 0 <= k < |b| ==> b[k].status in LIVE_STATUSES
    ensures GoodTasks(b, nextSeq, nextObj)
  {
    SameShapeSameGraph(a, b);
    forall k | 0 <= k < |b| ensures GoodTask(b[k], nextSeq, nextObj) {
      assert GoodTask(a[k], nextSeq, nextObj);
    }
  }

  lemma {:induction false} TaskSnoc(tasks: seq<Task>, t: Task)
    ensures TaskGraph(tasks + [t]) == TaskGraph(tasks)[t.id := Deps(t)]
    ensures DoneIds(tasks + [t]) == DoneIds(tasks) + (if IsFinished(t.status) then {t.id} else {})
  {}

  lemma {:induction false} SubgoalView(t: Task)
    ensures FromTask(t).id == t.id && FromTask(t).dependencies == Deps(t)
    ensures Finished(FromTask(t)) <==> IsFinished(t.status)
  {}

  /** The node shows the task's id, dependencies and whether it is finished. */
  predicate Shows(node: Subgoal, t: Task) {
    node.id == t.id && node.dependencies == Deps(t) && (Finished(node) <==> IsFinished(t.status))
  }

  lemma {:induction false} SnocAgrees(nodes: seq<Subgoal>, tasks: seq<Task>, s: Subgoal, t: Task)
    requires GraphOf(nodes) == TaskGraph(tasks) && FinishedIds(nodes) == DoneIds(tasks) && Shows(s, t)
    ensures GraphOf(nodes + [s]) == TaskGraph(tasks + [t])
    ensures FinishedIds(nodes + [s]) == DoneIds(tasks + [t])
  {
    assert (nodes + [s])[..|nodes|] == nodes && (tasks + [t])[..|tasks|] == tasks;
  }

  lemma {:induction false} TasksAgree(tasks: seq<Task>, nodes: seq<Subgoal>)
    requires |tasks| == |nodes| && forall k :: 0 <= k < |tasks| ==> Shows(nodes[k], tasks[k])
    ensures GraphOf(nodes) == TaskGraph(tasks) && FinishedIds(nodes) == DoneIds(tasks)
  {
    if tasks != [] {
      var n := |tasks| - 1;
      var fewer, before := tasks[..n], nodes[..n];
      TasksAgree(fewer, before);
      SnocAgrees(before, fewer, nodes[n], tasks[n]);
      assert tasks == fewer + [tasks[n]] && nodes == before + [nodes[n]];
    }
  }

  lemma {:induction false} NodesGraph(tasks: seq<Task>)
    ensures GraphOf(Nodes(tasks)) == TaskGraph(tasks) && FinishedIds(Nodes(tasks)) == DoneIds(tasks)
  {
    var nodes := Nodes(tasks);
    forall k | 0 <= k < |tasks| ensures Shows(nodes[k], tasks[k]) {
      SubgoalView(tasks[k]);
    }
    TasksAgree(tasks, nodes);
  }

  lemma {:induction false} TaskInGraph(tasks: seq<Task>, i: nat)
    requires DistinctTasks(tasks) && i < |tasks|
    ensures tasks[i].id in TaskGraph(tasks) && TaskGraph(tasks)[tasks[i].id] == Deps(tasks[i])
    ensures tasks[i].id in DoneIds(tasks) <==> IsFinished(tasks[i].status)
  {
    var n := |tasks| - 1;
    if i < n {
      TaskInGraph(tasks[..n], i);
    } else {
      NotBefore(tasks[..n], tasks[n].id);
    }
  }

  lemma {:induction false} NotBefore(tasks: seq<Task>, id: string)
    requires forall k :: 0 <= k < |tasks| ==> tasks[k].id != id
    ensures id !in DoneIds(tasks) && id !in TaskGraph(tasks)
  {
    if tasks != [] {
      NotBefore(tasks[..|tasks| - 1], id);
    }
  }

  lemma {:induction false} GraphHasTask(tasks: seq<Task>, id: string) returns (i: nat)
    requires id in TaskGraph(tasks)
    ensures i < |tasks| && tasks[i].id == id
  {
    i := |tasks| - 1;
    if tasks[i].id != id {
      i := GraphHasTask(tasks[..i], id);
    }
  }

  /** Finishing a task adds its id to the finished ones. */
  lemma {:induction false} DoneIdsUpdate(tasks: seq<Task>, i: nat, t: Task)
    requires i < |tasks| && t.id == tasks[i].id && IsFinished(t.status)
    ensures DoneIds(tasks[i := t]) == DoneIds(tasks) + {t.id}
  {
    var n := |tasks| - 1;
    if i == n {
      assert tasks[i := t][..n] == tasks[..n];
    } else {
      assert tasks[i := t][..n] == tasks[..n][i := t];
      DoneIdsUpdate(tasks[..n], i, t);
    }
  }

  lemma {:induction false} GraphUpdate(tasks: seq<Task>, i: nat, t: Task)
    requires i < |tasks| && t.id == tasks[i].id && Deps(t) == Deps(tasks[i])
    ensures TaskGraph(tasks[i := t]) == TaskGraph(tasks)
  {
    var n := |tasks| - 1;
    var init, last := tasks[..n], tasks[n];
    assert tasks == init + [last];
    TaskSnoc(init, last);
    if i == n {
      assert tasks[i := t] == init + [t];
      TaskSnoc(init, t);
    } else {
      GraphUpdate(init, i, t);
      assert tasks[i := t] == init[i := t] + [last];
      TaskSnoc(init[i := t], last);
    }
  }

  lemma {:induction false} UpdateOfUnion(g: Graph, h: Graph, id: string, deps: seq<string>)
    ensures (g + h)[id := deps] == g + h[id := deps]
  {}

  lemma {:induction false} GraphAppend(a: seq<Task>, b: seq<Task>)
    ensures TaskGraph(a + b) == TaskGraph(a) + TaskGraph(b)
    ensures DoneIds(a + b) == DoneIds(a) + DoneIds(b)
  {
    if b == [] {
      assert a + b == a;
    } else {
      var n := |b| - 1;
      var t := b[n];
      GraphAppend(a, b[..n]);
      assert a + b == (a + b[..n]) + [t];
      TaskSnoc(a + b[..n], t);
      UpdateOfUnion(TaskGraph(a), TaskGraph(b[..n]), t.id, Deps(t));
    }
  }

  /** The status looked up for a dependency is finished only if the id is. */
  lemma {:induction false} FinishedLookup(tasks: seq<Task>, id: string)
    requires StatusById(tasks, id).Some? && IsFinished(StatusById(tasks, id).value)
    ensures id in DoneIds(tasks)
  {
    if tasks[|tasks| - 1].id != id {
      FinishedLookup(tasks[..|tasks| - 1], id);
    }
  }

  lemma {:induction false} RunnableDependencies(tasks: seq<Task>, i: nat)
    requires i < |tasks| && DependenciesDone(tasks, tasks[i])
    ensures forall d :: d in Deps(tasks[i]) ==> d in DoneIds(tasks)
  {
    forall d | d in Deps(tasks[i]) ensures d in DoneIds(tasks) {
      FinishedLookup(tasks, d);
    }
  }

  /** Marking a task done keeps the plan when its dependencies are finished. */
  lemma {:induction false} FinishKeeps(tasks: seq<Task>, i: nat, nextSeq: nat, nextObj: nat)
    requires GoodTasks(tasks, nextSeq, nextObj) && i < |tasks|
    requires forall d :: d in Deps(tasks[i]) ==> d in DoneIds(tasks)
    ensures GoodTasks(tasks[i := tasks[i].(status := Done)], nextSeq, nextObj)
  {
    var t := tasks[i].(status := Done);
    TaskInGraph(tasks, i);
    DoneIdsUpdate(tasks, i, t);
    GraphUpdate(tasks, i, t);
    GoodUpdate(tasks, i, t, nextSeq, nextObj);
  }

  lemma {:induction false} GoodUpdate(tasks: seq<Task>, i: nat, t: Task, nextSeq: nat, nextObj: nat)
    requires i < |tasks| && forall k :: 0 <= k < |tasks| ==> GoodTask(tasks[k], nextSeq, nextObj)
    requires t.id == tasks[i].id && t.obj == tasks[i].obj && t.status in LIVE_STATUSES && DistinctTasks(tasks)
    ensures var after := tasks[i := t];
            DistinctTasks(after) && forall k :: 0 <= k < |after| ==> GoodTask(after[k], nextSeq, nextObj)
  {
    assert GoodTask(tasks[i], nextSeq, nextObj);
  }

  /** New unfinished tasks with fresh ids, closed and cycle-free among themselves. */
  lemma {:induction false} AppendKeeps(tasks: seq<Task>, more: seq<Task>, nextSeq: nat, nextObj: nat, seqAfter: nat,
                                       objAfter: nat)
    requires GoodTasks(tasks, nextSeq, nextObj) && nextSeq <= seqAfter && nextObj <= objAfter
    requires DistinctTasks(more) && forall k :: 0 <= k < |more| ==> GoodTask(more[k], seqAfter, objAfter)
    requires forall k :: 0 <= k < |more| ==>
               more[k].obj >= nextObj && more[k].id !in TaskGraph(tasks) && more[k].status == Draft
    requires WellFormed(TaskGraph(more), {})
    ensures GoodTasks(tasks + more, seqAfter, objAfter)
  {
    var all := tasks + more;
    forall k | 0 <= k < |all| ensures GoodTask(all[k], seqAfter, objAfter) {
      if k < |tasks| { assert GoodTask(tasks[k], nextSeq, nextObj); }
    }
    forall i | 0 <= i < |tasks| ensures tasks[i].obj < nextObj && tasks[i].id in TaskGraph(tasks) {
      TaskInGraph(tasks, i);
      assert GoodTask(tasks[i], nextSeq, nextObj);
    }
    assert DistinctTasks(all);
    GraphAppend(tasks, more);
    NoneDone(more);
    forall id | id in TaskGraph(more) ensures id !in TaskGraph(tasks) {
      var k := GraphHasTask(more, id);
    }
    AppendWellFormed(TaskGraph(tasks), DoneIds(tasks), TaskGraph(more));
  }

  lemma {:induction false} NoneDone(tasks: seq<Task>)
    requires forall k :: 0 <= k < |tasks| ==> tasks[k].status == Draft
    ensures DoneIds(tasks) == {}
  {
    if tasks != [] {
      NoneDone(tasks[..|tasks| - 1]);
    }
  }
}
