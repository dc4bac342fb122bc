/** What a planner's reply makes of the plan: which tasks are appended, with which names and dependencies, and what
    becomes of the planning task. */
module PlanOutcomes {
  import opened PyText
  import opened Schemas
  import opened CompileCheck
  import opened KernelState
  import opened PlanInvariant
  import opened PlanSteps
  import opened PlanBatches
  import opened StepObjects
  import opened Runs
  import opened ReplanOutcomes
  import opened FailureOutcomes

  /* ---- the tasks of a batch ---- */

  /** The positions of the entries that are dicts. */
  function Dicts(specs: seq<Spec>): (at: seq<nat>)
    ensures forall k :: 0 <= k < |at| ==> at[k] < |specs| && specs[at[k]].Spec?
  {
    if specs == [] then []
    else
      var n := |specs| - 1;
      Dicts(specs[..n]) + (if specs[n].Spec? then [n] else [])
  }

  /** They are all of them, in order. */
  lemma {:induction false} DictsAre(specs: seq<Spec>, j: nat)
    ensures j in Dicts(specs) <==> j < |specs| && specs[j].Spec?
    ensures forall a, b :: 0 <= a < b < |Dicts(specs)| ==> Dicts(specs)[a] < Dicts(specs)[b]
  {
    if specs != [] {
      DictsAre(specs[..|specs| - 1], j);
    }
  }

  /** The name of the entry at `j`: its own, or one after its position. */
  function NameAt(specs: seq<Spec>, j: nat): string
    requires j < |specs| && specs[j].Spec?
  {
    if Blank(specs[j].id) then PositionId(j + 1) else Strip(specs[j].id)
  }

  /** The names are different from each other and new to the plan. */
  ghost predicate WellNamed(specs: seq<Spec>, known: set<string>) {
    && (forall j :: 0 <= j < |specs| && specs[j].Spec? ==> NameAt(specs, j) !in known)
    && (forall j, k :: 0 <= j < k < |specs| && specs[j].Spec? && specs[k].Spec? ==>
          NameAt(specs, j) != NameAt(specs, k))
  }

  function Names(specs: seq<Spec>): (names: set<string>) {
    if specs == [] then {}
    else
      var n := |specs| - 1;
      Names(specs[..n]) + (if specs[n].Spec? then {NameAt(specs, n)} else {})
  }

  lemma {:induction false} NamedBy(specs: seq<Spec>, x: string) returns (j: nat)
    requires x in Names(specs)
    ensures j < |specs| && specs[j].Spec? && NameAt(specs, j) == x
  {
    j := |specs| - 1;
    if !(specs[j].Spec? && NameAt(specs, j) == x) {
      j := NamedBy(specs[..|specs| - 1], x);
      assert NameAt(specs[..|specs| - 1], j) == NameAt(specs, j);
    }
  }

  lemma {:induction false} NameIsThere(specs: seq<Spec>, j: nat)
    requires j < |specs| && specs[j].Spec?
    ensures NameAt(specs, j) in Names(specs)
  {
    var n := |specs| - 1;
    if j < n {
      NameIsThere(specs[..n], j);
      assert NameAt(specs[..n], j) == NameAt(specs, j);
    }
  }

  /** The subgoals are those of the entries that are dicts, each under its own name. */
  ghost predicate OwnNames(specs: seq<Spec>, subgoals: seq<Subgoal>) {
    && |subgoals| == |Dicts(specs)|
    && forall k :: 0 <= k < |subgoals| ==>
         subgoals[k] == FromSpec(specs[Dicts(specs)[k]], NameAt(specs, Dicts(specs)[k]))
  }

  lemma {:induction false} OwnNamesNext(specs: seq<Spec>, subgoals: seq<Subgoal>)
    requires specs != [] && OwnNames(specs[..|specs| - 1], subgoals)
    ensures var n := |specs| - 1;
            OwnNames(specs,
                     if specs[n].Spec? then subgoals + [FromSpec(specs[n], NameAt(specs, n))] else subgoals)
  {
    var n := |specs| - 1;
    forall k | 0 <= k < |subgoals|
      ensures Dicts(specs)[k] < n
      ensures subgoals[k] == FromSpec(specs[Dicts(specs)[k]], NameAt(specs, Dicts(specs)[k]))
    {
      var j := Dicts(specs[..n])[k];
      assert Dicts(specs)[k] == j;
      assert NameAt(specs[..n], j) == NameAt(specs, j);
    }
  }

  /** Every entry has got its own name. */
  ghost predicate KeepsNames(specs: seq<Spec>, known: set<string>, seqNo: nat, b: Batch) {
    NothingRenamed(Names(specs), known, seqNo, b) && OwnNames(specs, b.subgoals)
  }

  ghost predicate NothingRenamed(names: set<string>, known: set<string>, seqNo: nat, b: Batch) {
    && b.usedIds == known + names && b.seqNo == seqNo
    && b.idMap.Keys == names && (forall x :: x in b.idMap ==> b.idMap[x] == x)
  }

  lemma {:induction false} NothingRenamedNext(names: set<string>, name: string, known: set<string>, seqNo: nat,
                                              b: Batch, c: Batch)
    requires NothingRenamed(names, known, seqNo, b)
    requires c.idMap == b.idMap[name := name] && c.usedIds == b.usedIds + {name} && c.seqNo == seqNo
    ensures NothingRenamed(names + {name}, known, seqNo, c)
  {}

  lemma {:induction false} KeepsOther(specs: seq<Spec>, known: set<string>, seqNo: nat, b: Batch)
    requires specs != [] && KeepsNames(specs[..|specs| - 1], known, seqNo, b) && specs[|specs| - 1].NotADict?
    ensures KeepsNames(specs, known, seqNo, b)
  {
    OwnNamesNext(specs, b.subgoals);
  }

  lemma {:induction false} KeepsNext(specs: seq<Spec>, known: set<string>, seqNo: nat, b: Batch, c: Batch)
    requires specs != [] && KeepsNames(specs[..|specs| - 1], known, seqNo, b) && specs[|specs| - 1].Spec?
    requires var n := |specs| - 1;
             var name := NameAt(specs, n);
             && c.subgoals == b.subgoals + [FromSpec(specs[n], name)] && c.seqNo == seqNo
             && c.idMap == b.idMap[name := name] && c.usedIds == b.usedIds + {name}
    ensures KeepsNames(specs, known, seqNo, c)
  {
    var n := |specs| - 1;
    OwnNamesNext(specs, b.subgoals);
    NothingRenamedNext(Names(specs[..n]), NameAt(specs, n), known, seqNo, b, c);
  }

  /** A well-named batch keeps its names. */
  lemma {:induction false} NamesAreKept(specs: seq<Spec>, known: set<string>, seqNo: nat)
    requires WellNamed(specs, known)
    ensures KeepsNames(specs, known, seqNo, AssignIds(specs, known, seqNo))
  {
    if specs != [] {
      var n := |specs| - 1;
      var b := AssignIds(specs[..n], known, seqNo);
      WellNamedBefore(specs, known);
      NamesAreKept(specs[..n], known, seqNo);
      if specs[n].Spec? {
        NewName(specs, known);
        NextName(b, specs, known);
        KeepsNext(specs, known, seqNo, b, AssignIds(specs, known, seqNo));
      } else {
        KeepsOther(specs, known, seqNo, b);
      }
    }
  }

  lemma {:induction false} WellNamedBefore(specs: seq<Spec>, known: set<string>)
    requires specs != [] && WellNamed(specs, known)
    ensures WellNamed(specs[..|specs| - 1], known)
  {
    var n := |specs| - 1;
    forall j | 0 <= j < n && specs[j].Spec? ensures NameAt(specs[..n], j) == NameAt(specs, j) {}
  }

  lemma {:induction false} NewName(specs: seq<Spec>, known: set<string>)
    requires specs != [] && WellNamed(specs, known) && specs[|specs| - 1].Spec?
    ensures NameAt(specs, |specs| - 1) !in known + Names(specs[..|specs| - 1])
  {
    var n := |specs| - 1;
    if NameAt(specs, n) in Names(specs[..n]) {
      var j := NamedBy(specs[..n], NameAt(specs, n));
      OtherName(specs, known, j);
    }
  }

  lemma {:induction false} OtherName(specs: seq<Spec>, known: set<string>, j: nat)
    requires WellNamed(specs, known) && j < |specs| - 1 && specs[j].Spec? && specs[|specs| - 1].Spec?
    ensures NameAt(specs[..|specs| - 1], j) != NameAt(specs, |specs| - 1)
  {
    assert NameAt(specs[..|specs| - 1], j) == NameAt(specs, j);
  }

  lemma {:induction false} NextName(b: Batch, specs: seq<Spec>, known: set<string>)
    requires specs != [] && specs[|specs| - 1].Spec?
    requires NameAt(specs, |specs| - 1) !in b.usedIds && NameAt(specs, |specs| - 1) !in b.idMap.Values
    ensures var n := |specs| - 1;
            var name := NameAt(specs, n);
            Assigned(b, specs[n], |specs|)
            == Batch(b.subgoals + [FromSpec(specs[n], name)], b.idMap[name := name], b.usedIds + {name}, b.seqNo)
  {}

  /* ---- dependencies ---- */

  /** The entries of the list that are in the set, in order. */
  function Within(xs: seq<string>, s: set<string>): seq<string> {
    if xs == [] then [] else Within(xs[..|xs| - 1], s) + (if xs[|xs| - 1] in s then [xs[|xs| - 1]] else [])
  }

  lemma {:induction false} RemapIsWithin(deps: seq<string>, idMap: map<string, string>, used: set<string>)
    requires forall x :: x in idMap ==> idMap[x] == x
    ensures RemapDeps(deps, idMap, used) == Within(deps, used)
  {
    if deps != [] {
      RemapIsWithin(deps[..|deps| - 1], idMap, used);
    }
  }

  /** The task made of an entry, as the planner wrote it: its text, kind, inputs and policy, and its dependencies on
      what is named in the batch or in the plan. */
  ghost predicate MadeOf(n: Task, spec: Spec, name: string, used: set<string>, priority: int, obj: nat)
    requires spec.Spec?
  {
    var deps := Within(NonBlank(spec.dependencies), used);
    && n.id == name && n.obj == obj && n.status == Draft && n.retries == 0 && n.priority == priority
    && n.description == Strip(spec.intent)
    && n.kind == (if spec.executorType != "" then spec.executorType else spec.toolName)
    && n.payload.extras == spec.inputs.extras && n.payload.supervisorSource == spec.inputs.supervisorSource
    && n.payload.dependencies == (if deps != [] then Some(deps) else spec.inputs.dependencies)
    && n.payload.preconditions
       == (var c := KeepChecks(spec.preconditions); if c != [] then Some(c) else spec.inputs.preconditions)
    && n.payload.successCriteria
       == (var c := KeepChecks(spec.successCriteria); if c != [] then Some(c) else spec.inputs.successCriteria)
    && n.payload.fallback
       == (if spec.fallback != map[] then Some(FallbackMap(spec.fallback)) else spec.inputs.fallback)
    && n.payload.retryPolicy == Some(NormalPolicy(spec.retryPolicy))
  }

  lemma {:induction false} TaskIsMadeOf(spec: Spec, name: string, used: set<string>, priority: int, obj: nat)
    requires spec.Spec?
    ensures var sg := FromSpec(spec, name);
            MadeOf(ToTask(sg.(dependencies := Within(sg.dependencies, used)), priority, obj), spec, name, used,
                   priority, obj)
  {}

  /** The tasks appended to the plan of `v` are made of the entries, in order. */
  ghost predicate BatchMadeOf(v: KState, specs: seq<Spec>, more: seq<Task>) {
    && |more| == |Dicts(specs)|
    && forall k :: 0 <= k < |more| ==>
         MadeOf(more[k], specs[Dicts(specs)[k]], NameAt(specs, Dicts(specs)[k]), TaskIds(v.tasks) + Names(specs),
                20 + k, v.nextObj + k)
  }

  lemma {:induction false} BatchIsMadeOf(v: KState, specs: seq<Spec>)
    requires WellNamed(specs, TaskIds(v.tasks))
    ensures BatchMadeOf(v, specs, BatchTasks(CompiledBatch(v, specs).subgoals, v.nextObj))
    ensures |CompiledBatch(v, specs).subgoals| == |Dicts(specs)|
  {
    var known := TaskIds(v.tasks);
    var b := AssignIds(specs, known, SeqOf(v));
    NamesAreKept(specs, known, SeqOf(v));
    var more := BatchTasks(CompiledBatch(v, specs).subgoals, v.nextObj);
    forall k | 0 <= k < |more|
      ensures MadeOf(more[k], specs[Dicts(specs)[k]], NameAt(specs, Dicts(specs)[k]), known + Names(specs), 20 + k,
                     v.nextObj + k)
    {
      BatchTaskIs(v, specs, b, k);
    }
  }

  lemma {:induction false} BatchTaskIs(v: KState, specs: seq<Spec>, b: Batch, k: nat)
    requires b == AssignIds(specs, TaskIds(v.tasks), SeqOf(v)) && KeepsNames(specs, TaskIds(v.tasks), SeqOf(v), b)
    requires k < |b.subgoals|
    ensures k < |Dicts(specs)| && |CompiledBatch(v, specs).subgoals| == |b.subgoals|
    ensures MadeOf(BatchTasks(CompiledBatch(v, specs).subgoals, v.nextObj)[k], specs[Dicts(specs)[k]],
                   NameAt(specs, Dicts(specs)[k]), TaskIds(v.tasks) + Names(specs), 20 + k, v.nextObj + k)
  {
    var spec, name := specs[Dicts(specs)[k]], NameAt(specs, Dicts(specs)[k]);
    BatchTasksAt(CompiledBatch(v, specs).subgoals, v.nextObj, k);
    RemappedAt(b.subgoals, b.idMap, b.usedIds, k);
    RemapIsWithin(b.subgoals[k].dependencies, b.idMap, b.usedIds);
    TaskIsMadeOf(spec, name, b.usedIds, 20 + k, v.nextObj + k);
  }

  /** The subgoal that is checked for an entry: its tool, or else its executor, must be registered. */
  ghost predicate NodeMadeOf(sg: Subgoal, spec: Spec, name: string, used: set<string>)
    requires spec.Spec?
  {
    && sg.id == name && sg.intent == Strip(spec.intent)
    && sg.executorType == (if spec.executorType != "" then spec.executorType else spec.toolName)
    && sg.toolName == (if spec.toolName != "" then spec.toolName else spec.executorType)
    && sg.inputs == spec.inputs && sg.dependencies == Within(NonBlank(spec.dependencies), used)
    && sg.preconditions == KeepChecks(spec.preconditions) && sg.successCriteria == KeepChecks(spec.successCriteria)
    && sg.fallback == spec.fallback && sg.retryPolicy == Some(NormalPolicy(spec.retryPolicy))
    && sg.state == DRAFT && sg.attemptCount == 0
  }

  /** What is checked of a well-named batch. */
  lemma {:induction false} CheckedBatch(v: KState, specs: seq<Spec>, k: nat)
    requires WellNamed(specs, TaskIds(v.tasks)) && k < |Dicts(specs)|
    ensures var sgs := CompiledBatch(v, specs).subgoals;
            && |sgs| == |Dicts(specs)|
            && NodeMadeOf(sgs[k], specs[Dicts(specs)[k]], NameAt(specs, Dicts(specs)[k]),
                          TaskIds(v.tasks) + Names(specs))
  {
    var b := AssignIds(specs, TaskIds(v.tasks), SeqOf(v));
    NamesAreKept(specs, TaskIds(v.tasks), SeqOf(v));
    RemappedAt(b.subgoals, b.idMap, b.usedIds, k);
    RemapIsWithin(b.subgoals[k].dependencies, b.idMap, b.usedIds);
  }

  /* ---- names that clash ---- */

  /** How many of the first `q` subgoals got a minted id because their name was taken. */
  function Clashes(specs: seq<Spec>, known: set<string>, seqNo: nat): nat {
    if specs == [] then 0
    else
      var n := |specs| - 1;
      var b := AssignIds(specs[..n], known, seqNo);
      Clashes(specs[..n], known, seqNo)
        + (if specs[n].Spec? && NameAt(specs, n) in known + Ids(b.subgoals) then 1 else 0)
  }

  /** The entry keeps its name if it is new to the plan and to the entries before it; otherwise it gets the next minted
      id, and later dependencies on that name mean this entry. */
  predicate GetsId(before: Batch, after: Batch, spec: Spec, name: string, known: set<string>)
    requires spec.Spec?
  {
    var clash := name in known + Ids(before.subgoals);
    var id := if clash then MintedId(before.seqNo) else name;
    && after.subgoals == before.subgoals + [FromSpec(spec, id)]
    && after.idMap == before.idMap[name := id][id := id] && after.usedIds == before.usedIds + {id}
    && after.seqNo == before.seqNo + (if clash then 1 else 0)
  }

  lemma {:induction false} AssignedIs(b: Batch, spec: Spec, position: nat, known: set<string>)
    requires spec.Spec? && b.usedIds == known + Ids(b.subgoals) && b.idMap.Values <= Ids(b.subgoals)
    ensures GetsId(b, Assigned(b, spec, position), spec, RawId(spec, position), known)
  {}

  /** Every entry gets its id in this way; ids are minted one after the other, one for every clash. */
  lemma {:induction false} NextId(specs: seq<Spec>, known: set<string>, seqNo: nat)
    requires specs != [] && specs[|specs| - 1].Spec?
    ensures var n := |specs| - 1;
            var before := AssignIds(specs[..n], known, seqNo);
            && GetsId(before, AssignIds(specs, known, seqNo), specs[n], NameAt(specs, n), known)
            && before.seqNo == seqNo + Clashes(specs[..n], known, seqNo)
  {
    var n := |specs| - 1;
    UsedAre(specs[..n], known, seqNo);
    SeqCounts(specs[..n], known, seqNo);
    AssignedIs(AssignIds(specs[..n], known, seqNo), specs[n], |specs|, known);
  }

  lemma {:induction false} IdsNext(sgs: seq<Subgoal>, sg: Subgoal)
    ensures Ids(sgs + [sg]) == Ids(sgs) + {sg.id}
  {}

  lemma {:induction false} ValuesNext(m: map<string, string>, name: string, id: string, ids: set<string>)
    requires m.Values <= ids
    ensures m[name := id][id := id].Values <= ids + {id}
  {}

  lemma {:induction false} UsedNext(b: Batch, spec: Spec, position: nat, known: set<string>)
    requires spec.Spec? && b.usedIds == known + Ids(b.subgoals) && b.idMap.Values <= Ids(b.subgoals)
    ensures var c := Assigned(b, spec, position);
            c.usedIds == known + Ids(c.subgoals) && c.idMap.Values <= Ids(c.subgoals)
  {
    var name := RawId(spec, position);
    var id := if name in known + Ids(b.subgoals) then MintedId(b.seqNo) else name;
    AssignedIs(b, spec, position, known);
    IdsNext(b.subgoals, FromSpec(spec, id));
    ValuesNext(b.idMap, name, id, Ids(b.subgoals));
  }

  lemma {:induction false} UsedAre(specs: seq<Spec>, known: set<string>, seqNo: nat)
    ensures var b := AssignIds(specs, known, seqNo);
            b.usedIds == known + Ids(b.subgoals) && b.idMap.Values <= Ids(b.subgoals)
  {
    if specs != [] {
      var n := |specs| - 1;
      UsedAre(specs[..n], known, seqNo);
      if specs[n].Spec? {
        UsedNext(AssignIds(specs[..n], known, seqNo), specs[n], |specs|, known);
      }
    }
  }

  lemma {:induction false} SeqCounts(specs: seq<Spec>, known: set<string>, seqNo: nat)
    ensures AssignIds(specs, known, seqNo).seqNo == seqNo + Clashes(specs, known, seqNo)
  {
    if specs != [] {
      SeqCounts(specs[..|specs| - 1], known, seqNo);
      UsedAre(specs[..|specs| - 1], known, seqNo);
    }
  }

  /** A dependency is renamed as the ids were, and kept if it then names a task of the plan or of the batch. */
  lemma {:induction false} RemapIs(deps: seq<string>, idMap: map<string, string>, used: set<string>)
    ensures RemapDeps(deps, idMap, used)
            == Within(Renamed(deps, idMap), used)
  {
    if deps != [] {
      var n := |deps| - 1;
      RemapIs(deps[..n], idMap, used);
      var all := Renamed(deps, idMap);
      assert all[..n] == Renamed(deps[..n], idMap);
    }
  }

  function Renamed(deps: seq<string>, idMap: map<string, string>): (r: seq<string>)
    ensures |r| == |deps|
    ensures forall k :: 0 <= k < |deps| ==> r[k] == if deps[k] in idMap then idMap[deps[k]] else deps[k]
  {
    seq(|deps|, k requires 0 <= k < |deps| => if deps[k] in idMap then idMap[deps[k]] else deps[k])
  }

  /* ---- loose tasks ---- */

  /** The positions of the entries that have a description. */
  function Described(specs: seq<TaskSpec>): (at: seq<nat>)
    ensures forall k :: 0 <= k < |at| ==>
              at[k] < |specs| && specs[at[k]].TaskSpec? && !Blank(specs[at[k]].description)
  {
    if specs == [] then []
    else
      var n := |specs| - 1;
      Described(specs[..n]) + (if specs[n].TaskSpec? && !Blank(specs[n].description) then [n] else [])
  }

  predicate LooseMadeOf(n: Task, spec: TaskSpec, k: nat, seqNo: nat, obj: nat)
    requires spec.TaskSpec?
  {
    && n.id == MintedId(seqNo + k) && n.obj == obj + k && n.status == Draft && n.retries == 0
    && n.kind == (if spec.kind == "" then "code_task" else spec.kind) && n.description == Strip(spec.description)
    && n.payload == spec.payload && n.priority == (if spec.priority == 0 then 20 + k else spec.priority)
  }

  lemma {:induction false} LooseIsMadeOf(spec: TaskSpec, k: nat, seqNo: nat, obj: nat)
    requires spec.TaskSpec?
    ensures LooseMadeOf(LooseTask(spec, k, seqNo, obj), spec, k, seqNo, obj)
  {}

  /** The tasks are made of the described entries, in order. */
  predicate AllLooseMadeOf(more: seq<Task>, specs: seq<TaskSpec>, at: seq<nat>, seqNo: nat, obj: nat)
    requires forall k :: 0 <= k < |at| ==> at[k] < |specs| && specs[at[k]].TaskSpec?
  {
    |more| == |at| && forall k :: 0 <= k < |more| ==> LooseMadeOf(more[k], specs[at[k]], k, seqNo, obj)
  }

  lemma {:induction false} LooseStays(more: seq<Task>, specs: seq<TaskSpec>, last: TaskSpec, at: seq<nat>, seqNo: nat,
                                      obj: nat)
    requires forall k :: 0 <= k < |at| ==> at[k] < |specs| && specs[at[k]].TaskSpec?
    requires AllLooseMadeOf(more, specs, at, seqNo, obj)
    ensures AllLooseMadeOf(more, specs + [last], at, seqNo, obj)
  {
    forall k | 0 <= k < |more| ensures LooseMadeOf(more[k], (specs + [last])[at[k]], k, seqNo, obj) {
      assert (specs + [last])[at[k]] == specs[at[k]];
    }
  }

  lemma {:induction false} LooseGrows(more: seq<Task>, specs: seq<TaskSpec>, last: TaskSpec, at: seq<nat>, seqNo: nat,
                                      obj: nat)
    requires forall k :: 0 <= k < |at| ==> at[k] < |specs| && specs[at[k]].TaskSpec?
    requires AllLooseMadeOf(more, specs, at, seqNo, obj) && last.TaskSpec?
    ensures AllLooseMadeOf(more + [LooseTask(last, |more|, seqNo, obj)], specs + [last], at + [|specs|], seqNo, obj)
  {
    LooseStays(more, specs, last, at, seqNo, obj);
    LooseIsMadeOf(last, |more|, seqNo, obj);
  }

  lemma {:induction false} LooseAreMadeOf(specs: seq<TaskSpec>, seqNo: nat, obj: nat)
    ensures AllLooseMadeOf(LooseTasks(specs, seqNo, obj), specs, Described(specs), seqNo, obj)
  {
    if specs != [] {
      var before, last := specs[..|specs| - 1], specs[|specs| - 1];
      assert specs == before + [last];
      LooseAreMadeOf(before, seqNo, obj);
      LooseStays(LooseTasks(before, seqNo, obj), before, last, Described(before), seqNo, obj);
      if last.TaskSpec? {
        LooseGrows(LooseTasks(before, seqNo, obj), before, last, Described(before), seqNo, obj);
      }
    }
  }

  /* ---- the step ---- */

  /** The planner answered, and no issue is reported of its plan. */
  predicate PlannerAnswers(t: Task, env: Env) {
    IsPlanGoal(t.kind) && env.reply.ok && NonBlank(env.reply.planIssues) == []
  }

  /** The planning task is done, and `more` is appended; the run goes on. */
  predicate PlanGrows(v: KState, i: nat, r: KState, more: seq<Task>)
    requires i < |v.tasks|
  {
    && r.tasks == v.tasks[i := v.tasks[i].(status := Done)] + more && r.status == Active
    && r.breaker == v.breaker.(lastDoneCycle := Max(v.breaker.lastDoneCycle, v.used))
    && r.nextObj == v.nextObj + |more| && r.lastError == v.lastError && r.trace == v.trace
  }

  lemma {:induction false} UpdatePrefix(tasks: seq<Task>, more: seq<Task>, i: nat, t: Task)
    requires i < |tasks|
    ensures (tasks + more)[i := t] == tasks[i := t] + more
  {}

  lemma {:induction false} BatchReply(v: KState, i: nat, env: Env)
    requires i < |v.tasks| && NonBlank(env.reply.planIssues) == [] && Dicts(env.reply.subgoals) != []
    requires WellNamed(env.reply.subgoals, TaskIds(v.tasks))
    requires CompilesCleanly(CompiledBatch(v, env.reply.subgoals).subgoals, env.tools)
    ensures var more := BatchTasks(CompiledBatch(v, env.reply.subgoals).subgoals, v.nextObj);
            && !PlanReply(v, i, env).raised && PlanGrows(v, i, PlanReply(v, i, env).state, more)
            && PlanReply(v, i, env).state.nextSeq == SeqOf(v) && BatchMadeOf(v, env.reply.subgoals, more)
  {
    var more := BatchTasks(CompiledBatch(v, env.reply.subgoals).subgoals, v.nextObj);
    BatchIsMadeOf(v, env.reply.subgoals);
    NamesAreKept(env.reply.subgoals, TaskIds(v.tasks), SeqOf(v));
    UpdatePrefix(v.tasks, more, i, v.tasks[i].(status := Done));
  }

  /** A planner's reply whose entries compile is appended to the plan as it is written. */
  lemma {:induction false} PlannedStep(s: KState, env: Env, planner: Planner) returns (more: seq<Task>)
    requires Calls(s, env, planner) && PlannerAnswers(AtCall(s, env, planner).tasks[Called(s, env, planner)], env)
    requires Dicts(env.reply.subgoals) != []
    requires WellNamed(env.reply.subgoals, TaskIds(AtCall(s, env, planner).tasks))
    requires CompilesCleanly(CompiledBatch(AtCall(s, env, planner), env.reply.subgoals).subgoals, env.tools)
    ensures var v, i := AtCall(s, env, planner), Called(s, env, planner);
            var o := Step(s, env, planner);
            && !o.raised && PlanGrows(v, i, o.state, more) && o.state.nextSeq == SeqOf(v)
            && BatchMadeOf(v, env.reply.subgoals, more)
  {
    var v := AtCall(s, env, planner);
    more := BatchTasks(CompiledBatch(v, env.reply.subgoals).subgoals, v.nextObj);
    StepIsResolve(s, env, planner);
    BatchReply(v, Called(s, env, planner), env);
  }

  lemma {:induction false} NoDictsNoBatch(v: KState, specs: seq<Spec>, tools: Tools)
    requires Dicts(specs) == []
    ensures AppendSubgoals(v, specs, tools) == Appended(v, 0, false)
  {
    NoneAssigned(specs, TaskIds(v.tasks), SeqOf(v));
    EmptyBatchIsClean(tools);
  }

  lemma {:induction false} NoneAssigned(specs: seq<Spec>, known: set<string>, seqNo: nat)
    requires Dicts(specs) == []
    ensures AssignIds(specs, known, seqNo).subgoals == []
  {
    if specs != [] {
      NoneAssigned(specs[..|specs| - 1], known, seqNo);
    }
  }

  lemma {:induction false} LooseReply(v: KState, i: nat, env: Env)
    requires i < |v.tasks| && NonBlank(env.reply.planIssues) == [] && Dicts(env.reply.subgoals) == []
    requires Described(env.reply.tasks) != []
    ensures var more := LooseTasks(env.reply.tasks, SeqOf(v), v.nextObj);
            && !PlanReply(v, i, env).raised && PlanGrows(v, i, PlanReply(v, i, env).state, more)
            && PlanReply(v, i, env).state.nextSeq == SeqOf(v) + |more|
  {
    var more := LooseTasks(env.reply.tasks, SeqOf(v), v.nextObj);
    NoDictsNoBatch(v, env.reply.subgoals, env.tools);
    LooseAreMadeOf(env.reply.tasks, SeqOf(v), v.nextObj);
    UpdatePrefix(v.tasks, more, i, v.tasks[i].(status := Done));
  }

  /** Without entries, the loose tasks of the reply that have a description are appended, in order. */
  lemma {:induction false} LooseStep(s: KState, env: Env, planner: Planner) returns (more: seq<Task>)
    requires Calls(s, env, planner) && PlannerAnswers(AtCall(s, env, planner).tasks[Called(s, env, planner)], env)
    requires Dicts(env.reply.subgoals) == [] && Described(env.reply.tasks) != []
    ensures var v, i := AtCall(s, env, planner), Called(s, env, planner);
            var o, at := Step(s, env, planner), Described(env.reply.tasks);
            && !o.raised && PlanGrows(v, i, o.state, more) && o.state.nextSeq == SeqOf(v) + |at|
            && AllLooseMadeOf(more, env.reply.tasks, at, SeqOf(v), v.nextObj)
  {
    var v := AtCall(s, env, planner);
    more := LooseTasks(env.reply.tasks, SeqOf(v), v.nextObj);
    StepIsResolve(s, env, planner);
    LooseReply(v, Called(s, env, planner), env);
    LooseAreMadeOf(env.reply.tasks, SeqOf(v), v.nextObj);
  }

  /** The planner reports that its plan does not compile, or issues are reported of it, or its entries do not
      compile. */
  ghost predicate PlanFails(v: KState, i: nat, env: Env)
    requires i < |v.tasks|
  {
    && IsPlanGoal(v.tasks[i].kind)
    && if env.reply.ok then
         NonBlank(env.reply.planIssues) != []
         || !CompilesCleanly(CompiledBatch(v, env.reply.subgoals).subgoals, env.tools)
       else Lower(Strip(env.reply.error)) == "planner_compile_failed" && !(env.reply.ok && env.criteriaMet)
  }

  lemma {:induction false} CompileFailedIs(v: KState, u: KState, i: nat, env: Env)
    requires MayRun(v, i) && v.status == Active && u.tasks == v.tasks && u.goal == v.goal && u.status == v.status
    requires u.nextSeq == v.nextSeq && u.nextObj == v.nextObj && u.breaker == v.breaker
    ensures ReplannedFrom(Failing(v, i, "planner_compile_failed"), i, true, env, false, CompileFailedRoute(u, i, env))
  {
    var f := WithStatus(u, i, FailedRetryable).(lastError := "planner_compile_failed");
    var w := Log(f, PlannerCompileFailedRoute(u.tasks[i].id));
    StatusUpdate(u, i, FailedRetryable);
    ReplanStatus(w, i, true, env);
    SameAgain(w, Failing(v, i, "planner_compile_failed"), i, env, AfterReplan(w, i, true, env));
  }

  lemma {:induction false} SameAgain(a: KState, b: KState, i: nat, env: Env, r: KState)
    requires SameForReplan(a, b) && i < |a.tasks| && ReplanEnds(a, i, true, env, r)
    requires r.status == (if Loops(a, a.tasks[i], env) then Aborted else Active)
    ensures ReplannedFrom(b, i, true, env, false, r)
  {
    SameReplan(a, b, i, true, env, r);
  }

  lemma {:induction false} PlanFailsResolves(v: KState, i: nat, codes: set<Code>, env: Env)
    requires MayRun(v, i) && v.status == Active && PlanFails(v, i, env)
    ensures var o := Resolve(v, i, codes, env);
            !o.raised && ReplannedFrom(Failing(v, i, "planner_compile_failed"), i, true, env, false, o.state)
  {
    if env.reply.ok {
      CompileFailedIs(v, Log(v, PlannerCompileFailed(v.tasks[i].id)), i, env);
    } else {
      CompileFailedIs(v, v, i, env);
    }
  }

  /** A plan that does not compile is not appended: the planning task is replanned, with constraints. */
  lemma {:induction false} PlanFailsStep(s: KState, env: Env, planner: Planner)
    requires PlanInv(s) && Calls(s, env, planner) && PlanFails(AtCall(s, env, planner), Called(s, env, planner), env)
    ensures var v, i := AtCall(s, env, planner), Called(s, env, planner);
            var o := Step(s, env, planner);
            !o.raised && ReplannedFrom(Failing(v, i, "planner_compile_failed"), i, true, env, false, o.state)
  {
    CallReady(s, env, planner);
    CallIsActive(s, env, planner);
    StepIsResolve(s, env, planner);
    PlanFailsResolves(AtCall(s, env, planner), Called(s, env, planner), CallCodes(s, env, planner), env);
  }
}
