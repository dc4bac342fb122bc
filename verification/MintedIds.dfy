/** What the id assignment of `_append_generated_subgoals` guarantees without any assumption on the planner, and
    what a planner can break by using the kernel's own ids and keys. */
module MintedIds {
  import opened PyText
  import opened Schemas
  import opened CompileCheck
  import opened KernelState
  import opened PlanBatches
  import opened StepObjects
  import opened Runs
  import opened Stranded

  /** No id that gets minted for the batch is in use at that time. */
  predicate MintsAreFree(specs: seq<Spec>, usedIds: set<string>, seqNo: nat) {
    specs == [] ||
      (var b := AssignIds(specs[..|specs| - 1], usedIds, seqNo);
       var spec := specs[|specs| - 1];
       && MintsAreFree(specs[..|specs| - 1], usedIds, seqNo)
       && (spec.Spec? && Clashes(b, RawId(spec, |specs|)) ==> MintedId(b.seqNo) !in b.usedIds))
  }

  predicate Clashes(b: Batch, raw: string) {
    raw in b.usedIds || raw in b.idMap.Values
  }

  /** The batch's ids are pairwise distinct and new to the plan. */
  predicate FreshDistinct(sgs: seq<Subgoal>, known: set<string>) {
    DistinctIds(sgs) && forall k :: 0 <= k < |sgs| ==> sgs[k].id !in known
  }

  lemma {:induction false} UsedIdsAre(specs: seq<Spec>, known: set<string>, seqNo: nat)
    ensures AssignIds(specs, known, seqNo).usedIds == known + Ids(AssignIds(specs, known, seqNo).subgoals)
  {
    if specs != [] {
      UsedIdsAre(specs[..|specs| - 1], known, seqNo);
    }
  }

  lemma {:induction false} SnocFreshIff(sgs: seq<Subgoal>, sg: Subgoal, known: set<string>)
    ensures FreshDistinct(sgs + [sg], known) <==> FreshDistinct(sgs, known) && sg.id !in known + Ids(sgs)
  {
    var all := sgs + [sg];
    if FreshDistinct(all, known) {
      forall k | 0 <= k < |sgs| ensures sgs[k].id !in known && sgs[k].id != sg.id {
        assert all[k] == sgs[k] && all[|sgs|] == sg;
      }
      forall j, k | 0 <= j < k < |sgs| ensures sgs[j].id != sgs[k].id {
        assert all[j] == sgs[j] && all[k] == sgs[k];
      }
      assert all[|sgs|] == sg;
    }
  }

  /** The ids given to a batch are distinct and new exactly if no minted id was in use already: the minted ids
      are not checked against the used ones. */
  lemma {:induction false} BatchIdsFreshIff(specs: seq<Spec>, known: set<string>, seqNo: nat)
    ensures FreshDistinct(AssignIds(specs, known, seqNo).subgoals, known) <==> MintsAreFree(specs, known, seqNo)
  {
    if specs != [] {
      var n := |specs| - 1;
      BatchIdsFreshIff(specs[..n], known, seqNo);
      UsedIdsAre(specs[..n], known, seqNo);
      if specs[n].Spec? {
        var b := AssignIds(specs[..n], known, seqNo);
        var last := AssignIds(specs, known, seqNo).subgoals[|b.subgoals|];
        SnocFreshIff(b.subgoals, last, known);
      }
    }
  }

  function NamedSpec(id: string): Spec {
    Spec(id, "", "", "code_task", EMPTY_PAYLOAD, [], [], [], map[], RetryPolicy(0, "", 0))
  }

  predicate Plain(id: string) {
    id != "" && !IsSpace(id[0]) && !IsSpace(id[|id| - 1])
  }

  /** The next spec of a batch, named and not named like one before it. */
  lemma {:induction false} AssignNamed(specs: seq<Spec>, id: string, known: set<string>, seqNo: nat)
    requires Plain(id)
    ensures var b := AssignIds(specs, known, seqNo);
            var r := AssignIds(specs + [NamedSpec(id)], known, seqNo);
            var given := if Clashes(b, id) then MintedId(b.seqNo) else id;
            && |r.subgoals| == |b.subgoals| + 1 && b.subgoals == r.subgoals[..|b.subgoals|]
            && r.subgoals[|b.subgoals|] == FromSpec(NamedSpec(id), given)
            && r.usedIds == b.usedIds + {given} && r.idMap == b.idMap[id := given][given := given]
            && r.seqNo == if Clashes(b, id) then b.seqNo + 1 else b.seqNo
  {}

  lemma {:induction false} PaddedEndsIn(s: string, width: nat)
    requires s != ""
    ensures var p := ZeroPad(s, width); p != "" && p[|p| - 1] == s[|s| - 1]
    decreases width
  {
    if |s| < width {
      PaddedEndsIn(s, width - 1);
    }
  }

  lemma {:induction false} MintedIdPlain(n: nat)
    ensures Plain(MintedId(n))
  {}

  lemma {:induction false} ClashFirst(known: set<string>, seqNo: nat)
    requires MintedId(seqNo) !in known
    ensures var minted := MintedId(seqNo);
            var b := AssignIds([NamedSpec(minted)], known, seqNo);
            && |b.subgoals| == 1 && b.subgoals[0].id == minted
            && b.usedIds == known + {minted} && (forall x :: x in b.idMap.Values ==> x == minted) && b.seqNo == seqNo
  {
    MintedIdPlain(seqNo);
    AssignNamed([], MintedId(seqNo), known, seqNo);
    assert [] + [NamedSpec(MintedId(seqNo))] == [NamedSpec(MintedId(seqNo))];
  }

  lemma {:induction false} ClashNext(specs: seq<Spec>, name: string, minted: string, known: set<string>, seqNo: nat)
    requires Plain(name) && minted == MintedId(seqNo)
    requires var b := AssignIds(specs, known, seqNo);
             b.subgoals != [] && b.subgoals[0].id == minted && b.seqNo == seqNo
             && ((forall x :: x in b.idMap.Values ==> x == minted) || name in b.usedIds)
    ensures var b := AssignIds(specs, known, seqNo);
            var r := AssignIds(specs + [NamedSpec(name)], known, seqNo);
            && |r.subgoals| == |b.subgoals| + 1 && r.subgoals[0].id == minted
            && (name in b.usedIds ==> r.subgoals[|b.subgoals|].id == minted)
            && (name !in b.usedIds && name != minted ==> name in r.usedIds && r.seqNo == seqNo)
  {
    AssignNamed(specs, name, known, seqNo);
    var b := AssignIds(specs, known, seqNo);
    var r := AssignIds(specs + [NamedSpec(name)], known, seqNo);
    assert r.subgoals[0] == r.subgoals[..|b.subgoals|][0];
  }

  /** A planner that uses the kernel's next id for one subgoal, and one name for two others, gets two tasks with
      that id. */
  lemma {:induction false} MintedIdClash(known: set<string>, seqNo: nat, name: string)
    requires Plain(name) && name != MintedId(seqNo) && name !in known && MintedId(seqNo) !in known
    ensures var two := [NamedSpec(MintedId(seqNo))] + [NamedSpec(name)];
            var sgs := AssignIds(two + [NamedSpec(name)], known, seqNo).subgoals;
            |sgs| == 3 && sgs[0].id == MintedId(seqNo) && sgs[2].id == MintedId(seqNo)
  {
    ClashFirst(known, seqNo);
    ClashNext([NamedSpec(MintedId(seqNo))], name, MintedId(seqNo), known, seqNo);
    ClashNext([NamedSpec(MintedId(seqNo))] + [NamedSpec(name)], name, MintedId(seqNo), known, seqNo);
  }

  /* ---- a whole step ---- */

  function ClashSpecs(minted: string, name: string): seq<Spec> {
    [NamedSpec(minted)] + [NamedSpec(name)] + [NamedSpec(name)]
  }

  lemma {:induction false} NamedSpecsAreBare(specs: seq<Spec>, known: set<string>, seqNo: nat, tools: Tools)
    requires forall k :: 0 <= k < |specs| ==> specs[k].Spec? && specs[k] == NamedSpec(specs[k].id)
    requires "code_task" in tools && NonBlank(tools["code_task"]) == []
    ensures AllBare(AssignIds(specs, known, seqNo).subgoals, tools)
  {
    if specs != [] {
      NamedSpecsAreBare(specs[..|specs| - 1], known, seqNo, tools);
    }
  }

  lemma {:induction false} RemappedBare(sgs: seq<Subgoal>, idMap: map<string, string>, usedIds: set<string>,
                                        tools: Tools)
    requires AllBare(sgs, tools)
    ensures Remapped(sgs, idMap, usedIds) == sgs
  {
    var r := Remapped(sgs, idMap, usedIds);
    forall k | 0 <= k < |sgs| ensures r[k] == sgs[k] {
      RemappedAt(sgs, idMap, usedIds, k);
      assert Bare(sgs[k], tools);
    }
  }

  lemma {:induction false} BareAppended(v: KState, specs: seq<Spec>, tools: Tools)
    requires var b := AssignIds(specs, TaskIds(v.tasks), SeqOf(v)); AllBare(b.subgoals, tools) && b.subgoals != []
    ensures var b := AssignIds(specs, TaskIds(v.tasks), SeqOf(v));
            AppendSubgoals(v, specs, tools) == Appended(BatchAppended(v, b.subgoals, b.seqNo), |b.subgoals|, false)
  {
    var b := AssignIds(specs, TaskIds(v.tasks), SeqOf(v));
    RemappedBare(b.subgoals, b.idMap, b.usedIds, tools);
    BareCompiles(b.subgoals, tools);
  }

  lemma {:induction false} BatchIds(v: KState, sgs: seq<Subgoal>, seqAfter: nat)
    requires |v.tasks| == 1 && |sgs| == 3
    ensures var tasks := BatchAppended(v, sgs, seqAfter).tasks;
            |tasks| == 4 && tasks[1].id == sgs[0].id && tasks[3].id == sgs[2].id
  {
    BatchTasksAt(sgs, v.nextObj, 0);
    BatchTasksAt(sgs, v.nextObj, 2);
  }

  lemma {:induction false} ClashIds(known: set<string>, seqNo: nat, name: string, tools: Tools)
    requires Plain(name) && name != MintedId(seqNo) && name !in known && MintedId(seqNo) !in known
    requires "code_task" in tools && NonBlank(tools["code_task"]) == []
    ensures var sgs := AssignIds(ClashSpecs(MintedId(seqNo), name), known, seqNo).subgoals;
            |sgs| == 3 && sgs[0].id == MintedId(seqNo) && sgs[2].id == MintedId(seqNo) && AllBare(sgs, tools)
  {
    MintedIdClash(known, seqNo, name);
    NamedSpecsAreBare(ClashSpecs(MintedId(seqNo), name), known, seqNo, tools);
  }

  lemma {:induction false} OneTaskId(tasks: seq<Task>)
    requires |tasks| == 1
    ensures TaskIds(tasks) == {tasks[0].id}
  {
    assert tasks[..0] == [];
  }

  lemma {:induction false} ClashBatch(v: KState, minted: string, name: string, tools: Tools)
    requires |v.tasks| == 1 && v.nextSeq > 0 && minted == MintedId(v.nextSeq) && v.tasks[0].id !in {minted, name}
    requires Plain(name) && name != minted && "code_task" in tools && NonBlank(tools["code_task"]) == []
    ensures var a := AppendSubgoals(v, ClashSpecs(minted, name), tools);
            && a.added == 3 && !a.rejected && |a.state.tasks| == 4
            && a.state.tasks[1].id == minted && a.state.tasks[3].id == minted
  {
    var known := TaskIds(v.tasks);
    OneTaskId(v.tasks);
    ClashIds(known, v.nextSeq, name, tools);
    var specs := ClashSpecs(minted, name);
    BareAppended(v, specs, tools);
    var b := AssignIds(specs, known, v.nextSeq);
    BatchIds(v, b.subgoals, b.seqNo);
  }

  /** So a first step can leave a plan with two tasks of one id. */
  lemma {:induction false} StepDuplicatesId(s: KState, env: Env, name: string)
    requires Fresh(s) && s.status == Active && s.used < s.max && PlansFreely(env.tools)
    requires "code_task" in env.tools && NonBlank(env.tools["code_task"]) == []
    requires Plain(name) && name !in {MintedId(s.nextSeq), MintedId(s.nextSeq + 1)}
    requires env.reply.ok && NonBlank(env.reply.planIssues) == []
    requires env.reply.subgoals == ClashSpecs(MintedId(s.nextSeq + 1), name)
    ensures var o := Step(s, env, GoalPlanner);
            !o.raised && |o.state.tasks| == 4 && o.state.tasks[1].id == o.state.tasks[3].id
  {
    FirstReady(s, env);
    PlanGoalPlans();
    StepIsResolve(s, env, GoalPlanner);
    if MintedId(s.nextSeq) == MintedId(s.nextSeq + 1) { MintedIdInjective(s.nextSeq, s.nextSeq + 1); }
    ClashBatch(AtCall(s, env, GoalPlanner), MintedId(s.nextSeq + 1), name, env.tools);
  }

  /** A batch task depends on exactly what the compile check saw, unless the check saw nothing and the planner's
      inputs carry dependencies of their own. */
  lemma {:induction false} CheckedDependenciesIff(sg: Subgoal, priority: int, obj: nat)
    requires forall d :: d in sg.dependencies ==> !Blank(d)
    ensures Deps(ToTask(sg, priority, obj)) == sg.dependencies
            <==> sg.dependencies != [] || ParseDependencies(sg.inputs.dependencies) == []
  {
    NonBlankAll(sg.dependencies);
  }

  lemma {:induction false} NonBlankAll(xs: seq<string>)
    requires forall x :: x in xs ==> !Blank(x)
    ensures NonBlank(xs) == xs
  {
    if xs != [] {
      NonBlankAll(xs[1..]);
    }
  }
}
