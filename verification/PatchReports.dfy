/** What a patch and a patch transaction report (agentlib/patch_executor.py): which paths are captured, which operation
    stopped `apply` and why, and which files are named as changed. */
module PatchReports {
  import opened Basics
  import opened PyText
  import opened Schemas
  import opened Parsing
  import opened PatchSpec
  import opened PatchContents

  /* ---- the touched paths ---- */

  function Targets(ops: seq<PatchOp>): (r: seq<string>)
    ensures |r| == |ops| && forall k :: 0 <= k < |ops| ==> r[k] == Target(ops[k])
  {
    seq(|ops|, k requires 0 <= k < |ops| => Target(ops[k]))
  }

  lemma {:induction false} TargetsNext(ops: seq<PatchOp>, op: PatchOp)
    ensures Targets(ops + [op]) == Targets(ops) + [Target(op)]
    ensures OpTargets(ops + [op]) == OpTargets(ops) + (if Target(op) == "" then [] else [Target(op)])
    ensures Target(op) == "" <==> Blank(Target(op))
  {
    assert (ops + [op])[..|ops|] == ops;
    if op.PatchOp? { StripIdempotent(OrText(op.path, OrText(op.targetPath, op.filePath))); }
  }

  /** The targets of the operations, then the hints, in order and without blanks. */
  lemma {:induction false} OpTargetsAre(ops: seq<PatchOp>)
    ensures OpTargets(ops) == NonBlank(Targets(ops))
  {
    if ops != [] {
      var before, op := ops[..|ops| - 1], ops[|ops| - 1];
      assert ops == before + [op];
      OpTargetsAre(before);
      TargetsNext(before, op);
      NonBlankNext(Targets(before), Target(op));
    }
  }

  lemma {:induction false} NonBlankJoin(a: seq<string>, b: seq<string>)
    ensures NonBlank(a + b) == NonBlank(a) + NonBlank(b)
  {
    if a == [] {
      assert a + b == b;
    } else {
      assert (a + b)[1..] == a[1..] + b;
      NonBlankJoin(a[1..], b);
    }
  }

  lemma {:induction false} TouchedAre(ops: seq<PatchOp>, hints: seq<string>) returns (at: seq<nat>)
    ensures Selects(Targets(ops) + hints, NotBlank(Targets(ops) + hints), Touched(ops, hints), at)
  {
    OpTargetsAre(ops);
    NonBlankJoin(Targets(ops), hints);
    at := DependenciesAre(Targets(ops) + hints);
  }

  /* ---- where `apply` stops ---- */

  ghost predicate NamesNothing(op: PatchOp)
    requires op.PatchOp?
  {
    exists path :: Names(op, path) && Blank(path)
  }

  predicate KnownKind(op: PatchOp) {
    Rewrites(op) || Asks(op, "append_file") || Asks(op, "delete_file")
  }

  /** Why the operation, counted from one, is not performed. */
  ghost predicate Refused(resolve: Resolver, op: PatchOp, idx: nat, write: Io, error: PatchError) {
    if op.NotAnObject? then error == NotAnObjectAt(idx)
    else if Asks(op, "") || NamesNothing(op) then error == MissingFieldsAt(idx)
    else if forall q :: !AimsAt(resolve, op, q) then error == OutsideWorkspace
    else if !KnownKind(op) then error.UnsupportedOp? && Asks(op, error.kind)
    else write.Fails? && error == IoError
  }

  lemma {:induction false} TargetFacts(resolve: Resolver, op: PatchOp)
    requires op.PatchOp?
    ensures (forall q :: !AimsAt(resolve, op, q)) <==> resolve(Target(op)).None?
    ensures NamesNothing(op) <==> Target(op) == ""
    ensures KnownKind(op) <==> Supported(Kind(op))
  {
    TargetNamed(op);
    if resolve(Target(op)).Some? {
      AimIs(resolve, op, resolve(Target(op)).value);
    } else {
      forall q ensures !AimsAt(resolve, op, q) { AimIs(resolve, op, q); }
    }
    var path :| Names(op, path);
    assert Strip(path) == Target(op);
  }

  lemma {:induction false} RefusedIs(resolve: Resolver, a: Applied, op: PatchOp, idx: nat, write: Io)
    requires a.error == NoError && ApplyOne(resolve, a, op, idx, write).error != NoError
    ensures Refused(resolve, op, idx, write, ApplyOne(resolve, a, op, idx, write).error)
  {
    if op.PatchOp? {
      TargetFacts(resolve, op);
    }
  }

  /** `apply` stops at the first operation that cannot be performed, says which and why, and reports the files and the
      kinds of those before it, one by one. */
  lemma {:induction false} StopReports(resolve: Resolver, files: Files, ops: seq<PatchOp>, write: nat -> Io)
    returns (n: nat)
    requires ApplyOps(resolve, files, ops, write).error != NoError
    ensures var a := ApplyOps(resolve, files, ops, write);
            && n < |ops| && AllExecutable(resolve, ops[..n], write)
            && Refused(resolve, ops[n], n + 1, write(n), a.error)
            && Tells(resolve, ops[..n], a.changed, a.kinds)
  {
    n := StopsAt(resolve, files, ops, write);
    var before := ApplyOps(resolve, files, ops[..n], write);
    ApplySucceedsIff(resolve, files, ops[..n], write);
    ChangedTells(resolve, files, ops[..n], write);
    RefusedIs(resolve, before, ops[n], n + 1, write(n));
    ApplyOneView(resolve, before, ops[n], n + 1, write(n));
  }

  /* ---- the report of a transaction ---- */

  /** The files that the operations aim at, each once, in the order of first mention; blank paths are not named. */
  ghost predicate NamesTargets(resolve: Resolver, ops: seq<PatchOp>, changed: seq<string>) {
    && (forall q :: q in changed <==> !Blank(q) && exists k :: 0 <= k < |ops| && AimsAt(resolve, ops[k], q))
    && (forall i, j :: 0 <= i < j < |changed| ==>
          changed[i] != changed[j] && AimedFirst(resolve, ops, changed[i], changed[j]))
  }

  lemma {:induction false} NonBlankNames(resolve: Resolver, ops: seq<PatchOp>, changed: seq<string>)
    requires forall q :: q in changed <==> exists k :: 0 <= k < |ops| && AimsAt(resolve, ops[k], q)
    requires forall i, j :: 0 <= i < j < |changed| ==>
               changed[i] != changed[j] && AimedFirst(resolve, ops, changed[i], changed[j])
    ensures NamesTargets(resolve, ops, NonBlank(changed))
  {
    var at := DependenciesAre(changed);
    var kept := NonBlank(changed);
    forall i, j | 0 <= i < j < |kept|
      ensures kept[i] != kept[j] && AimedFirst(resolve, ops, kept[i], kept[j])
    {
      assert kept[i] == changed[at[i]] && kept[j] == changed[at[j]] && at[i] < at[j];
    }
  }

  /** What a transaction names as changed once `apply` has succeeded. */
  ghost predicate NamesChanged(resolve: Resolver, ops: seq<PatchOp>, hints: seq<string>, changed: seq<string>) {
    if ops != [] then NamesTargets(resolve, ops, changed)
    else exists paths :: ResolveAll(resolve, Touched(ops, hints)) == Some(paths) && changed == NonBlank(paths)
  }

  lemma {:induction false} AttemptNames(resolve: Resolver, files: Files, ops: seq<PatchOp>, hints: seq<string>,
                                        paths: seq<string>, write: nat -> Io)
    requires ResolveAll(resolve, Touched(ops, hints)) == Some(paths)
    requires Attempt(resolve, files, ops, paths, write).error == NoError
    ensures NamesChanged(resolve, ops, hints, NonBlank(Attempt(resolve, files, ops, paths, write).changed))
  {
    if ops != [] {
      SuccessReports(resolve, files, ops, write);
      NonBlankNames(resolve, ops, AppliedAll(resolve, files, ops, write).changed);
    }
  }

  /** Operation `n` was refused, and the files of those before it are named. */
  ghost predicate TellsRefusal(resolve: Resolver, ops: seq<PatchOp>, write: nat -> Io, r: Report, n: nat)
    requires r.Report?
  {
    && n < |ops| && Refused(resolve, ops[n], n + 1, write(n), r.error)
    && exists kinds :: Tells(resolve, ops[..n], r.changed, kinds)
  }

  /** The report says what happened: success, with the changed files; or that the result does not verify, with the files
      that were changed; or which operation was refused, with those changed before it. A rollback is reported exactly in
      the last two cases. */
  ghost predicate TellsOutcome(resolve: Resolver, ops: seq<PatchOp>, hints: seq<string>, write: nat -> Io, r: Report)
    requires r.Report?
  {
    && (r.success <==> r.error == NoError) && (r.triggered <==> r.error != NoError) && (r.success ==> r.rollbackOk)
    && if r.error in {NoError, VerifyFailed} then NamesChanged(resolve, ops, hints, r.changed)
       else exists n :: TellsRefusal(resolve, ops, write, r, n)
  }

  /** Without any touched path, success is reported; if one is outside, that is reported, and nothing is done; otherwise
      the report, if there is one, tells the outcome. */
  lemma {:induction false} TransactionReports(resolve: Resolver, files: Files, ops: seq<PatchOp>, hints: seq<string>,
                                              env: Conditions)
    ensures var touched, o := Touched(ops, hints), Transaction(resolve, files, ops, hints, env);
            if touched == [] then o == Result(files, Report(true, [], false, true, NoError))
            else if ResolveAll(resolve, touched).None? then
              o == Result(files, Report(false, [], false, false, OutsideWorkspace))
            else o.report.Report? ==> TellsOutcome(resolve, ops, hints, env.write, o.report)
  {
    var touched := Touched(ops, hints);
    if touched != [] && ResolveAll(resolve, touched).Some? {
      var paths := ResolveAll(resolve, touched).value;
      var pre := Captured(resolve, files, paths, env.preRead);
      CapturedSound(resolve, files, paths, env.preRead);
      if pre.Some? {
        ExecuteReports(resolve, files, ops, hints, paths, pre.value, env);
      }
    }
  }

  lemma {:induction false} ExecuteReports(resolve: Resolver, files: Files, ops: seq<PatchOp>, hints: seq<string>,
                                          paths: seq<string>, pre: Snapshot, env: Conditions)
    requires Sound(pre) && ResolveAll(resolve, Touched(ops, hints)) == Some(paths)
    ensures var r := Execute(resolve, files, ops, paths, pre, env).report;
            r.Report? ==> TellsOutcome(resolve, ops, hints, env.write, r)
  {
    var a := Attempt(resolve, files, ops, paths, env.write);
    if a.error == NoError {
      AttemptNames(resolve, files, ops, hints, paths, env.write);
    } else {
      RefusalReports(resolve, files, ops, hints, paths, pre, env);
    }
  }

  lemma {:induction false} RefusalReports(resolve: Resolver, files: Files, ops: seq<PatchOp>, hints: seq<string>,
                                          paths: seq<string>, pre: Snapshot, env: Conditions)
    requires Sound(pre) && ResolveAll(resolve, Touched(ops, hints)) == Some(paths)
    requires Attempt(resolve, files, ops, paths, env.write).error != NoError
    ensures var r := Execute(resolve, files, ops, paths, pre, env).report;
            r.Report? ==> TellsOutcome(resolve, ops, hints, env.write, r)
  {
    var n := StopReports(resolve, files, ops, env.write);
    ResolveAllIs(resolve, Touched(ops, hints));
    ApplyResolves(resolve, files, ops, env.write);
    var r := Execute(resolve, files, ops, paths, pre, env).report;
    if r.Report? {
      assert TellsRefusal(resolve, ops, env.write, r, n);
    }
  }

  /* ---- where a transaction raises ---- */

  /** Every path resolves again, and can be read. */
  predicate Readable(resolve: Resolver, paths: seq<string>, fails: nat -> bool) {
    forall k :: 0 <= k < |paths| ==> resolve(paths[k]).Some? && !fails(k)
  }

  /** It raises exactly where a capture fails: before applying, after a successful `apply`, or after the rollback of a
      failed one. */
  lemma {:induction false} RaisesIff(resolve: Resolver, files: Files, ops: seq<PatchOp>, hints: seq<string>,
                                     env: Conditions, paths: seq<string>)
    requires Touched(ops, hints) != [] && ResolveAll(resolve, Touched(ops, hints)) == Some(paths)
    ensures var r := Transaction(resolve, files, ops, hints, env).report;
            var started, applied := Readable(resolve, paths, env.preRead), AllExecutable(resolve, ops, env.write);
            && (r == Raised(BeforeApply) <==> !started)
            && (r == Raised(AfterApply) <==> started && applied && !Readable(resolve, paths, env.postRead))
            && (r.Raised? && r.stage.AfterRollback? <==>
                  started && !applied && !Readable(resolve, paths, env.failRead))
  {
    CapturedIff(resolve, files, paths, env.preRead);
    CapturedSound(resolve, files, paths, env.preRead);
    var pre := Captured(resolve, files, paths, env.preRead);
    if pre.Some? {
      ExecuteRaises(resolve, files, ops, paths, pre.value, env);
    }
  }

  lemma {:induction false} ExecuteRaises(resolve: Resolver, files: Files, ops: seq<PatchOp>, paths: seq<string>,
                                         pre: Snapshot, env: Conditions)
    requires Sound(pre)
    ensures var r := Execute(resolve, files, ops, paths, pre, env).report;
            var applied := AllExecutable(resolve, ops, env.write);
            && r != Raised(BeforeApply)
            && (r == Raised(AfterApply) <==> applied && !Readable(resolve, paths, env.postRead))
            && (r.Raised? && r.stage.AfterRollback? <==> !applied && !Readable(resolve, paths, env.failRead))
  {
    var a := Attempt(resolve, files, ops, paths, env.write);
    AttemptView(resolve, files, ops, paths, env.write);
    if a.error == NoError {
      CapturedIff(resolve, a.files, paths, env.postRead);
    } else {
      CapturedIff(resolve, Undone(resolve, a.files, pre, env).files, paths, env.failRead);
    }
  }
}
