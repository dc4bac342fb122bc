/** When the patch transaction (agentlib/patch_executor.py) is all-or-nothing: the exact condition on the paths,
    and the runs that leave a trace, or destroy another file, although their rollback reports ok. */
module PatchAtomicity {
  import opened PyText
  import opened PatchSpec
  import WorkspacePaths

  /* ---- all or nothing ---- */

  /** The files after a transaction that touches some path: all operations performed, or none. */
  ghost predicate AllOrNothing(resolve: Resolver, files: Files, ops: seq<PatchOp>, o: Result) {
    match o.report
    case Report(success, _, triggered, rollbackOk, _) =>
      if success then o.files == Folded(resolve, files, ops) else !triggered || rollbackOk ==> o.files == files
    case Raised(BeforeApply) => o.files == files
    case Raised(AfterApply) => o.files == Folded(resolve, files, ops)
    case Raised(AfterRollback(ok)) => ok ==> o.files == files
  }

  /** A success has performed all operations; a failure whose rollback, if there was one, reports ok has changed
      nothing; and so it is where `run` raises. A run that touches no path does nothing and succeeds. */
  ghost predicate Atomic(resolve: Resolver, files: Files, ops: seq<PatchOp>, hints: seq<string>, env: Conditions) {
    var o := Transaction(resolve, files, ops, hints, env);
    if Touched(ops, hints) == [] then o.files == files && o.report.Report? && o.report.success
    else AllOrNothing(resolve, files, ops, o)
  }

  /** The snapshot has `q` under its own name, and the rollback writes nothing else to it afterwards. */
  predicate Owns(resolve: Resolver, order: seq<string>, q: string) {
    LastKey(resolve, order, q) == Some(q)
  }

  /** The keys of the snapshot: touched paths resolved twice. */
  function SnapshotOrder(resolve: Resolver, ops: seq<PatchOp>, hints: seq<string>): seq<string> {
    match ResolveAll(resolve, Touched(ops, hints))
    case None => []
    case Some(paths) => Order(resolve, paths)
  }

  /** The path lies in the workspace, also when it is resolved for the snapshot and for the rollback. */
  predicate ResolvesThrice(resolve: Resolver, t: string) {
    var p := resolve(t);
    p.Some? && resolve(p.value).Some? && resolve(resolve(p.value).value).Some?
  }

  /** The run can reach a rollback that reports ok. */
  predicate Prepared(resolve: Resolver, ops: seq<PatchOp>, hints: seq<string>) {
    Touched(ops, hints) != [] && forall t :: t in Touched(ops, hints) ==> ResolvesThrice(resolve, t)
  }

  /** Every file that the rollback writes to, and every file that the operations write to, owns its snapshot. */
  predicate Recoverable(resolve: Resolver, ops: seq<PatchOp>, hints: seq<string>) {
    var order := SnapshotOrder(resolve, ops, hints);
    && (forall k :: k in order && resolve(k).Some? ==> Owns(resolve, order, resolve(k).value))
    && (forall i :: 0 <= i < |ops| && Reached(resolve, ops, i) ==> Owns(resolve, order, resolve(Target(ops[i])).value))
  }

  /** What a rollback makes of `changed` agrees with `files` at `q`. */
  predicate Back(resolve: Resolver, files: Files, changed: Files, order: seq<string>, q: string) {
    match LastKey(resolve, order, q)
    case None => Read(changed, q) == Read(files, q)
    case Some(k) => Read(files, k) == Read(files, q)
  }

  /** The contents that the snapshot holds are those of `files`. */
  ghost predicate Taken(pre: Snapshot, files: Files) {
    Sound(pre) && forall k :: k in pre.items ==> pre.items[k] == Read(files, k)
  }

  /** A rollback that reports ok undoes the changes exactly if the content restored last to each file is its own,
      and files that no key resolves to were not changed. */
  lemma {:induction false} RollbackUndoesIff(resolve: Resolver, files: Files, changed: Files, pre: Snapshot,
                                             env: Conditions)
    requires Taken(pre, files)
    ensures var r := Undone(resolve, changed, pre, env);
            && (r.ok <==> forall k :: k in pre.order ==> resolve(k).Some? && env.restore(resolve(k).value) == Works)
            && (r.ok ==> (r.files == files <==> forall q :: Back(resolve, files, changed, pre.order, q)))
  {
    var r := Undone(resolve, changed, pre, env);
    RestoreReads(resolve, changed, pre.order, pre.items, env.restore, "");
    if r.ok {
      forall q ensures Read(r.files, q) == Read(files, q) <==> Back(resolve, files, changed, pre.order, q) {
        RestoreReads(resolve, changed, pre.order, pre.items, env.restore, q);
        LastKeyView(resolve, pre.order, q);
      }
      if forall q :: Back(resolve, files, changed, pre.order, q) {
        SameReads(r.files, files);
      }
    }
  }

  /** The keys of the snapshot are the touched paths, resolved twice. */
  lemma {:induction false} KeysOf(resolve: Resolver, ops: seq<PatchOp>, hints: seq<string>, k: string)
    requires ResolveAll(resolve, Touched(ops, hints)).Some?
    ensures k in SnapshotOrder(resolve, ops, hints) <==>
            exists t :: t in Touched(ops, hints) && resolve(t).Some? && resolve(resolve(t).value) == Some(k)
  {
    var texts := Touched(ops, hints);
    var paths := ResolveAll(resolve, texts).value;
    ResolveAllIs(resolve, texts);
    OrderHas(resolve, paths, k);
    if p :| p in paths && resolve(p) == Some(k) {
      var i :| 0 <= i < |paths| && paths[i] == p;
      assert texts[i] in texts && resolve(texts[i]) == Some(p);
    }
    if t :| t in texts && resolve(t).Some? && resolve(resolve(t).value) == Some(k) {
      var i :| 0 <= i < |texts| && texts[i] == t;
      assert Some(paths[i]) == resolve(t);
    }
  }

  lemma {:induction false} OrderHas(resolve: Resolver, paths: seq<string>, k: string)
    ensures k in Order(resolve, paths) <==> exists p :: p in paths && resolve(p) == Some(k)
  {
    if paths != [] {
      var n := |paths| - 1;
      OrderHas(resolve, paths[..n], k);
      assert paths == paths[..n] + [paths[n]];
    }
  }

  /** The snapshot of a run that gets so far. */
  lemma {:induction false} SnapshotView(resolve: Resolver, files: Files, ops: seq<PatchOp>, hints: seq<string>,
                                        fails: nat -> bool)
    returns (pre: Snapshot)
    requires ResolveAll(resolve, Touched(ops, hints)).Some?
    requires Captured(resolve, files, ResolveAll(resolve, Touched(ops, hints)).value, fails).Some?
    ensures Captured(resolve, files, ResolveAll(resolve, Touched(ops, hints)).value, fails) == Some(pre)
    ensures Taken(pre, files) && pre.order == SnapshotOrder(resolve, ops, hints)
  {
    var paths := ResolveAll(resolve, Touched(ops, hints)).value;
    pre := Captured(resolve, files, paths, fails).value;
    CapturedSound(resolve, files, paths, fails);
    CapturedOrder(resolve, files, paths, fails);
    forall k | k in pre.items ensures pre.items[k] == Read(files, k) {
      CapturedHas(resolve, files, paths, fails, k);
    }
  }

  lemma {:induction false} FailureAllOrNothing(resolve: Resolver, files: Files, ops: seq<PatchOp>, a: Applied,
                                               paths: seq<string>, pre: Snapshot, env: Conditions)
    requires Sound(pre)
    requires var r := Undone(resolve, a.files, pre, env); r.ok ==> r.files == files
    ensures AllOrNothing(resolve, files, ops, AfterFailure(resolve, a, paths, pre, env))
  {}

  lemma {:induction false} SuccessAllOrNothing(resolve: Resolver, files: Files, ops: seq<PatchOp>, a: Applied,
                                               paths: seq<string>, pre: Snapshot, env: Conditions)
    requires Sound(pre) && a.files == Folded(resolve, files, ops)
    requires var r := Undone(resolve, a.files, pre, env); r.ok ==> r.files == files
    ensures AllOrNothing(resolve, files, ops, AfterSuccess(resolve, a, paths, pre, env))
  {}

  lemma {:induction false} ExecuteAllOrNothing(resolve: Resolver, files: Files, ops: seq<PatchOp>, paths: seq<string>,
                                               pre: Snapshot, env: Conditions)
    requires Sound(pre)
    requires var r := Undone(resolve, ApplyOps(resolve, files, ops, env.write).files, pre, env);
             r.ok ==> r.files == files
    ensures AllOrNothing(resolve, files, ops, Execute(resolve, files, ops, paths, pre, env))
  {
    AttemptView(resolve, files, ops, paths, env.write);
    var a := Attempt(resolve, files, ops, paths, env.write);
    if a.error != NoError {
      FailureAllOrNothing(resolve, files, ops, a, paths, pre, env);
    } else {
      SuccessAllOrNothing(resolve, files, ops, a, paths, pre, env);
    }
  }

  lemma {:induction false} RecoverableBack(resolve: Resolver, files: Files, ops: seq<PatchOp>, hints: seq<string>,
                                           write: nat -> Io, q: string)
    requires Recoverable(resolve, ops, hints)
    ensures Back(resolve, files, ApplyOps(resolve, files, ops, write).files, SnapshotOrder(resolve, ops, hints), q)
  {
    var order := SnapshotOrder(resolve, ops, hints);
    LastKeyView(resolve, order, q);
    if LastKey(resolve, order, q).None? {
      ApplyFrame(resolve, files, ops, write, q);
    } else {
      assert Owns(resolve, order, q);
    }
  }

  /** Unless some path cannot be resolved three times over, a rollback finds all keys. */
  lemma {:induction false} RollbackFindsKeys(resolve: Resolver, ops: seq<PatchOp>, hints: seq<string>, files: Files,
                                             fails: nat -> bool)
    requires Touched(ops, hints) != [] && ResolveAll(resolve, Touched(ops, hints)).Some?
    requires Captured(resolve, files, ResolveAll(resolve, Touched(ops, hints)).value, fails).Some?
    ensures Prepared(resolve, ops, hints) <==>
            forall k :: k in SnapshotOrder(resolve, ops, hints) ==> resolve(k).Some?
  {
    var texts := Touched(ops, hints);
    var paths := ResolveAll(resolve, texts).value;
    ResolveAllIs(resolve, texts);
    CapturedIff(resolve, files, paths, fails);
    forall k | k in SnapshotOrder(resolve, ops, hints) && Prepared(resolve, ops, hints) ensures resolve(k).Some? {
      KeysOf(resolve, ops, hints, k);
      var t :| t in texts && resolve(t).Some? && resolve(resolve(t).value) == Some(k);
      assert ResolvesThrice(resolve, t);
    }
    if forall k :: k in SnapshotOrder(resolve, ops, hints) ==> resolve(k).Some? {
      forall t | t in texts ensures ResolvesThrice(resolve, t) {
        var i :| 0 <= i < |texts| && texts[i] == t;
        assert resolve(paths[i]).Some?;
        KeysOf(resolve, ops, hints, resolve(paths[i]).value);
      }
    }
  }

  /** A transaction is all-or-nothing, whatever fails and wherever, if it is recoverable or cannot reach a
      rollback that reports ok. */
  lemma {:induction false} SafeIsAtomic(resolve: Resolver, files: Files, ops: seq<PatchOp>, hints: seq<string>,
                                        env: Conditions)
    requires Prepared(resolve, ops, hints) ==> Recoverable(resolve, ops, hints)
    ensures Atomic(resolve, files, ops, hints, env)
  {
    var touched := Touched(ops, hints);
    if touched != [] && ResolveAll(resolve, touched).Some? {
      var paths := ResolveAll(resolve, touched).value;
      if Captured(resolve, files, paths, env.preRead).Some? {
        var pre := SnapshotView(resolve, files, ops, hints, env.preRead);
        var changed := ApplyOps(resolve, files, ops, env.write).files;
        RollbackUndoesIff(resolve, files, changed, pre, env);
        RollbackFindsKeys(resolve, ops, hints, files, env.preRead);
        if Recoverable(resolve, ops, hints) {
          forall q ensures Back(resolve, files, changed, pre.order, q) {
            RecoverableBack(resolve, files, ops, hints, env.write, q);
          }
        }
        ExecuteAllOrNothing(resolve, files, ops, paths, pre, env);
      }
    }
  }

  /* ---- and only then ---- */

  /** No read and no restore fails; the verification does. */
  function Sabotage(write: nat -> Io): Conditions {
    Conditions(_ => false, _ => false, _ => false, write, _ => Works, (_, _) => false)
  }

  /** Every operation fails, leaving its target as it was. */
  function Inert(resolve: Resolver, files: Files, ops: seq<PatchOp>): nat -> Io {
    (n: nat) => if n < |ops| && resolve(Target(ops[n])).Some?
      then Fails(Read(files, resolve(Target(ops[n])).value)) else Works
  }

  /** The i-th operation fails, leaving something. */
  function Litter(i: nat): nat -> Io {
    n => if n == i then Fails(Some("x")) else Works
  }

  /** Such a run ends in a rollback that reports ok. */
  lemma {:induction false} Sabotaged(resolve: Resolver, files: Files, ops: seq<PatchOp>, hints: seq<string>,
                                     write: nat -> Io)
    requires Prepared(resolve, ops, hints)
    ensures var o := Transaction(resolve, files, ops, hints, Sabotage(write));
            && o.report.Report? && !o.report.success && o.report.rollbackOk
            && (o.files == files <==>
                forall q :: Back(resolve, files, ApplyOps(resolve, files, ops, write).files,
                                 SnapshotOrder(resolve, ops, hints), q))
  {
    var env := Sabotage(write);
    var texts := Touched(ops, hints);
    assert forall t :: t in texts ==> ResolvesThrice(resolve, t);
    ResolveAllIs(resolve, texts);
    var paths := ResolveAll(resolve, texts).value;
    var a := Attempt(resolve, files, ops, paths, write);
    AttemptView(resolve, files, ops, paths, write);
    forall i | 0 <= i < |paths| ensures resolve(paths[i]).Some? {
      assert |paths| == |texts| && texts[i] in texts;
      assert ResolvesThrice(resolve, texts[i]);
    }
    CapturedIff(resolve, files, paths, env.preRead);
    CapturedIff(resolve, a.files, paths, env.postRead);
    var pre := SnapshotView(resolve, files, ops, hints, env.preRead);
    var r := Undone(resolve, a.files, pre, env);
    RollbackUndoesIff(resolve, files, a.files, pre, env);
    RollbackFindsKeys(resolve, ops, hints, files, env.preRead);
    CapturedIff(resolve, r.files, paths, env.failRead);
  }

  lemma {:induction false} InertApply(resolve: Resolver, files: Files, ops: seq<PatchOp>)
    ensures ApplyOps(resolve, files, ops, Inert(resolve, files, ops)).files == files
  {
    InertPrefix(resolve, files, ops, |ops|);
    assert ops[..|ops|] == ops;
  }

  lemma {:induction false} InertPrefix(resolve: Resolver, files: Files, ops: seq<PatchOp>, k: nat)
    requires k <= |ops|
    ensures ApplyOps(resolve, files, ops[..k], Inert(resolve, files, ops)).files == files
  {
    if k > 0 {
      InertPrefix(resolve, files, ops, k - 1);
      assert ops[..k][..k - 1] == ops[..k - 1] && ops[..k][k - 1] == ops[k - 1];
      var a := ApplyOps(resolve, files, ops[..k - 1], Inert(resolve, files, ops));
      if a.error == NoError {
        InertOne(resolve, files, ops, a, k - 1);
      }
    }
  }

  lemma {:induction false} InertOne(resolve: Resolver, files: Files, ops: seq<PatchOp>, a: Applied, k: nat)
    requires k < |ops| && a.files == files
    ensures ApplyOne(resolve, a, ops[k], k + 1, Inert(resolve, files, ops)(k)).files == files
  {
    var p := resolve(Target(ops[k]));
    if p.Some? {
      assert Put(files, p.value, Read(files, p.value)) == files;
    }
  }

  /** The i-th operation is reached, fails and leaves something. */
  predicate Litters(resolve: Resolver, ops: seq<PatchOp>, i: nat, write: nat -> Io) {
    Reached(resolve, ops, i) && write(i) == Fails(Some("x")) && forall k: nat :: k < i ==> write(k) == Works
  }

  lemma {:induction false} LitterBefore(resolve: Resolver, ops: seq<PatchOp>, i: nat, write: nat -> Io)
    requires Litters(resolve, ops, i, write)
    ensures ApplyOps(resolve, map[], ops[..i], write).error == NoError
  {
    forall k | 0 <= k < i ensures Executable(resolve, ops[..i][k]) {
      assert Executable(resolve, ops[k]);
    }
    ApplySucceedsIff(resolve, map[], ops[..i], write);
  }

  lemma {:induction false} LitterOne(resolve: Resolver, a: Applied, op: PatchOp, idx: nat)
    requires a.error == NoError && Executable(resolve, op)
    ensures var r := ApplyOne(resolve, a, op, idx, Fails(Some("x")));
            r.error == IoError && Read(r.files, resolve(Target(op)).value) == Some("x")
  {}

  lemma {:induction false} LitterNext(resolve: Resolver, before: seq<PatchOp>, op: PatchOp, write: nat -> Io)
    requires ApplyOps(resolve, map[], before, write).error == NoError && Executable(resolve, op)
    requires write(|before|) == Fails(Some("x"))
    ensures var r := ApplyOps(resolve, map[], before + [op], write);
            r.error == IoError && Read(r.files, resolve(Target(op)).value) == Some("x")
  {
    ApplyNext(resolve, map[], before, op, write);
    LitterOne(resolve, ApplyOps(resolve, map[], before, write), op, |before| + 1);
  }

  lemma {:induction false} ErrorSticks(resolve: Resolver, files: Files, done: seq<PatchOp>, rest: seq<PatchOp>,
                                       write: nat -> Io)
    requires ApplyOps(resolve, files, done, write).error != NoError
    ensures ApplyOps(resolve, files, done + rest, write) == ApplyOps(resolve, files, done, write)
  {
    assert (done + rest)[..|done|] == done;
    ErrorStays(resolve, files, |done|, done + rest, write);
  }

  lemma {:induction false} LitterStays(resolve: Resolver, before: seq<PatchOp>, op: PatchOp, rest: seq<PatchOp>,
                                       write: nat -> Io)
    requires ApplyOps(resolve, map[], before, write).error == NoError && Executable(resolve, op)
    requires write(|before|) == Fails(Some("x"))
    ensures Read(ApplyOps(resolve, map[], before + [op] + rest, write).files, resolve(Target(op)).value) == Some("x")
  {
    LitterNext(resolve, before, op, write);
    ErrorSticks(resolve, map[], before + [op], rest, write);
  }

  lemma {:induction false} Around<T>(xs: seq<T>, i: nat)
    requires i < |xs|
    ensures xs[..i] + [xs[i]] + xs[i + 1..] == xs
  {}

  lemma {:induction false} LitterApply(resolve: Resolver, ops: seq<PatchOp>, i: nat, write: nat -> Io)
    requires Litters(resolve, ops, i, write)
    ensures resolve(Target(ops[i])).Some?
    ensures Read(ApplyOps(resolve, map[], ops, write).files, resolve(Target(ops[i])).value) == Some("x")
  {
    assert Executable(resolve, ops[i]);
    LitterBefore(resolve, ops, i, write);
    Around(ops, i);
    LitterStays(resolve, ops[..i], ops[i], ops[i + 1..], write);
  }

  /** A run that is not recoverable though its paths can be resolved leaves a trace behind a rollback that
      reports ok: on some files, under some conditions. */
  lemma {:induction false} UnsafeFails(resolve: Resolver, ops: seq<PatchOp>, hints: seq<string>)
    returns (files: Files, env: Conditions)
    requires Prepared(resolve, ops, hints) && !Recoverable(resolve, ops, hints)
    ensures !Atomic(resolve, files, ops, hints, env)
  {
    var order := SnapshotOrder(resolve, ops, hints);
    var write: nat -> Io;
    if k :| k in order && resolve(k).Some? && !Owns(resolve, order, resolve(k).value) {
      var q := resolve(k).value;
      files, write := map[q := "x"], Inert(resolve, map[q := "x"], ops);
      InertApply(resolve, files, ops);
      LastKeyView(resolve, order, q);
      assert !Back(resolve, files, files, order, q);
    } else {
      var i :| 0 <= i < |ops| && Reached(resolve, ops, i) && !Owns(resolve, order, resolve(Target(ops[i])).value);
      files, write := map[], Litter(i);
      var q := resolve(Target(ops[i])).value;
      LitterApply(resolve, ops, i, write);
      LastKeyView(resolve, order, q);
      assert !Back(resolve, files, ApplyOps(resolve, files, ops, write).files, order, q);
    }
    env := Sabotage(write);
    Sabotaged(resolve, files, ops, hints, write);
  }

  /** A transaction is all-or-nothing on all files, whatever fails, exactly if every file that its operations or
      its rollback write to owns its snapshot, or some touched path cannot be resolved three times over (and then
      no rollback reports ok). */
  lemma {:induction false} AllOrNothingIff(resolve: Resolver, ops: seq<PatchOp>, hints: seq<string>)
    ensures (forall files, env :: Atomic(resolve, files, ops, hints, env)) <==>
            (Prepared(resolve, ops, hints) ==> Recoverable(resolve, ops, hints))
  {
    if Prepared(resolve, ops, hints) ==> Recoverable(resolve, ops, hints) {
      forall files, env ensures Atomic(resolve, files, ops, hints, env) {
        SafeIsAtomic(resolve, files, ops, hints, env);
      }
    } else {
      var files, env := UnsafeFails(resolve, ops, hints);
    }
  }

  /* ---- stable paths ---- */

  /** Resolving the path a second time changes nothing. */
  predicate Stable(resolve: Resolver, text: string) {
    resolve(text).Some? ==> resolve(resolve(text).value) == resolve(text)
  }

  /** It suffices that the targets of the operations are stable, and what the touched paths resolve to. */
  lemma {:induction false} TransactionAllOrNothing(resolve: Resolver, files: Files, ops: seq<PatchOp>,
                                                   hints: seq<string>, env: Conditions)
    requires forall t :: t in OpTargets(ops) ==> Stable(resolve, t)
    requires forall t :: t in Touched(ops, hints) && resolve(t).Some? ==> Stable(resolve, resolve(t).value)
    ensures Atomic(resolve, files, ops, hints, env)
  {
    if Prepared(resolve, ops, hints) {
      assert forall t :: t in Touched(ops, hints) ==> ResolvesThrice(resolve, t);
      ResolveAllIs(resolve, Touched(ops, hints));
      var order := SnapshotOrder(resolve, ops, hints);
      forall k | k in order ensures resolve(k) == Some(k) {
        KeysOf(resolve, ops, hints, k);
      }
      forall k | k in order ensures Owns(resolve, order, k) {
        LastKeyView(resolve, order, k);
      }
      forall i | 0 <= i < |ops| && Reached(resolve, ops, i)
        ensures Owns(resolve, order, resolve(Target(ops[i])).value)
      {
        assert Executable(resolve, ops[i]);
        OpTargetsHas(ops, i);
        KeysOf(resolve, ops, hints, resolve(Target(ops[i])).value);
      }
    }
    SafeIsAtomic(resolve, files, ops, hints, env);
  }

  lemma {:induction false} OpTargetsHas(ops: seq<PatchOp>, i: nat)
    requires i < |ops| && Target(ops[i]) != ""
    ensures Target(ops[i]) in OpTargets(ops)
  {
    if i < |ops| - 1 {
      OpTargetsHas(ops[..|ops| - 1], i);
    }
  }

  lemma {:induction false} ExecuteFiles(resolve: Resolver, files: Files, ops: seq<PatchOp>, paths: seq<string>,
                                        pre: Snapshot, env: Conditions)
    requires Sound(pre)
    ensures var changed := ApplyOps(resolve, files, ops, env.write).files;
            Execute(resolve, files, ops, paths, pre, env).files in {changed, Undone(resolve, changed, pre, env).files}
  {}

  /** Whatever fails: a file that no operation which is reached writes to, and no key of the snapshot resolves to,
      is not touched. */
  lemma {:induction false} TransactionFrame(resolve: Resolver, files: Files, ops: seq<PatchOp>, hints: seq<string>,
                                            env: Conditions, q: string)
    requires !Aimed(resolve, ops, q)
    requires forall k :: k in SnapshotOrder(resolve, ops, hints) ==> resolve(k) != Some(q)
    ensures Read(Transaction(resolve, files, ops, hints, env).files, q) == Read(files, q)
  {
    var touched := Touched(ops, hints);
    if touched != [] && ResolveAll(resolve, touched).Some? {
      var paths := ResolveAll(resolve, touched).value;
      if Captured(resolve, files, paths, env.preRead).Some? {
        var pre := SnapshotView(resolve, files, ops, hints, env.preRead);
        var changed := ApplyOps(resolve, files, ops, env.write).files;
        ExecuteFiles(resolve, files, ops, paths, pre, env);
        ApplyFrame(resolve, files, ops, env.write, q);
        RestoreReads(resolve, changed, pre.order, pre.items, env.restore, q);
        LastKeyView(resolve, pre.order, q);
      }
    }
  }

  /* ---- paths that are not stable ---- */

  function WriteOp(path: string, content: string): PatchOp {
    PatchOp("write_file", path, "", "", content, "")
  }

  /** A write followed by a malformed operation. */
  function FailingOps(path: string, content: string): seq<PatchOp> {
    [WriteOp(path, content)] + [NotAnObject]
  }

  /** The path is not blank at an end, and resolves three times over: to what is written, captured, restored. */
  predicate Chain(resolve: Resolver, path: string, q: string, r: string, w: string) {
    path != "" && Strip(path) == path && resolve(path) == Some(q) && resolve(q) == Some(r) && resolve(r) == Some(w)
  }

  /** The snapshot is read, the write and the restore succeed. */
  predicate Faultless(env: Conditions, w: string) {
    !env.preRead(0) && env.write(0) == Works && env.restore(w) == Works
  }

  lemma {:induction false} WriteOpView(path: string, content: string)
    requires path != "" && Strip(path) == path
    ensures var op := WriteOp(path, content); Target(op) == path && Kind(op) == "write_file"
    ensures forall before :: Effect(WriteOp(path, content), before) == Some(content)
  {
    assert Lower(Strip("write_file")) == "write_file";
  }

  lemma {:induction false} CapturedSingle(resolve: Resolver, files: Files, p: string, fails: nat -> bool)
    requires resolve(p).Some?
    ensures var k := resolve(p).value;
            Captured(resolve, files, [p], fails)
            == if fails(0) then None else Some(Snapshot([k], map[k := Read(files, k)]))
    ensures ResolveAll(resolve, [p]) == Some([resolve(p).value])
  {
    var one := [p];
    assert one[..|one| - 1] == [];
    assert Captured(resolve, files, one[..|one| - 1], fails) == Some(Snapshot([], map[]));
    var k := resolve(p).value;
    assert [] + [k] == [k];
  }

  lemma {:induction false} RestoreSingle(resolve: Resolver, files: Files, k: string, w: string, content: Option<string>,
                                         restore: string -> Io)
    requires resolve(k) == Some(w) && restore(w) == Works
    ensures Restore(resolve, files, [k], map[k := content], restore) == Restored(Put(files, w, content), true)
  {
    var one := [k];
    assert one[..|one| - 1] == [];
  }

  lemma {:induction false} FirstWrite(resolve: Resolver, files: Files, path: string, content: string, q: string,
                                      write: nat -> Io)
    requires path != "" && Strip(path) == path && resolve(path) == Some(q) && write(0) == Works
    ensures var ops := [WriteOp(path, content)];
            OpTargets(ops) == [path]
            && ApplyOps(resolve, files, ops, write) == Applied(files[q := content], [q], ["write_file"], NoError)
  {
    var op := WriteOp(path, content);
    WriteOpView(path, content);
    ApplyNext(resolve, files, [], op, write);
    ApplyOneView(resolve, Applied(files, [], [], NoError), op, 1, Works);
    assert [] + [op] == [op] && OpTargets([]) + [path] == [path];
  }

  lemma {:induction false} FailingApply(resolve: Resolver, files: Files, path: string, content: string, q: string,
                                        write: nat -> Io)
    requires path != "" && Strip(path) == path && resolve(path) == Some(q) && write(0) == Works
    ensures var ops := FailingOps(path, content);
            && OpTargets(ops) == [path]
            && ApplyOps(resolve, files, ops, write)
               == Applied(files[q := content], [q], ["write_file"], NotAnObjectAt(2))
  {
    FirstWrite(resolve, files, path, content, q, write);
    ApplyNext(resolve, files, [WriteOp(path, content)], NotAnObject, write);
    assert [path] + [] == [path];
  }

  /** Such a run puts what the snapshot has for the path resolved twice where that path leads, the third time; its
      rollback reports ok. */
  lemma {:induction false} FailedWrite(resolve: Resolver, files: Files, path: string, content: string, q: string,
                                       r: string, w: string, env: Conditions)
    requires Chain(resolve, path, q, r, w) && Faultless(env, w)
    ensures Transaction(resolve, files, FailingOps(path, content), [], env)
            == Result(Put(files[q := content], w, Read(files, r)),
                      if env.failRead(0) then Raised(AfterRollback(true))
                      else Report(false, [q], true, true, NotAnObjectAt(2)))
  {
    var ops := FailingOps(path, content);
    FailingApply(resolve, files, path, content, q, env.write);
    assert Touched(ops, []) == [path];
    CapturedSingle(resolve, files, path, env.preRead);
    CapturedSingle(resolve, files, q, env.preRead);
    var pre := Snapshot([r], map[r := Read(files, r)]);
    var changed := files[q := content];
    RestoreSingle(resolve, changed, r, w, Read(files, r), env.restore);
    CapturedSingle(resolve, Put(changed, w, Read(files, r)), q, env.failRead);
  }

  /** Its rollback reports ok. It leaves no trace exactly if the third resolution is the first, or the file had
      the written content before, and the files at the second and the third have the same content. Where the
      third differs from the first, the write stays, and the file at the third, which no operation names, gets
      the content of the second, or is deleted with it. */
  lemma {:induction false} FailedWriteTraces(resolve: Resolver, files: Files, path: string, content: string, q: string,
                                             r: string, w: string, env: Conditions)
    requires Chain(resolve, path, q, r, w) && Faultless(env, w)
    ensures var o := Transaction(resolve, files, FailingOps(path, content), [], env);
            && o.report == (if env.failRead(0) then Raised(AfterRollback(true))
                            else Report(false, [q], true, true, NotAnObjectAt(2)))
            && (o.files == files <==>
                (w == q || Read(files, q) == Some(content)) && Read(files, r) == Read(files, w))
            && (w != q ==> Read(o.files, q) == Some(content) && Read(o.files, w) == Read(files, r))
  {
    FailedWrite(resolve, files, path, content, q, r, w, env);
    var u := Put(files[q := content], w, Read(files, r));
    forall x ensures Read(u, x) == if x == w then Read(files, r) else if x == q then Some(content) else Read(files, x) {
      ReadPut(files[q := content], w, Read(files, r), x);
    }
    if (w == q || Read(files, q) == Some(content)) && Read(files, r) == Read(files, w) {
      SameReads(u, files);
    }
  }

  /* ---- POSIX paths ---- */

  /** `Resolve` in one workspace. */
  function PosixResolver(ws: seq<string>): Resolver {
    t => WorkspacePaths.Resolve(ws, t)
  }

  /** The path does not resolve to one with a trailing blank. */
  predicate NoTrailingBlank(ws: seq<string>, text: string) {
    var p := WorkspacePaths.Resolve(ws, text);
    p.Some? ==> Strip(p.value) == p.value
  }

  /** On POSIX paths without symbolic links: the transaction is all-or-nothing if no operation's path resolves to
      one with a trailing blank, and no touched path does so when resolved twice. */
  lemma {:induction false} PosixAllOrNothing(ws: seq<string>, files: Files, ops: seq<PatchOp>, hints: seq<string>,
                                             env: Conditions)
    requires WorkspacePaths.AllClean(ws)
    requires forall t :: t in OpTargets(ops) ==> NoTrailingBlank(ws, t)
    requires forall t :: t in Touched(ops, hints) && WorkspacePaths.Resolve(ws, t).Some? ==>
               NoTrailingBlank(ws, WorkspacePaths.Resolve(ws, t).value)
    ensures Atomic(PosixResolver(ws), files, ops, hints, env)
  {
    var resolve := PosixResolver(ws);
    forall t | t in OpTargets(ops) ensures Stable(resolve, t) {
      BlankFreeStable(ws, t);
    }
    forall t | t in Touched(ops, hints) && resolve(t).Some? ensures Stable(resolve, resolve(t).value) {
      BlankFreeStable(ws, resolve(t).value);
    }
    TransactionAllOrNothing(resolve, files, ops, hints, env);
  }

  lemma {:induction false} BlankFreeStable(ws: seq<string>, t: string)
    requires WorkspacePaths.AllClean(ws) && NoTrailingBlank(ws, t)
    ensures Stable(PosixResolver(ws), t)
  {
    if WorkspacePaths.Resolve(ws, t).Some? {
      WorkspacePaths.ResolvedAgain(ws, t);
    }
  }

  /** In every workspace, writing to "name /." and then failing leaves the file "name " behind. */
  lemma {:induction false} TrailingBlankEscapes(ws: seq<string>, name: string, files: Files, content: string,
                                                env: Conditions)
    requires WorkspacePaths.AllClean(ws) && WorkspacePaths.Plain(name)
    requires Faultless(env, WorkspacePaths.Text(ws + [name])) && !env.failRead(0)
    requires Read(files, WorkspacePaths.Text(ws + [name + " "])) != Some(content)
    ensures var q := WorkspacePaths.Text(ws + [name + " "]);
            var o := Transaction(PosixResolver(ws), files, FailingOps(name + " /.", content), [], env);
            && o.report == Report(false, [q], true, true, NotAnObjectAt(2))
            && o.files != files && Read(o.files, q) == Some(content)
  {
    var q, r := WorkspacePaths.Text(ws + [name + " "]), WorkspacePaths.Text(ws + [name]);
    WorkspacePaths.TrailingBlankPath(ws, name);
    WorkspacePaths.TrailingBlankLost(ws, name);
    var path := name + " /.";
    assert LStrip(path) == path && RStrip(path) == path;
    FailedWriteTraces(PosixResolver(ws), files, path, content, q, r, r, env);
  }

  /** In every workspace, writing to "name /. /." and then failing deletes the file "name", which no operation
      names, if there is no file "name ". The rollback reports ok. */
  lemma {:induction false} RollbackDeletesAnother(ws: seq<string>, name: string, files: Files, content: string,
                                                  env: Conditions)
    requires WorkspacePaths.AllClean(ws) && WorkspacePaths.Plain(name)
    requires Faultless(env, WorkspacePaths.Text(ws + [name]))
    requires WorkspacePaths.Text(ws + [name + " "]) !in files
    ensures var w := WorkspacePaths.Text(ws + [name]);
            var o := Transaction(PosixResolver(ws), files, FailingOps(name + " /. /.", content), [], env);
            && (o.report.Raised? ==> o.report.stage == AfterRollback(true))
            && (o.report.Report? ==> !o.report.success && o.report.rollbackOk)
            && w !in o.files && (w in files ==> o.files != files)
  {
    var path, q, r, w := WorkspacePaths.TwiceBlankPath(ws, name);
    FailedWriteTraces(PosixResolver(ws), files, path, content, q, r, w, env);
    assert Read(files, r) == None;
    assert Read(Transaction(PosixResolver(ws), files, FailingOps(path, content), [], env).files, w) == None;
  }
}
