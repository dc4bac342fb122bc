/** The patch transaction itself (agentlib/patch_executor.py): the objects that update the workspace's files in
    place, each method proved against the functions of PatchSpec. */
module PatchTransaction {
  import opened PyText
  import opened Schemas
  import opened PatchSpec
  import opened PatchContents

  class Workspace {
    const resolve: Resolver
    var files: Files

    constructor (resolve: Resolver, files: Files)
      ensures this.resolve == resolve && this.files == files
    {
      this.resolve, this.files := resolve, files;
    }
  }

  class RollbackManager {
    const ws: Workspace

    constructor (ws: Workspace)
      ensures this.ws == ws
    {
      this.ws := ws;
    }

    /** `capture`: None if it raises. */
    method Capture(paths: seq<string>, fails: nat -> bool) returns (snapshot: Option<Snapshot>)
      ensures snapshot == Captured(ws.resolve, ws.files, paths, fails)
      ensures snapshot.Some? ==> Sound(snapshot.value)
    {
      var out := Snapshot([], map[]);
      for k := 0 to |paths|
        invariant Captured(ws.resolve, ws.files, paths[..k], fails) == Some(out)
      {
        assert paths[..k + 1][..k] == paths[..k];
        var p := ws.resolve(paths[k]);
        if p.None? || fails(k) {
          CaptureStaysNone(k + 1, paths, fails);
          return None;
        }
        out := Recorded(out, p.value, Read(ws.files, p.value));
      }
      assert paths[..|paths|] == paths;
      CapturedSound(ws.resolve, ws.files, paths, fails);
      return Some(out);
    }

    lemma {:induction false} CaptureStaysNone(k: nat, paths: seq<string>, fails: nat -> bool)
      requires k <= |paths| && Captured(ws.resolve, ws.files, paths[..k], fails).None?
      ensures Captured(ws.resolve, ws.files, paths, fails).None?
      decreases |paths| - k
    {
      if k < |paths| {
        assert paths[..k + 1][..k] == paths[..k];
        CaptureStaysNone(k + 1, paths, fails);
      } else {
        assert paths[..k] == paths;
      }
    }

    /** `rollback`: goes on after an error. */
    method Rollback(snapshot: Snapshot, restore: string -> Io) returns (ok: bool)
      requires Sound(snapshot)
      modifies ws
      ensures Restored(ws.files, ok) == Restore(ws.resolve, old(ws.files), snapshot.order, snapshot.items, restore)
    {
      ok := true;
      var order := snapshot.order;
      for k := 0 to |order|
        invariant Restored(ws.files, ok) == Restore(ws.resolve, old(ws.files), order[..k], snapshot.items, restore)
      {
        assert order[..k + 1][..k] == order[..k];
        var p := ws.resolve(order[k]);
        if p.None? {
          ok := false;
          continue;
        }
        match restore(p.value) {
          case Works =>
            ws.files := Put(ws.files, p.value, snapshot.items[order[k]]);
          case Fails(leftover) =>
            ws.files := Put(ws.files, p.value, leftover);
            ok := false;
        }
      }
      assert order[..|order|] == order;
    }
  }

  class PatchExecutor {
    const ws: Workspace

    constructor (ws: Workspace)
      ensures this.ws == ws
    {
      this.ws := ws;
    }

    /** One turn of the loop of `apply`: its error, or the path that was changed. */
    method ApplyOp(op: PatchOp, idx: nat, write: Io) returns (error: PatchError, changed: string)
      modifies ws
      ensures error == NoError ==> op.PatchOp?
      ensures forall a: Applied :: a.files == old(ws.files) && a.error == NoError ==>
                ApplyOne(ws.resolve, a, op, idx, write)
                == if error == NoError then Applied(ws.files, a.changed + [changed], a.kinds + [Kind(op)], NoError)
                   else a.(files := ws.files, error := error)
    {
      changed := "";
      if op.NotAnObject? {
        return NotAnObjectAt(idx), changed;
      }
      var kind, target := Kind(op), Target(op);
      if kind == "" || target == "" {
        return MissingFieldsAt(idx), changed;
      }
      var p := ws.resolve(target);
      if p.None? {
        return OutsideWorkspace, changed;
      }
      if !Supported(kind) {
        return UnsupportedOp(kind), changed;
      }
      match write {
        case Fails(leftover) =>
          ws.files := Put(ws.files, p.value, leftover);
          return IoError, changed;
        case Works =>
          ws.files := Put(ws.files, p.value, Effect(op, Read(ws.files, p.value)));
          return NoError, p.value;
      }
    }

    /** `apply`. */
    method Apply(ops: seq<PatchOp>, write: nat -> Io) returns (changed: seq<string>, kinds: seq<string>,
                 error: PatchError)
      modifies ws
      ensures Applied(ws.files, changed, kinds, error) == AppliedAll(ws.resolve, old(ws.files), ops, write)
      ensures error == NoError ==>
                forall q :: Content(ws.resolve, ops, q, Read(old(ws.files), q), Read(ws.files, q))
    {
      changed, kinds, error := [], [], NoError;
      for k := 0 to |ops|
        invariant error == NoError
        invariant Applied(ws.files, changed, kinds, error) == ApplyOps(ws.resolve, old(ws.files), ops[..k], write)
      {
        assert ops[..k + 1][..k] == ops[..k];
        var path;
        error, path := ApplyOp(ops[k], k + 1, write(k));
        if error != NoError {
          assert Applied(ws.files, changed, kinds, error) == ApplyOps(ws.resolve, old(ws.files), ops[..k + 1], write);
          ErrorStays(ws.resolve, old(ws.files), k + 1, ops, write);
          return;
        }
        changed, kinds := changed + [path], kinds + [Kind(ops[k])];
      }
      assert ops[..|ops|] == ops;
      changed := FirstOccurrences(changed);
      forall q ensures Content(ws.resolve, ops, q, Read(old(ws.files), q), Read(ws.files, q)) {
        ApplyContents(ws.resolve, old(ws.files), ops, write, q);
      }
    }

    /** The loop with the `seen` set. */
    method FirstOccurrences(xs: seq<string>) returns (uniq: seq<string>)
      ensures uniq == Unique(xs)
    {
      uniq := [];
      var seen: set<string> := {};
      for k := 0 to |xs|
        invariant uniq == Unique(xs[..k])
        invariant forall x :: x in seen <==> x in uniq
      {
        assert xs[..k + 1][..k] == xs[..k];
        if xs[k] in seen {
          continue;
        }
        seen := seen + {xs[k]};
        uniq := uniq + [xs[k]];
      }
      assert xs[..|xs|] == xs;
    }
  }

  class PatchExecutionTransaction {
    const ws: Workspace
    const rollbackManager: RollbackManager
    const executor: PatchExecutor

    constructor (ws: Workspace)
      ensures this.ws == ws && Valid()
    {
      this.ws := ws;
      rollbackManager := new RollbackManager(ws);
      executor := new PatchExecutor(ws);
    }

    /** Both helpers work on the transaction's workspace. */
    predicate Valid()
    {
      rollbackManager.ws == ws && executor.ws == ws
    }

    /** The path texts of the operations and the hints. */
    method CollectTouched(ops: seq<PatchOp>, hints: seq<string>) returns (touched: seq<string>)
      ensures touched == Touched(ops, hints)
    {
      touched := [];
      for k := 0 to |ops|
        invariant touched == OpTargets(ops[..k])
      {
        OpTargetsNext(ops, k);
        var t := Target(ops[k]);
        if t != "" {
          touched := touched + [t];
        }
      }
      assert ops[..|ops|] == ops;
      touched := touched + NonBlank(hints);
    }

    /** The loop that resolves the touched paths: None at the first one outside the workspace. */
    method ResolveTouched(touched: seq<string>) returns (paths: Option<seq<string>>)
      ensures paths == ResolveAll(ws.resolve, touched)
    {
      var done: seq<string> := [];
      for k := 0 to |touched|
        invariant ResolveAll(ws.resolve, touched[..k]) == Some(done)
      {
        assert touched[..k + 1][..k] == touched[..k];
        var p := ws.resolve(touched[k]);
        if p.None? {
          ResolveAllIs(ws.resolve, touched);
          assert touched[k] in touched;
          return None;
        }
        done := done + [p.value];
      }
      assert touched[..|touched|] == touched;
      return Some(done);
    }

    method RunPrepared(ops: seq<PatchOp>, paths: seq<string>, pre: Snapshot, env: Conditions) returns (report: Report)
      requires Valid() && Sound(pre)
      modifies ws
      ensures Result(ws.files, report) == Execute(ws.resolve, old(ws.files), ops, paths, pre, env)
    {
      var changed, error := paths, NoError;
      if ops != [] {
        var kinds;
        changed, kinds, error := executor.Apply(ops, env.write);
      }
      if error != NoError {
        var ok := rollbackManager.Rollback(pre, env.restore);
        var after := rollbackManager.Capture(paths, env.failRead);
        return if after.None? then Raised(AfterRollback(ok)) else Report(false, changed, true, ok, error);
      }
      var post := rollbackManager.Capture(paths, env.postRead);
      if post.None? {
        return Raised(AfterApply);
      }
      changed := NonBlank(changed);
      if env.verify(ws.files, if changed != [] then changed else paths) {
        return Report(true, changed, false, true, NoError);
      }
      var ok := rollbackManager.Rollback(pre, env.restore);
      return Report(false, changed, true, ok, VerifyFailed);
    }

    /** `run`. */
    method Run(ops: seq<PatchOp>, hints: seq<string>, env: Conditions) returns (report: Report)
      requires Valid()
      modifies ws
      ensures Result(ws.files, report) == Transaction(ws.resolve, old(ws.files), ops, hints, env)
      ensures Touched(ops, hints) != [] && report.Report? && report.success ==>
                forall q :: Content(ws.resolve, ops, q, Read(old(ws.files), q), Read(ws.files, q))
    {
      var touched := CollectTouched(ops, hints);
      if touched == [] {
        return Report(true, [], false, true, NoError);
      }
      var paths := ResolveTouched(touched);
      if paths.None? {
        return Report(false, [], false, false, OutsideWorkspace);
      }
      var pre := rollbackManager.Capture(paths.value, env.preRead);
      if pre.None? {
        return Raised(BeforeApply);
      }
      report := RunPrepared(ops, paths.value, pre.value, env);
      if report.Report? && report.success {
        forall q ensures Content(ws.resolve, ops, q, Read(old(ws.files), q), Read(ws.files, q)) {
          TransactionContents(ws.resolve, old(ws.files), ops, hints, env, q);
        }
      }
    }
  }
}
