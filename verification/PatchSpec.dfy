/** The patch transaction (agentlib/patch_executor.py) as functions on the file map. Paths are resolved by an
    arbitrary function; every read, write and restore may fail, and a failed write may leave anything behind. */
module PatchSpec {
  import opened PyText
  import opened Schemas

  type Files = map<string, string>
  type Resolver = string -> Option<string>

  /** One patch operation as the caller wrote it; absent fields are "". */
  datatype PatchOp = NotAnObject | PatchOp(
    op: string, path: string, targetPath: string, filePath: string, content: string, text: string)

  datatype PatchError =
    | NoError | NotAnObjectAt(idx: nat) | MissingFieldsAt(idx: nat) | OutsideWorkspace
    | UnsupportedOp(kind: string) | IoError | VerifyFailed

  /** An outcome of an I/O operation on one file: done, or failed leaving the given content (None: no file). */
  datatype Io = Works | Fails(leftover: Option<string>)

  datatype Conditions = Conditions(
    preRead: nat -> bool,              // whether the k-th read of a capture fails: before applying,
    postRead: nat -> bool,             // after applying,
    failRead: nat -> bool,             // after a rollback
    write: nat -> Io,                  // the k-th operation
    restore: string -> Io,             // restoring a path
    verify: (Files, seq<string>) -> bool)

  function Read(files: Files, p: string): Option<string> {
    if p in files then Some(files[p]) else None
  }

  function Put(files: Files, p: string, content: Option<string>): Files {
    if content.Some? then files[p := content.value] else files - {p}
  }

  lemma {:induction false} ReadPut(files: Files, p: string, content: Option<string>, q: string)
    ensures Read(Put(files, p, content), q) == if q == p then content else Read(files, q)
  {}

  lemma {:induction false} SameReads(a: Files, b: Files)
    requires forall q :: Read(a, q) == Read(b, q)
    ensures a == b
  {
    forall q ensures q in a <==> q in b {
      assert Read(a, q) == Read(b, q);
    }
    forall q | q in a ensures a[q] == b[q] {
      assert Read(a, q) == Read(b, q);
    }
  }

  /* ---- snapshots ---- */

  /** A captured dict: its keys in insertion order, and for each the content or None. */
  datatype Snapshot = Snapshot(order: seq<string>, items: map<string, Option<string>>)

  function Recorded(s: Snapshot, p: string, content: Option<string>): Snapshot {
    Snapshot(if p in s.items then s.order else s.order + [p], s.items[p := content])
  }

  /** `capture`: None if it raises. */
  function Captured(resolve: Resolver, files: Files, paths: seq<string>, fails: nat -> bool): Option<Snapshot> {
    if paths == [] then Some(Snapshot([], map[]))
    else
      var n := |paths| - 1;
      var s := Captured(resolve, files, paths[..n], fails);
      if s.None? || resolve(paths[n]).None? || fails(n) then None
      else Some(Recorded(s.value, resolve(paths[n]).value, Read(files, resolve(paths[n]).value)))
  }

  datatype Restored = Restored(files: Files, ok: bool)

  function RestoreOne(resolve: Resolver, r: Restored, key: string, content: Option<string>,
                      restore: string -> Io): Restored {
    match resolve(key)
    case None => r.(ok := false)
    case Some(p) =>
      match restore(p)
      case Works => r.(files := Put(r.files, p, content))
      case Fails(leftover) => Restored(Put(r.files, p, leftover), false)
  }

  /** `rollback`, entry by entry. */
  function Restore(resolve: Resolver, files: Files, order: seq<string>, items: map<string, Option<string>>,
                   restore: string -> Io): Restored
    requires forall k :: k in order ==> k in items
  {
    if order == [] then Restored(files, true)
    else
      var n := |order| - 1;
      RestoreOne(resolve, Restore(resolve, files, order[..n], items, restore), order[n], items[order[n]], restore)
  }

  /* ---- operations ---- */

  function Kind(op: PatchOp): string
    requires op.PatchOp?
  {
    Lower(Strip(op.op))
  }

  function Target(op: PatchOp): string {
    if op.NotAnObject? then "" else Strip(OrText(op.path, OrText(op.targetPath, op.filePath)))
  }

  predicate Writes(kind: string) {
    kind in {"replace_file", "write_file"}
  }

  predicate Supported(kind: string) {
    Writes(kind) || kind in {"append_file", "delete_file"}
  }

  /** What an operation makes of the content of its target. */
  function Effect(op: PatchOp, before: Option<string>): Option<string>
    requires op.PatchOp?
  {
    var content := OrText(op.content, op.text);
    if Writes(Kind(op)) then Some(content)
    else if Kind(op) == "append_file" then Some((if before.Some? then before.value else "") + content)
    else None
  }

  datatype Applied = Applied(files: Files, changed: seq<string>, kinds: seq<string>, error: PatchError)

  function ApplyOne(resolve: Resolver, a: Applied, op: PatchOp, idx: nat, write: Io): Applied {
    if op.NotAnObject? then a.(error := NotAnObjectAt(idx))
    else if Kind(op) == "" || Target(op) == "" then a.(error := MissingFieldsAt(idx))
    else match resolve(Target(op))
      case None => a.(error := OutsideWorkspace)
      case Some(p) =>
        if !Supported(Kind(op)) then a.(error := UnsupportedOp(Kind(op)))
        else match write
          case Works =>
            Applied(Put(a.files, p, Effect(op, Read(a.files, p))), a.changed + [p], a.kinds + [Kind(op)], NoError)
          case Fails(leftover) => a.(files := Put(a.files, p, leftover), error := IoError)
  }

  /** The loop of `apply`. */
  function ApplyOps(resolve: Resolver, files: Files, ops: seq<PatchOp>, write: nat -> Io): Applied {
    if ops == [] then Applied(files, [], [], NoError)
    else
      var n := |ops| - 1;
      var a := ApplyOps(resolve, files, ops[..n], write);
      if a.error != NoError then a else ApplyOne(resolve, a, ops[n], n + 1, write(n))
  }

  /** The first occurrences. */
  function Unique(xs: seq<string>): (r: seq<string>)
    ensures forall x :: x in r <==> x in xs
    ensures forall j, k :: 0 <= j < k < |r| ==> r[j] != r[k]
  {
    if xs == [] then []
    else
      var rest := Unique(xs[..|xs| - 1]);
      assert xs == xs[..|xs| - 1] + [xs[|xs| - 1]];
      if xs[|xs| - 1] in rest then rest else rest + [xs[|xs| - 1]]
  }

  function AppliedAll(resolve: Resolver, files: Files, ops: seq<PatchOp>, write: nat -> Io): Applied {
    var a := ApplyOps(resolve, files, ops, write);
    if a.error == NoError then a.(changed := Unique(a.changed)) else a
  }

  /* ---- the transaction ---- */

  function OpTargets(ops: seq<PatchOp>): seq<string> {
    if ops == [] then []
    else
      var t := Target(ops[|ops| - 1]);
      OpTargets(ops[..|ops| - 1]) + (if t == "" then [] else [t])
  }

  lemma {:induction false} OpTargetsNext(ops: seq<PatchOp>, k: nat)
    requires k < |ops|
    ensures OpTargets(ops[..k + 1]) == OpTargets(ops[..k]) + (if Target(ops[k]) == "" then [] else [Target(ops[k])])
  {
    assert ops[..k + 1][..k] == ops[..k];
  }

  function Touched(ops: seq<PatchOp>, hints: seq<string>): seq<string> {
    OpTargets(ops) + NonBlank(hints)
  }

  function ResolveAll(resolve: Resolver, texts: seq<string>): Option<seq<string>> {
    if texts == [] then Some([])
    else
      var r := ResolveAll(resolve, texts[..|texts| - 1]);
      var p := resolve(texts[|texts| - 1]);
      if r.None? || p.None? then None else Some(r.value + [p.value])
  }

  /** Where `run` raised, and after a rollback whether that reported ok. */
  datatype Stage = BeforeApply | AfterApply | AfterRollback(ok: bool)

  /** What `run` returns, or where it raised. */
  datatype Report =
    | Raised(stage: Stage)
    | Report(success: bool, changed: seq<string>, triggered: bool, rollbackOk: bool, error: PatchError)

  datatype Result = Result(files: Files, report: Report)

  function Undone(resolve: Resolver, files: Files, pre: Snapshot, env: Conditions): Restored
    requires forall k :: k in pre.order ==> k in pre.items
  {
    Restore(resolve, files, pre.order, pre.items, env.restore)
  }

  ghost predicate Sound(s: Snapshot) {
    forall k :: k in s.order <==> k in s.items
  }

  /** `apply`, unless there is nothing to apply. */
  function Attempt(resolve: Resolver, files: Files, ops: seq<PatchOp>, paths: seq<string>, write: nat -> Io): Applied {
    if ops == [] then Applied(files, paths, [], NoError) else AppliedAll(resolve, files, ops, write)
  }

  /** The part of `run` after a failed `apply`. */
  function AfterFailure(resolve: Resolver, a: Applied, paths: seq<string>, pre: Snapshot, env: Conditions): Result
    requires forall k :: k in pre.order ==> k in pre.items
  {
    var r := Undone(resolve, a.files, pre, env);
    if Captured(resolve, r.files, paths, env.failRead).None? then Result(r.files, Raised(AfterRollback(r.ok)))
    else Result(r.files, Report(false, a.changed, true, r.ok, a.error))
  }

  /** The part of `run` after a successful `apply`. */
  function AfterSuccess(resolve: Resolver, a: Applied, paths: seq<string>, pre: Snapshot, env: Conditions): Result
    requires forall k :: k in pre.order ==> k in pre.items
  {
    var changed := NonBlank(a.changed);
    if Captured(resolve, a.files, paths, env.postRead).None? then Result(a.files, Raised(AfterApply))
    else if env.verify(a.files, if changed != [] then changed else paths) then
      Result(a.files, Report(true, changed, false, true, NoError))
    else
      var r := Undone(resolve, a.files, pre, env);
      Result(r.files, Report(false, changed, true, r.ok, VerifyFailed))
  }

  /** The part of `run` after the snapshot. */
  function Execute(resolve: Resolver, files: Files, ops: seq<PatchOp>, paths: seq<string>, pre: Snapshot,
                   env: Conditions): Result
    requires forall k :: k in pre.order ==> k in pre.items
  {
    var a := Attempt(resolve, files, ops, paths, env.write);
    if a.error != NoError then AfterFailure(resolve, a, paths, pre, env) else AfterSuccess(resolve, a, paths, pre, env)
  }

  lemma {:induction false} CapturedSound(resolve: Resolver, files: Files, paths: seq<string>, fails: nat -> bool)
    ensures var s := Captured(resolve, files, paths, fails); s.Some? ==> Sound(s.value)
  {
    if paths != [] {
      CapturedSound(resolve, files, paths[..|paths| - 1], fails);
    }
  }

  /** `run`. */
  function Transaction(resolve: Resolver, files: Files, ops: seq<PatchOp>, hints: seq<string>,
                       env: Conditions): Result {
    var touched := Touched(ops, hints);
    if touched == [] then Result(files, Report(true, [], false, true, NoError))
    else match ResolveAll(resolve, touched)
      case None => Result(files, Report(false, [], false, false, OutsideWorkspace))
      case Some(paths) =>
        var pre := Captured(resolve, files, paths, env.preRead);
        CapturedSound(resolve, files, paths, env.preRead);
        if pre.None? then Result(files, Raised(BeforeApply))
        else Execute(resolve, files, ops, paths, pre.value, env)
  }

  /* ---- what the parts do ---- */

  /** The file map with all operations performed. */
  function Folded(resolve: Resolver, files: Files, ops: seq<PatchOp>): Files {
    if ops == [] then files
    else
      var n := |ops| - 1;
      var before := Folded(resolve, files, ops[..n]);
      if ops[n].PatchOp? && resolve(Target(ops[n])).Some? then
        var p := resolve(Target(ops[n])).value;
        Put(before, p, Effect(ops[n], Read(before, p)))
      else before
  }

  /** The content of one file under the operations aimed at it. */
  function ContentAfter(resolve: Resolver, q: string, start: Option<string>, ops: seq<PatchOp>): Option<string> {
    if ops == [] then start
    else
      var before := ContentAfter(resolve, q, start, ops[..|ops| - 1]);
      var op := ops[|ops| - 1];
      if op.PatchOp? && resolve(Target(op)) == Some(q) then Effect(op, before) else before
  }

  /** The fold treats the files independently of each other. */
  lemma {:induction false} FoldedPerFile(resolve: Resolver, files: Files, ops: seq<PatchOp>, q: string)
    ensures Read(Folded(resolve, files, ops), q) == ContentAfter(resolve, q, Read(files, q), ops)
  {
    if ops != [] {
      FoldedPerFile(resolve, files, ops[..|ops| - 1], q);
    }
  }

  /** The operation can be performed. */
  predicate Executable(resolve: Resolver, op: PatchOp) {
    op.PatchOp? && Kind(op) != "" && Target(op) != "" && resolve(Target(op)).Some? && Supported(Kind(op))
  }

  ghost predicate AllExecutable(resolve: Resolver, ops: seq<PatchOp>, write: nat -> Io) {
    forall k :: 0 <= k < |ops| ==> Executable(resolve, ops[k]) && write(k) == Works
  }

  lemma {:induction false} ApplyOneView(resolve: Resolver, a: Applied, op: PatchOp, idx: nat, write: Io)
    requires a.error == NoError
    ensures var r := ApplyOne(resolve, a, op, idx, write);
            var p := resolve(Target(op));
            && (r.error == NoError <==> Executable(resolve, op) && write == Works)
            && (r.error == NoError ==> r.files == Put(a.files, p.value, Effect(op, Read(a.files, p.value)))
                                       && r.changed == a.changed + [p.value] && r.kinds == a.kinds + [Kind(op)])
            && (r.error != NoError ==> r.changed == a.changed && r.kinds == a.kinds)
            && (r.files == a.files || (Target(op) != "" && p.Some? && exists c :: r.files == Put(a.files, p.value, c)))
            && (r.error == OutsideWorkspace <==> op.PatchOp? && Kind(op) != "" && Target(op) != "" && p.None?)
  {}

  /** `apply` succeeds exactly if every operation can be performed and no write fails, and then it has
      performed them all. */
  lemma {:induction false} ApplySucceedsIff(resolve: Resolver, files: Files, ops: seq<PatchOp>, write: nat -> Io)
    ensures var a := ApplyOps(resolve, files, ops, write);
            && (a.error == NoError <==> AllExecutable(resolve, ops, write))
            && (a.error == NoError ==> a.files == Folded(resolve, files, ops) && |a.kinds| == |a.changed| == |ops|)
  {
    if ops != [] {
      var n := |ops| - 1;
      ApplySucceedsIff(resolve, files, ops[..n], write);
      var a := ApplyOps(resolve, files, ops[..n], write);
      if a.error == NoError {
        ApplyOneView(resolve, a, ops[n], n + 1, write(n));
        AllButLast(resolve, ops, write);
      } else {
        AllButLast(resolve, ops, write);
      }
    }
  }

  lemma {:induction false} AllButLast(resolve: Resolver, ops: seq<PatchOp>, write: nat -> Io)
    requires ops != []
    ensures var n := |ops| - 1;
            AllExecutable(resolve, ops, write) <==>
              AllExecutable(resolve, ops[..n], write) && Executable(resolve, ops[n]) && write(n) == Works
  {
    var n := |ops| - 1;
    forall k | 0 <= k < n ensures ops[..n][k] == ops[k] {}
    if AllExecutable(resolve, ops[..n], write) && Executable(resolve, ops[n]) && write(n) == Works {
      forall k | 0 <= k < |ops| ensures Executable(resolve, ops[k]) && write(k) == Works {
        if k < n { assert Executable(resolve, ops[..n][k]); }
      }
    }
  }

  lemma {:induction false} ApplyNext(resolve: Resolver, files: Files, ops: seq<PatchOp>, op: PatchOp, write: nat -> Io)
    ensures var a := ApplyOps(resolve, files, ops, write);
            ApplyOps(resolve, files, ops + [op], write)
            == if a.error != NoError then a else ApplyOne(resolve, a, op, |ops| + 1, write(|ops|))
    ensures OpTargets(ops + [op]) == OpTargets(ops) + (if Target(op) == "" then [] else [Target(op)])
  {
    assert (ops + [op])[..|ops|] == ops;
  }

  /** `apply` stops at the first error. */
  lemma {:induction false} ErrorStays(resolve: Resolver, files: Files, k: nat, ops: seq<PatchOp>, write: nat -> Io)
    requires k <= |ops| && ApplyOps(resolve, files, ops[..k], write).error != NoError
    ensures ApplyOps(resolve, files, ops, write) == ApplyOps(resolve, files, ops[..k], write)
    decreases |ops| - k
  {
    if k < |ops| {
      assert ops[..k + 1][..k] == ops[..k];
      ErrorStays(resolve, files, k + 1, ops, write);
    } else {
      assert ops[..k] == ops;
    }
  }

  /** Operation `i` and all before it can be performed: only such operations ever write. */
  predicate Reached(resolve: Resolver, ops: seq<PatchOp>, i: nat) {
    i < |ops| && forall j :: 0 <= j <= i ==> Executable(resolve, ops[j])
  }

  /** Some operation that is reached writes to `q`. */
  ghost predicate Aimed(resolve: Resolver, ops: seq<PatchOp>, q: string) {
    exists i: nat :: Reached(resolve, ops, i) && resolve(Target(ops[i])) == Some(q)
  }

  /** Whatever fails, only the targets of the operations before the first impossible one change. */
  lemma {:induction false} ApplyFrame(resolve: Resolver, files: Files, ops: seq<PatchOp>, write: nat -> Io, q: string)
    requires !Aimed(resolve, ops, q)
    ensures Read(ApplyOps(resolve, files, ops, write).files, q) == Read(files, q)
  {
    if ops != [] {
      var n := |ops| - 1;
      NotAimedBefore(resolve, ops, q);
      ApplyFrame(resolve, files, ops[..n], write, q);
      var a := ApplyOps(resolve, files, ops[..n], write);
      if a.error == NoError {
        ApplySucceedsIff(resolve, files, ops[..n], write);
        if Executable(resolve, ops[n]) {
          AllReached(resolve, ops, write);
        }
        OneFrame(resolve, a, ops[n], n + 1, write(n), q);
      }
    }
  }

  lemma {:induction false} OneFrame(resolve: Resolver, a: Applied, op: PatchOp, idx: nat, write: Io, q: string)
    requires Executable(resolve, op) ==> resolve(Target(op)) != Some(q)
    ensures Read(ApplyOne(resolve, a, op, idx, write).files, q) == Read(a.files, q)
  {}

  lemma {:induction false} NotAimedBefore(resolve: Resolver, ops: seq<PatchOp>, q: string)
    requires ops != [] && !Aimed(resolve, ops, q)
    ensures !Aimed(resolve, ops[..|ops| - 1], q)
  {
    forall i: nat | Reached(resolve, ops[..|ops| - 1], i) ensures Reached(resolve, ops, i) {
      forall j | 0 <= j <= i ensures Executable(resolve, ops[j]) {
        assert Executable(resolve, ops[..|ops| - 1][j]);
      }
    }
  }

  lemma {:induction false} AllReached(resolve: Resolver, ops: seq<PatchOp>, write: nat -> Io)
    requires ops != [] && AllExecutable(resolve, ops[..|ops| - 1], write) && Executable(resolve, ops[|ops| - 1])
    ensures Reached(resolve, ops, |ops| - 1)
  {
    forall j | 0 <= j <= |ops| - 1 ensures Executable(resolve, ops[j]) {
      if j < |ops| - 1 {
        assert Executable(resolve, ops[..|ops| - 1][j]);
      }
    }
  }

  /** A path is captured under its resolution. */
  lemma {:induction false} CapturedHas(resolve: Resolver, files: Files, paths: seq<string>, fails: nat -> bool,
                                       k: string)
    requires Captured(resolve, files, paths, fails).Some?
    ensures var s := Captured(resolve, files, paths, fails).value;
            && (k in s.items <==> exists p :: p in paths && resolve(p) == Some(k))
            && (k in s.items ==> s.items[k] == Read(files, k))
  {
    if paths != [] {
      var n := |paths| - 1;
      var last := resolve(paths[n]).value;
      var before := Captured(resolve, files, paths[..n], fails).value;
      CapturedHas(resolve, files, paths[..n], fails, k);
      assert Captured(resolve, files, paths, fails) == Some(Recorded(before, last, Read(files, last)));
      assert paths == paths[..n] + [paths[n]];
    }
  }

  /** A capture returns exactly if every path resolves and can be read. */
  lemma {:induction false} CapturedIff(resolve: Resolver, files: Files, paths: seq<string>, fails: nat -> bool)
    ensures Captured(resolve, files, paths, fails).Some?
            <==> forall k :: 0 <= k < |paths| ==> resolve(paths[k]).Some? && !fails(k)
  {
    if paths != [] {
      var n := |paths| - 1;
      CapturedIff(resolve, files, paths[..n], fails);
      assert forall k :: 0 <= k < n ==> paths[..n][k] == paths[k];
      var before := Captured(resolve, files, paths[..n], fails);
      assert Captured(resolve, files, paths, fails).Some? <==> before.Some? && resolve(paths[n]).Some? && !fails(n);
    }
  }

  /** The keys of a snapshot of `paths`, in order. */
  function Order(resolve: Resolver, paths: seq<string>): seq<string> {
    if paths == [] then []
    else
      var rest, k := Order(resolve, paths[..|paths| - 1]), resolve(paths[|paths| - 1]);
      if k.None? || k.value in rest then rest else rest + [k.value]
  }

  lemma {:induction false} CapturedOrder(resolve: Resolver, files: Files, paths: seq<string>, fails: nat -> bool)
    requires Captured(resolve, files, paths, fails).Some?
    ensures Captured(resolve, files, paths, fails).value.order == Order(resolve, paths)
  {
    if paths != [] {
      CapturedOrder(resolve, files, paths[..|paths| - 1], fails);
      CapturedSound(resolve, files, paths[..|paths| - 1], fails);
    }
  }

  /** The last key that a rollback resolves to `q`: the one whose content stays there. */
  function LastKey(resolve: Resolver, order: seq<string>, q: string): Option<string> {
    if order == [] then None
    else if resolve(order[|order| - 1]) == Some(q) then Some(order[|order| - 1])
    else LastKey(resolve, order[..|order| - 1], q)
  }

  lemma {:induction false} LastKeyView(resolve: Resolver, order: seq<string>, q: string)
    ensures var last := LastKey(resolve, order, q);
            && (last.Some? ==> last.value in order && resolve(last.value) == Some(q))
            && (last.None? <==> forall k :: k in order ==> resolve(k) != Some(q))
  {
    if order != [] {
      var n := |order| - 1;
      LastKeyView(resolve, order[..n], q);
      assert order == order[..n] + [order[n]];
    }
  }

  /** What an operation that should write `content` leaves. */
  function Left(content: Option<string>, io: Io): Option<string> {
    if io.Works? then content else io.leftover
  }

  lemma {:induction false} RestoreOneReads(resolve: Resolver, r: Restored, key: string, content: Option<string>,
                                           restore: string -> Io, q: string)
    ensures var one := RestoreOne(resolve, r, key, content, restore);
            && (one.ok <==> r.ok && resolve(key).Some? && restore(resolve(key).value) == Works)
            && Read(one.files, q) == if resolve(key) == Some(q) then Left(content, restore(q)) else Read(r.files, q)
  {}

  /** A rollback reports ok exactly if every key resolves and no restore fails. A file gets the content of the
      last key that resolves to it, or what a failed restore leaves; every other file is not touched. */
  lemma {:induction false} RestoreReads(resolve: Resolver, files: Files, order: seq<string>,
                                        items: map<string, Option<string>>, restore: string -> Io, q: string)
    requires forall k :: k in order ==> k in items
    ensures var r := Restore(resolve, files, order, items, restore);
            var last := LastKey(resolve, order, q);
            && (r.ok <==> forall k :: k in order ==> resolve(k).Some? && restore(resolve(k).value) == Works)
            && (last.None? ==> Read(r.files, q) == Read(files, q))
            && (last.Some? ==> last.value in items && Read(r.files, q) == Left(items[last.value], restore(q)))
  {
    if order != [] {
      var n := |order| - 1;
      RestoreReads(resolve, files, order[..n], items, restore, q);
      RestoreOneReads(resolve, Restore(resolve, files, order[..n], items, restore), order[n], items[order[n]],
                      restore, q);
      assert order == order[..n] + [order[n]];
    }
  }

  lemma {:induction false} ResolveAllIs(resolve: Resolver, texts: seq<string>)
    ensures var r := ResolveAll(resolve, texts);
            && (r.Some? <==> forall t :: t in texts ==> resolve(t).Some?)
            && (r.Some? ==> |r.value| == |texts|)
            && (r.Some? ==> forall k :: 0 <= k < |texts| ==> Some(r.value[k]) == resolve(texts[k]))
  {
    if texts != [] {
      var n := |texts| - 1;
      ResolveAllIs(resolve, texts[..n]);
      assert texts == texts[..n] + [texts[n]];
    }
  }

  /* ---- what is reported ---- */

  lemma {:induction false} AttemptView(resolve: Resolver, files: Files, ops: seq<PatchOp>, paths: seq<string>,
                                       write: nat -> Io)
    ensures var a := Attempt(resolve, files, ops, paths, write);
            && a.files == ApplyOps(resolve, files, ops, write).files
            && (a.error == NoError <==> AllExecutable(resolve, ops, write))
            && (a.error == NoError ==> a.files == Folded(resolve, files, ops))
  {
    ApplySucceedsIff(resolve, files, ops, write);
  }

  lemma {:induction false} ApplyResolves(resolve: Resolver, files: Files, ops: seq<PatchOp>, write: nat -> Io)
    requires forall t :: t in OpTargets(ops) ==> resolve(t).Some?
    ensures ApplyOps(resolve, files, ops, write).error !in {OutsideWorkspace, VerifyFailed}
  {
    if ops != [] {
      var n := |ops| - 1;
      forall t | t in OpTargets(ops[..n]) ensures resolve(t).Some? {
        assert t in OpTargets(ops);
      }
      ApplyResolves(resolve, files, ops[..n], write);
      if Target(ops[n]) != "" {
        assert Target(ops[n]) in OpTargets(ops);
      }
      var a := ApplyOps(resolve, files, ops[..n], write);
      if a.error == NoError {
        ApplyOneView(resolve, a, ops[n], n + 1, write(n));
      }
    }
  }

  lemma {:induction false} ExecuteResolves(resolve: Resolver, files: Files, ops: seq<PatchOp>, paths: seq<string>,
                                           pre: Snapshot, env: Conditions)
    requires Sound(pre) && forall t :: t in OpTargets(ops) ==> resolve(t).Some?
    ensures var o := Execute(resolve, files, ops, paths, pre, env);
            o.report.Report? ==> o.report.error != OutsideWorkspace
  {
    ApplyResolves(resolve, files, ops, env.write);
  }

  /** A path outside the workspace is reported exactly if some touched path is outside, before any file is read
      or written; `apply` itself never meets one. */
  lemma {:induction false} OutsideIff(resolve: Resolver, files: Files, ops: seq<PatchOp>, hints: seq<string>,
                                      env: Conditions)
    ensures var o := Transaction(resolve, files, ops, hints, env);
            var outside := exists t :: t in Touched(ops, hints) && resolve(t).None?;
            && (o.report.Report? && o.report.error == OutsideWorkspace <==> outside)
            && (outside ==> o == Result(files, Report(false, [], false, false, OutsideWorkspace)))
  {
    var touched := Touched(ops, hints);
    ResolveAllIs(resolve, touched);
    if touched != [] && ResolveAll(resolve, touched).Some? {
      var paths := ResolveAll(resolve, touched).value;
      var pre := Captured(resolve, files, paths, env.preRead);
      CapturedSound(resolve, files, paths, env.preRead);
      forall t | t in OpTargets(ops) ensures resolve(t).Some? {
        assert t in touched;
      }
      if pre.Some? {
        ExecuteResolves(resolve, files, ops, paths, pre.value, env);
      }
    }
  }

  /** The paths handed to the verification. */
  function ReportedPaths(resolve: Resolver, files: Files, ops: seq<PatchOp>, paths: seq<string>,
                         env: Conditions): seq<string> {
    var changed := NonBlank(Attempt(resolve, files, ops, paths, env.write).changed);
    if changed != [] then changed else paths
  }

  lemma {:induction false} ExecuteSucceedsIff(resolve: Resolver, files: Files, ops: seq<PatchOp>, paths: seq<string>,
                                              pre: Snapshot, env: Conditions)
    requires Sound(pre)
    ensures var o := Execute(resolve, files, ops, paths, pre, env);
            var a := Attempt(resolve, files, ops, paths, env.write);
            o.report.Report? && o.report.success <==>
              && a.error == NoError
              && Captured(resolve, a.files, paths, env.postRead).Some?
              && env.verify(a.files, ReportedPaths(resolve, files, ops, paths, env))
  {}

  /** The transaction succeeds exactly if no path is touched, or every touched path resolves and stays readable,
      every operation can be performed and is, and the result passes the verification. */
  lemma {:induction false} SucceedsIff(resolve: Resolver, files: Files, ops: seq<PatchOp>, hints: seq<string>,
                                       env: Conditions)
    ensures var o := Transaction(resolve, files, ops, hints, env);
            var paths := ResolveAll(resolve, Touched(ops, hints));
            (o.report.Report? && o.report.success) <==>
              || Touched(ops, hints) == []
              || (&& paths.Some?
                  && Captured(resolve, files, paths.value, env.preRead).Some?
                  && AllExecutable(resolve, ops, env.write)
                  && Captured(resolve, Folded(resolve, files, ops), paths.value, env.postRead).Some?
                  && env.verify(Folded(resolve, files, ops), ReportedPaths(resolve, files, ops, paths.value, env)))
  {
    var touched := ResolveAll(resolve, Touched(ops, hints));
    if touched.Some? {
      var pre := Captured(resolve, files, touched.value, env.preRead);
      CapturedSound(resolve, files, touched.value, env.preRead);
      AttemptView(resolve, files, ops, touched.value, env.write);
      if pre.Some? {
        ExecuteSucceedsIff(resolve, files, ops, touched.value, pre.value, env);
      }
    }
  }
}
