/** What the operations of a patch (agentlib/patch_executor.py) leave in a file, in terms of the last operation that
    rewrites or deletes it and of the texts appended after that. */
module PatchContents {
  import opened PyText
  import opened PatchSpec

  /* ---- what one operation asks for ---- */

  /** The path text it names: the first of its three fields that is not empty. */
  predicate Names(op: PatchOp, path: string)
    requires op.PatchOp?
  {
    if op.path != "" then path == op.path
    else if op.targetPath != "" then path == op.targetPath
    else path == op.filePath
  }

  ghost predicate AimsAt(resolve: Resolver, op: PatchOp, q: string) {
    op.PatchOp? && exists path :: Names(op, path) && resolve(Strip(path)) == Some(q)
  }

  predicate Asks(op: PatchOp, kind: string) {
    op.PatchOp? && Lower(Strip(op.op)) == kind
  }

  predicate Rewrites(op: PatchOp) {
    Asks(op, "replace_file") || Asks(op, "write_file")
  }

  /** The text it brings. */
  predicate Brings(op: PatchOp, text: string)
    requires op.PatchOp?
  {
    text == if op.content != "" then op.content else op.text
  }

  /* ---- the content of a file ---- */

  /** The text appended to `q` from position `k` on. */
  ghost predicate Appended(resolve: Resolver, ops: seq<PatchOp>, q: string, k: nat, text: string)
    requires k <= |ops|
    decreases |ops|
  {
    if |ops| == k then text == ""
    else
      var n := |ops| - 1;
      if AimsAt(resolve, ops[n], q) && Asks(ops[n], "append_file") then
        exists before, more ::
          Appended(resolve, ops[..n], q, k, before) && Brings(ops[n], more) && text == before + more
      else Appended(resolve, ops[..n], q, k, text)
  }

  /** No operation from position `k` on rewrites or deletes `q`. */
  ghost predicate OnlyAppends(resolve: Resolver, ops: seq<PatchOp>, q: string, k: nat) {
    forall j :: k <= j < |ops| && AimsAt(resolve, ops[j], q) ==> Asks(ops[j], "append_file")
  }

  ghost predicate SomeAppend(resolve: Resolver, ops: seq<PatchOp>, q: string, k: nat) {
    exists j :: k <= j < |ops| && AimsAt(resolve, ops[j], q)
  }

  /** The content that the appends from position `k` on start from: what the operation before `k` leaves, or the was
      content if no operation rewrites or deletes the file. */
  ghost predicate Base(resolve: Resolver, ops: seq<PatchOp>, q: string, was: Option<string>, k: nat,
                       base: Option<string>)
    requires k <= |ops|
  {
    && OnlyAppends(resolve, ops, q, k)
    && if k == 0 then base == was
       else
         var op := ops[k - 1];
         && AimsAt(resolve, op, q)
         && ((Rewrites(op) && base.Some? && Brings(op, base.value)) || (Asks(op, "delete_file") && base.None?))
  }

  function TextOf(content: Option<string>): string {
    if content.Some? then content.value else ""
  }

  /** The content of `q` once all operations are performed: the base, followed by everything appended after it, in
      order; there is no file exactly if there is no base and nothing is appended. */
  ghost predicate Content(resolve: Resolver, ops: seq<PatchOp>, q: string, was: Option<string>, now: Option<string>) {
    exists k: nat, base, text :: k <= |ops| && IsContent(resolve, ops, q, was, now, k, base, text)
  }

  ghost predicate IsContent(resolve: Resolver, ops: seq<PatchOp>, q: string, was: Option<string>, now: Option<string>,
                            k: nat, base: Option<string>, text: string)
    requires k <= |ops|
  {
    && Base(resolve, ops, q, was, k, base) && Appended(resolve, ops, q, k, text)
    && (now.None? <==> base.None? && !SomeAppend(resolve, ops, q, k))
    && (now.Some? ==> now.value == TextOf(base) + text)
  }

  /* ---- `apply` leaves that content ---- */

  lemma {:induction false} TargetNamed(op: PatchOp)
    requires op.PatchOp?
    ensures forall path :: Names(op, path) ==> Strip(path) == Target(op)
    ensures exists path :: Names(op, path)
  {
    var path := if op.path != "" then op.path else if op.targetPath != "" then op.targetPath else op.filePath;
    assert Names(op, path);
  }

  lemma {:induction false} AimIs(resolve: Resolver, op: PatchOp, q: string)
    requires op.PatchOp?
    ensures AimsAt(resolve, op, q) <==> resolve(Target(op)) == Some(q)
  {
    TargetNamed(op);
  }

  /** What one operation that can be performed makes of its target. */
  lemma {:induction false} EffectIs(resolve: Resolver, op: PatchOp, before: Option<string>) returns (text: string)
    requires Executable(resolve, op)
    ensures Brings(op, text)
    ensures Rewrites(op) || Asks(op, "append_file") || Asks(op, "delete_file")
    ensures Rewrites(op) ==> Effect(op, before) == Some(text)
    ensures Asks(op, "append_file") ==> Effect(op, before) == Some(TextOf(before) + text)
    ensures Asks(op, "delete_file") ==> Effect(op, before) == None
  {
    text := if op.content != "" then op.content else op.text;
  }

  lemma {:induction false} FoldedNext(resolve: Resolver, q: string, was: Option<string>, ops: seq<PatchOp>, op: PatchOp)
    ensures var before := ContentAfter(resolve, q, was, ops);
            ContentAfter(resolve, q, was, ops + [op])
            == if op.PatchOp? && resolve(Target(op)) == Some(q) then Effect(op, before) else before
  {
    assert (ops + [op])[..|ops|] == ops;
  }

  /** The base stays, under an operation that does not rewrite or delete the file. */
  lemma {:induction false} BaseStays(resolve: Resolver, ops: seq<PatchOp>, op: PatchOp, q: string, was: Option<string>,
                                     k: nat, base: Option<string>)
    requires k <= |ops| && Base(resolve, ops, q, was, k, base) && (AimsAt(resolve, op, q) ==> Asks(op, "append_file"))
    ensures Base(resolve, ops + [op], q, was, k, base)
  {
    var all := ops + [op];
    forall j | k <= j < |all| && AimsAt(resolve, all[j], q) ensures Asks(all[j], "append_file") {
      if j < |ops| { assert all[j] == ops[j]; }
    }
  }

  lemma {:induction false} AppendedNext(resolve: Resolver, ops: seq<PatchOp>, op: PatchOp, q: string, k: nat,
                                        text: string, more: string)
    requires k <= |ops| && Appended(resolve, ops, q, k, text)
    requires if AimsAt(resolve, op, q) && Asks(op, "append_file") then Brings(op, more) else more == ""
    ensures Appended(resolve, ops + [op], q, k, text + more)
  {
    assert (ops + [op])[..|ops|] == ops;
    assert text + "" == text;
  }

  /** An operation aimed elsewhere. */
  lemma {:induction false} OtherKeeps(resolve: Resolver, ops: seq<PatchOp>, op: PatchOp, q: string, was: Option<string>,
                                      now: Option<string>)
    requires Content(resolve, ops, q, was, now) && !AimsAt(resolve, op, q)
    ensures Content(resolve, ops + [op], q, was, now)
  {
    var k: nat, base, text :| k <= |ops| && IsContent(resolve, ops, q, was, now, k, base, text);
    SomeAppendNext(resolve, ops, op, q, k);
    BaseStays(resolve, ops, op, q, was, k, base);
    AppendedNext(resolve, ops, op, q, k, text, "");
    assert text + "" == text;
    assert IsContent(resolve, ops + [op], q, was, now, k, base, text);
  }

  lemma {:induction false} SomeAppendNext(resolve: Resolver, ops: seq<PatchOp>, op: PatchOp, q: string, k: nat)
    requires k <= |ops|
    ensures SomeAppend(resolve, ops + [op], q, k) <==> SomeAppend(resolve, ops, q, k) || AimsAt(resolve, op, q)
  {
    var all := ops + [op];
    if j :| k <= j < |ops| && AimsAt(resolve, ops[j], q) {
      assert all[j] == ops[j];
    }
    if AimsAt(resolve, op, q) {
      assert all[|ops|] == op;
    }
  }

  lemma {:induction false} Texts(now: Option<string>, base: Option<string>, text: string, more: string)
    requires now.Some? ==> now.value == TextOf(base) + text
    requires now.None? ==> base.None? && text == ""
    ensures TextOf(now) + more == TextOf(base) + (text + more)
  {}

  lemma {:induction false} ContentExtends(resolve: Resolver, ops: seq<PatchOp>, op: PatchOp, q: string,
                                          was: Option<string>, now: Option<string>, more: string, k: nat,
                                          base: Option<string>, text: string)
    requires k <= |ops| && IsContent(resolve, ops, q, was, now, k, base, text)
    requires AimsAt(resolve, op, q) && Asks(op, "append_file") && Brings(op, more)
    ensures IsContent(resolve, ops + [op], q, was, Some(TextOf(now) + more), k, base, text + more)
  {
    SomeAppendNext(resolve, ops, op, q, k);
    BaseStays(resolve, ops, op, q, was, k, base);
    AppendedNext(resolve, ops, op, q, k, text, more);
    if now.None? { NothingAppended(resolve, ops, q, k, text); }
    Texts(now, base, text, more);
  }

  /** An append aimed at the file. */
  lemma {:induction false} AppendExtends(resolve: Resolver, ops: seq<PatchOp>, op: PatchOp, q: string,
                                         was: Option<string>, now: Option<string>, more: string)
    requires Content(resolve, ops, q, was, now) && AimsAt(resolve, op, q) && Asks(op, "append_file") && Brings(op, more)
    ensures Content(resolve, ops + [op], q, was, Some(TextOf(now) + more))
  {
    var k: nat, base, text :| k <= |ops| && IsContent(resolve, ops, q, was, now, k, base, text);
    ContentExtends(resolve, ops, op, q, was, now, more, k, base, text);
  }

  lemma {:induction false} NothingAppended(resolve: Resolver, ops: seq<PatchOp>, q: string, k: nat, text: string)
    requires k <= |ops| && !SomeAppend(resolve, ops, q, k) && Appended(resolve, ops, q, k, text)
    ensures text == ""
  {
    if |ops| > k {
      var n := |ops| - 1;
      forall j | k <= j < n ensures !AimsAt(resolve, ops[..n][j], q) {
        assert ops[..n][j] == ops[j];
      }
      NothingAppended(resolve, ops[..n], q, k, text);
    }
  }

  /** A rewrite or a deletion of the file. */
  lemma {:induction false} ResetStarts(resolve: Resolver, ops: seq<PatchOp>, op: PatchOp, q: string,
                                       was: Option<string>, now: Option<string>)
    requires AimsAt(resolve, op, q)
    requires (Rewrites(op) && now.Some? && Brings(op, now.value)) || (Asks(op, "delete_file") && now.None?)
    ensures Content(resolve, ops + [op], q, was, now)
  {
    var all := ops + [op];
    assert Base(resolve, all, q, was, |all|, now);
    assert IsContent(resolve, all, q, was, now, |all|, now, "");
  }

  ghost predicate AllRun(resolve: Resolver, ops: seq<PatchOp>) {
    forall k :: 0 <= k < |ops| ==> Executable(resolve, ops[k])
  }

  lemma {:induction false} AllRunBefore(resolve: Resolver, ops: seq<PatchOp>)
    requires ops != [] && AllRun(resolve, ops)
    ensures AllRun(resolve, ops[..|ops| - 1]) && Executable(resolve, ops[|ops| - 1])
    ensures ops == ops[..|ops| - 1] + [ops[|ops| - 1]]
  {}

  lemma {:induction false} ContentHolds(resolve: Resolver, ops: seq<PatchOp>, q: string, was: Option<string>)
    requires AllRun(resolve, ops)
    ensures Content(resolve, ops, q, was, ContentAfter(resolve, q, was, ops))
  {
    if ops == [] {
      assert IsContent(resolve, ops, q, was, was, 0, was, "");
    } else {
      var before, op := ops[..|ops| - 1], ops[|ops| - 1];
      AllRunBefore(resolve, ops);
      ContentHolds(resolve, before, q, was);
      ContentNext(resolve, before, op, q, was, ContentAfter(resolve, q, was, before));
    }
  }

  lemma {:induction false} ContentNext(resolve: Resolver, ops: seq<PatchOp>, op: PatchOp, q: string,
                                       was: Option<string>, now: Option<string>)
    requires Executable(resolve, op) && now == ContentAfter(resolve, q, was, ops)
    requires Content(resolve, ops, q, was, now)
    ensures Content(resolve, ops + [op], q, was, ContentAfter(resolve, q, was, ops + [op]))
  {
    FoldedNext(resolve, q, was, ops, op);
    AimIs(resolve, op, q);
    if !AimsAt(resolve, op, q) {
      OtherKeeps(resolve, ops, op, q, was, now);
    } else {
      var text := EffectIs(resolve, op, now);
      if Asks(op, "append_file") {
        AppendExtends(resolve, ops, op, q, was, now, text);
      } else {
        ResetStarts(resolve, ops, op, q, was, Effect(op, now));
      }
    }
  }

  /** After a successful `apply` every file has that content. */
  lemma {:induction false} ApplyContents(resolve: Resolver, files: Files, ops: seq<PatchOp>, write: nat -> Io,
                                         q: string)
    requires ApplyOps(resolve, files, ops, write).error == NoError
    ensures Content(resolve, ops, q, Read(files, q), Read(ApplyOps(resolve, files, ops, write).files, q))
  {
    ApplySucceedsIff(resolve, files, ops, write);
    FoldedPerFile(resolve, files, ops, q);
    ContentHolds(resolve, ops, q, Read(files, q));
  }

  lemma {:induction false} StopsAt(resolve: Resolver, files: Files, ops: seq<PatchOp>, write: nat -> Io)
    returns (n: nat)
    requires ApplyOps(resolve, files, ops, write).error != NoError
    ensures n < |ops| && ApplyOps(resolve, files, ops[..n], write).error == NoError
    ensures ApplyOps(resolve, files, ops, write)
            == ApplyOne(resolve, ApplyOps(resolve, files, ops[..n], write), ops[n], n + 1, write(n))
  {
    n := |ops| - 1;
    if ApplyOps(resolve, files, ops[..n], write).error != NoError {
      var k := StopsAt(resolve, files, ops[..n], write);
      assert ops[..n][..k] == ops[..k];
      n := k;
    }
  }

  /** Where `apply` stops, the operations before the failed one are performed in full; of the others only the failed one
      may have changed its target. */
  lemma {:induction false} StoppedContents(resolve: Resolver, files: Files, ops: seq<PatchOp>, write: nat -> Io)
    returns (n: nat)
    requires ApplyOps(resolve, files, ops, write).error != NoError
    ensures n < |ops| && !(Executable(resolve, ops[n]) && write(n) == Works)
    ensures forall q :: !AimsAt(resolve, ops[n], q) ==>
              Content(resolve, ops[..n], q, Read(files, q), Read(ApplyOps(resolve, files, ops, write).files, q))
  {
    n := StopsAt(resolve, files, ops, write);
    var before, op := ApplyOps(resolve, files, ops[..n], write), ops[n];
    ApplyOneView(resolve, before, op, n + 1, write(n));
    forall q | !AimsAt(resolve, op, q)
      ensures Content(resolve, ops[..n], q, Read(files, q), Read(ApplyOps(resolve, files, ops, write).files, q))
    {
      ApplyContents(resolve, files, ops[..n], write, q);
      if op.PatchOp? { AimIs(resolve, op, q); }
      OneFrame(resolve, before, op, n + 1, write(n), q);
    }
  }

  /** A transaction that succeeds, and touches some path, leaves that content in every file. */
  lemma {:induction false} TransactionContents(resolve: Resolver, files: Files, ops: seq<PatchOp>, hints: seq<string>,
                                               env: Conditions, q: string)
    requires var o := Transaction(resolve, files, ops, hints, env); o.report.Report? && o.report.success
    requires Touched(ops, hints) != []
    ensures Content(resolve, ops, q, Read(files, q), Read(Transaction(resolve, files, ops, hints, env).files, q))
  {
    SuccessFiles(resolve, files, ops, hints, env);
    ApplyContents(resolve, files, ops, env.write, q);
  }

  lemma {:induction false} ExecuteSuccess(resolve: Resolver, files: Files, ops: seq<PatchOp>, paths: seq<string>,
                                          pre: Snapshot, env: Conditions)
    requires Sound(pre)
    requires var o := Execute(resolve, files, ops, paths, pre, env); o.report.Report? && o.report.success
    ensures var a := Attempt(resolve, files, ops, paths, env.write);
            a.error == NoError && Execute(resolve, files, ops, paths, pre, env).files == a.files
  {}

  lemma {:induction false} SuccessFiles(resolve: Resolver, files: Files, ops: seq<PatchOp>, hints: seq<string>,
                                        env: Conditions)
    requires var o := Transaction(resolve, files, ops, hints, env); o.report.Report? && o.report.success
    requires Touched(ops, hints) != []
    ensures var a := ApplyOps(resolve, files, ops, env.write);
            a.error == NoError && Transaction(resolve, files, ops, hints, env).files == a.files
  {
    var paths := ResolveAll(resolve, Touched(ops, hints)).value;
    var pre := Captured(resolve, files, paths, env.preRead).value;
    CapturedSound(resolve, files, paths, env.preRead);
    ExecuteSuccess(resolve, files, ops, paths, pre, env);
    AttemptView(resolve, files, ops, paths, env.write);
    ApplySucceedsIff(resolve, files, ops, env.write);
  }

  /* ---- what is reported ---- */

  lemma {:induction false} OneChanged(resolve: Resolver, a: Applied, op: PatchOp, idx: nat, write: Io)
    requires a.error == NoError && ApplyOne(resolve, a, op, idx, write).error == NoError
    ensures op.PatchOp? && resolve(Target(op)).Some?
    ensures var r, p := ApplyOne(resolve, a, op, idx, write), resolve(Target(op)).value;
            r.changed == a.changed + [p] && r.kinds == a.kinds + [Kind(op)] && AimsAt(resolve, op, p)
  {
    AimIs(resolve, op, resolve(Target(op)).value);
  }

  /** One path and one kind for every operation. */
  ghost predicate Tells(resolve: Resolver, ops: seq<PatchOp>, changed: seq<string>, kinds: seq<string>) {
    |changed| == |kinds| == |ops| && forall k :: 0 <= k < |ops| ==>
      AimsAt(resolve, ops[k], changed[k]) && Asks(ops[k], kinds[k])
  }

  lemma {:induction false} TellsMore(resolve: Resolver, ops: seq<PatchOp>, changed: seq<string>, kinds: seq<string>,
                                     op: PatchOp, p: string, kind: string)
    requires Tells(resolve, ops, changed, kinds) && AimsAt(resolve, op, p) && Asks(op, kind)
    ensures Tells(resolve, ops + [op], changed + [p], kinds + [kind])
  {}

  lemma {:induction false} NextTells(resolve: Resolver, files: Files, before: seq<PatchOp>, op: PatchOp,
                                     write: nat -> Io)
    requires ApplyOps(resolve, files, before + [op], write).error == NoError
    requires ApplyOps(resolve, files, before, write).error == NoError
    requires var a := ApplyOps(resolve, files, before, write); Tells(resolve, before, a.changed, a.kinds)
    ensures var a := ApplyOps(resolve, files, before + [op], write); Tells(resolve, before + [op], a.changed, a.kinds)
  {
    var a := ApplyOps(resolve, files, before, write);
    ApplyNext(resolve, files, before, op, write);
    OneChanged(resolve, a, op, |before| + 1, write(|before|));
    TellsMore(resolve, before, a.changed, a.kinds, op, resolve(Target(op)).value, Kind(op));
  }

  /** The changed paths of operations that are all performed: their targets, one by one. */
  lemma {:induction false} ChangedTells(resolve: Resolver, files: Files, ops: seq<PatchOp>, write: nat -> Io)
    requires ApplyOps(resolve, files, ops, write).error == NoError
    ensures var a := ApplyOps(resolve, files, ops, write); Tells(resolve, ops, a.changed, a.kinds)
  {
    if ops != [] {
      var before, op := ops[..|ops| - 1], ops[|ops| - 1];
      assert ops == before + [op];
      ChangedTells(resolve, files, before, write);
      NextTells(resolve, files, before, op, write);
    }
  }

  /** The first occurrences stay in their order. */
  lemma {:induction false} UniqueOrder(xs: seq<string>, i: nat, j: nat) returns (k: nat)
    requires i < j < |Unique(xs)|
    ensures k < |xs| && xs[k] == Unique(xs)[i] && forall m :: 0 <= m <= k ==> xs[m] != Unique(xs)[j]
  {
    var n := |xs| - 1;
    var rest := Unique(xs[..n]);
    if j < |rest| {
      k := UniqueOrder(xs[..n], i, j);
      forall m | 0 <= m <= k ensures xs[m] != Unique(xs)[j] { assert xs[..n][m] == xs[m]; }
    } else {
      assert rest[i] in xs[..n];
      k :| 0 <= k < n && xs[..n][k] == rest[i];
      forall m | 0 <= m <= k ensures xs[m] != xs[n] { assert xs[..n][m] in xs[..n]; }
    }
  }

  /** A successful `apply` reports the kinds of all operations in order, and the files they aim at, each once, in the
      order in which they are first aimed at. */
  lemma {:induction false} SuccessReports(resolve: Resolver, files: Files, ops: seq<PatchOp>, write: nat -> Io)
    requires AppliedAll(resolve, files, ops, write).error == NoError
    ensures var a := AppliedAll(resolve, files, ops, write);
            && |a.kinds| == |ops| && (forall k :: 0 <= k < |ops| ==> Asks(ops[k], a.kinds[k]))
            && (forall q :: q in a.changed <==> exists k :: 0 <= k < |ops| && AimsAt(resolve, ops[k], q))
            && (forall i, j :: 0 <= i < j < |a.changed| ==>
                  a.changed[i] != a.changed[j] && AimedFirst(resolve, ops, a.changed[i], a.changed[j]))
  {
    var all := ApplyOps(resolve, files, ops, write);
    var a := AppliedAll(resolve, files, ops, write);
    ChangedTells(resolve, files, ops, write);
    forall q ensures q in a.changed <==> exists k :: 0 <= k < |ops| && AimsAt(resolve, ops[k], q) {
      ChangedIff(resolve, ops, all.changed, q);
    }
    forall i, j | 0 <= i < j < |a.changed| ensures AimedFirst(resolve, ops, a.changed[i], a.changed[j]) {
      var k := UniqueOrder(all.changed, i, j);
      forall m | 0 <= m <= k ensures !AimsAt(resolve, ops[m], a.changed[j]) {
        OneAim(resolve, ops[m], all.changed[m], a.changed[j]);
      }
    }
  }

  /** The operations aim at `p` before any of them aims at `q`. */
  ghost predicate AimedFirst(resolve: Resolver, ops: seq<PatchOp>, p: string, q: string) {
    exists k :: 0 <= k < |ops| && AimsAt(resolve, ops[k], p) && forall m :: 0 <= m <= k ==> !AimsAt(resolve, ops[m], q)
  }

  lemma {:induction false} OneAim(resolve: Resolver, op: PatchOp, p: string, q: string)
    requires AimsAt(resolve, op, p) && p != q
    ensures !AimsAt(resolve, op, q)
  {
    AimIs(resolve, op, p);
    AimIs(resolve, op, q);
  }

  lemma {:induction false} ChangedIff(resolve: Resolver, ops: seq<PatchOp>, changed: seq<string>, q: string)
    requires |changed| == |ops| && forall k :: 0 <= k < |ops| ==> AimsAt(resolve, ops[k], changed[k])
    ensures q in changed <==> exists k :: 0 <= k < |ops| && AimsAt(resolve, ops[k], q)
  {
    if k :| 0 <= k < |ops| && AimsAt(resolve, ops[k], q) {
      if changed[k] != q { OneAim(resolve, ops[k], changed[k], q); }
    }
  }
}
