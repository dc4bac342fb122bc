/** The inbox claim protocol (agentlib/chat_bridge.py): any number of pullers work on the shared table, each from
    a batch it selected earlier, and their statements interleave freely. */
module Inbox {
  import opened Basics

  datatype Row = Row(ts: real, payload: string, status: string)

  /** `id` is the primary key. */
  type Table = map<string, Row>

  datatype Fetched = Fetched(id: string, payload: string)

  /** Where a puller is in its loop: about to select, about to claim the next row of its batch, or between a
      successful claim and the call of `on_event`. */
  datatype Phase = Idle | Working(batch: seq<Fetched>) | Holding(msg: Fetched, rest: seq<Fetched>)

  /** `log`: the events handed to `on_event`, oldest first. */
  datatype System = System(rows: Table, pullers: seq<Phase>, log: seq<Fetched>)

  datatype Step =
    | Insert(id: string, row: Row)              // any writer
    | SetStatus(id: string, status: string)     // db_set_inbox_status
    | Select(puller: nat, batch: seq<Fetched>)  // the SELECT of a puller, with one legal answer
    | Claim(puller: nat)                        // the guarded UPDATE for the next row of the batch
    | Dispatch(puller: nat)                     // on_event is called
    | Fail(puller: nat)                         // an exception anywhere drops the rest of the batch

  const BATCH_LIMIT := 5

  /* ---- the statements ---- */

  /** INSERT fails on an existing key. */
  function Inserted(rows: Table, id: string, row: Row): Table {
    if id in rows then rows else rows[id := row]
  }

  function WithStatus(rows: Table, id: string, status: string): Table {
    if id in rows then rows[id := rows[id].(status := status)] else rows
  }

  predicate IsNew(rows: Table, id: string) {
    id in rows && rows[id].status == "new"
  }

  /** The batch is an answer to the SELECT: new rows with their payloads, oldest first, at most five, and no new
      row left out that is older or for which there is room. */
  predicate LegalAnswer(rows: Table, batch: seq<Fetched>) {
    && |batch| <= BATCH_LIMIT
    && (forall f :: f in batch ==> IsNew(rows, f.id) && f.payload == rows[f.id].payload)
    && (forall j, k :: 0 <= j < k < |batch| ==>
        batch[j].id != batch[k].id && rows[batch[j].id].ts <= rows[batch[k].id].ts)
    && (forall id :: id in rows && IsNew(rows, id) && (forall f :: f in batch ==> f.id != id) ==>
          |batch| == BATCH_LIMIT && forall f :: f in batch ==> rows[f.id].ts <= rows[id].ts)
  }

  function Moved(s: System, p: nat, phase: Phase): System
    requires p < |s.pullers|
  {
    s.(pullers := s.pullers[p := phase])
  }

  /** One atomic step; a step that is not possible changes nothing. */
  function Next(s: System, step: Step): System {
    match step
    case Insert(id, row) => s.(rows := Inserted(s.rows, id, row))
    case SetStatus(id, status) => s.(rows := WithStatus(s.rows, id, status))
    case Select(p, batch) =>
      if p < |s.pullers| && s.pullers[p].Idle? && LegalAnswer(s.rows, batch) then Moved(s, p, Working(batch)) else s
    case Claim(p) =>
      if p < |s.pullers| && s.pullers[p].Working? then
        var batch := s.pullers[p].batch;
        if batch == [] then Moved(s, p, Idle)
        else if IsNew(s.rows, batch[0].id) then
          Moved(s.(rows := WithStatus(s.rows, batch[0].id, "processing")), p, Holding(batch[0], batch[1..]))
        else Moved(s, p, Working(batch[1..]))
      else s
    case Dispatch(p) =>
      if p < |s.pullers| && s.pullers[p].Holding? then
        Moved(s.(log := s.log + [s.pullers[p].msg]), p, Working(s.pullers[p].rest))
      else s
    case Fail(p) => if p < |s.pullers| then Moved(s, p, Idle) else s
  }

  function Run(s: System, steps: seq<Step>): System {
    if steps == [] then s else Next(Run(s, steps[..|steps| - 1]), steps[|steps| - 1])
  }

  /** Before anything happened: a table with any rows, and idle pullers. */
  predicate Initial(s: System) {
    s.log == [] && forall p :: 0 <= p < |s.pullers| ==> s.pullers[p] == Idle
  }

  /* ---- at most once ---- */

  function Dispatches(log: seq<Fetched>, id: string): nat {
    if log == [] then 0 else Dispatches(log[..|log| - 1], id) + (if log[|log| - 1].id == id then 1 else 0)
  }

  predicate Holds(phase: Phase, id: string) {
    phase.Holding? && phase.msg.id == id
  }

  function Holders(pullers: seq<Phase>, id: string): nat {
    if pullers == [] then 0
    else Holders(pullers[..|pullers| - 1], id) + (if Holds(pullers[|pullers| - 1], id) then 1 else 0)
  }

  /** How often the message was claimed and not lost. */
  function Claims(s: System, id: string): nat {
    Dispatches(s.log, id) + Holders(s.pullers, id)
  }

  lemma {:induction false} HoldersUpdate(pullers: seq<Phase>, p: nat, phase: Phase, id: string)
    requires p < |pullers|
    ensures Holders(pullers[p := phase], id)
            == Holders(pullers, id) + (if Holds(phase, id) then 1 else 0) - (if Holds(pullers[p], id) then 1 else 0)
  {
    var n := |pullers| - 1;
    if p == n {
      assert pullers[p := phase][..n] == pullers[..n];
    } else {
      assert pullers[p := phase][..n] == pullers[..n][p := phase];
      HoldersUpdate(pullers[..n], p, phase, id);
    }
  }

  lemma {:induction false} DispatchesNext(log: seq<Fetched>, f: Fetched, id: string)
    ensures Dispatches(log + [f], id) == Dispatches(log, id) + (if f.id == id then 1 else 0)
  {}

  ghost predicate ClaimedOnce(s: System, id: string) {
    Claims(s, id) <= 1 && (Claims(s, id) == 1 ==> id in s.rows && s.rows[id].status != "new")
  }

  ghost predicate Inv(s: System) {
    forall id :: ClaimedOnce(s, id)
  }

  /** A status write does not make a message new again that was claimed. The bridge's own writes set "done". */
  predicate KeepsClaims(s: System, step: Step) {
    step.SetStatus? && step.status == "new" ==> Claims(s, step.id) == 0
  }

  lemma {:induction false} RowsStepKeeps(s: System, step: Step, id: string)
    requires ClaimedOnce(s, id) && KeepsClaims(s, step) && (step.Insert? || step.SetStatus?)
    ensures ClaimedOnce(Next(s, step), id)
  {}

  lemma {:induction false} ClaimKeeps(s: System, p: nat, id: string)
    requires ClaimedOnce(s, id)
    ensures ClaimedOnce(Next(s, Claim(p)), id)
  {
    if p < |s.pullers| && s.pullers[p].Working? {
      var batch := s.pullers[p].batch;
      if batch == [] {
        HoldersUpdate(s.pullers, p, Idle, id);
      } else if IsNew(s.rows, batch[0].id) {
        HoldersUpdate(s.pullers, p, Holding(batch[0], batch[1..]), id);
      } else {
        HoldersUpdate(s.pullers, p, Working(batch[1..]), id);
      }
    }
  }

  lemma {:induction false} DispatchKeeps(s: System, p: nat, id: string)
    requires ClaimedOnce(s, id)
    ensures ClaimedOnce(Next(s, Dispatch(p)), id)
  {
    if p < |s.pullers| && s.pullers[p].Holding? {
      HoldersUpdate(s.pullers, p, Working(s.pullers[p].rest), id);
      DispatchesNext(s.log, s.pullers[p].msg, id);
    }
  }

  lemma {:induction false} StepKeepsClaims(s: System, step: Step)
    requires Inv(s) && KeepsClaims(s, step)
    ensures Inv(Next(s, step))
  {
    forall id ensures ClaimedOnce(Next(s, step), id) {
      assert ClaimedOnce(s, id);
      match step {
        case Claim(p) => ClaimKeeps(s, p, id);
        case Dispatch(p) => DispatchKeeps(s, p, id);
        case Select(p, batch) => if p < |s.pullers| { HoldersUpdate(s.pullers, p, Working(batch), id); }
        case Fail(p) => if p < |s.pullers| { HoldersUpdate(s.pullers, p, Idle, id); }
        case _ => RowsStepKeeps(s, step, id);
      }
    }
  }

  /** No status write of the run makes a claimed message new again. */
  predicate Disciplined(s: System, steps: seq<Step>) {
    steps == [] || (Disciplined(s, steps[..|steps| - 1])
                    && KeepsClaims(Run(s, steps[..|steps| - 1]), steps[|steps| - 1]))
  }

  lemma {:induction false} NobodyHolds(pullers: seq<Phase>, id: string)
    requires forall p :: 0 <= p < |pullers| ==> pullers[p] == Idle
    ensures Holders(pullers, id) == 0
  {
    if pullers != [] {
      NobodyHolds(pullers[..|pullers| - 1], id);
    }
  }

  lemma {:induction false} RunKeepsClaims(s: System, steps: seq<Step>)
    requires Initial(s) && Disciplined(s, steps)
    ensures Inv(Run(s, steps))
  {
    if steps == [] {
      forall id ensures ClaimedOnce(s, id) { NobodyHolds(s.pullers, id); }
    } else {
      var n := |steps| - 1;
      RunKeepsClaims(s, steps[..n]);
      StepKeepsClaims(Run(s, steps[..n]), steps[n]);
    }
  }

  /** In every interleaving, each message id is handed to `on_event` at most once, and a message that was handed
      over is never new again. */
  lemma {:induction false} DispatchedAtMostOnce(s: System, steps: seq<Step>, id: string)
    requires Initial(s) && Disciplined(s, steps)
    ensures var r := Run(s, steps);
            Dispatches(r.log, id) <= 1 && (Dispatches(r.log, id) == 1 ==> id in r.rows && r.rows[id].status != "new")
  {
    RunKeepsClaims(s, steps);
    assert ClaimedOnce(Run(s, steps), id);
  }

  /** Status writes other than "new" are always disciplined. */
  lemma {:induction false} DoneIsDisciplined(s: System, steps: seq<Step>)
    requires forall step :: step in steps && step.SetStatus? ==> step.status != "new"
    ensures Disciplined(s, steps)
  {
    if steps != [] {
      assert steps[|steps| - 1] in steps;
      DoneIsDisciplined(s, steps[..|steps| - 1]);
    }
  }

  lemma {:induction false} RunNext(s: System, steps: seq<Step>, x: Step)
    ensures Run(s, steps + [x]) == Next(Run(s, steps), x)
    ensures Disciplined(s, steps + [x]) ==> KeepsClaims(Run(s, steps), x)
  {
    assert (steps + [x])[..|steps|] == steps;
  }

  /** A dispatched message that is made new again is dispatched a second time as soon as a puller reaches it in its
      batch, however old the batch is. */
  lemma {:induction false} ResetDispatchesAgain(s: System, p: nat)
    requires p < |s.pullers| && s.pullers[p].Working? && s.pullers[p].batch != []
    requires var id := s.pullers[p].batch[0].id; id in s.rows && Dispatches(s.log, id) == 1
    ensures var id := s.pullers[p].batch[0].id;
            var r := Next(Next(Next(s, SetStatus(id, "new")), Claim(p)), Dispatch(p));
            Dispatches(r.log, id) == 2 && !KeepsClaims(s, SetStatus(id, "new"))
  {
    var msg := s.pullers[p].batch[0];
    var a := Next(s, SetStatus(msg.id, "new"));
    var b := Next(a, Claim(p));
    assert b.pullers[p] == Holding(msg, s.pullers[p].batch[1..]) && b.log == s.log;
    DispatchesNext(s.log, msg, msg.id);
  }

  /** Two pullers select the same batch, and the first one handles its first message. */
  function FirstHandled(batch: seq<Fetched>): seq<Step> {
    [] + [Select(0, batch)] + [Select(1, batch)] + [Claim(0)] + [Dispatch(0)]
  }

  lemma {:induction false} BothSelect(s: System, batch: seq<Fetched>)
    requires Initial(s) && |s.pullers| >= 2 && LegalAnswer(s.rows, batch)
    ensures Next(Next(s, Select(0, batch)), Select(1, batch))
            == s.(pullers := s.pullers[0 := Working(batch)][1 := Working(batch)])
  {}

  /** A puller that reaches a new message claims it and hands it over. */
  lemma {:induction false} Handled(s: System, p: nat, batch: seq<Fetched>)
    requires p < |s.pullers| && s.pullers[p] == Working(batch) && batch != [] && IsNew(s.rows, batch[0].id)
    ensures Next(Next(s, Claim(p)), Dispatch(p))
            == System(WithStatus(s.rows, batch[0].id, "processing"), s.pullers[p := Working(batch[1..])],
                      s.log + [batch[0]])
  {
    assert s.pullers[p := Holding(batch[0], batch[1..])][p := Working(batch[1..])]
        == s.pullers[p := Working(batch[1..])];
  }

  lemma {:induction false} FourSteps(s: System, a: Step, b: Step, c: Step, d: Step)
    ensures Run(s, [] + [a] + [b] + [c] + [d]) == Next(Next(Next(Next(s, a), b), c), d)
  {
    RunNext(s, [], a);
    RunNext(s, [] + [a], b);
    RunNext(s, [] + [a] + [b], c);
    RunNext(s, [] + [a] + [b] + [c], d);
  }

  lemma {:induction false} FirstIsHandled(s: System, batch: seq<Fetched>)
    requires Initial(s) && |s.pullers| >= 2 && LegalAnswer(s.rows, batch) && batch != []
    ensures var m := Run(s, FirstHandled(batch));
            && |m.pullers| == |s.pullers| && m.pullers[1] == Working(batch)
            && batch[0].id in m.rows && Dispatches(m.log, batch[0].id) == 1
  {
    var both := s.(pullers := s.pullers[0 := Working(batch)][1 := Working(batch)]);
    BothSelect(s, batch);
    assert batch[0] in batch;
    Handled(both, 0, batch);
    FourSteps(s, Select(0, batch), Select(1, batch), Claim(0), Dispatch(0));
    DispatchesNext([], batch[0], batch[0].id);
  }

  /** The discipline is needed: from every initial state with two pullers and a new message there is a run that sets
      the message to new after its dispatch, and dispatches it twice. */
  lemma {:induction false} ResetRunDispatchesTwice(s: System, batch: seq<Fetched>)
    requires Initial(s) && |s.pullers| >= 2 && LegalAnswer(s.rows, batch) && batch != []
    ensures var id := batch[0].id;
            var steps := FirstHandled(batch) + [SetStatus(id, "new")] + [Claim(1)] + [Dispatch(1)];
            Dispatches(Run(s, steps).log, id) == 2 && !Disciplined(s, steps)
  {
    var id := batch[0].id;
    var a := FirstHandled(batch);
    FirstIsHandled(s, batch);
    ResetDispatchesAgain(Run(s, a), 1);
    RunNext(s, a, SetStatus(id, "new"));
    RunNext(s, a + [SetStatus(id, "new")], Claim(1));
    RunNext(s, a + [SetStatus(id, "new")] + [Claim(1)], Dispatch(1));
    NotDisciplined(s, a + [SetStatus(id, "new")], Claim(1));
    NotDisciplined(s, a + [SetStatus(id, "new")] + [Claim(1)], Dispatch(1));
  }

  lemma {:induction false} NotDisciplined(s: System, steps: seq<Step>, x: Step)
    requires !Disciplined(s, steps)
    ensures !Disciplined(s, steps + [x])
  {
    assert (steps + [x])[..|steps|] == steps;
  }

  /* ---- exactly when ---- */

  /** An undisciplined write breaks the invariant at once. */
  lemma {:induction false} OnlyKeepersKeep(s: System, step: Step)
    requires Inv(s) && Inv(Next(s, step))
    ensures KeepsClaims(s, step)
  {
    if step.SetStatus? && step.status == "new" {
      assert ClaimedOnce(s, step.id) && ClaimedOnce(Next(s, step), step.id);
    }
  }

  ghost predicate AlwaysOnce(s: System, steps: seq<Step>) {
    forall k :: 0 <= k <= |steps| ==> Inv(Run(s, steps[..k]))
  }

  lemma {:induction false} AlwaysOnceAt(s: System, steps: seq<Step>, n: nat, k: nat)
    requires k <= n <= |steps|
    ensures Run(s, steps[..n][..k]) == Run(s, steps[..k])
  {
    assert steps[..n][..k] == steps[..k];
  }

  lemma {:induction false} AlwaysOnceNext(s: System, steps: seq<Step>)
    requires steps != []
    ensures AlwaysOnce(s, steps) <==> AlwaysOnce(s, steps[..|steps| - 1]) && Inv(Run(s, steps))
  {
    var n := |steps| - 1;
    AlwaysOnceAt(s, steps, |steps|, |steps|);
    assert steps[..|steps|] == steps;
    forall k: nat | k <= n ensures Inv(Run(s, steps[..n][..k])) <==> Inv(Run(s, steps[..k])) {
      AlwaysOnceAt(s, steps, n, k);
    }
    if AlwaysOnce(s, steps[..n]) && Inv(Run(s, steps)) {
      forall k | 0 <= k <= |steps| ensures Inv(Run(s, steps[..k])) {
        if k <= n { assert Inv(Run(s, steps[..n][..k])); }
      }
    }
    if AlwaysOnce(s, steps) {
      forall k | 0 <= k <= n ensures Inv(Run(s, steps[..n][..k])) {
        assert Inv(Run(s, steps[..k]));
      }
    }
  }

  /** All along a run every message is claimed at most once, and a claimed one is not new, exactly if the run is
      disciplined. */
  lemma {:induction false} ClaimedOnceIff(s: System, steps: seq<Step>)
    requires Initial(s)
    ensures AlwaysOnce(s, steps) <==> Disciplined(s, steps)
  {
    RunKeepsClaims(s, []);
    if steps != [] {
      var n := |steps| - 1;
      ClaimedOnceIff(s, steps[..n]);
      AlwaysOnceNext(s, steps);
      if AlwaysOnce(s, steps) {
        assert steps[..n][..n] == steps[..n];
        assert Inv(Run(s, steps[..n]));
        OnlyKeepersKeep(Run(s, steps[..n]), steps[n]);
      } else if Disciplined(s, steps) {
        RunKeepsClaims(s, steps);
      }
    } else {
      assert steps[..0] == [];
    }
  }

  /** The status writes of the run are among the allowed ones. */
  predicate WritesOnly(steps: seq<Step>, allowed: set<string>) {
    forall step :: step in steps && step.SetStatus? ==> step.status in allowed
  }

  ghost predicate NeverTwice(allowed: set<string>) {
    forall s, steps, id :: Initial(s) && WritesOnly(steps, allowed) ==> Dispatches(Run(s, steps).log, id) <= 1
  }

  /** A table with one new message, and two pullers. */
  const ONE_MESSAGE := System(map["m" := Row(0.0, "hello", "new")], [Idle, Idle], [])

  lemma {:induction false} OneMessageLegal()
    ensures Initial(ONE_MESSAGE) && LegalAnswer(ONE_MESSAGE.rows, [Fetched("m", "hello")])
  {
    assert Fetched("m", "hello") in [Fetched("m", "hello")];
  }

  lemma {:induction false} ResetWritesOnly(batch: seq<Fetched>, id: string)
    ensures WritesOnly(FirstHandled(batch) + [SetStatus(id, "new")] + [Claim(1)] + [Dispatch(1)], {"new"})
  {}

  lemma {:induction false} OneMessageTwice(allowed: set<string>)
    requires "new" in allowed
    ensures !NeverTwice(allowed)
  {
    var batch := [Fetched("m", "hello")];
    var steps := FirstHandled(batch) + [SetStatus("m", "new")] + [Claim(1)] + [Dispatch(1)];
    OneMessageLegal();
    ResetRunDispatchesTwice(ONE_MESSAGE, batch);
    ResetWritesOnly(batch, "m");
    assert Dispatches(Run(ONE_MESSAGE, steps).log, "m") == 2;
  }

  /** No message is dispatched twice in any run from any table, with any number of pullers, exactly if the callers of
      `db_set_inbox_status` never write "new". */
  lemma {:induction false} NeverTwiceIff(allowed: set<string>)
    ensures NeverTwice(allowed) <==> "new" !in allowed
  {
    if "new" in allowed {
      OneMessageTwice(allowed);
    } else {
      forall s, steps, id | Initial(s) && WritesOnly(steps, allowed) ensures Dispatches(Run(s, steps).log, id) <= 1 {
        DoneIsDisciplined(s, steps);
        DispatchedAtMostOnce(s, steps, id);
      }
    }
  }

  /* ---- what is handed over ---- */

  /** The row is stored with that payload. */
  predicate Stored(rows: Table, f: Fetched) {
    f.id in rows && rows[f.id].payload == f.payload
  }

  predicate PhaseStored(rows: Table, phase: Phase) {
    match phase
    case Idle => true
    case Working(batch) => forall f :: f in batch ==> Stored(rows, f)
    case Holding(msg, rest) => Stored(rows, msg) && forall f :: f in rest ==> Stored(rows, f)
  }

  ghost predicate AllStored(s: System) {
    && (forall f :: f in s.log ==> Stored(s.rows, f))
    && (forall p :: 0 <= p < |s.pullers| ==> PhaseStored(s.rows, s.pullers[p]))
  }

  lemma {:induction false} StepKeepsStored(s: System, step: Step)
    requires AllStored(s)
    ensures AllStored(Next(s, step))
  {
    var r := Next(s, step);
    forall f | Stored(s.rows, f) ensures Stored(r.rows, f) {}
    forall p | 0 <= p < |r.pullers| ensures PhaseStored(r.rows, r.pullers[p]) {
      assert PhaseStored(s.rows, s.pullers[p]);
    }
  }

  /** Every event is the stored row of its id: payloads never change and rows are never removed. */
  lemma {:induction false} EventsAreRows(s: System, steps: seq<Step>)
    requires Initial(s)
    ensures AllStored(Run(s, steps))
  {
    if steps != [] {
      EventsAreRows(s, steps[..|steps| - 1]);
      StepKeepsStored(Run(s, steps[..|steps| - 1]), steps[|steps| - 1]);
    }
  }

  /* ---- one puller's pass over its batch ---- */

  datatype Pass = Pass(rows: Table, log: seq<Fetched>)

  /** What the loop over a batch does when nobody interferes. */
  function PassOver(rows: Table, batch: seq<Fetched>): Pass {
    if batch == [] then Pass(rows, [])
    else
      var n := |batch| - 1;
      var b := PassOver(rows, batch[..n]);
      if IsNew(b.rows, batch[n].id) then Pass(WithStatus(b.rows, batch[n].id, "processing"), b.log + [batch[n]]) else b
  }

  /** The steps of that loop: a claim for every row, and a dispatch where it succeeded. */
  function PassSteps(rows: Table, batch: seq<Fetched>, p: nat): seq<Step> {
    if batch == [] then []
    else
      var n := |batch| - 1;
      PassSteps(rows, batch[..n], p) + RowSteps(PassOver(rows, batch[..n]).rows, batch[n], p)
  }

  lemma {:induction false} RunMore(s: System, a: seq<Step>, b: seq<Step>)
    ensures Run(s, a + b) == Run(Run(s, a), b)
  {
    if b == [] {
      assert a + b == a;
    } else {
      var n := |b| - 1;
      assert (a + b)[..|a + b| - 1] == a + b[..n];
      RunMore(s, a, b[..n]);
    }
  }

  lemma {:induction false} RunOne(s: System, x: Step)
    ensures Run(s, [x]) == Next(s, x)
  {}

  function RowSteps(rows: Table, f: Fetched, p: nat): seq<Step> {
    if IsNew(rows, f.id) then [Claim(p)] + [Dispatch(p)] else [Claim(p)]
  }

  lemma {:induction false} OneRow(m: System, p: nat, f: Fetched, rest: seq<Fetched>)
    requires p < |m.pullers| && m.pullers[p] == Working([f] + rest)
    ensures Run(m, RowSteps(m.rows, f, p))
            == System(if IsNew(m.rows, f.id) then WithStatus(m.rows, f.id, "processing") else m.rows,
                      m.pullers[p := Working(rest)], if IsNew(m.rows, f.id) then m.log + [f] else m.log)
  {
    assert ([f] + rest)[1..] == rest;
    RunOne(m, Claim(p));
    if IsNew(m.rows, f.id) {
      var c := Next(m, Claim(p));
      RunMore(m, [Claim(p)], [Dispatch(p)]);
      RunOne(c, Dispatch(p));
      assert c.pullers[p := Working(rest)] == m.pullers[p := Working(rest)];
    }
  }

  /** The undisturbed pass is one run of the protocol. */
  lemma {:induction false} PassIsRun(s: System, p: nat, batch: seq<Fetched>, rest: seq<Fetched>)
    requires p < |s.pullers| && s.pullers[p] == Working(batch + rest)
    ensures var pass := PassOver(s.rows, batch);
            Run(s, PassSteps(s.rows, batch, p)) == System(pass.rows, s.pullers[p := Working(rest)], s.log + pass.log)
  {
    if batch == [] {
      assert batch + rest == rest && s.log + [] == s.log && s.pullers[p := Working(rest)] == s.pullers;
    } else {
      var n := |batch| - 1;
      LastFirst(batch, rest);
      PassIsRun(s, p, batch[..n], [batch[n]] + rest);
      var before := PassOver(s.rows, batch[..n]);
      LastRow(s, p, before, PassSteps(s.rows, batch[..n], p), batch[n], rest);
    }
  }

  lemma {:induction false} LastFirst<T>(a: seq<T>, b: seq<T>)
    requires a != []
    ensures a + b == a[..|a| - 1] + ([a[|a| - 1]] + b)
  {}

  lemma {:induction false} LastRow(s: System, p: nat, before: Pass, steps: seq<Step>, f: Fetched, rest: seq<Fetched>)
    requires p < |s.pullers|
             && Run(s, steps) == System(before.rows, s.pullers[p := Working([f] + rest)], s.log + before.log)
    ensures Run(s, steps + RowSteps(before.rows, f, p))
            == System(if IsNew(before.rows, f.id) then WithStatus(before.rows, f.id, "processing") else before.rows,
                      s.pullers[p := Working(rest)],
                      s.log + (if IsNew(before.rows, f.id) then before.log + [f] else before.log))
  {
    var m := Run(s, steps);
    OneRow(m, p, f, rest);
    RunMore(s, steps, RowSteps(before.rows, f, p));
    assert m.pullers[p := Working(rest)] == s.pullers[p := Working(rest)];
    assert s.log + before.log + [f] == s.log + (before.log + [f]);
  }

  /** The table, and the statements that update it. */
  class ChatInbox {
    var rows: Table

    constructor ()
      ensures rows == map[]
    {
      rows := map[];
    }

    method Insert(id: string, row: Row) returns (ok: bool)
      modifies this
      ensures rows == Inserted(old(rows), id, row) && (ok <==> id !in old(rows))
    {
      ok := id !in rows;
      if ok {
        rows := rows[id := row];
      }
    }

    /** `db_set_inbox_status`. */
    method SetStatus(id: string, status: string)
      modifies this
      ensures rows == WithStatus(old(rows), id, status)
    {
      if id in rows {
        rows := rows[id := rows[id].(status := status)];
      }
    }

    /** The guarded UPDATE: its row count. */
    method Claim(id: string) returns (rowcount: nat)
      modifies this
      ensures rowcount == (if IsNew(old(rows), id) then 1 else 0)
      ensures rows == if rowcount == 1 then WithStatus(old(rows), id, "processing") else old(rows)
    {
      rowcount := 0;
      if id in rows && rows[id].status == "new" {
        rows := rows[id := rows[id].(status := "processing")];
        rowcount := 1;
      }
    }

    /** The loop over one batch, undisturbed: the events handed to `on_event`. */
    method PullBatch(batch: seq<Fetched>) returns (events: seq<Fetched>)
      modifies this
      ensures Pass(rows, events) == PassOver(old(rows), batch)
    {
      events := [];
      for k := 0 to |batch|
        invariant Pass(rows, events) == PassOver(old(rows), batch[..k])
      {
        assert batch[..k + 1][..k] == batch[..k];
        var rowcount := Claim(batch[k].id);
        if rowcount == 0 {
          continue;
        }
        events := events + [batch[k]];
      }
      assert batch[..|batch|] == batch;
    }
  }

  /* ---- what the SELECT answers ---- */

  function FirstIds(batch: seq<Fetched>, k: nat): set<string>
    requires k <= |batch|
  {
    if k == 0 then {} else FirstIds(batch, k - 1) + {batch[k - 1].id}
  }

  lemma {:induction false} FirstIdsHave(batch: seq<Fetched>, k: nat, id: string)
    requires k <= |batch|
    ensures id in FirstIds(batch, k) <==> exists j :: 0 <= j < k && batch[j].id == id
  {
    if k > 0 {
      FirstIdsHave(batch, k - 1, id);
    }
  }

  lemma {:induction false} FirstIdsCount(batch: seq<Fetched>, k: nat)
    requires k <= |batch| && forall i, j :: 0 <= i < j < |batch| ==> batch[i].id != batch[j].id
    ensures |FirstIds(batch, k)| == k
  {
    if k > 0 {
      FirstIdsCount(batch, k - 1);
      FirstIdsHave(batch, k - 1, batch[k - 1].id);
    }
  }

  /** No two new rows have the same timestamp. */
  ghost predicate DistinctTimes(rows: Table) {
    forall a, b :: IsNew(rows, a) && IsNew(rows, b) && rows[a].ts == rows[b].ts ==> a == b
  }

  /** Both rows are new, and the first is older. */
  predicate Older(rows: Table, a: string, b: string) {
    IsNew(rows, a) && IsNew(rows, b) && rows[a].ts < rows[b].ts
  }

  ghost predicate InBatch(batch: seq<Fetched>, id: string) {
    exists j :: 0 <= j < |batch| && batch[j].id == id
  }

  lemma {:induction false} BatchInOrder(rows: Table, batch: seq<Fetched>, j: nat, k: nat)
    requires LegalAnswer(rows, batch) && DistinctTimes(rows) && j < k < |batch|
    ensures Older(rows, batch[j].id, batch[k].id)
  {
    assert batch[j] in batch && batch[k] in batch;
    assert batch[j].id != batch[k].id;
  }

  lemma {:induction false} LeftOutNewer(rows: Table, batch: seq<Fetched>, k: nat, id: string)
    requires LegalAnswer(rows, batch) && k < |batch| && !InBatch(batch, id)
    ensures !Older(rows, id, batch[k].id)
  {
    assert batch[k] in batch;
  }

  lemma {:induction false} NotTwoWays(rows: Table, a: string, b: string)
    ensures Older(rows, a, b) ==> !Older(rows, b, a)
    ensures !Older(rows, a, a)
  {}

  lemma {:induction false} AnsweredOlder(rows: Table, batch: seq<Fetched>, j: nat, k: nat)
    requires LegalAnswer(rows, batch) && DistinctTimes(rows) && j < |batch| && k < |batch|
    ensures Older(rows, batch[j].id, batch[k].id) <==> j < k
  {
    NotTwoWays(rows, batch[j].id, batch[k].id);
    if j < k {
      BatchInOrder(rows, batch, j, k);
    } else if k < j {
      BatchInOrder(rows, batch, k, j);
    }
  }

  lemma {:induction false} FirstInBatch(batch: seq<Fetched>, k: nat, id: string)
    requires k <= |batch| && id in FirstIds(batch, k)
    ensures InBatch(batch, id)
  {
    FirstIdsHave(batch, k, id);
  }

  lemma {:induction false} FirstAt(batch: seq<Fetched>, k: nat, j: nat)
    requires k <= |batch| && j < |batch| && forall a, b :: 0 <= a < b < |batch| ==> batch[a].id != batch[b].id
    ensures batch[j].id in FirstIds(batch, k) <==> j < k
  {
    FirstIdsHave(batch, k, batch[j].id);
  }

  /** The row is new and older than the k-th of the batch exactly if it is one of the first k. */
  lemma {:induction false} OlderIff(rows: Table, batch: seq<Fetched>, k: nat, id: string)
    requires LegalAnswer(rows, batch) && DistinctTimes(rows) && k < |batch|
    ensures Older(rows, id, batch[k].id) <==> id in FirstIds(batch, k)
  {
    if InBatch(batch, id) {
      var j :| 0 <= j < |batch| && batch[j].id == id;
      AnsweredOlder(rows, batch, j, k);
      FirstAt(batch, k, j);
    } else {
      LeftOutNewer(rows, batch, k, id);
      if id in FirstIds(batch, k) { FirstInBatch(batch, k, id); }
    }
  }

  /** The k-th row of the batch has exactly k new rows before it. */
  lemma {:induction false} OldestFirst(rows: Table, batch: seq<Fetched>, k: nat, older: set<string>)
    requires LegalAnswer(rows, batch) && DistinctTimes(rows) && k < |batch|
    requires forall id :: id in older <==> Older(rows, id, batch[k].id)
    ensures |older| == k
  {
    forall id ensures id in older <==> id in FirstIds(batch, k) {
      OlderIff(rows, batch, k, id);
    }
    assert older == FirstIds(batch, k);
    FirstIdsCount(batch, k);
  }

  lemma {:induction false} AnsweredIds(rows: Table, batch: seq<Fetched>, id: string)
    requires LegalAnswer(rows, batch)
    ensures id in FirstIds(batch, |batch|) ==> IsNew(rows, id)
    ensures |batch| < BATCH_LIMIT && IsNew(rows, id) ==> id in FirstIds(batch, |batch|)
  {
    FirstIdsHave(batch, |batch|, id);
    if j :| 0 <= j < |batch| && batch[j].id == id {
      assert batch[j] in batch;
    }
    if f :| f in batch && f.id == id {
      var j :| 0 <= j < |batch| && batch[j] == f;
    }
  }

  /** The batch has all new rows, or five of them. */
  lemma {:induction false} AnswerSize(rows: Table, batch: seq<Fetched>, unclaimed: set<string>)
    requires LegalAnswer(rows, batch) && forall id :: id in unclaimed <==> IsNew(rows, id)
    ensures |batch| == if |unclaimed| <= 5 then |unclaimed| else 5
  {
    var ids := FirstIds(batch, |batch|);
    forall id ensures (id in ids ==> id in unclaimed) && (|batch| < 5 && id in unclaimed ==> id in ids) {
      AnsweredIds(rows, batch, id);
    }
    FirstIdsCount(batch, |batch|);
    SubsetSize(ids, unclaimed);
    if |batch| < 5 {
      assert ids == unclaimed;
    }
  }
}
