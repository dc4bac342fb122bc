/** How often a Task object is executed, and how long the kernel backs off for it. */
module Attempts {
  import opened PyText
  import opened Schemas
  import opened CompileCheck
  import opened KernelState
  import opened PlanInvariant
  import opened StepFrame
  import opened TaskLives

  /** The number of times the worker was started on an object. */
  function Executions(trace: seq<Event>, obj: nat): nat {
    if trace == [] then 0
    else
      var e := trace[|trace| - 1];
      Executions(trace[..|trace| - 1], obj) + (if e.WorkerStarted? && e.obj == obj then 1 else 0)
  }

  /** The back-off scheduled for an object, in milliseconds. */
  function BackoffMs(trace: seq<Event>, obj: nat): int {
    if trace == [] then 0
    else
      var e := trace[|trace| - 1];
      BackoffMs(trace[..|trace| - 1], obj) + (if e.RetryScheduled? && e.obj == obj then e.delayMs else 0)
  }

  lemma {:induction false} CountsNext(trace: seq<Event>, e: Event, obj: nat)
    ensures Executions(trace + [e], obj) == Executions(trace, obj) + (if e.WorkerStarted? && e.obj == obj then 1 else 0)
    ensures BackoffMs(trace + [e], obj) == BackoffMs(trace, obj)
            + (if e.RetryScheduled? && e.obj == obj then e.delayMs else 0)
  {}

  /** The ledger holds everything that is counted. */
  lemma {:induction false} CountsOfLedger(trace: seq<Event>, obj: nat)
    ensures Executions(Ledger(trace), obj) == Executions(trace, obj)
    ensures BackoffMs(Ledger(trace), obj) == BackoffMs(trace, obj)
  {
    if trace != [] {
      var n := |trace| - 1;
      var l := Ledger(trace[..n]);
      CountsOfLedger(trace[..n], obj);
      if InLedger(trace[n]) {
        CountsNext(l, trace[n], obj);
        assert Ledger(trace) == l + [trace[n]];
      } else {
        assert Ledger(trace) == l;
      }
    }
  }

  /* ---- the invariant ---- */

  /** The back-off of `n` retries in all: the delays double, or stay the same under any other policy. */
  function BackoffTotal(p: RetryPolicy, n: nat): int {
    if Lower(Strip(p.backoff)) == "exponential" then p.baseDelayMs * (Pow2(n) - 1) else p.baseDelayMs * n
  }

  ghost predicate TaskOk(l: seq<Event>, t: Task) {
    && t.retries < Policy(t).maxAttempts
    && t.status != FailedRetryable
    && (t.status in {Draft, Ready} ==> Executions(l, t.obj) == t.retries)
    && t.retries <= Executions(l, t.obj) <= t.retries + 1
    && BackoffMs(l, t.obj) == BackoffTotal(Policy(t), t.retries)
  }

  ghost predicate Untouched(l: seq<Event>, obj: nat) {
    Executions(l, obj) == 0 && BackoffMs(l, obj) == 0
  }

  ghost predicate AllOk(l: seq<Event>, tasks: seq<Task>, nextObj: nat) {
    && (forall k :: 0 <= k < |tasks| ==> TaskOk(l, tasks[k]))
    && (forall obj: nat :: obj >= nextObj ==> Untouched(l, obj))
  }

  ghost predicate ObjInv(s: KState) {
    AllOk(Ledger(s.trace), s.tasks, s.nextObj)
  }

  lemma {:induction false} NewIsOk(l: seq<Event>, t: Task)
    requires Untouched(l, t.obj) && t.status == Draft && t.retries == 0
    ensures TaskOk(l, t)
  {}

  lemma {:induction false} SettledIsOk(l: seq<Event>, a: Task, b: Task)
    requires TaskOk(l, a) && Settled(a) == Settled(b)
    ensures TaskOk(l, b)
  {}

  /** The same counts, seen in another ledger. */
  lemma {:induction false} OkElsewhere(l: seq<Event>, m: seq<Event>, t: Task)
    requires TaskOk(l, t) && Executions(m, t.obj) == Executions(l, t.obj) && BackoffMs(m, t.obj) == BackoffMs(l, t.obj)
    ensures TaskOk(m, t)
  {}

  lemma {:induction false} PlannedOk(s: KState, planner: Planner)
    requires ObjInv(s)
    ensures ObjInv(Planned(s, planner))
  {
    PlannedQuiet(s, planner);
    if s.tasks == [] {
      var p := Planned(s, planner);
      NewIsOk(Ledger(s.trace), p.tasks[0]);
    }
  }

  lemma {:induction false} MarkedOk(l: seq<Event>, t: Task, nodes: seq<Subgoal>, tools: Tools)
    requires TaskOk(l, t) && t.status in LIVE_STATUSES
    ensures TaskOk(l, Marked(t, nodes, tools))
  {
    StatusOk(l, t, Marked(t, nodes, tools).status);
  }

  lemma {:induction false} StatusOk(l: seq<Event>, t: Task, status: Status)
    requires TaskOk(l, t) && status != FailedRetryable && (status in {Draft, Ready} ==> t.status in {Draft, Ready})
    ensures TaskOk(l, t.(status := status))
  {}

  lemma {:induction false} CheckedOk(s: KState, tools: Tools)
    requires ObjInv(s) && PlanInv(s)
    ensures ObjInv(Checked(s, tools))
  {
    CheckedQuiet(s, tools);
    var c := Checked(s, tools);
    forall k | 0 <= k < |c.tasks| ensures TaskOk(Ledger(c.trace), c.tasks[k]) {
      assert GoodTask(s.tasks[k], s.nextSeq, s.nextObj);
      MarkedOk(Ledger(s.trace), s.tasks[k], Nodes(s.tasks), tools);
    }
  }

  /* ---- one execution ---- */

  /** The ledger entries of an execution of `t`. */
  function Entries(t: Task, routed: seq<Event>, retry: seq<Event>): seq<Event> {
    [WorkerStarted(t.obj, t.id)] + routed + retry
  }

  predicate RoutedEntry(routed: seq<Event>) {
    routed == [] || (|routed| == 1 && routed[0].FailureRouted?)
  }

  /** At most one more entry. */
  lemma {:induction false} MoreCounts(l: seq<Event>, more: seq<Event>, obj: nat)
    requires |more| <= 1
    ensures Executions(l + more, obj)
            == Executions(l, obj) + (if more != [] && more[0].WorkerStarted? && more[0].obj == obj then 1 else 0)
    ensures BackoffMs(l + more, obj)
            == BackoffMs(l, obj)
               + (if more != [] && more[0].RetryScheduled? && more[0].obj == obj then more[0].delayMs else 0)
  {
    if more == [] {
      assert l + more == l;
    } else {
      assert more == [more[0]];
      CountsNext(l, more[0], obj);
    }
  }

  /** What one entry adds to the counts of an object. */
  lemma {:induction false} EntryParts(l: seq<Event>, t: Task, routed: seq<Event>, retry: seq<Event>, obj: nat)
    requires RoutedEntry(routed) && |retry| <= 1 && (retry != [] ==> retry[0].RetryScheduled?)
    ensures var m := l + Entries(t, routed, retry);
            && Executions(m, obj) == Executions(l, obj) + (if obj == t.obj then 1 else 0)
            && BackoffMs(m, obj)
               == BackoffMs(l, obj) + (if retry != [] && retry[0].obj == obj then retry[0].delayMs else 0)
  {
    var started := [WorkerStarted(t.obj, t.id)];
    var a := l + started;
    MoreCounts(l, started, obj);
    var b := a + routed;
    MoreCounts(a, routed, obj);
    MoreCounts(b, retry, obj);
    EntriesJoin(l, t, routed, retry);
  }

  lemma {:induction false} EntryCounts(l: seq<Event>, t: Task, routed: seq<Event>, retry: seq<Event>, obj: nat)
    requires RoutedEntry(routed) && (retry == [] || retry == RetryEntry(t))
    ensures var m := l + Entries(t, routed, retry);
            && Executions(m, obj) == Executions(l, obj) + (if obj == t.obj then 1 else 0)
            && BackoffMs(m, obj) == BackoffMs(l, obj)
                 + (if retry != [] && obj == t.obj then RetryDelayMs(Policy(t), t.retries + 1) else 0)
  {
    EntryParts(l, t, routed, retry, obj);
  }

  lemma {:induction false} EntriesJoin(l: seq<Event>, t: Task, routed: seq<Event>, retry: seq<Event>)
    ensures l + Entries(t, routed, retry) == l + [WorkerStarted(t.obj, t.id)] + routed + retry
  {}

  lemma {:induction false} NextMultiple(b: int, q: int)
    ensures b * (q - 1) + b * q == b * (2 * q - 1)
  {}

  lemma {:induction false} OneMore(b: int, r: int)
    ensures b * r + b == b * (r + 1)
  {}

  /** One more retry adds its delay to the total. */
  lemma {:induction false} DelayStep(p: RetryPolicy, r: nat)
    requires p.baseDelayMs >= 1
    ensures BackoffTotal(p, r) + RetryDelayMs(p, r + 1) == BackoffTotal(p, r + 1)
  {
    assert Max(1, r + 1) - 1 == r;
    NextMultiple(p.baseDelayMs, Pow2(r));
    OneMore(p.baseDelayMs, r);
    assert Pow2(r + 1) == 2 * Pow2(r);
  }

  lemma {:induction false} PowPositive(n: nat)
    ensures Pow2(n) >= 1
  {
    if n > 0 { PowPositive(n - 1); }
  }

  lemma {:induction false} CountedOk(m: seq<Event>, v: Task, t: Task, retried: bool, spent: int)
    requires Next(v, t, retried) && v.retries < Policy(v).maxAttempts && spent == BackoffTotal(Policy(v), v.retries)
    requires Executions(m, v.obj) == v.retries + 1
    requires BackoffMs(m, v.obj) == spent + (if retried then RetryDelayMs(Policy(v), v.retries + 1) else 0)
    ensures TaskOk(m, t)
  {
    DelayStep(Policy(v), v.retries);
  }

  /** A task that is run again: one more retry, one more execution, one more back-off. */
  lemma {:induction false} NextOk(l: seq<Event>, v: Task, routed: seq<Event>, retry: seq<Event>, t: Task)
    requires RoutedEntry(routed) && (retry == [] || retry == RetryEntry(v)) && Next(v, t, retry != [])
    requires Executions(l, v.obj) == v.retries && BackoffMs(l, v.obj) == BackoffTotal(Policy(v), v.retries)
    requires v.retries < Policy(v).maxAttempts
    ensures TaskOk(l + Entries(v, routed, retry), t)
  {
    EntryCounts(l, v, routed, retry, v.obj);
    CountedOk(l + Entries(v, routed, retry), v, t, retry != [], BackoffMs(l, v.obj));
  }

  lemma {:induction false} OffspringOk(l: seq<Event>, v: seq<Task>, i: nat, routed: seq<Event>, retry: seq<Event>,
                                       t: Task, nextSeq: nat, nextObj: nat)
    requires GoodTasks(v, nextSeq, nextObj) && i < |v| && Offspring(v, i, t, nextObj, retry != [])
    requires RoutedEntry(routed) && (retry == [] || retry == RetryEntry(v[i]))
    requires forall j :: 0 <= j < |v| && j != i ==> TaskOk(l, v[j])
    requires Executions(l, v[i].obj) == v[i].retries
             && BackoffMs(l, v[i].obj) == BackoffTotal(Policy(v[i]), v[i].retries)
    requires v[i].retries < Policy(v[i]).maxAttempts
    requires forall obj: nat :: obj >= nextObj ==> Untouched(l, obj)
    ensures TaskOk(l + Entries(v[i], routed, retry), t)
  {
    var m := l + Entries(v[i], routed, retry);
    EntryCounts(l, v[i], routed, retry, t.obj);
    if Kin(v, i, t) {
      KinIsOther(v, i, t);
      var j :| 0 <= j < |v| && j != i && Settled(v[j]) == Settled(t);
      SettledIsOk(l, v[j], t);
      OkElsewhere(l, m, t);
    } else if IsNew(t, nextObj) {
      assert GoodTask(v[i], nextSeq, nextObj);
      assert Untouched(l, t.obj);
      NewIsOk(m, t);
    } else {
      NextOk(l, v[i], routed, retry, t);
    }
  }

  lemma {:induction false} UntouchedAfter(l: seq<Event>, t: Task, routed: seq<Event>, retry: seq<Event>, a: nat, b: nat)
    requires RoutedEntry(routed) && (retry == [] || retry == RetryEntry(t)) && t.obj < a <= b
    requires forall obj: nat :: obj >= a ==> Untouched(l, obj)
    ensures forall obj: nat :: obj >= b ==> Untouched(l + Entries(t, routed, retry), obj)
  {
    forall obj: nat | obj >= b ensures Untouched(l + Entries(t, routed, retry), obj) {
      assert Untouched(l, obj);
      EntryCounts(l, t, routed, retry, obj);
    }
  }
}
