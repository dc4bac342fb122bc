/** Whole-run bounds: how often a task object is executed, how long the kernel backs off for it, and how
    often one failure is routed. */
module Guarantees {
  import opened PyText
  import opened Schemas
  import opened CompileCheck
  import opened FailureRouter
  import opened CircuitBreakers
  import opened KernelState
  import opened PlanInvariant
  import opened PlanSteps
  import opened PlanBatches
  import opened StepFrame
  import opened TaskLives
  import opened Attempts
  import opened StepObjects
  import opened Runs

  /* ---- attempts ---- */

  ghost predicate WithinLimits(l: seq<Event>, obj: nat, p: RetryPolicy) {
    && Executions(l, obj) <= p.maxAttempts
    && BackoffMs(l, obj) <= BackoffTotal(p, Max(0, p.maxAttempts - 1))
  }

  lemma {:induction false} PowGrows(a: nat, b: nat)
    requires a <= b
    ensures Pow2(a) <= Pow2(b)
  {
    if a < b {
      PowGrows(a, b - 1);
      PowPositive(b - 1);
    }
  }

  lemma {:induction false} MultipleGrows(b: int, a: int, c: int)
    requires b >= 1 && a <= c
    ensures b * a <= b * c
  {}

  lemma {:induction false} BoundGrows(p: RetryPolicy, a: nat, b: nat)
    requires p.baseDelayMs >= 1 && a <= b
    ensures BackoffTotal(p, a) <= BackoffTotal(p, b)
  {
    PowGrows(a, b);
    MultipleGrows(p.baseDelayMs, Pow2(a) - 1, Pow2(b) - 1);
    MultipleGrows(p.baseDelayMs, a, b);
  }

  lemma {:induction false} OkWithinLimits(l: seq<Event>, t: Task)
    requires TaskOk(l, t)
    ensures WithinLimits(l, t.obj, Policy(t))
  {
    BoundGrows(Policy(t), t.retries, Policy(t).maxAttempts - 1);
  }

  ghost predicate Holds(tasks: seq<Task>, obj: nat, p: RetryPolicy) {
    exists k :: 0 <= k < |tasks| && tasks[k].obj == obj && Policy(tasks[k]) == p
  }

  ghost predicate Absent(tasks: seq<Task>, obj: nat) {
    forall k :: 0 <= k < |tasks| ==> tasks[k].obj != obj
  }

  /** The object is in the plan with policy `p`, or has left it within its limits. */
  ghost predicate Tracked(s: KState, obj: nat, p: RetryPolicy) {
    Holds(s.tasks, obj, p) || (obj < s.nextObj && Absent(s.tasks, obj) && WithinLimits(Ledger(s.trace), obj, p))
  }

  lemma {:induction false} KeptPolicy(v: seq<Task>, i: nat, t: Task, nextSeq: nat, nextObj: nat, retried: bool, j: nat)
    requires GoodTasks(v, nextSeq, nextObj) && i < |v| && j < |v| && v[j].obj == t.obj
    requires Offspring(v, i, t, nextObj, retried)
    ensures Policy(t) == Policy(v[j])
  {}

  /** If the object is still in the new plan, then with its policy; if not, within its limits. */
  lemma {:induction false} EvolvedTracked(l: seq<Event>, v: KState, i: nat, routed: seq<Event>, retry: seq<Event>,
                                          r: KState, j: nat)
    requires MayRun(v, i) && Evolves(v.tasks, i, r.tasks, v.nextObj, retry != []) && r.nextObj >= v.nextObj
    requires RoutedEntry(routed) && (retry == [] || retry == RetryEntry(v.tasks[i]))
    requires Ledger(r.trace) == l + Entries(v.tasks[i], routed, retry)
    requires ReadyToCount(l, v, i) && j < |v.tasks|
    ensures Tracked(r, v.tasks[j].obj, Policy(v.tasks[j]))
  {
    var obj, p := v.tasks[j].obj, Policy(v.tasks[j]);
    if !Absent(r.tasks, obj) {
      var k :| 0 <= k < |r.tasks| && r.tasks[k].obj == obj;
      assert Offspring(v.tasks, i, r.tasks[k], v.nextObj, retry != []);
      KeptPolicy(v.tasks, i, r.tasks[k], v.nextSeq, v.nextObj, retry != [], j);
    } else {
      assert GoodTask(v.tasks[j], v.nextSeq, v.nextObj);
      LimitsAfterEntries(l, v, i, routed, retry, j);
    }
  }

  lemma {:induction false} LimitsAfterEntries(l: seq<Event>, v: KState, i: nat, routed: seq<Event>, retry: seq<Event>,
                                              j: nat)
    requires MayRun(v, i) && ReadyToCount(l, v, i) && j < |v.tasks|
    requires RoutedEntry(routed) && (retry == [] || retry == RetryEntry(v.tasks[i]))
    ensures WithinLimits(l + Entries(v.tasks[i], routed, retry), v.tasks[j].obj, Policy(v.tasks[j]))
  {
    var m := l + Entries(v.tasks[i], routed, retry);
    var t := v.tasks[i];
    EntryCounts(l, t, routed, retry, v.tasks[j].obj);
    if j != i {
      OkElsewhere(l, m, v.tasks[j]);
      OkWithinLimits(m, v.tasks[j]);
    } else {
      ExecutedWithin(l, m, t, retry != []);
    }
  }

  /** One more execution, and possibly one more back-off, of a task that has attempts left. */
  lemma {:induction false} ExecutedWithin(l: seq<Event>, m: seq<Event>, t: Task, retried: bool)
    requires Executions(l, t.obj) == t.retries < Policy(t).maxAttempts
             && BackoffMs(l, t.obj) == BackoffTotal(Policy(t), t.retries)
    requires retried ==> t.retries + 1 < Policy(t).maxAttempts
    requires Executions(m, t.obj) == Executions(l, t.obj) + 1
    requires BackoffMs(m, t.obj) == BackoffMs(l, t.obj)
             + (if retried then RetryDelayMs(Policy(t), t.retries + 1) else 0)
    ensures WithinLimits(m, t.obj, Policy(t))
  {
    var p := Policy(t);
    if retried {
      DelayStep(p, t.retries);
      BoundGrows(p, t.retries + 1, p.maxAttempts - 1);
    } else {
      BoundGrows(p, t.retries, p.maxAttempts - 1);
    }
  }

  lemma {:induction false} AbsentStays(l: seq<Event>, v: KState, i: nat, routed: seq<Event>, retry: seq<Event>,
                                       r: KState, obj: nat, p: RetryPolicy)
    requires MayRun(v, i) && Evolves(v.tasks, i, r.tasks, v.nextObj, retry != []) && r.nextObj >= v.nextObj
    requires RoutedEntry(routed) && (retry == [] || retry == RetryEntry(v.tasks[i]))
    requires Ledger(r.trace) == l + Entries(v.tasks[i], routed, retry)
    requires obj < v.nextObj && Absent(v.tasks, obj) && WithinLimits(l, obj, p)
    ensures Tracked(r, obj, p)
  {
    EntryCounts(l, v.tasks[i], routed, retry, obj);
    forall k | 0 <= k < |r.tasks| ensures r.tasks[k].obj != obj {
      assert Offspring(v.tasks, i, r.tasks[k], v.nextObj, retry != []);
      if Kin(v.tasks, i, r.tasks[k]) {
        var j :| 0 <= j < |v.tasks| && j != i && Settled(v.tasks[j]) == Settled(r.tasks[k]);
        assert v.tasks[j].obj == Settled(v.tasks[j]).obj == r.tasks[k].obj;
      }
    }
  }

  lemma {:induction false} PlannedTracks(s: KState, planner: Planner, obj: nat, p: RetryPolicy)
    requires PlanInv(s) && Tracked(s, obj, p)
    ensures Tracked(Planned(s, planner), obj, p)
  {
    PlannedQuiet(s, planner);
    if s.tasks == [] {
      PlannedView(s, planner);
    }
  }

  lemma {:induction false} CheckedHolders(s: KState, tools: Tools)
    ensures var c := Checked(s, tools);
            && |c.tasks| == |s.tasks| && c.nextObj == s.nextObj
            && forall k :: 0 <= k < |s.tasks| ==>
                 c.tasks[k].obj == s.tasks[k].obj && Policy(c.tasks[k]) == Policy(s.tasks[k])
  {}

  lemma {:induction false} CheckedTracks(s: KState, tools: Tools, obj: nat, p: RetryPolicy)
    requires Tracked(s, obj, p)
    ensures Tracked(Checked(s, tools), obj, p)
  {
    CheckedQuiet(s, tools);
    CheckedHolders(s, tools);
    SameHolders(s.tasks, Checked(s, tools).tasks, obj, p);
  }

  /** Up to the call nothing is forgotten. */
  lemma {:induction false} CallTracked(s: KState, env: Env, planner: Planner, obj: nat, p: RetryPolicy)
    requires PlanInv(s) && Tracked(s, obj, p)
    ensures Tracked(Planned(s, planner), obj, p) && Tracked(Checked(Planned(s, planner), env.tools), obj, p)
    ensures Ledger(Checked(Planned(s, planner), env.tools).trace) == Ledger(s.trace)
  {
    PlannedQuiet(s, planner);
    CheckedQuiet(Planned(s, planner), env.tools);
    PlannedTracks(s, planner, obj, p);
    CheckedTracks(Planned(s, planner), env.tools, obj, p);
  }

  lemma {:induction false} StepTracks(s: KState, env: Env, planner: Planner, obj: nat, p: RetryPolicy)
    requires PlanInv(s) && ObjInv(s) && GoodReply(env.reply) && Tracked(s, obj, p)
    ensures Tracked(Step(s, env, planner).state, obj, p)
  {
    CallTracked(s, env, planner, obj, p);
    if Calls(s, env, planner) {
      if Step(s, env, planner).raised {
        RaisedTracked(s, env, planner, obj, p);
      } else {
        ExecutedTracked(s, env, planner, obj, p);
      }
    } else {
      StepIsQuiet(s, env, planner);
    }
  }

  lemma {:induction false} SameHolders(a: seq<Task>, b: seq<Task>, obj: nat, p: RetryPolicy)
    requires |a| == |b| && forall k :: 0 <= k < |a| ==> a[k].obj == b[k].obj && Policy(a[k]) == Policy(b[k])
    ensures Holds(a, obj, p) ==> Holds(b, obj, p)
    ensures Absent(a, obj) ==> Absent(b, obj)
  {}

  lemma {:induction false} CallHolders(s: KState, env: Env, planner: Planner)
    requires Calls(s, env, planner)
    ensures var v, c := AtCall(s, env, planner), Checked(Planned(s, planner), env.tools);
            && |v.tasks| == |c.tasks| && v.nextObj == c.nextObj
            && forall k :: 0 <= k < |c.tasks| ==>
                 c.tasks[k].obj == v.tasks[k].obj && Policy(c.tasks[k]) == Policy(v.tasks[k])
  {
    CallFrame(s, env, planner);
  }

  /** Handing the task to the worker keeps identities and policies. */
  lemma {:induction false} AtCallTracked(s: KState, env: Env, planner: Planner, obj: nat, p: RetryPolicy)
    requires PlanInv(s) && Tracked(s, obj, p) && Calls(s, env, planner)
    ensures var v := AtCall(s, env, planner);
            Holds(v.tasks, obj, p) || (obj < v.nextObj && Absent(v.tasks, obj) && WithinLimits(Ledger(s.trace), obj, p))
  {
    CallTracked(s, env, planner, obj, p);
    CallHolders(s, env, planner);
    SameHolders(Checked(Planned(s, planner), env.tools).tasks, AtCall(s, env, planner).tasks, obj, p);
  }

  lemma {:induction false} ResolvedEvolves(v: KState, i: nat, codes: set<Code>, env: Env)
    requires MayRun(v, i) && GoodReply(env.reply) && !Resolve(v, i, codes, env).raised
    ensures var r := Resolve(v, i, codes, env).state;
            Evolves(v.tasks, i, r.tasks, v.nextObj, RetryPart(v, i, codes, env) != []) && r.nextObj >= v.nextObj
  {
    ResolveEvolves(v, i, codes, env);
    ResolveGrows(v, i, codes, env);
  }

  lemma {:induction false} ExecutionEvolves(s: KState, env: Env, planner: Planner)
    requires PlanInv(s) && GoodReply(env.reply) && Calls(s, env, planner) && !Step(s, env, planner).raised
    ensures var v, i := AtCall(s, env, planner), Called(s, env, planner);
            var r := Step(s, env, planner).state;
            && MayRun(v, i) && r.nextObj >= v.nextObj
            && Evolves(v.tasks, i, r.tasks, v.nextObj, RetryPart(v, i, CallCodes(s, env, planner), env) != [])
  {
    CallReady(s, env, planner);
    StepIsResolve(s, env, planner);
    ResolvedEvolves(AtCall(s, env, planner), Called(s, env, planner), CallCodes(s, env, planner), env);
  }

  lemma {:induction false} ExecutedTracked(s: KState, env: Env, planner: Planner, obj: nat, p: RetryPolicy)
    requires PlanInv(s) && ObjInv(s) && GoodReply(env.reply) && Tracked(s, obj, p)
    requires Calls(s, env, planner) && !Step(s, env, planner).raised
    ensures Tracked(Step(s, env, planner).state, obj, p)
  {
    var v, i := AtCall(s, env, planner), Called(s, env, planner);
    var codes := CallCodes(s, env, planner);
    AtCallTracked(s, env, planner, obj, p);
    CalledOk(s, env, planner);
    ExecutionEvolves(s, env, planner);
    ExecutionLedger(s, env, planner);
    ResolvedTracked(Ledger(s.trace), v, i, RoutedPart(v, i, codes, env), RetryPart(v, i, codes, env),
                    Step(s, env, planner).state, obj, p);
  }

  lemma {:induction false} ResolvedTracked(l: seq<Event>, v: KState, i: nat, routed: seq<Event>, retry: seq<Event>,
                                           r: KState, obj: nat, p: RetryPolicy)
    requires MayRun(v, i) && Evolves(v.tasks, i, r.tasks, v.nextObj, retry != []) && r.nextObj >= v.nextObj
    requires RoutedEntry(routed) && (retry == [] || retry == RetryEntry(v.tasks[i]))
    requires Ledger(r.trace) == l + Entries(v.tasks[i], routed, retry)
    requires ReadyToCount(l, v, i)
    requires Holds(v.tasks, obj, p) || (obj < v.nextObj && Absent(v.tasks, obj) && WithinLimits(l, obj, p))
    ensures Tracked(r, obj, p)
  {
    if Holds(v.tasks, obj, p) {
      var k :| 0 <= k < |v.tasks| && v.tasks[k].obj == obj && Policy(v.tasks[k]) == p;
      EvolvedTracked(l, v, i, routed, retry, r, k);
    } else {
      AbsentStays(l, v, i, routed, retry, r, obj, p);
    }
  }

  lemma {:induction false} InterruptedTracked(l: seq<Event>, v: KState, t: Task, obj: nat, p: RetryPolicy)
    requires t in v.tasks && Ledger(v.trace) == l + [WorkerStarted(t.obj, t.id)]
    requires Holds(v.tasks, obj, p) || (obj < v.nextObj && Absent(v.tasks, obj) && WithinLimits(l, obj, p))
    ensures Tracked(v, obj, p)
  {}

  lemma {:induction false} RaisedTracked(s: KState, env: Env, planner: Planner, obj: nat, p: RetryPolicy)
    requires PlanInv(s) && ObjInv(s) && Tracked(s, obj, p)
    requires Calls(s, env, planner) && Step(s, env, planner).raised
    ensures Tracked(Step(s, env, planner).state, obj, p)
  {
    var v, i := AtCall(s, env, planner), Called(s, env, planner);
    AtCallTracked(s, env, planner, obj, p);
    RaisedState(s, env, planner);
    CallLedger(s, env, planner);
    InterruptedTracked(Ledger(s.trace), v, v.tasks[i], obj, p);
  }

  lemma {:induction false} MoveTracks(s: KState, move: Move, planner: Planner, obj: nat, p: RetryPolicy)
    requires PlanInv(s) && ObjInv(s) && GoodMove(move) && Tracked(s, obj, p)
    ensures Tracked(Moved(s, move, planner), obj, p)
  {
    if move.Go? {
      StepTracks(s, move.env, planner, obj, p);
    }
  }

  lemma {:induction false} RunTracks(m: KState, moves: seq<Move>, planner: Planner, obj: nat, p: RetryPolicy)
    requires PlanInv(m) && ObjInv(m) && GoodMoves(moves) && Tracked(m, obj, p)
    ensures var r := After(m, moves, planner); PlanInv(r) && ObjInv(r) && Tracked(r, obj, p)
  {
    if moves != [] {
      var n := |moves| - 1;
      assert moves[n] in moves;
      RunTracks(m, moves[..n], planner, obj, p);
      var r := After(m, moves[..n], planner);
      MoveTracks(r, moves[n], planner, obj, p);
      MoveKeepsInv(r, moves[n], planner);
    }
  }

  lemma {:induction false} AttemptsBoundedFrom(m: KState, after: seq<Move>, planner: Planner, j: nat)
    requires PlanInv(m) && ObjInv(m) && GoodMoves(after) && j < |m.tasks|
    ensures var t := m.tasks[j];
            var trace := After(m, after, planner).trace;
            t.retries < Policy(t).maxAttempts && WithinLimits(trace, t.obj, Policy(t))
  {
    var t := m.tasks[j];
    assert TaskOk(Ledger(m.trace), t);
    RunTracks(m, after, planner, t.obj, Policy(t));
    var r := After(m, after, planner);
    TrackedWithin(r, t.obj, Policy(t));
    CountsOfLedger(r.trace, t.obj);
  }

  lemma {:induction false} TrackedWithin(r: KState, obj: nat, p: RetryPolicy)
    requires ObjInv(r) && Tracked(r, obj, p)
    ensures WithinLimits(Ledger(r.trace), obj, p)
  {
    if Holds(r.tasks, obj, p) {
      var k :| 0 <= k < |r.tasks| && r.tasks[k].obj == obj && Policy(r.tasks[k]) == p;
      OkWithinLimits(Ledger(r.trace), r.tasks[k]);
    }
  }

  /** Over any run, each Task object is executed at most `max_attempts` times and the back-off scheduled for it is
      at most base_delay_ms * (2^(max_attempts - 1) - 1), even after it has left the plan. */
  lemma {:induction false} AttemptsBounded(s: KState, before: seq<Move>, m: KState, after: seq<Move>, planner: Planner,
                                           j: nat)
    requires Fresh(s) && GoodMoves(before) && m == After(s, before, planner) && GoodMoves(after) && j < |m.tasks|
    ensures var t := m.tasks[j];
            t.retries < Policy(t).maxAttempts && WithinLimits(After(m, after, planner).trace, t.obj, Policy(t))
  {
    ReachableInv(s, before, planner);
    AttemptsBoundedFrom(m, after, planner, j);
  }

  /** What the task has cost: base_delay_ms * (2^n - 1) milliseconds of back-off for n retries under an exponential
      policy, n * base_delay_ms under any other, and one execution for every retry and perhaps one more. */
  ghost predicate Costs(trace: seq<Event>, t: Task) {
    var base, n := Policy(t).baseDelayMs, t.retries;
    && BackoffMs(trace, t.obj)
       == (if Lower(Strip(Policy(t).backoff)) == "exponential" then base * (Pow2(n) - 1) else base * n)
    && n <= Executions(trace, t.obj) <= n + 1 && (t.status in {Draft, Ready} ==> Executions(trace, t.obj) == n)
  }

  lemma {:induction false} OkCosts(r: KState, j: nat)
    requires ObjInv(r) && j < |r.tasks|
    ensures Costs(r.trace, r.tasks[j])
  {
    CountsOfLedger(r.trace, r.tasks[j].obj);
    assert TaskOk(Ledger(r.trace), r.tasks[j]);
  }

  /** In every reachable state every task of the plan has cost exactly that. */
  lemma {:induction false} BackoffExact(s: KState, moves: seq<Move>, planner: Planner, j: nat)
    requires Fresh(s) && GoodMoves(moves) && j < |After(s, moves, planner).tasks|
    ensures Costs(After(s, moves, planner).trace, After(s, moves, planner).tasks[j])
  {
    ReachableInv(s, moves, planner);
    OkCosts(After(s, moves, planner), j);
  }

  /* ---- routing ---- */

  /** The calls to `on_error` recorded in a trace. */
  function RoutedCalls(trace: seq<Event>): seq<Call> {
    if trace == [] then []
    else
      var e := trace[|trace| - 1];
      RoutedCalls(trace[..|trace| - 1]) + (if e.FailureRouted? then [Call(e.taskId, e.decision.fingerprint)] else [])
  }

  lemma {:induction false} RoutedNext(trace: seq<Event>, e: Event)
    ensures RoutedCalls(trace + [e]) == RoutedCalls(trace)
            + (if e.FailureRouted? then [Call(e.taskId, e.decision.fingerprint)] else [])
    ensures RoutedFingerprints(trace + [e]) == RoutedFingerprints(trace)
            + (if e.FailureRouted? then [e.decision.fingerprint] else [])
  {}

  lemma {:induction false} RoutedOfLedger(trace: seq<Event>)
    ensures RoutedCalls(Ledger(trace)) == RoutedCalls(trace)
    ensures RoutedFingerprints(Ledger(trace)) == RoutedFingerprints(trace)
  {
    if trace != [] {
      var n := |trace| - 1;
      var l := Ledger(trace[..n]);
      RoutedOfLedger(trace[..n]);
      RoutedNext(l, trace[n]);
      if InLedger(trace[n]) {
        assert Ledger(trace) == l + [trace[n]];
      } else {
        assert Ledger(trace) == l;
        assert RoutedCalls(l) + [] == RoutedCalls(l) && RoutedFingerprints(l) + [] == RoutedFingerprints(l);
      }
    }
  }

  /** No two consecutive failures of one task id have the same fingerprint. */
  ghost predicate NoRepeat(calls: seq<Call>) {
    forall key, k :: 0 < k < |History(calls, key)| ==> History(calls, key)[k] != History(calls, key)[k - 1]
  }

  ghost predicate Rare(fps: seq<string>, n: nat) {
    forall fp :: CountOf(fps, fp) <= n
  }

  /** The latest failure of the key is counted, whatever else the breaker holds from earlier runs. */
  ghost predicate Recalls(streaks: Streaks, calls: seq<Call>, key: string) {
    var h := History(calls, key);
    h != [] ==> Counter(streaks, key, h[|h| - 1]) >= 1
  }

  ghost predicate RecallsAll(streaks: Streaks, calls: seq<Call>) {
    forall key :: Recalls(streaks, calls, key)
  }

  ghost predicate RouteInv(s: KState) {
    var l := Ledger(s.trace);
    && RecallsAll(s.breaker.errorStreaks, RoutedCalls(l))
    && Rare(RoutedFingerprints(l), 3)
    && (s.status != Aborted ==> Rare(RoutedFingerprints(l), 2) && NoRepeat(RoutedCalls(l)))
  }

  lemma {:induction false} CountNext(fps: seq<string>, x: string, fp: string)
    ensures CountOf(fps + [x], fp) == CountOf(fps, fp) + (if fp == x then 1 else 0)
  {
    assert (fps + [x])[..|fps|] == fps;
  }

  lemma {:induction false} BumpRecalls(streaks: Streaks, calls: seq<Call>, c: Call)
    requires RecallsAll(streaks, calls)
    ensures RecallsAll(Bump(streaks, c.key, c.fp), calls + [c])
  {
    forall key ensures Recalls(Bump(streaks, c.key, c.fp), calls + [c], key) {
      HistoryNext(calls, c, key);
      assert Recalls(streaks, calls, key);
      if key != c.key { assert History(calls, key) + [] == History(calls, key); }
    }
  }

  /** The second of two equal failures in a row reaches the limit. */
  lemma {:induction false} RepeatReachesLimit(streaks: Streaks, calls: seq<Call>, c: Call)
    requires RecallsAll(streaks, calls) && Counter(Bump(streaks, c.key, c.fp), c.key, c.fp) < SAME_ERROR_LIMIT
    ensures var h := History(calls, c.key); h != [] ==> h[|h| - 1] != c.fp
  {
    assert Recalls(streaks, calls, c.key);
  }

  lemma {:induction false} NoRepeatNext(calls: seq<Call>, c: Call)
    requires NoRepeat(calls) && var h := History(calls, c.key); h != [] ==> h[|h| - 1] != c.fp
    ensures NoRepeat(calls + [c])
  {
    forall key, k | 0 < k < |History(calls + [c], key)|
      ensures History(calls + [c], key)[k] != History(calls + [c], key)[k - 1]
    {
      HistoryNext(calls, c, key);
      if key != c.key { assert History(calls, key) + [] == History(calls, key); }
    }
  }

  /** One routed failure: the third occurrence of a fingerprint, or an immediate repeat for the task id, aborts. */
  lemma {:induction false} RoutedOnce(l: seq<Event>, m: seq<Event>, streaks: Streaks, c: Call, status: RunStatus)
    requires RoutedCalls(m) == RoutedCalls(l) + [c] && RoutedFingerprints(m) == RoutedFingerprints(l) + [c.fp]
    requires RecallsAll(streaks, RoutedCalls(l)) && Rare(RoutedFingerprints(l), 2) && NoRepeat(RoutedCalls(l))
    requires CountOf(RoutedFingerprints(l), c.fp) >= 2 ==> status == Aborted
    requires Counter(Bump(streaks, c.key, c.fp), c.key, c.fp) >= SAME_ERROR_LIMIT ==> status == Aborted
    ensures RecallsAll(Bump(streaks, c.key, c.fp), RoutedCalls(m)) && Rare(RoutedFingerprints(m), 3)
    ensures status != Aborted ==> Rare(RoutedFingerprints(m), 2) && NoRepeat(RoutedCalls(m))
  {
    BumpRecalls(streaks, RoutedCalls(l), c);
    forall fp ensures CountOf(RoutedFingerprints(m), fp) <= (if status == Aborted then 3 else 2) {
      CountNext(RoutedFingerprints(l), c.fp, fp);
      assert CountOf(RoutedFingerprints(l), fp) <= 2;
    }
    if status != Aborted {
      RepeatReachesLimit(streaks, RoutedCalls(l), c);
      NoRepeatNext(RoutedCalls(l), c);
    }
  }

  lemma {:induction false} QuietRouted(l: seq<Event>, e: Event)
    requires !e.FailureRouted?
    ensures RoutedCalls(l + [e]) == RoutedCalls(l) && RoutedFingerprints(l + [e]) == RoutedFingerprints(l)
  {}

  /** What an optional routing entry adds. */
  function CallsOf(routed: seq<Event>): seq<Call>
    requires RoutedEntry(routed)
  {
    if routed == [] then [] else [Call(routed[0].taskId, routed[0].decision.fingerprint)]
  }

  function PrintsOf(routed: seq<Event>): seq<string>
    requires RoutedEntry(routed)
  {
    if routed == [] then [] else [routed[0].decision.fingerprint]
  }

  lemma {:induction false} RoutedMore(a: seq<Event>, routed: seq<Event>)
    requires RoutedEntry(routed)
    ensures RoutedCalls(a + routed) == RoutedCalls(a) + CallsOf(routed)
    ensures RoutedFingerprints(a + routed) == RoutedFingerprints(a) + PrintsOf(routed)
  {
    if routed == [] {
      assert a + routed == a;
    } else {
      RoutedNext(a, routed[0]);
      assert routed == [routed[0]];
    }
  }

  lemma {:induction false} QuietMore(b: seq<Event>, retry: seq<Event>)
    requires |retry| <= 1 && forall e :: e in retry ==> !e.FailureRouted?
    ensures RoutedCalls(b + retry) == RoutedCalls(b) && RoutedFingerprints(b + retry) == RoutedFingerprints(b)
  {
    if retry == [] {
      assert b + retry == b;
    } else {
      QuietRouted(b, retry[0]);
      assert retry == [retry[0]];
    }
  }

  lemma {:induction false} EntriesRouted(l: seq<Event>, t: Task, routed: seq<Event>, retry: seq<Event>)
    requires RoutedEntry(routed) && |retry| <= 1 && forall e :: e in retry ==> !e.FailureRouted?
    ensures RoutedCalls(l + Entries(t, routed, retry)) == RoutedCalls(l) + CallsOf(routed)
    ensures RoutedFingerprints(l + Entries(t, routed, retry)) == RoutedFingerprints(l) + PrintsOf(routed)
  {
    var a := l + [WorkerStarted(t.obj, t.id)];
    QuietRouted(l, WorkerStarted(t.obj, t.id));
    RoutedMore(a, routed);
    QuietMore(a + routed, retry);
    Regroup(l, [WorkerStarted(t.obj, t.id)], routed, retry);
  }

  lemma {:induction false} Regroup<T>(a: seq<T>, b: seq<T>, c: seq<T>, d: seq<T>)
    ensures a + (b + c + d) == ((a + b) + c) + d
  {}

  /** Routing aborts on the third occurrence and on an immediate repeat. */
  lemma {:induction false} ResolveAborts(v: KState, i: nat, codes: set<Code>, env: Env)
    requires i < |v.tasks| && Routed(v, i, env)
    ensures var r := Resolve(v, i, codes, env);
            var d := DecisionFor(v, codes, env);
            && !r.raised
            && (CountOf(RoutedFingerprints(v.trace), d.fingerprint) >= 2 ==> r.state.status == Aborted)
            && (Counter(r.state.breaker.errorStreaks, v.tasks[i].id, d.fingerprint) >= SAME_ERROR_LIMIT ==>
                r.state.status == Aborted)
  {
    RouteFailureFrame(v, i, codes, env);
  }

  lemma {:induction false} ResolvedStreaks(v: KState, i: nat, codes: set<Code>, env: Env)
    requires i < |v.tasks| && !Resolve(v, i, codes, env).raised
    ensures var r := Resolve(v, i, codes, env).state;
            r.breaker.errorStreaks
            == if Routed(v, i, env)
               then Bump(v.breaker.errorStreaks, v.tasks[i].id, DecisionFor(v, codes, env).fingerprint)
               else v.breaker.errorStreaks
  {
    ResolveFrame(v, i, codes, env);
  }

  lemma {:induction false} ResolveRoutes(l: seq<Event>, v: KState, i: nat, codes: set<Code>, env: Env)
    requires i < |v.tasks| && !Resolve(v, i, codes, env).raised
    requires Ledger(v.trace) == l + [WorkerStarted(v.tasks[i].obj, v.tasks[i].id)]
    requires RecallsAll(v.breaker.errorStreaks, RoutedCalls(l)) && Rare(RoutedFingerprints(l), 2)
             && NoRepeat(RoutedCalls(l))
    ensures RouteInv(Resolve(v, i, codes, env).state)
  {
    var r := Resolve(v, i, codes, env).state;
    var t := v.tasks[i];
    var routed, retry := RoutedPart(v, i, codes, env), RetryPart(v, i, codes, env);
    ResolvedLedger(v, i, codes, env, l);
    ResolvedStreaks(v, i, codes, env);
    EntriesRouted(l, t, routed, retry);
    if Routed(v, i, env) {
      var d := DecisionFor(v, codes, env);
      RoutedBefore(l, v, i);
      ResolveAborts(v, i, codes, env);
      RoutedOnce(l, Ledger(r.trace), v.breaker.errorStreaks, Call(t.id, d.fingerprint), r.status);
    } else {
      assert RoutedCalls(l) + [] == RoutedCalls(l) && RoutedFingerprints(l) + [] == RoutedFingerprints(l);
      RareMore(RoutedFingerprints(l));
    }
  }

  lemma {:induction false} RareMore(fps: seq<string>)
    requires Rare(fps, 2)
    ensures Rare(fps, 3)
  {
    forall fp ensures CountOf(fps, fp) <= 3 { assert CountOf(fps, fp) <= 2; }
  }

  lemma {:induction false} RoutedBefore(l: seq<Event>, v: KState, i: nat)
    requires i < |v.tasks| && Ledger(v.trace) == l + [WorkerStarted(v.tasks[i].obj, v.tasks[i].id)]
    ensures RoutedFingerprints(v.trace) == RoutedFingerprints(l)
  {
    RoutedOfLedger(v.trace);
    RoutedNext(l, WorkerStarted(v.tasks[i].obj, v.tasks[i].id));
    assert RoutedFingerprints(l) + [] == RoutedFingerprints(l);
  }

  /** Every step keeps the routing invariant. */
  lemma {:induction false} StepKeepsRouting(s: KState, env: Env, planner: Planner)
    requires RouteInv(s)
    ensures RouteInv(Step(s, env, planner).state)
  {
    if Calls(s, env, planner) {
      CallLedger(s, env, planner);
      if Step(s, env, planner).raised {
        RaisedRoutes(s, env, planner);
      } else {
        StepIsResolve(s, env, planner);
        ResolveRoutes(Ledger(s.trace), AtCall(s, env, planner), Called(s, env, planner), CallCodes(s, env, planner),
                      env);
      }
    } else {
      StepIsQuiet(s, env, planner);
    }
  }

  lemma {:induction false} RaisedRoutes(s: KState, env: Env, planner: Planner)
    requires RouteInv(s) && Calls(s, env, planner) && Step(s, env, planner).raised
    ensures RouteInv(Step(s, env, planner).state)
  {
    CallLedger(s, env, planner);
    RaisedState(s, env, planner);
    var v, i := AtCall(s, env, planner), Called(s, env, planner);
    var l := Ledger(s.trace);
    RoutedNext(l, WorkerStarted(v.tasks[i].obj, v.tasks[i].id));
    assert RoutedCalls(l) + [] == RoutedCalls(l) && RoutedFingerprints(l) + [] == RoutedFingerprints(l);
  }

  lemma {:induction false} MoveKeepsRouting(s: KState, move: Move, planner: Planner)
    requires RouteInv(s)
    ensures RouteInv(Moved(s, move, planner))
  {
    if move.Go? {
      StepKeepsRouting(s, move.env, planner);
    }
  }

  lemma {:induction false} ReachableRouteInv(s: KState, moves: seq<Move>, planner: Planner)
    requires s.trace == []
    ensures RouteInv(After(s, moves, planner))
  {
    if moves != [] {
      ReachableRouteInv(s, moves[..|moves| - 1], planner);
      MoveKeepsRouting(After(s, moves[..|moves| - 1], planner), moves[|moves| - 1], planner);
    }
  }

  /** Over any run from an empty trace, whatever the kernel was used for before, each fingerprint is routed at most
      three times; a third routing, or two consecutive equal routings for one task id, leave the run aborted. */
  lemma {:induction false} FailuresRoutedAtMostThrice(s: KState, moves: seq<Move>, planner: Planner, fp: string)
    requires s.trace == []
    ensures var r := After(s, moves, planner);
            && CountOf(RoutedFingerprints(r.trace), fp) <= 3
            && (CountOf(RoutedFingerprints(r.trace), fp) == 3 ==> r.status == Aborted)
            && (!NoRepeat(RoutedCalls(r.trace)) ==> r.status == Aborted)
  {
    ReachableRouteInv(s, moves, planner);
    RoutedOfLedger(After(s, moves, planner).trace);
  }

  /* ---- what a failure leads to ---- */

  /** A task with a compile issue is never handed to the worker, so the router never sees one. */
  lemma {:induction false} CalledHasNoIssues(s: KState, env: Env, planner: Planner)
    requires Calls(s, env, planner)
    ensures CallCodes(s, env, planner) == {}
  {
    var p := Planned(s, planner);
    var i := Called(s, env, planner);
    assert Checked(p, env.tools).tasks[i] == Marked(p.tasks[i], Nodes(p.tasks), env.tools);
  }

  /** The run is stopped at the task, with the plan left as it was. */
  ghost predicate StoppedAt(before: seq<Task>, r: KState, i: nat) {
    && |r.tasks| == |before| && (forall k :: 0 <= k < |before| ==>
         r.tasks[k].id == before[k].id && r.tasks[k].obj == before[k].obj && r.tasks[k].payload == before[k].payload)
    && r.status in {AwaitingUser, Aborted}
    && i < |before| && r.tasks[i].status in {Blocked, Failed}
  }

  lemma {:induction false} TransitionStops(c: KState, i: nat, d: Decision, env: Env)
    requires i < |c.tasks| && d.action in {AskUser, RepairAuth, CircuitBreak}
    ensures StoppedAt(c.tasks, Transition(c, i, d, env), i)
  {}

  lemma {:induction false} BrokenStops(c: KState, i: nat)
    requires i < |c.tasks|
    ensures StoppedAt(c.tasks, Log(GiveUp(c, i), CircuitBroken), i)
  {}

  lemma {:induction false} StagnationStops(before: seq<Task>, r: KState, obj: nat, stalled: bool, i: nat)
    requires StoppedAt(before, r, i)
    ensures StoppedAt(before, StagnationChecked(r, obj, stalled), i)
  {}

  lemma {:induction false} UserDecisionStops(v: KState, codes: set<Code>, env: Env)
    requires NeedsUser(env.hits)
    ensures var d := DecisionFor(v, codes, env); d.action in {AskUser, RepairAuth, CircuitBreak} && !IsRetryable(d)
  {
    RoutingDiscipline(env.fingerprint, codes, RoutedFingerprints(v.trace), env.hits);
  }

  lemma {:induction false} RouteFailureStops(v: KState, i: nat, codes: set<Code>, env: Env)
    requires i < |v.tasks| && NeedsUser(env.hits)
    ensures StoppedAt(v.tasks, RouteFailure(v, i, codes, env), i)
    ensures !Retries(v, i, codes, env)
  {
    var d := DecisionFor(v, codes, env);
    var c := FailureCounted(v, v.tasks[i].id, d, env);
    UserDecisionStops(v, codes, env);
    if Counter(c.breaker.errorStreaks, v.tasks[i].id, d.fingerprint) >= SAME_ERROR_LIMIT {
      BrokenStops(c, i);
    } else {
      TransitionStops(c, i, d, env);
      StagnationStops(v.tasks, Transition(c, i, d, env), v.tasks[i].obj, env.secondsStalled, i);
    }
  }

  /** A failure that needs the user always stops the run: the task is blocked and the run waits, or both have failed.
      It is not retried, and nothing is replanned: the plan holds the same tasks as before. */
  lemma {:induction false} UserFailuresStop(s: KState, env: Env, planner: Planner)
    requires Calls(s, env, planner) && Routed(AtCall(s, env, planner), Called(s, env, planner), env)
             && NeedsUser(env.hits)
    ensures var o := Step(s, env, planner);
            !o.raised && StoppedAt(AtCall(s, env, planner).tasks, o.state, Called(s, env, planner))
    ensures RetryPart(AtCall(s, env, planner), Called(s, env, planner), CallCodes(s, env, planner), env) == []
  {
    StepIsResolve(s, env, planner);
    RouteFailureStops(AtCall(s, env, planner), Called(s, env, planner), CallCodes(s, env, planner), env);
  }

  lemma {:induction false} MoveKeepsAborted(s: KState, move: Move, planner: Planner)
    requires s.status == Aborted
    ensures var r := Moved(s, move, planner);
            r.status == Aborted && Ledger(r.trace) == Ledger(s.trace) && r.used == s.used
  {
    if move.Go? {
      StepIsQuiet(s, move.env, planner);
    }
  }

  /** An aborted run stays aborted, and cannot be resumed: no later step calls the worker or routes a failure. */
  lemma {:induction false} AbortedForGood(s: KState, moves: seq<Move>, planner: Planner)
    requires s.status == Aborted
    ensures var r := After(s, moves, planner);
            r.status == Aborted && Ledger(r.trace) == Ledger(s.trace) && r.used == s.used
  {
    if moves != [] {
      var n := |moves| - 1;
      AbortedForGood(s, moves[..n], planner);
      MoveKeepsAborted(After(s, moves[..n], planner), moves[n], planner);
    }
  }
}
