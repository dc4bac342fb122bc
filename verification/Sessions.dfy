/** What a kernel carries over from one run to the next: its circuit breaker outlives the runs. */
module Sessions {
  import opened Schemas
  import opened CompileCheck
  import opened FailureRouter
  import opened CircuitBreakers
  import opened KernelState
  import opened StepFrame
  import opened TaskLives
  import opened Attempts
  import opened StepObjects
  import opened Runs
  import opened Progress
  import opened Guarantees

  /* ---- the counters of a kernel over all its runs ---- */

  /** The failures that a step routes. */
  ghost function NewCalls(s: KState, env: Env, planner: Planner): seq<Call> {
    if Calls(s, env, planner) && !Step(s, env, planner).raised then
      CallsOf(RoutedPart(AtCall(s, env, planner), Called(s, env, planner), CallCodes(s, env, planner), env))
    else []
  }

  /** The state follows `s` with these failures routed and counted. */
  ghost predicate Routes(s: KState, r: KState, calls: seq<Call>) {
    && RoutedCalls(Ledger(r.trace)) == RoutedCalls(Ledger(s.trace)) + calls
    && r.breaker.errorStreaks == StreaksFrom(s.breaker.errorStreaks, calls)
  }

  lemma {:induction false} RoutesNothing(s: KState, r: KState)
    requires RoutedCalls(Ledger(r.trace)) == RoutedCalls(Ledger(s.trace))
    requires r.breaker.errorStreaks == s.breaker.errorStreaks
    ensures Routes(s, r, [])
  {
    assert RoutedCalls(Ledger(s.trace)) + [] == RoutedCalls(Ledger(s.trace));
  }

  lemma {:induction false} ResolveRoutesCalls(l: seq<Event>, v: KState, i: nat, codes: set<Code>, env: Env)
    requires i < |v.tasks| && !Resolve(v, i, codes, env).raised
    requires Ledger(v.trace) == l + [WorkerStarted(v.tasks[i].obj, v.tasks[i].id)]
    ensures var r := Resolve(v, i, codes, env).state;
            && RoutedCalls(Ledger(r.trace)) == RoutedCalls(l) + CallsOf(RoutedPart(v, i, codes, env))
            && r.breaker.errorStreaks == StreaksFrom(v.breaker.errorStreaks, CallsOf(RoutedPart(v, i, codes, env)))
  {
    ResolvedLedger(v, i, codes, env, l);
    ResolvedStreaks(v, i, codes, env);
    EntriesRouted(l, v.tasks[i], RoutedPart(v, i, codes, env), RetryPart(v, i, codes, env));
    OneStreak(v.breaker.errorStreaks, RoutedPart(v, i, codes, env));
  }

  lemma {:induction false} OneStreak(start: Streaks, routed: seq<Event>)
    requires RoutedEntry(routed)
    ensures StreaksFrom(start, CallsOf(routed))
            == if routed == [] then start else Bump(start, routed[0].taskId, routed[0].decision.fingerprint)
  {
    if routed != [] {
      assert CallsOf(routed)[..0] == [];
    }
  }

  lemma {:induction false} StepRoutes(s: KState, env: Env, planner: Planner)
    ensures Routes(s, Step(s, env, planner).state, NewCalls(s, env, planner))
  {
    if Calls(s, env, planner) {
      CallLedger(s, env, planner);
      if Step(s, env, planner).raised {
        RaisedRoutesNothing(s, env, planner);
      } else {
        StepIsResolve(s, env, planner);
        ResolveRoutesCalls(Ledger(s.trace), AtCall(s, env, planner), Called(s, env, planner),
                           CallCodes(s, env, planner), env);
      }
    } else {
      StepIsQuiet(s, env, planner);
      RoutesNothing(s, Step(s, env, planner).state);
    }
  }

  lemma {:induction false} RaisedRoutesNothing(s: KState, env: Env, planner: Planner)
    requires Calls(s, env, planner) && Step(s, env, planner).raised
    ensures Routes(s, Step(s, env, planner).state, [])
  {
    CallLedger(s, env, planner);
    RaisedState(s, env, planner);
    var v, i := AtCall(s, env, planner), Called(s, env, planner);
    RoutedNext(Ledger(s.trace), WorkerStarted(v.tasks[i].obj, v.tasks[i].id));
    assert RoutedCalls(Ledger(s.trace)) + [] == RoutedCalls(Ledger(s.trace));
  }

  lemma {:induction false} RoutesFurther(s: KState, m: KState, r: KState, a: seq<Call>, b: seq<Call>)
    requires Routes(s, m, a) && Routes(m, r, b)
    ensures Routes(s, r, a + b)
  {
    StreaksAppend(s.breaker.errorStreaks, a, b);
    Joined(RoutedCalls(Ledger(s.trace)), a, b);
  }

  lemma {:induction false} MoveRoutes(s: KState, move: Move, planner: Planner) returns (calls: seq<Call>)
    ensures Routes(s, Moved(s, move, planner), calls)
  {
    if move.Go? {
      calls := NewCalls(s, move.env, planner);
      StepRoutes(s, move.env, planner);
    } else {
      calls := [];
      RoutesNothing(s, Resumed(s));
    }
  }

  lemma {:induction false} RunRoutesSome(s: KState, moves: seq<Move>, planner: Planner) returns (calls: seq<Call>)
    ensures Routes(s, After(s, moves, planner), calls)
  {
    calls := [];
    if moves == [] {
      RoutesNothing(s, s);
    } else {
      var n := |moves| - 1;
      var m := After(s, moves[..n], planner);
      var before := RunRoutesSome(s, moves[..n], planner);
      var last := MoveRoutes(m, moves[n], planner);
      RoutesFurther(s, m, After(s, moves, planner), before, last);
      calls := before + last;
    }
  }

  /** Over a run from an empty trace the counters are those of its routed failures, on top of what the breaker held. */
  lemma {:induction false} RunRoutes(s: KState, moves: seq<Move>, planner: Planner)
    requires s.trace == []
    ensures var r := After(s, moves, planner);
            r.breaker.errorStreaks == StreaksFrom(s.breaker.errorStreaks, RoutedCalls(r.trace))
  {
    var r := After(s, moves, planner);
    var calls := RunRoutesSome(s, moves, planner);
    RoutedOfLedger(r.trace);
    assert Ledger(s.trace) == [] && [] + calls == calls;
  }

  /** One run of a kernel: the state it starts from, except for the breaker, and its moves. */
  datatype Session = Session(start: KState, moves: seq<Move>, planner: Planner)

  /** The end of a session on a kernel whose breaker holds `b`. */
  ghost function Ended(b: BreakerState, session: Session): KState {
    After(session.start.(breaker := b), session.moves, session.planner)
  }

  /** The breaker after the sessions, one after the other. */
  ghost function BreakerAfter(b: BreakerState, sessions: seq<Session>): BreakerState {
    if sessions == [] then b
    else
      var n := |sessions| - 1;
      Ended(BreakerAfter(b, sessions[..n]), sessions[n]).breaker
  }

  /** All failures routed in the sessions. */
  ghost function AllCalls(b: BreakerState, sessions: seq<Session>): seq<Call> {
    if sessions == [] then []
    else
      var n := |sessions| - 1;
      AllCalls(b, sessions[..n]) + RoutedCalls(Ended(BreakerAfter(b, sessions[..n]), sessions[n]).trace)
  }

  ghost predicate EmptyStarts(sessions: seq<Session>) {
    forall x :: x in sessions ==> x.start.trace == []
  }

  /** Over the whole life of a kernel the counters are those of all failures routed in all its sessions. */
  lemma {:induction false} SessionsCount(b: BreakerState, sessions: seq<Session>)
    requires EmptyStarts(sessions)
    ensures BreakerAfter(b, sessions).errorStreaks == StreaksFrom(b.errorStreaks, AllCalls(b, sessions))
  {
    if sessions != [] {
      var n := |sessions| - 1;
      var before := BreakerAfter(b, sessions[..n]);
      assert sessions[n] in sessions;
      SessionsCount(b, sessions[..n]);
      RunRoutes(sessions[n].start.(breaker := before), sessions[n].moves, sessions[n].planner);
      StreaksAppend(b.errorStreaks, AllCalls(b, sessions[..n]), RoutedCalls(Ended(before, sessions[n]).trace));
    }
  }

  /** The failure that the step is about to route: of which task id, with which fingerprint. */
  ghost predicate Fails(s: KState, env: Env, planner: Planner, key: string, fp: string) {
    && Calls(s, env, planner)
    && var v, i := AtCall(s, env, planner), Called(s, env, planner);
       Routed(v, i, env) && v.tasks[i].id == key && DecisionFor(v, CallCodes(s, env, planner), env).fingerprint == fp
  }

  /** The repeated-error rule fires: counting this failure reaches the limit. */
  ghost predicate RuleFires(s: KState, key: string, fp: string) {
    Counter(Bump(s.breaker.errorStreaks, key, fp), key, fp) >= SAME_ERROR_LIMIT
  }

  lemma {:induction false} RuleAborts(s: KState, env: Env, planner: Planner, key: string, fp: string)
    requires Fails(s, env, planner, key, fp) && RuleFires(s, key, fp)
    ensures Step(s, env, planner).state.status == Aborted
  {
    StepIsResolve(s, env, planner);
    CallLedger(s, env, planner);
    RouteFailureFrame(AtCall(s, env, planner), Called(s, env, planner), CallCodes(s, env, planner), env);
  }

  /** In the life of a kernel, on a run's failure the repeated-error rule fires exactly if the latest failure routed for
      the same task id, in this run or in any earlier one, had the same fingerprint. */
  lemma {:induction false} RuleFiresIff(b: BreakerState, sessions: seq<Session>, s: KState, moves: seq<Move>,
                                        planner: Planner, key: string, fp: string)
    requires b.errorStreaks == map[] && EmptyStarts(sessions)
    requires s.trace == [] && s.breaker == BreakerAfter(b, sessions)
    ensures var m := After(s, moves, planner);
            var h := History(AllCalls(b, sessions) + RoutedCalls(m.trace), key);
            RuleFires(m, key, fp) <==> h != [] && h[|h| - 1] == fp
  {
    var m := After(s, moves, planner);
    SessionsCount(b, sessions);
    RunRoutes(s, moves, planner);
    StreaksAppend(map[], AllCalls(b, sessions), RoutedCalls(m.trace));
    RepeatIff(AllCalls(b, sessions) + RoutedCalls(m.trace), key, fp);
  }

  /** On a run's first failure for a task id, the rule fires exactly if the breaker came with a counter. */
  lemma {:induction false} FirstFailureFiresIff(s: KState, moves: seq<Move>, planner: Planner, key: string, fp: string)
    requires s.trace == [] && NoFailureYet(After(s, moves, planner), key)
    ensures RuleFires(After(s, moves, planner), key, fp) <==> Counter(s.breaker.errorStreaks, key, fp) >= 1
  {
    var m := After(s, moves, planner);
    RunRoutes(s, moves, planner);
    OtherKeys(s.breaker.errorStreaks, RoutedCalls(m.trace), key, fp);
    BumpCounter(m.breaker.errorStreaks, key, fp);
  }

  lemma {:induction false} BumpCounter(streaks: Streaks, key: string, fp: string)
    ensures Counter(Bump(streaks, key, fp), key, fp) == Counter(streaks, key, fp) + 1
  {}

  lemma {:induction false} LatestIsCounted(s: KState, moves: seq<Move>, planner: Planner, key: string)
    requires s.trace == []
    ensures Recalls(After(s, moves, planner).breaker.errorStreaks, RoutedCalls(After(s, moves, planner).trace), key)
  {
    ReachableRouteInv(s, moves, planner);
    RoutedOfLedger(After(s, moves, planner).trace);
  }

  /** The run routed `fp` as the latest failure of the task id. */
  ghost predicate Left(r: KState, key: string, fp: string) {
    var h := History(RoutedCalls(r.trace), key);
    h != [] && h[|h| - 1] == fp
  }

  ghost predicate NoFailureYet(m: KState, key: string) {
    History(RoutedCalls(m.trace), key) == []
  }

  lemma {:induction false} LeftIsCounted(s: KState, moves: seq<Move>, planner: Planner, key: string, fp: string)
    requires s.trace == [] && Left(After(s, moves, planner), key, fp)
    ensures Counter(After(s, moves, planner).breaker.errorStreaks, key, fp) >= 1
  {
    LatestIsCounted(s, moves, planner, key);
  }

  lemma {:induction false} EarlierFailureFires(one: KState, first: seq<Move>, planner1: Planner, two: KState,
                                               second: seq<Move>, planner: Planner, key: string, fp: string)
    requires one.trace == [] && two.trace == [] && two.breaker == After(one, first, planner1).breaker
    requires Left(After(one, first, planner1), key, fp) && NoFailureYet(After(two, second, planner), key)
    ensures RuleFires(After(two, second, planner), key, fp)
  {
    LeftIsCounted(one, first, planner1, key, fp);
    FirstFailureFiresIff(two, second, planner, key, fp);
  }

  /** The failure that a run routed last for a task id aborts a later run on the same kernel when it is the first one
      routed there for that id. */
  lemma {:induction false} EarlierFailureAborts(one: KState, first: seq<Move>, planner1: Planner, two: KState,
                                                second: seq<Move>, env: Env, planner: Planner, key: string, fp: string)
    requires one.trace == [] && two.trace == [] && two.breaker == After(one, first, planner1).breaker
    requires Left(After(one, first, planner1), key, fp) && NoFailureYet(After(two, second, planner), key)
    requires Fails(After(two, second, planner), env, planner, key, fp)
    ensures Step(After(two, second, planner), env, planner).state.status == Aborted
  {
    EarlierFailureFires(one, first, planner1, two, second, planner, key, fp);
    RuleAborts(After(two, second, planner), env, planner, key, fp);
  }

  /* ---- the stagnation guard ---- */

  lemma {:induction false} ReplanKeepsProgress(s: KState, i: nat, constrained: bool, env: Env)
    requires i < |s.tasks|
    ensures AfterReplan(s, i, constrained, env).breaker.lastDoneCycle == s.breaker.lastDoneCycle
  {}

  lemma {:induction false} CompileFailedKeepsProgress(s: KState, i: nat, env: Env)
    requires i < |s.tasks|
    ensures CompileFailedRoute(s, i, env).breaker.lastDoneCycle == s.breaker.lastDoneCycle
  {
    var f := WithStatus(s, i, FailedRetryable).(lastError := "planner_compile_failed");
    ReplanKeepsProgress(Log(f, PlannerCompileFailedRoute(s.tasks[i].id)), i, true, env);
  }

  lemma {:induction false} TransitionKeepsProgress(c: KState, i: nat, d: Decision, env: Env)
    requires i < |c.tasks|
    ensures Transition(c, i, d, env).breaker.lastDoneCycle == c.breaker.lastDoneCycle
  {
    ReplanKeepsProgress(Log(WithStatus(c, i, FailedRetryable), FailureFallback(c.tasks[i].id, d.action)), i,
                        d.action == LocalReplanWithConstraints, env);
  }

  lemma {:induction false} RouteFailureKeepsProgress(v: KState, i: nat, codes: set<Code>, env: Env)
    requires i < |v.tasks|
    ensures RouteFailure(v, i, codes, env).breaker.lastDoneCycle == v.breaker.lastDoneCycle
  {
    var d := DecisionFor(v, codes, env);
    TransitionKeepsProgress(FailureCounted(v, v.tasks[i].id, d, env), i, d, env);
  }

  lemma {:induction false} PlanReplyKeepsProgress(v: KState, i: nat, env: Env)
    requires i < |v.tasks|
    ensures PlanReply(v, i, env).state.breaker.lastDoneCycle >= v.breaker.lastDoneCycle
  {
    CompileFailedKeepsProgress(Log(v, PlannerCompileFailed(v.tasks[i].id)), i, env);
    assert Rejected(v, i, env).breaker.lastDoneCycle == v.breaker.lastDoneCycle;
    AppendsKeepBreaker(v, env);
  }

  lemma {:induction false} AppendsKeepBreaker(v: KState, env: Env)
    ensures AppendSubgoals(v, env.reply.subgoals, env.tools).state.breaker == v.breaker
    ensures AppendTasks(v, env.reply.tasks).state.breaker == v.breaker
  {}

  lemma {:induction false} ResolveKeepsProgress(v: KState, i: nat, codes: set<Code>, env: Env)
    requires i < |v.tasks|
    ensures Resolve(v, i, codes, env).state.breaker.lastDoneCycle >= v.breaker.lastDoneCycle
  {
    if Routed(v, i, env) {
      RouteFailureKeepsProgress(v, i, codes, env);
    } else if IsPlanGoal(v.tasks[i].kind) && env.reply.ok {
      PlanReplyKeepsProgress(v, i, env);
    } else if !env.reply.ok {
      CompileFailedKeepsProgress(v, i, env);
    }
  }

  lemma {:induction false} PreparedKeepsBreaker(s: KState, env: Env, planner: Planner)
    ensures var p := Planned(s, planner);
            && p.breaker == s.breaker && Checked(p, env.tools).breaker == s.breaker
            && Idle(Checked(p, env.tools)).breaker == s.breaker && Exhausted(p).breaker == s.breaker
  {}

  /** The last cycle with progress never runs backwards. */
  lemma {:induction false} StepKeepsProgress(s: KState, env: Env, planner: Planner)
    ensures Step(s, env, planner).state.breaker.lastDoneCycle >= s.breaker.lastDoneCycle
  {
    PreparedKeepsBreaker(s, env, planner);
    if Calls(s, env, planner) {
      StepIsResolve(s, env, planner);
      ResolveKeepsProgress(AtCall(s, env, planner), Called(s, env, planner), CallCodes(s, env, planner), env);
    }
  }

  /** The number of worker calls since the last cycle with progress, as the guard computes it. */
  function CycleGap(s: KState): int {
    s.used - s.breaker.lastDoneCycle
  }

  ghost predicate OutOfReach(s: KState) {
    s.max - s.breaker.lastDoneCycle < STAGNATION_CYCLES && CycleGap(s) < STAGNATION_CYCLES
  }

  lemma {:induction false} MoveStaysOutOfReach(s: KState, move: Move, planner: Planner)
    requires OutOfReach(s)
    ensures OutOfReach(Moved(s, move, planner))
  {
    if move.Go? {
      StepBudget(s, move.env, planner);
      StepKeepsProgress(s, move.env, planner);
    }
  }

  /** Budgets start again with every run, but the last cycle with progress does not: after a run that went far enough,
      the cycle gap of a later run never reaches the limit, however long nothing gets done. */
  lemma {:induction false} StaleProgressSilences(s: KState, moves: seq<Move>, planner: Planner)
    requires s.used == 0 && s.breaker.lastDoneCycle >= 0 && s.max - s.breaker.lastDoneCycle < STAGNATION_CYCLES
    ensures CycleGap(After(s, moves, planner)) < STAGNATION_CYCLES
  {
    RunStaysOutOfReach(s, moves, planner);
  }

  lemma {:induction false} RunStaysOutOfReach(s: KState, moves: seq<Move>, planner: Planner)
    requires OutOfReach(s)
    ensures OutOfReach(After(s, moves, planner))
  {
    if moves != [] {
      var n := |moves| - 1;
      RunStaysOutOfReach(s, moves[..n], planner);
      MoveStaysOutOfReach(After(s, moves[..n], planner), moves[n], planner);
    }
  }
}
