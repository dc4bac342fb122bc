/** Windowed tool health and the route score of the specialist router (agent_kernel/worker.py), over exact reals
    and without rounding. */
module ToolHealth {
  import opened PyText
  import opened Basics

  const HEALTH_WINDOW := 30
  const ERROR_WINDOW := 20
  const COOLDOWN_THRESHOLD := 3

  /** One recorded invocation: its outcome and latency. */
  datatype Invocation = Invocation(ok: bool, latencyMs: real)

  datatype ToolCall = ToolCall(name: string, result: Invocation)

  datatype ToolStats = ToolStats(calls: nat, ok: nat, fail: nat, latencySum: real, recentOk: seq<bool>, cooldown: bool)

  datatype ExpertStats = ExpertStats(
    calls: nat, ok: nat, fail: nat, latencySum: real, costSum: real, recentErrors: seq<bool>)

  const NO_CALLS := ToolStats(0, 0, 0, 0.0, [], false)
  const NEW_EXPERT := ExpertStats(0, 0, 0, 0.0, 0.0, [])

  function NonNegative(x: real): real {
    if x >= 0.0 then x else 0.0
  }

  /** `xs[-n:]`. */
  function LastN<T>(xs: seq<T>, n: nat): seq<T> {
    if |xs| <= n then xs else xs[|xs| - n..]
  }

  /** The failures at the end of a window. */
  function TrailingFailures(recent: seq<bool>): nat {
    if recent == [] || recent[|recent| - 1] then 0 else TrailingFailures(recent[..|recent| - 1]) + 1
  }

  function Key(name: string): string {
    Lower(Strip(name))
  }

  function Updated(st: ToolStats, o: Invocation): ToolStats {
    var recent := LastN(st.recentOk + [o.ok], HEALTH_WINDOW);
    ToolStats(st.calls + 1, st.ok + (if o.ok then 1 else 0), st.fail + (if o.ok then 0 else 1),
              st.latencySum + NonNegative(o.latencyMs), recent, TrailingFailures(recent) >= COOLDOWN_THRESHOLD)
  }

  /** `record_tool_invocation` on the whole table. */
  function Recorded(health: map<string, ToolStats>, c: ToolCall): map<string, ToolStats> {
    var t := Key(c.name);
    if t == "" then health else health[t := Updated(if t in health then health[t] else NO_CALLS, c.result)]
  }

  function HealthAfter(calls: seq<ToolCall>): map<string, ToolStats> {
    if calls == [] then map[] else Recorded(HealthAfter(calls[..|calls| - 1]), calls[|calls| - 1])
  }

  /* ---- against the full history ---- */

  /** The outcomes recorded for one tool, oldest first. */
  function History(calls: seq<ToolCall>, t: string): seq<Invocation> {
    if calls == [] then []
    else
      var last := calls[|calls| - 1];
      History(calls[..|calls| - 1], t) + (if t != "" && Key(last.name) == t then [last.result] else [])
  }

  function Oks(h: seq<Invocation>): seq<bool> {
    seq(|h|, i requires 0 <= i < |h| => h[i].ok)
  }

  function CountTrue(xs: seq<bool>): nat {
    if xs == [] then 0 else CountTrue(xs[..|xs| - 1]) + (if xs[|xs| - 1] then 1 else 0)
  }

  function LatencySum(h: seq<Invocation>): real {
    if h == [] then 0.0 else LatencySum(h[..|h| - 1]) + NonNegative(h[|h| - 1].latencyMs)
  }

  /** The last three outcomes are failures. */
  predicate LastThreeFailed(xs: seq<bool>) {
    |xs| >= 3 && !xs[|xs| - 1] && !xs[|xs| - 2] && !xs[|xs| - 3]
  }

  /** The statistics say exactly what the history says. */
  ghost predicate Summarises(st: ToolStats, h: seq<Invocation>) {
    && st.calls == |h| && st.ok == CountTrue(Oks(h)) && st.ok + st.fail == st.calls
    && st.latencySum == LatencySum(h)
    && st.recentOk == LastN(Oks(h), HEALTH_WINDOW)
    && (st.cooldown <==> LastThreeFailed(Oks(h)))
  }

  lemma {:induction false} TrailingThree(xs: seq<bool>)
    ensures TrailingFailures(xs) >= 3 <==> LastThreeFailed(xs)
  {
    if |xs| >= 3 && !xs[|xs| - 1] {
      var a := xs[..|xs| - 1];
      var b := a[..|a| - 1];
      assert TrailingFailures(xs) == TrailingFailures(a) + 1;
      if !a[|a| - 1] {
        assert TrailingFailures(a) == TrailingFailures(b) + 1;
      }
    } else if |xs| < 3 {
      FewFailures(xs);
    }
  }

  lemma {:induction false} FewFailures(xs: seq<bool>)
    ensures TrailingFailures(xs) <= |xs|
  {
    if xs != [] {
      FewFailures(xs[..|xs| - 1]);
    }
  }

  lemma {:induction false} LastNSnoc<T>(xs: seq<T>, n: nat, x: T)
    requires n > 0
    ensures LastN(LastN(xs, n) + [x], n) == LastN(xs + [x], n)
  {}

  lemma {:induction false} SumsNext(h: seq<Invocation>, o: Invocation)
    ensures Oks(h + [o]) == Oks(h) + [o.ok]
    ensures CountTrue(Oks(h + [o])) == CountTrue(Oks(h)) + (if o.ok then 1 else 0)
    ensures LatencySum(h + [o]) == LatencySum(h) + NonNegative(o.latencyMs)
  {}

  lemma {:induction false} WindowShowsThree(xs: seq<bool>)
    ensures LastThreeFailed(LastN(xs, HEALTH_WINDOW)) <==> LastThreeFailed(xs)
  {}

  /** One more outcome: the window, the counters and the cooldown follow the history. */
  lemma {:induction false} UpdatedSummarises(st: ToolStats, h: seq<Invocation>, o: Invocation)
    requires Summarises(st, h)
    ensures Summarises(Updated(st, o), h + [o])
  {
    SumsNext(h, o);
    var xs := Oks(h) + [o.ok];
    LastNSnoc(Oks(h), HEALTH_WINDOW, o.ok);
    TrailingThree(LastN(xs, HEALTH_WINDOW));
    WindowShowsThree(xs);
  }

  /** After any sequence of invocations, ok + fail = calls, the window holds the last 30 outcomes, and the
      cooldown is set exactly if the last three outcomes of the whole history failed. */
  lemma {:induction false} HealthSummarises(calls: seq<ToolCall>, t: string)
    ensures t in HealthAfter(calls) <==> History(calls, t) != []
    ensures t in HealthAfter(calls) ==> Summarises(HealthAfter(calls)[t], History(calls, t))
  {
    if calls != [] {
      var n := |calls| - 1;
      HealthSummarises(calls[..n], t);
      var h := History(calls[..n], t);
      if t != "" && Key(calls[n].name) == t {
        var before := HealthAfter(calls[..n]);
        UpdatedSummarises(if t in before then before[t] else NO_CALLS, h, calls[n].result);
      } else {
        assert History(calls, t) == h + [] == h;
      }
    }
  }

  /* ---- experts ---- */

  function ExpertCost(expert: string): real {
    if expert == "planner" then 1.0 else 2.8
  }

  function ExpertUpdated(st: ExpertStats, expert: string, o: Invocation): ExpertStats {
    ExpertStats(st.calls + 1, st.ok + (if o.ok then 1 else 0), st.fail + (if o.ok then 0 else 1),
                st.latencySum + NonNegative(o.latencyMs), st.costSum + ExpertCost(expert),
                LastN(st.recentErrors + [!o.ok], ERROR_WINDOW))
  }

  function ExpertRecorded(stats: map<string, ExpertStats>, c: ToolCall): map<string, ExpertStats> {
    stats[c.name := ExpertUpdated(if c.name in stats then stats[c.name] else NEW_EXPERT, c.name, c.result)]
  }

  function ExpertsAfter(calls: seq<ToolCall>): map<string, ExpertStats> {
    if calls == [] then map["planner" := NEW_EXPERT, "codex" := NEW_EXPERT]
    else ExpertRecorded(ExpertsAfter(calls[..|calls| - 1]), calls[|calls| - 1])
  }

  /** The results recorded for one expert, oldest first. */
  function ExpertHistory(calls: seq<ToolCall>, expert: string): seq<Invocation> {
    if calls == [] then []
    else
      var last := calls[|calls| - 1];
      ExpertHistory(calls[..|calls| - 1], expert) + (if last.name == expert then [last.result] else [])
  }

  function Errors(h: seq<Invocation>): seq<bool> {
    seq(|h|, i requires 0 <= i < |h| => !h[i].ok)
  }

  /** The expert's statistics say exactly what the history says. */
  ghost predicate ExpertSummarises(st: ExpertStats, expert: string, h: seq<Invocation>) {
    && st.calls == |h| && st.ok == CountTrue(Oks(h)) && st.ok + st.fail == st.calls
    && st.latencySum == LatencySum(h) && st.latencySum >= 0.0
    && st.costSum == |h| as real * ExpertCost(expert)
    && st.recentErrors == LastN(Errors(h), ERROR_WINDOW)
  }

  lemma {:induction false} ExpertUpdatedSummarises(st: ExpertStats, expert: string, h: seq<Invocation>, o: Invocation)
    requires ExpertSummarises(st, expert, h)
    ensures ExpertSummarises(ExpertUpdated(st, expert, o), expert, h + [o])
  {
    SumsNext(h, o);
    LastNSnoc(Errors(h), ERROR_WINDOW, !o.ok);
    assert Errors(h + [o]) == Errors(h) + [!o.ok];
  }

  /** After any results the statistics of every expert agree with its full history: ok + fail = calls, the cost is
      proportional to the calls, and the window holds the last 20 outcomes. */
  lemma {:induction false} ExpertsSummarise(calls: seq<ToolCall>, expert: string)
    ensures expert in ExpertsAfter(calls) <==> expert in {"planner", "codex"} || ExpertHistory(calls, expert) != []
    ensures expert in ExpertsAfter(calls) ==>
              ExpertSummarises(ExpertsAfter(calls)[expert], expert, ExpertHistory(calls, expert))
  {
    if calls != [] {
      var n := |calls| - 1;
      ExpertsSummarise(calls[..n], expert);
      var h := ExpertHistory(calls[..n], expert);
      if calls[n].name == expert {
        var before := ExpertsAfter(calls[..n]);
        ExpertUpdatedSummarises(if expert in before then before[expert] else NEW_EXPERT, expert, h, calls[n].result);
      } else {
        assert ExpertHistory(calls, expert) == h + [] == h;
      }
    }
  }

  /* ---- the route score ---- */

  function Share(a: nat, b: nat): real
    requires b > 0
  {
    a as real / b as real
  }

  /** `success_rate_recent_n` of `get_tool_health`. */
  function RecentSuccess(st: ToolStats): real {
    if st.recentOk != [] then Share(CountTrue(st.recentOk), |st.recentOk|) else Share(st.ok, AtLeastOne(st.calls))
  }

  /** `x or 1.0`. */
  function ToolSuccess(st: ToolStats): real {
    if RecentSuccess(st) == 0.0 then 1.0 else RecentSuccess(st)
  }

  function RecentErrorRate(st: ExpertStats): real {
    if st.recentErrors != [] then Share(CountTrue(st.recentErrors), |st.recentErrors|)
    else Share(st.fail, AtLeastOne(st.calls))
  }

  function CapabilityFit(kind: string, expert: string): real {
    if kind == "plan_goal" then (if expert == "planner" then 1.0 else 0.35)
    else if kind == "code_task" then (if expert == "codex" then 1.0 else 0.30)
    else if kind == "ask_user" then 0.20
    else 0.45
  }

  function RiskMatch(risk: string, expert: string): real {
    if Lower(risk) in {"high", "critical"} then (if expert == "planner" then 0.90 else 0.60)
    else if expert == "codex" then 1.00 else 0.85
  }

  function LatencyScore(st: ExpertStats): real
    requires st.latencySum >= 0.0
  {
    var avg := st.latencySum / AtLeastOne(st.calls) as real;
    QuotientNonNegative(st.latencySum, AtLeastOne(st.calls));
    1.0 / (1.0 + avg / 1200.0)
  }

  function CostScore(st: ExpertStats): real {
    1.0 / (1.0 + NonNegative(st.costSum / AtLeastOne(st.calls) as real - 1.0))
  }

  lemma {:induction false} QuotientNonNegative(a: real, b: nat)
    requires a >= 0.0 && b > 0
    ensures a / b as real >= 0.0
  {}

  /** The weighted sum of `_compute_route_score`. */
  function WeightedSum(fit: real, success: real, latency: real, cost: real, errors: real, risk: real,
                       tool: real): real {
    0.30 * fit + 0.24 * success + 0.14 * latency + 0.10 * cost + 0.10 * (1.0 - errors) + 0.08 * risk + 0.04 * tool
  }

  function RouteScore(expert: string, st: ExpertStats, kind: string, risk: string, tool: ToolStats): real
    requires st.latencySum >= 0.0
  {
    var total := WeightedSum(CapabilityFit(kind, expert), Share(st.ok, AtLeastOne(st.calls)), LatencyScore(st),
                             CostScore(st), RecentErrorRate(st), RiskMatch(risk, expert), ToolSuccess(tool));
    if tool.cooldown then total * 0.70 else total
  }

  predicate Unit(x: real) {
    0.0 <= x <= 1.0
  }

  lemma {:induction false} ShareUnit(a: nat, b: nat)
    requires a <= b && b > 0
    ensures Unit(Share(a, b)) && (Share(a, b) == 0.0 <==> a == 0)
  {}

  lemma {:induction false} CountWithin(xs: seq<bool>)
    ensures CountTrue(xs) <= |xs|
    ensures CountTrue(xs) == 0 <==> true !in xs
  {
    if xs != [] {
      CountWithin(xs[..|xs| - 1]);
      assert xs == xs[..|xs| - 1] + [xs[|xs| - 1]];
    }
  }

  lemma {:induction false} InverseUnit(x: real)
    requires x >= 0.0
    ensures Unit(1.0 / (1.0 + x))
  {}

  lemma {:induction false} WeightedUnit(fit: real, success: real, latency: real, cost: real, errors: real, risk: real,
                                        tool: real)
    requires Unit(fit) && Unit(success) && Unit(latency) && Unit(cost) && Unit(errors) && Unit(risk) && Unit(tool)
    ensures Unit(WeightedSum(fit, success, latency, cost, errors, risk, tool))
  {}

  lemma {:induction false} ToolSuccessUnit(st: ToolStats, h: seq<Invocation>)
    requires Summarises(st, h)
    ensures Unit(ToolSuccess(st))
  {
    CountWithin(st.recentOk);
    if st.recentOk != [] {
      ShareUnit(CountTrue(st.recentOk), |st.recentOk|);
    } else {
      ShareUnit(st.ok, AtLeastOne(st.calls));
    }
  }

  lemma {:induction false} ExpertSharesUnit(st: ExpertStats, expert: string, h: seq<Invocation>)
    requires ExpertSummarises(st, expert, h)
    ensures Unit(Share(st.ok, AtLeastOne(st.calls))) && Unit(RecentErrorRate(st))
    ensures Unit(LatencyScore(st)) && Unit(CostScore(st))
  {
    ShareUnit(st.ok, AtLeastOne(st.calls));
    ShareUnit(st.fail, AtLeastOne(st.calls));
    CountWithin(st.recentErrors);
    if st.recentErrors != [] {
      ShareUnit(CountTrue(st.recentErrors), |st.recentErrors|);
    }
    QuotientNonNegative(st.latencySum, AtLeastOne(st.calls));
    InverseUnit(st.latencySum / AtLeastOne(st.calls) as real / 1200.0);
    InverseUnit(NonNegative(st.costSum / AtLeastOne(st.calls) as real - 1.0));
  }

  lemma {:induction false} ScoreUnit(expert: string, st: ExpertStats, results: seq<Invocation>,
                                     kind: string, risk: string,
                                     tool: ToolStats, h: seq<Invocation>)
    requires ExpertSummarises(st, expert, results) && Summarises(tool, h)
    ensures Unit(RouteScore(expert, st, kind, risk, tool))
  {
    ToolSuccessUnit(tool, h);
    ExpertSharesUnit(st, expert, results);
    WeightedUnit(CapabilityFit(kind, expert), Share(st.ok, AtLeastOne(st.calls)), LatencyScore(st), CostScore(st),
                 RecentErrorRate(st), RiskMatch(risk, expert), ToolSuccess(tool));
  }

  /** After any invocations and any expert results, the route score of every expert lies in [0, 1]. */
  lemma {:induction false} RouteScoreUnit(tools: seq<ToolCall>, results: seq<ToolCall>, expert: string, kind: string,
                                          risk: string)
    ensures var experts, health := ExpertsAfter(results), HealthAfter(tools);
            var st := if expert in experts then experts[expert] else NEW_EXPERT;
            var tool := if Key(kind) in health then health[Key(kind)] else NO_CALLS;
            st.latencySum >= 0.0 && Unit(RouteScore(expert, st, kind, risk, tool))
  {
    var experts, health := ExpertsAfter(results), HealthAfter(tools);
    var st := if expert in experts then experts[expert] else NEW_EXPERT;
    var tool := if Key(kind) in health then health[Key(kind)] else NO_CALLS;
    ExpertsSummarise(results, expert);
    HealthSummarises(tools, Key(kind));
    ScoreUnit(expert, st, ExpertHistory(results, expert), kind, risk, tool, History(tools, Key(kind)));
  }

  /** The score takes a tool's recent success rate as it is exactly if one of its last 30 calls succeeded; a tool all
      of whose recent calls failed counts as one that never fails. */
  lemma {:induction false} ToolSuccessIff(tools: seq<ToolCall>, t: string)
    requires t in HealthAfter(tools)
    ensures var st := HealthAfter(tools)[t];
            var window := LastN(Oks(History(tools, t)), HEALTH_WINDOW);
            && (ToolSuccess(st) == Share(CountTrue(window), AtLeastOne(|window|)) <==> true in window)
            && (true !in window ==> ToolSuccess(st) == 1.0)
  {
    HealthSummarises(tools, t);
    var st := HealthAfter(tools)[t];
    CountWithin(st.recentOk);
    ShareUnit(CountTrue(st.recentOk), |st.recentOk|);
  }

  lemma {:induction false} HealthNext(calls: seq<ToolCall>, c: ToolCall)
    ensures HealthAfter(calls + [c]) == Recorded(HealthAfter(calls), c)
  {
    assert (calls + [c])[..|calls|] == calls;
  }

  lemma {:induction false} ToolSummarised(calls: seq<ToolCall>, c: ToolCall)
    ensures var t := Key(c.name);
            t != "" ==>
              t in HealthAfter(calls + [c]) && Summarises(HealthAfter(calls + [c])[t], History(calls + [c], t))
  {
    HealthNext(calls, c);
    HealthSummarises(calls + [c], Key(c.name));
  }

  lemma {:induction false} ExpertsNext(calls: seq<ToolCall>, c: ToolCall)
    ensures ExpertsAfter(calls + [c]) == ExpertRecorded(ExpertsAfter(calls), c)
  {
    assert (calls + [c])[..|calls|] == calls;
  }

  lemma {:induction false} ExpertSummarised(calls: seq<ToolCall>, c: ToolCall)
    ensures var e := c.name;
            && e in ExpertsAfter(calls + [c])
            && ExpertSummarises(ExpertsAfter(calls + [c])[e], e, ExpertHistory(calls + [c], e))
  {
    ExpertsNext(calls, c);
    ExpertsSummarise(calls + [c], c.name);
  }

  /* ---- the objects ---- */

  class SpecialistRouter {
    var expertStats: map<string, ExpertStats>
    var toolHealth: map<string, ToolStats>
    ghost var invocations: seq<ToolCall>   // everything recorded about tools
    ghost var results: seq<ToolCall>       // everything recorded about experts

    constructor ()
      ensures Valid() && invocations == [] && results == []
    {
      expertStats := map["planner" := NEW_EXPERT, "codex" := NEW_EXPERT];
      toolHealth := map[];
      invocations, results := [], [];
    }

    /** The tables are those of the full history. */
    ghost predicate Valid()
      reads this
    {
      toolHealth == HealthAfter(invocations) && expertStats == ExpertsAfter(results)
    }

    /** `record_tool_invocation`: afterwards the tool's statistics summarise all of its invocations. */
    method RecordToolInvocation(toolName: string, ok: bool, latencyMs: real)
      requires Valid()
      modifies this
      ensures Valid() && results == old(results)
      ensures invocations == old(invocations) + [ToolCall(toolName, Invocation(ok, latencyMs))]
      ensures var t := Key(toolName);
              t != "" ==> t in toolHealth && Summarises(toolHealth[t], History(invocations, t))
    {
      var t := Key(toolName);
      ghost var c := ToolCall(toolName, Invocation(ok, latencyMs));
      HealthNext(invocations, c);
      ToolSummarised(invocations, c);
      invocations := invocations + [c];
      if t != "" {
        var st := UpdateTool(if t in toolHealth then toolHealth[t] else NO_CALLS, ok, latencyMs);
        toolHealth := toolHealth[t := st];
      }
    }

    method UpdateTool(before: ToolStats, ok: bool, latencyMs: real) returns (st: ToolStats)
      ensures st == Updated(before, Invocation(ok, latencyMs))
    {
      var recent := LastN(before.recentOk + [ok], HEALTH_WINDOW);
      var consecutive := CountTrailing(recent);
      st := ToolStats(before.calls + 1, before.ok + (if ok then 1 else 0), before.fail + (if ok then 0 else 1),
                      before.latencySum + NonNegative(latencyMs), recent, consecutive >= COOLDOWN_THRESHOLD);
    }

    /** The loop that counts failures from the end. */
    method CountTrailing(recent: seq<bool>) returns (n: nat)
      ensures n == TrailingFailures(recent)
    {
      n := 0;
      var i := |recent|;
      assert recent[..i] == recent;
      while i > 0
        invariant i <= |recent|
        invariant n + TrailingFailures(recent[..i]) == TrailingFailures(recent)
      {
        assert recent[..i][..i - 1] == recent[..i - 1];
        if recent[i - 1] {
          break;
        }
        n := n + 1;
        i := i - 1;
      }
    }

    /** `_record_expert_result`: afterwards the expert's statistics summarise all of its results. */
    method RecordExpertResult(expert: string, ok: bool, latencyMs: real)
      requires Valid()
      modifies this
      ensures Valid() && invocations == old(invocations)
      ensures results == old(results) + [ToolCall(expert, Invocation(ok, latencyMs))]
      ensures expert in expertStats && ExpertSummarises(expertStats[expert], expert, ExpertHistory(results, expert))
    {
      ghost var c := ToolCall(expert, Invocation(ok, latencyMs));
      ExpertsNext(results, c);
      ExpertSummarised(results, c);
      results := results + [c];
      var st := UpdateExpert(if expert in expertStats then expertStats[expert] else NEW_EXPERT, expert, ok, latencyMs);
      expertStats := expertStats[expert := st];
    }

    method UpdateExpert(before: ExpertStats, expert: string, ok: bool, latencyMs: real) returns (st: ExpertStats)
      ensures st == ExpertUpdated(before, expert, Invocation(ok, latencyMs))
    {
      var recent := LastN(before.recentErrors + [!ok], ERROR_WINDOW);
      st := ExpertStats(before.calls + 1, before.ok + (if ok then 1 else 0), before.fail + (if ok then 0 else 1),
                        before.latencySum + NonNegative(latencyMs), before.costSum + ExpertCost(expert), recent);
    }
  }

  /** The window of a tool holds its last 30 outcomes, and that of an expert its last 20 errors, oldest first. */
  lemma {:induction false} WindowsAre(st: ToolStats, h: seq<Invocation>, e: ExpertStats, expert: string)
    requires Summarises(st, h) && ExpertSummarises(e, expert, h)
    ensures |st.recentOk| == (if |h| <= 30 then |h| else 30) && |e.recentErrors| == (if |h| <= 20 then |h| else 20)
    ensures forall j :: 0 <= j < |st.recentOk| ==> st.recentOk[j] == h[|h| - |st.recentOk| + j].ok
    ensures forall j :: 0 <= j < |e.recentErrors| ==> e.recentErrors[j] == !h[|h| - |e.recentErrors| + j].ok
  {}
}
