/** What the route score (agent_kernel/worker.py) prefers: between the two experts, and between better and worse
    statistics. */
module RouteOrder {
  import opened PyText
  import opened Basics
  import opened ToolHealth

  predicate HighRisk(risk: string) {
    Lower(risk) == "high" || Lower(risk) == "critical"
  }

  /** With equal statistics the planner is preferred for plans, and otherwise, except for code, exactly when the risk is
      high; in all other cases codex is. The scores are never equal. */
  lemma {:induction false} ExpertOrder(st: ExpertStats, kind: string, risk: string, tool: ToolStats)
    requires st.latencySum >= 0.0
    ensures var planner := RouteScore("planner", st, kind, risk, tool);
            var codex := RouteScore("codex", st, kind, risk, tool);
            && (planner > codex <==> kind == "plan_goal" || (kind != "code_task" && HighRisk(risk)))
            && planner != codex
            && (!tool.cooldown ==>
                  planner - codex == (if kind == "plan_goal" then 0.195 else if kind == "code_task" then -0.21 else 0.0)
                                     + (if HighRisk(risk) then 0.024 else -0.012))
  {}

  /* ---- better statistics ---- */

  function SuccessRate(st: ExpertStats): real {
    st.ok as real / (if st.calls >= 1 then st.calls else 1) as real
  }

  function AverageLatency(st: ExpertStats): real {
    st.latencySum / (if st.calls >= 1 then st.calls else 1) as real
  }

  function AverageCost(st: ExpertStats): real {
    st.costSum / (if st.calls >= 1 then st.calls else 1) as real
  }

  /** The share of errors among the recent calls, or among all if there are no recent ones. */
  ghost predicate ErrorShare(st: ExpertStats, share: real) {
    if st.recentErrors != [] then share * |st.recentErrors| as real == CountTrue(st.recentErrors) as real
    else share * (if st.calls >= 1 then st.calls else 1) as real == st.fail as real
  }

  lemma {:induction false} ErrorsAre(st: ExpertStats)
    ensures ErrorShare(st, RecentErrorRate(st))
  {
    if st.recentErrors != [] {
      QuotientIs(CountTrue(st.recentErrors) as real, |st.recentErrors| as real);
    } else {
      QuotientIs(st.fail as real, AtLeastOne(st.calls) as real);
    }
  }

  lemma {:induction false} ProductSign(a: real, b: real)
    requires b > 0.0
    ensures (a * b >= 0.0 <==> a >= 0.0) && (a * b > 0.0 <==> a > 0.0)
  {}

  lemma {:induction false} QuotientGrows(a: real, b: real, c: real)
    requires c > 0.0
    ensures (a <= b <==> a / c <= b / c) && (a < b <==> a / c < b / c)
  {
    QuotientIs(a, c);
    QuotientIs(b, c);
    ProductSign(b / c - a / c, c);
  }

  /** The inverse of a larger number is smaller. */
  lemma {:induction false} InverseFalls(u: real, v: real)
    requires 0.0 < u <= v
    ensures 1.0 / u >= 1.0 / v && (u < v ==> 1.0 / u > 1.0 / v)
  {
    QuotientIs(1.0, u);
    QuotientIs(1.0, v);
    ProductSign(1.0 / u, u);
    DifferenceOfInverses(1.0 / u, u, 1.0 / v, v);
    ProductSign((1.0 / u - 1.0 / v) * u, v);
    ProductSign(1.0 / u - 1.0 / v, u);
  }

  lemma {:induction false} DifferenceOfInverses(a: real, u: real, b: real, v: real)
    requires a * u == 1.0 && b * v == 1.0
    ensures ((a - b) * u) * v == v - u
  {
    assert (a - b) * u == 1.0 - b * u;
    assert (1.0 - b * u) * v == v - u * (b * v);
  }

  lemma {:induction false} LatencyFalls(a: ExpertStats, b: ExpertStats)
    requires a.latencySum >= 0.0 && b.latencySum >= 0.0 && AverageLatency(a) <= AverageLatency(b)
    ensures LatencyScore(a) >= LatencyScore(b)
    ensures AverageLatency(a) < AverageLatency(b) ==> LatencyScore(a) > LatencyScore(b)
  {
    QuotientNonNegative(a.latencySum, AtLeastOne(a.calls));
    QuotientGrows(0.0, AverageLatency(a), 1200.0);
    QuotientGrows(AverageLatency(a), AverageLatency(b), 1200.0);
    InverseFalls(1.0 + AverageLatency(a) / 1200.0, 1.0 + AverageLatency(b) / 1200.0);
  }

  lemma {:induction false} CostFalls(a: ExpertStats, b: ExpertStats)
    requires AverageCost(a) <= AverageCost(b)
    ensures CostScore(a) >= CostScore(b)
    ensures AverageCost(a) < AverageCost(b) && AverageCost(b) > 1.0 ==> CostScore(a) > CostScore(b)
  {
    InverseFalls(1.0 + NonNegative(AverageCost(a) - 1.0), 1.0 + NonNegative(AverageCost(b) - 1.0));
  }

  /** Nothing about `a` is worse: successes, speed, cost, recent errors, and the tool's recent successes. */
  predicate NoWorse(a: ExpertStats, ta: ToolStats, b: ExpertStats, tb: ToolStats) {
    && SuccessRate(a) >= SuccessRate(b) && AverageLatency(a) <= AverageLatency(b) && AverageCost(a) <= AverageCost(b)
    && RecentErrorRate(a) <= RecentErrorRate(b) && ToolSuccess(ta) >= ToolSuccess(tb)
  }

  /** Something is better. */
  predicate Better(a: ExpertStats, ta: ToolStats, b: ExpertStats, tb: ToolStats) {
    || SuccessRate(a) > SuccessRate(b) || AverageLatency(a) < AverageLatency(b)
    || (AverageCost(a) < AverageCost(b) && AverageCost(b) > 1.0)
    || RecentErrorRate(a) < RecentErrorRate(b) || ToolSuccess(ta) > ToolSuccess(tb)
  }

  lemma {:induction false} WeightedGrows(fit: real, risk: real, s1: real, l1: real, c1: real, e1: real, t1: real,
                                         s2: real, l2: real, c2: real, e2: real, t2: real)
    requires s1 >= s2 && l1 >= l2 && c1 >= c2 && e1 <= e2 && t1 >= t2
    ensures WeightedSum(fit, s1, l1, c1, e1, risk, t1) >= WeightedSum(fit, s2, l2, c2, e2, risk, t2)
    ensures s1 > s2 || l1 > l2 || c1 > c2 || e1 < e2 || t1 > t2 ==>
              WeightedSum(fit, s1, l1, c1, e1, risk, t1) > WeightedSum(fit, s2, l2, c2, e2, risk, t2)
  {}

  /** The score of an expert never falls when nothing about its statistics is worse, and rises when something is better;
      above 1.0, a higher cost counts. */
  lemma {:induction false} ScoreGrows(expert: string, kind: string, risk: string, a: ExpertStats, ta: ToolStats,
                                      b: ExpertStats, tb: ToolStats)
    requires a.latencySum >= 0.0 && b.latencySum >= 0.0 && NoWorse(a, ta, b, tb) && ta.cooldown == tb.cooldown
    ensures RouteScore(expert, a, kind, risk, ta) >= RouteScore(expert, b, kind, risk, tb)
    ensures Better(a, ta, b, tb) ==> RouteScore(expert, a, kind, risk, ta) > RouteScore(expert, b, kind, risk, tb)
  {
    LatencyFalls(a, b);
    CostFalls(a, b);
    WeightedGrows(CapabilityFit(kind, expert), RiskMatch(risk, expert),
                  SuccessRate(a), LatencyScore(a), CostScore(a), RecentErrorRate(a), ToolSuccess(ta),
                  SuccessRate(b), LatencyScore(b), CostScore(b), RecentErrorRate(b), ToolSuccess(tb));
  }

  /** What each of the statistics is worth: the gap between two experts of the same name, or one expert at two times. */
  lemma {:induction false} ScoreGap(expert: string, kind: string, risk: string, a: ExpertStats, ta: ToolStats,
                                    b: ExpertStats, tb: ToolStats)
    requires a.latencySum >= 0.0 && b.latencySum >= 0.0 && !ta.cooldown && !tb.cooldown
    ensures RouteScore(expert, a, kind, risk, ta) - RouteScore(expert, b, kind, risk, tb)
            == 0.24 * (SuccessRate(a) - SuccessRate(b)) + 0.14 * (LatencyScore(a) - LatencyScore(b))
               + 0.10 * (CostScore(a) - CostScore(b)) - 0.10 * (RecentErrorRate(a) - RecentErrorRate(b))
               + 0.04 * (ToolSuccess(ta) - ToolSuccess(tb))
  {}

  /** What the kind of the task is worth, against a task of no special kind. */
  lemma {:induction false} KindGap(expert: string, kind: string, other: string, risk: string, st: ExpertStats,
                                   tool: ToolStats)
    requires st.latencySum >= 0.0 && !tool.cooldown
    requires expert in {"planner", "codex"} && other !in {"plan_goal", "code_task", "ask_user"}
    ensures RouteScore(expert, st, kind, risk, tool) - RouteScore(expert, st, other, risk, tool)
            == (if kind == "plan_goal" then (if expert == "planner" then 0.165 else -0.03)
                else if kind == "code_task" then (if expert == "codex" then 0.165 else -0.045)
                else if kind == "ask_user" then -0.075
                else 0.0)
  {}

  /** A tool in cooldown takes three tenths off the score. */
  lemma {:induction false} CooldownCosts(expert: string, st: ExpertStats, kind: string, risk: string, tool: ToolStats)
    requires st.latencySum >= 0.0 && tool.cooldown
    ensures RouteScore(expert, st, kind, risk, tool)
            == RouteScore(expert, st, kind, risk, tool.(cooldown := false)) * 0.70
  {}

  /* ---- what the scores are ---- */

  /** The latency score is one without latency, and a half at 1200 ms. */
  lemma {:induction false} LatencyScoreIs(st: ExpertStats)
    requires st.latencySum >= 0.0
    ensures LatencyScore(st) * (1200.0 + AverageLatency(st)) == 1200.0
  {
    var avg := AverageLatency(st);
    QuotientNonNegative(st.latencySum, AtLeastOne(st.calls));
    QuotientIs(avg, 1200.0);
    QuotientIs(1.0, 1.0 + avg / 1200.0);
    LatencyScaled(LatencyScore(st), avg / 1200.0, avg);
  }

  lemma {:induction false} LatencyScaled(score: real, part: real, avg: real)
    requires part * 1200.0 == avg && score * (1.0 + part) == 1.0
    ensures score * (1200.0 + avg) == 1200.0
  {
    assert 1200.0 + avg == (1.0 + part) * 1200.0;
    assert score * ((1.0 + part) * 1200.0) == (score * (1.0 + part)) * 1200.0;
  }

  /** An expert with recorded results costs what it costs per call: the planner scores one, any other 10/28. */
  lemma {:induction false} CostScoreIs(results: seq<ToolCall>, expert: string)
    requires expert in ExpertsAfter(results) && ExpertHistory(results, expert) != []
    ensures CostScore(ExpertsAfter(results)[expert]) == if expert == "planner" then 1.0 else 1.0 / 2.8
  {
    var st, n := ExpertsAfter(results)[expert], |ExpertHistory(results, expert)|;
    ExpertsSummarise(results, expert);
    AverageOf(n, ExpertCost(expert));
  }

  lemma {:induction false} AverageOf(n: nat, c: real)
    requires n > 0
    ensures (n as real * c) / n as real == c
  {
    QuotientIs(n as real * c, n as real);
    SameFactor((n as real * c) / n as real, c, n as real);
  }

  lemma {:induction false} SameFactor(a: real, b: real, c: real)
    requires c > 0.0 && a * c == c * b
    ensures a == b
  {
    ProductSign(a - b, c);
    ProductSign(b - a, c);
  }

  /** The success rate is that of the recent calls, or of all calls if there are no recent ones. */
  lemma {:induction false} SuccessIs(st: ToolStats)
    ensures RecentSuccess(st) * (if st.recentOk != [] then |st.recentOk| else AtLeastOne(st.calls)) as real
            == (if st.recentOk != [] then CountTrue(st.recentOk) else st.ok) as real
  {
    if st.recentOk != [] {
      QuotientIs(CountTrue(st.recentOk) as real, |st.recentOk| as real);
    } else {
      QuotientIs(st.ok as real, AtLeastOne(st.calls) as real);
    }
  }

  /* ---- one tool, many spellings ---- */

  lemma {:induction false} LowerSpaces(s: string, i: nat)
    requires i < |s|
    ensures IsSpace(Lower(s)[i]) <==> IsSpace(s[i])
  {}

  lemma {:induction false} LowerLStrip(s: string)
    ensures LStrip(Lower(s)) == Lower(LStrip(s))
  {
    if s != "" {
      LowerSpaces(s, 0);
      LowerLStrip(s[1..]);
      assert Lower(s)[1..] == Lower(s[1..]);
    }
  }

  lemma {:induction false} LowerRStrip(s: string)
    ensures RStrip(Lower(s)) == Lower(RStrip(s))
  {
    if s != "" {
      var n := |s| - 1;
      LowerSpaces(s, n);
      LowerRStrip(s[..n]);
      assert Lower(s)[..n] == Lower(s[..n]);
    }
  }

  /** Invocations are counted for the same tool whatever the case of its name and the white space around it. */
  lemma {:induction false} OneTool(health: map<string, ToolStats>, name: string, other: string, o: Invocation)
    requires Strip(Lower(name)) == Strip(Lower(other))
    ensures Recorded(health, ToolCall(name, o)) == Recorded(health, ToolCall(other, o))
  {
    KeyIs(name);
    KeyIs(other);
  }

  lemma {:induction false} KeyIs(name: string)
    ensures Key(name) == Strip(Lower(name))
  {
    LowerLStrip(name);
    LowerRStrip(LStrip(name));
  }
}
