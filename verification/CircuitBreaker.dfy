/** The circuit breaker (agent_kernel/circuit_breaker.py): streak counters per key. */
module CircuitBreakers {
  import opened Schemas

  type Streaks = map<string, map<string, nat>>

  datatype BreakerState = BreakerState(errorStreaks: Streaks, actionStreaks: Streaks, lastDoneCycle: int)

  function CounterIn(d: map<string, nat>, fp: string): nat {
    if fp in d then d[fp] else 0
  }

  function Counter(streaks: Streaks, key: string, fp: string): nat {
    if key in streaks then CounterIn(streaks[key], fp) else 0
  }

  /** Count one call: the fingerprint's counter grows, the key's other counters are zeroed. */
  function Bump(streaks: Streaks, key: string, fp: string): Streaks {
    streaks[key := Counted(if key in streaks then streaks[key] else map[], fp)]
  }

  function Counted(d: map<string, nat>, fp: string): map<string, nat> {
    map f | f in d.Keys + {fp} :: if f == fp then CounterIn(d, fp) + 1 else 0
  }

  class CircuitBreaker {
    const sameErrorLimit: int
    const sameActionReplanLimit: int
    const stagnationCycleLimit: int
    var errorStreaks: Streaks
    var actionStreaks: Streaks
    var lastDoneCycle: int

    constructor (sameErrorLimit: int, sameActionReplanLimit: int, stagnationCycleLimit: int)
      ensures State() == BreakerState(map[], map[], 0)
      ensures this.sameErrorLimit == Max(2, sameErrorLimit)
      ensures this.sameActionReplanLimit == Max(2, sameActionReplanLimit)
      ensures this.stagnationCycleLimit == Max(2, stagnationCycleLimit)
    {
      this.sameErrorLimit := Max(2, sameErrorLimit);
      this.sameActionReplanLimit := Max(2, sameActionReplanLimit);
      this.stagnationCycleLimit := Max(2, stagnationCycleLimit);
      errorStreaks, actionStreaks, lastDoneCycle := map[], map[], 0;
    }

    ghost function State(): BreakerState
      reads this
    {
      BreakerState(errorStreaks, actionStreaks, lastDoneCycle)
    }

    method MarkDoneProgress(cycle: int)
      modifies this
      ensures State() == old(State()).(lastDoneCycle := Max(old(lastDoneCycle), cycle))
    {
      lastDoneCycle := Max(lastDoneCycle, cycle);
    }

    method OnError(subgoalId: string, fingerprint: string) returns (triggered: bool)
      modifies this
      ensures State() == old(State()).(errorStreaks := Bump(old(errorStreaks), subgoalId, fingerprint))
      ensures triggered <==> Counter(errorStreaks, subgoalId, fingerprint) >= sameErrorLimit
    {
      errorStreaks := Count(errorStreaks, subgoalId, fingerprint);
      triggered := Counter(errorStreaks, subgoalId, fingerprint) >= sameErrorLimit;
    }

    method OnReplanAction(pathKey: string, actionFingerprint: string) returns (triggered: bool)
      modifies this
      ensures State() == old(State()).(actionStreaks := Bump(old(actionStreaks), pathKey, actionFingerprint))
      ensures triggered <==> Counter(actionStreaks, pathKey, actionFingerprint) >= sameActionReplanLimit
    {
      actionStreaks := Count(actionStreaks, pathKey, actionFingerprint);
      triggered := Counter(actionStreaks, pathKey, actionFingerprint) >= sameActionReplanLimit;
    }

    /** `secondsStalled`: the wall clock shows no progress for the configured number of seconds. */
    method CheckStagnation(cycle: int, secondsStalled: bool) returns (triggered: bool)
      ensures triggered <==> cycle - lastDoneCycle >= stagnationCycleLimit || secondsStalled
    {
      triggered := cycle - lastDoneCycle >= stagnationCycleLimit || secondsStalled;
    }
  }

  /** The body shared by `on_error` and `on_replan_action`: one counter is raised, then a loop zeroes the others. */
  method Count(streaks: Streaks, key: string, fp: string) returns (after: Streaks)
    ensures after == Bump(streaks, key, fp)
  {
    var d := if key in streaks then streaks[key] else map[];
    ghost var before := d;
    d := d[fp := CounterIn(d, fp) + 1];
    var rest := d.Keys;
    while rest != {}
      invariant rest <= d.Keys && d.Keys == before.Keys + {fp}
      invariant d[fp] == CounterIn(before, fp) + 1
      invariant forall f :: f in d && f !in rest && f != fp ==> d[f] == 0
      decreases rest
    {
      var oldFp :| oldFp in rest;
      if oldFp != fp {
        d := d[oldFp := 0];
      }
      rest := rest - {oldFp};
    }
    assert d == Counted(before, fp);
    after := streaks[key := d];
  }

  /* ---- the counters against the full call history ---- */

  datatype Call = Call(key: string, fp: string)

  /** The fingerprints one key was called with, oldest first. */
  function History(calls: seq<Call>, key: string): seq<string> {
    if calls == [] then []
    else
      var last := calls[|calls| - 1];
      History(calls[..|calls| - 1], key) + (if last.key == key then [last.fp] else [])
  }

  /** The number of equal entries at the end of a history. */
  function TrailingRun(h: seq<string>): nat {
    if |h| <= 1 then |h|
    else if h[|h| - 1] == h[|h| - 2] then TrailingRun(h[..|h| - 1]) + 1
    else 1
  }

  lemma {:induction false} TrailingRunMeaning(h: seq<string>)
    ensures var r := TrailingRun(h);
            && r <= |h| && (h != [] ==> r >= 1)
            && (forall i :: |h| - r <= i < |h| ==> h[i] == h[|h| - 1])
            && (r < |h| ==> h[|h| - r - 1] != h[|h| - 1])
  {
    if |h| > 1 && h[|h| - 1] == h[|h| - 2] {
      TrailingRunMeaning(h[..|h| - 1]);
    }
  }

  /** What the counters must be for a given call history. */
  ghost predicate Refines(streaks: Streaks, calls: seq<Call>) {
    forall key :: KeyRefines(streaks, calls, key)
  }

  ghost predicate KeyRefines(streaks: Streaks, calls: seq<Call>, key: string) {
    var h := History(calls, key);
    && (key in streaks <==> h != [])
    && (h != [] ==>
          && h[|h| - 1] in streaks[key]
          && streaks[key][h[|h| - 1]] == TrailingRun(h)
          && forall fp :: fp in streaks[key] && fp != h[|h| - 1] ==> streaks[key][fp] == 0)
  }

  lemma {:induction false} HistoryNext(calls: seq<Call>, c: Call, key: string)
    ensures History(calls + [c], key) == History(calls, key) + (if c.key == key then [c.fp] else [])
  {}

  lemma {:induction false} TrailingRunNext(h: seq<string>, fp: string)
    ensures TrailingRun(h + [fp]) == if h != [] && h[|h| - 1] == fp then TrailingRun(h) + 1 else 1
  {}

  /** One call keeps the counters in step with the history. */
  lemma {:induction false} BumpRefines(streaks: Streaks, calls: seq<Call>, key: string, fp: string)
    requires Refines(streaks, calls)
    ensures Refines(Bump(streaks, key, fp), calls + [Call(key, fp)])
    ensures Counter(Bump(streaks, key, fp), key, fp) == TrailingRun(History(calls + [Call(key, fp)], key))
  {
    var after := Bump(streaks, key, fp);
    forall k ensures KeyRefines(after, calls + [Call(key, fp)], k) {
      assert KeyRefines(streaks, calls, k);
      HistoryNext(calls, Call(key, fp), k);
      TrailingRunNext(History(calls, k), fp);
      if k != key {
        assert History(calls, k) + [] == History(calls, k);
      }
    }
    assert KeyRefines(after, calls + [Call(key, fp)], key);
    HistoryNext(calls, Call(key, fp), key);
  }

  /** The counters after any sequence of calls on a breaker that held `start`. */
  function StreaksFrom(start: Streaks, calls: seq<Call>): Streaks {
    if calls == [] then start
    else
      var last := calls[|calls| - 1];
      Bump(StreaksFrom(start, calls[..|calls| - 1]), last.key, last.fp)
  }

  /** The counters after any sequence of calls on a new breaker. */
  function StreaksAfter(calls: seq<Call>): Streaks {
    StreaksFrom(map[], calls)
  }

  lemma {:induction false} StreaksNext(start: Streaks, calls: seq<Call>, c: Call)
    ensures StreaksFrom(start, calls + [c]) == Bump(StreaksFrom(start, calls), c.key, c.fp)
  {
    assert (calls + [c])[..|calls|] == calls;
  }

  lemma {:induction false} LastOf(a: seq<Call>, b: seq<Call>)
    requires b != []
    ensures b == b[..|b| - 1] + [b[|b| - 1]] && a + b == a + (b[..|b| - 1] + [b[|b| - 1]])
  {}

  lemma {:induction false} StreaksMore(start: Streaks, a: seq<Call>, b: seq<Call>, c: Call)
    requires StreaksFrom(start, a + b) == StreaksFrom(StreaksFrom(start, a), b)
    ensures StreaksFrom(start, a + (b + [c])) == StreaksFrom(StreaksFrom(start, a), b + [c])
  {
    StreaksNext(start, a + b, c);
    StreaksNext(StreaksFrom(start, a), b, c);
    Joined(a, b, [c]);
  }

  lemma {:induction false} Joined(a: seq<Call>, b: seq<Call>, c: seq<Call>)
    ensures a + b + c == a + (b + c)
  {}

  lemma {:induction false} StreaksAppend(start: Streaks, a: seq<Call>, b: seq<Call>)
    ensures StreaksFrom(start, a + b) == StreaksFrom(StreaksFrom(start, a), b)
  {
    if b == [] {
      assert a + b == a;
    } else {
      var before, last := b[..|b| - 1], b[|b| - 1];
      StreaksAppend(start, a, before);
      StreaksMore(start, a, before, last);
      LastOf(a, b);
    }
  }

  /** After any call sequence the counter of a key's latest fingerprint is the length of its trailing run,
      the key's other counters are zero, and the last call fires exactly when that run reaches the limit. */
  lemma {:induction false} CountersRefineHistory(calls: seq<Call>, limit: nat)
    ensures Refines(StreaksAfter(calls), calls)
    ensures calls != [] ==>
              var last := calls[|calls| - 1];
              (Counter(StreaksAfter(calls), last.key, last.fp) >= limit
               <==> TrailingRun(History(calls, last.key)) >= limit)
  {
    if calls != [] {
      var n := |calls| - 1;
      CountersRefineHistory(calls[..n], limit);
      BumpRefines(StreaksAfter(calls[..n]), calls[..n], calls[n].key, calls[n].fp);
      assert calls[..n] + [Call(calls[n].key, calls[n].fp)] == calls;
    }
  }

  /** One more call reaches a limit of two exactly if the key's latest call had the same fingerprint. */
  lemma {:induction false} RepeatIff(calls: seq<Call>, key: string, fp: string)
    ensures var h := History(calls, key);
            && (Counter(StreaksAfter(calls), key, fp) >= 1 <==> h != [] && h[|h| - 1] == fp)
            && (Counter(Bump(StreaksAfter(calls), key, fp), key, fp) >= 2 <==> h != [] && h[|h| - 1] == fp)
  {
    CountersRefineHistory(calls, 2);
    assert KeyRefines(StreaksAfter(calls), calls, key);
    TrailingRunMeaning(History(calls, key));
  }

  /** Calls for other keys leave a counter alone. */
  lemma {:induction false} OtherKeys(start: Streaks, calls: seq<Call>, key: string, fp: string)
    requires History(calls, key) == []
    ensures Counter(StreaksFrom(start, calls), key, fp) == Counter(start, key, fp)
  {
    if calls != [] {
      OtherKeys(start, calls[..|calls| - 1], key, fp);
    }
  }

  /* ---- stagnation against the history of progress ---- */

  /** The last cycle with progress after the given calls of `mark_done_progress` on a breaker that held `start`. */
  function LastDone(start: int, cycles: seq<int>): int {
    if cycles == [] then start else Max(LastDone(start, cycles[..|cycles| - 1]), cycles[|cycles| - 1])
  }

  /** The cycle gap reaches the limit exactly if no progress was recorded within the last `limit` cycles, by this run
      or by an earlier one on the same breaker. */
  lemma {:induction false} StagnationMeansNoProgress(start: int, cycles: seq<int>, cycle: int, limit: int)
    ensures cycle - LastDone(start, cycles) >= limit
            <==> start <= cycle - limit && forall c :: c in cycles ==> c <= cycle - limit
  {
    if cycles != [] {
      var n := |cycles| - 1;
      StagnationMeansNoProgress(start, cycles[..n], cycle, limit);
      assert cycles == cycles[..n] + [cycles[n]];
      assert cycles[n] in cycles && forall c :: c in cycles[..n] ==> c in cycles;
    }
  }
}
