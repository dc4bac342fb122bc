/** What a subgoal takes over from a stored record (agent_kernel/schemas.py): which entries, in which order, and what
    stands in for a missing one. */
module Parsing {
  import opened Basics
  import opened PyText
  import opened Schemas

  lemma {:induction false} NonBlankNext(xs: seq<string>, x: string)
    ensures NonBlank(xs + [x]) == NonBlank(xs) + (if Blank(x) then [] else [x])
  {
    if xs != [] {
      NonBlankNext(xs[1..], x);
      assert (xs + [x])[1..] == xs[1..] + [x];
    }
  }

  /** The dependencies are the entries that are not blank, unchanged and in order. */
  lemma {:induction false} DependenciesAre(xs: seq<string>) returns (at: seq<nat>)
    ensures Selects(xs, NotBlank(xs), NonBlank(xs), at)
  {
    at := [];
    if xs != [] {
      var before, x := xs[..|xs| - 1], xs[|xs| - 1];
      assert xs == before + [x];
      at := DependenciesAre(before);
      NonBlankNext(before, x);
      NotBlankNext(before, x);
      if Blank(x) {
        SelectsSame(before, NotBlank(before), NonBlank(before), at, x);
      } else {
        SelectsMore(before, NotBlank(before), NonBlank(before), at, x);
        at := at + [|before|];
      }
    }
  }

  function Operators(cs: seq<Check>): (r: seq<string>)
    ensures |r| == |cs| && forall j :: 0 <= j < |cs| ==> r[j] == cs[j].op
  {
    seq(|cs|, j requires 0 <= j < |cs| => cs[j].op)
  }

  function Tidied(cs: seq<Check>): (r: seq<Check>)
    ensures |r| == |cs| && forall j :: 0 <= j < |cs| ==> r[j] == Check(Strip(cs[j].op), cs[j].args)
  {
    seq(|cs|, j requires 0 <= j < |cs| => Check(Strip(cs[j].op), cs[j].args))
  }

  lemma {:induction false} OperatorsNext(cs: seq<Check>, c: Check)
    ensures Operators(cs + [c]) == Operators(cs) + [c.op]
    ensures Tidied(cs + [c]) == Tidied(cs) + [Check(Strip(c.op), c.args)]
  {}

  lemma {:induction false} KeepChecksNext(cs: seq<Check>, c: Check)
    ensures KeepChecks(cs + [c]) == KeepChecks(cs) + (if Blank(c.op) then [] else [Check(Strip(c.op), c.args)])
  {
    if cs != [] {
      KeepChecksNext(cs[1..], c);
      assert (cs + [c])[1..] == cs[1..] + [c];
    }
  }

  /** The conditions are the entries whose operator is not blank, in order, with the operator stripped. */
  lemma {:induction false} ConditionsAre(cs: seq<Check>) returns (at: seq<nat>)
    ensures Selects(Tidied(cs), NotBlank(Operators(cs)), KeepChecks(cs), at)
  {
    at := [];
    if cs != [] {
      var before, c := cs[..|cs| - 1], cs[|cs| - 1];
      assert cs == before + [c];
      at := ConditionsAre(before);
      KeepChecksNext(before, c);
      OperatorsNext(before, c);
      NotBlankNext(Operators(before), c.op);
      if Blank(c.op) {
        SelectsSame(Tidied(before), NotBlank(Operators(before)), KeepChecks(before), at, Check(Strip(c.op), c.args));
      } else {
        SelectsMore(Tidied(before), NotBlank(Operators(before)), KeepChecks(before), at, Check(Strip(c.op), c.args));
        at := at + [|before|];
      }
    }
  }

  /** A stored policy keeps what it says; what it does not say is two attempts and an exponential back-off from 300 ms,
      and nothing is below one. Without a policy there is always an attempt left. */
  lemma {:induction false} PolicyIs(raw: Option<RetryPolicy>, retries: nat)
    ensures var r := ParseRetryPolicy(raw, retries);
            match raw
            case Some(p) =>
              && (p.maxAttempts >= 1 ==> r.maxAttempts == p.maxAttempts) && (p.maxAttempts == 0 ==> r.maxAttempts == 2)
              && (p.maxAttempts < 0 ==> r.maxAttempts == 1)
              && (p.baseDelayMs >= 1 ==> r.baseDelayMs == p.baseDelayMs)
              && (p.baseDelayMs == 0 ==> r.baseDelayMs == 300) && (p.baseDelayMs < 0 ==> r.baseDelayMs == 1)
              && r.backoff == (if p.backoff != "" then p.backoff else "exponential")
            case None =>
              && r.maxAttempts == (if retries >= 1 then retries + 1 else 2)
              && r.backoff == "exponential" && r.baseDelayMs == 300
  {}

  /** An input is there if its key is. */
  lemma {:induction false} InputIs(p: Payload, key: string)
    requires p.extras.Keys !! {"dependencies", "preconditions", "success_criteria", "fallback", "retry_policy",
                               "supervisor_context"}
    ensures HasInput(p, key) <==>
              || key in p.extras
              || (key == "dependencies" && p.dependencies.Some?) || (key == "preconditions" && p.preconditions.Some?)
              || (key == "success_criteria" && p.successCriteria.Some?) || (key == "fallback" && p.fallback.Some?)
              || (key == "retry_policy" && p.retryPolicy.Some?)
              || (key == "supervisor_context" && p.supervisorSource.Some?)
  {}
}
