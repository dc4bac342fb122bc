/** What several modules count with. */
module Basics {

  /** `max(1, k)`. */
  function AtLeastOne(k: int): (r: nat)
    ensures r >= 1 && r >= k
  {
    if k < 1 then 1 else k
  }

  lemma {:induction false} SubsetSize(a: set<string>, b: set<string>)
    requires a <= b
    ensures |a| <= |b|
  {
    assert b == a + (b - a);
  }

  ghost predicate Increasing(at: seq<nat>) {
    forall j, k :: 0 <= j < k < |at| ==> at[j] < at[k]
  }

  /** `kept` is the entries of the list that are wanted, in order; they are found at the positions `at`. */
  ghost predicate Selects<T>(xs: seq<T>, wanted: seq<bool>, kept: seq<T>, at: seq<nat>)
    requires |xs| == |wanted|
  {
    && Increasing(at) && |kept| == |at|
    && (forall j: nat :: j in at <==> j < |xs| && wanted[j])
    && (forall k :: 0 <= k < |at| ==> at[k] < |xs| && kept[k] == xs[at[k]])
  }

  lemma {:induction false} SelectsMore<T>(xs: seq<T>, wanted: seq<bool>, kept: seq<T>, at: seq<nat>, x: T)
    requires |xs| == |wanted| && Selects(xs, wanted, kept, at)
    ensures Selects(xs + [x], wanted + [true], kept + [x], at + [|xs|])
  {}

  lemma {:induction false} SelectsSame<T>(xs: seq<T>, wanted: seq<bool>, kept: seq<T>, at: seq<nat>, x: T)
    requires |xs| == |wanted| && Selects(xs, wanted, kept, at)
    ensures Selects(xs + [x], wanted + [false], kept, at)
  {}

  lemma {:induction false} QuotientIs(a: real, b: real)
    requires b > 0.0
    ensures (a / b) * b == a
  {}
}
