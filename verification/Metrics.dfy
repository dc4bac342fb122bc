/** Retrieval metrics (rag_offline/common.py) over exact reals. The discount 1 / log2(rank + 1) is represented by
    any positive, strictly decreasing function of the rank. */
module Metrics {
  import opened Basics

  type Discount = nat -> real

  ghost predicate Decreasing(d: Discount) {
    forall i, j: nat :: 1 <= i < j ==> 0.0 < d(j) < d(i)
  }

  predicate Distinct(p: seq<string>) {
    forall i, j :: 0 <= i < j < |p| ==> p[i] != p[j]
  }

  /** `pred[: max(0, k)]`. */
  function Top(pred: seq<string>, k: int): seq<string> {
    if k <= 0 then [] else if k <= |pred| then pred[..k] else pred
  }

  function Hits(p: seq<string>, gold: set<string>): nat {
    if p == [] then 0 else Hits(p[..|p| - 1], gold) + (if p[|p| - 1] in gold then 1 else 0)
  }

  function RecallAtK(pred: seq<string>, gold: set<string>, k: int): real {
    if gold == {} then 0.0 else Hits(Top(pred, k), gold) as real / |gold| as real
  }

  /* ---- recall ---- */

  /** The relevant ones among the predictions. */
  function Found(p: seq<string>, gold: set<string>): set<string> {
    set x | x in p && x in gold
  }

  lemma {:induction false} FoundNext(p: seq<string>, x: string, gold: set<string>)
    ensures Found(p + [x], gold) == Found(p, gold) + (if x in gold then {x} else {})
  {}

  lemma {:induction false} DistinctHits(p: seq<string>, gold: set<string>)
    requires Distinct(p)
    ensures Hits(p, gold) == |Found(p, gold)|
  {
    if p == [] {
      assert Found(p, gold) == {};
    } else {
      var n := |p| - 1;
      DistinctHits(p[..n], gold);
      FoundNext(p[..n], p[n], gold);
      assert p == p[..n] + [p[n]];
      assert p[n] !in p[..n];
    }
  }

  lemma {:induction false} HitsAtMost(p: seq<string>, gold: set<string>)
    requires Distinct(p)
    ensures Hits(p, gold) <= |gold|
  {
    DistinctHits(p, gold);
    SubsetSize(Found(p, gold), gold);
  }

  lemma {:induction false} HitsLength(p: seq<string>, gold: set<string>)
    ensures Hits(p, gold) <= |p|
  {
    if p != [] {
      HitsLength(p[..|p| - 1], gold);
    }
  }

  /** Every occurrence counts. */
  lemma {:induction false} HitsTwice(p: seq<string>, i: nat, j: nat)
    requires i < j < |p| && p[i] == p[j]
    ensures Hits(p, {p[i]}) >= 2
  {
    var n := |p| - 1;
    if j < n {
      HitsTwice(p[..n], i, j);
    } else {
      HitsOnce(p[..n], i);
    }
  }

  lemma {:induction false} HitsOnce(p: seq<string>, i: nat)
    requires i < |p|
    ensures Hits(p, {p[i]}) >= 1
  {
    if i < |p| - 1 {
      HitsOnce(p[..|p| - 1], i);
    }
  }

  lemma {:induction false} RatioAtMostOne(a: nat, b: nat)
    requires b > 0
    ensures a as real / b as real <= 1.0 <==> a <= b
  {}

  /** Recall is at most one, whatever is relevant, exactly if the first k predictions have no duplicate. */
  lemma {:induction false} RecallBoundedIff(pred: seq<string>, k: int)
    ensures (forall gold: set<string> :: RecallAtK(pred, gold, k) <= 1.0) <==> Distinct(Top(pred, k))
  {
    var p := Top(pred, k);
    if Distinct(p) {
      forall gold: set<string> ensures RecallAtK(pred, gold, k) <= 1.0 {
        if gold != {} {
          HitsAtMost(p, gold);
          RatioAtMostOne(Hits(p, gold), |gold|);
        }
      }
    } else {
      var i, j :| 0 <= i < j < |p| && p[i] == p[j];
      HitsTwice(p, i, j);
      RatioAtMostOne(Hits(p, {p[i]}), 1);
      assert !(RecallAtK(pred, {p[i]}, k) <= 1.0);
    }
  }

  /** Position `i` is one of the first `k`, and its prediction is relevant. */
  predicate HitAt(pred: seq<string>, gold: set<string>, k: int, i: nat) {
    i < |pred| && i < k && pred[i] in gold
  }

  /** Without duplicates recall is the share of the relevant ones that are among the first k predictions. */
  lemma {:induction false} RecallIs(pred: seq<string>, gold: set<string>, k: int, found: set<string>)
    requires forall i, j :: 0 <= i < j < |pred| && j < k ==> pred[i] != pred[j]
    requires forall x :: x in found <==> exists i: nat :: HitAt(pred, gold, k, i) && pred[i] == x
    ensures if gold == {} then RecallAtK(pred, gold, k) == 0.0
            else RecallAtK(pred, gold, k) * |gold| as real == |found| as real
  {
    var p := Top(pred, k);
    DistinctHits(p, gold);
    forall x ensures x in found <==> x in Found(p, gold) {
      if x in p && x in gold {
        var i :| 0 <= i < |p| && p[i] == x;
        assert HitAt(pred, gold, k, i);
      }
      if i: nat :| HitAt(pred, gold, k, i) && pred[i] == x {
        assert p[i] == x;
      }
    }
    assert found == Found(p, gold);
  }

  /* ---- nDCG ---- */

  function Gain(p: seq<string>, gold: set<string>, d: Discount): real {
    if p == [] then 0.0 else Gain(p[..|p| - 1], gold, d) + (if p[|p| - 1] in gold then d(|p|) else 0.0)
  }

  /** The gain of `n` relevant predictions in front. */
  function IdealGain(n: nat, d: Discount): real {
    if n == 0 then 0.0 else IdealGain(n - 1, d) + d(n)
  }

  function IdealHits(gold: set<string>, k: int): nat {
    if k <= 0 then 0 else if |gold| <= k then |gold| else k
  }

  function Ndcg(pred: seq<string>, gold: set<string>, k: int, d: Discount): real {
    if gold == {} || IdealGain(IdealHits(gold, k), d) <= 0.0 then 0.0
    else Gain(Top(pred, k), gold, d) / IdealGain(IdealHits(gold, k), d)
  }

  /** The first `n` predictions exist and are relevant. */
  predicate FrontRelevant(p: seq<string>, gold: set<string>, n: nat) {
    n <= |p| && forall i :: 0 <= i < n ==> p[i] in gold
  }

  /** The gain is at most that of as many hits in front, and reaches it only if they are in front. */
  lemma {:induction false} GainBound(p: seq<string>, gold: set<string>, d: Discount)
    requires Decreasing(d)
    ensures var h := Hits(p, gold);
            && 0.0 <= Gain(p, gold, d) <= IdealGain(h, d)
            && (Gain(p, gold, d) == IdealGain(h, d) <==> FrontRelevant(p, gold, h))
  {
    if p != [] {
      var n := |p| - 1;
      GainBound(p[..n], gold, d);
      HitsLength(p[..n], gold);
      var h := Hits(p[..n], gold);
      if p[n] in gold {
        assert h < n ==> 0.0 < d(n + 1) < d(h + 1);
        assert d(n + 1) > 0.0 by { assert d(n + 2) < d(n + 1); }
      }
      FrontNext(p, gold, h);
    }
  }

  lemma {:induction false} FrontNext(p: seq<string>, gold: set<string>, h: nat)
    requires p != [] && h <= |p| - 1 && h == Hits(p[..|p| - 1], gold)
    ensures var n := |p| - 1;
            if p[n] in gold then FrontRelevant(p, gold, h + 1) <==> h == n && FrontRelevant(p[..n], gold, h)
            else FrontRelevant(p, gold, h) <==> FrontRelevant(p[..n], gold, h)
  {
    var n := |p| - 1;
    if p[n] in gold && FrontRelevant(p, gold, h + 1) && h < n {
      HitsOfFront(p[..n], gold, h + 1);
    }
    forall i | 0 <= i < n ensures p[..n][i] == p[i] {}
    if p[n] in gold && h == n && FrontRelevant(p[..n], gold, h) {
      forall i | 0 <= i < h + 1 ensures p[i] in gold {
        if i < n { assert p[..n][i] in gold; }
      }
    }
  }

  lemma {:induction false} HitsOfFront(p: seq<string>, gold: set<string>, n: nat)
    requires FrontRelevant(p, gold, n)
    ensures Hits(p, gold) >= n
  {
    if |p| > n {
      HitsOfFront(p[..|p| - 1], gold, n);
    } else if n > 0 {
      HitsOfFront(p[..n - 1], gold, n - 1);
    }
  }

  lemma {:induction false} IdealGrows(a: nat, b: nat, d: Discount)
    requires Decreasing(d) && a <= b
    ensures IdealGain(a, d) <= IdealGain(b, d)
    ensures a < b ==> IdealGain(a, d) < IdealGain(b, d)
  {
    if a < b {
      IdealGrows(a, b - 1, d);
      assert d(b + 1) < d(b);
    }
  }

  lemma {:induction false} HitsAtMostIdeal(pred: seq<string>, gold: set<string>, k: int)
    requires Distinct(Top(pred, k))
    ensures Hits(Top(pred, k), gold) <= IdealHits(gold, k)
  {
    HitsAtMost(Top(pred, k), gold);
    HitsLength(Top(pred, k), gold);
  }

  lemma {:induction false} QuotientBounds(a: real, b: real)
    requires 0.0 <= a <= b && b > 0.0
    ensures 0.0 <= a / b <= 1.0 && (a / b == 1.0 <==> a == b)
  {}

  /** For duplicate-free predictions nDCG lies in [0, 1]; if a hit is possible, it is one exactly if the first
      min(|gold|, k) predictions are all relevant. */
  lemma {:induction false} NdcgBounds(pred: seq<string>, gold: set<string>, k: int, d: Discount)
    requires Decreasing(d) && Distinct(Top(pred, k))
    ensures 0.0 <= Ndcg(pred, gold, k, d) <= 1.0
    ensures IdealHits(gold, k) >= 1 ==>
              (Ndcg(pred, gold, k, d) == 1.0 <==> FrontRelevant(Top(pred, k), gold, IdealHits(gold, k)))
  {
    var p, ideal := Top(pred, k), IdealHits(gold, k);
    var h := Hits(p, gold);
    HitsAtMostIdeal(pred, gold, k);
    GainBound(p, gold, d);
    IdealGrows(h, ideal, d);
    IdealGrows(0, ideal, d);
    if gold != {} && ideal >= 1 {
      QuotientBounds(Gain(p, gold, d), IdealGain(ideal, d));
      if FrontRelevant(p, gold, ideal) {
        HitsOfFront(p, gold, ideal);
      }
    }
  }

  lemma {:induction false} GainOfHits(p: seq<string>, gold: set<string>, d: Discount, i: nat)
    requires forall j :: 0 <= j < |p| && p[j] in gold ==> j == i
    ensures Gain(p, gold, d) == if i < |p| && p[i] in gold then d(i + 1) else 0.0
  {
    if p != [] {
      GainOfHits(p[..|p| - 1], gold, d, i);
    }
  }

  /** With one relevant prediction nDCG is the discount of its rank, relative to that of the first rank; without any, or
      with nothing relevant, it is zero. */
  lemma {:induction false} NdcgOfOne(pred: seq<string>, gold: set<string>, k: int, d: Discount, i: nat)
    requires Decreasing(d) && |gold| <= 1 && forall j: nat :: HitAt(pred, gold, k, j) ==> j == i
    ensures Ndcg(pred, gold, k, d) * d(1) == if HitAt(pred, gold, k, i) then d(i + 1) else 0.0
  {
    var p := Top(pred, k);
    forall j | 0 <= j < |p| && p[j] in gold ensures j == i {
      assert HitAt(pred, gold, k, j);
    }
    GainOfHits(p, gold, d, i);
    assert d(2) > 0.0 && d(1) > d(2);
    if gold != {} && k > 0 {
      assert IdealGain(1, d) == IdealGain(0, d) + d(1) == d(1);
      QuotientIs(Gain(p, gold, d), d(1));
    }
  }

  /** Without duplicates nDCG is one exactly if the predictions begin with relevant ones, as many as there are relevant
      ones and room among the first k. */
  lemma {:induction false} NdcgPerfect(pred: seq<string>, gold: set<string>, k: int, d: Discount)
    requires Decreasing(d) && gold != {} && k >= 1
    requires forall i, j :: 0 <= i < j < |pred| && j < k ==> pred[i] != pred[j]
    ensures Ndcg(pred, gold, k, d) == 1.0 <==> forall i: nat :: i < k && i < |gold| ==> HitAt(pred, gold, k, i)
  {
    var p, n := Top(pred, k), IdealHits(gold, k);
    assert |gold| != 0;
    NdcgBounds(pred, gold, k, d);
    if forall i: nat :: i < k && i < |gold| ==> HitAt(pred, gold, k, i) {
      assert HitAt(pred, gold, k, n - 1);
      forall i | 0 <= i < n ensures p[i] in gold { assert HitAt(pred, gold, k, i); }
    }
    if FrontRelevant(p, gold, n) {
      forall i: nat | i < k && i < |gold| ensures HitAt(pred, gold, k, i) { assert p[i] in gold; }
    }
  }

  lemma {:induction false} QuotientAbove(a: real, b: real)
    requires a > b > 0.0
    ensures a / b > 1.0
  {}

  /** The different predictions. */
  function Elements(p: seq<string>): set<string> {
    set x | x in p
  }

  lemma {:induction false} ElementsSize(p: seq<string>)
    ensures |Elements(p)| <= |p|
    ensures Distinct(p) ==> |Elements(p)| == |p|
  {
    if p == [] {
      assert Elements(p) == {};
    } else {
      var n := |p| - 1;
      ElementsSize(p[..n]);
      assert p == p[..n] + [p[n]];
      assert Elements(p) == Elements(p[..n]) + {p[n]};
      if Distinct(p) { assert p[n] !in p[..n]; }
    }
  }

  lemma {:induction false} FirstRepeat(p: seq<string>) returns (j: nat)
    requires !Distinct(p)
    ensures 1 <= j < |p| && Distinct(p[..j]) && p[j] in p[..j]
  {
    j := |p| - 1;
    if !Distinct(p[..j]) {
      var before := p[..j];
      j := FirstRepeat(before);
      assert before[..j] == p[..j];
    } else {
      assert p == p[..j] + [p[j]];
      assert p[j] in p[..j];
    }
  }

  lemma {:induction false} FullGain(p: seq<string>, gold: set<string>, d: Discount)
    requires forall x :: x in p ==> x in gold
    ensures Gain(p, gold, d) == IdealGain(|p|, d)
  {
    if p != [] {
      FullGain(p[..|p| - 1], gold, d);
    }
  }

  lemma {:induction false} GainGrows(p: seq<string>, j: nat, gold: set<string>, d: Discount)
    requires Decreasing(d) && j <= |p|
    ensures Gain(p[..j], gold, d) <= Gain(p, gold, d)
  {
    if j < |p| {
      var n := |p| - 1;
      GainGrows(p[..n], j, gold, d);
      assert p[..n][..j] == p[..j];
      assert d(n + 2) < d(n + 1);
    } else {
      assert p[..j] == p;
    }
  }

  /** If the first k predictions repeat one, nDCG exceeds one when exactly the predictions before the first repetition
      are relevant. */
  lemma {:induction false} RepeatExceedsOne(pred: seq<string>, k: int, d: Discount) returns (gold: set<string>)
    requires Decreasing(d) && !Distinct(Top(pred, k))
    ensures Ndcg(pred, gold, k, d) > 1.0
  {
    var p := Top(pred, k);
    var j := FirstRepeat(p);
    gold := Elements(p[..j]);
    ElementsSize(p[..j]);
    assert p[..j + 1] == p[..j] + [p[j]];
    FullGain(p[..j + 1], gold, d);
    GainGrows(p, j + 1, gold, d);
    IdealGrows(j, j + 1, d);
    IdealGrows(0, j, d);
    assert |gold| == j && IdealHits(gold, k) == j;
    QuotientAbove(Gain(p, gold, d), IdealGain(j, d));
  }

  /** nDCG is at most one, whatever is relevant, exactly if the first k predictions have no duplicate. */
  lemma {:induction false} NdcgBoundedIff(pred: seq<string>, k: int, d: Discount)
    requires Decreasing(d)
    ensures (forall gold: set<string> :: Ndcg(pred, gold, k, d) <= 1.0) <==> Distinct(Top(pred, k))
  {
    if Distinct(Top(pred, k)) {
      forall gold: set<string> ensures Ndcg(pred, gold, k, d) <= 1.0 {
        NdcgBounds(pred, gold, k, d);
      }
    } else {
      var gold := RepeatExceedsOne(pred, k, d);
    }
  }

  /* ---- the loops ---- */

  /** `recall_at_k`. */
  method Recall(pred: seq<string>, gold: seq<string>, k: int) returns (r: real)
    ensures r == RecallAtK(pred, (set x | x in gold), k)
  {
    var p := Top(pred, k);
    var g := set x | x in gold;
    if g == {} {
      return 0.0;
    }
    var hit := 0;
    for i := 0 to |p|
      invariant hit == Hits(p[..i], g)
    {
      assert p[..i + 1][..i] == p[..i];
      if p[i] in g {
        hit := hit + 1;
      }
    }
    assert p[..|p|] == p;
    return hit as real / |g| as real;
  }

  /** `ndcg_at_k`. */
  method NdcgAtK(pred: seq<string>, gold: seq<string>, k: int, d: Discount) returns (r: real)
    ensures r == Ndcg(pred, (set x | x in gold), k, d)
  {
    var p := Top(pred, k);
    var g := set x | x in gold;
    if g == {} {
      return 0.0;
    }
    var dcg := 0.0;
    for i := 0 to |p|
      invariant dcg == Gain(p[..i], g, d)
    {
      assert p[..i + 1][..i] == p[..i];
      if p[i] in g {
        dcg := dcg + d(i + 1);
      }
    }
    assert p[..|p|] == p;
    var idcg := 0.0;
    for i := 0 to IdealHits(g, k)
      invariant idcg == IdealGain(i, d)
    {
      idcg := idcg + d(i + 1);
    }
    return if idcg <= 0.0 then 0.0 else dcg / idcg;
  }
}
