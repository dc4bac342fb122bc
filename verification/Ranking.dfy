/** Scored texts: stable sorting, cutting and keeping the best. */
module Ranking {
  import opened Basics

  datatype Scored = Scored(text: string, score: real)

  /** `xs[: max(1, k)]`. */
  function Cut<T>(xs: seq<T>, k: int): seq<T> {
    var n := AtLeastOne(k);
    if n <= |xs| then xs[..n] else xs
  }

  /* ---- stable sorting, highest score first ---- */

  function Inserted(rows: seq<Scored>, r: Scored): seq<Scored> {
    if rows == [] || rows[|rows| - 1].score >= r.score then rows + [r]
    else Inserted(rows[..|rows| - 1], r) + [rows[|rows| - 1]]
  }

  /** `rows.sort(key=score, reverse=True)`. */
  function Sorted(rows: seq<Scored>): seq<Scored> {
    if rows == [] then [] else Inserted(Sorted(rows[..|rows| - 1]), rows[|rows| - 1])
  }

  predicate Descending(rows: seq<Scored>) {
    forall i, j :: 0 <= i < j < |rows| ==> rows[i].score >= rows[j].score
  }

  /** The rows with one score, in their order. */
  function WithScore(rows: seq<Scored>, score: real): seq<Scored> {
    if rows == [] then []
    else WithScore(rows[..|rows| - 1], score) + (if rows[|rows| - 1].score == score then [rows[|rows| - 1]] else [])
  }

  lemma {:induction false} InsertedMembers(rows: seq<Scored>, r: Scored)
    ensures multiset(Inserted(rows, r)) == multiset(rows) + multiset{r}
  {
    if rows != [] && rows[|rows| - 1].score < r.score {
      var n := |rows| - 1;
      InsertedMembers(rows[..n], r);
      assert rows == rows[..n] + [rows[n]];
    }
  }

  lemma {:induction false} InsertedBelow(rows: seq<Scored>, r: Scored, low: real)
    requires r.score >= low && forall x :: x in rows ==> x.score >= low
    ensures forall x :: x in Inserted(rows, r) ==> x.score >= low
  {
    if rows != [] && rows[|rows| - 1].score < r.score {
      InsertedBelow(rows[..|rows| - 1], r, low);
    }
  }

  lemma {:induction false} InsertedDescending(rows: seq<Scored>, r: Scored)
    requires Descending(rows)
    ensures Descending(Inserted(rows, r))
  {
    if rows != [] && rows[|rows| - 1].score < r.score {
      var n := |rows| - 1;
      InsertedDescending(rows[..n], r);
      InsertedBelow(rows[..n], r, rows[n].score);
    }
  }

  lemma {:induction false} WithScoreNext(rows: seq<Scored>, x: Scored, score: real)
    ensures WithScore(rows + [x], score) == WithScore(rows, score) + (if x.score == score then [x] else [])
  {}

  lemma {:induction false} InsertedStable(rows: seq<Scored>, r: Scored, score: real)
    requires Descending(rows)
    ensures WithScore(Inserted(rows, r), score) == WithScore(rows + [r], score)
  {
    WithScoreNext(rows, r, score);
    if rows != [] && rows[|rows| - 1].score < r.score {
      var n := |rows| - 1;
      InsertedStable(rows[..n], r, score);
      WithScoreNext(rows[..n], r, score);
      WithScoreNext(Inserted(rows[..n], r), rows[n], score);
      var w := WithScore(rows[..n], score);
      assert w + [] == w;
      if r.score == score {
        assert WithScore(rows, score) == w + [] == w;
        assert w + [r] + [] == w + [r];
      }
    }
  }

  /** Sorting permutes the rows, ... */
  lemma {:induction false} SortedPermutes(rows: seq<Scored>)
    ensures multiset(Sorted(rows)) == multiset(rows)
  {
    if rows != [] {
      var n := |rows| - 1;
      SortedPermutes(rows[..n]);
      InsertedMembers(Sorted(rows[..n]), rows[n]);
      assert rows == rows[..n] + [rows[n]];
    }
  }

  /** ... puts the best first, ... */
  lemma {:induction false} SortedDescending(rows: seq<Scored>)
    ensures Descending(Sorted(rows))
  {
    if rows != [] {
      SortedDescending(rows[..|rows| - 1]);
      InsertedDescending(Sorted(rows[..|rows| - 1]), rows[|rows| - 1]);
    }
  }

  /** ... and keeps the order of rows with equal scores. */
  lemma {:induction false} SortedStable(rows: seq<Scored>, score: real)
    ensures WithScore(Sorted(rows), score) == WithScore(rows, score)
  {
    if rows != [] {
      var n := |rows| - 1;
      var before := Sorted(rows[..n]);
      SortedStable(rows[..n], score);
      SortedDescending(rows[..n]);
      InsertedStable(before, rows[n], score);
      WithScoreNext(before, rows[n], score);
    }
  }

  lemma {:induction false} SameMembers(a: seq<Scored>, b: seq<Scored>)
    requires multiset(a) == multiset(b)
    ensures |a| == |b| && forall x :: x in a <==> x in b
  {
    assert |multiset(a)| == |a| && |multiset(b)| == |b|;
    forall x ensures x in a <==> x in b {
      assert x in a <==> x in multiset(a);
      assert x in b <==> x in multiset(b);
    }
  }

  lemma {:induction false} SortedMembers(rows: seq<Scored>)
    ensures forall x :: x in Sorted(rows) <==> x in rows
    ensures |Sorted(rows)| == |rows| && Descending(Sorted(rows))
  {
    SortedPermutes(rows);
    SortedDescending(rows);
    SameMembers(Sorted(rows), rows);
  }

  /* ---- distinct texts ---- */

  predicate DistinctTexts(rows: seq<Scored>) {
    forall i, j :: 0 <= i < j < |rows| ==> rows[i].text != rows[j].text
  }

  /** The rows are pairwise different and ordered by score. */
  predicate Ranked(rows: seq<Scored>) {
    DistinctTexts(rows) && Descending(rows)
  }

  /** Distinctness only depends on the rows, not on their order. */
  lemma {:induction false} DistinctByMembers(a: seq<Scored>, b: seq<Scored>)
    requires DistinctTexts(a) && multiset(a) == multiset(b)
    ensures DistinctTexts(b)
  {
    forall i, j | 0 <= i < j < |b| ensures b[i].text != b[j].text {
      TwoApart(a, b, i, j);
    }
  }

  lemma {:induction false} TwoApart(a: seq<Scored>, b: seq<Scored>, i: nat, j: nat)
    requires DistinctTexts(a) && multiset(a) == multiset(b) && i < j < |b|
    ensures b[i].text != b[j].text
  {
    assert b[i] in multiset(b) && b[j] in multiset(b);
    assert b[i] in a && b[j] in a;
    if b[i] == b[j] {
      AtLeastTwo(b, i, j);
      AtMostOne(a, b[i]);
    }
  }

  lemma {:induction false} AtLeastTwo(b: seq<Scored>, i: nat, j: nat)
    requires i < j < |b| && b[i] == b[j]
    ensures multiset(b)[b[i]] >= 2
  {
    assert b == b[..j] + [b[j]] + b[j + 1..];
    assert b[i] in b[..j];
    assert multiset(b) == multiset(b[..j]) + multiset([b[j]]) + multiset(b[j + 1..]);
  }

  lemma {:induction false} AtMostOne(a: seq<Scored>, x: Scored)
    requires DistinctTexts(a)
    ensures multiset(a)[x] <= 1
  {
    if a != [] {
      var n := |a| - 1;
      AtMostOne(a[..n], x);
      assert a == a[..n] + [a[n]];
      if x == a[n] { assert x !in a[..n]; }
    }
  }

  lemma {:induction false} SortedDistinct(rows: seq<Scored>)
    requires DistinctTexts(rows)
    ensures Ranked(Sorted(rows))
  {
    SortedPermutes(rows);
    SortedDescending(rows);
    DistinctByMembers(rows, Sorted(rows));
  }

  lemma {:induction false} SnocDistinct(rows: seq<Scored>, some: seq<Scored>, x: Scored)
    requires DistinctTexts(rows + [x]) && DistinctTexts(some) && forall r :: r in some ==> r in rows
    ensures DistinctTexts(some + [x])
  {
    var all := rows + [x];
    forall i | 0 <= i < |some| ensures some[i].text != x.text {
      assert some[i] in rows;
      var k :| 0 <= k < |rows| && rows[k] == some[i];
      assert all[k].text != all[|rows|].text;
    }
  }

  lemma {:induction false} SnocRanked(rows: seq<Scored>, some: seq<Scored>, x: Scored)
    requires Ranked(rows + [x]) && Ranked(some) && forall r :: r in some ==> r in rows
    ensures Ranked(some + [x])
  {
    SnocDistinct(rows, some, x);
    forall i | 0 <= i < |some| ensures some[i].score >= x.score {
      LastLowest(rows, x, some[i]);
    }
  }

  lemma {:induction false} LastLowest(rows: seq<Scored>, x: Scored, r: Scored)
    requires Descending(rows + [x]) && r in rows
    ensures r.score >= x.score
  {
    var all := rows + [x];
    var k :| 0 <= k < |rows| && rows[k] == r;
    assert all[k].score >= all[|rows|].score;
  }

  /* ---- the best rows ---- */

  /** `out` holds the best of `rows`, as many as there is room for. */
  ghost predicate BestOf(out: seq<Scored>, rows: seq<Scored>, k: int) {
    && (forall r :: r in out ==> r in rows)
    && |out| <= AtLeastOne(k)
    && (forall r :: r in rows && r !in out ==> |out| == AtLeastOne(k) && forall x :: x in out ==> x.score >= r.score)
  }

  lemma {:induction false} CutOut(rows: seq<Scored>, k: int, r: Scored) returns (i: nat)
    requires r in rows && r !in Cut(rows, k)
    ensures |Cut(rows, k)| == AtLeastOne(k) <= i < |rows| && rows[i] == r
  {
    i :| 0 <= i < |rows| && rows[i] == r;
    var out := Cut(rows, k);
    assert forall j :: 0 <= j < |out| ==> out[j] == rows[j];
  }

  lemma {:induction false} CutBest(rows: seq<Scored>, k: int)
    requires Descending(rows)
    ensures Descending(Cut(rows, k)) && BestOf(Cut(rows, k), rows, k)
    ensures DistinctTexts(rows) ==> DistinctTexts(Cut(rows, k))
  {
    var out := Cut(rows, k);
    forall r | r in rows && r !in out ensures |out| == AtLeastOne(k) && forall x :: x in out ==> x.score >= r.score {
      var i := CutOut(rows, k, r);
      forall x | x in out ensures x.score >= r.score {
        var j :| 0 <= j < |out| && out[j] == x;
        assert rows[j] == x;
      }
    }
  }

  lemma {:induction false} BestOfMembers(out: seq<Scored>, a: seq<Scored>, b: seq<Scored>, k: int)
    requires BestOf(out, a, k) && forall r :: r in a <==> r in b
    ensures BestOf(out, b, k)
  {}
}
