/** What a retrieval package reports besides its texts (agentlib/companion_rag.py): which entries of the knowledge base
    are used, which queries are asked, and why nothing is retrieved. */
module RetrievalReports {
  import opened PyText
  import opened Basics
  import opened Ranking
  import opened Retrieval

  function StrippedAll(xs: seq<string>): (r: seq<string>)
    ensures |r| == |xs| && forall j :: 0 <= j < |xs| ==> r[j] == Strip(xs[j])
  {
    seq(|xs|, j requires 0 <= j < |xs| => Strip(xs[j]))
  }

  lemma {:induction false} StrippedNext(xs: seq<string>, x: string)
    ensures StrippedAll(xs + [x]) == StrippedAll(xs) + [Strip(x)]
  {}

  /** The entries used are those that are not blank, stripped and in order. */
  lemma {:induction false} CleanKbIs(kb: seq<string>) returns (at: seq<nat>)
    ensures Selects(StrippedAll(kb), NotBlank(kb), CleanKb(kb), at)
  {
    at := [];
    if kb != [] {
      var before, x := kb[..|kb| - 1], kb[|kb| - 1];
      assert kb == before + [x];
      at := CleanKbIs(before);
      StrippedNext(before, x);
      NotBlankNext(before, x);
      if Blank(x) {
        SelectsSame(StrippedAll(before), NotBlank(before), CleanKb(before), at, Strip(x));
      } else {
        SelectsMore(StrippedAll(before), NotBlank(before), CleanKb(before), at, Strip(x));
        at := at + [|before|];
      }
    }
  }

  /* ---- queries ---- */

  predicate AllDistinct(xs: seq<string>) {
    forall i, j :: 0 <= i < j < |xs| ==> xs[i] != xs[j]
  }

  /** `a` is an entry before any that is `b`. */
  predicate ComesFirst(xs: seq<string>, a: string, b: string) {
    exists m :: 0 <= m < |xs| && xs[m] == a && b !in xs[..m + 1]
  }

  /** The queries from position `k` on are taken from `second`: entries that are not empty, in order of first
      mention; none is left out unless there are `limit` queries. */
  predicate Takes(r: seq<string>, k: nat, second: seq<string>, limit: int) {
    && AllDistinct(r) && |r| <= limit
    && (forall j :: k <= j < |r| ==> r[j] in second && r[j] != "")
    && (forall q :: q in second && q != "" && q !in r ==> |r| == limit)
    && (forall i, j :: k <= i < j < |r| ==> ComesFirst(second, r[i], r[j]))
  }

  lemma {:induction false} ComesFirstLater(xs: seq<string>, a: string, b: string)
    requires xs != [] && ComesFirst(xs[1..], a, b) && xs[0] != b
    ensures ComesFirst(xs, a, b)
  {
    var m :| 0 <= m < |xs[1..]| && xs[1..][m] == a && b !in xs[1..][..m + 1];
    assert xs[..m + 2] == [xs[0]] + xs[1..][..m + 1];
    assert xs[m + 1] == a;
  }

  lemma {:induction false} TakesAlso(r: seq<string>, k: nat, second: seq<string>, limit: int)
    requires second != [] && k <= |r| && Takes(r, k, second[1..], limit)
    requires second[0] == "" || second[0] in r[..k]
    ensures Takes(r, k, second, limit)
  {
    assert second == [second[0]] + second[1..];
    forall i, j | k <= i < j < |r| ensures ComesFirst(second, r[i], r[j]) {
      ComesFirstLater(second, r[i], r[j]);
    }
  }

  lemma {:induction false} TakesFirst(r: seq<string>, k: nat, second: seq<string>, limit: int)
    requires second != [] && k < |r| && r[k] == second[0] != "" && Takes(r, k + 1, second[1..], limit)
    ensures Takes(r, k, second, limit)
  {
    assert second == [second[0]] + second[1..];
    forall i, j | k <= i < j < |r| ensures ComesFirst(second, r[i], r[j]) {
      if i == k {
        assert second[0] == r[i] && r[j] !in second[..1];
      } else {
        ComesFirstLater(second, r[i], r[j]);
      }
    }
  }

  lemma {:induction false} FullTakes(r: seq<string>, second: seq<string>, limit: int)
    requires AllDistinct(r) && |r| == limit
    ensures Takes(r, |r|, second, limit)
  {}

  lemma {:induction false} CollectedTakes(queries: seq<string>, second: seq<string>, limit: int)
    requires AllDistinct(queries) && |queries| < limit
    ensures Takes(Collected(queries, second, limit), |queries|, second, limit)
    decreases |second|
  {
    if second != [] {
      var q, r, k := second[0], Collected(queries, second, limit), |queries|;
      var more := if q != "" && q !in queries then queries + [q] else queries;
      if |more| >= limit {
        FullTakes(more, second[1..], limit);
      } else {
        CollectedTakes(more, second[1..], limit);
      }
      if q != "" && q !in queries {
        TakesFirst(r, k, second, limit);
      } else {
        TakesAlso(r, k, second, limit);
      }
    }
  }

  /** The first query is the user's; the others are those of the second pass, up to the limit, if there are to be more
      than one. */
  lemma {:induction false} QueriesAre(query: string, second: seq<string>, cfg: Config)
    ensures var qs := Queries(query, second, cfg);
            && qs != [] && qs[0] == query
            && if cfg.iterative && cfg.maxQueries >= 2 then Takes(qs, 1, second, cfg.maxQueries) else |qs| == 1
  {
    if cfg.iterative && cfg.maxQueries >= 2 {
      CollectedTakes([query], second, cfg.maxQueries);
    }
  }

  lemma {:induction false} GatheredNext(qs: seq<string>, q: string, kb: seq<string>, k: int, tok: Tokenizer)
    ensures Gathered(qs + [q], kb, k, tok) == Gathered(qs, kb, k, tok) + KeywordScored(q, kb, k, tok)
  {
    assert (qs + [q])[..|qs|] == qs;
  }

  lemma {:induction false} Regroup<T>(a: seq<T>, b: seq<T>, c: seq<T>)
    ensures (a + b) + c == a + (b + c)
  {}

  lemma {:induction false} GatheredOneMore(a: seq<string>, b: seq<string>, q: string, kb: seq<string>, k: int,
                                           tok: Tokenizer)
    requires Gathered(a + b, kb, k, tok) == Gathered(a, kb, k, tok) + Gathered(b, kb, k, tok)
    ensures Gathered(a + (b + [q]), kb, k, tok) == Gathered(a, kb, k, tok) + Gathered(b + [q], kb, k, tok)
  {
    Regroup(a, b, [q]);
    GatheredNext(a + b, q, kb, k, tok);
    GatheredNext(b, q, kb, k, tok);
    Regroup(Gathered(a, kb, k, tok), Gathered(b, kb, k, tok), KeywordScored(q, kb, k, tok));
  }

  /** The rows of the queries follow each other in the order of the queries. */
  lemma {:induction false} GatheredJoin(a: seq<string>, b: seq<string>, kb: seq<string>, k: int, tok: Tokenizer)
    ensures Gathered(a + b, kb, k, tok) == Gathered(a, kb, k, tok) + Gathered(b, kb, k, tok)
  {
    if b == [] {
      assert a + b == a;
    } else {
      var n := |b| - 1;
      assert b == b[..n] + [b[n]];
      GatheredJoin(a, b[..n], kb, k, tok);
      GatheredOneMore(a, b[..n], b[n], kb, k, tok);
    }
  }

  lemma {:induction false} PoolSizeIs(topK: int, cfg: Config)
    ensures PoolSize(topK, cfg) >= topK && PoolSize(topK, cfg) >= cfg.pool && PoolSize(topK, cfg) in {topK, cfg.pool}
  {}

  /* ---- the report ---- */

  lemma {:induction false} NothingLeft(kb: seq<string>)
    ensures CleanKb(kb) == [] <==> forall j :: 0 <= j < |kb| ==> Blank(kb[j])
  {
    var at := CleanKbIs(kb);
    if CleanKb(kb) == [] {
      forall j | 0 <= j < |kb| ensures Blank(kb[j]) { assert j !in at; }
    } else {
      assert at[0] in at;
    }
  }

  /** Why nothing is retrieved: the knowledge base holds nothing, or the text is too short, or nothing is found. The
      queries are reported where the search took place. */
  lemma {:induction false} PackageReports(userText: string, knowledge: seq<string>, second: seq<string>, topK: int,
                                          cfg: Config, tok: Tokenizer)
    ensures var r := Package(userText, knowledge, second, topK, cfg, tok);
            var nothing := forall j :: 0 <= j < |knowledge| ==> Blank(knowledge[j]);
            var short := cfg.selfRag && |Strip(userText)| < cfg.minQueryChars;
            && r.skipReason == (if nothing then EmptyKb else if short then LowInfo
                                else if r.items == [] then NoMatch else NotSkipped)
            && (nothing || short ==> r.items == [] && r.queries == [])
            && (!nothing && !short ==> r.queries == Queries(Strip(userText), second, cfg))
            && (r.retrievalUsed <==> r.items != [])
  {
    NothingLeft(knowledge);
  }

  function NotEmpty(xs: seq<string>): (r: seq<bool>)
    ensures |r| == |xs| && forall j :: 0 <= j < |xs| ==> r[j] == (xs[j] != "")
  {
    seq(|xs|, j requires 0 <= j < |xs| => xs[j] != "")
  }

  lemma {:induction false} NonEmptyNext(xs: seq<string>, x: string)
    ensures NonEmpty(xs + [x]) == NonEmpty(xs) + (if x == "" then [] else [x])
    ensures NotEmpty(xs + [x]) == NotEmpty(xs) + [x != ""]
  {
    if xs != [] {
      NonEmptyNext(xs[1..], x);
      assert (xs + [x])[1..] == xs[1..] + [x];
    }
  }

  /** The second pass asks its queries in order, without empty ones. */
  lemma {:induction false} SecondPassAsks(second: seq<string>) returns (at: seq<nat>)
    ensures Selects(second, NotEmpty(second), NonEmpty(second), at)
  {
    at := [];
    if second != [] {
      var before, x := second[..|second| - 1], second[|second| - 1];
      assert second == before + [x];
      at := SecondPassAsks(before);
      NonEmptyNext(before, x);
      if x == "" {
        SelectsSame(before, NotEmpty(before), NonEmpty(before), at, x);
      } else {
        SelectsMore(before, NotEmpty(before), NonEmpty(before), at, x);
        at := at + [|before|];
      }
    }
  }

  /* ---- ties ---- */

  /** A row of the text comes before every row of the other. */
  predicate MentionedFirst(rows: seq<Scored>, a: string, b: string) {
    exists m :: 0 <= m < |rows| && rows[m].text == a && forall j :: 0 <= j <= m ==> rows[j].text != b
  }

  lemma {:induction false} MentionedFirstMore(rows: seq<Scored>, r: Scored, a: string, b: string)
    requires MentionedFirst(rows, a, b)
    ensures MentionedFirst(rows + [r], a, b)
  {
    var m :| 0 <= m < |rows| && rows[m].text == a && forall j :: 0 <= j <= m ==> rows[j].text != b;
    assert (rows + [r])[m] == rows[m];
  }

  lemma {:induction false} OrderHas(rows: seq<Scored>, t: string)
    ensures t in MergeAll(rows).order <==> t != "" && exists m :: 0 <= m < |rows| && rows[m].text == t
  {
    if rows != [] {
      var n := |rows| - 1;
      OrderHas(rows[..n], t);
      if m :| 0 <= m < n && rows[..n][m].text == t { assert rows[m].text == t; }
      if m :| 0 <= m < n && rows[m].text == t { assert rows[..n][m].text == t; }
    }
  }

  /** The merged texts are in the order of first mention, before they are sorted by score; so texts with the same best
      score stay in that order. */
  lemma {:induction false} MergeOrder(rows: seq<Scored>, i: nat, j: nat)
    requires i < j < |MergeAll(rows).order|
    ensures MentionedFirst(rows, MergeAll(rows).order[i], MergeAll(rows).order[j])
  {
    var before, r := rows[..|rows| - 1], rows[|rows| - 1];
    assert rows == before + [r];
    var order := MergeAll(before).order;
    if j < |order| {
      MergeOrder(before, i, j);
      MentionedFirstMore(before, r, order[i], order[j]);
    } else {
      OrderHas(before, order[i]);
      OrderHas(before, r.text);
      var m :| 0 <= m < |before| && before[m].text == order[i];
      assert rows[m].text == order[i];
      assert forall x :: 0 <= x <= m ==> rows[x] == before[x];
    }
  }
}
