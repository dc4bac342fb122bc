/** What a package never leaves out: a text that is asked for is covered at every stage of the pipeline, if the other
    entries of the knowledge base cannot fill the pool with too few texts. */
module RetrievalBest {
  import opened PyText
  import opened Basics
  import opened Ranking
  import opened Retrieval

  /* ---- being covered ---- */

  /** The texts of the rows that score at least `s`. */
  function HighTexts(rows: seq<Scored>, s: real): set<string> {
    set r | r in rows && r.score >= s :: r.text
  }

  /** The rows hold the text with at least the score, or at least `n` texts that score as high. */
  predicate Covered(rows: seq<Scored>, t: string, s: real, n: int) {
    t in HighTexts(rows, s) || |HighTexts(rows, s)| >= n
  }

  lemma {:induction false} CoveredMore(a: seq<Scored>, b: seq<Scored>, t: string, s: real, n: int)
    requires Covered(a, t, s, n) && HighTexts(a, s) <= HighTexts(b, s)
    ensures Covered(b, t, s, n)
  {
    SubsetSize(HighTexts(a, s), HighTexts(b, s));
  }

  lemma {:induction false} HighMore(a: seq<Scored>, b: seq<Scored>, s: real)
    requires forall r :: r in a ==> r in b
    ensures HighTexts(a, s) <= HighTexts(b, s)
  {}

  lemma {:induction false} HighNext(rows: seq<Scored>, x: Scored, s: real)
    ensures HighTexts(rows + [x], s) == HighTexts(rows, s) + (if x.score >= s then {x.text} else {})
  {
    assert x in rows + [x] && forall r :: r in rows ==> r in rows + [x];
    forall t | t in HighTexts(rows, s) ensures t in HighTexts(rows + [x], s) {
      var r :| r in rows && r.score >= s && r.text == t;
      assert r in rows + [x];
    }
  }

  lemma {:induction false} LastIsNew(rows: seq<Scored>, x: Scored, s: real)
    requires DistinctTexts(rows + [x])
    ensures DistinctTexts(rows) && x.text !in HighTexts(rows, s)
  {
    var all := rows + [x];
    assert forall i, j :: 0 <= i < j < |rows| ==> all[i] == rows[i] && all[j] == rows[j];
    forall r | r in rows ensures r.text != x.text {
      var k :| 0 <= k < |rows| && rows[k] == r;
      assert all[k] == r && all[|rows|] == x;
    }
  }

  lemma {:induction false} HighSize(rows: seq<Scored>, s: real)
    ensures |HighTexts(rows, s)| <= |rows|
    ensures DistinctTexts(rows) && (forall r :: r in rows ==> r.score >= s) ==> |HighTexts(rows, s)| == |rows|
  {
    if rows == [] {
      assert HighTexts(rows, s) == {};
    } else {
      var n := |rows| - 1;
      var rest, x := rows[..n], rows[n];
      assert rows == rest + [x];
      HighSize(rest, s);
      HighNext(rest, x, s);
      if DistinctTexts(rows) {
        LastIsNew(rest, x, s);
      }
    }
  }

  /** The best rows cover what the rows cover. */
  lemma {:induction false} BestCovers(out: seq<Scored>, rows: seq<Scored>, k: int, t: string, s: real, n: int)
    requires BestOf(out, rows, k) && DistinctTexts(out) && Covered(rows, t, s, n) && n <= AtLeastOne(k)
    ensures Covered(out, t, s, n)
  {
    if HighTexts(rows, s) <= HighTexts(out, s) {
      CoveredMore(rows, out, t, s, n);
    } else {
      var u :| u in HighTexts(rows, s) && u !in HighTexts(out, s);
      var r :| r in rows && r.score >= s && r.text == u;
      assert r !in out;
      HighSize(out, s);
    }
  }

  /* ---- how the entries of a knowledge base fill the pool ---- */

  /** No fewer than `n` other texts fill `k` places: the n - 1 most frequent ones occur fewer than `k` times. */
  ghost predicate Safe(kb: seq<string>, t: string, n: int, k: int) {
    forall others: set<string> :: t !in others && |others| < n ==> Metrics.Hits(kb, others) < k
  }

  /** The entries that differ from the text. */
  function Others(kb: seq<string>, t: string): seq<string> {
    if kb == [] then [] else Others(kb[..|kb| - 1], t) + (if kb[|kb| - 1] == t then [] else [kb[|kb| - 1]])
  }

  /** The rows whose text is in the set. */
  function RowHits(rows: seq<Scored>, d: set<string>): nat {
    if rows == [] then 0 else RowHits(rows[..|rows| - 1], d) + (if rows[|rows| - 1].text in d then 1 else 0)
  }

  lemma {:induction false} RowHitsNext(rows: seq<Scored>, x: Scored, d: set<string>)
    ensures RowHits(rows + [x], d) == RowHits(rows, d) + (if x.text in d then 1 else 0)
  {
    assert (rows + [x])[..|rows|] == rows;
  }

  lemma {:induction false} InsertedHits(rows: seq<Scored>, x: Scored, d: set<string>)
    ensures RowHits(Inserted(rows, x), d) == RowHits(rows, d) + (if x.text in d then 1 else 0)
  {
    if rows == [] || rows[|rows| - 1].score >= x.score {
      RowHitsNext(rows, x, d);
    } else {
      var n := |rows| - 1;
      InsertedHits(rows[..n], x, d);
      RowHitsNext(Inserted(rows[..n], x), rows[n], d);
    }
  }

  lemma {:induction false} SortedHits(rows: seq<Scored>, d: set<string>)
    ensures RowHits(Sorted(rows), d) == RowHits(rows, d)
  {
    if rows != [] {
      var n := |rows| - 1;
      SortedHits(rows[..n], d);
      InsertedHits(Sorted(rows[..n]), rows[n], d);
    }
  }

  lemma {:induction false} PrefixHits(rows: seq<Scored>, k: nat, d: set<string>)
    requires k <= |rows|
    ensures RowHits(rows[..k], d) <= RowHits(rows, d)
  {
    if k < |rows| {
      var n := |rows| - 1;
      PrefixHits(rows[..n], k, d);
      assert rows[..n][..k] == rows[..k];
    } else {
      assert rows[..k] == rows;
    }
  }

  lemma {:induction false} AllHit(rows: seq<Scored>, d: set<string>)
    requires forall r :: r in rows ==> r.text in d
    ensures RowHits(rows, d) == |rows|
  {
    if rows != [] {
      AllHit(rows[..|rows| - 1], d);
    }
  }

  /** Every entry gives at most one row. */
  lemma {:induction false} ScoredHits(terms: set<string>, kb: seq<string>, tok: Tokenizer, d: set<string>)
    requires terms != {}
    ensures RowHits(ScoreRows(terms, kb, tok), d) <= Metrics.Hits(kb, d)
  {
    if kb != [] {
      var n := |kb| - 1;
      ScoredHits(terms, kb[..n], tok, d);
      var rest := ScoreRows(terms, kb[..n], tok);
      RowHitsNext(rest, Scored(kb[n], MatchScore(terms, kb[n], tok)), d);
      assert rest + [] == rest;
    }
  }

  lemma {:induction false} KeywordHits(q: string, kb: seq<string>, k: int, tok: Tokenizer, d: set<string>)
    requires tok(q) != {}
    ensures RowHits(KeywordScored(q, kb, k, tok), d) <= Metrics.Hits(kb, d)
  {
    var all := Sorted(ScoreRows(tok(q), kb, tok));
    SortedHits(ScoreRows(tok(q), kb, tok), d);
    ScoredHits(tok(q), kb, tok, d);
    PrefixHits(all, |Cut(all, k)|, d);
  }

  /** If the knowledge base is safe for the text, every query it matches covers it. */
  lemma {:induction false} KeywordCovers(q: string, kb: seq<string>, k: int, tok: Tokenizer, t: string, n: int)
    requires tok(q) != {} && t in kb && Matches(tok(q), t, tok) && Safe(kb, t, n, AtLeastOne(k))
    ensures Covered(KeywordScored(q, kb, k, tok), t, MatchScore(tok(q), t, tok), n)
  {
    var s, rows := MatchScore(tok(q), t, tok), KeywordScored(q, kb, k, tok);
    KeywordBest(q, kb, k, tok, t);
    var high := HighTexts(rows, s);
    if t !in high {
      assert Scored(t, s) !in rows;
      forall r | r in rows ensures r.text in high {
        assert r.score >= s;
      }
      AllHit(rows, high);
      KeywordHits(q, kb, k, tok, high);
    }
  }

  /* ---- merging and filtering ---- */

  /** The rows the corrective filter chooses from. */
  ghost function Pool(m: seq<Scored>, cfg: Config): seq<Scored> {
    if cfg.corrective then Reaching(m, cfg.correctiveMin) else m
  }

  predicate Clean(kb: seq<string>) {
    forall t :: t in kb ==> t != "" && Strip(t) == t
  }

  lemma {:induction false} MergedHigh(rows: seq<Scored>, kb: seq<string>, cfg: Config, s: real)
    requires TextsIn(rows, kb) && Clean(kb) && (cfg.corrective ==> s >= cfg.correctiveMin)
    ensures HighTexts(rows, s) <= HighTexts(Pool(Merge(rows), cfg), s)
  {
    var m := Merge(rows);
    ReachingMembers(m, cfg.correctiveMin);
    forall t | t in HighTexts(rows, s) ensures t in HighTexts(Pool(m, cfg), s) {
      var r :| r in rows && r.score >= s && r.text == t;
      assert t in kb;
      MergeAllBest(rows, t);
      var best := MergeAll(rows).best[t];
      MergeView(rows, Scored(t, best));
      assert Scored(t, best) in Pool(m, cfg);
    }
  }

  lemma {:induction false} PoolIsBest(rows: seq<Scored>, kb: seq<string>, k: int, cfg: Config, s: real)
    requires TextsIn(rows, kb) && Clean(kb) && (cfg.corrective ==> s >= cfg.correctiveMin) && HighTexts(rows, s) != {}
    ensures BestOf(Merging(rows, k, cfg), Pool(Merge(rows), cfg), k)
  {
    var m := Merge(rows);
    StrippedSame(rows, kb);
    MergeView(rows, Scored("", 0.0));
    forall r | r in m ensures Strip(r.text) != "" {
      MergedRow(rows, kb, r);
    }
    MergedHigh(rows, kb, cfg, s);
    CorrectedView(m, k, cfg.correctiveMin, cfg.corrective);
    var t :| t in HighTexts(Pool(m, cfg), s);
  }

  /** Merging and filtering keep every covered text covered. */
  lemma {:induction false} MergingCovers(rows: seq<Scored>, kb: seq<string>, k: int, cfg: Config, t: string, s: real,
                                         n: int)
    requires TextsIn(rows, kb) && Clean(kb) && (cfg.corrective ==> s >= cfg.correctiveMin)
    requires Covered(rows, t, s, n) && 1 <= n <= AtLeastOne(k)
    ensures Covered(Merging(rows, k, cfg), t, s, n)
  {
    var pool := Pool(Merge(rows), cfg);
    MergedHigh(rows, kb, cfg, s);
    CoveredMore(rows, pool, t, s, n);
    PoolIsBest(rows, kb, k, cfg, s);
    MergingView(rows, kb, k, cfg);
    BestCovers(Merging(rows, k, cfg), pool, k, t, s, n);
  }

  lemma {:induction false} GatheredHas(queries: seq<string>, kb: seq<string>, k: int, tok: Tokenizer, q: string)
    requires q in queries
    ensures forall r :: r in KeywordScored(q, kb, k, tok) ==> r in Gathered(queries, kb, k, tok)
  {
    var n := |queries| - 1;
    if queries[n] != q {
      assert queries == queries[..n] + [queries[n]];
      GatheredHas(queries[..n], kb, k, tok, q);
    }
  }

  lemma {:induction false} EvidenceCovers(query: string, kb: seq<string>, second: seq<string>, topK: int, cfg: Config,
                                          tok: Tokenizer, t: string, s: real, n: int)
    requires Clean(kb) && (cfg.corrective ==> s >= cfg.correctiveMin) && 1 <= n <= AtLeastOne(PoolSize(topK, cfg))
    requires Covered(Gathered(Queries(query, second, cfg), kb, PoolSize(topK, cfg), tok), t, s, n)
    ensures Covered(Evidence(query, kb, second, topK, cfg, tok), t, s, n)
  {
    var k := PoolSize(topK, cfg);
    var rows := Gathered(Queries(query, second, cfg), kb, k, tok);
    var first := Merging(rows, k, cfg);
    var both := first + Gathered(NonEmpty(second), kb, k, tok);
    GatheredIn(Queries(query, second, cfg), kb, k, tok);
    MergingCovers(rows, kb, k, cfg, t, s, n);
    HighMore(first, both, s);
    CoveredMore(first, both, t, s, n);
  }

  /** The query has terms, the text has one of them, and its share reaches the corrective score. */
  predicate Deserves(cfg: Config, tok: Tokenizer, q: string, t: string) {
    && tok(q) != {} && Matches(tok(q), t, tok)
    && (cfg.corrective ==> MatchScore(tok(q), t, tok) >= cfg.correctiveMin)
  }

  lemma {:induction false} FilteredCovers(query: string, kb: seq<string>, second: seq<string>, topK: int, cfg: Config,
                                          tok: Tokenizer, q: string, t: string, n: int)
    requires Clean(kb) && t in kb && q in Queries(query, second, cfg) && Deserves(cfg, tok, q, t)
    requires 1 <= n <= AtLeastOne(PoolSize(topK, cfg)) && Safe(kb, t, n, AtLeastOne(PoolSize(topK, cfg)))
    ensures Covered(Filtered(query, kb, second, topK, cfg, tok), t, MatchScore(tok(q), t, tok), n)
  {
    var s, k := MatchScore(tok(q), t, tok), PoolSize(topK, cfg);
    var rows := Gathered(Queries(query, second, cfg), kb, k, tok);
    KeywordCovers(q, kb, k, tok, t, n);
    GatheredHas(Queries(query, second, cfg), kb, k, tok, q);
    HighMore(KeywordScored(q, kb, k, tok), rows, s);
    CoveredMore(KeywordScored(q, kb, k, tok), rows, t, s, n);
    EvidenceCovers(query, kb, second, topK, cfg, tok, t, s, n);
    EvidenceIn(query, kb, second, topK, cfg, tok);
    MergingCovers(Evidence(query, kb, second, topK, cfg, tok), kb, k, cfg, t, s, n);
  }

  /* ---- the package ---- */

  /** Something accepted that scores at least `s` is closer to the text than the gap. */
  ghost predicate Near(rows: seq<Scored>, topK: int, t: string, s: real, gap: real, tok: Tokenizer) {
    exists i :: 0 <= i < |rows| && i < topK && rows[i].score >= s && Gap(Scored(t, s), rows[i], tok) < gap
  }

  /** The first rows are full of rows that score at least `s`. */
  predicate FullOf(rows: seq<Scored>, topK: int, s: real) {
    topK <= |rows| && forall i :: 0 <= i < topK <= |rows| ==> rows[i].score >= s
  }

  /** The text is among the first rows; or these are full of rows that score at least as high; or, with diversity on,
      there is one among them that scores at least as high and is closer than the gap. */
  ghost predicate Served(rows: seq<Scored>, topK: int, cfg: Config, tok: Tokenizer, t: string, s: real) {
    || t in Texts(FirstK(rows, topK))
    || FullOf(rows, topK, s)
    || (cfg.diversity && Near(rows, topK, t, s, cfg.gap, tok))
  }

  /** The other entries of the knowledge base cannot crowd the text out of the pool. With diversity on, the pool may
      collapse to a single text, so all other entries must fit. */
  ghost predicate Kept(kb: seq<string>, t: string, topK: int, cfg: Config) {
    if cfg.diversity && cfg.gap > 0.0 && topK >= 2 then |Others(kb, t)| < PoolSize(topK, cfg)
    else Safe(kb, t, topK, PoolSize(topK, cfg))
  }

  lemma {:induction false} RowServes(rows: seq<Scored>, topK: int, r: Scored, s: real)
    requires Descending(rows) && r in rows && r.score >= s && topK >= 1
    ensures r.text in Texts(FirstK(rows, topK)) || FullOf(rows, topK, s)
  {
    var items := Texts(FirstK(rows, topK));
    var j :| 0 <= j < |rows| && rows[j] == r;
    if j < topK {
      assert items[j] == r.text;
    } else {
      forall i | 0 <= i < topK ensures rows[i].score >= s {
        assert rows[i].score >= rows[j].score;
      }
    }
  }

  /** The high rows come first. */
  lemma {:induction false} HighFirst(rows: seq<Scored>, topK: int, s: real)
    requires Descending(rows) && |HighTexts(rows, s)| >= topK
    ensures FullOf(rows, topK, s)
  {
    HighSize(rows, s);
    forall i | 0 <= i < topK <= |rows| ensures rows[i].score >= s {
      if rows[i].score < s {
        LowAfter(rows, i, s);
        HighSize(rows[..i], s);
        SubsetSize(HighTexts(rows, s), HighTexts(rows[..i], s));
      }
    }
  }

  lemma {:induction false} LowAfter(rows: seq<Scored>, i: nat, s: real)
    requires Descending(rows) && i < |rows| && rows[i].score < s
    ensures HighTexts(rows, s) <= HighTexts(rows[..i], s)
  {
    forall t | t in HighTexts(rows, s) ensures t in HighTexts(rows[..i], s) {
      var r :| r in rows && r.score >= s && r.text == t;
      var j :| 0 <= j < |rows| && rows[j] == r;
      assert j < i && rows[..i][j] == r;
    }
  }

  lemma {:induction false} JaccardUnit(a: set<string>, b: set<string>)
    ensures 0.0 <= Jaccard(a, b) <= 1.0
  {
    if a != {} && b != {} {
      SubsetSize(a * b, a + b);
      assert a + b != {};
      Metrics.RatioAtMostOne(|a * b|, |a + b|);
    }
  }

  /** A gap that is not positive rejects nothing. */
  lemma {:induction false} NoGap(rows: seq<Scored>, gap: real, tok: Tokenizer)
    requires gap <= 0.0
    ensures Diverse(rows, gap, tok) == rows
  {
    if rows != [] {
      var n := |rows| - 1;
      NoGap(rows[..n], gap, tok);
      forall i | 0 <= i < n ensures Gap(rows[n], rows[..n][i], tok) >= gap {
        JaccardUnit(tok(rows[n].text), tok(rows[..n][i].text));
      }
    }
  }

  /** The first row is always accepted. */
  lemma {:induction false} DiverseFirst(rows: seq<Scored>, gap: real, tok: Tokenizer)
    requires rows != []
    ensures var picked := Diverse(rows, gap, tok); picked != [] && picked[0] == rows[0]
  {
    if |rows| > 1 {
      DiverseFirst(rows[..|rows| - 1], gap, tok);
    } else {
      assert rows[..0] == [] && Diverse(rows[..0], gap, tok) == [];
    }
  }

  lemma {:induction false} OthersHits(kb: seq<string>, t: string, d: set<string>)
    requires t !in d
    ensures Metrics.Hits(Others(kb, t), d) == Metrics.Hits(kb, d)
  {
    if kb != [] {
      var n := |kb| - 1;
      OthersHits(kb[..n], t, d);
      var rest := Others(kb[..n], t);
      assert (rest + [kb[n]])[..|rest|] == rest && rest + [] == rest;
    }
  }

  /** If all other entries fit into the pool, it is safe. */
  lemma {:induction false} FewAreSafe(kb: seq<string>, t: string, n: int, k: int)
    requires |Others(kb, t)| < k
    ensures Safe(kb, t, n, k)
  {
    forall d: set<string> | t !in d && |d| < n ensures Metrics.Hits(kb, d) < k {
      OthersHits(kb, t, d);
      Metrics.HitsLength(Others(kb, t), d);
    }
  }

  lemma {:induction false} OthersMembers(kb: seq<string>, t: string, x: string)
    ensures x in Others(kb, t) <==> x in kb && x != t
  {
    if kb != [] {
      OthersMembers(kb[..|kb| - 1], t, x);
      assert kb == kb[..|kb| - 1] + [kb[|kb| - 1]];
    }
  }

  function Spread(rows: seq<Scored>, cfg: Config, tok: Tokenizer): seq<Scored> {
    if cfg.diversity then Diverse(rows, cfg.gap, tok) else rows
  }

  /** What is chosen without diversity, or with room for one text. */
  lemma {:induction false} PlainServes(rows: seq<Scored>, topK: int, cfg: Config, tok: Tokenizer, t: string, s: real)
    requires Descending(rows) && Covered(rows, t, s, topK) && topK >= 1
    requires !(cfg.diversity && cfg.gap > 0.0 && topK >= 2)
    ensures Served(Spread(rows, cfg, tok), topK, cfg, tok, t, s)
  {
    if cfg.diversity && cfg.gap > 0.0 {
      FirstServes(rows, cfg.gap, tok, t, s);
    } else {
      NoSpread(rows, cfg, tok);
      CoveredServes(rows, topK, t, s);
    }
  }

  lemma {:induction false} FirstServes(rows: seq<Scored>, gap: real, tok: Tokenizer, t: string, s: real)
    requires Descending(rows) && Covered(rows, t, s, 1)
    ensures FullOf(Diverse(rows, gap, tok), 1, s)
  {
    OneServes(rows, t, s);
    DiverseFirst(rows, gap, tok);
  }

  lemma {:induction false} NoSpread(rows: seq<Scored>, cfg: Config, tok: Tokenizer)
    requires !(cfg.diversity && cfg.gap > 0.0)
    ensures Spread(rows, cfg, tok) == rows
  {
    if cfg.diversity {
      NoGap(rows, cfg.gap, tok);
    }
  }

  lemma {:induction false} CoveredServes(rows: seq<Scored>, topK: int, t: string, s: real)
    requires Descending(rows) && Covered(rows, t, s, topK) && topK >= 1
    ensures t in Texts(FirstK(rows, topK)) || FullOf(rows, topK, s)
  {
    if t in HighTexts(rows, s) {
      var r :| r in rows && r.score >= s && r.text == t;
      RowServes(rows, topK, r, s);
    } else {
      HighFirst(rows, topK, s);
    }
  }

  lemma {:induction false} OneServes(rows: seq<Scored>, t: string, s: real)
    requires Descending(rows) && Covered(rows, t, s, 1)
    ensures rows != [] && rows[0].score >= s
  {
    var u :| u in HighTexts(rows, s);
    var r :| r in rows && r.score >= s && r.text == u;
    var j :| 0 <= j < |rows| && rows[j] == r;
  }

  /** If all other entries fit into the pool, the text is not cut off. */
  lemma {:induction false} FilteredHas(query: string, kb: seq<string>, second: seq<string>, topK: int, cfg: Config,
                                       tok: Tokenizer, q: string, t: string)
    requires Clean(kb) && t in kb && q in Queries(query, second, cfg) && Deserves(cfg, tok, q, t) && topK >= 1
    requires |Others(kb, t)| < PoolSize(topK, cfg)
    ensures t in HighTexts(Filtered(query, kb, second, topK, cfg, tok), MatchScore(tok(q), t, tok))
  {
    var k := PoolSize(topK, cfg);
    var filtered, s := Filtered(query, kb, second, topK, cfg, tok), MatchScore(tok(q), t, tok);
    FewAreSafe(kb, t, k, k);
    FilteredCovers(query, kb, second, topK, cfg, tok, q, t, k);
    EvidenceIn(query, kb, second, topK, cfg, tok);
    MergingView(Evidence(query, kb, second, topK, cfg, tok), kb, k, cfg);
    NotCutOff(filtered, kb, t, s, k);
  }

  lemma {:induction false} NotCutOff(rows: seq<Scored>, kb: seq<string>, t: string, s: real, k: int)
    requires TextsIn(rows, kb) && Covered(rows, t, s, k) && |Others(kb, t)| < k
    ensures t in HighTexts(rows, s)
  {
    if t !in HighTexts(rows, s) {
      forall u | u in HighTexts(rows, s) ensures u in Metrics.Elements(Others(kb, t)) {
        OthersMembers(kb, t, u);
      }
      SubsetSize(HighTexts(rows, s), Metrics.Elements(Others(kb, t)));
      Metrics.ElementsSize(Others(kb, t));
    }
  }

  /** With diversity on, a text that is not accepted is crowded out by something accepted. */
  lemma {:induction false} DiverseServes(rows: seq<Scored>, topK: int, cfg: Config, tok: Tokenizer, t: string, s: real)
    requires Ranked(rows) && t in HighTexts(rows, s) && cfg.diversity && topK >= 1
    ensures Served(Spread(rows, cfg, tok), topK, cfg, tok, t, s)
  {
    var chosen := Diverse(rows, cfg.gap, tok);
    DiverseView(rows, cfg.gap, tok);
    var r :| r in rows && r.score >= s && r.text == t;
    if r in chosen {
      RowServes(chosen, topK, r, s);
    } else {
      var i :| 0 <= i < |chosen| && Gap(r, chosen[i], tok) < cfg.gap && chosen[i].score >= r.score;
      CrowdServes(chosen, topK, r, s, cfg.gap, tok, i);
    }
  }

  lemma {:induction false} CrowdServes(rows: seq<Scored>, topK: int, r: Scored, s: real, gap: real, tok: Tokenizer,
                                       i: nat)
    requires Descending(rows) && i < |rows| && rows[i].score >= s && Gap(r, rows[i], tok) < gap
    ensures FullOf(rows, topK, s) || Near(rows, topK, r.text, s, gap, tok)
  {
    if i < topK {
      assert Gap(Scored(r.text, s), rows[i], tok) < gap;
    } else {
      assert forall j :: 0 <= j < topK ==> rows[j].score >= rows[i].score;
    }
  }

  /** A text of the knowledge base that matches one of the queries, and reaches the corrective score if that filter is
      on, is served, if the other entries cannot crowd it out. */
  lemma {:induction false} KeptIsServed(query: string, kb: seq<string>, second: seq<string>, topK: int, cfg: Config,
                                        tok: Tokenizer, q: string, t: string)
    requires Clean(kb) && t in kb && q in Queries(query, second, cfg) && Deserves(cfg, tok, q, t) && topK >= 1
    requires Kept(kb, t, topK, cfg)
    ensures Served(Chosen(query, kb, second, topK, cfg, tok), topK, cfg, tok, t, MatchScore(tok(q), t, tok))
  {
    var s := MatchScore(tok(q), t, tok);
    var filtered := Filtered(query, kb, second, topK, cfg, tok);
    EvidenceIn(query, kb, second, topK, cfg, tok);
    MergingView(Evidence(query, kb, second, topK, cfg, tok), kb, PoolSize(topK, cfg), cfg);
    if cfg.diversity && cfg.gap > 0.0 && topK >= 2 {
      FilteredHas(query, kb, second, topK, cfg, tok, q, t);
      DiverseServes(filtered, topK, cfg, tok, t, s);
    } else {
      FilteredCovers(query, kb, second, topK, cfg, tok, q, t, topK);
      PlainServes(filtered, topK, cfg, tok, t, s);
    }
  }

  /* ---- the second pass ---- */

  /** What the first pass keeps. */
  function FirstPass(query: string, kb: seq<string>, second: seq<string>, topK: int, cfg: Config,
                     tok: Tokenizer): seq<Scored> {
    Merging(Gathered(Queries(query, second, cfg), kb, PoolSize(topK, cfg), tok), PoolSize(topK, cfg), cfg)
  }

  /** The first pass is too weak: nothing it keeps reaches the limit. */
  predicate Weak(query: string, kb: seq<string>, second: seq<string>, topK: int, cfg: Config, tok: Tokenizer) {
    var first := FirstPass(query, kb, second, topK, cfg, tok);
    && cfg.secondPass && query != ""
    && (first == [] ==> 0.0 < cfg.secondPassMin) && forall r :: r in first ==> r.score < cfg.secondPassMin
  }

  /** A second pass is merged exactly if the first one is too weak, and finds something. */
  lemma {:induction false} EvidenceIs(query: string, kb: seq<string>, second: seq<string>, topK: int, cfg: Config,
                                      tok: Tokenizer)
    requires Clean(kb)
    ensures var k := PoolSize(topK, cfg);
            var extra := Gathered(NonEmpty(second), kb, k, tok);
            Evidence(query, kb, second, topK, cfg, tok)
            == if Weak(query, kb, second, topK, cfg, tok) && extra != [] then
                 FirstPass(query, kb, second, topK, cfg, tok) + extra
               else Gathered(Queries(query, second, cfg), kb, k, tok)
  {
    var k := PoolSize(topK, cfg);
    var rows := Gathered(Queries(query, second, cfg), kb, k, tok);
    var first := FirstPass(query, kb, second, topK, cfg, tok);
    GatheredIn(Queries(query, second, cfg), kb, k, tok);
    MergingView(rows, kb, k, cfg);
    if first != [] {
      assert first[0] in first;
      forall r | r in first ensures r.score <= first[0].score {
        var j :| 0 <= j < |first| && first[j] == r;
      }
    }
  }

  /** What is filtered: the first pass alone, unless it is too weak and the second one finds something. */
  lemma {:induction false} StrongAlone(query: string, kb: seq<string>, second: seq<string>, topK: int, cfg: Config,
                                       tok: Tokenizer)
    requires Clean(kb)
    requires !Weak(query, kb, second, topK, cfg, tok) || Gathered(NonEmpty(second), kb, PoolSize(topK, cfg), tok) == []
    ensures Filtered(query, kb, second, topK, cfg, tok) == FirstPass(query, kb, second, topK, cfg, tok)
  {
    EvidenceIs(query, kb, second, topK, cfg, tok);
  }

  lemma {:induction false} SecondCovers(query: string, kb: seq<string>, second: seq<string>, topK: int, cfg: Config,
                                        tok: Tokenizer, q: string, t: string, n: int)
    requires Clean(kb) && t in kb && q in NonEmpty(second) && Deserves(cfg, tok, q, t)
    requires Weak(query, kb, second, topK, cfg, tok)
    requires 1 <= n <= AtLeastOne(PoolSize(topK, cfg)) && Safe(kb, t, n, AtLeastOne(PoolSize(topK, cfg)))
    ensures Covered(Filtered(query, kb, second, topK, cfg, tok), t, MatchScore(tok(q), t, tok), n)
  {
    var s, k := MatchScore(tok(q), t, tok), PoolSize(topK, cfg);
    var extra := Gathered(NonEmpty(second), kb, k, tok);
    var evidence := Evidence(query, kb, second, topK, cfg, tok);
    KeywordCovers(q, kb, k, tok, t, n);
    GatheredHas(NonEmpty(second), kb, k, tok, q);
    HighMore(KeywordScored(q, kb, k, tok), extra, s);
    CoveredMore(KeywordScored(q, kb, k, tok), extra, t, s, n);
    if extra == [] { HighSize(extra, s); }
    EvidenceIs(query, kb, second, topK, cfg, tok);
    HighMore(extra, evidence, s);
    CoveredMore(extra, evidence, t, s, n);
    EvidenceIn(query, kb, second, topK, cfg, tok);
    MergingCovers(evidence, kb, k, cfg, t, s, n);
  }

  /** After a weak first pass, the second one serves what matches its queries. */
  lemma {:induction false} SecondServes(query: string, kb: seq<string>, second: seq<string>, topK: int, cfg: Config,
                                        tok: Tokenizer, q: string, t: string)
    requires Clean(kb) && t in kb && q in NonEmpty(second) && Deserves(cfg, tok, q, t) && topK >= 1
    requires Weak(query, kb, second, topK, cfg, tok) && Kept(kb, t, topK, cfg)
    ensures Served(Chosen(query, kb, second, topK, cfg, tok), topK, cfg, tok, t, MatchScore(tok(q), t, tok))
  {
    var s, k := MatchScore(tok(q), t, tok), PoolSize(topK, cfg);
    var filtered := Filtered(query, kb, second, topK, cfg, tok);
    EvidenceIn(query, kb, second, topK, cfg, tok);
    MergingView(Evidence(query, kb, second, topK, cfg, tok), kb, k, cfg);
    if cfg.diversity && cfg.gap > 0.0 && topK >= 2 {
      FewAreSafe(kb, t, k, k);
      SecondCovers(query, kb, second, topK, cfg, tok, q, t, k);
      NotCutOff(filtered, kb, t, s, k);
      DiverseServes(filtered, topK, cfg, tok, t, s);
    } else {
      SecondCovers(query, kb, second, topK, cfg, tok, q, t, topK);
      PlainServes(filtered, topK, cfg, tok, t, s);
    }
  }
}
