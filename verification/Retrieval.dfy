/** The retrieval pipeline (agentlib/companion_rag.py) in keyword mode: scoring, merging, filtering and
    diversification. Tokenising is an arbitrary function from texts to sets of terms. */
module Retrieval {
  import opened PyText
  import opened Basics
  import Metrics
  import opened Ranking

  type Tokenizer = string -> set<string>

  /* ---- keyword scores ---- */

  function Overlap(a: set<string>, b: set<string>): nat {
    |a * b|
  }

  function ScoreRows(terms: set<string>, kb: seq<string>, tok: Tokenizer): seq<Scored> {
    if kb == [] then []
    else
      var n := |kb| - 1;
      var o := Overlap(terms, tok(kb[n]));
      ScoreRows(terms, kb[..n], tok)
        + (if tok(kb[n]) == {} || o <= 0 then [] else [Scored(kb[n], o as real / |terms| as real)])
  }

  function Unscored(kb: seq<string>): (r: seq<Scored>)
    ensures |r| == |kb| && forall i :: 0 <= i < |kb| ==> r[i] == Scored(kb[i], 0.0)
  {
    seq(|kb|, i requires 0 <= i < |kb| => Scored(kb[i], 0.0))
  }

  /** `_retrieve_keyword_scored`. */
  function KeywordScored(query: string, kb: seq<string>, k: int, tok: Tokenizer): seq<Scored> {
    if tok(query) == {} then Unscored(Cut(kb, k))
    else Cut(Sorted(ScoreRows(tok(query), kb, tok)), k)
  }

  predicate TextsIn(rows: seq<Scored>, kb: seq<string>) {
    forall r :: r in rows ==> r.text in kb
  }

  /** The share of the query's terms that the text has. */
  function MatchScore(terms: set<string>, t: string, tok: Tokenizer): real
    requires terms != {}
  {
    Overlap(terms, tok(t)) as real / |terms| as real
  }

  predicate Matches(terms: set<string>, t: string, tok: Tokenizer) {
    Overlap(terms, tok(t)) > 0
  }

  /** The scored rows are the matching texts with their shares. */
  lemma {:induction false} ScoreRowsIff(terms: set<string>, kb: seq<string>, tok: Tokenizer, r: Scored)
    requires terms != {}
    ensures r in ScoreRows(terms, kb, tok)
            <==> r.text in kb && Matches(terms, r.text, tok) && r.score == MatchScore(terms, r.text, tok)
  {
    if kb != [] {
      var n := |kb| - 1;
      ScoreRowsIff(terms, kb[..n], tok, r);
      assert kb == kb[..n] + [kb[n]];
      assert tok(kb[n]) == {} ==> terms * tok(kb[n]) == {};
    }
  }

  lemma {:induction false} ScoreBounds(terms: set<string>, t: string, tok: Tokenizer)
    requires terms != {} && Matches(terms, t, tok)
    ensures 0.0 < MatchScore(terms, t, tok) <= 1.0
  {
    assert terms == terms * tok(t) + (terms - tok(t));
    FractionBounds(Overlap(terms, tok(t)), |terms|);
  }

  lemma {:induction false} FractionBounds(a: nat, b: nat)
    requires 0 < a <= b
    ensures 0.0 < a as real / b as real <= 1.0
  {}

  /** For a query with terms: the rows are the best matches, as many as there is room for. A text of the knowledge base
      that shares a term is returned with the share of the query's terms it has, or the room is used up by rows that
      score at least as high; nothing else is returned. */
  lemma {:induction false} KeywordBest(query: string, kb: seq<string>, k: int, tok: Tokenizer, t: string)
    requires tok(query) != {}
    ensures var rows := KeywordScored(query, kb, k, tok);
            && Descending(rows) && |rows| <= AtLeastOne(k)
            && (forall r :: r in rows ==> r.text in kb && Matches(tok(query), r.text, tok)
                                          && r.score == MatchScore(tok(query), r.text, tok))
            && (t in kb && Matches(tok(query), t, tok) ==>
                  var s := MatchScore(tok(query), t, tok);
                  Scored(t, s) in rows || (|rows| == AtLeastOne(k) && forall r :: r in rows ==> r.score >= s))
  {
    var terms := tok(query);
    var all := ScoreRows(terms, kb, tok);
    SortedMembers(all);
    CutBest(Sorted(all), k);
    var rows := KeywordScored(query, kb, k, tok);
    forall r | r in rows
      ensures r.text in kb && Matches(terms, r.text, tok) && r.score == MatchScore(terms, r.text, tok) {
      ScoreRowsIff(terms, kb, tok, r);
    }
    if t in kb && Matches(terms, t, tok) {
      ScoreRowsIff(terms, kb, tok, Scored(t, MatchScore(terms, t, tok)));
    }
  }

  /** For every query the rows are texts of the knowledge base with scores in [0, 1], best first; without terms, they
      are its first texts. */
  lemma {:induction false} KeywordView(query: string, kb: seq<string>, k: int, tok: Tokenizer)
    ensures var rows := KeywordScored(query, kb, k, tok);
            && TextsIn(rows, kb) && Descending(rows) && |rows| <= AtLeastOne(k)
            && (forall r :: r in rows ==> 0.0 <= r.score <= 1.0)
            && (tok(query) == {} ==> rows == Unscored(Cut(kb, k)))
  {
    if tok(query) != {} {
      KeywordBest(query, kb, k, tok, "");
      forall r | r in KeywordScored(query, kb, k, tok) ensures 0.0 <= r.score <= 1.0 {
        ScoreBounds(tok(query), r.text, tok);
      }
    }
  }

  /* ---- merging ---- */

  /** A dict from texts to scores: its keys in insertion order. */
  datatype Merged = Merged(order: seq<string>, best: map<string, real>)

  function MergeOne(m: Merged, r: Scored): Merged {
    var t := r.text;
    if t == "" then m
    else if t in m.best then m.(best := m.best[t := if r.score > m.best[t] then r.score else m.best[t]])
    else Merged(m.order + [t], m.best[t := r.score])
  }

  function MergeAll(rows: seq<Scored>): (m: Merged)
    ensures forall t :: t in m.order <==> t in m.best
    ensures forall i, j :: 0 <= i < j < |m.order| ==> m.order[i] != m.order[j]
  {
    if rows == [] then Merged([], map[]) else MergeOne(MergeAll(rows[..|rows| - 1]), rows[|rows| - 1])
  }

  function Entries(m: Merged): (r: seq<Scored>)
    requires forall t :: t in m.order ==> t in m.best
    ensures |r| == |m.order| && forall i :: 0 <= i < |r| ==> r[i] == Scored(m.order[i], m.best[m.order[i]])
  {
    seq(|m.order|, i requires 0 <= i < |m.order| => Scored(m.order[i], m.best[m.order[i]]))
  }

  function Stripped(rows: seq<Scored>): (r: seq<Scored>)
    ensures |r| == |rows| && forall i :: 0 <= i < |rows| ==> r[i] == Scored(Strip(rows[i].text), rows[i].score)
  {
    seq(|rows|, i requires 0 <= i < |rows| => Scored(Strip(rows[i].text), rows[i].score))
  }

  /** The rows of a dict, sorted. */
  function Merge(rows: seq<Scored>): seq<Scored> {
    Sorted(Entries(MergeAll(rows)))
  }

  /** `_merge_dedup_scored`. */
  function MergeDedup(rows: seq<Scored>): seq<Scored> {
    Merge(Stripped(rows))
  }

  /** `s` is the best score of the rows for the text. */
  ghost predicate BestScore(rows: seq<Scored>, t: string, s: real) {
    && Scored(t, s) in rows
    && (forall r :: r in rows && r.text == t ==> r.score <= s)
  }

  ghost predicate Mentions(rows: seq<Scored>, t: string) {
    exists r :: r in rows && r.text == t
  }

  lemma {:induction false} MentionsNext(rows: seq<Scored>, x: Scored, t: string)
    ensures Mentions(rows + [x], t) <==> Mentions(rows, t) || x.text == t
  {}

  lemma {:induction false} BestScoreNext(rows: seq<Scored>, x: Scored, t: string, s: real)
    requires BestScore(rows, t, s)
    ensures BestScore(rows + [x], t, if x.text == t && x.score > s then x.score else s)
  {}

  lemma {:induction false} BestScoreFirst(rows: seq<Scored>, x: Scored)
    requires !Mentions(rows, x.text)
    ensures BestScore(rows + [x], x.text, x.score)
  {}

  lemma {:induction false} MergeAllBest(rows: seq<Scored>, t: string)
    ensures var m := MergeAll(rows);
            && (t in m.best <==> t != "" && Mentions(rows, t))
            && (t in m.best ==> BestScore(rows, t, m.best[t]))
  {
    if rows != [] {
      var n := |rows| - 1;
      var before, x := MergeAll(rows[..n]), rows[n];
      MergeAllBest(rows[..n], t);
      MentionsNext(rows[..n], x, t);
      assert rows == rows[..n] + [x];
      if t in before.best {
        BestScoreNext(rows[..n], x, t, before.best[t]);
      } else if x.text == t && t != "" {
        BestScoreFirst(rows[..n], x);
      }
    }
  }

  lemma {:induction false} EntriesMembers(rows: seq<Scored>, r: Scored)
    ensures r in Entries(MergeAll(rows)) <==> r.text != "" && BestScore(rows, r.text, r.score)
  {
    var m := MergeAll(rows);
    var e := Entries(m);
    MergeAllBest(rows, r.text);
    if r.text in m.best && m.best[r.text] == r.score {
      var i :| 0 <= i < |m.order| && m.order[i] == r.text;
      assert e[i] == r;
    }
  }

  /** Merging keeps one row for every text, with the best of its scores, in descending order. */
  lemma {:induction false} MergeView(rows: seq<Scored>, r: Scored)
    ensures Ranked(Merge(rows))
    ensures r in Merge(rows) <==> r.text != "" && BestScore(rows, r.text, r.score)
  {
    var e := Entries(MergeAll(rows));
    SortedMembers(e);
    SortedDistinct(e);
    EntriesMembers(rows, r);
  }

  /* ---- the corrective filter ---- */

  function NonBlankRows(rows: seq<Scored>): seq<Scored> {
    if rows == [] then []
    else NonBlankRows(rows[..|rows| - 1]) + (if Strip(rows[|rows| - 1].text) == "" then [] else [rows[|rows| - 1]])
  }

  function Reaching(rows: seq<Scored>, minScore: real): seq<Scored> {
    if rows == [] then []
    else Reaching(rows[..|rows| - 1], minScore) +
         (if rows[|rows| - 1].score >= minScore then [rows[|rows| - 1]] else [])
  }

  /** `_apply_corrective_filter_scored`. */
  function Corrected(scored: seq<Scored>, k: int, minScore: real, enabled: bool): seq<Scored> {
    var rows := Sorted(NonBlankRows(scored));
    if !enabled then Cut(rows, k)
    else
      var out := Reaching(rows, minScore);
      Cut(if out == [] && rows != [] then rows[..1] else out, k)
  }

  lemma {:induction false} NonBlankRowsView(rows: seq<Scored>)
    ensures forall r :: r in NonBlankRows(rows) <==> r in rows && Strip(r.text) != ""
    ensures DistinctTexts(rows) ==> DistinctTexts(NonBlankRows(rows))
  {
    if rows != [] {
      var n := |rows| - 1;
      NonBlankRowsView(rows[..n]);
      assert rows == rows[..n] + [rows[n]];
      if DistinctTexts(rows) {
        SnocDistinct(rows[..n], NonBlankRows(rows[..n]), rows[n]);
      }
    }
  }

  lemma {:induction false} ReachingMembers(rows: seq<Scored>, minScore: real)
    ensures forall r :: r in Reaching(rows, minScore) <==> r in rows && r.score >= minScore
  {
    if rows != [] {
      var n := |rows| - 1;
      ReachingMembers(rows[..n], minScore);
      assert rows == rows[..n] + [rows[n]];
    }
  }

  lemma {:induction false} ReachingRanked(rows: seq<Scored>, minScore: real)
    requires Ranked(rows)
    ensures Ranked(Reaching(rows, minScore))
  {
    if rows != [] {
      var n := |rows| - 1;
      ReachingRanked(rows[..n], minScore);
      ReachingMembers(rows[..n], minScore);
      assert rows == rows[..n] + [rows[n]];
      SnocRanked(rows[..n], Reaching(rows[..n], minScore), rows[n]);
    }
  }

  lemma {:induction false} CleanRows(scored: seq<Scored>)
    requires DistinctTexts(scored) && forall r :: r in scored ==> Strip(r.text) != ""
    ensures var rows := Sorted(NonBlankRows(scored));
            Ranked(rows) && forall r :: r in rows <==> r in scored
  {
    var n := NonBlankRows(scored);
    NonBlankRowsView(scored);
    SortedMembers(n);
    SortedDistinct(n);
  }

  /** The filter keeps the best rows that reach the score; if there is none, it keeps a single best row. */
  lemma {:induction false} CorrectedView(scored: seq<Scored>, k: int, minScore: real, enabled: bool)
    requires DistinctTexts(scored) && forall r :: r in scored ==> Strip(r.text) != ""
    ensures var out := Corrected(scored, k, minScore, enabled);
            && Ranked(out)
            && (if !enabled then BestOf(out, scored, k)
                else if Reaching(scored, minScore) != [] then BestOf(out, Reaching(scored, minScore), k)
                else BestOf(out, scored, 1))
  {
    var rows := Sorted(NonBlankRows(scored));
    CleanRows(scored);
    ReachingMembers(rows, minScore);
    ReachingMembers(scored, minScore);
    if !enabled {
      CutBest(rows, k);
      BestOfMembers(Cut(rows, k), rows, scored, k);
    } else if Reaching(scored, minScore) != [] {
      assert Reaching(scored, minScore)[0] in rows;
      ReachingRanked(rows, minScore);
      CutBest(Reaching(rows, minScore), k);
      BestOfMembers(Cut(Reaching(rows, minScore), k), Reaching(rows, minScore), Reaching(scored, minScore), k);
    } else {
      NoneReaches(rows, minScore);
      SingleBest(rows, k);
      BestOfMembers(Cut(if rows != [] then rows[..1] else [], k), rows, scored, 1);
    }
  }

  lemma {:induction false} NoneReaches(rows: seq<Scored>, minScore: real)
    requires forall r :: r in rows ==> r.score < minScore
    ensures Reaching(rows, minScore) == []
  {
    if rows != [] {
      NoneReaches(rows[..|rows| - 1], minScore);
      assert rows[|rows| - 1] in rows;
    }
  }

  lemma {:induction false} SingleBest(rows: seq<Scored>, k: int)
    requires Ranked(rows)
    ensures var out := Cut(if rows != [] then rows[..1] else [], k); Ranked(out) && BestOf(out, rows, 1)
  {
    CutBest(rows, 1);
    if rows != [] {
      assert Cut(rows[..1], k) == rows[..1] == Cut(rows, 1);
    }
  }

  /* ---- diversity ---- */

  function Jaccard(a: set<string>, b: set<string>): real {
    if a == {} && b == {} then 1.0
    else if a == {} || b == {} then 0.0
    else
      assert a + b != {} && |a + b| > 0;
      |a * b| as real / |a + b| as real
  }

  function Gap(a: Scored, b: Scored, tok: Tokenizer): real {
    1.0 - Jaccard(tok(a.text), tok(b.text))
  }

  predicate Far(picked: seq<Scored>, row: Scored, gap: real, tok: Tokenizer) {
    forall i :: 0 <= i < |picked| ==> Gap(row, picked[i], tok) >= gap
  }

  /** `_apply_diversity`. */
  function Diverse(rows: seq<Scored>, gap: real, tok: Tokenizer): seq<Scored> {
    if rows == [] then []
    else
      var n := |rows| - 1;
      var picked := Diverse(rows[..n], gap, tok);
      if Far(picked, rows[n], gap, tok) then picked + [rows[n]] else picked
  }

  ghost predicate PairwiseFar(rows: seq<Scored>, gap: real, tok: Tokenizer) {
    forall i, j :: 0 <= i < j < |rows| ==> Gap(rows[j], rows[i], tok) >= gap
  }

  /** Something accepted that is too close, and scores at least as high. */
  ghost predicate Crowded(picked: seq<Scored>, r: Scored, gap: real, tok: Tokenizer) {
    exists i :: 0 <= i < |picked| && Gap(r, picked[i], tok) < gap && picked[i].score >= r.score
  }

  lemma {:induction false} CrowdedMore(picked: seq<Scored>, x: Scored, r: Scored, gap: real, tok: Tokenizer)
    requires Crowded(picked, r, gap, tok)
    ensures Crowded(picked + [x], r, gap, tok)
  {
    var i :| 0 <= i < |picked| && Gap(r, picked[i], tok) < gap && picked[i].score >= r.score;
    assert (picked + [x])[i] == picked[i];
  }

  /** The accepted rows are pairwise at least the gap apart; every rejected row is closer than the gap to an accepted
      one that scores at least as high. */
  lemma {:induction false} DiverseView(rows: seq<Scored>, gap: real, tok: Tokenizer)
    requires Ranked(rows)
    ensures var picked := Diverse(rows, gap, tok);
            && Ranked(picked) && (forall r :: r in picked ==> r in rows)
            && PairwiseFar(picked, gap, tok)
            && (forall r :: r in rows && r !in picked ==> Crowded(picked, r, gap, tok))
  {
    if rows != [] {
      var n := |rows| - 1;
      var before := Diverse(rows[..n], gap, tok);
      DiverseView(rows[..n], gap, tok);
      assert rows == rows[..n] + [rows[n]];
      SnocRanked(rows[..n], before, rows[n]);
      var picked := Diverse(rows, gap, tok);
      forall r | r in rows && r !in picked ensures Crowded(picked, r, gap, tok) {
        DiverseRejects(rows[..n], before, rows[n], r, gap, tok);
      }
    }
  }

  lemma {:induction false} DiverseRejects(rows: seq<Scored>, before: seq<Scored>, x: Scored, r: Scored, gap: real,
                                          tok: Tokenizer)
    requires Ranked(rows + [x]) && (forall y :: y in before ==> y in rows)
    requires forall y :: y in rows && y !in before ==> Crowded(before, y, gap, tok)
    requires r in rows + [x] && r !in (if Far(before, x, gap, tok) then before + [x] else before)
    ensures Crowded(if Far(before, x, gap, tok) then before + [x] else before, r, gap, tok)
  {
    if Far(before, x, gap, tok) {
      assert r in rows && r !in before;
      CrowdedMore(before, x, r, gap, tok);
    } else if r !in rows {
      var i :| 0 <= i < |before| && Gap(x, before[i], tok) < gap;
      assert before[i] in rows;
      LastLowest(rows, x, before[i]);
    }
  }

  /* ---- the whole pipeline ---- */

  datatype Config = Config(
    selfRag: bool, minQueryChars: int,
    iterative: bool, maxQueries: int, pool: int,
    corrective: bool, correctiveMin: real,
    secondPass: bool, secondPassMin: real,
    diversity: bool, gap: real)

  datatype SkipReason = NotSkipped | EmptyKb | LowInfo | NoMatch

  datatype RagResult = RagResult(items: seq<string>, queries: seq<string>, retrievalUsed: bool, skipReason: SkipReason)

  ghost predicate FromKb(kb: seq<string>, t: string) {
    exists x :: x in kb && t == Strip(x)
  }

  function CleanKb(kb: seq<string>): (r: seq<string>)
    ensures forall t :: t in r ==> t != "" && Strip(t) == t && FromKb(kb, t)
  {
    if kb == [] then []
    else
      var t := Strip(kb[|kb| - 1]);
      StripIdempotent(kb[|kb| - 1]);
      CleanKb(kb[..|kb| - 1]) + (if t == "" then [] else [t])
  }

  /** The loop that collects queries: distinct ones, up to the limit. `second` are the second-pass queries. */
  function Collected(queries: seq<string>, second: seq<string>, limit: int): (r: seq<string>)
    ensures queries <= r
    decreases |second|
  {
    if second == [] then queries
    else
      var q := second[0];
      var more := if q != "" && q !in queries then queries + [q] else queries;
      if |more| >= limit then more else Collected(more, second[1..], limit)
  }

  function Queries(query: string, second: seq<string>, cfg: Config): seq<string> {
    if cfg.iterative && cfg.maxQueries > 1 then Collected([query], second, cfg.maxQueries) else [query]
  }

  function PoolSize(topK: int, cfg: Config): int {
    if topK >= cfg.pool then topK else cfg.pool
  }

  /** The rows retrieved for all queries. */
  function Gathered(queries: seq<string>, kb: seq<string>, k: int, tok: Tokenizer): seq<Scored> {
    if queries == [] then []
    else Gathered(queries[..|queries| - 1], kb, k, tok) + KeywordScored(queries[|queries| - 1], kb, k, tok)
  }

  function NonEmpty(qs: seq<string>): seq<string> {
    if qs == [] then [] else (if qs[0] == "" then [] else [qs[0]]) + NonEmpty(qs[1..])
  }

  function Merging(rows: seq<Scored>, k: int, cfg: Config): seq<Scored> {
    Corrected(MergeDedup(rows), k, cfg.correctiveMin, cfg.corrective)
  }

  /** The rows that are merged last: those of the first pass, and, if its best score is too low, what the first
      pass kept together with the rows of a second pass. */
  function Evidence(query: string, kb: seq<string>, second: seq<string>, topK: int, cfg: Config,
                    tok: Tokenizer): seq<Scored> {
    var k := PoolSize(topK, cfg);
    var rows := Gathered(Queries(query, second, cfg), kb, k, tok);
    var first := Merging(rows, k, cfg);
    var topScore := if first != [] then first[0].score else 0.0;
    if cfg.secondPass && topScore < cfg.secondPassMin && query != "" then
      var extra := Gathered(NonEmpty(second), kb, k, tok);
      if extra != [] then first + extra else rows
    else rows
  }

  function Filtered(query: string, kb: seq<string>, second: seq<string>, topK: int, cfg: Config,
                    tok: Tokenizer): seq<Scored> {
    Merging(Evidence(query, kb, second, topK, cfg, tok), PoolSize(topK, cfg), cfg)
  }

  function Chosen(query: string, kb: seq<string>, second: seq<string>, topK: int, cfg: Config,
                  tok: Tokenizer): seq<Scored> {
    var filtered := Filtered(query, kb, second, topK, cfg, tok);
    if cfg.diversity then Diverse(filtered, cfg.gap, tok) else filtered
  }

  function Texts(rows: seq<Scored>): (r: seq<string>)
    ensures |r| == |rows| && forall i :: 0 <= i < |rows| ==> r[i] == rows[i].text
  {
    seq(|rows|, i requires 0 <= i < |rows| => rows[i].text)
  }

  function FirstK(rows: seq<Scored>, k: int): seq<Scored> {
    if k <= 0 then [] else if k <= |rows| then rows[..k] else rows
  }

  /** `build_rag_package` in keyword mode. */
  function Package(userText: string, knowledge: seq<string>, second: seq<string>, topK: int, cfg: Config,
                   tok: Tokenizer): RagResult {
    var kb, query := CleanKb(knowledge), Strip(userText);
    if kb == [] then RagResult([], [], false, EmptyKb)
    else if cfg.selfRag && |query| < cfg.minQueryChars then RagResult([], [], false, LowInfo)
    else
      var items := Texts(FirstK(Chosen(query, kb, second, topK, cfg, tok), topK));
      RagResult(items, Queries(query, second, cfg), items != [], if items == [] then NoMatch else NotSkipped)
  }

  lemma {:induction false} GatheredIn(queries: seq<string>, kb: seq<string>, k: int, tok: Tokenizer)
    ensures var rows := Gathered(queries, kb, k, tok);
            TextsIn(rows, kb) && forall r :: r in rows ==> 0.0 <= r.score <= 1.0
  {
    if queries != [] {
      GatheredIn(queries[..|queries| - 1], kb, k, tok);
      KeywordView(queries[|queries| - 1], kb, k, tok);
    }
  }

  lemma {:induction false} StrippedSame(rows: seq<Scored>, kb: seq<string>)
    requires TextsIn(rows, kb) && forall t :: t in kb ==> t != "" && Strip(t) == t
    ensures Stripped(rows) == rows
  {}

  lemma {:induction false} MergedRow(rows: seq<Scored>, kb: seq<string>, r: Scored)
    requires TextsIn(rows, kb) && (forall t :: t in kb ==> t != "" && Strip(t) == t) && r in Merge(rows)
    ensures r.text in kb && Strip(r.text) != "" && BestScore(rows, r.text, r.score)
  {
    MergeView(rows, r);
    assert Scored(r.text, r.score) in rows;
  }

  /** Merged and filtered rows are ranked texts of the knowledge base, each with its best score. */
  lemma {:induction false} MergingView(rows: seq<Scored>, kb: seq<string>, k: int, cfg: Config)
    requires TextsIn(rows, kb) && forall t :: t in kb ==> t != "" && Strip(t) == t
    ensures var out := Merging(rows, k, cfg);
            Ranked(out) && TextsIn(out, kb) && forall r :: r in out ==> BestScore(rows, r.text, r.score)
  {
    var m := Merge(rows);
    StrippedSame(rows, kb);
    MergeView(rows, Scored("", 0.0));
    forall r | r in m ensures r.text in kb && Strip(r.text) != "" && BestScore(rows, r.text, r.score) {
      MergedRow(rows, kb, r);
    }
    CorrectedView(m, k, cfg.correctiveMin, cfg.corrective);
    ReachingMembers(m, cfg.correctiveMin);
  }

  lemma {:induction false} EvidenceIn(query: string, kb: seq<string>, second: seq<string>, topK: int, cfg: Config,
                                      tok: Tokenizer)
    requires forall t :: t in kb ==> t != "" && Strip(t) == t
    ensures TextsIn(Evidence(query, kb, second, topK, cfg, tok), kb)
  {
    var k := PoolSize(topK, cfg);
    var rows := Gathered(Queries(query, second, cfg), kb, k, tok);
    GatheredIn(Queries(query, second, cfg), kb, k, tok);
    MergingView(rows, kb, k, cfg);
    GatheredIn(NonEmpty(second), kb, k, tok);
  }

  /** What is chosen: ranked texts of the knowledge base, each with the best score the evidence gives it; with
      diversity on, pairwise at least the gap apart, and whatever is rejected is crowded out by something better. */
  lemma {:induction false} ChosenView(query: string, kb: seq<string>, second: seq<string>, topK: int, cfg: Config,
                                      tok: Tokenizer)
    requires forall t :: t in kb ==> t != "" && Strip(t) == t
    ensures var chosen := Chosen(query, kb, second, topK, cfg, tok);
            var filtered := Filtered(query, kb, second, topK, cfg, tok);
            && Ranked(chosen) && TextsIn(chosen, kb)
            && (forall r :: r in chosen ==>
                   r in filtered && BestScore(Evidence(query, kb, second, topK, cfg, tok), r.text, r.score))
            && (cfg.diversity ==> PairwiseFar(chosen, cfg.gap, tok)
                                  && forall r :: r in filtered && r !in chosen ==> Crowded(chosen, r, cfg.gap, tok))
            && (!cfg.diversity ==> chosen == filtered)
  {
    EvidenceIn(query, kb, second, topK, cfg, tok);
    MergingView(Evidence(query, kb, second, topK, cfg, tok), kb, PoolSize(topK, cfg), cfg);
    DiverseView(Filtered(query, kb, second, topK, cfg, tok), cfg.gap, tok);
  }

  lemma {:induction false} FirstTexts(rows: seq<Scored>, kb: seq<string>, k: int)
    requires Ranked(rows) && TextsIn(rows, kb)
    ensures var items := Texts(FirstK(rows, k));
            && |items| == (if k <= 0 then 0 else if k <= |rows| then k else |rows|)
            && Metrics.Distinct(items)
            && (forall i :: 0 <= i < |items| ==> items[i] == rows[i].text && items[i] in kb)
  {}

  /** The package holds at most top_k texts of the knowledge base, pairwise distinct: the first of the chosen rows,
      in descending order of their scores. */
  lemma {:induction false} PackageView(userText: string, knowledge: seq<string>, second: seq<string>, topK: int,
                                       cfg: Config, tok: Tokenizer)
    ensures var r := Package(userText, knowledge, second, topK, cfg, tok);
            var chosen := Chosen(Strip(userText), CleanKb(knowledge), second, topK, cfg, tok);
            && |r.items| <= (if topK <= 0 then 0 else topK)
            && Metrics.Distinct(r.items)
            && (forall i :: 0 <= i < |r.items| ==> FromKb(knowledge, r.items[i]))
            && (r.skipReason !in {EmptyKb, LowInfo} ==>
                  |r.items| == (if topK <= 0 then 0 else if topK <= |chosen| then topK else |chosen|)
                  && forall i :: 0 <= i < |r.items| ==> r.items[i] == chosen[i].text)
            && (r.retrievalUsed <==> r.items != []) && (r.skipReason == NotSkipped <==> r.items != [])
  {
    var kb, query := CleanKb(knowledge), Strip(userText);
    ChosenView(query, kb, second, topK, cfg, tok);
    FirstTexts(Chosen(query, kb, second, topK, cfg, tok), kb, topK);
  }

  lemma {:induction false} DistinctMetrics(items: seq<string>, gold: set<string>, k: int, d: Metrics.Discount)
    requires Metrics.Distinct(items) && Metrics.Decreasing(d)
    ensures Metrics.RecallAtK(items, gold, k) <= 1.0 && 0.0 <= Metrics.Ndcg(items, gold, k, d) <= 1.0
  {
    assert Metrics.Distinct(Metrics.Top(items, k));
    Metrics.RecallBoundedIff(items, k);
    Metrics.NdcgBounds(items, gold, k, d);
  }

  /** So recall and nDCG of a package never exceed one. */
  lemma {:induction false} PackageMetrics(userText: string, knowledge: seq<string>, second: seq<string>, topK: int,
                                          cfg: Config, tok: Tokenizer, gold: set<string>, k: int, d: Metrics.Discount)
    requires Metrics.Decreasing(d)
    ensures var items := Package(userText, knowledge, second, topK, cfg, tok).items;
            Metrics.RecallAtK(items, gold, k) <= 1.0 && 0.0 <= Metrics.Ndcg(items, gold, k, d) <= 1.0
  {
    PackageView(userText, knowledge, second, topK, cfg, tok);
    DistinctMetrics(Package(userText, knowledge, second, topK, cfg, tok).items, gold, k, d);
  }

  /* ---- the loops ---- */

  /** `_retrieve_keyword_scored`. */
  method RetrieveKeyword(query: string, kb: seq<string>, k: int, tok: Tokenizer) returns (rows: seq<Scored>)
    ensures rows == KeywordScored(query, kb, k, tok)
  {
    var terms := tok(query);
    if terms == {} {
      return Unscored(Cut(kb, k));
    }
    rows := [];
    for i := 0 to |kb|
      invariant rows == ScoreRows(terms, kb[..i], tok)
    {
      assert kb[..i + 1][..i] == kb[..i];
      var textTerms := tok(kb[i]);
      if textTerms == {} {
        continue;
      }
      var overlap := |terms * textTerms|;
      if overlap <= 0 {
        continue;
      }
      rows := rows + [Scored(kb[i], overlap as real / |terms| as real)];
    }
    assert kb[..|kb|] == kb;
    rows := Cut(Sorted(rows), k);
  }

  /** One turn of the merging loop. */
  method MergeRow(m: Merged, t: string, score: real) returns (after: Merged)
    ensures after == MergeOne(m, Scored(t, score))
  {
    after := m;
    if t != "" {
      if t in m.best {
        after := m.(best := m.best[t := if score > m.best[t] then score else m.best[t]]);
      } else {
        after := Merged(m.order + [t], m.best[t := score]);
      }
    }
  }

  /** `_merge_dedup_scored`. */
  method MergeScored(items: seq<Scored>) returns (rows: seq<Scored>)
    ensures rows == MergeDedup(items)
  {
    var m := Merged([], map[]);
    ghost var stripped := Stripped(items);
    for i := 0 to |items|
      invariant m == MergeAll(stripped[..i])
    {
      assert stripped[..i + 1][..i] == stripped[..i];
      m := MergeRow(m, Strip(items[i].text), items[i].score);
    }
    assert stripped[..|items|] == stripped;
    rows := Sorted(Entries(m));
  }

  /** `_apply_diversity`. */
  method ApplyDiversity(rows: seq<Scored>, gap: real, tok: Tokenizer) returns (picked: seq<Scored>)
    ensures picked == Diverse(rows, gap, tok)
  {
    picked := [];
    for i := 0 to |rows|
      invariant picked == Diverse(rows[..i], gap, tok)
    {
      assert rows[..i + 1][..i] == rows[..i];
      var keep := KeepsDistance(picked, rows[i], gap, tok);
      if keep {
        picked := picked + [rows[i]];
      }
    }
    assert rows[..|rows|] == rows;
  }

  /** The inner loop: no picked row is closer than the gap. */
  method KeepsDistance(picked: seq<Scored>, row: Scored, gap: real, tok: Tokenizer) returns (keep: bool)
    ensures keep <==> Far(picked, row, gap, tok)
  {
    keep := true;
    for j := 0 to |picked|
      invariant keep && forall i :: 0 <= i < j ==> Gap(row, picked[i], tok) >= gap
    {
      if Gap(row, picked[j], tok) < gap {
        return false;
      }
    }
  }

  method Gather(queries: seq<string>, kb: seq<string>, k: int, tok: Tokenizer) returns (rows: seq<Scored>)
    ensures rows == Gathered(queries, kb, k, tok)
  {
    rows := [];
    for i := 0 to |queries|
      invariant rows == Gathered(queries[..i], kb, k, tok)
    {
      assert queries[..i + 1][..i] == queries[..i];
      var more := RetrieveKeyword(queries[i], kb, k, tok);
      rows := rows + more;
    }
    assert queries[..|queries|] == queries;
  }

  method CollectQueries(query: string, second: seq<string>, cfg: Config) returns (queries: seq<string>)
    ensures queries == Queries(query, second, cfg)
  {
    queries := [query];
    if cfg.iterative && cfg.maxQueries > 1 {
      var i := 0;
      while i < |second|
        invariant i <= |second|
        invariant Collected(queries, second[i..], cfg.maxQueries) == Collected([query], second, cfg.maxQueries)
      {
        var q := second[i];
        assert second[i..][0] == q && second[i..][1..] == second[i + 1..];
        if q != "" && q !in queries {
          queries := queries + [q];
        }
        if |queries| >= cfg.maxQueries {
          return;
        }
        i := i + 1;
      }
    }
  }

  method MergeAndCorrect(rows: seq<Scored>, k: int, cfg: Config) returns (scored: seq<Scored>)
    ensures scored == Merging(rows, k, cfg)
  {
    var merged := MergeScored(rows);
    scored := Corrected(merged, k, cfg.correctiveMin, cfg.corrective);
  }

  /** The first pass, and the second one if it is needed. */
  method RetrieveFiltered(query: string, queries: seq<string>, kb: seq<string>, second: seq<string>, topK: int,
                          cfg: Config, tok: Tokenizer)
    returns (scored: seq<Scored>)
    requires queries == Queries(query, second, cfg)
    ensures scored == Filtered(query, kb, second, topK, cfg, tok)
  {
    var k := PoolSize(topK, cfg);
    var gathered := Gather(queries, kb, k, tok);
    scored := MergeAndCorrect(gathered, k, cfg);
    var topScore := if scored != [] then scored[0].score else 0.0;
    if cfg.secondPass && topScore < cfg.secondPassMin && query != "" {
      var extra := Gather(NonEmpty(second), kb, k, tok);
      if extra != [] {
        scored := MergeAndCorrect(scored + extra, k, cfg);
      }
    }
  }

  /** `build_rag_package`. */
  method BuildRagPackage(userText: string, knowledge: seq<string>, second: seq<string>, topK: int, cfg: Config,
                         tok: Tokenizer)
    returns (r: RagResult)
    ensures r == Package(userText, knowledge, second, topK, cfg, tok)
  {
    var kb := CleanKb(knowledge);
    if kb == [] {
      return RagResult([], [], false, EmptyKb);
    }
    var query := Strip(userText);
    if cfg.selfRag && |query| < cfg.minQueryChars {
      return RagResult([], [], false, LowInfo);
    }
    var queries := CollectQueries(query, second, cfg);
    var scored := RetrieveFiltered(query, queries, kb, second, topK, cfg, tok);
    if cfg.diversity {
      scored := ApplyDiversity(scored, cfg.gap, tok);
    }
    var items := Texts(FirstK(scored, topK));
    r := RagResult(items, queries, items != [], if items == [] then NoMatch else NotSkipped);
  }
}
