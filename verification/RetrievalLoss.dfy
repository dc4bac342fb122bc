/** When a package can leave a text out: the exact condition on the knowledge base, the pool and the number of texts
    asked for. Whenever it fails, a tokenizer is given under which a matching text is lost. */
module RetrievalLoss {
  import opened PyText
  import opened Basics
  import opened Ranking
  import opened Retrieval
  import opened RetrievalBest

  /* ---- terms ---- */

  /** The i-th term. */
  function Tally(i: nat): (r: string)
    ensures |r| == i
  {
    if i == 0 then "" else Tally(i - 1) + "x"
  }

  /** The terms from `a` up to `b`. */
  function Terms(a: nat, b: nat): set<string> {
    if b <= a then {} else Terms(a, b - 1) + {Tally(b - 1)}
  }

  lemma {:induction false} TermsHas(a: nat, b: nat, x: string)
    ensures x in Terms(a, b) <==> a <= |x| < b && x == Tally(|x|)
  {
    if a < b {
      TermsHas(a, b - 1, x);
    }
  }

  lemma {:induction false} TermsSize(a: nat, b: nat)
    requires a <= b
    ensures |Terms(a, b)| == b - a
  {
    if a < b {
      TermsSize(a, b - 1);
      TermsHas(a, b - 1, Tally(b - 1));
    }
  }

  /** All of the first `m` terms but the last, and `junk` others. */
  function Partial(m: nat, junk: nat): set<string>
    requires m >= 1
  {
    Terms(0, m - 1) + Terms(m, m + junk)
  }

  lemma {:induction false} PartialSets(m: nat, junk: nat)
    requires m >= 1
    ensures Terms(0, m) * Partial(m, junk) == Terms(0, m - 1)
    ensures Partial(m, junk) + Terms(0, m) == Terms(0, m + junk)
  {
    forall x ensures x in Terms(0, m) && x in Partial(m, junk) <==> x in Terms(0, m - 1)
      ensures x in Partial(m, junk) || x in Terms(0, m) <==> x in Terms(0, m + junk)
    {
      TermsHas(0, m, x);
      TermsHas(0, m - 1, x);
      TermsHas(m, m + junk, x);
      TermsHas(0, m + junk, x);
    }
  }

  lemma {:induction false} PartialOverlap(m: nat, junk: nat)
    requires m >= 1
    ensures |Terms(0, m) * Partial(m, junk)| == m - 1 && |Partial(m, junk) + Terms(0, m)| == m + junk
    ensures |Terms(0, m)| == m
  {
    PartialSets(m, junk);
    TermsSize(0, m - 1);
    TermsSize(0, m);
    TermsSize(0, m + junk);
  }

  /** The text lacks one of `m` terms; the texts of `d`, and whatever is not in the knowledge base, have them all; every
      other text has none. */
  function Rigged(kb: seq<string>, d: set<string>, t: string, m: nat, junk: nat): Tokenizer
    requires m >= 1
  {
    x => if x == t then Partial(m, junk) else if x in kb && x !in d then {} else Terms(0, m)
  }

  /** The set of other texts that fills the pool, and the numbers of terms. */
  ghost predicate Rig(kb: seq<string>, d: set<string>, t: string, m: nat, k: int) {
    t in kb && t !in d && m >= 2 && Metrics.Hits(kb, d) >= AtLeastOne(k)
  }

  lemma {:induction false} RiggedScores(kb: seq<string>, d: set<string>, t: string, m: nat, junk: nat, x: string)
    requires t in kb && t !in d && m >= 2
    ensures var tok := Rigged(kb, d, t, m, junk);
            var terms := Terms(0, m);
            && terms != {} && (x in kb && Matches(terms, x, tok) ==> x == t || x in d)
            && (x in d ==> Matches(terms, x, tok) && MatchScore(terms, x, tok) == 1.0)
            && Matches(terms, t, tok) && MatchScore(terms, t, tok) == (m - 1) as real / m as real < 1.0
  {
    PartialOverlap(m, junk);
    assert Terms(0, m) * Terms(0, m) == Terms(0, m);
    assert Terms(0, m) * {} == {};
    ShareBelowOne(m);
  }

  lemma {:induction false} ShareBelowOne(m: nat)
    requires m >= 1
    ensures (m - 1) as real / m as real < 1.0 && m as real / m as real == 1.0
  {}

  /* ---- the pool is filled ---- */

  lemma {:induction false} RiggedHits(part: seq<string>, kb: seq<string>, d: set<string>, t: string, m: nat, junk: nat)
    requires t in kb && t !in d && m >= 2
    ensures RowHits(ScoreRows(Terms(0, m), part, Rigged(kb, d, t, m, junk)), d) == Metrics.Hits(part, d)
  {
    if part != [] {
      var n := |part| - 1;
      var tok := Rigged(kb, d, t, m, junk);
      var rest := ScoreRows(Terms(0, m), part[..n], tok);
      RiggedHits(part[..n], kb, d, t, m, junk);
      RiggedScores(kb, d, t, m, junk, part[n]);
      RowHitsNext(rest, Scored(part[n], MatchScore(Terms(0, m), part[n], tok)), d);
      assert rest + [] == rest;
      assert tok(part[n]) == {} ==> Terms(0, m) * tok(part[n]) == {};
    }
  }

  lemma {:induction false} NoMoreHits(rows: seq<Scored>, i: nat, d: set<string>)
    requires i <= |rows| && forall j :: i <= j < |rows| ==> rows[j].text !in d
    ensures RowHits(rows, d) <= i
  {
    if rows != [] {
      var n := |rows| - 1;
      if i <= n {
        NoMoreHits(rows[..n], i, d);
      } else {
        NoMoreHits(rows[..n], n, d);
      }
    }
  }

  /** If the rows of a set are exactly the best ones, and fill the first places, nothing else is there. */
  lemma {:induction false} FrontHits(rows: seq<Scored>, k: nat, d: set<string>, i: nat)
    requires Descending(rows) && RowHits(rows, d) >= k && i < k && i < |rows|
    requires forall r :: r in rows ==> r.score == 1.0 || (r.score < 1.0 && r.text !in d)
    requires forall r :: r in rows && r.score == 1.0 ==> r.text in d
    ensures rows[i].text in d && rows[i].score == 1.0
  {
    if rows[i].score < 1.0 {
      forall j | i <= j < |rows| ensures rows[j].text !in d {
        assert rows[j].score <= rows[i].score && rows[j] in rows;
      }
      NoMoreHits(rows, i, d);
    }
    assert rows[i] in rows;
  }

  lemma {:induction false} RiggedRow(kb: seq<string>, d: set<string>, t: string, m: nat, junk: nat, r: Scored)
    requires t in kb && t !in d && m >= 2 && r in ScoreRows(Terms(0, m), kb, Rigged(kb, d, t, m, junk))
    ensures if r.text in d then r.score == 1.0 else r.score < 1.0
  {
    RiggedScores(kb, d, t, m, junk, r.text);
    ScoreRowsIff(Terms(0, m), kb, Rigged(kb, d, t, m, junk), r);
  }

  /** All rows, sorted, start with the rows of the set. */
  lemma {:induction false} RiggedFront(kb: seq<string>, k: int, d: set<string>, t: string, m: nat, junk: nat, i: nat)
    requires Rig(kb, d, t, m, k) && i < AtLeastOne(k)
    requires i < |Sorted(ScoreRows(Terms(0, m), kb, Rigged(kb, d, t, m, junk)))|
    ensures var r := Sorted(ScoreRows(Terms(0, m), kb, Rigged(kb, d, t, m, junk)))[i]; r.text in d && r.score == 1.0
  {
    var all := ScoreRows(Terms(0, m), kb, Rigged(kb, d, t, m, junk));
    var rows := Sorted(all);
    SortedMembers(all);
    RiggedHits(kb, kb, d, t, m, junk);
    SortedHits(all, d);
    forall r | r in rows ensures if r.text in d then r.score == 1.0 else r.score < 1.0 {
      RiggedRow(kb, d, t, m, junk, r);
    }
    FrontHits(rows, AtLeastOne(k), d, i);
  }

  lemma {:induction false} RiggedRows(q: string, kb: seq<string>, k: int, d: set<string>, t: string, m: nat, junk: nat)
    requires Rig(kb, d, t, m, k) && q !in kb
    ensures forall r :: r in KeywordScored(q, kb, k, Rigged(kb, d, t, m, junk)) ==> r.text in d && r.score == 1.0
  {
    var rows := KeywordScored(q, kb, k, Rigged(kb, d, t, m, junk));
    RiggedScores(kb, d, t, m, junk, q);
    forall r | r in rows ensures r.text in d && r.score == 1.0 {
      var i :| 0 <= i < |rows| && rows[i] == r;
      RiggedFront(kb, k, d, t, m, junk, i);
    }
  }

  function Longest(kb: seq<string>): nat {
    if kb == [] then 0
    else
      var rest, n := Longest(kb[..|kb| - 1]), |kb[|kb| - 1]|;
      if rest > n then rest else n
  }

  lemma {:induction false} LongerIsOutside(kb: seq<string>, x: string)
    requires |x| > Longest(kb)
    ensures x !in kb
  {
    if kb != [] {
      LongerIsOutside(kb[..|kb| - 1], x);
      assert kb == kb[..|kb| - 1] + [kb[|kb| - 1]];
    }
  }

  /** For every query that it matches, whatever the tokenizer, the keyword rows cover the text, exactly if the
      knowledge base is safe for it. */
  lemma {:induction false} KeywordCoversIff(kb: seq<string>, k: int, t: string, n: int)
    requires t in kb
    ensures (forall q, tok: Tokenizer :: AsksFor(tok, q, t) ==>
               Covered(KeywordScored(q, kb, k, tok), t, MatchScore(tok(q), t, tok), n))
            <==> Safe(kb, t, n, AtLeastOne(k))
  {
    if Safe(kb, t, n, AtLeastOne(k)) {
      forall q, tok: Tokenizer | AsksFor(tok, q, t)
        ensures Covered(KeywordScored(q, kb, k, tok), t, MatchScore(tok(q), t, tok), n)
      {
        KeywordCovers(q, kb, k, tok, t, n);
      }
    } else {
      var d: set<string> :| t !in d && |d| < n && Metrics.Hits(kb, d) >= AtLeastOne(k);
      var q, tok := Tally(Longest(kb) + 1), Rigged(kb, d, t, 2, 0);
      LongerIsOutside(kb, q);
      RiggedScores(kb, d, t, 2, 0, t);
      RiggedRows(q, kb, k, d, t, 2, 0);
      var rows, s := KeywordScored(q, kb, k, tok), MatchScore(tok(q), t, tok);
      SubsetSize(HighTexts(rows, s), d);
      assert AsksFor(tok, q, t) && !Covered(rows, t, s, n);
    }
  }

  predicate AsksFor(tok: Tokenizer, q: string, t: string) {
    tok(q) != {} && Matches(tok(q), t, tok)
  }

  /* ---- when the pool is safe for as many texts as it has places ---- */

  lemma {:induction false} HitsAll(p: seq<string>, d: set<string>)
    requires forall x :: x in p ==> x in d
    ensures Metrics.Hits(p, d) == |p|
  {
    if p != [] {
      HitsAll(p[..|p| - 1], d);
    }
  }

  lemma {:induction false} HitsNone(p: seq<string>)
    ensures Metrics.Hits(p, {}) == 0
  {
    if p != [] {
      HitsNone(p[..|p| - 1]);
    }
  }

  lemma {:induction false} HitsMore(p: seq<string>, d: set<string>, y: string)
    requires y !in d
    ensures Metrics.Hits(p, d + {y}) >= Metrics.Hits(p, d) + (if y in p then 1 else 0)
  {
    if p != [] {
      var n := |p| - 1;
      HitsMore(p[..n], d, y);
      assert p == p[..n] + [p[n]];
    }
  }

  /** A set that some entries hit more often than it has elements can be grown until it fills `k` places. */
  lemma {:induction false} Grow(p: seq<string>, d: set<string>, k: nat) returns (e: set<string>)
    requires |p| >= k && |d| < k && Metrics.Hits(p, d) > |d| && forall x :: x in d ==> x in p
    ensures |e| < k && Metrics.Hits(p, e) >= k && forall x :: x in e ==> x in p
    decreases k - |d|
  {
    if Metrics.Hits(p, d) >= k {
      e := d;
    } else {
      if forall x :: x in p ==> x in d { HitsAll(p, d); }
      var y :| y in p && y !in d;
      HitsMore(p, d, y);
      e := Grow(p, d + {y}, k);
    }
  }

  lemma {:induction false} CrowdedIsUnsafe(kb: seq<string>, t: string, k: nat)
    requires k >= 2 && !Metrics.Distinct(Others(kb, t)) && |Others(kb, t)| >= k
    ensures !Safe(kb, t, k, k)
  {
    var p := Others(kb, t);
    var i, j :| 0 <= i < j < |p| && p[i] == p[j];
    Metrics.HitsTwice(p, i, j);
    var d := Grow(p, {p[i]}, k);
    OthersMembers(kb, t, t);
    OthersHits(kb, t, d);
  }

  /** A pool is safe for as many texts as it has places exactly if it has one place, or the other entries are all
      different, or they leave a place free. */
  lemma {:induction false} SafePoolIff(kb: seq<string>, t: string, k: int)
    ensures Safe(kb, t, k, k) <==> k <= 1 || Metrics.Distinct(Others(kb, t)) || |Others(kb, t)| < k
  {
    if k <= 1 {
      HitsNone(kb);
    } else if |Others(kb, t)| < k {
      FewAreSafe(kb, t, k, k);
    } else if Metrics.Distinct(Others(kb, t)) {
      forall d: set<string> | t !in d && |d| < k ensures Metrics.Hits(kb, d) < k {
        OthersHits(kb, t, d);
        Metrics.HitsAtMost(Others(kb, t), d);
      }
    } else {
      CrowdedIsUnsafe(kb, t, k);
    }
  }

  /* ---- the package ---- */

  /** The query is one the pipeline asks, and the text deserves to be found by it. */
  predicate Asked(userText: string, second: seq<string>, cfg: Config, tok: Tokenizer, q: string, t: string) {
    && !(cfg.selfRag && |Strip(userText)| < cfg.minQueryChars)
    && q in Queries(Strip(userText), second, cfg) && Deserves(cfg, tok, q, t)
  }

  /** The text is in the package; or the package is full of texts that score at least as high; or, with diversity on,
      it holds a text that scores at least as high and is closer than the gap. */
  ghost predicate PackageServes(userText: string, knowledge: seq<string>, second: seq<string>, topK: int, cfg: Config,
                                tok: Tokenizer, q: string, t: string)
    requires tok(q) != {}
  {
    var chosen := Chosen(Strip(userText), CleanKb(knowledge), second, topK, cfg, tok);
    var s := MatchScore(tok(q), t, tok);
    || t in Package(userText, knowledge, second, topK, cfg, tok).items
    || FullOf(chosen, topK, s)
    || (cfg.diversity && Near(chosen, topK, t, s, cfg.gap, tok))
  }

  lemma {:induction false} PackageItems(userText: string, knowledge: seq<string>, second: seq<string>, topK: int,
                                        cfg: Config, tok: Tokenizer)
    requires CleanKb(knowledge) != [] && !(cfg.selfRag && |Strip(userText)| < cfg.minQueryChars)
    ensures Package(userText, knowledge, second, topK, cfg, tok).items
            == Texts(FirstK(Chosen(Strip(userText), CleanKb(knowledge), second, topK, cfg, tok), topK))
  {}

  lemma {:induction false} ServesIsServed(userText: string, knowledge: seq<string>, second: seq<string>, topK: int,
                                          cfg: Config, tok: Tokenizer, q: string, t: string)
    requires Asked(userText, second, cfg, tok, q, t) && CleanKb(knowledge) != []
    ensures PackageServes(userText, knowledge, second, topK, cfg, tok, q, t)
            <==> Served(Chosen(Strip(userText), CleanKb(knowledge), second, topK, cfg, tok), topK, cfg, tok, t,
                        MatchScore(tok(q), t, tok))
  {
    PackageItems(userText, knowledge, second, topK, cfg, tok);
  }

  /** A text that matches one of the queries, and reaches the corrective score if that filter is on, is served, in
      every configuration and whatever the second pass asks, if the other entries cannot crowd it out. */
  lemma {:induction false} PackageBest(userText: string, knowledge: seq<string>, second: seq<string>, topK: int,
                                       cfg: Config, tok: Tokenizer, q: string, t: string)
    requires t in CleanKb(knowledge) && Asked(userText, second, cfg, tok, q, t) && topK >= 1
    requires Kept(CleanKb(knowledge), t, topK, cfg)
    ensures PackageServes(userText, knowledge, second, topK, cfg, tok, q, t)
  {
    KeptIsServed(Strip(userText), CleanKb(knowledge), second, topK, cfg, tok, q, t);
    ServesIsServed(userText, knowledge, second, topK, cfg, tok, q, t);
  }

  /** After a first pass that keeps nothing as good as the limit, a text that matches a second-pass query well enough is
      served as well. */
  lemma {:induction false} SecondPassServes(userText: string, knowledge: seq<string>, second: seq<string>, topK: int,
                                            cfg: Config, tok: Tokenizer, q: string, t: string)
    requires t in CleanKb(knowledge) && q in NonEmpty(second) && Deserves(cfg, tok, q, t) && topK >= 1
    requires !(cfg.selfRag && |Strip(userText)| < cfg.minQueryChars)
    requires Weak(Strip(userText), CleanKb(knowledge), second, topK, cfg, tok) && Kept(CleanKb(knowledge), t, topK, cfg)
    ensures PackageServes(userText, knowledge, second, topK, cfg, tok, q, t)
  {
    SecondServes(Strip(userText), CleanKb(knowledge), second, topK, cfg, tok, q, t);
    PackageItems(userText, knowledge, second, topK, cfg, tok);
  }

  /** After any other first pass the package is that of the first pass alone. */
  lemma {:induction false} FirstPassAlone(userText: string, knowledge: seq<string>, second: seq<string>, topK: int,
                                          cfg: Config, tok: Tokenizer)
    requires !Weak(Strip(userText), CleanKb(knowledge), second, topK, cfg, tok)
    ensures Package(userText, knowledge, second, topK, cfg, tok)
            == Package(userText, knowledge, second, topK, cfg.(secondPass := false), tok)
  {
    ChosenAlone(Strip(userText), CleanKb(knowledge), second, topK, cfg, tok);
    SamePackage(userText, knowledge, second, topK, cfg, cfg.(secondPass := false), tok);
  }

  lemma {:induction false} ChosenAlone(query: string, kb: seq<string>, second: seq<string>, topK: int, cfg: Config,
                                       tok: Tokenizer)
    requires Clean(kb) && !Weak(query, kb, second, topK, cfg, tok)
    ensures Chosen(query, kb, second, topK, cfg, tok) == Chosen(query, kb, second, topK, cfg.(secondPass := false), tok)
  {
    var off := cfg.(secondPass := false);
    StrongAlone(query, kb, second, topK, cfg, tok);
    StrongAlone(query, kb, second, topK, off, tok);
    SameFirst(query, kb, second, topK, cfg, off, tok);
  }

  lemma {:induction false} SameFirst(query: string, kb: seq<string>, second: seq<string>, topK: int, a: Config,
                                     b: Config, tok: Tokenizer)
    requires b == a.(secondPass := b.secondPass)
    ensures FirstPass(query, kb, second, topK, a, tok) == FirstPass(query, kb, second, topK, b, tok)
  {}

  lemma {:induction false} SamePackage(userText: string, knowledge: seq<string>, second: seq<string>, topK: int,
                                       a: Config, b: Config, tok: Tokenizer)
    requires b == a.(secondPass := b.secondPass)
    requires var query, kb := Strip(userText), CleanKb(knowledge);
             Chosen(query, kb, second, topK, a, tok) == Chosen(query, kb, second, topK, b, tok)
    ensures Package(userText, knowledge, second, topK, a, tok) == Package(userText, knowledge, second, topK, b, tok)
  {}

  /* ---- how it loses a text ---- */

  lemma {:induction false} CollectedFrom(queries: seq<string>, second: seq<string>, limit: int, q: string)
    requires q in Collected(queries, second, limit)
    ensures q in queries || q in second
    decreases |second|
  {
    if second != [] {
      var q0 := second[0];
      var more := if q0 != "" && q0 !in queries then queries + [q0] else queries;
      if |more| < limit {
        CollectedFrom(more, second[1..], limit, q);
      }
    }
  }

  lemma {:induction false} NonEmptyFrom(qs: seq<string>, q: string)
    requires q in NonEmpty(qs)
    ensures q in qs
  {
    if qs[0] != q {
      NonEmptyFrom(qs[1..], q);
    }
  }

  lemma {:induction false} RiggedGathered(queries: seq<string>, kb: seq<string>, k: int, d: set<string>, t: string,
                                          m: nat, junk: nat)
    requires Rig(kb, d, t, m, k) && forall q :: q in queries ==> q !in kb
    ensures forall r :: r in Gathered(queries, kb, k, Rigged(kb, d, t, m, junk)) ==> r.text in d && r.score == 1.0
  {
    if queries != [] {
      var n := |queries| - 1;
      assert queries[n] in queries;
      RiggedGathered(queries[..n], kb, k, d, t, m, junk);
      RiggedRows(queries[n], kb, k, d, t, m, junk);
    }
  }

  /** None of the queries is a text of the knowledge base. */
  predicate Outside(kb: seq<string>, query: string, second: seq<string>) {
    query !in kb && forall q :: q in second ==> q !in kb
  }

  lemma {:induction false} QueriesOutside(kb: seq<string>, query: string, second: seq<string>, cfg: Config)
    requires Outside(kb, query, second)
    ensures forall q :: q in Queries(query, second, cfg) ==> q !in kb
    ensures forall q :: q in NonEmpty(second) ==> q !in kb
  {
    forall q | q in Queries(query, second, cfg) ensures q !in kb {
      if cfg.iterative && cfg.maxQueries > 1 {
        CollectedFrom([query], second, cfg.maxQueries, q);
      }
    }
    forall q | q in NonEmpty(second) ensures q !in kb {
      NonEmptyFrom(second, q);
    }
  }

  ghost predicate AllFrom(rows: seq<Scored>, d: set<string>) {
    forall r :: r in rows ==> r.text in d && r.score == 1.0
  }

  lemma {:induction false} MergingFrom(rows: seq<Scored>, kb: seq<string>, k: int, cfg: Config, d: set<string>)
    requires TextsIn(rows, kb) && Clean(kb) && AllFrom(rows, d)
    ensures AllFrom(Merging(rows, k, cfg), d)
  {
    MergingView(rows, kb, k, cfg);
    forall r | r in Merging(rows, k, cfg) ensures r.text in d && r.score == 1.0 {
      assert Scored(r.text, r.score) in rows;
    }
  }

  /** Nothing but the set is ever retrieved. */
  lemma {:induction false} RiggedChosen(query: string, kb: seq<string>, second: seq<string>, topK: int, cfg: Config,
                                        d: set<string>, t: string, m: nat, junk: nat)
    requires Clean(kb) && Rig(kb, d, t, m, PoolSize(topK, cfg)) && Outside(kb, query, second)
    ensures AllFrom(Chosen(query, kb, second, topK, cfg, Rigged(kb, d, t, m, junk)), d)
  {
    var k, tok := PoolSize(topK, cfg), Rigged(kb, d, t, m, junk);
    var rows := Gathered(Queries(query, second, cfg), kb, k, tok);
    QueriesOutside(kb, query, second, cfg);
    RiggedGathered(Queries(query, second, cfg), kb, k, d, t, m, junk);
    RiggedGathered(NonEmpty(second), kb, k, d, t, m, junk);
    GatheredIn(Queries(query, second, cfg), kb, k, tok);
    MergingFrom(rows, kb, k, cfg, d);
    var evidence := Evidence(query, kb, second, topK, cfg, tok);
    EvidenceIn(query, kb, second, topK, cfg, tok);
    assert AllFrom(evidence, d);
    MergingFrom(evidence, kb, k, cfg, d);
    ChosenView(query, kb, second, topK, cfg, tok);
  }

  lemma {:induction false} RiggedAsks(query: string, kb: seq<string>, second: seq<string>, cfg: Config, d: set<string>,
                                      t: string, m: nat, junk: nat)
    requires t in kb && t !in d && m >= 2 && query !in kb
    requires cfg.corrective ==> (m - 1) as real / m as real >= cfg.correctiveMin
    ensures var tok := Rigged(kb, d, t, m, junk);
            query in Queries(query, second, cfg) && Deserves(cfg, tok, query, t)
            && MatchScore(tok(query), t, tok) < 1.0
  {
    RiggedScores(kb, d, t, m, junk, t);
    assert [query][0] == query && query in [query];
  }

  /** Enough terms for the share without one of them to reach the corrective score. */
  lemma {:induction false} EnoughTerms(cfg: Config) returns (m: nat)
    requires cfg.corrective ==> cfg.correctiveMin < 1.0
    ensures m >= 2 && (cfg.corrective ==> (m - 1) as real / m as real >= cfg.correctiveMin)
  {
    m := 2;
    if cfg.corrective && cfg.correctiveMin > 0.5 {
      var e := 1.0 - cfg.correctiveMin;
      m := (1.0 / e).Floor + 1;
      InverseAbove(e, m);
      ShareReaches(m, cfg.correctiveMin);
    }
  }

  lemma {:induction false} InverseAbove(e: real, m: int)
    requires 0.0 < e < 0.5 && m == (1.0 / e).Floor + 1
    ensures m >= 2 && m as real * e >= 1.0
  {
    assert (1.0 / e) * e == 1.0;
    assert 1.0 / e > 2.0;
    assert m as real >= 1.0 / e;
  }

  lemma {:induction false} ShareReaches(m: nat, c: real)
    requires m >= 2 && m as real * (1.0 - c) >= 1.0
    ensures (m - 1) as real / m as real >= c
  {
    assert (m - 1) as real >= c * m as real;
    assert c * m as real / m as real == c;
  }

  /** The other texts are too few for the package. */
  lemma {:induction false} FewTexts(rows: seq<Scored>, d: set<string>)
    requires DistinctTexts(rows) && AllFrom(rows, d)
    ensures |rows| <= |d|
  {
    HighSize(rows, 1.0);
    SubsetSize(HighTexts(rows, 1.0), d);
  }

  lemma {:induction false} ShortLoses(rows: seq<Scored>, topK: int, cfg: Config, tok: Tokenizer, t: string, s: real)
    requires |rows| < topK && forall r :: r in rows ==> r.text != t
    requires !(cfg.diversity && Near(rows, topK, t, s, cfg.gap, tok))
    ensures !Served(rows, topK, cfg, tok, t, s)
  {}

  lemma {:induction false} NotNear(rows: seq<Scored>, topK: int, t: string, s: real, gap: real, tok: Tokenizer)
    requires gap <= 0.0
    ensures !Near(rows, topK, t, s, gap, tok)
  {
    forall i | 0 <= i < |rows| ensures Gap(Scored(t, s), rows[i], tok) >= gap {
      JaccardUnit(tok(t), tok(rows[i].text));
    }
  }

  /** Where diversity rejects nothing: too few texts fill the pool, and the package is not full. */
  lemma {:induction false} PlainLoses(query: string, kb: seq<string>, second: seq<string>, topK: int, cfg: Config,
                                      d: set<string>, t: string, m: nat)
    requires Clean(kb) && Rig(kb, d, t, m, PoolSize(topK, cfg)) && Outside(kb, query, second) && |d| < topK
    requires cfg.diversity ==> cfg.gap <= 0.0
    ensures var tok := Rigged(kb, d, t, m, 0);
            !Served(Chosen(query, kb, second, topK, cfg, tok), topK, cfg, tok, t, MatchScore(Terms(0, m), t, tok))
  {
    var tok := Rigged(kb, d, t, m, 0);
    var s := MatchScore(Terms(0, m), t, tok);
    var chosen := Chosen(query, kb, second, topK, cfg, tok);
    RiggedChosen(query, kb, second, topK, cfg, d, t, m, 0);
    ChosenView(query, kb, second, topK, cfg, tok);
    FewTexts(chosen, d);
    if cfg.diversity { NotNear(chosen, topK, t, s, cfg.gap, tok); }
    ShortLoses(chosen, topK, cfg, tok, t, s);
  }

  /** Enough other terms for the text to be as far as the gap from those that have all the terms. */
  lemma {:induction false} EnoughJunk(m: nat, gap: real) returns (junk: nat)
    requires m >= 1 && gap < 1.0
    ensures 1.0 - (m - 1) as real / (m + junk) as real >= gap
  {
    var e := 1.0 - gap;
    var q := (m - 1) as real / e;
    QuotientIsNonNegative((m - 1) as real, e);
    junk := q.Floor + 1;
    ShareAtMost(m - 1, m + junk, e);
  }

  lemma {:induction false} QuotientIsNonNegative(a: real, b: real)
    requires a >= 0.0 && b > 0.0
    ensures a / b >= 0.0
  {}

  lemma {:induction false} ShareAtMost(a: nat, b: nat, e: real)
    requires e > 0.0 && b > 0 && b as real >= a as real / e
    ensures a as real / b as real <= e
  {
    assert (a as real / e) * e == a as real;
    assert b as real * e >= a as real;
    var x := a as real / b as real;
    assert x * b as real == a as real;
    if x > e { assert x * b as real > e * b as real; }
  }

  lemma {:induction false} JaccardPartial(m: nat, junk: nat)
    requires m >= 2
    ensures Jaccard(Partial(m, junk), Terms(0, m)) == (m - 1) as real / (m + junk) as real
  {
    PartialOverlap(m, junk);
    assert Partial(m, junk) * Terms(0, m) == Terms(0, m) * Partial(m, junk);
    assert Terms(0, m) * {} == {};
  }

  lemma {:induction false} JaccardSame(a: set<string>)
    ensures Jaccard(a, a) == 1.0
  {
    assert a * a == a && a + a == a;
  }

  lemma {:induction false} RiggedGap(kb: seq<string>, d: set<string>, t: string, m: nat, junk: nat, x: Scored, s: real)
    requires t in kb && t !in d && m >= 2 && x.text in d
    ensures Gap(Scored(t, s), x, Rigged(kb, d, t, m, junk)) == 1.0 - (m - 1) as real / (m + junk) as real
  {
    JaccardPartial(m, junk);
  }

  lemma {:induction false} RiggedSame(kb: seq<string>, d: set<string>, t: string, m: nat, junk: nat, x: Scored,
                                      y: Scored)
    requires t in kb && t !in d && m >= 2 && x.text in d && y.text in d
    ensures Gap(x, y, Rigged(kb, d, t, m, junk)) == 0.0
  {
    JaccardSame(Terms(0, m));
  }

  /** Texts with the same terms: diversity accepts one of them. */
  lemma {:induction false} OneAccepted(rows: seq<Scored>, kb: seq<string>, d: set<string>, t: string, m: nat, junk: nat,
                                       gap: real)
    requires t in kb && t !in d && m >= 2 && gap > 0.0 && AllFrom(rows, d)
    requires PairwiseFar(rows, gap, Rigged(kb, d, t, m, junk))
    ensures |rows| <= 1
  {
    if |rows| > 1 {
      assert rows[0] in rows && rows[1] in rows;
      assert Gap(rows[1], rows[0], Rigged(kb, d, t, m, junk)) >= gap;
      RiggedSame(kb, d, t, m, junk, rows[1], rows[0]);
    }
  }

  lemma {:induction false} FarFromAll(rows: seq<Scored>, kb: seq<string>, d: set<string>, t: string, m: nat, junk: nat,
                                      gap: real, topK: int, s: real)
    requires t in kb && t !in d && m >= 2 && AllFrom(rows, d) && 1.0 - (m - 1) as real / (m + junk) as real >= gap
    ensures !Near(rows, topK, t, s, gap, Rigged(kb, d, t, m, junk))
  {
    forall i | 0 <= i < |rows| ensures Gap(Scored(t, s), rows[i], Rigged(kb, d, t, m, junk)) >= gap {
      assert rows[i] in rows;
      RiggedGap(kb, d, t, m, junk, rows[i], s);
    }
  }

  /** With diversity on: other texts with the same terms fill the pool, only one of them is accepted, and the package is
      not full. */
  lemma {:induction false} DiverseLoses(query: string, kb: seq<string>, second: seq<string>, topK: int, cfg: Config,
                                        d: set<string>, t: string, m: nat, junk: nat)
    requires Clean(kb) && Rig(kb, d, t, m, PoolSize(topK, cfg)) && Outside(kb, query, second) && topK >= 2
    requires cfg.diversity && cfg.gap > 0.0 && 1.0 - (m - 1) as real / (m + junk) as real >= cfg.gap
    ensures var tok := Rigged(kb, d, t, m, junk);
            !Served(Chosen(query, kb, second, topK, cfg, tok), topK, cfg, tok, t, MatchScore(Terms(0, m), t, tok))
  {
    var tok := Rigged(kb, d, t, m, junk);
    var s := MatchScore(Terms(0, m), t, tok);
    var chosen := Chosen(query, kb, second, topK, cfg, tok);
    RiggedChosen(query, kb, second, topK, cfg, d, t, m, junk);
    ChosenView(query, kb, second, topK, cfg, tok);
    OneAccepted(chosen, kb, d, t, m, junk, cfg.gap);
    FarFromAll(chosen, kb, d, t, m, junk, cfg.gap, topK, s);
    ShortLoses(chosen, topK, cfg, tok, t, s);
  }

  /** The other texts that fill the pool. */
  lemma {:induction false} Crowders(kb: seq<string>, t: string, topK: int, cfg: Config) returns (d: set<string>)
    requires t in kb && topK >= 1 && !Kept(kb, t, topK, cfg)
    ensures Rig(kb, d, t, 2, PoolSize(topK, cfg))
    ensures if cfg.diversity && cfg.gap > 0.0 then topK >= 2 else |d| < topK
  {
    var k := PoolSize(topK, cfg);
    if cfg.diversity && cfg.gap > 0.0 && topK >= 2 {
      d := Metrics.Elements(Others(kb, t));
      OthersMembers(kb, t, t);
      OthersHits(kb, t, d);
      HitsAll(Others(kb, t), d);
    } else {
      d :| t !in d && |d| < topK && Metrics.Hits(kb, d) >= k;
      HitsNone(kb);
      assert topK == 1 ==> d == {};
    }
  }

  /** If the other entries can crowd the text out, then for every user text and every second pass that ask nothing that
      is in the knowledge base, there is a tokenizer under which the text matches and is lost. */
  lemma {:induction false} UnkeptIsLost(userText: string, knowledge: seq<string>, second: seq<string>, topK: int,
                                        cfg: Config, t: string) returns (tok: Tokenizer)
    requires t in CleanKb(knowledge) && topK >= 1 && !Kept(CleanKb(knowledge), t, topK, cfg)
    requires !(cfg.selfRag && |Strip(userText)| < cfg.minQueryChars)
    requires Outside(CleanKb(knowledge), Strip(userText), second)
    requires (cfg.corrective ==> cfg.correctiveMin < 1.0) && (cfg.diversity ==> cfg.gap < 1.0)
    ensures Asked(userText, second, cfg, tok, Strip(userText), t)
    ensures !PackageServes(userText, knowledge, second, topK, cfg, tok, Strip(userText), t)
  {
    var kb, query := CleanKb(knowledge), Strip(userText);
    var d := Crowders(kb, t, topK, cfg);
    var m := EnoughTerms(cfg);
    var junk: nat := 0;
    if cfg.diversity && cfg.gap > 0.0 {
      junk := EnoughJunk(m, cfg.gap);
      DiverseLoses(query, kb, second, topK, cfg, d, t, m, junk);
    } else {
      PlainLoses(query, kb, second, topK, cfg, d, t, m);
    }
    tok := Rigged(kb, d, t, m, junk);
    RiggedAsks(query, kb, second, cfg, d, t, m, junk);
    ServesIsServed(userText, knowledge, second, topK, cfg, tok, query, t);
  }

  lemma {:induction false} TallyStrips(i: nat)
    requires i >= 1
    ensures Strip(Tally(i)) == Tally(i)
  {
    TallyStarts(i);
  }

  lemma {:induction false} TallyStarts(i: nat)
    requires i >= 1
    ensures Tally(i)[0] == 'x' && Tally(i)[i - 1] == 'x'
  {
    if i > 1 { TallyStarts(i - 1); }
  }

  /** A user text that is in no knowledge base text's way. */
  lemma {:induction false} SomeQuery(kb: seq<string>, cfg: Config) returns (userText: string)
    ensures Outside(kb, Strip(userText), []) && !(cfg.selfRag && |Strip(userText)| < cfg.minQueryChars)
  {
    var n := Longest(kb) + AtLeastOne(cfg.minQueryChars);
    userText := Tally(n);
    TallyStrips(n);
    LongerIsOutside(kb, userText);
  }

  /** A text is served, whatever is asked and however texts are split into terms, exactly if the other entries cannot
      crowd it out: with diversity, they all fit into the pool; without, no fewer than top_k of them fill it. */
  lemma {:induction false} PackageBestIff(knowledge: seq<string>, topK: int, cfg: Config, t: string)
    requires t in CleanKb(knowledge) && topK >= 1
    requires (cfg.corrective ==> cfg.correctiveMin < 1.0) && (cfg.diversity ==> cfg.gap < 1.0)
    ensures (forall userText, second, tok, q :: Asked(userText, second, cfg, tok, q, t) ==>
               PackageServes(userText, knowledge, second, topK, cfg, tok, q, t))
            <==> Kept(CleanKb(knowledge), t, topK, cfg)
  {
    if Kept(CleanKb(knowledge), t, topK, cfg) {
      forall userText, second, tok, q | Asked(userText, second, cfg, tok, q, t)
        ensures PackageServes(userText, knowledge, second, topK, cfg, tok, q, t)
      {
        PackageBest(userText, knowledge, second, topK, cfg, tok, q, t);
      }
    } else {
      var userText := SomeQuery(CleanKb(knowledge), cfg);
      var tok := UnkeptIsLost(userText, knowledge, [], topK, cfg, t);
    }
  }
}
