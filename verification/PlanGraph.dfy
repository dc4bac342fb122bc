/** Dependency graphs: an edge goes from a node to a dependency that is itself a node. */
module PlanGraph {

  type Graph = map<string, seq<string>>

  predicate Edge(g: Graph, a: string, b: string) {
    a in g && b in g && b in g[a]
  }

  ghost predicate Walk(g: Graph, p: seq<string>) {
    && |p| > 0 && p[0] in g
    && forall i :: 0 <= i < |p| - 1 ==> Edge(g, p[i], p[i + 1])
  }

  ghost predicate Revisits(p: seq<string>) {
    exists i, j :: 0 <= i < j < |p| && p[i] == p[j]
  }

  /** Some dependency walk from `n` visits a node twice. */
  ghost predicate ReachesCycle(g: Graph, n: string) {
    exists p :: Walk(g, p) && p[0] == n && Revisits(p)
  }

  ghost predicate Acyclic(g: Graph) {
    forall n :: !ReachesCycle(g, n)
  }

  /** Every edge out of `s` stays in `s` and lowers the rank. */
  ghost predicate RankedOn(g: Graph, s: set<string>, rank: map<string, nat>) {
    && s <= g.Keys && s <= rank.Keys
    && forall a, b :: a in s && Edge(g, a, b) ==> b in s && rank[b] < rank[a]
  }

  lemma {:induction false} CycleIntro(g: Graph, p: seq<string>, i: nat, j: nat)
    requires Walk(g, p) && i < j < |p| && p[i] == p[j]
    ensures ReachesCycle(g, p[0])
  {}

  /** A dependency that is still on the search stack closes a cycle. */
  lemma {:induction false} StackClosesCycle(g: Graph, stack: seq<string>, i: nat)
    requires Walk(g, stack) && i < |stack| && Edge(g, stack[|stack| - 1], stack[i])
    ensures ReachesCycle(g, stack[i]) && ReachesCycle(g, stack[|stack| - 1])
  {
    var last := stack[|stack| - 1];
    var p := stack[i..] + [stack[i]];
    CycleIntro(g, p, 0, |p| - 1);
    var q := [last] + stack[i..];
    CycleIntro(g, q, 0, |q| - 1);
  }

  lemma {:induction false} CycleThroughEdge(g: Graph, a: string, b: string)
    requires Edge(g, a, b) && ReachesCycle(g, b)
    ensures ReachesCycle(g, a)
  {
    var p :| Walk(g, p) && p[0] == b && Revisits(p);
    var i, j :| 0 <= i < j < |p| && p[i] == p[j];
    var q := [a] + p;
    CycleIntro(g, q, i + 1, j + 1);
  }

  lemma {:induction false} RankFallsAlong(g: Graph, s: set<string>, rank: map<string, nat>, p: seq<string>, i: nat,
                                          j: nat)
    requires RankedOn(g, s, rank) && Walk(g, p) && p[0] in s && i < j < |p|
    ensures p[i] in s && p[j] in s && rank[p[j]] < rank[p[i]]
    decreases j
  {
    if j > i + 1 {
      RankFallsAlong(g, s, rank, p, i, j - 1);
    } else if i > 0 {
      RankFallsAlong(g, s, rank, p, i - 1, i);
    }
    assert Edge(g, p[j - 1], p[j]);
  }

  /** No cycle can be reached from a ranked node. */
  lemma {:induction false} RankedReachesNoCycle(g: Graph, s: set<string>, rank: map<string, nat>, n: string)
    requires RankedOn(g, s, rank) && n in s
    ensures !ReachesCycle(g, n)
  {
    if ReachesCycle(g, n) {
      var p :| Walk(g, p) && p[0] == n && Revisits(p);
      var i, j :| 0 <= i < j < |p| && p[i] == p[j];
      RankFallsAlong(g, s, rank, p, i, j);
      assert false;
    }
  }

  /** Every non-empty set of nodes that reach no cycle contains a node with no edge into the set. */
  lemma {:induction false} Sink(g: Graph, s: set<string>) returns (n: string)
    requires s != {} && s <= g.Keys
    requires forall x :: x in s ==> !ReachesCycle(g, x)
    ensures n in s && forall d :: d in s ==> !Edge(g, n, d)
  {
    var x :| x in s;
    n := SinkBeyond(g, s, [x], s);
  }

  lemma {:induction false} SinkBeyond(g: Graph, s: set<string>, p: seq<string>, unused: set<string>) returns (n: string)
    requires s <= g.Keys && Walk(g, p)
    requires forall x :: x in s ==> !ReachesCycle(g, x)
    requires forall i :: 0 <= i < |p| ==> p[i] in s
    requires forall x :: x in s ==> x in p || x in unused
    ensures n in s && forall d :: d in s ==> !Edge(g, n, d)
    decreases unused
  {
    n := p[|p| - 1];
    if d :| d in s && Edge(g, n, d) {
      if d in p {
        var i :| 0 <= i < |p| && p[i] == d;
        StackClosesCycle(g, p, i);
        assert false;
      } else {
        n := SinkBeyond(g, s, p + [d], unused - {d});
      }
    }
  }

  /** A cycle-free graph has a topological rank. */
  lemma {:induction false} TopologicalRank(g: Graph, s: set<string>) returns (rank: map<string, nat>)
    requires s <= g.Keys && forall a, b :: a in s && Edge(g, a, b) ==> b in s
    requires forall x :: x in s ==> !ReachesCycle(g, x)
    ensures RankedOn(g, s, rank) && rank.Keys == s
    decreases s
  {
    if s == {} {
      rank := map[];
    } else {
      var n := Source(g, s);
      var rest := TopologicalRank(g, s - {n});
      var top := Above(rest);
      rank := rest[n := top];
    }
  }

  lemma {:induction false} Above(rank: map<string, nat>) returns (top: nat)
    ensures forall x :: x in rank ==> rank[x] < top
    decreases rank.Keys
  {
    if rank == map[] {
      top := 0;
    } else {
      var x :| x in rank;
      var t := Above(rank - {x});
      top := t + rank[x] + 1;
      forall y | y in rank ensures rank[y] < top {
        if y != x { assert y in rank - {x}; }
      }
    }
  }

  /** Every non-empty set of nodes that reach no cycle contains a node with no edge from the set. */
  lemma {:induction false} Source(g: Graph, s: set<string>) returns (n: string)
    requires s != {} && s <= g.Keys
    requires forall x :: x in s ==> !ReachesCycle(g, x)
    ensures n in s && forall d :: d in s ==> !Edge(g, d, n)
  {
    var x :| x in s;
    n := SourceBefore(g, s, [x], s);
  }

  lemma {:induction false} SourceBefore(g: Graph, s: set<string>, p: seq<string>,
                                        unused: set<string>) returns (n: string)
    requires s <= g.Keys && Walk(g, p)
    requires forall x :: x in s ==> !ReachesCycle(g, x)
    requires forall i :: 0 <= i < |p| ==> p[i] in s
    requires forall x :: x in s ==> x in p || x in unused
    ensures n in s && forall d :: d in s ==> !Edge(g, d, n)
    decreases unused
  {
    n := p[0];
    if d :| d in s && Edge(g, d, n) {
      if d in p {
        var i :| 0 <= i < |p| && p[i] == d;
        CycleIntro(g, [d] + p, 0, i + 1);
        assert false;
      } else {
        n := SourceBefore(g, s, [d] + p, unused - {d});
      }
    }
  }

  /** A subgraph of a cycle-free graph, put on top of another one, is cycle-free: `h` holds every node
      of `g` that is not in `low`, and edges lead from `high` to `low` at most. */
  lemma {:induction false} LayeredAcyclic(g: Graph, low: Graph, high: Graph)
    requires Acyclic(low) && Acyclic(high) && low.Keys !! high.Keys
    requires forall a, b :: Edge(g, a, b) ==> Edge(low, a, b) || Edge(high, a, b) || (a in high && b in low)
    requires g.Keys <= low.Keys + high.Keys
    ensures Acyclic(g)
  {
    forall n ensures !ReachesCycle(g, n) {
      if ReachesCycle(g, n) {
        var p :| Walk(g, p) && p[0] == n && Revisits(p);
        var i, j :| 0 <= i < j < |p| && p[i] == p[j];
        var q := p[i..j + 1];
        assert Walk(g, q) by {
          if i > 0 { assert Edge(g, p[i - 1], p[i]); }
        }
        NoLoopAcrossLayers(g, low, high, q);
        assert false;
      }
    }
  }

  lemma {:induction false} NoLoopAcrossLayers(g: Graph, low: Graph, high: Graph, q: seq<string>)
    requires Acyclic(low) && Acyclic(high) && low.Keys !! high.Keys
    requires forall a, b :: Edge(g, a, b) ==> Edge(low, a, b) || Edge(high, a, b) || (a in high && b in low)
    requires g.Keys <= low.Keys + high.Keys
    requires Walk(g, q) && |q| > 1
    ensures q[0] != q[|q| - 1]
  {
    if q[0] == q[|q| - 1] {
      if q[0] in low {
        forall k | 0 <= k < |q| - 1 ensures Edge(low, q[k], q[k + 1]) {
          StaysLow(g, low, high, q, 0, k);
        }
        CycleIntro(low, q, 0, |q| - 1);
      } else {
        forall k | 0 <= k < |q| - 1 ensures Edge(high, q[k], q[k + 1]) {
          assert Edge(g, q[k], q[k + 1]);
          if !Edge(high, q[k], q[k + 1]) {
            assert q[k + 1] in low;
            StaysLow(g, low, high, q, k + 1, |q| - 1);
          }
        }
        CycleIntro(high, q, 0, |q| - 1);
      }
      assert false;
    }
  }

  lemma {:induction false} StaysLow(g: Graph, low: Graph, high: Graph, q: seq<string>, i: nat, k: nat)
    requires low.Keys !! high.Keys
    requires forall a, b :: Edge(g, a, b) ==> Edge(low, a, b) || Edge(high, a, b) || (a in high && b in low)
    requires Walk(g, q) && i <= k < |q| && q[i] in low
    ensures q[k] in low && (k + 1 < |q| ==> Edge(low, q[k], q[k + 1]))
    decreases k
  {
    if k > i {
      StaysLow(g, low, high, q, i, k - 1);
    }
    if k + 1 < |q| {
      assert Edge(g, q[k], q[k + 1]);
    }
  }
}
