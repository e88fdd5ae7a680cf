/** Blocked-on graphs: every process waits for at most one other process. */
module WaitGraph {
  import opened KernelTypes

  type Graph = seq<Option<nat>>

  /** Every edge ends at a node. */
  predicate Closed(g: Graph) {
    forall p :: 0 <= p < |g| && g[p].Some? ==> g[p].value < |g|
  }

  /** The process reached after k edges. */
  function Walk(g: Graph, p: nat, k: nat): (r: Option<nat>)
    requires Closed(g) && p < |g|
    ensures r.Some? ==> r.value < |g|
    decreases k
  {
    if k == 0 then Some(p)
    else if g[p].None? then None
    else Walk(g, g[p].value, k - 1)
  }

  ghost predicate Reaches(g: Graph, p: nat, q: nat)
    requires Closed(g) && p < |g|
  {
    exists k: nat :: Walk(g, p, k) == Some(q)
  }

  /** No process waits, directly or not, for itself. */
  ghost predicate Acyclic(g: Graph) {
    && Closed(g)
    && forall p, k: nat :: 0 <= p < |g| && k >= 1 ==> Walk(g, p, k) != Some(p)
  }

  ghost predicate Ranked(g: Graph, rank: seq<nat>) {
    && Closed(g) && |rank| == |g|
    && forall p :: 0 <= p < |g| && g[p].Some? ==> rank[g[p].value] < rank[p]
  }

  lemma {:induction false} WalkPlus(g: Graph, p: nat, a: nat, b: nat)
    requires Closed(g) && p < |g|
    ensures Walk(g, p, a).None? ==> Walk(g, p, a + b).None?
    ensures Walk(g, p, a).Some? ==> Walk(g, p, a + b) == Walk(g, Walk(g, p, a).value, b)
    decreases a
  {
    if a > 0 && g[p].Some? {
      WalkPlus(g, g[p].value, a - 1, b);
    }
  }

  // ------------------------------------------------- ranks and acyclicity agree

  lemma {:induction false} RankDrops(g: Graph, rank: seq<nat>, p: nat, k: nat)
    requires Ranked(g, rank) && p < |g| && k >= 1
    ensures Walk(g, p, k).Some? ==> rank[Walk(g, p, k).value] < rank[p]
    decreases k
  {
    if k > 1 && g[p].Some? {
      RankDrops(g, rank, g[p].value, k - 1);
    } else if g[p].Some? {
      assert Walk(g, p, 1) == Walk(g, g[p].value, 0);
    }
  }

  lemma RankedIsAcyclic(g: Graph, rank: seq<nat>)
    requires Ranked(g, rank)
    ensures Acyclic(g)
  {
    forall p, k: nat | 0 <= p < |g| && k >= 1 ensures Walk(g, p, k) != Some(p) {
      RankDrops(g, rank, p, k);
    }
  }

  /** At most n different values lie below n. */
  lemma {:induction false} DistinctBelow(s: seq<nat>, n: nat)
    requires Distinct(s) && forall i :: 0 <= i < |s| ==> s[i] < n
    ensures |s| <= n
    decreases n
  {
    if s != [] {
      assert s[0] < n;
      if n - 1 in s {
        var k := IndexOf(s, n - 1);
        RemoveAtElements(s, k);
        var r := RemoveAt(s, k);
        assert forall i :: 0 <= i < |r| ==> r[i] in s && r[i] != n - 1;
        DistinctBelow(r, n - 1);
      } else {
        DistinctBelow(s, n - 1);
      }
    }
  }

  /** Every chain of an acyclic graph ends within |g| edges. */
  lemma ChainEnds(g: Graph, p: nat)
    requires Acyclic(g) && p < |g|
    ensures Walk(g, p, |g|).None?
  {
    if Walk(g, p, |g|).Some? {
      forall k | 0 <= k <= |g| ensures Walk(g, p, k).Some? {
        WalkPlus(g, p, k, |g| - k);
      }
      var s := seq(|g| + 1, k requires 0 <= k <= |g| => Walk(g, p, k).value);
      if Distinct(s) {
        DistinctBelow(s, |g|);
      } else {
        var i, j :| 0 <= i < j < |s| && s[i] == s[j];
        WalkPlus(g, p, i, j - i);
      }
      assert false;
    }
  }

  /** The least k from j on with Walk(g, p, k) == None. */
  function HeightFrom(g: Graph, p: nat, j: nat): (k: nat)
    requires Closed(g) && p < |g| && j <= |g| && Walk(g, p, |g|).None?
    ensures j <= k <= |g| && Walk(g, p, k).None?
    ensures forall i :: j <= i < k ==> Walk(g, p, i).Some?
    decreases |g| - j
  {
    if Walk(g, p, j).None? then j else HeightFrom(g, p, j + 1)
  }

  /** The number of edges on the chain from p. */
  ghost function Height(g: Graph, p: nat): nat
    requires Acyclic(g) && p < |g|
  {
    ChainEnds(g, p);
    HeightFrom(g, p, 0) - 1
  }

  lemma HeightStep(g: Graph, p: nat)
    requires Acyclic(g) && p < |g| && g[p].Some?
    ensures Height(g, g[p].value) < Height(g, p)
  {
    ChainEnds(g, p);
    ChainEnds(g, g[p].value);
    var h := HeightFrom(g, p, 0);
    assert Walk(g, p, h) == Walk(g, g[p].value, h - 1);
  }

  lemma AcyclicHasRank(g: Graph) returns (rank: seq<nat>)
    requires Acyclic(g)
    ensures Ranked(g, rank)
  {
    rank := seq(|g|, p requires 0 <= p < |g| => Height(g, p));
    forall p | 0 <= p < |g| && g[p].Some? ensures rank[g[p].value] < rank[p] {
      HeightStep(g, p);
    }
  }

  // ----------------------------------------------------------- changing the graph

  /** h keeps some of g's edges and has no others. */
  ghost predicate Subgraph(h: Graph, g: Graph) {
    |h| == |g| && forall p :: 0 <= p < |g| ==> h[p].None? || h[p] == g[p]
  }

  lemma SubgraphAcyclic(h: Graph, g: Graph)
    requires Acyclic(g) && Subgraph(h, g)
    ensures Acyclic(h)
  {
    var rank := AcyclicHasRank(g);
    RankedIsAcyclic(h, rank);
  }

  lemma ReachesStep(g: Graph, p: nat, c: nat)
    requires Closed(g) && p < |g| && g[p].Some? && p != c
    ensures Reaches(g, p, c) <==> Reaches(g, g[p].value, c)
  {
    if Reaches(g, p, c) {
      var k: nat :| Walk(g, p, k) == Some(c);
      assert Walk(g, g[p].value, k - 1) == Some(c);
    }
    if Reaches(g, g[p].value, c) {
      var k: nat :| Walk(g, g[p].value, k) == Some(c);
      assert Walk(g, p, k + 1) == Some(c);
    }
  }

  /** A waiting edge may be added exactly when it does not lead back. */
  lemma AddEdge(g: Graph, c: nat, d: nat)
    requires Acyclic(g) && c < |g| && d < |g| && g[c].None?
    ensures Acyclic(g[c := Some(d)]) <==> !Reaches(g, d, c)
  {
    var h := g[c := Some(d)];
    if Reaches(g, d, c) {
      var k: nat :| Walk(g, d, k) == Some(c);
      WalkUntil(g, h, d, c, k);
      assert Walk(h, c, k + 1) == Walk(h, d, k);
    } else {
      var rank := AcyclicHasRank(g);
      var up := rank[d] + 1;
      var rank' := seq(|g|, p requires 0 <= p < |g| => rank[p] + if Reaches(g, p, c) then up else 0);
      forall p | 0 <= p < |h| && h[p].Some? ensures rank'[h[p].value] < rank'[p] {
        if p == c {
          assert Walk(g, c, 0) == Some(c);
        } else {
          ReachesStep(g, p, c);
        }
      }
      RankedIsAcyclic(h, rank');
    }
  }

  /** A walk that ends at c without needing c's edge is the same in both graphs. */
  lemma {:induction false} WalkUntil(g: Graph, h: Graph, p: nat, c: nat, k: nat)
    requires Closed(g) && Closed(h) && p < |g| && c < |g| && g[c].None?
    requires |h| == |g| && h == g[c := h[c]]
    requires Walk(g, p, k) == Some(c)
    ensures Walk(h, p, k) == Some(c)
    decreases k
  {
    if k > 0 {
      WalkUntil(g, h, g[p].value, c, k - 1);
    }
  }

  /** Detaching nodes of no interest and adding an unreferenced one. */
  lemma FreshNode(g: Graph, p: nat, e: Option<nat>)
    requires Acyclic(g) && p < |g| && g[p].None? && (e.Some? ==> e.value < |g| && e.value != p)
    requires forall x :: 0 <= x < |g| ==> g[x] != Some(p)
    ensures Acyclic(g[p := e])
  {
    if e.Some? {
      if Reaches(g, e.value, p) {
        var k: nat :| Walk(g, e.value, k) == Some(p);
        NoWayIn(g, e.value, p, k);
      }
      AddEdge(g, p, e.value);
    } else {
      assert g[p := e] == g;
    }
  }

  lemma {:induction false} NoWayIn(g: Graph, x: nat, p: nat, k: nat)
    requires Closed(g) && x < |g| && x != p
    requires forall y :: 0 <= y < |g| ==> g[y] != Some(p)
    ensures Walk(g, x, k) != Some(p)
    decreases k
  {
    if k > 0 && g[x].Some? {
      NoWayIn(g, g[x].value, p, k - 1);
    }
  }
}
