/** How the optimum over simple paths relates to the maximum cut over all vertex sets. */
module TrueMaximumCuts {
  import opened Basics
  import opened Matrices
  import opened Paths
  import opened MaximumCuts

  ghost predicate VertexSet(g: Matrix, s: set<int>) {
    forall v :: v in s ==> IsVertex(g, v)
  }

  /** `w` is the greatest cut over all sets of vertices. */
  ghost predicate IsMaximumCut(g: Matrix, w: int) {
    && (forall s | VertexSet(g, s) :: CutWeight(g, s) <= w)
    && (exists s :: VertexSet(g, s) && CutWeight(g, s) == w)
  }

  /** The vertices of `s` can be lined up as a simple path. */
  ghost predicate Traceable(g: Matrix, s: set<int>) {
    exists q :: SimplePath(g, q) && Elems(q) == s
  }

  /** The search never reports a value that is not the weight of a vertex cut. */
  lemma OptimumIsACut(g: Matrix, v: int)
    requires g.size <= 8208 && IsOptimum(g, v)
    ensures exists s :: VertexSet(g, s) && Traceable(g, s) && CutWeight(g, s) == v
  {
    var q :| SimplePath(g, q) && Score(g, q) == v;
    ScoreIsCut(g, q);
    assert VertexSet(g, Elems(q));
  }

  /** It never exceeds the maximum cut, and meets it exactly if some maximum cut is traceable. */
  lemma OptimumVersusMaximum(g: Matrix, v: int, w: int)
    requires g.size <= 8208 && IsOptimum(g, v) && IsMaximumCut(g, w)
    ensures v <= w
    ensures v == w <==> exists s :: Traceable(g, s) && CutWeight(g, s) == w
  {
    OptimumIsACut(g, v);
    if s :| Traceable(g, s) && CutWeight(g, s) == w {
      var q :| SimplePath(g, q) && Elems(q) == s;
      ScoreIsCut(g, q);
    }
  }

  // ---------- where every set can be lined up ----------

  /** Any two vertices are joined by an edge, in one direction at least. */
  ghost predicate PairwiseJoined(g: Matrix) {
    forall u, v | IsVertex(g, u) && IsVertex(g, v) && u != v :: Edge(g, u, v) || Edge(g, v, u)
  }

  /** A vertex joined with every vertex of a path fits in before the first one that it has an edge to. */
  lemma InsertVertex(g: Matrix, q: Path, x: int) returns (r: Path)
    requires PairwiseJoined(g) && SimplePath(g, q) && IsVertex(g, x) && x !in q
    ensures SimplePath(g, r) && Elems(r) == Elems(q) + {x}
  {
    var i := 0;
    while i < |q| && !Edge(g, x, q[i])
      invariant i <= |q|
      invariant i > 0 ==> !Edge(g, x, q[i - 1])
    {
      i := i + 1;
    }
    r := q[..i] + [x] + q[i..];
    assert i > 0 ==> Edge(g, q[i - 1], x);
    forall k | 1 <= k < |r| ensures Edge(g, r[k - 1], r[k]) {
      assert k < i ==> r[k - 1] == q[k - 1] && r[k] == q[k];
      assert k > i + 1 ==> r[k - 1] == q[k - 2] && r[k] == q[k - 1];
    }
  }

  lemma {:induction false} LinedUp(g: Matrix, s: set<int>) returns (q: Path)
    requires PairwiseJoined(g) && VertexSet(g, s) && s != {}
    ensures SimplePath(g, q) && Elems(q) == s
    decreases |s|
  {
    var order := Ordering(s);
    assert order != [] by {
      assert order == [] ==> Elems(order) == {};
    }
    var x := order[0];
    assert x in Elems(order);
    if s == {x} {
      q := [x];
    } else {
      var rest := LinedUp(g, s - {x});
      assert x !in Elems(rest);
      q := InsertVertex(g, rest, x);
    }
  }

  /** Every set of vertices can be lined up exactly if any two vertices are joined. */
  lemma AllTraceable(g: Matrix)
    ensures (forall s | VertexSet(g, s) && s != {} :: Traceable(g, s)) <==> PairwiseJoined(g)
  {
    if PairwiseJoined(g) {
      forall s | VertexSet(g, s) && s != {} ensures Traceable(g, s) {
        var q := LinedUp(g, s);
      }
    } else {
      var u, v :| IsVertex(g, u) && IsVertex(g, v) && u != v && !Edge(g, u, v) && !Edge(g, v, u);
      PairNotTraceable(g, u, v);
    }
  }

  lemma PairNotTraceable(g: Matrix, u: int, v: int)
    requires IsVertex(g, u) && IsVertex(g, v) && u != v && !Edge(g, u, v) && !Edge(g, v, u)
    ensures VertexSet(g, {u, v}) && {u, v} != {} && !Traceable(g, {u, v})
  {
    assert u in {u, v} && v in {u, v};
    forall q | SimplePath(g, q) ensures Elems(q) != {u, v} {
      assert q[0] in Elems(q);
      assert |q| > 1 ==> Edge(g, q[0], q[1]) && q[1] in Elems(q);
      assert |q| == 1 ==> forall x :: x in Elems(q) ==> x == q[0];
    }
  }

  /** There the search result is the maximum cut. */
  lemma JoinedGraph(g: Matrix, v: int)
    requires 1 <= g.size <= 8208 && PairwiseJoined(g) && IsOptimum(g, v)
    ensures IsMaximumCut(g, v)
  {
    OptimumIsACut(g, v);
    forall s | VertexSet(g, s)
      ensures CutWeight(g, s) <= v
    {
      if s == {} {
        CutRowsEmpty(g, s, g.size);
      } else {
        var q := LinedUp(g, s);
        ScoreIsCut(g, q);
      }
    }
  }

  /** End to end: the sequential search on such a matrix computes the maximum cut. */
  lemma SearchFindsMaximumCut(g: Matrix, k: nat)
    requires 1 <= g.size <= 8208 && PairwiseJoined(g) && k >= g.size * TreeSize(g.size - 1)
    ensures After(g, Start(g), k).stack == [] && IsMaximumCut(g, After(g, Start(g), k).best)
  {
    SequentialSearch(g, k);
    JoinedGraph(g, After(g, Start(g), k).best);
  }

  // ---------- and not in general ----------

  /** Two separate edges, 0 - 1 and 2 - 3. */
  const TWO_EDGES: Matrix := MatrixData(4, [[0, 1, 0, 0], [1, 0, 0, 0], [0, 0, 0, 1], [0, 0, 1, 0]])

  function Partner(v: int): int {
    if v == 0 then 1 else if v == 1 then 0 else if v == 2 then 3 else 2
  }

  lemma TwoEdgesWeight(u: int, v: int)
    ensures Weight(TWO_EDGES, u, v) == if 0 <= u < 4 && v == Partner(u) then 1 else 0
  {
  }

  lemma TwoEdgesRow(t: int, s: set<int>)
    requires 0 <= t < 4
    ensures RowOut(TWO_EDGES, t, s, 4) == if Partner(t) in s then 0 else 1
  {
    TwoEdgesWeight(t, 0);
    TwoEdgesWeight(t, 1);
    TwoEdgesWeight(t, 2);
    TwoEdgesWeight(t, 3);
    assert RowOut(TWO_EDGES, t, s, 1) == if 0 in s then 0 else Weight(TWO_EDGES, t, 0);
    assert RowOut(TWO_EDGES, t, s, 2) == RowOut(TWO_EDGES, t, s, 1) + if 1 in s then 0 else Weight(TWO_EDGES, t, 1);
    assert RowOut(TWO_EDGES, t, s, 3) == RowOut(TWO_EDGES, t, s, 2) + if 2 in s then 0 else Weight(TWO_EDGES, t, 2);
  }

  lemma TwoEdgesNeighbour(q: Path, i: nat)
    requires SimplePath(TWO_EDGES, q) && 1 <= i < |q|
    ensures q[i] == Partner(q[i - 1])
  {
    assert Edge(TWO_EDGES, q[i - 1], q[i]);
  }

  lemma TwoEdgesPaths(q: Path)
    requires SimplePath(TWO_EDGES, q)
    ensures Score(TWO_EDGES, q) == if |q| == 1 then 1 else 0
  {
    var s := Elems(q);
    assert ListOut(TWO_EDGES, [], s) == 0;
    assert q[..1][..0] == [];
    TwoEdgesRow(q[0], s);
    assert ListOut(TWO_EDGES, q[..1], s) == RowOut(TWO_EDGES, q[0], s, 4);
    if |q| == 1 {
      assert q[..1] == q;
      assert s == {q[0]};
    } else {
      TwoEdgesNeighbour(q, 1);
      if |q| > 2 {
        TwoEdgesNeighbour(q, 2);
        assert false;
      }
      assert q[1] in s && q[0] in s;
      TwoEdgesRow(q[1], s);
      assert q[..|q| - 1] == q[..1];
    }
  }

  /** There the search stops at 1, although {0, 2} cuts 2: no cut of weight 2 is traceable. */
  lemma NotAlwaysMaximum()
    ensures IsOptimum(TWO_EDGES, 1)
    ensures VertexSet(TWO_EDGES, {0, 2}) && CutWeight(TWO_EDGES, {0, 2}) == 2
    ensures !IsMaximumCut(TWO_EDGES, 1)
  {
    forall q | SimplePath(TWO_EDGES, q) ensures Score(TWO_EDGES, q) <= 1 {
      TwoEdgesPaths(q);
    }
    var one: Path := [0];
    assert SimplePath(TWO_EDGES, one);
    TwoEdgesPaths(one);
    var s := {0, 2};
    TwoEdgesRow(0, s);
    TwoEdgesRow(2, s);
    var q := [0, 2];
    assert Elems(q) == s;
    assert q[..1] == [0] && q[..1][..0] == [];
    assert ListOut(TWO_EDGES, [], s) == 0;
    assert ListOut(TWO_EDGES, [0], s) == 1;
    SumIsCut(TWO_EDGES, q);
  }
}
