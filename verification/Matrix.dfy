/** The weight matrix: neighbours of a vertex and the weight of a cut. */
module Matrices {
  import opened Basics

  /** An n x n matrix of `uint8_t` weights, read only once it is loaded. */
  datatype MatrixData = MatrixData(size: nat, cell: seq<seq<Byte>>) {
    predicate WellFormed() {
      |cell| == size && forall i :: 0 <= i < size ==> |cell[i]| == size
    }
  }

  type Matrix = m: MatrixData | m.WellFormed() witness MatrixData(0, [])

  predicate IsVertex(g: Matrix, v: int) {
    0 <= v < g.size
  }

  /** The entry of the matrix, and 0 outside of it. */
  function Weight(g: Matrix, u: int, v: int): Byte {
    if IsVertex(g, u) && IsVertex(g, v) then g.cell[u][v] else 0
  }

  predicate Edge(g: Matrix, u: int, v: int) {
    Weight(g, u, v) > 0
  }

  // ---------- the neighbour set ----------

  /** `Matrix::getNeigh`.  The program returns a `std::set`, which is iterated in ascending order. */
  method GetNeigh(g: Matrix, idx: int) returns (ret: seq<int>)
    requires IsVertex(g, idx)
    ensures forall v :: v in ret <==> Edge(g, idx, v)
    ensures forall v :: v in ret <==> 0 <= v < g.size && g.cell[idx][v] > 0
    ensures forall i, j :: 0 <= i < j < |ret| ==> ret[i] < ret[j]
  {
    ret := [];
    for i := 0 to g.size
      invariant forall v :: v in ret <==> Edge(g, idx, v) && v < i
      invariant forall k :: 0 <= k < |ret| ==> ret[k] < i
      invariant forall i, j :: 0 <= i < j < |ret| ==> ret[i] < ret[j]
    {
      if g.cell[idx][i] > 0 {
        ret := ret + [i];
      }
    }
  }

  // ---------- the weight of a vertex list ----------

  /** Weight from `t` to the vertices below `j` outside `s`. */
  ghost function RowOut(g: Matrix, t: int, s: set<int>, j: nat): nat {
    if j == 0 then 0 else RowOut(g, t, s, j - 1) + if j - 1 in s then 0 else Weight(g, t, j - 1)
  }

  /** The rows of a list of vertices, added up. */
  ghost function ListOut(g: Matrix, vs: seq<int>, s: set<int>): nat {
    if vs == [] then 0
    else ListOut(g, vs[..|vs| - 1], s) + RowOut(g, vs[|vs| - 1], s, g.size)
  }

  /** What the search compares: the list's outgoing weight in `uint32_t` arithmetic. */
  ghost function Score(g: Matrix, vs: seq<int>): UInt32 {
    ListOut(g, vs, Elems(vs)) % TWO_TO_32
  }

  /** `Matrix::sum`: for each vertex the mark array is rebuilt and the unmarked columns are added. */
  method Sum(g: Matrix, vertSet: seq<int>) returns (sum: Int32)
    requires Below(vertSet, g.size)
    ensures ToUInt32(sum) == Score(g, vertSet)
  {
    ghost var s := Elems(vertSet);
    var mySum: UInt32 := 0;
    var vertTemp := new int[g.size];
    for k := 0 to |vertSet|
      invariant mySum == ListOut(g, vertSet[..k], s) % TWO_TO_32
    {
      Mark(vertTemp, vertSet);
      ghost var before := ListOut(g, vertSet[..k], s);
      mySum := AddUnmarked(g, vertSet[k], vertTemp, mySum, s, before);
      assert vertSet[..k + 1][..k] == vertSet[..k];
    }
    assert vertSet[..|vertSet|] == vertSet;
    sum := ToInt32(mySum);
  }

  /** The two loops that set every mark to 1 and the marks of the list to 0. */
  method Mark(vertTemp: array<int>, vertSet: seq<int>)
    requires Below(vertSet, vertTemp.Length)
    modifies vertTemp
    ensures forall i :: 0 <= i < vertTemp.Length ==> vertTemp[i] == if i in vertSet then 0 else 1
  {
    for j := 0 to vertTemp.Length
      invariant forall i :: 0 <= i < j ==> vertTemp[i] == 1
    {
      vertTemp[j] := 1;
    }
    for m := 0 to |vertSet|
      invariant forall i :: 0 <= i < vertTemp.Length ==> vertTemp[i] == if i in vertSet[..m] then 0 else 1
    {
      assert vertSet[..m + 1] == vertSet[..m] + [vertSet[m]];
      vertTemp[vertSet[m]] := 0;
    }
    assert vertSet[..|vertSet|] == vertSet;
  }

  /** The loop that adds the marked columns of row `t`. */
  method AddUnmarked(g: Matrix, t: int, vertTemp: array<int>, start: UInt32, ghost s: set<int>, ghost before: nat)
    returns (mySum: UInt32)
    requires IsVertex(g, t) && vertTemp.Length == g.size
    requires forall i :: 0 <= i < g.size ==> vertTemp[i] == if i in s then 0 else 1
    requires start == before % TWO_TO_32
    ensures mySum == (before + RowOut(g, t, s, g.size)) % TWO_TO_32
  {
    mySum := start;
    for j := 0 to g.size
      invariant mySum == (before + RowOut(g, t, s, j)) % TWO_TO_32
    {
      if vertTemp[j] != 0 {
        AddModulo(before + RowOut(g, t, s, j), g.cell[t][j]);
        mySum := (mySum + g.cell[t][j]) % TWO_TO_32;
      }
    }
  }

  lemma AddModulo(x: nat, y: nat)
    ensures (x % TWO_TO_32 + y) % TWO_TO_32 == (x + y) % TWO_TO_32
  {
  }

  // ---------- the mathematical cut ----------

  /** Rows of the vertices of `a` below `i`, each to the outside of `s`. */
  ghost function CutRows(g: Matrix, a: set<int>, s: set<int>, i: nat): nat {
    if i == 0 then 0
    else CutRows(g, a, s, i - 1) + if i - 1 in a then RowOut(g, i - 1, s, g.size) else 0
  }

  /** The weight of the edges from `s` to its complement. */
  ghost function CutWeight(g: Matrix, s: set<int>): nat {
    CutRows(g, s, s, g.size)
  }

  lemma {:induction false} CutRowsAdd(g: Matrix, a: set<int>, t: int, s: set<int>, i: nat)
    requires 0 <= t && t !in a
    ensures CutRows(g, a + {t}, s, i) == CutRows(g, a, s, i) + if t < i then RowOut(g, t, s, g.size) else 0
  {
    if i > 0 {
      CutRowsAdd(g, a, t, s, i - 1);
    }
  }

  lemma {:induction false} CutRowsEmpty(g: Matrix, s: set<int>, i: nat)
    ensures CutRows(g, {}, s, i) == 0
  {
    if i > 0 {
      CutRowsEmpty(g, s, i - 1);
    }
  }

  lemma {:induction false} ListIsRows(g: Matrix, vs: seq<int>, s: set<int>)
    requires Below(vs, g.size) && Distinct(vs)
    ensures ListOut(g, vs, s) == CutRows(g, Elems(vs), s, g.size)
  {
    if vs == [] {
      assert Elems(vs) == {};
      CutRowsEmpty(g, s, g.size);
    } else {
      var rest, t := vs[..|vs| - 1], vs[|vs| - 1];
      ListIsRows(g, rest, s);
      assert vs == rest + [t];
      assert Elems(vs) == Elems(rest) + {t};
      CutRowsAdd(g, Elems(rest), t, s, g.size);
    }
  }

  /** On a duplicate-free list the program adds up exactly the cut of the list's vertex set. */
  lemma SumIsCut(g: Matrix, vs: seq<int>)
    requires Below(vs, g.size) && Distinct(vs)
    ensures ListOut(g, vs, Elems(vs)) == CutWeight(g, Elems(vs))
    ensures Score(g, vs) == CutWeight(g, Elems(vs)) % TWO_TO_32
  {
    ListIsRows(g, vs, Elems(vs));
  }

  /** The order of the vertices does not matter. */
  lemma SumIgnoresOrder(g: Matrix, vs: seq<int>, us: seq<int>)
    requires Below(vs, g.size) && Distinct(vs) && Below(us, g.size) && Distinct(us)
    requires Elems(vs) == Elems(us)
    ensures Score(g, vs) == Score(g, us)
  {
    SumIsCut(g, vs);
    SumIsCut(g, us);
  }

  // ---------- which entries a cut counts ----------

  function WithEntry(g: Matrix, u: nat, v: nat, w: Byte): Matrix
    requires u < g.size && v < g.size
  {
    var row: seq<Byte> := g.cell[u][v := w];
    MatrixData(g.size, g.cell[u := row])
  }

  lemma {:induction false} EntryInRow(g: Matrix, u: nat, v: nat, w: Byte, t: int, s: set<int>, j: nat)
    requires u < g.size && v < g.size
    ensures RowOut(WithEntry(g, u, v, w), t, s, j)
         == RowOut(g, t, s, j) + if t == u && v < j && v !in s then w - g.cell[u][v] else 0
  {
    if j > 0 {
      EntryInRow(g, u, v, w, t, s, j - 1);
    }
  }

  lemma {:induction false} EntryInRows(g: Matrix, u: nat, v: nat, w: Byte, a: set<int>, s: set<int>, i: nat)
    requires u < g.size && v < g.size
    ensures CutRows(WithEntry(g, u, v, w), a, s, i)
         == CutRows(g, a, s, i) + if u in a && u < i && v !in s then w - g.cell[u][v] else 0
  {
    if i > 0 {
      EntryInRows(g, u, v, w, a, s, i - 1);
      EntryInRow(g, u, v, w, i - 1, s, g.size);
    }
  }

  /** A cut counts an entry once if it leads from a vertex of the set to one outside, and else not at all. */
  lemma EntryCounts(g: Matrix, u: nat, v: nat, w: Byte, s: set<int>)
    requires u < g.size && v < g.size
    ensures CutWeight(WithEntry(g, u, v, w), s)
         == CutWeight(g, s) + if u in s && v !in s then w - g.cell[u][v] else 0
  {
    EntryInRows(g, u, v, w, s, s, g.size);
  }

  lemma {:induction false} ZeroRows(g: Matrix, a: set<int>, s: set<int>, i: nat)
    requires forall u, v :: Weight(g, u, v) == 0
    ensures CutRows(g, a, s, i) == 0
  {
    if i > 0 {
      ZeroRows(g, a, s, i - 1);
      ZeroRow(g, i - 1, s, g.size);
    }
  }

  lemma {:induction false} ZeroRow(g: Matrix, t: int, s: set<int>, j: nat)
    requires forall u, v :: Weight(g, u, v) == 0
    ensures RowOut(g, t, s, j) == 0
  {
    if j > 0 {
      ZeroRow(g, t, s, j - 1);
    }
  }

  /** Together with this the previous lemma says what every cut of every matrix is. */
  lemma ZeroCut(g: Matrix, s: set<int>)
    requires forall u, v :: Weight(g, u, v) == 0
    ensures CutWeight(g, s) == 0
  {
    ZeroRows(g, s, s, g.size);
  }

  // ---------- the size of a cut and the 32-bit result ----------

  lemma {:induction false} RowBound(g: Matrix, t: int, s: set<int>, j: nat)
    ensures RowOut(g, t, s, j) <= 255 * Outside(s, j)
  {
    if j > 0 {
      RowBound(g, t, s, j - 1);
    }
  }

  lemma {:induction false} ListBound(g: Matrix, vs: seq<int>, s: set<int>)
    ensures ListOut(g, vs, s) <= 255 * (|vs| * Outside(s, g.size))
  {
    if vs != [] {
      var k := |vs| - 1;
      ListBound(g, vs[..k], s);
      RowBound(g, vs[k], s, g.size);
      NextMultiple(k, Outside(s, g.size));
    }
  }

  /** k vertices of n cut at most 255 k (n - k). */
  lemma CutBound(g: Matrix, vs: seq<int>)
    requires Below(vs, g.size) && Distinct(vs)
    ensures ListOut(g, vs, Elems(vs)) <= 255 * (|vs| * (g.size - |vs|))
  {
    ListBound(g, vs, Elems(vs));
    OutsideOfList(vs, g.size);
  }

  lemma SquareMonotone(x: nat, y: nat)
    requires x <= y
    ensures x * x <= y * y
  {
  }

  lemma FourProducts(k: int, m: int)
    ensures 4 * (k * m) <= (k + m) * (k + m)
  {
    assert (k + m) * (k + m) == k * k + 2 * (k * m) + m * m;
    assert (k - m) * (k - m) == k * k - 2 * (k * m) + m * m;
    assert (k - m) * (k - m) >= 0;
  }

  lemma ProductBound(k: int, n: nat)
    ensures n <= 5803 ==> 255 * (k * (n - k)) < TWO_TO_31
    ensures n <= 8208 ==> 255 * (k * (n - k)) < TWO_TO_32
  {
    FourProducts(k, n - k);
    if n <= 5803 {
      SquareMonotone(n, 5803);
    } else if n <= 8208 {
      SquareMonotone(n, 8208);
    }
  }

  /** The matrix of size n whose entries are all 255, and the list of its first k vertices. */
  function Full(n: nat): Matrix {
    MatrixData(n, seq(n, i => seq(n, j => 255)))
  }

  function FirstVertices(k: nat): seq<int> {
    seq(k, i => i)
  }

  lemma {:induction false} FullRow(n: nat, t: int, k: nat, j: nat)
    requires 0 <= t < n && k <= n && j <= n
    ensures RowOut(Full(n), t, Elems(FirstVertices(k)), j) == if j <= k then 0 else 255 * (j - k)
  {
    if j > 0 {
      FullRow(n, t, k, j - 1);
      assert j - 1 < k ==> FirstVertices(k)[j - 1] == j - 1;
    }
  }

  lemma {:induction false} FullCut(n: nat, k: nat, m: nat)
    requires m <= k <= n
    ensures ListOut(Full(n), FirstVertices(m), Elems(FirstVertices(k))) == 255 * (m * (n - k))
  {
    if m > 0 {
      FullCut(n, k, m - 1);
      assert FirstVertices(m)[..m - 1] == FirstVertices(m - 1);
      FullRow(n, m - 1, k, n);
      NextMultiple(m - 1, n - k);
    }
  }

  /** Every vertex list of every matrix of size n weighs less than `limit` ... */
  ghost predicate AlwaysBelow(n: nat, limit: int) {
    forall g: Matrix, vs: seq<int> | g.size == n && Below(vs, n) && Distinct(vs) ::
      ListOut(g, vs, Elems(vs)) < limit
  }

  lemma SomeListReaches(n: nat, k: nat, limit: int)
    requires k <= n && 255 * (k * (n - k)) >= limit
    ensures !AlwaysBelow(n, limit)
  {
    FullCut(n, k, k);
    assert Below(FirstVertices(k), Full(n).size) && Distinct(FirstVertices(k));
  }

  /** ... 2^31, as the returned `int32_t` should, exactly up to n = 5803 ... */
  lemma FitsExactly(n: nat)
    ensures AlwaysBelow(n, TWO_TO_31) <==> n <= 5803
  {
    if n <= 5803 {
      forall g: Matrix, vs: seq<int> | g.size == n && Below(vs, n) && Distinct(vs)
        ensures ListOut(g, vs, Elems(vs)) < TWO_TO_31
      {
        CutBound(g, vs);
        ProductBound(|vs|, n);
      }
    } else {
      SomeListReaches(n, 2902, TWO_TO_31);
    }
  }

  /** ... and 2^32, as the compared `uint32_t` should, exactly up to n = 8208. */
  lemma ComparesExactly(n: nat)
    ensures AlwaysBelow(n, TWO_TO_32) <==> n <= 8208
  {
    if n <= 8208 {
      forall g: Matrix, vs: seq<int> | g.size == n && Below(vs, n) && Distinct(vs)
        ensures ListOut(g, vs, Elems(vs)) < TWO_TO_32
      {
        CutBound(g, vs);
        ProductBound(|vs|, n);
      }
    } else {
      SomeListReaches(n, 4104, TWO_TO_32);
    }
  }

  /** Hence up to 8208 vertices the compared value is the cut itself; up to 5803 it is below 2^31. */
  lemma ScoreIsCut(g: Matrix, vs: seq<int>)
    requires Below(vs, g.size) && Distinct(vs) && g.size <= 8208
    ensures Score(g, vs) == CutWeight(g, Elems(vs))
    ensures g.size <= 5803 ==> Score(g, vs) < TWO_TO_31
  {
    SumIsCut(g, vs);
    ComparesExactly(g.size);
    FitsExactly(g.size);
  }

  // ---------- a set and its complement ----------

  ghost predicate Symmetric(g: Matrix) {
    forall u, v :: Weight(g, u, v) == Weight(g, v, u)
  }

  /** Rows 0..i and columns 0..j of the cut, row by row. */
  ghost function CutBlock(g: Matrix, a: set<int>, s: set<int>, i: nat, j: nat): nat {
    if i == 0 then 0
    else CutBlock(g, a, s, i - 1, j) + if i - 1 in a then RowOut(g, i - 1, s, j) else 0
  }

  /** Column `j` of that block. */
  ghost function ColumnIn(g: Matrix, a: set<int>, i: nat, j: nat): nat {
    if i == 0 then 0 else ColumnIn(g, a, i - 1, j) + if i - 1 in a then Weight(g, i - 1, j) else 0
  }

  lemma {:induction false} BlockIsRows(g: Matrix, a: set<int>, s: set<int>, i: nat)
    ensures CutBlock(g, a, s, i, g.size) == CutRows(g, a, s, i)
  {
    if i > 0 {
      BlockIsRows(g, a, s, i - 1);
    }
  }

  lemma {:induction false} BlockColumn(g: Matrix, a: set<int>, s: set<int>, i: nat, j: nat)
    ensures CutBlock(g, a, s, i, j + 1)
         == CutBlock(g, a, s, i, j) + if j in s then 0 else ColumnIn(g, a, i, j)
  {
    if i > 0 {
      BlockColumn(g, a, s, i - 1, j);
    }
  }

  lemma {:induction false} BlockEmpty(g: Matrix, a: set<int>, s: set<int>, i: nat)
    ensures CutBlock(g, a, s, i, 0) == 0
  {
    if i > 0 {
      BlockEmpty(g, a, s, i - 1);
    }
  }

  ghost function Complement(g: Matrix, s: set<int>): set<int> {
    set v | 0 <= v < g.size && v !in s
  }

  lemma {:induction false} ColumnIsRow(g: Matrix, s: set<int>, i: nat, j: nat)
    requires Symmetric(g) && i <= g.size && j < g.size
    ensures ColumnIn(g, s, i, j) == RowOut(g, j, Complement(g, s), i)
  {
    if i > 0 {
      ColumnIsRow(g, s, i - 1, j);
    }
  }

  lemma {:induction false} BlockTransposed(g: Matrix, s: set<int>, j: nat)
    requires Symmetric(g) && j <= g.size
    ensures CutBlock(g, s, s, g.size, j) == CutRows(g, Complement(g, s), Complement(g, s), j)
  {
    if j == 0 {
      BlockEmpty(g, s, s, g.size);
    } else {
      BlockTransposed(g, s, j - 1);
      BlockColumn(g, s, s, g.size, j - 1);
      ColumnIsRow(g, s, g.size, j - 1);
    }
  }

  /** In an undirected graph a vertex set and its complement have the same cut. */
  lemma ComplementCut(g: Matrix, s: set<int>)
    requires Symmetric(g)
    ensures CutWeight(g, s) == CutWeight(g, Complement(g, s))
  {
    BlockIsRows(g, s, s, g.size);
    BlockTransposed(g, s, g.size);
  }
}
