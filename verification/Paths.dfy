/**
 * The search space: duplicate-free vertex paths, their one-vertex extensions, and the
 * multiset of paths a stack still stands for.
 */
module Paths {
  import opened Basics
  import opened Multisets
  import opened Matrices

  type Path = seq<int>

  /** What every stack entry is: non-empty, in range and duplicate-free. */
  predicate ValidPath(g: Matrix, p: Path) {
    p != [] && Below(p, g.size) && Distinct(p)
  }

  predicate ValidStack(g: Matrix, stack: seq<Path>) {
    forall i :: 0 <= i < |stack| ==> ValidPath(g, stack[i])
  }

  function Last(p: Path): int {
    if p == [] then -1 else p[|p| - 1]
  }

  /** `v` may be appended to `p`: it is a neighbour of the last vertex and not yet on the path. */
  predicate CanStep(g: Matrix, p: Path, v: int) {
    Edge(g, Last(p), v) && v !in p
  }

  lemma StepIsValid(g: Matrix, p: Path, v: int)
    requires ValidPath(g, p) && CanStep(g, p, v)
    ensures ValidPath(g, p + [v]) && |p| < g.size
  {
    LengthBound(g, p + [v]);
  }

  lemma LengthBound(g: Matrix, p: Path)
    requires ValidPath(g, p)
    ensures |p| <= g.size
  {
    OutsideOfList(p, g.size);
  }

  /** The extensions of `p` by a vertex below `v`, in the order in which they are pushed. */
  ghost function Extensions(g: Matrix, p: Path, v: nat): seq<Path> {
    if v == 0 then []
    else if CanStep(g, p, v - 1) then Extensions(g, p, v - 1) + [p + [v - 1]]
    else Extensions(g, p, v - 1)
  }

  lemma {:induction false} ExtensionsValid(g: Matrix, p: Path, v: nat)
    requires ValidPath(g, p)
    ensures ValidStack(g, Extensions(g, p, v))
  {
    if v > 0 {
      ExtensionsValid(g, p, v - 1);
      if CanStep(g, p, v - 1) {
        StepIsValid(g, p, v - 1);
      }
    }
  }

  /**
   * They are the path with one vertex more each: exactly the vertices that the last one has a
   * positive entry for and that are not on the path, in ascending order.
   */
  lemma {:induction false} ExtensionsAscend(g: Matrix, p: Path, v: nat)
    requires ValidPath(g, p) && v <= g.size
    ensures forall q :: q in Extensions(g, p, v) ==> q == p + [Last(q)] && Last(q) < v
    ensures forall i, j :: 0 <= i < j < |Extensions(g, p, v)| ==> Last(Extensions(g, p, v)[i]) < Last(Extensions(g, p, v)[j])
    ensures forall u :: 0 <= u < v ==> (p + [u] in Extensions(g, p, v) <==> g.cell[p[|p| - 1]][u] > 0 && u !in p)
  {
    if v > 0 {
      ExtensionsAscend(g, p, v - 1);
      var before := Extensions(g, p, v - 1);
      assert Last(p + [v - 1]) == v - 1;
      assert forall q :: q in before ==> Last(q) < v - 1;
      forall u | 0 <= u < v - 1 ensures p + [u] != p + [v - 1] {
        assert Last(p + [u]) == u;
      }
    }
  }

  // ---------- everything below a path ----------

  /** All paths that the search will visit because of `p`, with multiplicity. */
  ghost function Reach(g: Matrix, p: Path): multiset<Path>
    decreases g.size - |p|, g.size + 1
  {
    multiset{p} + ReachVia(g, p, g.size)
  }

  /** The part of it that continues with a vertex below `v`; a path on all vertices has none. */
  ghost function ReachVia(g: Matrix, p: Path, v: nat): multiset<Path>
    decreases g.size - |p|, v
  {
    if v == 0 || |p| >= g.size then multiset{}
    else if CanStep(g, p, v - 1) then ReachVia(g, p, v - 1) + Reach(g, p + [v - 1])
    else ReachVia(g, p, v - 1)
  }

  /** All paths a stack still stands for. */
  ghost function Pending(g: Matrix, stack: seq<Path>): multiset<Path> {
    if stack == [] then multiset{}
    else Pending(g, stack[..|stack| - 1]) + Reach(g, Top(stack))
  }

  ghost function Top(stack: seq<Path>): Path
    requires stack != []
  {
    stack[|stack| - 1]
  }

  lemma PendingPush(g: Matrix, stack: seq<Path>, p: Path)
    ensures Pending(g, stack + [p]) == Pending(g, stack) + Reach(g, p)
  {
    assert (stack + [p])[..|stack|] == stack;
  }

  lemma {:induction false} PendingConcat(g: Matrix, a: seq<Path>, b: seq<Path>)
    ensures Pending(g, a + b) == Pending(g, a) + Pending(g, b)
  {
    if b == [] {
      assert a + b == a;
    } else {
      var rest, p := b[..|b| - 1], Top(b);
      assert b == rest + [p];
      PendingConcat(g, a, rest);
      SeqAssoc(a, rest, [p]);
      PendingPush(g, a + rest, p);
      SumAssoc(Pending(g, a), Pending(g, rest), Reach(g, p));
    }
  }

  lemma {:induction false} ExtensionsReach(g: Matrix, p: Path, v: nat)
    requires ValidPath(g, p)
    ensures Pending(g, Extensions(g, p, v)) == ReachVia(g, p, v)
  {
    if v > 0 {
      ExtensionsReach(g, p, v - 1);
      if CanStep(g, p, v - 1) {
        StepIsValid(g, p, v - 1);
        PendingPush(g, Extensions(g, p, v - 1), p + [v - 1]);
      }
    }
  }

  lemma {:induction false} PendingEmpty(g: Matrix, stack: seq<Path>)
    ensures |Pending(g, stack)| >= |stack|
    ensures Pending(g, stack) == multiset{} <==> stack == []
  {
    if stack != [] {
      PendingEmpty(g, stack[..|stack| - 1]);
      assert Top(stack) in Reach(g, Top(stack));
    }
  }

  // ---------- the same set of paths, said without the search ----------

  /** `q` is a path that starts with `p` and goes on along edges to new vertices. */
  ghost predicate Extends(g: Matrix, p: Path, q: Path) {
    && ValidPath(g, p) && ValidPath(g, q)
    && p <= q
    && forall i :: |p| <= i < |q| ==> Edge(g, q[i - 1], q[i])
  }

  /** A simple directed path of the graph. */
  ghost predicate SimplePath(g: Matrix, q: Path) {
    ValidPath(g, q) && forall i :: 1 <= i < |q| ==> Edge(g, q[i - 1], q[i])
  }

  lemma ExtendsStep(g: Matrix, p: Path, v: int, q: Path)
    requires ValidPath(g, p) && CanStep(g, p, v)
    ensures Extends(g, p + [v], q) <==> Extends(g, p, q) && |q| > |p| && q[|p|] == v
  {
  }

  lemma ExtendsFirst(g: Matrix, p: Path, q: Path)
    requires Extends(g, p, q) && |q| > |p|
    ensures CanStep(g, p, q[|p|])
  {
  }

  lemma {:induction false} ReachIsExtends(g: Matrix, p: Path, q: Path)
    requires ValidPath(g, p)
    ensures Reach(g, p)[q] == if Extends(g, p, q) then 1 else 0
    decreases g.size - |p|, g.size + 1
  {
    ReachViaIsExtends(g, p, g.size, q);
    if Extends(g, p, q) && q != p {
      ExtendsFirst(g, p, q);
    }
  }

  lemma {:induction false} ReachViaIsExtends(g: Matrix, p: Path, v: nat, q: Path)
    requires ValidPath(g, p) && v <= g.size
    ensures ReachVia(g, p, v)[q] == if Extends(g, p, q) && |q| > |p| && q[|p|] < v then 1 else 0
    decreases g.size - |p|, v
  {
    if v > 0 {
      ReachViaIsExtends(g, p, v - 1, q);
      if CanStep(g, p, v - 1) {
        StepIsValid(g, p, v - 1);
        ReachIsExtends(g, p + [v - 1], q);
        ExtendsStep(g, p, v - 1, q);
      } else if Extends(g, p, q) && |q| > |p| {
        ExtendsFirst(g, p, q);
      }
    }
  }

  /** A stack stands for exactly the extensions of its entries. */
  lemma {:induction false} PendingIsExtends(g: Matrix, stack: seq<Path>, q: Path)
    requires ValidStack(g, stack)
    ensures q in Pending(g, stack) <==> exists i :: 0 <= i < |stack| && Extends(g, stack[i], q)
  {
    if stack != [] {
      var k := |stack| - 1;
      PendingIsExtends(g, stack[..k], q);
      ReachIsExtends(g, stack[k], q);
      if i :| 0 <= i < |stack| && Extends(g, stack[i], q) {
        if i < k {
          assert stack[..k][i] == stack[i];
        }
      }
    }
  }

  lemma {:induction false} PendingTwice(g: Matrix, stack: seq<Path>, i: nat, j: nat, q: Path)
    requires ValidStack(g, stack) && i < j < |stack|
    requires Extends(g, stack[i], q) && Extends(g, stack[j], q)
    ensures Pending(g, stack)[q] >= 2
  {
    var k := |stack| - 1;
    assert stack[..k][i] == stack[i];
    if j == k {
      ReachIsExtends(g, stack[k], q);
      PendingIsExtends(g, stack[..k], q);
    } else {
      assert stack[..k][j] == stack[j];
      PendingTwice(g, stack[..k], i, j, q);
    }
  }

  /** Two entries on the way to one path lie on the way to each other. */
  lemma ExtendsComparable(g: Matrix, a: Path, b: Path, q: Path)
    requires Extends(g, a, q) && Extends(g, b, q)
    ensures Extends(g, a, b) || Extends(g, b, a)
  {
  }

  /** No entry lies on the way to another one. */
  ghost predicate Separated(g: Matrix, stack: seq<Path>) {
    forall i, j :: 0 <= i < |stack| && 0 <= j < |stack| && i != j ==> !Extends(g, stack[i], stack[j])
  }

  lemma SeparatedTop(g: Matrix, rest: seq<Path>, p: Path, q: Path)
    requires ValidStack(g, rest + [p]) && Separated(g, rest + [p]) && Extends(g, p, q)
    ensures q !in Pending(g, rest)
  {
    var stack := rest + [p];
    assert forall i :: 0 <= i < |rest| ==> stack[i] == rest[i];
    assert stack[|rest|] == p;
    PendingIsExtends(g, rest, q);
    if i :| 0 <= i < |rest| && Extends(g, rest[i], q) {
      ExtendsComparable(g, stack[i], stack[|rest|], q);
      assert false;
    }
  }

  lemma {:induction false} SeparatedOnce(g: Matrix, stack: seq<Path>, q: Path)
    requires ValidStack(g, stack) && Separated(g, stack)
    ensures Pending(g, stack)[q] <= 1
  {
    if stack != [] {
      var rest, p := stack[..|stack| - 1], Top(stack);
      assert stack == rest + [p];
      SeparatedOnce(g, rest, q);
      ReachIsExtends(g, p, q);
      if Extends(g, p, q) {
        SeparatedTop(g, rest, p, q);
      }
    }
  }

  /** A stack stands for every path at most once exactly if no entry lies on the way to another. */
  lemma OnceIffSeparated(g: Matrix, stack: seq<Path>)
    requires ValidStack(g, stack)
    ensures (forall q :: Pending(g, stack)[q] <= 1) <==> Separated(g, stack)
  {
    if Separated(g, stack) {
      forall q ensures Pending(g, stack)[q] <= 1 {
        SeparatedOnce(g, stack, q);
      }
    } else {
      var i, j :| 0 <= i < |stack| && 0 <= j < |stack| && i != j && Extends(g, stack[i], stack[j]);
      assert Extends(g, stack[j], stack[j]);
      PendingTwice(g, stack, if i < j then i else j, if i < j then j else i, stack[j]);
    }
  }

  /** On simple paths "lies on the way" is just "is a prefix": the stack is prefix-free. */
  lemma SimplePrefix(g: Matrix, p: Path, q: Path)
    requires SimplePath(g, q) && p != []
    ensures Extends(g, p, q) <==> p <= q
  {
  }

  // ---------- the initial stack ----------

  /** What `PopulateStates` pushes: every one-vertex path below `n`. */
  function Singletons(n: nat): seq<Path> {
    seq(n, i => [i])
  }

  /** In ascending order, so that the search begins with the last vertex. */
  lemma SingletonsAscend(n: nat, rest: seq<Path>)
    ensures n > 0 ==> Top(rest + Singletons(n)) == [n - 1] && Singletons(n) == Singletons(n - 1) + [[n - 1]]
    ensures n == 0 ==> rest + Singletons(n) == rest
  {
  }

  /** Every simple path of the graph is pending exactly once, and nothing else is. */
  lemma PopulateCoversAll(g: Matrix, q: Path)
    ensures ValidStack(g, Singletons(g.size))
    ensures Pending(g, Singletons(g.size))[q] == if SimplePath(g, q) then 1 else 0
  {
    var s := Singletons(g.size);
    assert Separated(g, s) by {
      forall i, j | 0 <= i < |s| && 0 <= j < |s| && Extends(g, s[i], s[j])
        ensures i == j
      {
        assert s[i][0] == s[j][0];
      }
    }
    SeparatedOnce(g, s, q);
    PendingIsExtends(g, s, q);
    if SimplePath(g, q) {
      assert s[q[0]] == [q[0]] == q[..1];
      assert Extends(g, s[q[0]], q);
    }
  }

  /** The simple paths of the graph, each once. */
  ghost function AllPaths(g: Matrix): multiset<Path> {
    Pending(g, Singletons(g.size))
  }

  // ---------- how many ----------

  /** Size of a complete search tree: one path, and up to k branches below it. */
  function TreeSize(k: nat): nat {
    if k == 0 then 1 else 1 + k * TreeSize(k - 1)
  }

  lemma {:induction false} ReachSize(g: Matrix, p: Path)
    requires ValidPath(g, p)
    ensures |p| <= g.size && |Reach(g, p)| <= TreeSize(g.size - |p|)
    decreases g.size - |p|, g.size + 1
  {
    LengthBound(g, p);
    OutsideOfList(p, g.size);
    if |p| == g.size {
      assert ReachVia(g, p, g.size) == multiset{};
    } else {
      ReachViaSize(g, p, g.size);
    }
  }

  lemma {:induction false} ReachViaSize(g: Matrix, p: Path, v: nat)
    requires ValidPath(g, p) && |p| < g.size && v <= g.size
    ensures |ReachVia(g, p, v)| <= Outside(Elems(p), v) * TreeSize(g.size - |p| - 1)
    decreases g.size - |p|, v
  {
    if v > 0 {
      ReachViaSize(g, p, v - 1);
      NextMultiple(Outside(Elems(p), v - 1), TreeSize(g.size - |p| - 1));
      if CanStep(g, p, v - 1) {
        StepIsValid(g, p, v - 1);
        ReachSize(g, p + [v - 1]);
      }
    }
  }

  /** A stack's worst case: the sizes of the complete trees below its entries. */
  ghost function Measure(g: Matrix, stack: seq<Path>): nat {
    if stack == [] then 0
    else Measure(g, stack[..|stack| - 1]) + TreeBelow(g, Top(stack))
  }

  ghost function TreeBelow(g: Matrix, p: Path): nat {
    if |p| <= g.size then TreeSize(g.size - |p|) else 0
  }

  lemma MeasurePush(g: Matrix, stack: seq<Path>, p: Path)
    ensures Measure(g, stack + [p]) == Measure(g, stack) + TreeBelow(g, p)
  {
    assert (stack + [p])[..|stack|] == stack;
  }

  lemma {:induction false} MeasureConcat(g: Matrix, a: seq<Path>, b: seq<Path>)
    ensures Measure(g, a + b) == Measure(g, a) + Measure(g, b)
  {
    if b == [] {
      assert a + b == a;
    } else {
      var rest, p := b[..|b| - 1], Top(b);
      assert b == rest + [p];
      MeasureConcat(g, a, rest);
      SeqAssoc(a, rest, [p]);
      MeasurePush(g, a + rest, p);
    }
  }

  lemma {:induction false} ExtensionsMeasure(g: Matrix, p: Path, v: nat)
    requires ValidPath(g, p)
    ensures Measure(g, Extensions(g, p, v)) <= Outside(Elems(p), v) * if |p| < g.size then TreeSize(g.size - |p| - 1) else 0
  {
    if v > 0 {
      ExtensionsMeasure(g, p, v - 1);
      NextMultiple(Outside(Elems(p), v - 1), if |p| < g.size then TreeSize(g.size - |p| - 1) else 0);
      if CanStep(g, p, v - 1) {
        StepIsValid(g, p, v - 1);
        MeasurePush(g, Extensions(g, p, v - 1), p + [v - 1]);
      }
    }
  }

  /** Replacing a path by its extensions lowers the worst case. */
  lemma ExtendingLowers(g: Matrix, p: Path)
    requires ValidPath(g, p)
    ensures Measure(g, Extensions(g, p, g.size)) < TreeBelow(g, p)
  {
    LengthBound(g, p);
    OutsideOfList(p, g.size);
    ExtensionsMeasure(g, p, g.size);
  }

  lemma {:induction false} PendingSize(g: Matrix, stack: seq<Path>)
    requires ValidStack(g, stack)
    ensures |Pending(g, stack)| <= Measure(g, stack)
  {
    if stack != [] {
      PendingSize(g, stack[..|stack| - 1]);
      ReachSize(g, Top(stack));
    }
  }

  lemma {:induction false} PopulateMeasure(g: Matrix, k: nat)
    requires 1 <= g.size && k <= g.size
    ensures Measure(g, Singletons(k)) == k * TreeSize(g.size - 1)
  {
    if k > 0 {
      PopulateMeasure(g, k - 1);
      assert Singletons(k)[..k - 1] == Singletons(k - 1);
      NextMultiple(k - 1, TreeSize(g.size - 1));
    }
  }

  /** An n-vertex graph has at most n * T(n - 1) simple paths. */
  lemma PathCount(g: Matrix)
    requires 1 <= g.size
    ensures |AllPaths(g)| <= g.size * TreeSize(g.size - 1)
  {
    PopulateMeasure(g, g.size);
    PendingSize(g, Singletons(g.size));
  }

  // ---------- many stacks ----------

  /** Everything several stacks stand for together. */
  ghost function PendingAll(g: Matrix, ss: seq<seq<Path>>): multiset<Path> {
    if ss == [] then multiset{}
    else PendingAll(g, ss[..|ss| - 1]) + Pending(g, ss[|ss| - 1])
  }

  lemma PendingAllPush(g: Matrix, ss: seq<seq<Path>>, s: seq<Path>)
    ensures PendingAll(g, ss + [s]) == PendingAll(g, ss) + Pending(g, s)
  {
    assert (ss + [s])[..|ss|] == ss;
  }

  lemma {:induction false} PendingAllConcat(g: Matrix, a: seq<seq<Path>>, b: seq<seq<Path>>)
    ensures PendingAll(g, a + b) == PendingAll(g, a) + PendingAll(g, b)
  {
    if b == [] {
      assert a + b == a;
    } else {
      var rest, s := b[..|b| - 1], b[|b| - 1];
      assert b == rest + [s];
      PendingAllConcat(g, a, rest);
      SeqAssoc(a, rest, [s]);
      PendingAllPush(g, a + rest, s);
      SumAssoc(PendingAll(g, a), PendingAll(g, rest), Pending(g, s));
    }
  }

  /** Replacing one stack exchanges exactly its share. */
  lemma {:induction false} PendingAllUpdate(g: Matrix, ss: seq<seq<Path>>, i: nat, s: seq<Path>)
    requires i < |ss|
    ensures PendingAll(g, ss[i := s]) + Pending(g, ss[i]) == PendingAll(g, ss) + Pending(g, s)
  {
    var a, b := ss[..i], ss[i + 1..];
    assert ss == a + [ss[i]] + b;
    PendingAllMiddle(g, a, ss[i], b);
    assert ss[i := s] == a + [s] + b;
    PendingAllMiddle(g, a, s, b);
    SwapMiddle(PendingAll(g, a), Pending(g, s), PendingAll(g, b), Pending(g, ss[i]));
  }

  lemma PendingAllMiddle(g: Matrix, a: seq<seq<Path>>, s: seq<Path>, b: seq<seq<Path>>)
    ensures PendingAll(g, a + [s] + b) == PendingAll(g, a) + Pending(g, s) + PendingAll(g, b)
  {
    PendingAllPush(g, a, s);
    PendingAllConcat(g, a + [s], b);
  }

  lemma {:induction false} PendingAllMember(g: Matrix, ss: seq<seq<Path>>, q: Path)
    ensures q in PendingAll(g, ss) <==> exists s :: s in ss && q in Pending(g, s)
  {
    if ss != [] {
      var rest, s := ss[..|ss| - 1], ss[|ss| - 1];
      assert ss == rest + [s];
      PendingAllMember(g, rest, q);
      PendingAllPush(g, rest, s);
    }
  }
}
