/** The bounded-quantum depth-first search over simple paths. */
module MaximumCuts {
  import opened Basics
  import opened Multisets
  import opened Matrices
  import opened Paths
  import opened ParallelStacks

  /** The two fields that the search updates: the stack and the best value so far. */
  datatype Search = Search(stack: seq<Path>, best: UInt32)

  /** One round of the loop: the top path is replaced by its extensions and scored. */
  ghost function Pop(g: Matrix, s: Search): Search {
    if s.stack == [] then s
    else
      var p := Top(s.stack);
      Search(s.stack[..|s.stack| - 1] + Extensions(g, p, g.size),
             if Score(g, p) > s.best then Score(g, p) else s.best)
  }

  /**
   * The entries below the popped path stay; above them come its extensions by one new neighbour of
   * its last vertex each, the largest one on top.
   */
  lemma PoppedStack(g: Matrix, s: Search) returns (above: seq<Path>)
    requires ValidStack(g, s.stack) && s.stack != []
    ensures Pop(g, s).stack == s.stack[..|s.stack| - 1] + above
    ensures forall q :: q in above ==> q == s.stack[|s.stack| - 1] + [Last(q)] && Last(q) < g.size
    ensures forall i, j :: 0 <= i < j < |above| ==> Last(above[i]) < Last(above[j])
    ensures var p := s.stack[|s.stack| - 1];
            forall v :: 0 <= v < g.size ==> (p + [v] in above <==> g.cell[p[|p| - 1]][v] > 0 && v !in p)
  {
    var p := s.stack[|s.stack| - 1];
    ExtensionsAscend(g, p, g.size);
    above := Extensions(g, p, g.size);
  }

  /** `k` rounds; an empty stack stays as it is. */
  ghost function After(g: Matrix, s: Search, k: nat): Search
    decreases k, s.best  // `s.best` only keeps calls with a constant `k` from being unfolded
  {
    if k == 0 then s else After(g, Pop(g, s), k - 1)
  }

  /** The paths that the first `k` rounds pop. */
  ghost function Visited(g: Matrix, s: Search, k: nat): multiset<Path>
    decreases k, s.best  // `s.best` only keeps calls with a constant `k` from being unfolded
  {
    if k == 0 || s.stack == [] then multiset{}
    else multiset{Top(s.stack)} + Visited(g, Pop(g, s), k - 1)
  }

  lemma {:induction false} AfterSum(g: Matrix, s: Search, a: nat, b: nat)
    ensures After(g, After(g, s, a), b) == After(g, s, a + b)
    decreases a
  {
    if a > 0 {
      AfterSum(g, Pop(g, s), a - 1, b);
    }
  }

  lemma AfterNext(g: Matrix, s: Search, k: nat)
    ensures After(g, s, k + 1) == Pop(g, After(g, s, k))
  {
    AfterSum(g, s, k, 1);
    assert After(g, Pop(g, After(g, s, k)), 0) == Pop(g, After(g, s, k));
  }

  lemma {:induction false} AfterEmpty(g: Matrix, s: Search, k: nat)
    requires s.stack == []
    ensures After(g, s, k) == s
  {
    if k > 0 {
      AfterEmpty(g, s, k - 1);
    }
  }

  lemma PopValid(g: Matrix, s: Search)
    requires ValidStack(g, s.stack)
    ensures ValidStack(g, Pop(g, s).stack)
  {
    if s.stack != [] {
      ExtensionsValid(g, Top(s.stack), g.size);
    }
  }

  lemma {:induction false} AfterValid(g: Matrix, s: Search, k: nat)
    requires ValidStack(g, s.stack)
    ensures ValidStack(g, After(g, s, k).stack)
    decreases k
  {
    if k > 0 {
      PopValid(g, s);
      AfterValid(g, Pop(g, s), k - 1);
    }
  }

  // ---------- each pop takes exactly one path out of the pending ones ----------

  lemma PopTakesOne(g: Matrix, s: Search)
    requires ValidStack(g, s.stack) && s.stack != []
    ensures Pending(g, s.stack) == Pending(g, Pop(g, s).stack) + multiset{Top(s.stack)}
  {
    var rest, p := s.stack[..|s.stack| - 1], Top(s.stack);
    ExtensionsReach(g, p, g.size);
    PendingConcat(g, rest, Extensions(g, p, g.size));
    TakeOne(Pending(g, rest), p, ReachVia(g, p, g.size));
  }

  /** Exactly once: what was popped and what is pending always add up to what was there. */
  lemma VisitedPlusPending(g: Matrix, s: Search, k: nat)
    requires ValidStack(g, s.stack)
    ensures Visited(g, s, k) + Pending(g, After(g, s, k).stack) == Pending(g, s.stack)
  {
    var t, visited, i := s, multiset{}, 0;
    while i < k && t.stack != []
      invariant 0 <= i <= k && ValidStack(g, t.stack)
      invariant After(g, t, k - i) == After(g, s, k)
      invariant visited + Visited(g, t, k - i) == Visited(g, s, k)
      invariant visited + Pending(g, t.stack) == Pending(g, s.stack)
    {
      var u := Pop(g, t);
      PopTakesOne(g, t);
      PopValid(g, t);
      MoveOne(visited, multiset{Top(t.stack)}, Pending(g, u.stack), Pending(g, s.stack));
      SumAssoc(visited, multiset{Top(t.stack)}, Visited(g, u, k - i - 1));
      visited := visited + multiset{Top(t.stack)};
      t, i := u, i + 1;
    }
    AfterEmptyOrDone(g, t, k - i);
  }

  lemma AfterEmptyOrDone(g: Matrix, t: Search, k: nat)
    requires k == 0 || t.stack == []
    ensures After(g, t, k) == t && Visited(g, t, k) == multiset{}
  {
  }

  lemma {:induction false} VisitedSize(g: Matrix, s: Search, k: nat)
    ensures |Visited(g, s, k)| <= k
    ensures After(g, s, k).stack != [] ==> |Visited(g, s, k)| == k
    decreases k
  {
    if s.stack == [] {
      AfterEmpty(g, s, k);
    } else if k > 0 {
      VisitedSize(g, Pop(g, s), k - 1);
    }
  }

  /** The number of pops is known beforehand: the stack is empty exactly after |Pending| of them. */
  lemma PopsLeft(g: Matrix, s: Search, k: nat)
    requires ValidStack(g, s.stack)
    ensures |Pending(g, After(g, s, k).stack)|
         == if k <= |Pending(g, s.stack)| then |Pending(g, s.stack)| - k else 0
    ensures After(g, s, k).stack == [] <==> k >= |Pending(g, s.stack)|
  {
    VisitedPlusPending(g, s, k);
    VisitedSize(g, s, k);
    PendingEmpty(g, After(g, s, k).stack);
  }

  /** Every pop also lowers the worst case that the path lengths alone allow. */
  lemma PopLowersMeasure(g: Matrix, s: Search)
    requires ValidStack(g, s.stack) && s.stack != []
    ensures Measure(g, Pop(g, s).stack) < Measure(g, s.stack)
  {
    var rest, p := s.stack[..|s.stack| - 1], Top(s.stack);
    MeasureConcat(g, rest, Extensions(g, p, g.size));
    ExtendingLowers(g, p);
  }

  // ---------- the best value ----------

  /** `v` is the largest of `base` and the scores of the paths in `m`. */
  ghost predicate IsMax(g: Matrix, v: int, base: int, m: multiset<Path>) {
    && base <= v
    && (forall q | q in m :: Score(g, q) <= v)
    && (v == base || exists q :: q in m && Score(g, q) == v)
  }

  lemma MaxGrows(g: Matrix, v: int, best: UInt32, p: Path, m: multiset<Path>)
    requires IsMax(g, v, if Score(g, p) > best then Score(g, p) else best, m)
    ensures IsMax(g, v, best, multiset{p} + m)
  {
  }

  lemma {:induction false} BestOfVisited(g: Matrix, s: Search, k: nat)
    ensures IsMax(g, After(g, s, k).best, s.best, Visited(g, s, k))
    decreases k
  {
    if s.stack == [] {
      AfterEmpty(g, s, k);
    } else if k > 0 {
      BestOfVisited(g, Pop(g, s), k - 1);
      MaxGrows(g, After(g, s, k).best, s.best, Top(s.stack), Visited(g, Pop(g, s), k - 1));
    }
  }

  /**
   * Full coverage.  From any stack of valid paths and once the stack is empty, the best value is
   * the larger of the old one and the greatest score over every path extending a stack entry.
   */
  lemma SearchIsExact(g: Matrix, s: Search, k: nat)
    requires ValidStack(g, s.stack) && k >= |Pending(g, s.stack)|
    ensures var best := After(g, s, k).best;
            && After(g, s, k).stack == []
            && s.best <= best
            && (forall i, q | 0 <= i < |s.stack| && Extends(g, s.stack[i], q) :: Score(g, q) <= best)
            && (best == s.best ||
                exists i, q :: 0 <= i < |s.stack| && Extends(g, s.stack[i], q) && Score(g, q) == best)
  {
    PopsLeft(g, s, k);
    VisitedPlusPending(g, s, k);
    BestOfVisited(g, s, k);
    var best := After(g, s, k).best;
    assert Visited(g, s, k) == Pending(g, s.stack);
    forall i, q | 0 <= i < |s.stack| && Extends(g, s.stack[i], q)
      ensures Score(g, q) <= best
    {
      PendingIsExtends(g, s.stack, q);
    }
    if best != s.best {
      var q :| q in Visited(g, s, k) && Score(g, q) == best;
      PendingIsExtends(g, s.stack, q);
    }
  }

  // ---------- the whole search, started by PopulateStates ----------

  ghost function Start(g: Matrix): Search {
    Search(Singletons(g.size), 0)
  }

  /** Every simple path is popped exactly once, and nothing else is ever popped. */
  lemma EachPathPoppedOnce(g: Matrix, k: nat, q: Path)
    requires k >= |AllPaths(g)|
    ensures Visited(g, Start(g), k)[q] == if SimplePath(g, q) then 1 else 0
  {
    PopulateCoversAll(g, q);
    PopsLeft(g, Start(g), k);
    VisitedPlusPending(g, Start(g), k);
  }

  lemma Ledger(g: Matrix, k: nat, q: Path)
    ensures ValidStack(g, After(g, Start(g), k).stack)
    ensures Visited(g, Start(g), k)[q] + Pending(g, After(g, Start(g), k).stack)[q]
         == if SimplePath(g, q) then 1 else 0
  {
    PopulateCoversAll(g, q);
    AfterValid(g, Start(g), k);
    VisitedPlusPending(g, Start(g), k);
  }

  /** After any number of pops the stack holds only simple paths ... */
  lemma StackStaysSimple(g: Matrix, k: nat, i: nat)
    requires i < |After(g, Start(g), k).stack|
    ensures SimplePath(g, After(g, Start(g), k).stack[i])
  {
    var stack := After(g, Start(g), k).stack;
    Ledger(g, k, stack[i]);
    assert Extends(g, stack[i], stack[i]);
    PendingIsExtends(g, stack, stack[i]);
  }

  /** ... none of which is a prefix of another one ... */
  lemma StackStaysPrefixFree(g: Matrix, k: nat, i: nat, j: nat)
    requires i < |After(g, Start(g), k).stack| && j < |After(g, Start(g), k).stack| && i != j
    ensures !(After(g, Start(g), k).stack[i] <= After(g, Start(g), k).stack[j])
  {
    var stack := After(g, Start(g), k).stack;
    forall q ensures Pending(g, stack)[q] <= 1 {
      Ledger(g, k, q);
    }
    StackStaysSimple(g, k, j);
    Ledger(g, k, []);
    OnceIffSeparated(g, stack);
    SimplePrefix(g, stack[i], stack[j]);
  }

  /** ... or of a path that was already popped. */
  lemma StackAvoidsVisited(g: Matrix, k: nat, i: nat, q: Path)
    requires i < |After(g, Start(g), k).stack| && q in Visited(g, Start(g), k)
    ensures !(After(g, Start(g), k).stack[i] <= q)
  {
    var stack := After(g, Start(g), k).stack;
    Ledger(g, k, q);
    SimplePrefix(g, stack[i], q);
    PendingIsExtends(g, stack, q);
  }

  /** `v` is the greatest score of a simple path. */
  ghost predicate IsOptimum(g: Matrix, v: int) {
    && (forall q | SimplePath(g, q) :: Score(g, q) <= v)
    && (exists q :: SimplePath(g, q) && Score(g, q) == v)
  }

  /** The sequential search finds the optimum, within n * T(n - 1) pops. */
  lemma SequentialSearch(g: Matrix, k: nat)
    requires g.size >= 1 && k >= g.size * TreeSize(g.size - 1)
    ensures After(g, Start(g), k).stack == []
    ensures IsOptimum(g, After(g, Start(g), k).best)
  {
    PathCount(g);
    PopulateCoversAll(g, []);
    SearchIsExact(g, Start(g), k);
    PopsLeft(g, Start(g), k);
    VisitedPlusPending(g, Start(g), k);
    BestOfVisited(g, Start(g), k);
    var best := After(g, Start(g), k).best;
    forall q | SimplePath(g, q)
      ensures Score(g, q) <= best
    {
      EachPathPoppedOnce(g, k, q);
    }
    EachPathPoppedOnce(g, k, [0]);
    assert SimplePath(g, [0]);
    if best == 0 {
      assert Score(g, [0]) == best;
    } else {
      var q :| q in Visited(g, Start(g), k) && Score(g, q) == best;
      EachPathPoppedOnce(g, k, q);
    }
  }

  // ---------- quanta ----------

  /** Rounds per call of `compute`. */
  const QUANTUM := 11

  /** The call that returns true is the first one that finds at most 10 paths pending. */
  lemma CallsNeeded(g: Matrix, s: Search, calls: nat)
    requires ValidStack(g, s.stack)
    ensures |Pending(g, After(g, s, QUANTUM * calls).stack)| <= 10
       <==> calls >= |Pending(g, s.stack)| / QUANTUM
  {
    PopsLeft(g, s, QUANTUM * calls);
  }

  class MaximumCut {
    const states: ParallelStack<Path>
    const matrix: Matrix
    var bestMax: UInt32

    constructor (matrix: Matrix)
      ensures this.matrix == matrix && fresh(states)
      ensures View() == Search([], 0)
    {
      this.matrix := matrix;
      bestMax := 0;
      states := new ParallelStack<Path>();
    }

    ghost function View(): Search
      reads this, states
    {
      Search(states.data, bestMax)
    }

    ghost predicate Valid()
      reads this, states
    {
      ValidStack(matrix, states.data)
    }

    method PopulateStates()
      requires Valid()
      modifies states
      ensures Valid()
      ensures states.data == old(states.data) + Singletons(matrix.size)
    {
      for i := 0 to matrix.size
        invariant states.data == old(states.data) + Singletons(i)
      {
        var nodes: Path := [i];
        states.Push(nodes);
        assert Singletons(i + 1) == Singletons(i) + [nodes];
      }
      PopulateCoversAll(matrix, []);
    }

    /** The loop over the neighbours of the last vertex of `top`. */
    method PushExtensions(top: Path)
      requires ValidPath(matrix, top)
      modifies states
      ensures states.data == old(states.data) + Extensions(matrix, top, matrix.size)
    {
      var current := top;
      var item := Last(current);
      var neighs := GetNeigh(matrix, item);
      ghost var start := states.data;
      ghost var bound := 0;
      for k := 0 to |neighs|
        invariant current == top
        invariant 0 <= bound <= matrix.size
        invariant if k == 0 then bound == 0 else bound == neighs[k - 1] + 1
        invariant states.data == start + Extensions(matrix, top, bound)
      {
        var n := neighs[k];
        assert Edge(matrix, item, n);
        NoStepBetween(matrix, top, bound, n, neighs);
        if n !in current {
          current := current + [n];
          states.Push(current);
          current := current[..|current| - 1];
        }
        bound := n + 1;
      }
      NoStepBetween(matrix, top, bound, matrix.size, neighs);
    }

    /** The body of the loop: pop a path, push its extensions, score it. */
    method Round()
      requires Valid() && states.data != []
      modifies this`bestMax, states
      ensures Valid() && View() == Pop(matrix, old(View()))
    {
      var current := states.Top();
      states.Pop();
      ExtensionsValid(matrix, current, matrix.size);
      PushExtensions(current);
      var sum := Sum(matrix, current);
      var tmp := ToUInt32(sum);
      if tmp > bestMax {
        bestMax := tmp;
      }
    }

    method Compute() returns (done: bool)
      requires matrix.size >= 1 && Valid()
      modifies this`bestMax, states
      ensures Valid()
      ensures View() == After(matrix, old(View()), QUANTUM)
      ensures done <==> |Pending(matrix, old(states.data))| <= 10
    {
      ghost var s0 := View();
      var loopCycles := 10;
      while states.data != []
        invariant 0 <= loopCycles <= 10
        invariant Valid() && View() == After(matrix, s0, 10 - loopCycles)
        decreases loopCycles
      {
        Round();
        AfterNext(matrix, s0, 10 - loopCycles);
        loopCycles := loopCycles - 1;
        if loopCycles + 1 == 0 {
          PopsLeft(matrix, s0, 10);
          return false;
        }
      }
      PopsLeft(matrix, s0, 10 - loopCycles);
      AfterEmpty(matrix, View(), 1 + loopCycles);
      AfterSum(matrix, s0, 10 - loopCycles, 1 + loopCycles);
      done := true;
    }
  }

  /** No vertex from `a` up to `b` can be appended if none of them is listed as a neighbour. */
  lemma {:induction false} NoStepBetween(g: Matrix, p: Path, a: nat, b: nat, neighs: seq<int>)
    requires ValidPath(g, p) && a <= b <= g.size
    requires forall v :: v in neighs <==> Edge(g, Last(p), v)
    requires forall v :: a <= v < b ==> v !in neighs
    ensures Extensions(g, p, a) == Extensions(g, p, b)
  {
    if a < b {
      NoStepBetween(g, p, a, b - 1, neighs);
      assert !Edge(g, Last(p), b - 1);
    }
  }
}
