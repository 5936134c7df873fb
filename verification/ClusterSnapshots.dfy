/**
 * Following the program on a graph of 61 vertices with the one edge 5 -> 1 and three nodes, the
 * last of which leads: what the nodes do can be read off a snapshot that leaves out all logs but
 * the leader's.
 */
module ClusterSnapshots {
  import opened Basics
  import opened Multisets
  import opened Matrices
  import opened Paths
  import opened ParallelStacks
  import opened MaximumCuts
  import opened StackAssignments
  import opened Scheduling
  import opened Computations
  import opened Clusters
  import opened ClusterInvariants
  import opened ClusterRuns
  import opened ClusterTermination
  import opened ClusterOrder
  import opened ClusterLoops

  // ---------- the graph ----------

  function SingleEdge(n: nat, a: int, b: int): Matrix {
    MatrixData(n, seq(n, u => seq(n, v => if u == a && v == b then 1 else 0)))
  }

  const ONE_EDGE: Matrix := SingleEdge(61, 5, 1)

  lemma {:induction false} OneEdgeRow(t: int, s: set<int>, j: nat)
    ensures RowOut(ONE_EDGE, t, s, j) == if t == 5 && j > 1 && 1 !in s then 1 else 0
  {
    if j > 0 {
      OneEdgeRow(t, s, j - 1);
    }
  }

  lemma {:induction false} OneEdgeList(vs: seq<int>, s: set<int>)
    requires Distinct(vs)
    ensures ListOut(ONE_EDGE, vs, s) == if 5 in vs && 1 !in s then 1 else 0
  {
    if vs != [] {
      var rest, t := vs[..|vs| - 1], vs[|vs| - 1];
      OneEdgeList(rest, s);
      OneEdgeRow(t, s, 61);
      assert vs == rest + [t];
    }
  }

  lemma OneEdgeScore(q: Path)
    requires Distinct(q)
    ensures Score(ONE_EDGE, q) == if 5 in q && 1 !in q then 1 else 0
  {
    OneEdgeList(q, Elems(q));
  }

  /** The best path is the single vertex 5. */
  lemma OneEdgeOptimum()
    ensures IsOptimum(ONE_EDGE, 1)
  {
    var best: Path := [5];
    OneEdgeScore(best);
    assert SimplePath(ONE_EDGE, best);
    forall q | SimplePath(ONE_EDGE, q) ensures Score(ONE_EDGE, q) <= 1 {
      OneEdgeScore(q);
    }
  }

  lemma {:induction false} NoExtensions(p: Path, v: nat)
    requires Last(p) != 5
    ensures Extensions(ONE_EDGE, p, v) == []
  {
    if v > 0 {
      NoExtensions(p, v - 1);
    }
  }

  /** The warm-up takes one vertex after the other off the stack. */
  lemma {:induction false} WarmUpFrom(k: nat)
    requires k <= 55
    ensures After(ONE_EDGE, Search(Singletons(6 + k), 0), k) == Search(Singletons(6), 0)
  {
    if k > 0 {
      var s := Search(Singletons(6 + k), 0);
      assert Top(s.stack) == [5 + k];
      NoExtensions([5 + k], 61);
      OneEdgeScore([5 + k]);
      assert s.stack[..|s.stack| - 1] + [] == Singletons(5 + k);
      WarmUpFrom(k - 1);
    }
  }

  /** Single vertices. */
  ghost predicate Vertices(stack: seq<Path>) {
    forall i :: 0 <= i < |stack| ==> |stack[i]| == 1 && IsVertex(ONE_EDGE, stack[i][0])
  }

  lemma OnlyFiveGoesOn(p: Path, q: Path)
    requires |p| == 1 && Extends(ONE_EDGE, p, q)
    ensures q == p || (p == [5] && q == [5, 1])
  {
    if |q| > 1 {
      assert Edge(ONE_EDGE, q[0], q[1]);
      assert |q| > 2 ==> Edge(ONE_EDGE, q[1], q[2]);
    }
  }

  lemma {:induction false} FewPending(stack: seq<Path>)
    requires Vertices(stack)
    ensures |Pending(ONE_EDGE, stack)| <= 2 * |stack|
  {
    if stack != [] {
      var p := Top(stack);
      FewPending(stack[..|stack| - 1]);
      forall q ensures Reach(ONE_EDGE, p)[q] <= (multiset{p} + multiset{[5, 1]})[q] {
        ReachIsExtends(ONE_EDGE, p, q);
        if Extends(ONE_EDGE, p, q) {
          OnlyFiveGoesOn(p, q);
        }
      }
      SmallerSize(Reach(ONE_EDGE, p), multiset{p} + multiset{[5, 1]});
    }
  }

  lemma SmallerSize<T>(a: multiset<T>, b: multiset<T>)
    requires forall x :: a[x] <= b[x]
    ensures |a| <= |b|
  {
    assert b == a + (b - a);
  }

  /** What the vertices of a stack are worth. */
  function Worth(stack: seq<Path>): nat {
    if [5] in stack then 1 else 0
  }

  lemma VerticesWorth(stack: seq<Path>, q: Path)
    requires Vertices(stack) && q in Pending(ONE_EDGE, stack)
    ensures Score(ONE_EDGE, q) <= Worth(stack)
  {
    PendingIsExtends(ONE_EDGE, stack, q);
    var i :| 0 <= i < |stack| && Extends(ONE_EDGE, stack[i], q);
    OnlyFiveGoesOn(stack[i], q);
    OneEdgeScore(q);
    assert stack[i] == [stack[i][0]];
  }

  lemma FiveCounts(stack: seq<Path>)
    requires Vertices(stack) && [5] in stack
    ensures [5] in Pending(ONE_EDGE, stack) && Score(ONE_EDGE, [5]) == 1
  {
    var five: Path := [5];
    var i :| 0 <= i < |stack| && stack[i] == five;
    assert Extends(ONE_EDGE, stack[i], five);
    PendingIsExtends(ONE_EDGE, stack, five);
    OneEdgeScore(five);
  }

  lemma BestOfVertices(stack: seq<Path>, v: int, base: int)
    requires Vertices(stack) && 0 <= base <= 1 && IsMax(ONE_EDGE, v, base, Pending(ONE_EDGE, stack))
    ensures v == if base == 1 then 1 else Worth(stack)
  {
    forall q | q in Pending(ONE_EDGE, stack) ensures Score(ONE_EDGE, q) <= Worth(stack) {
      VerticesWorth(stack, q);
    }
    if [5] in stack {
      FiveCounts(stack);
    }
  }

  lemma WholeSearch(g: Matrix, s: Search, k: nat)
    requires ValidStack(g, s.stack) && k >= |Pending(g, s.stack)|
    ensures After(g, s, k).stack == [] && IsMax(g, After(g, s, k).best, s.best, Pending(g, s.stack))
  {
    PopsLeft(g, s, k);
    VisitedPlusPending(g, s, k);
    AddEmpty(Visited(g, s, k));
    BestOfVisited(g, s, k);
  }

  lemma SearchOfVertices(stack: seq<Path>, base: UInt32, k: nat)
    requires Vertices(stack) && |stack| <= 5 && base <= 1 && k >= 10
    ensures |Pending(ONE_EDGE, stack)| <= 10
    ensures After(ONE_EDGE, Search(stack, base), k) == Search([], if base == 1 then 1 else Worth(stack))
  {
    FewPending(stack);
    WholeSearch(ONE_EDGE, Search(stack, base), k);
    BestOfVertices(stack, After(ONE_EDGE, Search(stack, base), k).best, base);
  }

  /** One quantum finishes a few vertices and finds what they are worth. */
  lemma QuantumOfVertices(me: Name, st: NodeState)
    requires Vertices(st.stack) && |st.stack| <= 5 && st.phase == Computing && st.bestMax <= 1
    ensures var best := if st.bestMax == 1 then 1 else Worth(st.stack);
            && QuantumReport(ONE_EDGE, st) == Some(best)
            && Quantum(ONE_EDGE, me, st) == Reported(st.(stack := [], bestMax := best), best, me).(phase := Waiting)
  {
    SearchOfVertices(st.stack, st.bestMax, QUANTUM);
  }

  // ---------- what a cluster looks like ----------

  const NODE_0: Name := [0]
  const NODE_1: Name := [1]
  const NODE_2: Name := [2]

  ghost predicate IsThree(w: World) {
    w.g == ONE_EDGE && w.ids == [NODE_0, NODE_1, NODE_2] && w.leader == 2
  }

  lemma NamesDiffer()
    ensures NODE_0 != NODE_1 && NODE_1 != NODE_2 && NODE_0 != NODE_2
  {
    assert NODE_0[0] != NODE_1[0] && NODE_1[0] != NODE_2[0] && NODE_0[0] != NODE_2[0];
  }

  lemma ThreeIsValid(w: World)
    requires IsThree(w)
    ensures w.Valid() && |w.ids| == 3
  {
    NamesDiffer();
  }

  /** The leader's log: a job for each node. */
  ghost function LogTable(log: seq<Job>): Table
    requires |log| == 3
  {
    map[NODE_0 := log[0], NODE_1 := log[1], NODE_2 := log[2]]
  }

  lemma LogEntry(w: World, log: seq<Job>, i: nat)
    requires IsThree(w) && |log| == 3 && i < 3
    ensures JobOf(LogTable(log), w.ids[i]) == log[i]
  {
    NamesDiffer();
  }

  lemma LogUpdate(w: World, log: seq<Job>, i: nat, job: Job)
    requires IsThree(w) && |log| == 3 && i < 3
    ensures LogTable(log)[w.ids[i] := job] == LogTable(log[i := job])
  {
    NamesDiffer();
  }

  /** The nodes apart from their logs, the leader's log, the messages, and where everyone is in the loop. */
  datatype Snapshot = Snapshot(bare: seq<NodeState>, log: seq<Job>, net: seq<Packet>, loop: Loop)

  ghost predicate Looks(w: World, s: Cluster, at: Snapshot) {
    && IsThree(w) && |s.nodes| == |at.bare| == |at.log| == |at.loop.reading| == 3 && s.net == at.net
    && (forall i :: 0 <= i < 3 ==> s.nodes[i].(table := None) == at.bare[i])
    && (forall i :: 0 <= i < 3 && s.nodes[i].phase == Computing ==> s.nodes[i].table.Some?)
    && s.nodes[2].table == Some(LogTable(at.log))
  }

  ghost function Waits(): NodeState {
    NodeState(Waiting, [], 0, 0, None)
  }

  ghost function Works(stack: seq<Path>): NodeState {
    NodeState(Computing, stack, 0, 0, None)
  }

  /** The node after a quantum that finishes its vertices. */
  function Ticked(st: NodeState): NodeState {
    var best := if st.bestMax == 1 then 1 else Worth(st.stack);
    NodeState(Waiting, [], best, if best > st.bestFound then best else st.bestFound, None)
  }

  function Better(st: NodeState, best: Int32): NodeState {
    st.(bestFound := if best > st.bestFound then best else st.bestFound)
  }

  /** The two other nodes. */
  function Others(i: nat): (nat, nat) {
    if i == 0 then (1, 2) else if i == 1 then (0, 2) else (0, 1)
  }

  lemma ResultCopies(i: nat, best: Int32)
    requires i < 3
    ensures ResultPackets(i, best, 3) == [Result(Others(i).0, i, best), Result(Others(i).1, i, best)]
  {
    assert ResultPackets(i, best, 1) == if i == 0 then [] else [Result(0, i, best)];
    assert ResultPackets(i, best, 2) == ResultPackets(i, best, 1) + if i == 1 then [] else [Result(1, i, best)];
  }

  lemma DivisionCopies(a: Table)
    ensures AssignmentPackets(1, a, 3) == [Assignment(0, 1, a, true), Assignment(2, 1, a, true)]
  {
    assert AssignmentPackets(1, a, 1) == [Assignment(0, 1, a, true)];
    assert AssignmentPackets(1, a, 2) == [Assignment(0, 1, a, true)];
  }

  /** The table by which the second node gives to the first one. */
  ghost function HalvesTable(kept: Job, given: Job): Table {
    map[NODE_1 := kept][NODE_0 := given]
  }

  lemma HalvesJob(kept: Job, given: Job)
    ensures JobOf(HalvesTable(kept, given), NODE_0) == given
    ensures JobOf(HalvesTable(kept, given), NODE_2) == []
    ensures HalvesTable(kept, given).Keys == {NODE_0, NODE_1}
  {
    NamesDiffer();
  }

  lemma LogNews(log: seq<Job>, kept: Job, given: Job)
    requires |log| == 3
    ensures LogTable(log) + HalvesTable(kept, given) == LogTable([given, kept, log[2]])
  {
    NamesDiffer();
  }

  // ---------- from snapshot to snapshot ----------

  /** What is asked of a run: parts of the condition for an empty log, messages in order, no loss. */
  datatype Demand = Demand(cares: set<Care>, ordered: bool, lossless: bool)

  /** The act is one of the program, and its step observes what is asked. */
  ghost predicate Fine(w: World, t: Cluster, l: Loop, a: Act, d: Demand) {
    && Allowed(w, t, l, a, false) && Allowed(w, t, l, a, d.ordered)
    && var step := ClusterStep(w, l, a);
       step.Some? ==> (d.lossless ==> !Lossy(w, t, step.value)) && forall c :: c in d.cares ==> Observes(w, t, step.value, c)
  }

  ghost predicate Reaches(w: World, t: Cluster, l: Loop, acts: seq<Act>, end: Snapshot, d: Demand)
    decreases |acts|
  {
    if acts == [] then Looks(w, t, end) && l == end.loop
    else Fine(w, t, l, acts[0], d) && Reaches(w, Acted(w, t, l, acts[0]), Looped(w, l, acts[0]), acts[1..], end, d)
  }

  /** From whatever looks like `at` the acts lead to what looks like `end`. */
  ghost predicate Leads(w: World, at: Snapshot, acts: seq<Act>, end: Snapshot, d: Demand) {
    forall t :: Looks(w, t, at) ==> Reaches(w, t, at.loop, acts, end, d)
  }

  lemma OneAct(w: World, t: Cluster, l: Loop, a: Act, end: Snapshot, d: Demand)
    requires Fine(w, t, l, a, d) && Looks(w, Acted(w, t, l, a), end) && Looped(w, l, a) == end.loop
    ensures Reaches(w, t, l, [a], end, d)
  {
    assert [a][1..] == [];
  }

  lemma {:induction false} ReachesOn(w: World, t: Cluster, l: Loop, first: seq<Act>, mid: Snapshot,
                                     rest: seq<Act>, end: Snapshot, d: Demand)
    requires Reaches(w, t, l, first, mid, d) && Leads(w, mid, rest, end, d)
    ensures Reaches(w, t, l, first + rest, end, d)
    decreases |first|
  {
    if first == [] {
      assert first + rest == rest;
    } else {
      var a, more := first[0], first[1..];
      ReachesOn(w, Acted(w, t, l, a), Looped(w, l, a), more, mid, rest, end, d);
      assert (first + rest)[0] == a && (first + rest)[1..] == more + rest;
    }
  }

  lemma InARow(w: World, at: Snapshot, first: seq<Act>, mid: Snapshot, rest: seq<Act>, end: Snapshot, d: Demand)
    requires Leads(w, at, first, mid, d) && Leads(w, mid, rest, end, d)
    ensures Leads(w, at, first + rest, end, d)
  {
    forall t | Looks(w, t, at) ensures Reaches(w, t, at.loop, first + rest, end, d) {
      ReachesOn(w, t, at.loop, first, mid, rest, end, d);
    }
  }

  /** A run of the program that observes what is asked. */
  ghost predicate RunsAsAsked(w: World, s: Cluster, l: Loop, acts: seq<Act>, d: Demand) {
    && w.leader < |w.ids| && Loops(w, s, l, acts, false) && Loops(w, s, l, acts, d.ordered)
    && Legal(w, s, StepsIn(w, s, l, acts)) && (d.lossless ==> Lossless(w, s, StepsIn(w, s, l, acts)))
    && Careful(w, s, StepsIn(w, s, l, acts), d.cares)
  }

  lemma {:induction false} ReachesRuns(w: World, t: Cluster, l: Loop, acts: seq<Act>, end: Snapshot, d: Demand)
    requires Reaches(w, t, l, acts, end, d)
    ensures RunsAsAsked(w, t, l, acts, d) && Looks(w, Final(w, t, StepsIn(w, t, l, acts)), end)
    decreases |acts|
  {
    if acts != [] {
      var a, step := acts[0], ClusterStep(w, l, acts[0]);
      ReachesRuns(w, Acted(w, t, l, a), Looped(w, l, a), acts[1..], end, d);
      var rest := StepsIn(w, Acted(w, t, l, a), Looped(w, l, a), acts[1..]);
      if step.Some? {
        assert ([step.value] + rest)[1..] == rest;
      } else {
        assert [] + rest == rest;
      }
    }
  }

  /** Hence a chain of snapshots tells of a run of the program. */
  lemma SnapshotsTell(w: World, t: Cluster, at: Snapshot, acts: seq<Act>, end: Snapshot, d: Demand)
    requires Looks(w, t, at) && Leads(w, at, acts, end, d)
    ensures RunsAsAsked(w, t, at.loop, acts, d) && Looks(w, Final(w, t, StepsIn(w, t, at.loop, acts)), end)
  {
    ReachesRuns(w, t, at.loop, acts, end, d);
  }

  // ---------- acts that are no steps of the cluster ----------

  lemma GoRound(w: World, at: Snapshot, i: nat, end: Snapshot, d: Demand)
    requires IsThree(w) && i < 3 == |at.loop.reading| && at.loop.reading[i]
    requires end == at.(loop := at.loop.(reading := at.loop.reading[i := false]))
    ensures Leads(w, at, [Round(i)], end, d)
  {
    forall t | Looks(w, t, at) ensures Reaches(w, t, at.loop, [Round(i)], end, d) {
      OneAct(w, t, at.loop, Round(i), end, d);
    }
  }

  lemma CheckLog(w: World, at: Snapshot, again: bool, end: Snapshot, d: Demand)
    requires IsThree(w) && |at.loop.reading| == |at.log| == 3 && at.loop.reading[2] && at.log[1] != []
    requires end == at.(loop := at.loop.(reading := at.loop.reading[2 := false], checking := true,
                                         owed := if again then [0, 1] else []))
    ensures Leads(w, at, [Check(again)], end, d)
  {
    LogEntry(w, at.log, 1);
    assert OthersBelow(1, 2) == [0] && OthersBelow(2, 2) == [0, 1] && OthersBelow(3, 2) == [0, 1];
    forall t | Looks(w, t, at) ensures Reaches(w, t, at.loop, [Check(again)], end, d) {
      assert LogTable(at.log)[w.ids[1]] != [];
      OneAct(w, t, at.loop, Check(again), end, d);
    }
  }

  /** With only the second node at work, it is asked in favour of the first one. */
  lemma OneRequest(w: World, log: seq<Job>, net: seq<Packet>)
    requires IsThree(w) && |log| == 3 && log[0] == [] && log[1] != [] && log[2] == []
    ensures Asks(w, LogTable(log), net, [Request(1, 0, |net|)])
  {
    NamesDiffer();
    var known, asks := Elems(w.ids), [Request(1, 0, |net|)];
    LogEntry(w, log, 0);
    LogEntry(w, log, 1);
    LogEntry(w, log, 2);
    var idle := Idle(LogTable(log), known);
    assert w.ids[0] in known && w.ids[1] in known && w.ids[2] in known;
    assert idle == {NODE_0, NODE_2} && known - idle == {NODE_1};
    assert MovesOf(w, asks) == [Move(NODE_1, NODE_0)];
  }

  lemma AskSecond(w: World, at: Snapshot, end: Snapshot, d: Demand)
    requires IsThree(w) && |at.log| == 3 && at.log[0] == [] && at.log[1] != [] && at.log[2] == []
    requires at.loop.checking && at.loop.owed == []
    requires end == at.(loop := at.loop.(checking := false, asked := at.loop.asked + [Request(1, 0, |at.net|)]))
    ensures Leads(w, at, [Ask([Request(1, 0, |at.net|)])], end, d)
  {
    OneRequest(w, at.log, at.net);
    forall t | Looks(w, t, at) ensures Reaches(w, t, at.loop, [Ask([Request(1, 0, |at.net|)])], end, d) {
      OneAct(w, t, at.loop, Ask([Request(1, 0, |at.net|)]), end, d);
    }
  }

  // ---------- quanta ----------

  lemma IdleQuantum(w: World, t: Cluster, i: nat)
    requires w.Valid() && |t.nodes| == |w.ids| && i < |t.nodes| && t.nodes[i].phase == Waiting && t.nodes[i].stack == []
    ensures Apply(w, t, Tick(i)) == t && forall c :: Observes(w, t, Tick(i), c)
  {
    QuantumEmpties(w.g, w.ids[i], t.nodes[i]);
    assert t.nodes[i := t.nodes[i]] == t.nodes;
  }

  lemma ComputeIdly(w: World, at: Snapshot, i: nat, end: Snapshot, d: Demand)
    requires IsThree(w) && i < 3 == |at.loop.reading| == |at.bare| && !at.loop.reading[i] && !at.loop.checking
    requires at.bare[i].phase == Waiting && at.bare[i].stack == []
    requires end == at.(loop := at.loop.(reading := at.loop.reading[i := true]))
    ensures Leads(w, at, [Compute(i)], end, d)
  {
    ThreeIsValid(w);
    forall t | Looks(w, t, at) ensures Reaches(w, t, at.loop, [Compute(i)], end, d) {
      assert t.nodes[i].(table := None) == at.bare[i];
      IdleQuantum(w, t, i);
      OneAct(w, t, at.loop, Compute(i), end, d);
    }
  }

  /** Only the entry of the leader itself can be emptied, and it sends itself nothing. */
  lemma QuantumObserves(w: World, t: Cluster, at: Snapshot, i: nat, best: nat, c: Care)
    requires w.Valid() && Looks(w, t, at) && i < 3 && best <= 1
    requires Quantum(w.g, w.ids[i], t.nodes[i]).phase == Waiting
    requires TableOf(Quantum(w.g, w.ids[i], t.nodes[i])) == TableOf(t.nodes[i])[w.ids[i] := []]
    requires QuantumReport(w.g, t.nodes[i]) == Some(best)
    requires forall p :: p in at.net ==> p.dest != 2 || p.from != 2
    ensures Observes(w, t, Tick(i), c)
  {
    var t' := Apply(w, t, Tick(i));
    ResultsHandNothing(w, i, best, 3);
    forall k | 0 <= k < 3 && !(i == 2 == k) ensures Entry(w, t', k) == Entry(w, t, k) {
      assert k != 2 ==> w.ids[k] != w.ids[2];
    }
    forall k | 0 <= k < |w.ids| && Emptied(w, t, t', k) ensures !Owes(w, t', k, c) {
      assert k == 2;
    }
  }

  /** The snapshot after node `i` has finished its vertices. */
  ghost function AfterQuantum(at: Snapshot, i: nat): Snapshot
    requires i < 3 == |at.loop.reading| == |at.bare| == |at.log|
  {
    var st := Ticked(at.bare[i]);
    Snapshot(at.bare[i := st], if i == 2 then at.log[2 := []] else at.log,
             at.net + [Result(Others(i).0, i, st.bestMax), Result(Others(i).1, i, st.bestMax)],
             at.loop.(reading := at.loop.reading[i := true]))
  }

  lemma AfterQuantumLooks(w: World, t: Cluster, at: Snapshot, i: nat)
    requires w.Valid() && Looks(w, t, at) && i < 3
    requires at.bare[i].phase == Computing && at.bare[i].bestMax <= 1
    requires Vertices(at.bare[i].stack) && |at.bare[i].stack| <= 5
    requires forall p :: p in at.net ==> p.dest != 2 || p.from != 2
    ensures Looks(w, Apply(w, t, Tick(i)), AfterQuantum(at, i))
    ensures forall c :: Observes(w, t, Tick(i), c)
  {
    var best := Ticked(at.bare[i]).bestMax;
    assert t.nodes[i].(table := None) == at.bare[i];
    ResultCopies(i, best);
    LogUpdate(w, at.log, i, []);
    QuantumOfVertices(w.ids[i], t.nodes[i]);
    forall c ensures Observes(w, t, Tick(i), c) {
      QuantumObserves(w, t, at, i, best, c);
    }
  }

  lemma ComputeAll(w: World, at: Snapshot, i: nat, end: Snapshot, d: Demand)
    requires IsThree(w) && i < 3 == |at.loop.reading| == |at.bare| == |at.log| && !at.loop.reading[i] && !at.loop.checking
    requires at.bare[i].phase == Computing && at.bare[i].bestMax <= 1
    requires Vertices(at.bare[i].stack) && |at.bare[i].stack| <= 5
    requires forall p :: p in at.net ==> p.dest != 2 || p.from != 2
    requires end == AfterQuantum(at, i)
    ensures Leads(w, at, [Compute(i)], end, d)
  {
    ThreeIsValid(w);
    forall t | Looks(w, t, at) ensures Reaches(w, t, at.loop, [Compute(i)], end, d) {
      AfterQuantumLooks(w, t, at, i);
      OneAct(w, t, at.loop, Compute(i), end, d);
    }
  }

  // ---------- messages ----------

  /** Message `k` is not behind another message or request between the same nodes. */
  ghost predicate InTurn(at: Snapshot, k: nat)
    requires k < |at.net|
  {
    && InOrder(at.net, k)
    && forall j :: 0 <= j < |at.loop.asked| && at.net[k].from == 2 && at.loop.asked[j].to == at.net[k].dest ==>
         k < at.loop.asked[j].behind
  }

  lemma RepeatLog(w: World, at: Snapshot, to: nat, end: Snapshot, d: Demand)
    requires IsThree(w) && |at.log| == 3 && to < 2 && at.loop.owed != [] && at.loop.owed[0] == to
    requires end == at.(net := at.net + [Assignment(to, 2, LogTable(at.log), false)],
                        loop := at.loop.(owed := at.loop.owed[1..]))
    ensures Leads(w, at, [Repeat], end, d)
  {
    forall t | Looks(w, t, at) ensures Reaches(w, t, at.loop, [Repeat], end, d) {
      OneAct(w, t, at.loop, Repeat, end, d);
    }
  }

  /** A waiting node takes a job. */
  lemma TakeJob(w: World, at: Snapshot, k: nat, i: nat, job: seq<Path>, end: Snapshot, d: Demand)
    requires IsThree(w) && |at.loop.reading| == |at.bare| == |at.log| == 3 && k < |at.net| && i < 2
    requires at.net[k].Assignment? && at.net[k].dest == i && at.loop.reading[i] && (d.ordered ==> InTurn(at, k))
    requires at.bare[i].phase == Waiting && JobOf(at.net[k].table, w.ids[i]) == job != []
    requires !at.net[k].handover ==> RepeatsLogged !in d.cares
    requires end == at.(bare := at.bare[i := at.bare[i].(stack := job, phase := Computing)], net := Without(at.net, k),
                        loop := at.loop.(asked := Moved(at.loop.asked, k)))
    ensures Leads(w, at, [Handle(k)], end, d)
  {
    forall t | Looks(w, t, at) ensures Reaches(w, t, at.loop, [Handle(k)], end, d) {
      assert t.nodes[i].(table := None) == at.bare[i];
      OneAct(w, t, at.loop, Handle(k), end, d);
    }
  }

  /** A computing node is handed a job and drops it. */
  lemma LoseJob(w: World, at: Snapshot, k: nat, i: nat, end: Snapshot, d: Demand)
    requires IsThree(w) && |at.loop.reading| == |at.bare| == |at.log| == 3 && k < |at.net| && i < 2
    requires at.net[k].Assignment? && at.net[k].dest == i && at.loop.reading[i] && (d.ordered ==> InTurn(at, k))
    requires at.bare[i].phase == Computing && !d.lossless
    requires end == at.(net := Without(at.net, k), loop := at.loop.(asked := Moved(at.loop.asked, k)))
    ensures Leads(w, at, [Handle(k)], end, d)
  {
    forall t | Looks(w, t, at) ensures Reaches(w, t, at.loop, [Handle(k)], end, d) {
      assert t.nodes[i].(table := None) == at.bare[i];
      OneAct(w, t, at.loop, Handle(k), end, d);
    }
  }

  /** A computing node is told a result. */
  lemma HearResult(w: World, at: Snapshot, k: nat, i: nat, end: Snapshot, d: Demand)
    requires IsThree(w) && |at.loop.reading| == |at.bare| == |at.log| == 3 && k < |at.net| && i < 2
    requires at.net[k].Result? && at.net[k].dest == i && at.net[k].from < 3
    requires at.loop.reading[i] && (d.ordered ==> InTurn(at, k))
    requires at.bare[i].phase == Computing
    requires end == at.(bare := at.bare[i := Better(at.bare[i], at.net[k].best)], net := Without(at.net, k),
                        loop := at.loop.(asked := Moved(at.loop.asked, k)))
    ensures Leads(w, at, [Handle(k)], end, d)
  {
    forall t | Looks(w, t, at) ensures Reaches(w, t, at.loop, [Handle(k)], end, d) {
      assert t.nodes[i].(table := None) == at.bare[i];
      OneAct(w, t, at.loop, Handle(k), end, d);
    }
  }

  /** No entry is emptied by a table that names work for both its nodes. */
  lemma NewsObserves(w: World, t: Cluster, at: Snapshot, k: nat, kept: Job, given: Job)
    requires w.Valid() && Looks(w, t, at) && k < |at.net| && kept != [] && given != []
    requires at.net[k] == Assignment(2, 1, HalvesTable(kept, given), true)
    requires at.bare[2].phase == Waiting && at.bare[2].stack == []
    ensures Looks(w, Apply(w, t, Deliver(k)), at.(log := [given, kept, at.log[2]], net := Without(at.net, k)))
    ensures forall c :: Observes(w, t, Deliver(k), c)
  {
    var t' := Apply(w, t, Deliver(k));
    assert t.nodes[2].(table := None) == at.bare[2];
    LogNews(at.log, kept, given);
    HalvesJob(kept, given);
    forall i | 0 <= i < 3 ensures !Emptied(w, t, t', i) {
      LogEntry(w, at.log, i);
      LogEntry(w, [given, kept, at.log[2]], i);
    }
  }

  lemma HearNews(w: World, at: Snapshot, k: nat, kept: Job, given: Job, end: Snapshot, d: Demand)
    requires IsThree(w) && |at.loop.reading| == |at.bare| == |at.log| == 3 && k < |at.net| && kept != [] && given != []
    requires at.net[k] == Assignment(2, 1, HalvesTable(kept, given), true)
    requires at.loop.reading[2] && (d.ordered ==> InTurn(at, k)) && at.bare[2].phase == Waiting && at.bare[2].stack == []
    requires end == at.(log := [given, kept, at.log[2]], net := Without(at.net, k),
                        loop := at.loop.(asked := Moved(at.loop.asked, k)))
    ensures Leads(w, at, [Handle(k)], end, d)
  {
    ThreeIsValid(w);
    forall t | Looks(w, t, at) ensures Reaches(w, t, at.loop, [Handle(k)], end, d) {
      assert t.nodes[2].(table := None) == at.bare[2];
      NewsObserves(w, t, at, k, kept, given);
      OneAct(w, t, at.loop, Handle(k), end, d);
    }
  }

  /** What is asked about the node whose result arrives, on the face of it. */
  ghost predicate Unowed(at: Snapshot, k: nat, i: nat, cares: set<Care>)
    requires i < |at.bare|
  {
    && (NotComputing in cares ==> at.bare[i].phase != Computing)
    && forall m :: 0 <= m < |at.net| && m != k ==> Unrelated(at.net[m], i, cares)
  }

  ghost predicate Unrelated(p: Packet, i: nat, cares: set<Care>) {
    && (p.dest == i && p.Assignment? && p.handover ==> NoJobComing !in cares)
    && (p.dest == 2 && p.from == i ==> if p.Result? then NoReportComing !in cares else NoNewsComing !in cares)
  }

  lemma ReportLooks(w: World, t: Cluster, at: Snapshot, k: nat, i: nat, best: nat)
    requires w.Valid() && Looks(w, t, at) && k < |at.net| && i < 2 && best <= 1 && at.net[k] == Result(2, i, best)
    ensures Looks(w, Apply(w, t, Deliver(k)),
                  at.(bare := at.bare[2 := Better(at.bare[2], best)], log := at.log[i := []], net := Without(at.net, k)))
  {
    assert t.nodes[2].(table := None) == at.bare[2];
    LogUpdate(w, at.log, i, []);
  }

  lemma ReportObserves(w: World, t: Cluster, at: Snapshot, k: nat, i: nat, best: nat, cares: set<Care>, c: Care)
    requires w.Valid() && Looks(w, t, at) && k < |at.net| && i < 2 && best <= 1 && at.net[k] == Result(2, i, best)
    requires Unowed(at, k, i, cares) && c in cares
    ensures Observes(w, t, Deliver(k), c)
  {
    var t' := Apply(w, t, Deliver(k));
    WithoutMembers(at.net, k);
    assert t.nodes[i].(table := None) == at.bare[i];
    forall j | 0 <= j < |w.ids| && Emptied(w, t, t', j) ensures !Owes(w, t', j, c) {
      LogAfterReport(t.nodes[2], best, w.ids[i], w.ids[j]);
      assert j == i;
    }
  }

  lemma HearReport(w: World, at: Snapshot, k: nat, i: nat, best: nat, end: Snapshot, d: Demand)
    requires IsThree(w) && |at.loop.reading| == |at.bare| == |at.log| == 3 && k < |at.net| && i < 2 && best <= 1
    requires at.net[k] == Result(2, i, best) && at.loop.reading[2] && (d.ordered ==> InTurn(at, k))
    requires Unowed(at, k, i, d.cares)
    requires end == at.(bare := at.bare[2 := Better(at.bare[2], best)], log := at.log[i := []], net := Without(at.net, k),
                        loop := at.loop.(asked := Moved(at.loop.asked, k)))
    ensures Leads(w, at, [Handle(k)], end, d)
  {
    ThreeIsValid(w);
    forall t | Looks(w, t, at) ensures Reaches(w, t, at.loop, [Handle(k)], end, d) {
      ReportLooks(w, t, at, k, i, best);
      forall c | c in d.cares ensures Observes(w, t, Deliver(k), c) {
        ReportObserves(w, t, at, k, i, best, d.cares, c);
      }
      OneAct(w, t, at.loop, Handle(k), end, d);
    }
  }

  /** The second node is asked to divide with the first one. */
  lemma ComplySecond(w: World, at: Snapshot, kept: seq<Path>, given: seq<Path>, end: Snapshot, d: Demand)
    requires IsThree(w) && |at.loop.reading| == |at.bare| == |at.log| == 3 && at.loop.reading[1]
    requires at.loop.asked != [] && at.loop.asked[0].to == 1 && at.loop.asked[0].with == 0
    requires at.loop.asked[0].behind <= |at.net|
    requires forall m :: 0 <= m < at.loop.asked[0].behind ==> at.net[m].dest != 1 || at.net[m].from != 2
    requires at.bare[1].phase == Computing
    requires Share(at.bare[1].stack, 0, 2) == kept != [] && Share(at.bare[1].stack, 1, 2) == given
    requires var a := HalvesTable(kept, given);
             end == at.(bare := at.bare[1 := at.bare[1].(stack := kept)],
                        net := at.net + [Assignment(0, 1, a, true), Assignment(2, 1, a, true)],
                        loop := at.loop.(asked := at.loop.asked[1..]))
    ensures Leads(w, at, [Comply(0)], end, d)
  {
    ThreeIsValid(w);
    DivisionCopies(HalvesTable(kept, given));
    forall t | Looks(w, t, at) ensures Reaches(w, t, at.loop, [Comply(0)], end, d) {
      assert t.nodes[1].(table := None) == at.bare[1];
      assert Division(w.ids[1], t.nodes[1], w.ids[0]) == Some(HalvesTable(kept, given));
      assert at.loop.asked[..0] + at.loop.asked[1..] == at.loop.asked[1..];
      OneAct(w, t, at.loop, Comply(0), end, d);
    }
  }
}
