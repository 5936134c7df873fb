/**
 * Runs of the program that end badly: on a graph of 61 vertices with the one edge 5 -> 1 three
 * nodes lose the only best path, or the leader's log is empty although something is left.
 */
module ClusterFailures {
  import opened Basics
  import opened Multisets
  import opened Matrices
  import opened Paths
  import opened ParallelStacks
  import opened MaximumCuts
  import opened StackAssignments
  import opened Scheduling
  import opened Computations
  import opened Clusters
  import opened ClusterInvariants
  import opened ClusterRuns
  import opened ClusterAnnouncements
  import opened ClusterTermination
  import opened ClusterOrder
  import opened ClusterLoops
  import opened ClusterSnapshots

  // ---------- the start ----------

  /** Three nodes, the last of which leads. */
  ghost function Three(): World {
    World(ONE_EDGE, [NODE_0, NODE_1, NODE_2], 2)
  }

  ghost function Beginning(): Cluster {
    Cluster([Waits(), Waits(), Waits().(phase := Initial)], [])
  }

  const ORDER: seq<nat> := [0, 1, 2]

  ghost function Launched(): Cluster {
    StartIsFine();
    Launch(Three(), Beginning(), ORDER)
  }

  lemma StartIsFine()
    ensures Three().Valid() && Fresh(Three(), Beginning()) && DealOrder(Three(), ORDER)
  {
    NamesDiffer();
  }

  /** Six vertices are left, and three nodes to give them to. */
  lemma ThreeParts()
    ensures Share(Singletons(6), 0, 3) == [[0], [4]]
    ensures Share(Singletons(6), 1, 3) == [[1], [3], [5]]
    ensures Share(Singletons(6), 2, 3) == [[2]]
  {
    var s := Singletons(6);
    assert FullRounds(3) == 2;
    assert Stride(s, 0, 4) == [s[0]] + Stride(s, 4, 4);
    assert Stride(s, 4, 4) == [s[4]] + Stride(s, 8, 4);
    assert Stride(s, 1, 2) == [s[1]] + Stride(s, 3, 2);
    assert Stride(s, 3, 2) == [s[3]] + Stride(s, 5, 2);
    assert Stride(s, 5, 2) == [s[5]] + Stride(s, 7, 2);
    assert Stride(s, 2, 4) == [s[2]] + Stride(s, 6, 4);
  }

  lemma LaunchedNodes(w: World)
    requires w == Three()
    ensures w.Valid() && Fresh(w, Beginning()) && DealOrder(w, ORDER)
    ensures var s1, d := Launch(w, Beginning(), ORDER), InitialDeal(w.g, Beginning().nodes[2], Names(w, ORDER));
            && JobOf(d, NODE_0) == [[0], [4]] && JobOf(d, NODE_1) == [[1], [3], [5]] && JobOf(d, NODE_2) == [[2]]
            && s1.nodes[2].(table := None) == Works([[2]]) && s1.nodes[2].table.Some?
  {
    StartIsFine();
    WarmUpFrom(WARM_UP);
    ThreeParts();
    LaunchedStack(w, Beginning(), ORDER);
    LeaderShare(w, Beginning(), ORDER);
    assert w.ids[ORDER[0]] == NODE_0 && w.ids[ORDER[1]] == NODE_1 && w.ids[ORDER[2]] == NODE_2;
  }

  /** The second node's part before and after it was divided twice. */
  const PART: Job := [[1], [3], [5]]

  /** At the start the first two nodes are sent their parts, and the leader computes next. */
  ghost function Dealt(): Snapshot {
    var d := LogTable([[[0], [4]], PART, [[2]]]);
    Snapshot([Waits(), Waits(), Works([[2]])], [[[0], [4]], PART, [[2]]],
             [Assignment(0, 2, d, true), Assignment(1, 2, d, true)], Loop([true, true, false], false, [], []))
  }

  lemma LaunchedTable(w: World)
    requires w == Three() && Fresh(w, Beginning()) && DealOrder(w, ORDER)
    ensures var d := InitialDeal(w.g, Beginning().nodes[2], Names(w, ORDER));
            && d.Keys == {NODE_0, NODE_1, NODE_2}
            && Launch(w, Beginning(), ORDER).nodes[2].table == Some(d[NODE_2 := JobOf(d, NODE_2)])
  {
    DealtKeys(WarmedUp(w.g, Beginning().nodes[2]).stack, Names(w, ORDER), 3);
    assert Names(w, ORDER)[..3] == [NODE_0, NODE_1, NODE_2];
  }

  lemma LaunchLooks(w: World)
    requires w == Three()
    ensures Looks(w, Launched(), Dealt()) && FirstLoop(w) == Dealt().loop
  {
    LaunchedNodes(w);
    LaunchTables(w, Beginning(), ORDER);
    LaunchedTable(w);
    var d := InitialDeal(w.g, Beginning().nodes[2], Names(w, ORDER));
    DealtNetIs(d);
    assert d == LogTable(Dealt().log);
    assert d[NODE_2 := JobOf(d, NODE_2)] == d;
  }

  lemma DealtNetIs(d: Table)
    ensures DealPackets(2, ORDER, d, 2) == [Assignment(0, 2, d, true), Assignment(1, 2, d, true)]
  {
    assert DealPackets(2, ORDER, d, 1) == [Assignment(0, 2, d, true)];
  }

  /** Everybody is handling messages. */
  ghost function Snap(bare: seq<NodeState>, log: seq<Job>, net: seq<Packet>, asked: seq<Request>): Snapshot {
    Snapshot(bare, log, net, Loop([true, true, true], false, [], asked))
  }

  /** A node goes round and finishes its vertices. */
  lemma Turn(w: World, at: Snapshot, i: nat, end: Snapshot, d: Demand)
    requires IsThree(w) && i < 3 == |at.bare| == |at.log| && at.loop.reading == [true, true, true] && !at.loop.checking
    requires at.bare[i].phase == Computing && at.bare[i].bestMax <= 1
    requires Vertices(at.bare[i].stack) && |at.bare[i].stack| <= 5
    requires forall p :: p in at.net ==> p.dest != 2 || p.from != 2
    requires end == AfterQuantum(at, i)
    ensures Leads(w, at, [Round(i), Compute(i)], end, d)
  {
    var mid := at.(loop := at.loop.(reading := at.loop.reading[i := false]));
    GoRound(w, at, i, mid, d);
    assert mid.loop.reading[i := true] == at.loop.reading[i := true];
    ComputeAll(w, mid, i, end, d);
    InARow(w, at, [Round(i)], mid, [Compute(i)], end, d);
    assert [Round(i)] + [Compute(i)] == [Round(i), Compute(i)];
  }

  /** The leader checks its log, asks the second node in favour of the first one, and computes, idly. */
  lemma AskInTurn(w: World, at: Snapshot, end: Snapshot, d: Demand)
    requires IsThree(w) && |at.bare| == |at.log| == 3
    requires at.loop.reading == [true, true, true] && !at.loop.checking && at.loop.owed == []
    requires at.bare[2].phase == Waiting && at.bare[2].stack == []
    requires at.log[0] == [] && at.log[1] != [] && at.log[2] == []
    requires end == at.(loop := at.loop.(asked := at.loop.asked + [Request(1, 0, |at.net|)]))
    ensures Leads(w, at, [Check(false), Ask([Request(1, 0, |at.net|)]), Compute(2)], end, d)
  {
    var r := Request(1, 0, |at.net|);
    var checked := at.(loop := Loop([true, true, false], true, [], at.loop.asked));
    var asked := at.(loop := Loop([true, true, false], false, [], at.loop.asked + [r]));
    CheckLog(w, at, false, checked, d);
    AskSecond(w, checked, asked, d);
    ComputeIdly(w, asked, 2, end, d);
    InARow(w, at, [Check(false)], checked, [Ask([r])], asked, d);
    InARow(w, at, [Check(false)] + [Ask([r])], asked, [Compute(2)], end, d);
    assert [Check(false)] + [Ask([r])] + [Compute(2)] == [Check(false), Ask([r]), Compute(2)];
  }

  lemma InThree(w: World, at0: Snapshot, x: seq<Act>, at1: Snapshot, y: seq<Act>, at2: Snapshot,
                z: seq<Act>, at3: Snapshot, d: Demand)
    requires Leads(w, at0, x, at1, d) && Leads(w, at1, y, at2, d) && Leads(w, at2, z, at3, d)
    ensures Leads(w, at0, x + y + z, at3, d)
  {
    InARow(w, at0, x, at1, y, at2, d);
    InARow(w, at0, x + y, at2, z, at3, d);
  }

  // ---------- the first node gets done ----------

  ghost function Deal(): Table {
    LogTable([[[0], [4]], PART, [[2]]])
  }

  ghost function LeaderDone(): Snapshot {
    Snap([Waits(), Waits(), Waits()], [[[0], [4]], PART, []],
         [Assignment(0, 2, Deal(), true), Assignment(1, 2, Deal(), true), Result(0, 2, 0), Result(1, 2, 0)], [])
  }

  ghost function FirstTook(): Snapshot {
    Snap([Works([[0], [4]]), Waits(), Waits()], [[[0], [4]], PART, []],
         [Assignment(1, 2, Deal(), true), Result(0, 2, 0), Result(1, 2, 0)], [])
  }

  ghost function FirstDone(): Snapshot {
    Snap([Waits(), Waits(), Waits()], [[[0], [4]], PART, []],
         [Assignment(1, 2, Deal(), true), Result(0, 2, 0), Result(1, 2, 0), Result(1, 0, 0), Result(2, 0, 0)], [])
  }

  /** The leader and the first node are done and the leader knows it; the second node's part is on its way. */
  ghost function Opened(): Snapshot {
    Snap([Waits(), Waits(), Waits()], [[], PART, []],
         [Assignment(1, 2, Deal(), true), Result(0, 2, 0), Result(1, 2, 0), Result(1, 0, 0)], [])
  }

  lemma LeaderFinishes(w: World, d: Demand)
    requires IsThree(w)
    ensures Leads(w, Dealt(), [Compute(2)], LeaderDone(), d)
  {
    assert AfterQuantum(Dealt(), 2) == LeaderDone();
    ComputeAll(w, Dealt(), 2, LeaderDone(), d);
  }

  lemma FirstTakes(w: World, d: Demand)
    requires IsThree(w)
    ensures Leads(w, LeaderDone(), [Handle(0)], FirstTook(), d)
  {
    LogEntry(w, [[[0], [4]], PART, [[2]]], 0);
    assert Without(LeaderDone().net, 0) == FirstTook().net;
    assert LeaderDone().bare[0 := Works([[0], [4]])] == FirstTook().bare;
    TakeJob(w, LeaderDone(), 0, 0, [[0], [4]], FirstTook(), d);
  }

  lemma FirstFinishes(w: World, d: Demand)
    requires IsThree(w)
    ensures Leads(w, FirstTook(), [Round(0), Compute(0)], FirstDone(), d)
  {
    assert AfterQuantum(FirstTook(), 0) == FirstDone();
    Turn(w, FirstTook(), 0, FirstDone(), d);
  }

  lemma FirstReports(w: World, d: Demand)
    requires IsThree(w)
    ensures Leads(w, FirstDone(), [Handle(4)], Opened(), d)
  {
    assert Without(FirstDone().net, 4) == Opened().net;
    assert FirstDone().log[0 := []] == Opened().log && FirstDone().bare[2 := Better(Waits(), 0)] == Opened().bare;
    HearReport(w, FirstDone(), 4, 0, 0, Opened(), d);
  }

  ghost function ToOpened(): seq<Act> {
    [Compute(2)] + [Handle(0)] + [Round(0), Compute(0)] + [Handle(4)]
  }

  lemma Opening(w: World, d: Demand)
    requires IsThree(w)
    ensures Leads(w, Dealt(), ToOpened(), Opened(), d)
  {
    LeaderFinishes(w, d);
    FirstTakes(w, d);
    FirstFinishes(w, d);
    FirstReports(w, d);
    InThree(w, Dealt(), [Compute(2)], LeaderDone(), [Handle(0)], FirstTook(), [Round(0), Compute(0)], FirstDone(), d);
    InARow(w, Dealt(), [Compute(2)] + [Handle(0)] + [Round(0), Compute(0)], FirstDone(), [Handle(4)], Opened(), d);
  }

  // ---------- the second node is asked twice ----------

  ghost function AskedOnce(): Snapshot {
    Snap(Opened().bare, Opened().log, Opened().net, [Request(1, 0, 4)])
  }

  ghost function AskedTwice(): Snapshot {
    Snap(Opened().bare, Opened().log, Opened().net, [Request(1, 0, 4), Request(1, 0, 4)])
  }

  ghost function SecondTook(): Snapshot {
    Snap([Waits(), Works(PART), Waits()], [[], PART, []], [Result(0, 2, 0), Result(1, 2, 0), Result(1, 0, 0)],
         [Request(1, 0, 3), Request(1, 0, 3)])
  }

  ghost function SecondHeard(): Snapshot {
    Snap([Waits(), Works(PART), Waits()], [[], PART, []], [Result(0, 2, 0), Result(1, 0, 0)],
         [Request(1, 0, 2), Request(1, 0, 2)])
  }

  ghost function FirstHalves(): Table {
    HalvesTable([[1], [5]], [[3]])
  }

  ghost function SecondHalves(): Table {
    HalvesTable([[1]], [[5]])
  }

  ghost function HalvedOnce(): Snapshot {
    Snap([Waits(), Works([[1], [5]]), Waits()], [[], PART, []],
         [Result(0, 2, 0), Result(1, 0, 0), Assignment(0, 1, FirstHalves(), true), Assignment(2, 1, FirstHalves(), true)],
         [Request(1, 0, 2)])
  }

  /** Two jobs for the first node are on their way, and so is the news of them. */
  ghost function Halved(): Snapshot {
    Snap([Waits(), Works([[1]]), Waits()], [[], PART, []],
         [Result(0, 2, 0), Result(1, 0, 0), Assignment(0, 1, FirstHalves(), true), Assignment(2, 1, FirstHalves(), true),
          Assignment(0, 1, SecondHalves(), true), Assignment(2, 1, SecondHalves(), true)], [])
  }

  ghost function Asking(): seq<Act> {
    [Check(false), Ask([Request(1, 0, 4)]), Compute(2)]
  }

  lemma AsksOnce(w: World, d: Demand)
    requires IsThree(w)
    ensures Leads(w, Opened(), Asking(), AskedOnce(), d)
  {
    assert Opened().loop.asked + [Request(1, 0, 4)] == AskedOnce().loop.asked;
    AskInTurn(w, Opened(), AskedOnce(), d);
  }

  lemma AsksAgain(w: World, d: Demand)
    requires IsThree(w)
    ensures Leads(w, AskedOnce(), Asking(), AskedTwice(), d)
  {
    assert AskedOnce().loop.asked + [Request(1, 0, 4)] == AskedTwice().loop.asked;
    AskInTurn(w, AskedOnce(), AskedTwice(), d);
  }

  lemma SecondTakes(w: World, d: Demand)
    requires IsThree(w)
    ensures Leads(w, AskedTwice(), [Handle(0)], SecondTook(), d)
  {
    LogEntry(w, [[[0], [4]], PART, [[2]]], 1);
    assert Without(AskedTwice().net, 0) == SecondTook().net && AskedTwice().bare[1 := Works(PART)] == SecondTook().bare;
    assert Moved(AskedTwice().loop.asked, 0) == SecondTook().loop.asked;
    TakeJob(w, AskedTwice(), 0, 1, PART, SecondTook(), d);
  }

  lemma SecondHears(w: World, d: Demand)
    requires IsThree(w)
    ensures Leads(w, SecondTook(), [Handle(1)], SecondHeard(), d)
  {
    assert Without(SecondTook().net, 1) == SecondHeard().net;
    assert SecondTook().bare[1 := Better(Works(PART), 0)] == SecondHeard().bare;
    assert Moved(SecondTook().loop.asked, 1) == SecondHeard().loop.asked;
    HearResult(w, SecondTook(), 1, 1, SecondHeard(), d);
  }

  lemma TheHalves()
    ensures Share(PART, 0, 2) == [[1], [5]] && Share(PART, 1, 2) == [[3]]
    ensures Share([[1], [5]], 0, 2) == [[1]] && Share([[1], [5]], 1, 2) == [[5]]
  {
    var s: seq<Path>, t: seq<Path> := PART, [[1], [5]];
    assert Stride(s, 0, 2) == [s[0]] + Stride(s, 2, 2) && Stride(s, 2, 2) == [s[2]] + Stride(s, 4, 2);
    assert Stride(s, 1, 2) == [s[1]] + Stride(s, 3, 2);
    assert Stride(t, 0, 2) == [t[0]] + Stride(t, 2, 2) && Stride(t, 1, 2) == [t[1]] + Stride(t, 3, 2);
  }

  lemma DividesOnce(w: World, d: Demand)
    requires IsThree(w)
    ensures Leads(w, SecondHeard(), [Comply(0)], HalvedOnce(), d)
  {
    TheHalves();
    assert SecondHeard().bare[1 := Works([[1], [5]])] == HalvedOnce().bare;
    assert SecondHeard().net + [Assignment(0, 1, FirstHalves(), true), Assignment(2, 1, FirstHalves(), true)]
        == HalvedOnce().net;
    assert SecondHeard().loop.asked[1..] == HalvedOnce().loop.asked;
    ComplySecond(w, SecondHeard(), [[1], [5]], [[3]], HalvedOnce(), d);
  }

  lemma DividesAgain(w: World, d: Demand)
    requires IsThree(w)
    ensures Leads(w, HalvedOnce(), [Comply(0)], Halved(), d)
  {
    TheHalves();
    assert HalvedOnce().bare[1 := Works([[1]])] == Halved().bare;
    assert HalvedOnce().net + [Assignment(0, 1, SecondHalves(), true), Assignment(2, 1, SecondHalves(), true)]
        == Halved().net;
    assert HalvedOnce().loop.asked[1..] == Halved().loop.asked;
    ComplySecond(w, HalvedOnce(), [[1]], [[5]], Halved(), d);
  }

  ghost function ToHalved(): seq<Act> {
    ToOpened() + (Asking() + Asking() + [Handle(0)]) + ([Handle(1)] + [Comply(0)] + [Comply(0)])
  }

  lemma Dividing(w: World, d: Demand)
    requires IsThree(w)
    ensures Leads(w, Dealt(), ToHalved(), Halved(), d)
  {
    Opening(w, d);
    AsksOnce(w, d);
    AsksAgain(w, d);
    SecondTakes(w, d);
    InThree(w, Opened(), Asking(), AskedOnce(), Asking(), AskedTwice(), [Handle(0)], SecondTook(), d);
    SecondHears(w, d);
    DividesOnce(w, d);
    DividesAgain(w, d);
    InThree(w, SecondTook(), [Handle(1)], SecondHeard(), [Comply(0)], HalvedOnce(), [Comply(0)], Halved(), d);
    InThree(w, Dealt(), ToOpened(), Opened(), Asking() + Asking() + [Handle(0)], SecondTook(),
           [Handle(1)] + [Comply(0)] + [Comply(0)], Halved(), d);
  }

  // ---------- the first node works on the first job ----------

  ghost function Taken(): Snapshot {
    Snap([Works([[3]]), Works([[1]]), Waits()], [[], PART, []],
         [Result(0, 2, 0), Result(1, 0, 0), Assignment(2, 1, FirstHalves(), true),
          Assignment(0, 1, SecondHalves(), true), Assignment(2, 1, SecondHalves(), true)], [])
  }

  lemma FirstTakesAgain(w: World, d: Demand)
    requires IsThree(w)
    ensures Leads(w, Halved(), [Handle(2)], Taken(), d)
  {
    HalvesJob([[1], [5]], [[3]]);
    assert Without(Halved().net, 2) == Taken().net && Halved().bare[0 := Works([[3]])] == Taken().bare;
    TakeJob(w, Halved(), 2, 0, [[3]], Taken(), d);
  }

  ghost function ToTaken(): seq<Act> {
    ToHalved() + [Handle(2)]
  }

  lemma Taking(w: World, d: Demand)
    requires IsThree(w)
    ensures Leads(w, Dealt(), ToTaken(), Taken(), d)
  {
    Dividing(w, d);
    FirstTakesAgain(w, d);
    InARow(w, Dealt(), ToHalved(), Halved(), [Handle(2)], Taken(), d);
  }

  // ---------- from snapshots to the run ----------

  lemma ThreeIs(w: World)
    requires w == Three()
    ensures IsThree(w)
  {
  }

  lemma RunOf(w: World, acts: seq<Act>, end: Snapshot, d: Demand)
    requires w == Three() && Leads(w, Dealt(), acts, end, d)
    ensures RunsAsAsked(w, Launched(), FirstLoop(w), acts, d)
    ensures Looks(w, Final(w, Launched(), StepsIn(w, Launched(), FirstLoop(w), acts)), end)
  {
    LaunchLooks(w);
    SnapshotsTell(w, Launched(), Dealt(), acts, end, d);
  }

  /** The cluster at the end of a run of the program. */
  ghost function EndOf(acts: seq<Act>): Cluster
    requires Loops(Three(), Launched(), FirstLoop(Three()), acts, false)
    requires Legal(Three(), Launched(), StepsIn(Three(), Launched(), FirstLoop(Three()), acts))
  {
    Final(Three(), Launched(), StepsIn(Three(), Launched(), FirstLoop(Three()), acts))
  }

  // ---------- what loss costs ----------

  ghost function Lost(): Snapshot {
    Snap([Works([[3]]), Works([[1]]), Waits()], [[], PART, []],
         [Result(0, 2, 0), Result(1, 0, 0),
          Assignment(2, 1, FirstHalves(), true), Assignment(2, 1, SecondHalves(), true)], [])
  }

  lemma Losing(w: World, d: Demand)
    requires IsThree(w) && !d.lossless
    ensures Leads(w, Dealt(), ToTaken() + [Handle(3)], Lost(), d)
  {
    Taking(w, d);
    assert Without(Taken().net, 3) == Lost().net;
    LoseJob(w, Taken(), 3, 0, Lost(), d);
    InARow(w, Dealt(), ToTaken(), Taken(), [Handle(3)], Lost(), d);
  }

  lemma WorthlessStacks(stacks: seq<seq<Path>>, q: Path)
    requires forall i :: 0 <= i < |stacks| ==> Vertices(stacks[i]) && Worth(stacks[i]) == 0
    requires q in PendingAll(ONE_EDGE, stacks)
    ensures Score(ONE_EDGE, q) == 0
  {
    PendingAllMember(ONE_EDGE, stacks, q);
    var stack :| stack in stacks && q in Pending(ONE_EDGE, stack);
    VerticesWorth(stack, q);
  }

  /** Nothing that is left is worth anything. */
  lemma NothingWorthwhile(w: World, t: Cluster)
    requires w.g == ONE_EDGE
    requires forall i :: 0 <= i < |t.nodes| ==>
               t.nodes[i].bestMax == 0 && Vertices(t.nodes[i].stack) && Worth(t.nodes[i].stack) == 0
    requires forall p :: p in t.net ==> Handed(w, p) == []
    ensures !Attained(w, 1, t)
  {
    NothingHanded(w, t.net);
    var stacks := Stacks(t.nodes);
    AddEmpty(PendingAll(w.g, stacks));
    forall q | q in PendingAll(w.g, stacks) ensures Score(w.g, q) == 0 {
      WorthlessStacks(stacks, q);
    }
  }

  lemma LostIsWorthless(w: World, t: Cluster)
    requires IsThree(w) && Looks(w, t, Lost())
    ensures !Attained(w, 1, t)
  {
    HalvesJob([[1], [5]], [[3]]);
    HalvesJob([[1]], [[5]]);
    forall i | 0 <= i < |t.nodes|
      ensures t.nodes[i].bestMax == 0 && Vertices(t.nodes[i].stack) && Worth(t.nodes[i].stack) == 0
    {
      assert t.nodes[i].(table := None) == Lost().bare[i];
    }
    NothingWorthwhile(w, t);
  }

  lemma ValueIsKept(w: World, acts: seq<Act>, d: Demand)
    requires w == Three() && RunsAsAsked(w, Launched(), FirstLoop(w), acts, d) && d.lossless
    ensures Attained(w, 1, Final(w, Launched(), StepsIn(w, Launched(), FirstLoop(w), acts)))
  {
    StartIsFine();
    OneEdgeOptimum();
    LaunchEstablishes(w, 1, Beginning(), ORDER);
    RunKeepsValue(w, 1, Launched(), StepsIn(w, Launched(), FirstLoop(w), acts));
  }

  /**
   * A run of the program, messages in order.  Before its last act 1, the optimum, is still to be
   * found; then a computing node handles a message with a job, and afterwards nobody has found 1
   * or will find it.
   */
  lemma HandingToABusyNodeLoses()
    ensures IsOptimum(ONE_EDGE, 1)
    ensures RunsAsAsked(Three(), Launched(), FirstLoop(Three()), ToTaken(), Demand({}, true, true))
    ensures Attained(Three(), 1, EndOf(ToTaken()))
    ensures RunsAsAsked(Three(), Launched(), FirstLoop(Three()), ToTaken() + [Handle(3)], Demand({}, true, false))
    ensures !Attained(Three(), 1, EndOf(ToTaken() + [Handle(3)]))
  {
    var w := Three();
    ThreeIs(w);
    OneEdgeOptimum();
    Taking(w, Demand({}, true, true));
    RunOf(w, ToTaken(), Taken(), Demand({}, true, true));
    ValueIsKept(w, ToTaken(), Demand({}, true, true));
    Losing(w, Demand({}, true, false));
    RunOf(w, ToTaken() + [Handle(3)], Lost(), Demand({}, true, false));
    LostIsWorthless(w, EndOf(ToTaken() + [Handle(3)]));
  }

  // ---------- all wait, but a job and an old result are still on their way ----------

  ghost function NextDone(): Snapshot {
    Snap([Waits(), Works([[1]]), Waits()], [[], PART, []],
         [Result(0, 2, 0), Result(1, 0, 0), Assignment(2, 1, FirstHalves(), true), Assignment(0, 1, SecondHalves(), true),
          Assignment(2, 1, SecondHalves(), true), Result(1, 0, 0), Result(2, 0, 0)], [])
  }

  ghost function ToldOnce(): Snapshot {
    Snap([Waits(), Works([[1]]), Waits()], [[[3]], [[1], [5]], []],
         [Result(0, 2, 0), Result(1, 0, 0), Assignment(0, 1, SecondHalves(), true),
          Assignment(2, 1, SecondHalves(), true), Result(1, 0, 0), Result(2, 0, 0)], [])
  }

  ghost function ToldTwice(): Snapshot {
    Snap([Waits(), Works([[1]]), Waits()], [[[5]], [[1]], []],
         [Result(0, 2, 0), Result(1, 0, 0), Assignment(0, 1, SecondHalves(), true), Result(1, 0, 0), Result(2, 0, 0)], [])
  }

  ghost function SecondDone(): Snapshot {
    Snap([Waits(), Waits(), Waits()], [[[5]], [[1]], []],
         [Result(0, 2, 0), Result(1, 0, 0), Assignment(0, 1, SecondHalves(), true), Result(1, 0, 0), Result(2, 0, 0),
          Result(0, 1, 0), Result(2, 1, 0)], [])
  }

  ghost function AllWait(): Snapshot {
    Snap([Waits(), Waits(), Waits()], [[[5]], [], []],
         [Result(0, 2, 0), Result(1, 0, 0), Assignment(0, 1, SecondHalves(), true), Result(1, 0, 0), Result(2, 0, 0),
          Result(0, 1, 0)], [])
  }

  lemma NextFinishes(w: World, d: Demand)
    requires IsThree(w)
    ensures Leads(w, Taken(), [Round(0), Compute(0)], NextDone(), d)
  {
    assert AfterQuantum(Taken(), 0) == NextDone();
    Turn(w, Taken(), 0, NextDone(), d);
  }

  lemma LeaderHearsOnce(w: World, d: Demand)
    requires IsThree(w)
    ensures Leads(w, NextDone(), [Handle(2)], ToldOnce(), d)
  {
    assert Without(NextDone().net, 2) == ToldOnce().net;
    HearNews(w, NextDone(), 2, [[1], [5]], [[3]], ToldOnce(), d);
  }

  lemma LeaderHearsTwice(w: World, d: Demand)
    requires IsThree(w)
    ensures Leads(w, ToldOnce(), [Handle(3)], ToldTwice(), d)
  {
    assert Without(ToldOnce().net, 3) == ToldTwice().net;
    HearNews(w, ToldOnce(), 3, [[1]], [[5]], ToldTwice(), d);
  }

  lemma SecondFinishes(w: World, d: Demand)
    requires IsThree(w)
    ensures Leads(w, ToldTwice(), [Round(1), Compute(1)], SecondDone(), d)
  {
    assert AfterQuantum(ToldTwice(), 1) == SecondDone();
    Turn(w, ToldTwice(), 1, SecondDone(), d);
  }

  lemma SecondReports(w: World, d: Demand)
    requires IsThree(w)
    ensures Leads(w, SecondDone(), [Handle(6)], AllWait(), d)
  {
    assert Without(SecondDone().net, 6) == AllWait().net && SecondDone().log[1 := []] == AllWait().log;
    assert SecondDone().bare[2 := Better(Waits(), 0)] == AllWait().bare;
    HearReport(w, SecondDone(), 6, 1, 0, AllWait(), d);
  }

  ghost function ToAllWait(): seq<Act> {
    ToTaken() + ([Round(0), Compute(0)] + [Handle(2)] + [Handle(3)]) + ([Round(1), Compute(1)] + [Handle(6)])
  }

  lemma Finishing(w: World, d: Demand)
    requires IsThree(w)
    ensures Leads(w, Dealt(), ToAllWait(), AllWait(), d)
  {
    Taking(w, d);
    NextFinishes(w, d);
    LeaderHearsOnce(w, d);
    LeaderHearsTwice(w, d);
    InThree(w, Taken(), [Round(0), Compute(0)], NextDone(), [Handle(2)], ToldOnce(), [Handle(3)], ToldTwice(), d);
    SecondFinishes(w, d);
    SecondReports(w, d);
    InARow(w, ToldTwice(), [Round(1), Compute(1)], SecondDone(), [Handle(6)], AllWait(), d);
    InThree(w, Dealt(), ToTaken(), Taken(), [Round(0), Compute(0)] + [Handle(2)] + [Handle(3)], ToldTwice(),
           [Round(1), Compute(1)] + [Handle(6)], AllWait(), d);
  }

  // ---------- no part of the condition for an empty log can be left out ----------

  /** The leader decides to end the computation although there is work left. */
  ghost predicate EndsTooEarly(w: World, t: Cluster) {
    w.leader < |t.nodes| && EndsNow(TableOf(t.nodes[w.leader]), Elems(w.ids)) && !NoWorkLeft(w, t)
  }

  ghost predicate NothingReported(t: Cluster) {
    forall i :: 0 <= i < |t.nodes| ==> t.nodes[i].bestFound == 0
  }

  /** The log names no job for anyone. */
  ghost predicate LogEmpty(at: Snapshot) {
    at.log == [[], [], []]
  }

  lemma EmptyLogEnds(w: World, t: Cluster, at: Snapshot)
    requires Looks(w, t, at) && LogEmpty(at)
    ensures EndsNow(TableOf(t.nodes[w.leader]), Elems(w.ids))
  {
    TerminationTest(LogTable(at.log), Elems(w.ids));
  }

  lemma NoneReported(w: World, t: Cluster, at: Snapshot)
    requires Looks(w, t, at) && at.bare[0].bestFound == 0 && at.bare[1].bestFound == 0 && at.bare[2].bestFound == 0
    ensures NothingReported(t)
  {
    forall i | 0 <= i < |t.nodes| ensures t.nodes[i].bestFound == 0 {
      assert t.nodes[i].(table := None) == at.bare[i];
    }
  }

  lemma JobOnItsWay(w: World, t: Cluster, at: Snapshot, k: nat, job: Job)
    requires Looks(w, t, at) && LogEmpty(at) && k < |at.net| && Handed(w, at.net[k]) == job != []
    ensures EndsTooEarly(w, t)
  {
    EmptyLogEnds(w, t, at);
    assert at.net[k] in t.net;
  }

  lemma NodeAtWork(w: World, t: Cluster, at: Snapshot, i: nat)
    requires Looks(w, t, at) && LogEmpty(at) && i < 3 && at.bare[i].stack != []
    ensures EndsTooEarly(w, t)
  {
    EmptyLogEnds(w, t, at);
    assert t.nodes[i].(table := None) == at.bare[i];
  }

  lemma SecondJob(w: World)
    requires IsThree(w)
    ensures Handed(w, Assignment(0, 1, SecondHalves(), true)) == [[5]]
  {
    HalvesJob([[1]], [[5]]);
  }

  /** All of the condition but one part. */
  ghost function AllBut(c: Care): Demand {
    Demand(ALL_CARES - {c}, true, true)
  }

  /** The first node's old result arrives while its second job is on its way. */
  ghost function EmptyWithJob(): Snapshot {
    Snap([Waits(), Waits(), Waits()], [[], [], []],
         [Result(0, 2, 0), Result(1, 0, 0), Assignment(0, 1, SecondHalves(), true), Result(1, 0, 0), Result(0, 1, 0)], [])
  }

  lemma ReportBeforeJob(w: World, d: Demand)
    requires IsThree(w) && NoJobComing !in d.cares
    ensures Leads(w, Dealt(), ToAllWait() + [Handle(4)], EmptyWithJob(), d)
  {
    Finishing(w, d);
    assert Without(AllWait().net, 4) == EmptyWithJob().net && AllWait().log[0 := []] == EmptyWithJob().log;
    assert AllWait().bare[2 := Better(Waits(), 0)] == EmptyWithJob().bare;
    HearReport(w, AllWait(), 4, 0, 0, EmptyWithJob(), d);
    InARow(w, Dealt(), ToAllWait(), AllWait(), [Handle(4)], EmptyWithJob(), d);
  }

  /** Without `NoJobComing`: the job of the only best path is on its way when the leader decides. */
  lemma JobComingMatters()
    ensures RunsAsAsked(Three(), Launched(), FirstLoop(Three()), ToAllWait() + [Handle(4)], AllBut(NoJobComing))
    ensures EndsTooEarly(Three(), EndOf(ToAllWait() + [Handle(4)])) && NothingReported(EndOf(ToAllWait() + [Handle(4)]))
  {
    var w, d := Three(), AllBut(NoJobComing);
    ThreeIs(w);
    ReportBeforeJob(w, d);
    RunOf(w, ToAllWait() + [Handle(4)], EmptyWithJob(), d);
    SecondJob(w);
    JobOnItsWay(w, EndOf(ToAllWait() + [Handle(4)]), EmptyWithJob(), 2, [[5]]);
    NoneReported(w, EndOf(ToAllWait() + [Handle(4)]), EmptyWithJob());
  }

  /** The first node works on its second job ... */
  ghost function WorksOn(): Snapshot {
    Snap([Works([[5]]), Waits(), Waits()], [[[5]], [], []],
         [Result(0, 2, 0), Result(1, 0, 0), Result(1, 0, 0), Result(2, 0, 0), Result(0, 1, 0)], [])
  }

  /** ... when its first result arrives. */
  ghost function EmptyWhileWorking(): Snapshot {
    Snap([Works([[5]]), Waits(), Waits()], [[], [], []],
         [Result(0, 2, 0), Result(1, 0, 0), Result(1, 0, 0), Result(0, 1, 0)], [])
  }

  lemma FirstWorksOn(w: World, d: Demand)
    requires IsThree(w)
    ensures Leads(w, Dealt(), ToAllWait() + [Handle(2)], WorksOn(), d)
  {
    Finishing(w, d);
    HalvesJob([[1]], [[5]]);
    assert Without(AllWait().net, 2) == WorksOn().net && AllWait().bare[0 := Works([[5]])] == WorksOn().bare;
    TakeJob(w, AllWait(), 2, 0, [[5]], WorksOn(), d);
    InARow(w, Dealt(), ToAllWait(), AllWait(), [Handle(2)], WorksOn(), d);
  }

  lemma ReportWhileWorking(w: World, d: Demand)
    requires IsThree(w) && NotComputing !in d.cares
    ensures Leads(w, Dealt(), ToAllWait() + [Handle(2)] + [Handle(3)], EmptyWhileWorking(), d)
  {
    FirstWorksOn(w, d);
    assert Without(WorksOn().net, 3) == EmptyWhileWorking().net && WorksOn().log[0 := []] == EmptyWhileWorking().log;
    assert WorksOn().bare[2 := Better(Waits(), 0)] == EmptyWhileWorking().bare;
    HearReport(w, WorksOn(), 3, 0, 0, EmptyWhileWorking(), d);
    InARow(w, Dealt(), ToAllWait() + [Handle(2)], WorksOn(), [Handle(3)], EmptyWhileWorking(), d);
  }

  ghost function ComputingRun(): seq<Act> {
    ToAllWait() + [Handle(2)] + [Handle(3)]
  }

  /** Without `NotComputing`: the first node is computing the only best path when the leader decides. */
  lemma ComputingMatters()
    ensures RunsAsAsked(Three(), Launched(), FirstLoop(Three()), ComputingRun(), AllBut(NotComputing))
    ensures EndsTooEarly(Three(), EndOf(ComputingRun())) && NothingReported(EndOf(ComputingRun()))
  {
    var w, d := Three(), AllBut(NotComputing);
    ThreeIs(w);
    ReportWhileWorking(w, d);
    RunOf(w, ComputingRun(), EmptyWhileWorking(), d);
    NodeAtWork(w, EndOf(ComputingRun()), EmptyWhileWorking(), 0);
    NoneReported(w, EndOf(ComputingRun()), EmptyWhileWorking());
  }

  /** The first node has found the best path and told it, but its first result is still on its way as well. */
  ghost function BothReported(): Snapshot {
    Snap([NodeState(Waiting, [], 1, 1, None), Waits(), Waits()], [[[5]], [], []],
         [Result(0, 2, 0), Result(1, 0, 0), Result(1, 0, 0), Result(2, 0, 0), Result(0, 1, 0),
          Result(1, 0, 1), Result(2, 0, 1)], [])
  }

  ghost function EmptyButUntold(): Snapshot {
    Snap([NodeState(Waiting, [], 1, 1, None), Waits(), Waits()], [[], [], []],
         [Result(0, 2, 0), Result(1, 0, 0), Result(1, 0, 0), Result(0, 1, 0), Result(1, 0, 1), Result(2, 0, 1)], [])
  }

  lemma FindsTheBest(w: World, d: Demand)
    requires IsThree(w)
    ensures Leads(w, WorksOn(), [Round(0), Compute(0)], BothReported(), d)
  {
    assert AfterQuantum(WorksOn(), 0) == BothReported();
    Turn(w, WorksOn(), 0, BothReported(), d);
  }

  lemma OldReportFirst(w: World, d: Demand)
    requires IsThree(w) && NoReportComing !in d.cares
    ensures Leads(w, BothReported(), [Handle(3)], EmptyButUntold(), d)
  {
    assert Without(BothReported().net, 3) == EmptyButUntold().net && BothReported().log[0 := []] == EmptyButUntold().log;
    assert BothReported().bare[2 := Better(Waits(), 0)] == EmptyButUntold().bare;
    HearReport(w, BothReported(), 3, 0, 0, EmptyButUntold(), d);
  }

  ghost function UntoldRun(): seq<Act> {
    ToAllWait() + [Handle(2)] + [Round(0), Compute(0)] + [Handle(3)]
  }

  lemma LeaderReports(w: World, t: Cluster, at: Snapshot)
    requires Looks(w, t, at)
    ensures t.nodes[2].bestFound == at.bare[2].bestFound
  {
    assert t.nodes[2].(table := None) == at.bare[2];
  }

  /**
   * Without `NoReportComing`: no work is left when the leader decides, but it has not been told of
   * the optimum, 1, and reports 0.
   */
  lemma ReportComingMatters()
    ensures IsOptimum(ONE_EDGE, 1)
    ensures RunsAsAsked(Three(), Launched(), FirstLoop(Three()), UntoldRun(), AllBut(NoReportComing))
    ensures var t := EndOf(UntoldRun());
            2 < |t.nodes| && EndsNow(TableOf(t.nodes[2]), Elems(Three().ids)) && t.nodes[2].bestFound == 0
  {
    var w, d := Three(), AllBut(NoReportComing);
    ThreeIs(w);
    OneEdgeOptimum();
    FirstWorksOn(w, d);
    FindsTheBest(w, d);
    OldReportFirst(w, d);
    InThree(w, Dealt(), ToAllWait() + [Handle(2)], WorksOn(), [Round(0), Compute(0)], BothReported(),
            [Handle(3)], EmptyButUntold(), d);
    RunOf(w, UntoldRun(), EmptyButUntold(), d);
    EmptyLogEnds(w, EndOf(UntoldRun()), EmptyButUntold());
    LeaderReports(w, EndOf(UntoldRun()), EmptyButUntold());
  }

  // ---------- a result overtakes the news of a division ----------

  ghost function DoneUntold(): Snapshot {
    Snap([Waits(), Waits(), Waits()], [[], PART, []], Halved().net + [Result(0, 1, 0), Result(2, 1, 0)], [])
  }

  ghost function EmptyBeforeNews(): Snapshot {
    Snap([Waits(), Waits(), Waits()], [[], [], []], Halved().net + [Result(0, 1, 0)], [])
  }

  lemma DividerFinishes(w: World, d: Demand)
    requires IsThree(w)
    ensures Leads(w, Halved(), [Round(1), Compute(1)], DoneUntold(), d)
  {
    assert AfterQuantum(Halved(), 1) == DoneUntold();
    Turn(w, Halved(), 1, DoneUntold(), d);
  }

  lemma ResultOvertakes(w: World, d: Demand)
    requires IsThree(w) && NoNewsComing !in d.cares && !d.ordered
    ensures Leads(w, DoneUntold(), [Handle(7)], EmptyBeforeNews(), d)
  {
    assert Without(DoneUntold().net, 7) == EmptyBeforeNews().net && DoneUntold().log[1 := []] == EmptyBeforeNews().log;
    assert DoneUntold().bare[2 := Better(Waits(), 0)] == EmptyBeforeNews().bare;
    HearReport(w, DoneUntold(), 7, 1, 0, EmptyBeforeNews(), d);
  }

  ghost function OvertakingRun(): seq<Act> {
    ToHalved() + [Round(1), Compute(1)] + [Handle(7)]
  }

  /**
   * Without `NoNewsComing`, and only if messages between two nodes may overtake each other: two
   * jobs are on their way when the leader decides.
   */
  lemma NewsComingMatters()
    ensures RunsAsAsked(Three(), Launched(), FirstLoop(Three()), OvertakingRun(), AllBut(NoNewsComing).(ordered := false))
    ensures EndsTooEarly(Three(), EndOf(OvertakingRun())) && NothingReported(EndOf(OvertakingRun()))
  {
    var w, d := Three(), AllBut(NoNewsComing).(ordered := false);
    ThreeIs(w);
    Dividing(w, d);
    DividerFinishes(w, d);
    ResultOvertakes(w, d);
    InThree(w, Dealt(), ToHalved(), Halved(), [Round(1), Compute(1)], DoneUntold(), [Handle(7)], EmptyBeforeNews(), d);
    RunOf(w, OvertakingRun(), EmptyBeforeNews(), d);
    SecondJob(w);
    JobOnItsWay(w, EndOf(OvertakingRun()), EmptyBeforeNews(), 4, [[5]]);
    NoneReported(w, EndOf(OvertakingRun()), EmptyBeforeNews());
  }

  // ---------- a job is taken again from a repeated log ----------

  ghost function OpenLog(): Table {
    LogTable([[], PART, []])
  }

  /** The leader has sent its log again and asked the second node in favour of the first one. */
  ghost function Resent(): Snapshot {
    Snap([Waits(), Waits(), Waits()], [[], PART, []],
         [Assignment(1, 2, Deal(), true), Result(0, 2, 0), Result(1, 2, 0), Result(1, 0, 0),
          Assignment(0, 2, OpenLog(), false), Assignment(1, 2, OpenLog(), false)], [Request(1, 0, 6)])
  }

  ghost function ResentTook(): Snapshot {
    Snap([Waits(), Works(PART), Waits()], [[], PART, []],
         [Result(0, 2, 0), Result(1, 2, 0), Result(1, 0, 0),
          Assignment(0, 2, OpenLog(), false), Assignment(1, 2, OpenLog(), false)], [Request(1, 0, 5)])
  }

  ghost function ResentHeard(): Snapshot {
    Snap([Waits(), Works(PART), Waits()], [[], PART, []],
         [Result(0, 2, 0), Result(1, 0, 0), Assignment(0, 2, OpenLog(), false), Assignment(1, 2, OpenLog(), false)],
         [Request(1, 0, 4)])
  }

  ghost function ResentDone(): Snapshot {
    Snap([Waits(), NodeState(Waiting, [], 1, 1, None), Waits()], [[], PART, []],
         [Result(0, 2, 0), Result(1, 0, 0), Assignment(0, 2, OpenLog(), false), Assignment(1, 2, OpenLog(), false),
          Result(0, 1, 1), Result(2, 1, 1)], [Request(1, 0, 4)])
  }

  ghost function ResentTold(): Snapshot {
    Snap([Waits(), NodeState(Waiting, [], 1, 1, None), Waits().(bestFound := 1)], [[], [], []],
         [Result(0, 2, 0), Result(1, 0, 0), Assignment(0, 2, OpenLog(), false), Assignment(1, 2, OpenLog(), false),
          Result(0, 1, 1)], [Request(1, 0, 4)])
  }

  ghost function WorksAgain(): Snapshot {
    Snap([Waits(), NodeState(Computing, PART, 1, 1, None), Waits().(bestFound := 1)], [[], [], []],
         [Result(0, 2, 0), Result(1, 0, 0), Assignment(0, 2, OpenLog(), false), Result(0, 1, 1)], [Request(1, 0, 3)])
  }

  ghost function Resending(): seq<Act> {
    [Check(true)] + [Repeat] + [Repeat] + ([Ask([Request(1, 0, 6)])] + [Compute(2)])
  }

  lemma LeaderRepeats(w: World, d: Demand)
    requires IsThree(w)
    ensures Leads(w, Opened(), [Check(true)] + [Repeat] + [Repeat],
                  Snapshot(Resent().bare, Resent().log, Resent().net, Loop([true, true, false], true, [], [])), d)
  {
    var checked := Opened().(loop := Loop([true, true, false], true, [0, 1], []));
    var once := checked.(net := Opened().net + [Assignment(0, 2, OpenLog(), false)], loop := checked.loop.(owed := [1]));
    var twice := Snapshot(Resent().bare, Resent().log, Resent().net, Loop([true, true, false], true, [], []));
    assert [true, true, true][2 := false] == [true, true, false];
    CheckLog(w, Opened(), true, checked, d);
    assert checked.loop.owed[1..] == [1];
    RepeatLog(w, checked, 0, once, d);
    assert once.net + [Assignment(1, 2, OpenLog(), false)] == twice.net && once.loop.owed[1..] == [];
    RepeatLog(w, once, 1, twice, d);
    InThree(w, Opened(), [Check(true)], checked, [Repeat], once, [Repeat], twice, d);
  }

  lemma LeaderAsksOn(w: World, d: Demand)
    requires IsThree(w)
    ensures Leads(w, Snapshot(Resent().bare, Resent().log, Resent().net, Loop([true, true, false], true, [], [])),
                  [Ask([Request(1, 0, 6)])] + [Compute(2)], Resent(), d)
  {
    var at := Snapshot(Resent().bare, Resent().log, Resent().net, Loop([true, true, false], true, [], []));
    var asked := at.(loop := Loop([true, true, false], false, [], [Request(1, 0, 6)]));
    assert [] + [Request(1, 0, 6)] == [Request(1, 0, 6)];
    AskSecond(w, at, asked, d);
    assert [true, true, false][2 := true] == [true, true, true];
    ComputeIdly(w, asked, 2, Resent(), d);
    InARow(w, at, [Ask([Request(1, 0, 6)])], asked, [Compute(2)], Resent(), d);
  }

  lemma ResentTakes(w: World, d: Demand)
    requires IsThree(w)
    ensures Leads(w, Resent(), [Handle(0)], ResentTook(), d)
  {
    LogEntry(w, [[[0], [4]], PART, [[2]]], 1);
    assert Without(Resent().net, 0) == ResentTook().net && Resent().bare[1 := Works(PART)] == ResentTook().bare;
    assert Moved(Resent().loop.asked, 0) == ResentTook().loop.asked;
    TakeJob(w, Resent(), 0, 1, PART, ResentTook(), d);
  }

  lemma ResentHears(w: World, d: Demand)
    requires IsThree(w)
    ensures Leads(w, ResentTook(), [Handle(1)], ResentHeard(), d)
  {
    assert Without(ResentTook().net, 1) == ResentHeard().net;
    assert ResentTook().bare[1 := Better(Works(PART), 0)] == ResentHeard().bare;
    assert Moved(ResentTook().loop.asked, 1) == ResentHeard().loop.asked;
    HearResult(w, ResentTook(), 1, 1, ResentHeard(), d);
  }

  lemma ResentFinishes(w: World, d: Demand)
    requires IsThree(w)
    ensures Leads(w, ResentHeard(), [Round(1), Compute(1)], ResentDone(), d)
  {
    assert AfterQuantum(ResentHeard(), 1) == ResentDone();
    Turn(w, ResentHeard(), 1, ResentDone(), d);
  }

  lemma ResentReports(w: World, d: Demand)
    requires IsThree(w)
    ensures Leads(w, ResentDone(), [Handle(5)], ResentTold(), d)
  {
    assert Without(ResentDone().net, 5) == ResentTold().net && ResentDone().log[1 := []] == ResentTold().log;
    assert ResentDone().bare[2 := Better(Waits(), 1)] == ResentTold().bare;
    assert Moved(ResentDone().loop.asked, 5) == ResentTold().loop.asked;
    HearReport(w, ResentDone(), 5, 1, 1, ResentTold(), d);
  }

  lemma TakesAgain(w: World, d: Demand)
    requires IsThree(w) && RepeatsLogged !in d.cares
    ensures Leads(w, ResentTold(), [Handle(3)], WorksAgain(), d)
  {
    LogEntry(w, [[], PART, []], 1);
    assert Without(ResentTold().net, 3) == WorksAgain().net;
    assert ResentTold().bare[1 := NodeState(Computing, PART, 1, 1, None)] == WorksAgain().bare;
    assert Moved(ResentTold().loop.asked, 3) == WorksAgain().loop.asked;
    TakeJob(w, ResentTold(), 3, 1, PART, WorksAgain(), d);
  }

  ghost function RepeatingRun(): seq<Act> {
    ToOpened() + Resending() + ([Handle(0)] + [Handle(1)] + [Round(1), Compute(1)]) + ([Handle(5)] + [Handle(3)])
  }

  lemma ToResent(w: World, d: Demand)
    requires IsThree(w)
    ensures Leads(w, Dealt(), ToOpened() + Resending(), Resent(), d)
  {
    Opening(w, d);
    LeaderRepeats(w, d);
    LeaderAsksOn(w, d);
    var at := Snapshot(Resent().bare, Resent().log, Resent().net, Loop([true, true, false], true, [], []));
    InARow(w, Opened(), [Check(true)] + [Repeat] + [Repeat], at, [Ask([Request(1, 0, 6)])] + [Compute(2)], Resent(), d);
    InARow(w, Dealt(), ToOpened(), Opened(), Resending(), Resent(), d);
  }

  lemma Repeating(w: World, d: Demand)
    requires IsThree(w) && RepeatsLogged !in d.cares
    ensures Leads(w, Dealt(), RepeatingRun(), WorksAgain(), d)
  {
    ToResent(w, d);
    ResentTakes(w, d);
    ResentHears(w, d);
    ResentFinishes(w, d);
    InThree(w, Resent(), [Handle(0)], ResentTook(), [Handle(1)], ResentHeard(), [Round(1), Compute(1)], ResentDone(), d);
    ResentReports(w, d);
    TakesAgain(w, d);
    InARow(w, ResentDone(), [Handle(5)], ResentTold(), [Handle(3)], WorksAgain(), d);
    InThree(w, Dealt(), ToOpened() + Resending(), Resent(), [Handle(0)] + [Handle(1)] + [Round(1), Compute(1)], ResentDone(),
           [Handle(5)] + [Handle(3)], WorksAgain(), d);
  }

  /** Without `RepeatsLogged`: the second node does its part again when the leader decides. */
  lemma RepetitionMatters()
    ensures RunsAsAsked(Three(), Launched(), FirstLoop(Three()), RepeatingRun(), AllBut(RepeatsLogged))
    ensures EndsTooEarly(Three(), EndOf(RepeatingRun()))
  {
    var w, d := Three(), AllBut(RepeatsLogged);
    ThreeIs(w);
    Repeating(w, d);
    RunOf(w, RepeatingRun(), WorksAgain(), d);
    NodeAtWork(w, EndOf(RepeatingRun()), WorksAgain(), 1);
  }
}
