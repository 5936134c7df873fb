/** What every node has been told when the cluster comes to rest. */
module ClusterResults {
  import opened Basics
  import opened Multisets
  import opened Matrices
  import opened Paths
  import opened ParallelStacks
  import opened MaximumCuts
  import opened TrueMaximumCuts
  import opened StackAssignments
  import opened Computations
  import opened Clusters
  import opened ClusterInvariants
  import opened ClusterRuns
  import opened ClusterAnnouncements

  /** What counts and what was dropped are together what ought to count and the repetitions. */
  lemma CountedLedger(w: World, s: Cluster, order: seq<nat>, steps: seq<Step>)
    requires w.Valid() && Fresh(w, s) && DealOrder(w, order)
    requires Legal(w, Launch(w, s, order), steps) && NoWorkLeft(w, Final(w, Launch(w, s, order), steps))
    ensures Counted(w, Launch(w, s, order), steps) + DroppedIn(w, Launch(w, s, order), steps)
         == Entrusted(w, Launch(w, s, order), steps) + RepeatedIn(w, Launch(w, s, order), steps)
  {
    var s1 := Launch(w, s, order);
    ClusterLedger(w, s, order, steps);
    AddEmpty(PoppedIn(w, s1, steps));
    SumComm(PoppedIn(w, s1, steps), Visited(w.g, Start(w.g), WARM_UP));
  }

  lemma {:induction false} MaxExists(g: Matrix, m: multiset<Path>) returns (r: int)
    ensures IsMax(g, r, 0, m)
    decreases |m|
  {
    if m == multiset{} {
      r := 0;
    } else {
      var q :| q in m;
      var least := MaxExists(g, m - multiset{q});
      r := if Score(g, q) > least then Score(g, q) else least;
      assert forall x :: x in m <==> x == q || x in m - multiset{q};
    }
  }

  // ---------- end to end ----------

  /** Nothing is left to do, and node `j` has been told everything. */
  ghost predicate Done(w: World, s: Cluster, j: nat) {
    NoWorkLeft(w, s) && Told(s, j)
  }

  /** All nodes wait and all messages are delivered. */
  ghost predicate AtRest(s: Cluster) {
    s.net == [] && forall i :: 0 <= i < |s.nodes| ==> s.nodes[i].phase == Waiting
  }

  lemma RestIsDone(w: World, v: int, s: Cluster, j: nat)
    requires w.Valid() && Inv(w, v, s) && AtRest(s)
    ensures Done(w, s, j)
  {
    forall i | 0 <= i < |s.nodes| ensures s.nodes[i].stack == [] {
      assert NodeOk(w.g, v, s.nodes[i]);
    }
  }

  lemma CountedAtMost(w: World, v: int, s: Cluster, order: seq<nat>, steps: seq<Step>)
    requires w.Valid() && Fresh(w, s) && DealOrder(w, order) && IsOptimum(w.g, v)
    requires Legal(w, Launch(w, s, order), steps)
    ensures forall q :: q in Counted(w, Launch(w, s, order), steps) ==> Score(w.g, q) <= v
  {
    var s1 := Launch(w, s, order);
    LaunchEstablishes(w, v, s, order);
    RunPoppedBounded(w, v, s1, steps);
    LeftBounded(w.g, v);
    BestOfVisited(w.g, Start(w.g), WARM_UP);
    forall q | q in Counted(w, s1, steps) ensures Score(w.g, q) <= v {
      InOneOf(PoppedIn(w, s1, steps), Counted(w, s1, steps) - PoppedIn(w, s1, steps), Counted(w, s1, steps), q);
    }
  }

  /** Some path of value `v` was dropped less often than it was brought in. */
  ghost predicate SomeLeft(w: World, v: int, s: Cluster, steps: seq<Step>)
    requires w.leader < |w.ids| && Legal(w, s, steps)
  {
    exists q :: Score(w.g, q) == v && DroppedIn(w, s, steps)[q] < Entrusted(w, s, steps)[q] + RepeatedIn(w, s, steps)[q]
  }

  /**
   * The exact price of loss.  A node ends with the optimum if and only if that can be announced
   * and some optimal path was not dropped as often as the leader's start and all repetitions
   * together brought it in.
   */
  lemma FoundUnlessDropped(w: World, v: int, s: Cluster, order: seq<nat>, steps: seq<Step>, j: nat)
    requires w.Valid() && Fresh(w, s) && DealOrder(w, order) && IsOptimum(w.g, v) && j < |w.ids|
    requires Legal(w, Launch(w, s, order), steps) && Done(w, Final(w, Launch(w, s, order), steps), j)
    ensures j < |Final(w, Launch(w, s, order), steps).nodes|
    ensures Final(w, Launch(w, s, order), steps).nodes[j].bestFound == v
       <==> v < TWO_TO_31 &&
            (v == 0 || SomeLeft(w, v, Launch(w, s, order), steps))
  {
    var s1 := Launch(w, s, order);
    var r := MaxExists(w.g, Counted(w, s1, steps));
    OptimumBounds(w.g, v);
    ResultOfAnyRun(w, s, order, steps, r, j);
    CountedAtMost(w, v, s, order, steps);
    CountedLedger(w, s, order, steps);
    forall q
      ensures q in Counted(w, s1, steps) <==>
              DroppedIn(w, s1, steps)[q] < Entrusted(w, s1, steps)[q] + RepeatedIn(w, s1, steps)[q]
    {
      LedgerAt(Counted(w, s1, steps), DroppedIn(w, s1, steps), Entrusted(w, s1, steps), RepeatedIn(w, s1, steps), q);
    }
  }

  lemma LedgerAt<T>(counted: multiset<T>, dropped: multiset<T>, entrusted: multiset<T>, repeated: multiset<T>, q: T)
    requires counted + dropped == entrusted + repeated
    ensures q in counted <==> dropped[q] < entrusted[q] + repeated[q]
  {
    assert (counted + dropped)[q] == (entrusted + repeated)[q];
  }

  lemma MutedLaunchInv(w: World, d: int, s: Cluster, order: seq<nat>)
    requires w.Valid() && Fresh(w, s) && DealOrder(w, order)
    requires IsMax(w.g, d, 0, Pending(w.g, After(w.g, Start(w.g), WARM_UP).stack))
    ensures Inv(w, d, Muted(w, Launch(w, s, order)))
  {
    PopulateCoversAll(w.g, []);
    AfterValid(w.g, Start(w.g), WARM_UP);
    LaunchBounded(w, d, s, order, 0);
  }

  /**
   * As long as the leader has not computed, and whatever is lost or repeated, no node reports more
   * than the best of what the warm-up left: the leader's own result is not announced.
   */
  lemma IdleLeaderIsSilent(w: World, d: int, s: Cluster, order: seq<nat>, steps: seq<Step>, j: nat)
    requires w.Valid() && Fresh(w, s) && DealOrder(w, order) && j < |w.ids|
    requires IsMax(w.g, d, 0, Pending(w.g, After(w.g, Start(w.g), WARM_UP).stack))
    requires Legal(w, Launch(w, s, order), steps) && !LeaderComputes(w, Launch(w, s, order), steps)
    ensures j < |Final(w, Launch(w, s, order), steps).nodes|
    ensures Final(w, Launch(w, s, order), steps).nodes[j].bestFound <= d
  {
    var s1 := Launch(w, s, order);
    var v := OptimumExists(w.g);
    LaunchEstablishes(w, v, s, order);
    RunKeepsInv(w, v, s1, steps);
    MutedRun(w, v, s1, steps);
    MutedLaunchInv(w, d, s, order);
    RunKeepsInv(w, d, Muted(w, s1), steps);
    assert NodeOk(w.g, d, Final(w, Muted(w, s1), steps).nodes[j]);
  }

  /** A run without loss in which the leader never computes ends with the best of what was dealt out. */
  lemma IdleLeaderKeepsItsResult(w: World, d: int, s: Cluster, order: seq<nat>, steps: seq<Step>, j: nat)
    requires w.Valid() && Fresh(w, s) && DealOrder(w, order) && j < |w.ids|
    requires IsMax(w.g, d, 0, Pending(w.g, After(w.g, Start(w.g), WARM_UP).stack))
    requires Legal(w, Launch(w, s, order), steps) && Lossless(w, Launch(w, s, order), steps)
    requires !LeaderComputes(w, Launch(w, s, order), steps) && Done(w, Final(w, Launch(w, s, order), steps), j)
    ensures j < |Final(w, Launch(w, s, order), steps).nodes|
    ensures Final(w, Launch(w, s, order), steps).nodes[j].bestFound <= d
    ensures Final(w, Launch(w, s, order), steps).nodes[j].bestFound == d <==> d < TWO_TO_31
  {
    var s1 := Launch(w, s, order);
    CountedLedger(w, s, order, steps);
    LosslessDropsNothing(w, s1, steps);
    AddEmpty(PoppedIn(w, s1, steps));
    DealtPopped(w, d, s, order, steps);
    ResultOfAnyRun(w, s, order, steps, d, j);
  }

  /** Whoever pops something then pops something that was dealt out. */
  lemma DealtPopped(w: World, d: int, s: Cluster, order: seq<nat>, steps: seq<Step>)
    requires w.Valid() && Fresh(w, s) && DealOrder(w, order)
    requires IsMax(w.g, d, 0, Pending(w.g, After(w.g, Start(w.g), WARM_UP).stack))
    requires Legal(w, Launch(w, s, order), steps) && !LeaderComputes(w, Launch(w, s, order), steps)
    ensures forall q :: q in PoppedIn(w, Launch(w, s, order), steps) ==> Score(w.g, q) <= d
  {
    var s1 := Launch(w, s, order);
    var v := OptimumExists(w.g);
    LaunchEstablishes(w, v, s, order);
    MutedRun(w, v, s1, steps);
    MutedLaunchInv(w, d, s, order);
    RunPoppedBounded(w, d, Muted(w, s1), steps);
  }

  /**
   * End to end.  If no job is handed to a computing node, then in the end every node reports the
   * optimum over all simple paths if and only if it fits into the `int32_t` in which it is
   * announced, and the leader computes at some time or the warm-up has left an optimal path.
   */
  lemma EveryNodeFindsTheOptimum(w: World, v: int, s: Cluster, order: seq<nat>, steps: seq<Step>, j: nat)
    requires w.Valid() && Fresh(w, s) && DealOrder(w, order) && IsOptimum(w.g, v) && j < |w.ids|
    requires Legal(w, Launch(w, s, order), steps) && Lossless(w, Launch(w, s, order), steps)
    requires Done(w, Final(w, Launch(w, s, order), steps), j)
    ensures j < |Final(w, Launch(w, s, order), steps).nodes|
    ensures Final(w, Launch(w, s, order), steps).nodes[j].bestFound == v
       <==> v < TWO_TO_31 &&
            (LeaderComputes(w, Launch(w, s, order), steps)
             || IsMax(w.g, v, 0, Pending(w.g, After(w.g, Start(w.g), WARM_UP).stack)))
  {
    var s1 := Launch(w, s, order);
    if LeaderComputes(w, s1, steps) {
      LosslessDropsNothing(w, s1, steps);
      FoundUnlessDropped(w, v, s, order, steps, j);
      var q :| SimplePath(w.g, q) && Score(w.g, q) == v;
      PopulateCoversAll(w.g, q);
    } else {
      var d := MaxExists(w.g, Pending(w.g, After(w.g, Start(w.g), WARM_UP).stack));
      IdleLeaderKeepsItsResult(w, d, s, order, steps, j);
      LeftAtMost(w.g, v, d);
    }
  }

  lemma LeftAtMost(g: Matrix, v: int, d: int)
    requires g.size >= 1 && IsOptimum(g, v) && IsMax(g, d, 0, Pending(g, After(g, Start(g), WARM_UP).stack))
    ensures d <= v
    ensures IsMax(g, v, 0, Pending(g, After(g, Start(g), WARM_UP).stack)) <==> d == v
  {
    LeftBounded(g, v);
  }

  /** In other words, every node reports what one sequential search finds. */
  lemma ClusterMatchesSequentialSearch(w: World, s: Cluster, order: seq<nat>, steps: seq<Step>, j: nat, k: nat)
    requires w.Valid() && Fresh(w, s) && DealOrder(w, order) && j < |w.ids|
    requires k >= w.g.size * TreeSize(w.g.size - 1)
    requires Legal(w, Launch(w, s, order), steps) && Lossless(w, Launch(w, s, order), steps)
    requires Done(w, Final(w, Launch(w, s, order), steps), j)
    ensures j < |Final(w, Launch(w, s, order), steps).nodes|
    ensures var sequential := After(w.g, Start(w.g), k).best;
            Final(w, Launch(w, s, order), steps).nodes[j].bestFound == sequential
            <==> sequential < TWO_TO_31 &&
                 (LeaderComputes(w, Launch(w, s, order), steps)
                  || IsMax(w.g, sequential, 0, Pending(w.g, After(w.g, Start(w.g), WARM_UP).stack)))
  {
    SequentialSearch(w.g, k);
    EveryNodeFindsTheOptimum(w, After(w.g, Start(w.g), k).best, s, order, steps, j);
  }

  /** The leader computes from the start on exactly if the warm-up leaves a path for every node. */
  lemma LeaderComputesAtOnce(w: World, s: Cluster, order: seq<nat>)
    requires w.Valid() && Fresh(w, s) && DealOrder(w, order)
    ensures Launch(w, s, order).nodes[w.leader].phase == Computing
       <==> |After(w.g, Start(w.g), WARM_UP).stack| >= |w.ids|
  {
    LaunchedStack(w, s, order);
    ShareSize(After(w.g, Start(w.g), WARM_UP).stack, |order| - 1, |order|);
  }

  lemma OptimumFits(g: Matrix, v: int)
    requires g.size <= 5803 && IsOptimum(g, v)
    ensures v < TWO_TO_31
  {
    var q :| SimplePath(g, q) && Score(g, q) == v;
    ScoreIsCut(g, q);
  }

  /** Put together: where any two vertices are joined all nodes end up with the maximum cut. */
  lemma ClusterFindsMaximumCut(w: World, v: int, s: Cluster, order: seq<nat>, steps: seq<Step>, j: nat)
    requires w.Valid() && Fresh(w, s) && DealOrder(w, order) && j < |w.ids|
    requires w.g.size <= 5803 && PairwiseJoined(w.g) && IsOptimum(w.g, v)
    requires Legal(w, Launch(w, s, order), steps) && Lossless(w, Launch(w, s, order), steps)
    requires Done(w, Final(w, Launch(w, s, order), steps), j)
    ensures j < |Final(w, Launch(w, s, order), steps).nodes|
    ensures IsMaximumCut(w.g, Final(w, Launch(w, s, order), steps).nodes[j].bestFound)
       <==> (LeaderComputes(w, Launch(w, s, order), steps)
             || IsMax(w.g, v, 0, Pending(w.g, After(w.g, Start(w.g), WARM_UP).stack)))
  {
    EveryNodeFindsTheOptimum(w, v, s, order, steps, j);
    OptimumFits(w.g, v);
    JoinedGraph(w.g, v);
  }

  // ---------- when the warm-up already does all the work ----------

  ghost predicate EmptyJobs(t: Table) {
    forall k :: k in t ==> t[k] == []
  }

  /** Nobody has anything to do and nobody has reported anything. */
  ghost predicate Silent(w: World, s: Cluster) {
    && |s.nodes| == |w.ids|
    && (forall i :: 0 <= i < |s.nodes| ==>
          && s.nodes[i].stack == [] && s.nodes[i].phase in {Initial, Waiting}
          && s.nodes[i].bestFound == 0 && EmptyJobs(TableOf(s.nodes[i])))
    && (forall p :: p in s.net ==> p.Assignment? && p.dest < |w.ids| && EmptyJobs(p.table))
  }

  lemma StepKeepsSilent(w: World, s: Cluster, a: Step)
    requires w.Valid() && Silent(w, s) && Enabled(w, s, a)
    ensures Silent(w, Apply(w, s, a))
  {
    match a
    case Wake(i) =>
    case Tick(i) => AfterEmpty(w.g, Search(s.nodes[i].stack, s.nodes[i].bestMax), QUANTUM);
    case Divide(i, with) => SomethingToDivide(s.nodes[i].stack);
    case Resend(i, to) =>
    case Deliver(k) =>
      assert s.net[k] in s.net;
      assert forall x :: x in Without(s.net, k) ==> x in s.net;
  }

  lemma {:induction false} RunKeepsSilent(w: World, s: Cluster, steps: seq<Step>)
    requires w.Valid() && Silent(w, s) && Legal(w, s, steps)
    ensures Silent(w, Final(w, s, steps))
    decreases |steps|
  {
    if steps != [] {
      StepKeepsSilent(w, s, steps[0]);
      RunKeepsSilent(w, Apply(w, s, steps[0]), steps[1..]);
    }
  }

  lemma {:induction false} DealtEmpty(stack: seq<Path>, order: seq<Name>, k: nat)
    requires stack == [] && k <= |order|
    ensures EmptyJobs(Dealt(stack, order, k))
  {
    if k > 0 {
      DealtEmpty(stack, order, k - 1);
      ShareSize(stack, k - 1, |order|);
    }
  }

  /** If the search fits into the warm-up, there is nothing left to deal out. */
  lemma NothingToDeal(w: World, s: Cluster, order: seq<nat>)
    requires w.Valid() && Fresh(w, s) && DealOrder(w, order) && |AllPaths(w.g)| <= WARM_UP
    ensures WarmedUp(w.g, s.nodes[w.leader]).stack == []
    ensures EmptyJobs(InitialDeal(w.g, s.nodes[w.leader], Names(w, order)))
  {
    PopulateCoversAll(w.g, []);
    PopsLeft(w.g, Start(w.g), WARM_UP);
    LeaderShare(w, s, order);
    DealtEmpty(WarmedUp(w.g, s.nodes[w.leader]).stack, Names(w, order), |order|);
  }

  lemma LaunchSilent(w: World, s: Cluster, order: seq<nat>)
    requires w.Valid() && Fresh(w, s) && DealOrder(w, order) && |AllPaths(w.g)| <= WARM_UP
    ensures Silent(w, Launch(w, s, order))
  {
    var st := s.nodes[w.leader];
    var a := InitialDeal(w.g, st, Names(w, order));
    NothingToDeal(w, s, order);
    DealPacketsShape(w.leader, order, a, |order| - 1);
    SilentStart(w.ids[w.leader], WarmedUp(w.g, st), a);
    var s1 := Launch(w, s, order);
    forall i | 0 <= i < |s1.nodes| && i != w.leader
      ensures s1.nodes[i] == s.nodes[i] && s.nodes[i].phase in {Initial, Waiting}
    {
    }
  }

  lemma SilentStart(me: Name, st: NodeState, a: Table)
    requires st.phase == Waiting && st.table.None? && EmptyJobs(a)
    ensures var st' := Assigned(me, st, a);
            st'.stack == [] && st'.phase == Waiting && st'.bestFound == st.bestFound && EmptyJobs(TableOf(st'))
  {
  }

  /**
   * The exception to the end-to-end result: if the whole search fits into the warm-up, then no
   * node ever reports anything.  Whatever the cluster does, every result stays 0.
   */
  lemma NothingIsEverAnnounced(w: World, s: Cluster, order: seq<nat>, steps: seq<Step>, j: nat)
    requires w.Valid() && Fresh(w, s) && DealOrder(w, order) && |AllPaths(w.g)| <= WARM_UP
    requires Legal(w, Launch(w, s, order), steps) && j < |w.ids|
    ensures j < |Final(w, Launch(w, s, order), steps).nodes|
    ensures Final(w, Launch(w, s, order), steps).nodes[j].bestFound == 0
  {
    LaunchSilent(w, s, order);
    RunKeepsSilent(w, Launch(w, s, order), steps);
  }

  /** That is the case for every graph of at most three vertices. */
  lemma TinyGraphsStaySilent(g: Matrix)
    requires 1 <= g.size <= 3
    ensures |AllPaths(g)| <= WARM_UP
  {
    PathCount(g);
    assert TreeSize(0) == 1 && TreeSize(1) == 2 && TreeSize(2) == 5;
  }
}
