/** Which divisions lose nothing: a guard on whom work is given to, and what every run under it keeps. */
module ClusterGuards {
  import opened Basics
  import opened Paths
  import opened ParallelStacks
  import opened MaximumCuts
  import opened StackAssignments
  import opened Computations
  import opened Clusters
  import opened ClusterInvariants
  import opened ClusterRuns
  import opened ClusterAnnouncements
  import opened ClusterResults
  import opened ClusterTermination

  // ---------- giving only to a node that has nothing ----------

  /** Node `i` has nothing to do and nothing to do is on its way to it. */
  ghost predicate Vacant(w: World, s: Cluster, i: nat)
    requires i < |s.nodes|
  {
    s.nodes[i].phase != Computing && !JobComing(w, s, i)
  }

  /** A part is given away only to a node that has nothing. */
  ghost predicate GivesToVacant(w: World, s: Cluster, a: Step)
    requires |s.nodes| == |w.ids| && Enabled(w, s, a)
  {
    a.Divide? && Share(s.nodes[a.i].stack, 1, 2) != [] ==> Vacant(w, s, a.with)
  }

  ghost predicate AllGiveToVacant(w: World, s: Cluster, steps: seq<Step>)
    requires Legal(w, s, steps)
    decreases |steps|
  {
    steps == [] || (GivesToVacant(w, s, steps[0]) && AllGiveToVacant(w, Apply(w, s, steps[0]), steps[1..]))
  }

  /** At most one job is on its way to each node, and none to a computing one. */
  ghost predicate OneJobEach(w: World, s: Cluster) {
    && (forall m, n :: 0 <= m < n < |s.net| && Handed(w, s.net[m]) != [] && Handed(w, s.net[n]) != [] ==>
          s.net[m].dest != s.net[n].dest)
    && (forall m :: 0 <= m < |s.net| && Handed(w, s.net[m]) != [] ==>
          s.net[m].dest < |s.nodes| && s.nodes[s.net[m].dest].phase != Computing)
  }

  lemma GrowthKeepsOneJob(w: World, s: Cluster, s': Cluster)
    requires |s.nodes| == |w.ids| == |s'.nodes| && OneJobEach(w, s) && s.net <= s'.net
    requires forall m :: |s.net| <= m < |s'.net| ==> Handed(w, s'.net[m]) == []
    requires forall i :: 0 <= i < |s.nodes| && s.nodes[i].phase != Computing ==> s'.nodes[i].phase != Computing
    ensures OneJobEach(w, s')
  {
  }

  lemma TickKeepsOneJob(w: World, s: Cluster, i: nat)
    requires w.Valid() && |s.nodes| == |w.ids| && i < |s.nodes| && OneJobEach(w, s)
    ensures OneJobEach(w, Apply(w, s, Tick(i)))
  {
    var more := QuantumNet(w, s, i);
    AddedMessages(s.net, more);
    GrowthKeepsOneJob(w, s, Apply(w, s, Tick(i)));
  }

  /** Only the copy of a division for the receiver hands anything over. */
  lemma OnlyOneHands(w: World, s: Cluster, i: nat, with: nat)
    requires w.Valid() && |s.nodes| == |w.ids| && Enabled(w, s, Divide(i, with))
    requires Division(w.ids[i], s.nodes[i], w.ids[with]).Some?
    ensures var s' := Apply(w, s, Divide(i, with));
            && s.net <= s'.net
            && (forall m :: |s.net| <= m < |s'.net| ==>
                  s'.net[m].Assignment? && s'.net[m].handover && s'.net[m].from == i && s'.net[m].dest < |w.ids|
                  && s'.net[m].table == Division(w.ids[i], s.nodes[i], w.ids[with]).value
                  && Handed(w, s'.net[m]) == if s'.net[m].dest == with then Share(s.nodes[i].stack, 1, 2) else [])
            && (forall m, n :: |s.net| <= m < n < |s'.net| ==> s'.net[m].dest != s'.net[n].dest)
  {
    var a := Division(w.ids[i], s.nodes[i], w.ids[with]).value;
    var more := AssignmentPackets(i, a, |s.nodes|);
    AddedMessages(s.net, more);
    DivisionPackets(i, a, |s.nodes|);
    CopiesAscend(i, a, |s.nodes|);
    forall p | p in more ensures Handed(w, p) == if p.dest == with then Share(s.nodes[i].stack, 1, 2) else [] {
      assert p.dest != with ==> w.ids[p.dest] != w.ids[with];
      assert w.ids[p.dest] != w.ids[i];
    }
  }

  lemma {:induction false} CopiesAscend(from: nat, a: Table, n: nat)
    ensures forall k :: 0 <= k < |AssignmentPackets(from, a, n)| ==> AssignmentPackets(from, a, n)[k].dest < n
    ensures forall j, k :: 0 <= j < k < |AssignmentPackets(from, a, n)| ==>
              AssignmentPackets(from, a, n)[j].dest < AssignmentPackets(from, a, n)[k].dest
  {
    if n > 0 {
      CopiesAscend(from, a, n - 1);
    }
  }

  lemma SplitKeepsOneJob(w: World, s: Cluster, s': Cluster, with: nat)
    requires |s.nodes| == |w.ids| == |s'.nodes| && OneJobEach(w, s) && s.net <= s'.net && with < |s.nodes|
    requires forall m :: |s.net| <= m < |s'.net| && Handed(w, s'.net[m]) != [] ==>
               s'.net[m].dest == with && Vacant(w, s, with)
    requires forall m, n :: |s.net| <= m < n < |s'.net| ==> s'.net[m].dest != s'.net[n].dest
    requires forall i :: 0 <= i < |s.nodes| && s.nodes[i].phase != Computing ==> s'.nodes[i].phase != Computing
    ensures OneJobEach(w, s')
  {
    forall m, n | 0 <= m < n < |s'.net| && Handed(w, s'.net[m]) != [] && Handed(w, s'.net[n]) != []
      ensures s'.net[m].dest != s'.net[n].dest
    {
      if m < |s.net| {
        assert s'.net[m] == s.net[m] && s.net[m] in s.net;
        assert n < |s.net| ==> s'.net[n] == s.net[n];
      }
    }
  }

  lemma DivideKeepsOneJob(w: World, v: int, s: Cluster, i: nat, with: nat)
    requires w.Valid() && Inv(w, v, s) && Enabled(w, s, Divide(i, with)) && OneJobEach(w, s)
    requires GivesToVacant(w, s, Divide(i, with))
    ensures OneJobEach(w, Apply(w, s, Divide(i, with)))
  {
    if Division(w.ids[i], s.nodes[i], w.ids[with]).Some? {
      OnlyOneHands(w, s, i, with);
      DividedOk(w.g, v, w.ids[i], s.nodes[i], w.ids[with]);
      SplitKeepsOneJob(w, s, Apply(w, s, Divide(i, with)), with);
    }
  }

  lemma DeliverKeepsOneJob(w: World, s: Cluster, k: nat)
    requires w.Valid() && |s.nodes| == |w.ids| && Enabled(w, s, Deliver(k)) && OneJobEach(w, s)
    requires !Repeats(w, s, Deliver(k))
    ensures !Lossy(w, s, Deliver(k)) && OneJobEach(w, Apply(w, s, Deliver(k)))
  {
    WithoutMembers(s.net, k);
  }

  lemma StepKeepsOneJob(w: World, v: int, s: Cluster, a: Step)
    requires w.Valid() && Inv(w, v, s) && Enabled(w, s, a) && OneJobEach(w, s)
    requires GivesToVacant(w, s, a) && !Repeats(w, s, a)
    ensures !Lossy(w, s, a) && OneJobEach(w, Apply(w, s, a))
  {
    match a
    case Wake(i) => GrowthKeepsOneJob(w, s, Apply(w, s, a));
    case Tick(i) => TickKeepsOneJob(w, s, i);
    case Divide(i, with) => DivideKeepsOneJob(w, v, s, i, with);
    case Resend(i, to) => GrowthKeepsOneJob(w, s, Apply(w, s, a));
    case Deliver(k) => DeliverKeepsOneJob(w, s, k);
  }

  lemma {:induction false} RunLosesNothing(w: World, v: int, s: Cluster, steps: seq<Step>)
    requires w.Valid() && Inv(w, v, s) && OneJobEach(w, s) && Legal(w, s, steps)
    requires AllGiveToVacant(w, s, steps) && RepetitionFree(w, s, steps)
    ensures Lossless(w, s, steps)
    decreases |steps|
  {
    if steps != [] {
      StepKeepsInv(w, v, s, steps[0]);
      StepKeepsOneJob(w, v, s, steps[0]);
      RunLosesNothing(w, v, Apply(w, s, steps[0]), steps[1..]);
    }
  }

  /** The deal sends each other node one message. */
  lemma {:induction false} DealtOnce(leader: nat, order: seq<nat>, a: Table, k: nat)
    requires k <= |order|
    ensures |DealPackets(leader, order, a, k)| == k
    ensures forall m :: 0 <= m < k ==> DealPackets(leader, order, a, k)[m].dest == order[m]
  {
    if k > 0 {
      DealtOnce(leader, order, a, k - 1);
    }
  }

  lemma DealIsOneEach(w: World, nodes: seq<NodeState>, st: NodeState, order: seq<nat>, a: Table)
    requires w.Valid() && |nodes| == |w.ids| && DealOrder(w, order)
    requires forall i :: 0 <= i < |nodes| ==> nodes[i].phase != Computing
    ensures OneJobEach(w, Cluster(nodes[w.leader := st], DealPackets(w.leader, order, a, |order| - 1)))
  {
    DealtOnce(w.leader, order, a, |order| - 1);
  }

  lemma LaunchOneJobEach(w: World, s: Cluster, order: seq<nat>)
    requires w.Valid() && Fresh(w, s) && DealOrder(w, order)
    ensures OneJobEach(w, Launch(w, s, order))
  {
    var st, names := s.nodes[w.leader], Names(w, order);
    DealIsOneEach(w, s.nodes, LeaderStarted(w.g, w.ids[w.leader], st, names), order, InitialDeal(w.g, st, names));
  }

  /** If parts are given only to nodes that have nothing, and no repeated job is taken, no job is ever dropped. */
  lemma NothingIsLost(w: World, s: Cluster, order: seq<nat>, steps: seq<Step>)
    requires w.Valid() && Fresh(w, s) && DealOrder(w, order) && Legal(w, Launch(w, s, order), steps)
    requires AllGiveToVacant(w, Launch(w, s, order), steps) && RepetitionFree(w, Launch(w, s, order), steps)
    ensures Lossless(w, Launch(w, s, order), steps)
  {
    var v := OptimumExists(w.g);
    LaunchEstablishes(w, v, s, order);
    LaunchOneJobEach(w, s, order);
    RunLosesNothing(w, v, Launch(w, s, order), steps);
  }

  /** Hence such a run ends with the optimum at every node, and with every path popped once. */
  lemma GuardedRunFindsTheOptimum(w: World, v: int, s: Cluster, order: seq<nat>, steps: seq<Step>, j: nat)
    requires w.Valid() && Fresh(w, s) && DealOrder(w, order) && IsOptimum(w.g, v) && j < |w.ids|
    requires Legal(w, Launch(w, s, order), steps)
    requires AllGiveToVacant(w, Launch(w, s, order), steps) && RepetitionFree(w, Launch(w, s, order), steps)
    requires Done(w, Final(w, Launch(w, s, order), steps), j)
    ensures j < |Final(w, Launch(w, s, order), steps).nodes|
    ensures Final(w, Launch(w, s, order), steps).nodes[j].bestFound == v
       <==> v < TWO_TO_31 &&
            (LeaderComputes(w, Launch(w, s, order), steps)
             || IsMax(w.g, v, 0, Pending(w.g, After(w.g, Start(w.g), WARM_UP).stack)))
    ensures forall q :: (Visited(w.g, Start(w.g), WARM_UP) + PoppedIn(w, Launch(w, s, order), steps))[q]
                     == if SimplePath(w.g, q) then 1 else 0
  {
    NothingIsLost(w, s, order, steps);
    EveryNodeFindsTheOptimum(w, v, s, order, steps, j);
    forall q ensures (Visited(w.g, Start(w.g), WARM_UP) + PoppedIn(w, Launch(w, s, order), steps))[q]
                  == if SimplePath(w.g, q) then 1 else 0
    {
      EachPathOnceInCluster(w, s, order, steps, q);
    }
  }
}
