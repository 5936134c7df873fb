/** Whole runs: from the leader's start to the state in which everybody waits. */
module ClusterRuns {
  import opened Basics
  import opened Multisets
  import opened Matrices
  import opened Paths
  import opened ParallelStacks
  import opened MaximumCuts
  import opened StackAssignments
  import opened Splitting
  import opened Computations
  import opened Clusters
  import opened ClusterInvariants

  // ---------- the leader's start ----------

  lemma {:induction false} EmptyStacks(w: World, nodes: seq<NodeState>)
    requires forall i :: 0 <= i < |nodes| ==> nodes[i].stack == []
    ensures PendingAll(w.g, Stacks(nodes)) == multiset{}
  {
    if nodes != [] {
      var rest := nodes[..|nodes| - 1];
      EmptyStacks(w, rest);
      assert Stacks(nodes) == Stacks(rest) + [[]];
      PendingAllPush(w.g, Stacks(rest), []);
    }
  }

  lemma LeaderShare(w: World, s: Cluster, order: seq<nat>)
    requires w.Valid() && Fresh(w, s) && DealOrder(w, order)
    ensures var st := s.nodes[w.leader];
            var stack := After(w.g, Start(w.g), WARM_UP).stack;
            && WarmedUp(w.g, st) == st.(phase := Waiting, stack := stack, bestMax := After(w.g, Start(w.g), WARM_UP).best)
            && Distinct(Names(w, order))
            && (forall k :: 0 <= k < |order| ==>
                  JobOf(InitialDeal(w.g, st, Names(w, order)), w.ids[order[k]]) == Share(stack, k, |order|))
  {
    var st, names := s.nodes[w.leader], Names(w, order);
    assert [] + Singletons(w.g.size) == Singletons(w.g.size);
    forall i, j | 0 <= i < j < |names| ensures names[i] != names[j] {
      assert order[i] != order[j];
      var a, b := order[i], order[j];
      assert a < b ==> w.ids[a] != w.ids[b];
      assert b < a ==> w.ids[b] != w.ids[a];
    }
    forall k | 0 <= k < |order|
      ensures JobOf(InitialDeal(w.g, st, names), w.ids[order[k]]) == Share(WarmedUp(w.g, st).stack, k, |order|)
    {
      DealtJob(WarmedUp(w.g, st).stack, names, |names|, k);
    }
  }

  lemma {:induction false} DealInTransit(w: World, order: seq<nat>, a: Table, parts: seq<seq<Path>>)
    requires |parts| <= |order| && forall i :: 0 <= i < |order| ==> order[i] < |w.ids|
    requires forall i :: 0 <= i < |parts| ==> JobOf(a, w.ids[order[i]]) == parts[i]
    ensures InTransit(w, DealPackets(w.leader, order, a, |parts|)) == PendingAll(w.g, parts)
  {
    if parts != [] {
      var k := |parts| - 1;
      DealInTransit(w, order, a, parts[..k]);
      TransitPush(w, DealPackets(w.leader, order, a, k), Assignment(order[k], w.leader, a, true));
    }
  }

  /** One node holds the last part and the messages hold the others. */
  lemma DealtTotal(w: World, nodes: seq<NodeState>, i: nat, st: NodeState, net: seq<Packet>, parts: seq<seq<Path>>)
    requires i < |nodes| && forall j :: 0 <= j < |nodes| ==> nodes[j].stack == []
    requires InTransit(w, net) == PendingAll(w.g, parts)
    ensures Total(w, Cluster(nodes[i := st], net)) == PendingAll(w.g, parts + [st.stack])
  {
    EmptyStacks(w, nodes);
    NodeChange(w, nodes, i, st);
    OneStack(PendingAll(w.g, Stacks(nodes[i := st])), Pending(w.g, st.stack));
    SumComm(PendingAll(w.g, parts), Pending(w.g, st.stack));
    PendingAllPush(w.g, parts, st.stack);
  }

  lemma LaunchedStack(w: World, s: Cluster, order: seq<nat>)
    requires w.Valid() && Fresh(w, s) && DealOrder(w, order)
    ensures var st, st' := s.nodes[w.leader], Launch(w, s, order).nodes[w.leader];
            && st'.stack == Share(After(w.g, Start(w.g), WARM_UP).stack, |order| - 1, |order|)
            && st'.bestMax == After(w.g, Start(w.g), WARM_UP).best
            && st'.bestFound == 0
            && st'.phase == (if st'.stack != [] then Computing else Waiting)
            && st'.table.Some?
  {
    LeaderShare(w, s, order);
    assert order[|order| - 1] == w.leader;
  }

  /** Exactly once, at the start: the warm-up's paths and everything dealt out are all simple paths. */
  lemma LaunchTotal(w: World, s: Cluster, order: seq<nat>)
    requires w.Valid() && Fresh(w, s) && DealOrder(w, order)
    ensures Total(w, Launch(w, s, order)) + Visited(w.g, Start(w.g), WARM_UP) == AllPaths(w.g)
  {
    var stack := After(w.g, Start(w.g), WARM_UP).stack;
    LaunchSplits(w, s, order, stack);
    SharesPending(w.g, stack, |order|);
    PopulateCoversAll(w.g, []);
    VisitedPlusPending(w.g, Start(w.g), WARM_UP);
    SumComm(Pending(w.g, stack), Visited(w.g, Start(w.g), WARM_UP));
  }

  /** The messages hold all parts but the last one. */
  lemma DealtTransit(w: World, s: Cluster, order: seq<nat>, others: seq<seq<Path>>)
    requires w.Valid() && Fresh(w, s) && DealOrder(w, order) && |others| == |order| - 1
    requires forall k :: 0 <= k < |others| ==> others[k] == Share(After(w.g, Start(w.g), WARM_UP).stack, k, |order|)
    ensures InTransit(w, Launch(w, s, order).net) == PendingAll(w.g, others)
  {
    LeaderShare(w, s, order);
    DealInTransit(w, order, InitialDeal(w.g, s.nodes[w.leader], Names(w, order)), others);
  }

  lemma LaunchHolds(w: World, s: Cluster, order: seq<nat>, others: seq<seq<Path>>, last: seq<Path>, parts: seq<seq<Path>>)
    requires w.Valid() && Fresh(w, s) && DealOrder(w, order) && |others| == |order| - 1
    requires forall k :: 0 <= k < |others| ==> others[k] == Share(After(w.g, Start(w.g), WARM_UP).stack, k, |order|)
    requires last == Launch(w, s, order).nodes[w.leader].stack && parts == others + [last]
    ensures Total(w, Launch(w, s, order)) == PendingAll(w.g, parts)
  {
    var s' := Launch(w, s, order);
    DealtTransit(w, s, order, others);
    DealtTotal(w, s.nodes, w.leader, s'.nodes[w.leader], s'.net, others);
  }

  lemma LaunchSplits(w: World, s: Cluster, order: seq<nat>, stack: seq<Path>)
    requires w.Valid() && Fresh(w, s) && DealOrder(w, order)
    requires stack == After(w.g, Start(w.g), WARM_UP).stack
    ensures Total(w, Launch(w, s, order)) == PendingAll(w.g, Shares(stack, |order|))
  {
    var others, last := SharesButLast(stack, |order|);
    LaunchedStack(w, s, order);
    LaunchHolds(w, s, order, others, last, Shares(stack, |order|));
  }

  lemma SharesButLast(stack: seq<Path>, count: nat) returns (others: seq<seq<Path>>, last: seq<Path>)
    requires count >= 1
    ensures |others| == count - 1 && Shares(stack, count) == others + [last] && last == Share(stack, count - 1, count)
    ensures forall k :: 0 <= k < |others| ==> others[k] == Share(stack, k, count)
  {
    others, last := Shares(stack, count)[..count - 1], Share(stack, count - 1, count);
  }

  lemma {:induction false} DealtBounded(g: Matrix, v: int, stack: seq<Path>, order: seq<Name>, k: nat)
    requires Bounded(g, v, stack) && k <= |order|
    ensures BoundedTable(g, v, Dealt(stack, order, k))
  {
    if k > 0 {
      DealtBounded(g, v, stack, order, k - 1);
      ShareBounded(g, v, stack, k - 1, |order|);
    }
  }

  lemma {:induction false} DealPacketsShape(leader: nat, order: seq<nat>, a: Table, k: nat)
    requires k <= |order|
    ensures forall p :: p in DealPackets(leader, order, a, k) ==>
              p.Assignment? && p.handover && p.table == a && p.from == leader && p.dest in order[..k]
  {
    if k > 0 {
      DealPacketsShape(leader, order, a, k - 1);
    }
  }

  lemma OptimumBounds(g: Matrix, v: int)
    requires g.size >= 1 && IsOptimum(g, v)
    ensures 0 <= v && Bounded(g, v, Start(g).stack)
  {
    forall q | q in Pending(g, Start(g).stack) ensures Score(g, q) <= v {
      PopulateCoversAll(g, q);
    }
    PopulateCoversAll(g, []);
    var q :| SimplePath(g, q) && Score(g, q) == v;
  }

  /** After the start the value of the cluster is the optimum over all simple paths. */
  lemma LaunchEstablishes(w: World, v: int, s: Cluster, order: seq<nat>)
    requires w.Valid() && Fresh(w, s) && DealOrder(w, order) && IsOptimum(w.g, v)
    ensures Inv(w, v, Launch(w, s, order)) && Attained(w, v, Launch(w, s, order))
  {
    LaunchAttains(w, v, s, order);
    LaunchKeeps(w, v, s, order);
  }

  lemma WarmUpBounded(w: World, v: int, s: Cluster, order: seq<nat>)
    requires w.Valid() && Fresh(w, s) && DealOrder(w, order)
    requires Bounded(w.g, v, After(w.g, Start(w.g), WARM_UP).stack)
    ensures var st := WarmedUp(w.g, s.nodes[w.leader]);
            st.phase == Waiting && st.bestFound == 0 && st.table.None? && st.bestMax == After(w.g, Start(w.g), WARM_UP).best
    ensures BoundedTable(w.g, v, InitialDeal(w.g, s.nodes[w.leader], Names(w, order)))
  {
    LeaderShare(w, s, order);
    DealtBounded(w.g, v, WarmedUp(w.g, s.nodes[w.leader]).stack, Names(w, order), |order|);
  }

  /** The cluster with another best value at the leader. */
  ghost function LeaderHolds(w: World, s: Cluster, best: UInt32): Cluster
    requires w.leader < |s.nodes|
  {
    s.(nodes := s.nodes[w.leader := s.nodes[w.leader].(bestMax := best)])
  }

  /** If nothing dealt out leads beyond `v` and `best` does not either, nothing does. */
  lemma LaunchBounded(w: World, v: int, s: Cluster, order: seq<nat>, best: UInt32)
    requires w.Valid() && Fresh(w, s) && DealOrder(w, order)
    requires Bounded(w.g, v, After(w.g, Start(w.g), WARM_UP).stack) && best <= v
    ensures Inv(w, v, LeaderHolds(w, Launch(w, s, order), best))
  {
    var st, a := s.nodes[w.leader], InitialDeal(w.g, s.nodes[w.leader], Names(w, order));
    WarmUpBounded(w, v, s, order);
    DealtNet(w, v, order, a);
    DealtLeader(w, v, s, WarmedUp(w.g, st), a, DealPackets(w.leader, order, a, |order| - 1), best);
    assert Launch(w, s, order) == Cluster(s.nodes[w.leader := Assigned(w.ids[w.leader], WarmedUp(w.g, st), a)],
                                          DealPackets(w.leader, order, a, |order| - 1));
  }

  lemma DealtLeader(w: World, v: int, s: Cluster, st: NodeState, a: Table, net: seq<Packet>, best: UInt32)
    requires w.Valid() && Fresh(w, s) && best <= v
    requires st.phase == Waiting && st.table.None? && st.bestFound == 0 && BoundedTable(w.g, v, a)
    requires forall p :: p in net ==> PacketOk(w, v, p)
    ensures Inv(w, v, LeaderHolds(w, Cluster(s.nodes[w.leader := Assigned(w.ids[w.leader], st, a)], net), best))
  {
    var me := w.ids[w.leader];
    AssignedBounded(w.g, v, me, st.(bestMax := best), a);
    assert Assigned(me, st, a).(bestMax := best) == Assigned(me, st.(bestMax := best), a);
    FreshButLeader(w, v, s, Assigned(me, st.(bestMax := best), a), net);
  }

  lemma FreshButLeader(w: World, v: int, s: Cluster, st: NodeState, net: seq<Packet>)
    requires Fresh(w, s) && v >= 0 && NodeOk(w.g, v, st) && forall p :: p in net ==> PacketOk(w, v, p)
    ensures Inv(w, v, Cluster(s.nodes[w.leader := st], net))
  {
    EmptyBounded(w.g, v);
  }

  lemma DealtNet(w: World, v: int, order: seq<nat>, a: Table)
    requires w.Valid() && DealOrder(w, order) && BoundedTable(w.g, v, a)
    ensures forall p :: p in DealPackets(w.leader, order, a, |order| - 1) ==> PacketOk(w, v, p)
  {
    DealPacketsShape(w.leader, order, a, |order| - 1);
    forall p | p in DealPackets(w.leader, order, a, |order| - 1) ensures PacketOk(w, v, p) {
      var k :| 0 <= k < |order| - 1 && order[k] == p.dest;
    }
  }

  lemma LaunchKeeps(w: World, v: int, s: Cluster, order: seq<nat>)
    requires w.Valid() && Fresh(w, s) && DealOrder(w, order) && IsOptimum(w.g, v)
    ensures Inv(w, v, Launch(w, s, order))
  {
    LeftBounded(w.g, v);
    LaunchedStack(w, s, order);
    LaunchBounded(w, v, s, order, After(w.g, Start(w.g), WARM_UP).best);
    HoldsAlready(w, Launch(w, s, order));
  }

  lemma HoldsAlready(w: World, s: Cluster)
    requires w.leader < |s.nodes|
    ensures LeaderHolds(w, s, s.nodes[w.leader].bestMax) == s
  {
  }

  /** Neither the warm-up nor what it leaves leads beyond the optimum. */
  lemma LeftBounded(g: Matrix, v: int)
    requires g.size >= 1 && IsOptimum(g, v)
    ensures 0 <= After(g, Start(g), WARM_UP).best <= v && Bounded(g, v, After(g, Start(g), WARM_UP).stack)
  {
    OptimumBounds(g, v);
    ComputedBounded(g, v, NodeState(Waiting, Start(g).stack, 0, 0, None), WARM_UP);
  }

  lemma AssignedBounded(g: Matrix, v: int, me: Name, st: NodeState, a: Table)
    requires st.phase == Waiting && st.table.None? && st.bestMax <= v && st.bestFound <= v
    requires BoundedTable(g, v, a)
    ensures NodeOk(g, v, Assigned(me, st, a))
  {
    EmptyBounded(g, v);
  }

  lemma LaunchAttains(w: World, v: int, s: Cluster, order: seq<nat>)
    requires w.Valid() && Fresh(w, s) && DealOrder(w, order) && IsOptimum(w.g, v)
    ensures Attained(w, v, Launch(w, s, order))
  {
    LaunchTotal(w, s, order);
    LaunchedStack(w, s, order);
    WarmUpAttains(w, v, Launch(w, s, order));
  }

  lemma WarmUpAttains(w: World, v: int, s: Cluster)
    requires w.Valid() && w.leader < |s.nodes| && IsOptimum(w.g, v)
    requires Total(w, s) + Visited(w.g, Start(w.g), WARM_UP) == AllPaths(w.g)
    requires s.nodes[w.leader].bestMax == After(w.g, Start(w.g), WARM_UP).best
    ensures Attained(w, v, s)
  {
    var q :| SimplePath(w.g, q) && Score(w.g, q) == v;
    PopulateCoversAll(w.g, q);
    InOneOf(Total(w, s), Visited(w.g, Start(w.g), WARM_UP), AllPaths(w.g), q);
    if q in Visited(w.g, Start(w.g), WARM_UP) {
      BestOfVisited(w.g, Start(w.g), WARM_UP);
      LeftBounded(w.g, v);
      assert s.nodes[w.leader].bestMax == v;
    }
  }

  // ---------- runs ----------

  ghost predicate Legal(w: World, s: Cluster, steps: seq<Step>)
    decreases |steps|
  {
    |s.nodes| == |w.ids| &&
    (steps == [] || (Enabled(w, s, steps[0]) && Legal(w, Apply(w, s, steps[0]), steps[1..])))
  }

  ghost function Final(w: World, s: Cluster, steps: seq<Step>): Cluster
    requires Legal(w, s, steps)
    decreases |steps|
  {
    if steps == [] then s else Final(w, Apply(w, s, steps[0]), steps[1..])
  }

  /** No job is handed over to a node that is computing. */
  ghost predicate Lossless(w: World, s: Cluster, steps: seq<Step>)
    requires Legal(w, s, steps)
    decreases |steps|
  {
    steps == [] || (!Lossy(w, s, steps[0]) && Lossless(w, Apply(w, s, steps[0]), steps[1..]))
  }

  /** No node works on a job that is only repeated from a log. */
  ghost predicate RepetitionFree(w: World, s: Cluster, steps: seq<Step>)
    requires Legal(w, s, steps)
    decreases |steps|
  {
    steps == [] || (!Repeats(w, s, steps[0]) && RepetitionFree(w, Apply(w, s, steps[0]), steps[1..]))
  }

  /** All paths popped by any node during the run. */
  ghost function PoppedIn(w: World, s: Cluster, steps: seq<Step>): multiset<Path>
    requires Legal(w, s, steps)
    decreases |steps|
  {
    if steps == [] then multiset{}
    else Popped(w, s, steps[0]) + PoppedIn(w, Apply(w, s, steps[0]), steps[1..])
  }

  /** The bound holds over every run, lossy or not ... */
  lemma {:induction false} RunKeepsInv(w: World, v: int, s: Cluster, steps: seq<Step>)
    requires w.Valid() && Inv(w, v, s) && Legal(w, s, steps)
    ensures Inv(w, v, Final(w, s, steps))
    decreases |steps|
  {
    if steps != [] {
      StepKeepsInv(w, v, s, steps[0]);
      RunKeepsInv(w, v, Apply(w, s, steps[0]), steps[1..]);
    }
  }

  /** ... and over every lossless run the value stays what it was. */
  lemma {:induction false} RunKeepsValue(w: World, v: int, s: Cluster, steps: seq<Step>)
    requires w.Valid() && Inv(w, v, s) && Attained(w, v, s) && Legal(w, s, steps) && Lossless(w, s, steps)
    ensures Inv(w, v, Final(w, s, steps)) && Attained(w, v, Final(w, s, steps))
    decreases |steps|
  {
    if steps != [] {
      StepKeepsValue(w, v, s, steps[0]);
      RunKeepsValue(w, v, Apply(w, s, steps[0]), steps[1..]);
    }
  }

  /** All paths dropped during the run, with the jobs that reached a computing node. */
  ghost function DroppedIn(w: World, s: Cluster, steps: seq<Step>): multiset<Path>
    requires Legal(w, s, steps)
    decreases |steps|
  {
    if steps == [] then multiset{}
    else Dropped(w, s, steps[0]) + DroppedIn(w, Apply(w, s, steps[0]), steps[1..])
  }

  /** All paths taken a second time during the run, with repeated jobs. */
  ghost function RepeatedIn(w: World, s: Cluster, steps: seq<Step>): multiset<Path>
    requires Legal(w, s, steps)
    decreases |steps|
  {
    if steps == [] then multiset{}
    else Repeated(w, s, steps[0]) + RepeatedIn(w, Apply(w, s, steps[0]), steps[1..])
  }

  lemma {:induction false} LosslessDropsNothing(w: World, s: Cluster, steps: seq<Step>)
    requires Legal(w, s, steps) && Lossless(w, s, steps)
    ensures DroppedIn(w, s, steps) == multiset{}
    decreases |steps|
  {
    if steps != [] {
      LosslessDropsNothing(w, Apply(w, s, steps[0]), steps[1..]);
    }
  }

  lemma {:induction false} NothingRepeated(w: World, s: Cluster, steps: seq<Step>)
    requires Legal(w, s, steps) && RepetitionFree(w, s, steps)
    ensures RepeatedIn(w, s, steps) == multiset{}
    decreases |steps|
  {
    if steps != [] {
      NothingRepeated(w, Apply(w, s, steps[0]), steps[1..]);
    }
  }

  /** The balance of any run. */
  lemma {:induction false} RunTotal(w: World, v: int, s: Cluster, steps: seq<Step>)
    requires w.Valid() && Inv(w, v, s) && Legal(w, s, steps)
    ensures Total(w, s) + RepeatedIn(w, s, steps)
         == Total(w, Final(w, s, steps)) + PoppedIn(w, s, steps) + DroppedIn(w, s, steps)
    decreases |steps|
  {
    if steps == [] {
      AddEmpty(Total(w, s));
    } else {
      var a, s1, rest := steps[0], Apply(w, s, steps[0]), steps[1..];
      StepKeepsInv(w, v, s, a);
      StepTotal(w, v, s, a);
      RunTotal(w, v, s1, rest);
      Chain(Total(w, s), Total(w, s1), Total(w, Final(w, s1, rest)), Repeated(w, s, a), RepeatedIn(w, s1, rest),
            Popped(w, s, a), PoppedIn(w, s1, rest), Dropped(w, s, a), DroppedIn(w, s1, rest));
    }
  }

  // ---------- exactly once, across all nodes ----------

  /** Nobody has work and no message hands any over. */
  ghost predicate NoWorkLeft(w: World, s: Cluster) {
    && (forall i :: 0 <= i < |s.nodes| ==> s.nodes[i].stack == [])
    && (forall p :: p in s.net ==> Handed(w, p) == [])
  }

  lemma NoWorkNoTotal(w: World, s: Cluster)
    requires NoWorkLeft(w, s)
    ensures Total(w, s) == multiset{}
  {
    EmptyStacks(w, s.nodes);
    NothingHanded(w, s.net);
  }

  /**
   * However the work was split and whoever did it, lost it or did it again: when no work is left,
   * everything popped and everything dropped are all simple paths, once each, and the repetitions.
   */
  lemma ClusterLedger(w: World, s: Cluster, order: seq<nat>, steps: seq<Step>)
    requires w.Valid() && Fresh(w, s) && DealOrder(w, order)
    requires Legal(w, Launch(w, s, order), steps) && NoWorkLeft(w, Final(w, Launch(w, s, order), steps))
    ensures Pending(w.g, After(w.g, Start(w.g), WARM_UP).stack) + RepeatedIn(w, Launch(w, s, order), steps)
         == PoppedIn(w, Launch(w, s, order), steps) + DroppedIn(w, Launch(w, s, order), steps)
    ensures AllPaths(w.g) + RepeatedIn(w, Launch(w, s, order), steps)
         == Visited(w.g, Start(w.g), WARM_UP) + PoppedIn(w, Launch(w, s, order), steps)
            + DroppedIn(w, Launch(w, s, order), steps)
  {
    var s1 := Launch(w, s, order);
    var stack := After(w.g, Start(w.g), WARM_UP).stack;
    var v := OptimumExists(w.g);
    LaunchEstablishes(w, v, s, order);
    RunTotal(w, v, s1, steps);
    NoWorkNoTotal(w, Final(w, s1, steps));
    AddEmpty(PoppedIn(w, s1, steps));
    LaunchSplits(w, s, order, stack);
    SharesPending(w.g, stack, |order|);
    LaunchTotal(w, s, order);
    AddInFront(Visited(w.g, Start(w.g), WARM_UP), Total(w, s1), RepeatedIn(w, s1, steps),
               PoppedIn(w, s1, steps), DroppedIn(w, s1, steps));
  }

  lemma OptimumExists(g: Matrix) returns (v: int)
    requires g.size >= 1
    ensures IsOptimum(g, v)
  {
    var k := g.size * TreeSize(g.size - 1);
    SequentialSearch(g, k);
    v := After(g, Start(g), k).best;
  }

  /** In particular, without loss and repetition each simple path is popped exactly once. */
  lemma EachPathOnceInCluster(w: World, s: Cluster, order: seq<nat>, steps: seq<Step>, q: Path)
    requires w.Valid() && Fresh(w, s) && DealOrder(w, order)
    requires Legal(w, Launch(w, s, order), steps)
    requires Lossless(w, Launch(w, s, order), steps) && RepetitionFree(w, Launch(w, s, order), steps)
    requires NoWorkLeft(w, Final(w, Launch(w, s, order), steps))
    ensures (Visited(w.g, Start(w.g), WARM_UP) + PoppedIn(w, Launch(w, s, order), steps))[q]
         == if SimplePath(w.g, q) then 1 else 0
  {
    var s1 := Launch(w, s, order);
    ClusterLedger(w, s, order, steps);
    LosslessDropsNothing(w, s1, steps);
    NothingRepeated(w, s1, steps);
    AddEmpty(AllPaths(w.g));
    AddEmpty(Visited(w.g, Start(w.g), WARM_UP) + PoppedIn(w, s1, steps));
    PopulateCoversAll(w.g, q);
  }
}
