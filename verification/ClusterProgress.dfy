/** From wherever a run has got to, the cluster can come to rest without dropping a job. */
module ClusterProgress {
  import opened Basics
  import opened Paths
  import opened MaximumCuts
  import opened StackAssignments
  import opened Computations
  import opened Clusters
  import opened ClusterInvariants
  import opened ClusterRuns
  import opened ClusterAnnouncements
  import opened ClusterResults

  /** The leader has started and every node has a log or will get one. */
  ghost predicate Started(w: World, s: Cluster) {
    && |s.nodes| == |w.ids| && w.leader < |w.ids|
    && s.nodes[w.leader].phase != Initial
    && forall i :: 0 <= i < |s.nodes| ==> s.nodes[i].table.Some? || TableComing(s.net, i)
  }

  ghost predicate TableComing(net: seq<Packet>, i: nat) {
    exists p :: p in net && p.Assignment? && p.dest == i
  }

  lemma ComingKept(net: seq<Packet>, more: seq<Packet>, i: nat)
    requires TableComing(net, i) && net <= more
    ensures TableComing(more, i)
  {
    var p :| p in net && p.Assignment? && p.dest == i;
    var m :| 0 <= m < |net| && net[m] == p;
    assert more[m] == p;
  }

  /** Only a delivery takes a message away, and logs are never given up. */
  lemma StepGrows(w: World, v: int, s: Cluster, a: Step)
    requires w.Valid() && Inv(w, v, s) && Enabled(w, s, a)
    ensures !a.Deliver? ==> s.net <= Apply(w, s, a).net
    ensures forall i :: 0 <= i < |s.nodes| && s.nodes[i].table.Some? ==> Apply(w, s, a).nodes[i].table.Some?
    ensures forall i :: 0 <= i < |s.nodes| && s.nodes[i].phase != Initial ==> Apply(w, s, a).nodes[i].phase != Initial
  {
  }

  lemma ComingUnlessDelivered(net: seq<Packet>, k: nat, i: nat)
    requires k < |net| && TableComing(net, i) && !(net[k].Assignment? && net[k].dest == i)
    ensures TableComing(Without(net, k), i)
  {
    var p :| p in net && p.Assignment? && p.dest == i;
    var m :| 0 <= m < |net| && net[m] == p;
    if m < k {
      assert net[..k][m] == p;
    } else {
      assert net[k + 1..][m - k - 1] == p;
    }
    assert p in Without(net, k);
  }

  lemma StepKeepsStarted(w: World, v: int, s: Cluster, a: Step)
    requires w.Valid() && Inv(w, v, s) && Started(w, s) && Enabled(w, s, a)
    ensures Started(w, Apply(w, s, a))
  {
    var s' := Apply(w, s, a);
    StepGrows(w, v, s, a);
    forall i | 0 <= i < |s'.nodes| && s'.nodes[i].table.None?
      ensures TableComing(s'.net, i)
    {
      if a.Deliver? {
        DeliveredHasLog(w, s, a.k);
        ComingUnlessDelivered(s.net, a.k, i);
      } else {
        ComingKept(s.net, s'.net, i);
      }
    }
  }

  lemma DeliveredHasLog(w: World, s: Cluster, k: nat)
    requires |s.nodes| == |w.ids| && Enabled(w, s, Deliver(k))
    ensures Apply(w, s, Deliver(k)).nodes[s.net[k].dest].table.Some?
  {
  }

  lemma {:induction false} RunKeepsStarted(w: World, v: int, s: Cluster, steps: seq<Step>)
    requires w.Valid() && Inv(w, v, s) && Started(w, s) && Legal(w, s, steps)
    ensures Started(w, Final(w, s, steps))
    decreases |steps|
  {
    if steps != [] {
      StepKeepsInv(w, v, s, steps[0]);
      StepKeepsStarted(w, v, s, steps[0]);
      RunKeepsStarted(w, v, Apply(w, s, steps[0]), steps[1..]);
    }
  }

  lemma {:induction false} DealtTo(leader: nat, order: seq<nat>, a: Table, k: nat, j: nat)
    requires j < k <= |order|
    ensures Assignment(order[j], leader, a, true) in DealPackets(leader, order, a, k)
  {
    if j < k - 1 {
      DealtTo(leader, order, a, k - 1, j);
    }
  }

  lemma {:induction false} NoneOutside(s: set<int>, n: nat, x: nat)
    requires Outside(s, n) == 0 && x < n
    ensures x in s
  {
    if x < n - 1 {
      NoneOutside(s, n - 1, x);
    }
  }

  /** The deal order names every node. */
  lemma EveryoneIsDealt(w: World, order: seq<nat>, i: nat)
    requires DealOrder(w, order) && i < |w.ids|
    ensures i in order
  {
    var list: seq<int> := order;
    assert forall j, k :: 0 <= j < k < |list| ==> list[j] != list[k];
    OutsideOfList(list, |w.ids|);
    NoneOutside(Elems(list), |w.ids|, i);
    assert i in list;
  }

  lemma TableIsDealt(w: World, order: seq<nat>, a: Table, i: nat)
    requires DealOrder(w, order) && i < |w.ids| && i != w.leader
    ensures TableComing(DealPackets(w.leader, order, a, |order| - 1), i)
  {
    EveryoneIsDealt(w, order, i);
    var j :| 0 <= j < |order| && order[j] == i;
    DealtTo(w.leader, order, a, |order| - 1, j);
  }

  lemma LaunchStarted(w: World, s: Cluster, order: seq<nat>)
    requires w.Valid() && Fresh(w, s) && DealOrder(w, order)
    ensures Started(w, Launch(w, s, order))
  {
    LaunchedStack(w, s, order);
    forall i | 0 <= i < |w.ids| && i != w.leader ensures TableComing(Launch(w, s, order).net, i) {
      TableIsDealt(w, order, InitialDeal(w.g, s.nodes[w.leader], Names(w, order)), i);
    }
  }

  // ---------- what is left to do ----------

  /** How many tables are among the first `k` messages. */
  ghost function TablesTo(net: seq<Packet>, k: nat): nat
    requires k <= |net|
  {
    if k == 0 then 0 else TablesTo(net, k - 1) + if net[k - 1].Assignment? then 1 else 0
  }

  ghost function Tables(net: seq<Packet>): nat {
    TablesTo(net, |net|)
  }

  lemma {:induction false} TablesGone(net: seq<Packet>, k: nat, j: nat)
    requires k < |net| && j < |net|
    ensures TablesTo(Without(net, k), j) ==
            if j <= k then TablesTo(net, j) else TablesTo(net, j + 1) - if net[k].Assignment? then 1 else 0
  {
    if j > 0 {
      TablesGone(net, k, j - 1);
    }
  }

  lemma TablesWithout(net: seq<Packet>, k: nat)
    requires k < |net|
    ensures Tables(net) == Tables(Without(net, k)) + if net[k].Assignment? then 1 else 0
  {
    TablesGone(net, k, |net| - 1);
  }

  lemma {:induction false} ResultsAddNoTables(net: seq<Packet>, more: seq<Packet>, k: nat)
    requires k <= |net + more| && forall p :: p in more ==> p.Result?
    ensures TablesTo(net + more, k) == TablesTo(net, if k <= |net| then k else |net|)
  {
    if k > 0 {
      ResultsAddNoTables(net, more, k - 1);
      assert k > |net| ==> (net + more)[k - 1] in more;
    }
  }

  /** How many nodes are not waiting. */
  ghost function Busy(nodes: seq<NodeState>): nat {
    if nodes == [] then 0 else Busy(nodes[..|nodes| - 1]) + if nodes[|nodes| - 1].phase == Waiting then 0 else 1
  }

  lemma {:induction false} BusyUpdate(nodes: seq<NodeState>, i: nat, st: NodeState)
    requires i < |nodes|
    ensures Busy(nodes[i := st]) + (if nodes[i].phase == Waiting then 0 else 1)
         == Busy(nodes) + if st.phase == Waiting then 0 else 1
  {
    var k := |nodes| - 1;
    if i < k {
      BusyUpdate(nodes[..k], i, st);
      assert nodes[i := st][..k] == nodes[..k][i := st];
    } else {
      assert nodes[i := st][..k] == nodes[..k];
    }
  }

  ghost function Work(w: World, s: Cluster): nat {
    |PendingAll(w.g, Stacks(s.nodes))|
  }

  lemma WorkUpdate(w: World, nodes: seq<NodeState>, i: nat, st: NodeState)
    requires i < |nodes|
    ensures |PendingAll(w.g, Stacks(nodes[i := st]))| + |Pending(w.g, nodes[i].stack)|
         == |PendingAll(w.g, Stacks(nodes))| + |Pending(w.g, st.stack)|
  {
    NodeChange(w, nodes, i, st);
    var a, b := PendingAll(w.g, Stacks(nodes[i := st])), Pending(w.g, nodes[i].stack);
    var c, d := PendingAll(w.g, Stacks(nodes)), Pending(w.g, st.stack);
    assert |a + b| == |c + d|;
  }

  // ---------- the next step towards rest ----------

  /** A quantum of a computing node lowers its work or puts it to rest. */
  lemma TickHelps(w: World, v: int, s: Cluster, i: nat)
    requires w.Valid() && Inv(w, v, s) && i < |s.nodes| && s.nodes[i].phase == Computing
    ensures var s' := Apply(w, s, Tick(i));
            && Tables(s'.net) == Tables(s.net)
            && (Work(w, s') < Work(w, s) || (Work(w, s') == Work(w, s) && Busy(s'.nodes) < Busy(s.nodes)))
  {
    var st, s' := s.nodes[i], Apply(w, s, Tick(i));
    assert NodeOk(w.g, v, st);
    PopsLeft(w.g, Search(st.stack, st.bestMax), QUANTUM);
    WorkUpdate(w, s.nodes, i, s'.nodes[i]);
    BusyUpdate(s.nodes, i, s'.nodes[i]);
    var report := QuantumReport(w.g, st);
    if report.Some? {
      ResultsHandNothing(w, i, report.value, |s.nodes|);
      ResultsAddNoTables(s.net, ResultPackets(i, report.value, |s.nodes|), |s'.net|);
    }
  }

  lemma WakeHelps(w: World, s: Cluster, i: nat)
    requires |s.nodes| == |w.ids| && Enabled(w, s, Wake(i))
    ensures var s' := Apply(w, s, Wake(i));
            s'.net == s.net && Work(w, s') == Work(w, s) && Busy(s'.nodes) < Busy(s.nodes)
  {
    WorkUpdate(w, s.nodes, i, s.nodes[i].(phase := Waiting));
    BusyUpdate(s.nodes, i, s.nodes[i].(phase := Waiting));
  }

  /** A delivered result changes neither the work nor who is busy. */
  lemma ResultHelps(w: World, s: Cluster, k: nat)
    requires |s.nodes| == |w.ids| && Enabled(w, s, Deliver(k)) && s.net[k].Result?
    ensures var s' := Apply(w, s, Deliver(k));
            && Tables(s'.net) == Tables(s.net) && Work(w, s') == Work(w, s) && Busy(s'.nodes) == Busy(s.nodes)
            && |s'.net| < |s.net|
  {
    var p := s.net[k];
    TablesWithout(s.net, k);
    WorkUpdate(w, s.nodes, p.dest, Received(w, s.nodes[p.dest], p));
    BusyUpdate(s.nodes, p.dest, Received(w, s.nodes[p.dest], p));
  }

  /** A step that drops nothing and brings the cluster closer to rest. */
  lemma NextStep(w: World, v: int, s: Cluster) returns (a: Step)
    requires w.Valid() && Inv(w, v, s) && Started(w, s) && !AtRest(s)
    ensures Enabled(w, s, a) && !Lossy(w, s, a)
    ensures var s' := Apply(w, s, a);
            || Tables(s'.net) < Tables(s.net)
            || (Tables(s'.net) == Tables(s.net) && Work(w, s') < Work(w, s))
            || (Tables(s'.net) == Tables(s.net) && Work(w, s') == Work(w, s) && Busy(s'.nodes) < Busy(s.nodes))
            || (Tables(s'.net) == Tables(s.net) && Work(w, s') == Work(w, s) && Busy(s'.nodes) == Busy(s.nodes)
                && |s'.net| < |s.net|)
  {
    if i :| 0 <= i < |s.nodes| && s.nodes[i].phase == Computing {
      a := Tick(i);
      TickHelps(w, v, s, i);
    } else if i :| 0 <= i < |s.nodes| && s.nodes[i].phase == Initial {
      a := Wake(i);
      WakeHelps(w, s, i);
    } else {
      forall i | 0 <= i < |s.nodes| ensures s.nodes[i].phase == Waiting {
        assert NodeOk(w.g, v, s.nodes[i]);
      }
      a := NextDelivery(w, v, s);
    }
  }

  lemma NextDelivery(w: World, v: int, s: Cluster) returns (a: Step)
    requires w.Valid() && Inv(w, v, s) && Started(w, s) && s.net != []
    requires forall i :: 0 <= i < |s.nodes| ==> s.nodes[i].phase == Waiting
    ensures Enabled(w, s, a) && !Lossy(w, s, a)
    ensures var s' := Apply(w, s, a);
            || Tables(s'.net) < Tables(s.net)
            || (Tables(s'.net) == Tables(s.net) && Work(w, s') == Work(w, s) && Busy(s'.nodes) == Busy(s.nodes)
                && |s'.net| < |s.net|)
  {
    if k :| 0 <= k < |s.net| && s.net[k].Assignment? {
      assert s.net[k] in s.net;
      a := Deliver(k);
      TablesWithout(s.net, k);
    } else {
      assert s.net[0] in s.net && PacketOk(w, v, s.net[0]);
      var i := s.net[0].dest;
      assert !TableComing(s.net, i);
      a := Deliver(0);
      ResultHelps(w, s, 0);
    }
  }

  /** Rest can always be reached without dropping a job. */
  lemma {:induction false} RestIsReachable(w: World, v: int, s: Cluster) returns (steps: seq<Step>)
    requires w.Valid() && Inv(w, v, s) && Started(w, s)
    ensures Legal(w, s, steps) && Lossless(w, s, steps) && AtRest(Final(w, s, steps))
    decreases Tables(s.net), Work(w, s), Busy(s.nodes), |s.net|
  {
    if AtRest(s) {
      steps := [];
    } else {
      var a := NextStep(w, v, s);
      var s' := Apply(w, s, a);
      StepKeepsInv(w, v, s, a);
      StepKeepsStarted(w, v, s, a);
      var rest := RestIsReachable(w, v, s');
      steps := [a] + rest;
      assert steps[1..] == rest;
    }
  }

  lemma TailOfSum<T>(a: seq<T>, b: seq<T>)
    requires a != []
    ensures (a + b)[0] == a[0] && (a + b)[1..] == a[1..] + b
  {
  }

  lemma {:induction false} RunsInARow(w: World, s: Cluster, before: seq<Step>, later: seq<Step>)
    requires Legal(w, s, before) && Legal(w, Final(w, s, before), later)
    ensures Legal(w, s, before + later)
    ensures Final(w, s, before + later) == Final(w, Final(w, s, before), later)
    decreases |before|
  {
    if before == [] {
      assert before + later == later;
    } else {
      TailOfSum(before, later);
      RunsInARow(w, Apply(w, s, before[0]), before[1..], later);
    }
  }

  lemma {:induction false} LosslessInARow(w: World, s: Cluster, before: seq<Step>, later: seq<Step>)
    requires Legal(w, s, before) && Legal(w, Final(w, s, before), later) && Legal(w, s, before + later)
    requires Lossless(w, s, before) && Lossless(w, Final(w, s, before), later)
    ensures Lossless(w, s, before + later)
    decreases |before|
  {
    if before == [] {
      assert before + later == later;
    } else {
      TailOfSum(before, later);
      LosslessInARow(w, Apply(w, s, before[0]), before[1..], later);
    }
  }

  lemma {:induction false} StillComputes(w: World, s: Cluster, before: seq<Step>, later: seq<Step>)
    requires w.leader < |w.ids| && Legal(w, s, before) && Legal(w, s, before + later)
    requires LeaderComputes(w, s, before)
    ensures LeaderComputes(w, s, before + later)
    decreases |before|
  {
    if s.nodes[w.leader].phase != Computing {
      TailOfSum(before, later);
      StillComputes(w, Apply(w, s, before[0]), before[1..], later);
    }
  }

  /**
   * Whatever has happened without loss, the run can be continued so that in the end every node
   * reports the optimum, on the conditions of `EveryNodeFindsTheOptimum`.
   */
  lemma EveryNodeCanFinish(w: World, v: int, s: Cluster, order: seq<nat>, before: seq<Step>) returns (later: seq<Step>)
    requires w.Valid() && Fresh(w, s) && DealOrder(w, order) && IsOptimum(w.g, v)
    requires Legal(w, Launch(w, s, order), before) && Lossless(w, Launch(w, s, order), before)
    ensures Legal(w, Launch(w, s, order), before + later) && Lossless(w, Launch(w, s, order), before + later)
    ensures AtRest(Final(w, Launch(w, s, order), before + later))
    ensures LeaderComputes(w, Launch(w, s, order), before) ==> LeaderComputes(w, Launch(w, s, order), before + later)
    ensures |Final(w, Launch(w, s, order), before + later).nodes| == |w.ids|
    ensures forall j :: 0 <= j < |w.ids| ==>
              (Final(w, Launch(w, s, order), before + later).nodes[j].bestFound == v
               <==> v < TWO_TO_31 &&
                    (LeaderComputes(w, Launch(w, s, order), before + later)
                     || IsMax(w.g, v, 0, Pending(w.g, After(w.g, Start(w.g), WARM_UP).stack))))
  {
    var s1 := Launch(w, s, order);
    LaunchEstablishes(w, v, s, order);
    LaunchStarted(w, s, order);
    RunKeepsInv(w, v, s1, before);
    RunKeepsStarted(w, v, s1, before);
    later := RestIsReachable(w, v, Final(w, s1, before));
    RunsInARow(w, s1, before, later);
    LosslessInARow(w, s1, before, later);
    if LeaderComputes(w, s1, before) {
      StillComputes(w, s1, before, later);
    }
    RunKeepsInv(w, v, s1, before + later);
    forall j | 0 <= j < |w.ids|
      ensures Final(w, s1, before + later).nodes[j].bestFound == v
         <==> v < TWO_TO_31 &&
              (LeaderComputes(w, s1, before + later)
               || IsMax(w.g, v, 0, Pending(w.g, After(w.g, Start(w.g), WARM_UP).stack)))
    {
      RestIsDone(w, v, Final(w, s1, before + later), j);
      EveryNodeFindsTheOptimum(w, v, s, order, before + later, j);
    }
  }
}
