/** What the nodes have found and what they have been told, in any run. */
module ClusterAnnouncements {
  import opened Basics
  import opened Multisets
  import opened Matrices
  import opened Paths
  import opened MaximumCuts
  import opened Computations
  import opened Clusters
  import opened ClusterInvariants
  import opened ClusterRuns

  // ---------- announcements ----------

  /** Node `j` knows of node `i`'s best value, or a message on its way will tell it. */
  ghost predicate Heard(s: Cluster, i: nat, j: nat)
    requires i < |s.nodes| && j < |s.nodes|
  {
    || ToInt32(s.nodes[i].bestMax) <= s.nodes[j].bestFound
    || exists p :: p in s.net && p.Result? && p.dest == j && p.from == i && p.best >= ToInt32(s.nodes[i].bestMax)
  }

  /** Everybody has heard, or will hear, of every node that is not computing; `exempt` apart. */
  ghost predicate Announced(s: Cluster, exempt: set<nat>) {
    forall i, j :: 0 <= i < |s.nodes| && 0 <= j < |s.nodes| && i !in exempt && s.nodes[i].phase != Computing ==>
      Heard(s, i, j)
  }

  /** Best results only grow, and a result leaves the network only by being taken into account. */
  ghost predicate ResultsKept(s: Cluster, s': Cluster) {
    && |s'.nodes| == |s.nodes|
    && (forall j :: 0 <= j < |s.nodes| ==> s.nodes[j].bestFound <= s'.nodes[j].bestFound)
    && (forall p :: p in s.net && p.Result? && p.dest < |s.nodes| ==>
          p in s'.net || p.best <= s'.nodes[p.dest].bestFound)
  }

  lemma {:induction false} EveryoneIsTold(from: nat, best: Int32, n: nat, j: nat)
    requires j < n && j != from
    ensures Result(j, from, best) in ResultPackets(from, best, n)
  {
    if j < n - 1 {
      EveryoneIsTold(from, best, n - 1, j);
    }
  }

  /** More messages, and one node whose best result has not fallen. */
  lemma GrowthKeepsResults(s: Cluster, i: nat, st: NodeState, more: seq<Packet>)
    requires i < |s.nodes| && s.nodes[i].bestFound <= st.bestFound
    ensures ResultsKept(s, Cluster(s.nodes[i := st], s.net + more))
  {
  }

  lemma DeliveryKeepsResults(w: World, s: Cluster, k: nat)
    requires |s.nodes| == |w.ids| && Enabled(w, s, Deliver(k))
    ensures ResultsKept(s, Apply(w, s, Deliver(k)))
  {
    var s' := Apply(w, s, Deliver(k));
    forall p | p in s.net && p.Result? && p.dest < |s.nodes|
      ensures p in s'.net || p.best <= s'.nodes[p.dest].bestFound
    {
      var m :| 0 <= m < |s.net| && s.net[m] == p;
      if m < k {
        assert s.net[..k][m] == p;
      } else if m > k {
        assert s.net[k + 1..][m - k - 1] == p;
      }
    }
  }

  lemma StepKeepsResults(w: World, s: Cluster, a: Step)
    requires |s.nodes| == |w.ids| && Enabled(w, s, a)
    ensures ResultsKept(s, Apply(w, s, a))
  {
    if a.Deliver? {
      DeliveryKeepsResults(w, s, a.k);
    } else {
      var s' := Apply(w, s, a);
      var more := s'.net[|s.net|..];
      assert s'.net == s.net + more;
      GrowthKeepsResults(s, a.i, s'.nodes[a.i], more);
      assert s'.nodes == s.nodes[a.i := s'.nodes[a.i]];
    }
  }

  /** A node's best value and its being at rest change together only when it reports. */
  lemma UnreportedChange(w: World, v: int, s: Cluster, a: Step, i: nat)
    requires w.Valid() && Inv(w, v, s) && Enabled(w, s, a) && i < |s.nodes|
    requires Apply(w, s, a).nodes[i].phase != Computing
    ensures (s.nodes[i].phase != Computing && Apply(w, s, a).nodes[i].bestMax == s.nodes[i].bestMax)
         || (a == Tick(i) && QuantumReport(w.g, s.nodes[i]).Some?)
  {
    assert NodeOk(w.g, v, s.nodes[i]);
    if a == Tick(i) && s.nodes[i].phase != Computing {
      AfterEmpty(w.g, Search(s.nodes[i].stack, s.nodes[i].bestMax), QUANTUM);
    }
    if a.Divide? && a.i == i {
      DividedOk(w.g, v, w.ids[i], s.nodes[i], w.ids[a.with]);
    }
  }

  lemma ReporterIsHeard(w: World, s: Cluster, i: nat, j: nat)
    requires |s.nodes| == |w.ids| && i < |s.nodes| && j < |s.nodes| && QuantumReport(w.g, s.nodes[i]).Some?
    ensures Heard(Apply(w, s, Tick(i)), i, j)
  {
    var s' := Apply(w, s, Tick(i));
    var best := QuantumReport(w.g, s.nodes[i]).value;
    assert ToInt32(s'.nodes[i].bestMax) == best;
    if i != j {
      EveryoneIsTold(i, best, |s.nodes|, j);
      assert Result(j, i, best) in s'.net;
    }
  }

  lemma StepKeepsAnnounced(w: World, v: int, s: Cluster, a: Step, exempt: set<nat>)
    requires w.Valid() && Inv(w, v, s) && Enabled(w, s, a) && Announced(s, exempt)
    ensures Announced(Apply(w, s, a), exempt)
  {
    var s' := Apply(w, s, a);
    StepKeepsResults(w, s, a);
    forall i, j | 0 <= i < |s'.nodes| && 0 <= j < |s'.nodes| && i !in exempt && s'.nodes[i].phase != Computing
      ensures Heard(s', i, j)
    {
      UnreportedChange(w, v, s, a, i);
      if a == Tick(i) && QuantumReport(w.g, s.nodes[i]).Some? {
        ReporterIsHeard(w, s, i, j);
      } else {
        assert Heard(s, i, j);
        StillHeard(s, s', i, j);
      }
    }
  }

  lemma StillHeard(s: Cluster, s': Cluster, i: nat, j: nat)
    requires ResultsKept(s, s') && i < |s.nodes| && j < |s.nodes| && Heard(s, i, j)
    requires s'.nodes[i].bestMax == s.nodes[i].bestMax
    ensures Heard(s', i, j)
  {
  }

  lemma {:induction false} RunKeepsAnnounced(w: World, v: int, s: Cluster, steps: seq<Step>, exempt: set<nat>)
    requires w.Valid() && Inv(w, v, s) && Legal(w, s, steps) && Announced(s, exempt)
    ensures Announced(Final(w, s, steps), exempt)
    decreases |steps|
  {
    if steps != [] {
      StepKeepsInv(w, v, s, steps[0]);
      StepKeepsAnnounced(w, v, s, steps[0], exempt);
      RunKeepsAnnounced(w, v, Apply(w, s, steps[0]), steps[1..], exempt);
    }
  }

  lemma LaunchAnnounced(w: World, s: Cluster, order: seq<nat>)
    requires w.Valid() && Fresh(w, s) && DealOrder(w, order)
    ensures Announced(Launch(w, s, order), {w.leader})
  {
  }

  /** A node that never led has counted its own best result whenever it is not computing. */
  lemma OwnBestIsCounted(w: World, v: int, s: Cluster, order: seq<nat>, steps: seq<Step>, i: nat)
    requires w.Valid() && Fresh(w, s) && DealOrder(w, order) && IsOptimum(w.g, v)
    requires Legal(w, Launch(w, s, order), steps) && i < |w.ids| && i != w.leader
    ensures var t := Final(w, Launch(w, s, order), steps);
            && i < |t.nodes| && NodeOk(w.g, v, t.nodes[i])
            && (t.nodes[i].phase != Computing ==>
                  t.nodes[i].stack == [] && ToInt32(t.nodes[i].bestMax) <= t.nodes[i].bestFound)
  {
    var s1 := Launch(w, s, order);
    LaunchEstablishes(w, v, s, order);
    LaunchAnnounced(w, s, order);
    RunKeepsInv(w, v, s1, steps);
    RunKeepsAnnounced(w, v, s1, steps, {w.leader});
    var t := Final(w, s1, steps);
    assert t.nodes[i].phase != Computing ==> Heard(t, i, i);
    assert forall p :: p in t.net ==> PacketOk(w, v, p);
  }

  // ---------- what is known and what is found ----------

  /** No node has found or been told more than `r`. */
  ghost predicate Known(s: Cluster, r: int) {
    && (forall i :: 0 <= i < |s.nodes| ==> s.nodes[i].bestMax <= r && s.nodes[i].bestFound <= r)
    && (forall p :: p in s.net && p.Result? ==> p.best <= r)
  }

  ghost predicate Found(s: Cluster, r: int) {
    exists i :: 0 <= i < |s.nodes| && s.nodes[i].bestMax == r
  }

  /** The paths of a quantum are within what the node's stack stands for. */
  lemma PoppedBounded(w: World, v: int, s: Cluster, a: Step)
    requires w.Valid() && Inv(w, v, s) && Enabled(w, s, a)
    ensures forall q :: q in Popped(w, s, a) ==> Score(w.g, q) <= v
  {
    if a.Tick? {
      var st := s.nodes[a.i];
      assert NodeOk(w.g, v, st);
      VisitedPlusPending(w.g, Search(st.stack, st.bestMax), QUANTUM);
    }
  }

  lemma {:induction false} RunPoppedBounded(w: World, v: int, s: Cluster, steps: seq<Step>)
    requires w.Valid() && Inv(w, v, s) && Legal(w, s, steps)
    ensures forall q :: q in PoppedIn(w, s, steps) ==> Score(w.g, q) <= v
    decreases |steps|
  {
    if steps != [] {
      PoppedBounded(w, v, s, steps[0]);
      StepKeepsInv(w, v, s, steps[0]);
      RunPoppedBounded(w, v, Apply(w, s, steps[0]), steps[1..]);
    }
  }

  /** After a quantum a node has found the larger of what it had and the best popped path. */
  lemma TickBest(w: World, s: Cluster, i: nat)
    requires |s.nodes| == |w.ids| && i < |s.nodes|
    ensures IsMax(w.g, Apply(w, s, Tick(i)).nodes[i].bestMax, s.nodes[i].bestMax, Popped(w, s, Tick(i)))
  {
    BestOfVisited(w.g, Search(s.nodes[i].stack, s.nodes[i].bestMax), QUANTUM);
  }

  lemma TickKnown(w: World, s: Cluster, i: nat, r: int)
    requires |s.nodes| == |w.ids| && i < |s.nodes| && Known(s, r)
    requires forall q :: q in Popped(w, s, Tick(i)) ==> Score(w.g, q) <= r
    ensures Known(Apply(w, s, Tick(i)), r)
  {
    TickBest(w, s, i);
    var report := QuantumReport(w.g, s.nodes[i]);
    if report.Some? {
      ResultsHandNothing(w, i, report.value, |s.nodes|);
    }
  }

  lemma DeliverKnown(w: World, s: Cluster, k: nat, r: int)
    requires |s.nodes| == |w.ids| && Enabled(w, s, Deliver(k)) && Known(s, r)
    ensures Known(Apply(w, s, Deliver(k)), r)
  {
    assert s.net[k] in s.net;
    assert forall x :: x in Without(s.net, k) ==> x in s.net;
  }

  lemma DivideKnown(w: World, s: Cluster, i: nat, with: nat, r: int)
    requires |s.nodes| == |w.ids| && Enabled(w, s, Divide(i, with)) && Known(s, r)
    ensures Known(Apply(w, s, Divide(i, with)), r)
  {
    var division := Division(w.ids[i], s.nodes[i], w.ids[with]);
    if division.Some? {
      DivisionPackets(i, division.value, |s.nodes|);
    }
  }

  lemma StepKnown(w: World, s: Cluster, a: Step, r: int)
    requires |s.nodes| == |w.ids| && Enabled(w, s, a) && Known(s, r)
    requires forall q :: q in Popped(w, s, a) ==> Score(w.g, q) <= r
    ensures Known(Apply(w, s, a), r)
  {
    match a
    case Wake(i) =>
    case Tick(i) => TickKnown(w, s, i, r);
    case Divide(i, with) => DivideKnown(w, s, i, with, r);
    case Resend(i, to) =>
    case Deliver(k) => DeliverKnown(w, s, k, r);
  }

  /** What is found stays found, and a popped path counts. */
  lemma StepFinds(w: World, s: Cluster, a: Step, r: int)
    requires |s.nodes| == |w.ids| && Enabled(w, s, a) && Known(Apply(w, s, a), r)
    requires Found(s, r) || exists q :: q in Popped(w, s, a) && Score(w.g, q) == r
    ensures Found(Apply(w, s, a), r)
  {
    var s' := Apply(w, s, a);
    if a.Tick? {
      TickBest(w, s, a.i);
    }
    if i :| 0 <= i < |s.nodes| && s.nodes[i].bestMax == r {
      assert s'.nodes[i].bestMax == r;
    } else {
      assert s'.nodes[a.i].bestMax == r;
    }
  }

  lemma {:induction false} RunFinds(w: World, s: Cluster, steps: seq<Step>, r: int)
    requires Legal(w, s, steps) && Known(s, r)
    requires forall q :: q in PoppedIn(w, s, steps) ==> Score(w.g, q) <= r
    requires Found(s, r) || exists q :: q in PoppedIn(w, s, steps) && Score(w.g, q) == r
    ensures Known(Final(w, s, steps), r) && Found(Final(w, s, steps), r)
    decreases |steps|
  {
    if steps != [] {
      var a, rest := steps[0], steps[1..];
      StepKnown(w, s, a, r);
      if Found(s, r) || exists q :: q in Popped(w, s, a) && Score(w.g, q) == r {
        StepFinds(w, s, a, r);
      }
      RunFinds(w, Apply(w, s, a), rest, r);
    }
  }

  // ---------- a leader that never computes keeps its own result to itself ----------

  /** The leader computes at some time of the run. */
  ghost predicate LeaderComputes(w: World, s: Cluster, steps: seq<Step>)
    requires w.leader < |w.ids| && Legal(w, s, steps)
    decreases |steps|
  {
    || s.nodes[w.leader].phase == Computing
    || (steps != [] && LeaderComputes(w, Apply(w, s, steps[0]), steps[1..]))
  }

  /** The cluster as if the leader had found nothing. */
  ghost function Muted(w: World, s: Cluster): Cluster
    requires w.leader < |s.nodes|
  {
    LeaderHolds(w, s, 0)
  }

  lemma MutedInv(w: World, v: int, s: Cluster)
    requires w.Valid() && Inv(w, v, s) && 0 <= v
    ensures Inv(w, v, Muted(w, s))
  {
  }

  /** An idle leader does the same whatever it has found. */
  lemma MutedTick(w: World, v: int, s: Cluster, i: nat)
    requires w.Valid() && Inv(w, v, s) && i < |s.nodes| && s.nodes[w.leader].phase != Computing
    ensures Apply(w, Muted(w, s), Tick(i)) == Muted(w, Apply(w, s, Tick(i)))
    ensures Popped(w, Muted(w, s), Tick(i)) == Popped(w, s, Tick(i))
  {
    var st := s.nodes[i];
    assert NodeOk(w.g, v, st);
    if i == w.leader {
      QuantumEmpties(w.g, w.ids[i], st);
      QuantumEmpties(w.g, w.ids[i], st.(bestMax := 0));
    }
    assert Muted(w, s).nodes[i := Muted(w, Apply(w, s, Tick(i))).nodes[i]] == Muted(w, Apply(w, s, Tick(i))).nodes;
  }

  lemma MutedDivide(w: World, v: int, s: Cluster, i: nat, with: nat)
    requires w.Valid() && Inv(w, v, s) && Enabled(w, s, Divide(i, with)) && s.nodes[w.leader].phase != Computing
    ensures Apply(w, Muted(w, s), Divide(i, with)) == Muted(w, Apply(w, s, Divide(i, with)))
  {
    DividedOk(w.g, v, w.ids[i], s.nodes[i], w.ids[with]);
    var s' := Apply(w, s, Divide(i, with));
    assert Muted(w, s).nodes[i := Muted(w, s').nodes[i]] == Muted(w, s').nodes;
  }

  lemma MutedDeliver(w: World, s: Cluster, k: nat)
    requires w.Valid() && |s.nodes| == |w.ids| && Enabled(w, s, Deliver(k))
    ensures Enabled(w, Muted(w, s), Deliver(k))
    ensures Apply(w, Muted(w, s), Deliver(k)) == Muted(w, Apply(w, s, Deliver(k)))
    ensures Lossy(w, Muted(w, s), Deliver(k)) == Lossy(w, s, Deliver(k))
  {
    var i := s.net[k].dest;
    var s' := Apply(w, s, Deliver(k));
    assert Muted(w, s).nodes[i := Muted(w, s').nodes[i]] == Muted(w, s').nodes;
  }

  lemma MutedStep(w: World, v: int, s: Cluster, a: Step)
    requires w.Valid() && Inv(w, v, s) && Enabled(w, s, a) && s.nodes[w.leader].phase != Computing
    ensures Enabled(w, Muted(w, s), a)
    ensures Apply(w, Muted(w, s), a) == Muted(w, Apply(w, s, a))
    ensures Popped(w, Muted(w, s), a) == Popped(w, s, a)
  {
    match a
    case Wake(i) =>
      assert Muted(w, s).nodes[i := Muted(w, Apply(w, s, a)).nodes[i]] == Muted(w, Apply(w, s, a)).nodes;
    case Tick(i) => MutedTick(w, v, s, i);
    case Divide(i, with) => MutedDivide(w, v, s, i, with);
    case Resend(i, to) =>
    case Deliver(k) => MutedDeliver(w, s, k);
  }

  lemma {:induction false} MutedRun(w: World, v: int, s: Cluster, steps: seq<Step>)
    requires w.Valid() && Inv(w, v, s) && Legal(w, s, steps) && !LeaderComputes(w, s, steps)
    ensures Legal(w, Muted(w, s), steps) && w.leader < |Final(w, s, steps).nodes|
    ensures Final(w, Muted(w, s), steps) == Muted(w, Final(w, s, steps))
    ensures PoppedIn(w, Muted(w, s), steps) == PoppedIn(w, s, steps)
    decreases |steps|
  {
    if steps != [] {
      MutedStep(w, v, s, steps[0]);
      StepKeepsInv(w, v, s, steps[0]);
      MutedRun(w, v, Apply(w, s, steps[0]), steps[1..]);
    }
  }

  /** Once the leader has computed, its own result is announced like everyone else's. */
  lemma {:induction false} LeaderIsHeard(w: World, v: int, s: Cluster, steps: seq<Step>)
    requires w.Valid() && Inv(w, v, s) && Legal(w, s, steps) && LeaderComputes(w, s, steps)
    requires Announced(s, {w.leader})
    ensures Announced(Final(w, s, steps), {})
    decreases |steps|
  {
    if s.nodes[w.leader].phase == Computing {
      assert Announced(s, {});
      RunKeepsAnnounced(w, v, s, steps, {});
    } else {
      StepKeepsInv(w, v, s, steps[0]);
      StepKeepsAnnounced(w, v, s, steps[0], {w.leader});
      LeaderIsHeard(w, v, Apply(w, s, steps[0]), steps[1..]);
    }
  }

  // ---------- the result of any run ----------

  /** Nobody computes and no result is on its way to node `j`. */
  ghost predicate Told(s: Cluster, j: nat) {
    && (forall i :: 0 <= i < |s.nodes| ==> s.nodes[i].phase != Computing)
    && (forall p :: p in s.net ==> !(p.Result? && p.dest == j))
  }

  lemma ToldResult(s: Cluster, r: int, j: nat)
    requires Known(s, r) && Found(s, r) && Announced(s, {}) && Told(s, j) && j < |s.nodes|
    ensures s.nodes[j].bestFound <= r
    ensures s.nodes[j].bestFound == r <==> r < TWO_TO_31
  {
    var i :| 0 <= i < |s.nodes| && s.nodes[i].bestMax == r;
    assert Heard(s, i, j);
  }

  /** The paths whose scores reach the others: all popped ones, the leader's warm-up if it ever computes. */
  ghost function Counted(w: World, s: Cluster, steps: seq<Step>): multiset<Path>
    requires w.leader < |w.ids| && Legal(w, s, steps)
  {
    PoppedIn(w, s, steps) + if LeaderComputes(w, s, steps) then Visited(w.g, Start(w.g), WARM_UP) else multiset{}
  }

  /** The paths that ought to count. */
  ghost function Entrusted(w: World, s: Cluster, steps: seq<Step>): multiset<Path>
    requires w.leader < |w.ids| && Legal(w, s, steps)
  {
    if LeaderComputes(w, s, steps) then AllPaths(w.g) else Pending(w.g, After(w.g, Start(w.g), WARM_UP).stack)
  }

  lemma LoudRun(w: World, s: Cluster, order: seq<nat>, steps: seq<Step>, r: int, j: nat)
    requires w.Valid() && Fresh(w, s) && DealOrder(w, order) && j < |w.ids|
    requires Legal(w, Launch(w, s, order), steps) && LeaderComputes(w, Launch(w, s, order), steps)
    requires Told(Final(w, Launch(w, s, order), steps), j)
    requires IsMax(w.g, r, 0, PoppedIn(w, Launch(w, s, order), steps) + Visited(w.g, Start(w.g), WARM_UP))
    ensures j < |Final(w, Launch(w, s, order), steps).nodes|
    ensures Final(w, Launch(w, s, order), steps).nodes[j].bestFound <= r
    ensures Final(w, Launch(w, s, order), steps).nodes[j].bestFound == r <==> r < TWO_TO_31
  {
    var s1 := Launch(w, s, order);
    var v := OptimumExists(w.g);
    LaunchEstablishes(w, v, s, order);
    RunKeepsInv(w, v, s1, steps);
    LaunchAnnounced(w, s, order);
    LeaderIsHeard(w, v, s1, steps);
    LaunchKnown(w, s, order, r, PoppedIn(w, s1, steps));
    RunFinds(w, s1, steps, r);
    ToldResult(Final(w, s1, steps), r, j);
  }

  /** Only the leader has changed and only tables are on their way. */
  lemma LaunchTables(w: World, s: Cluster, order: seq<nat>)
    requires w.Valid() && Fresh(w, s) && DealOrder(w, order)
    ensures var s1 := Launch(w, s, order);
            && s1.nodes == s.nodes[w.leader := s1.nodes[w.leader]]
            && (forall p :: p in s1.net ==> p.Assignment?)
  {
    DealPacketsShape(w.leader, order, InitialDeal(w.g, s.nodes[w.leader], Names(w, order)), |order| - 1);
  }

  lemma StartKnown(w: World, s: Cluster, st: NodeState, net: seq<Packet>, r: int)
    requires Fresh(w, s) && (forall p :: p in net ==> p.Assignment?)
    requires 0 <= r && st.bestMax <= r && st.bestFound == 0
    ensures Known(Cluster(s.nodes[w.leader := st], net), r)
    ensures st.bestMax == r ==> Found(Cluster(s.nodes[w.leader := st], net), r)
    ensures st.bestMax == 0 ==> Announced(Cluster(s.nodes[w.leader := st], net), {})
  {
    var t := Cluster(s.nodes[w.leader := st], net);
    assert t.nodes[w.leader] == st;
  }

  lemma LaunchKnown(w: World, s: Cluster, order: seq<nat>, r: int, popped: multiset<Path>)
    requires w.Valid() && Fresh(w, s) && DealOrder(w, order)
    requires IsMax(w.g, r, 0, popped + Visited(w.g, Start(w.g), WARM_UP))
    ensures Known(Launch(w, s, order), r)
    ensures Found(Launch(w, s, order), r) || exists q :: q in popped && Score(w.g, q) == r
  {
    var s1 := Launch(w, s, order);
    LaunchedStack(w, s, order);
    LaunchTables(w, s, order);
    BestOfVisited(w.g, Start(w.g), WARM_UP);
    MaxOfSum(w.g, s1.nodes[w.leader].bestMax, popped, Visited(w.g, Start(w.g), WARM_UP), r);
    StartKnown(w, s, s1.nodes[w.leader], s1.net, r);
  }

  lemma MaxOfSum(g: Matrix, best: int, popped: multiset<Path>, visited: multiset<Path>, r: int)
    requires IsMax(g, best, 0, visited) && IsMax(g, r, 0, popped + visited)
    ensures best <= r
    ensures best == r || exists q :: q in popped && Score(g, q) == r
  {
    assert forall q :: q in visited ==> q in popped + visited;
  }

  lemma MutedLaunch(w: World, s: Cluster, order: seq<nat>, r: int)
    requires w.Valid() && Fresh(w, s) && DealOrder(w, order) && 0 <= r
    ensures Known(Muted(w, Launch(w, s, order)), r) && Announced(Muted(w, Launch(w, s, order)), {})
    ensures r == 0 ==> Found(Muted(w, Launch(w, s, order)), r)
  {
    var s1 := Launch(w, s, order);
    LaunchedStack(w, s, order);
    LaunchTables(w, s, order);
    var st := s1.nodes[w.leader].(bestMax := 0);
    StartKnown(w, s, st, s1.net, r);
    assert Muted(w, s1) == Cluster(s.nodes[w.leader := st], s1.net);
  }

  /** The muted cluster takes the same steps, announces everything and ends with the same results. */
  lemma MutedEnd(w: World, s: Cluster, order: seq<nat>, steps: seq<Step>, r: int)
    requires w.Valid() && Fresh(w, s) && DealOrder(w, order) && 0 <= r
    requires Legal(w, Launch(w, s, order), steps) && !LeaderComputes(w, Launch(w, s, order), steps)
    ensures var s1, t := Launch(w, s, order), Muted(w, Launch(w, s, order));
            && Legal(w, t, steps) && Announced(Final(w, t, steps), {})
            && |Final(w, s1, steps).nodes| == |w.ids|
            && Final(w, t, steps) == Muted(w, Final(w, s1, steps))
            && PoppedIn(w, t, steps) == PoppedIn(w, s1, steps)
  {
    var s1 := Launch(w, s, order);
    var v := OptimumExists(w.g);
    OptimumBounds(w.g, v);
    LaunchEstablishes(w, v, s, order);
    RunKeepsInv(w, v, s1, steps);
    MutedInv(w, v, s1);
    MutedRun(w, v, s1, steps);
    MutedLaunch(w, s, order, r);
    RunKeepsAnnounced(w, v, Muted(w, s1), steps, {});
  }

  lemma QuietRun(w: World, s: Cluster, order: seq<nat>, steps: seq<Step>, r: int, j: nat)
    requires w.Valid() && Fresh(w, s) && DealOrder(w, order) && j < |w.ids|
    requires Legal(w, Launch(w, s, order), steps) && !LeaderComputes(w, Launch(w, s, order), steps)
    requires Told(Final(w, Launch(w, s, order), steps), j)
    requires IsMax(w.g, r, 0, PoppedIn(w, Launch(w, s, order), steps))
    ensures j < |Final(w, Launch(w, s, order), steps).nodes|
    ensures Final(w, Launch(w, s, order), steps).nodes[j].bestFound <= r
    ensures Final(w, Launch(w, s, order), steps).nodes[j].bestFound == r <==> r < TWO_TO_31
  {
    var t := Muted(w, Launch(w, s, order));
    MutedEnd(w, s, order, steps, r);
    MutedLaunch(w, s, order, r);
    RunFinds(w, t, steps, r);
    MutedTold(w, Final(w, Launch(w, s, order), steps), r, j);
  }

  lemma MutedTold(w: World, s: Cluster, r: int, j: nat)
    requires w.leader < |s.nodes| && j < |s.nodes| && Told(s, j)
    requires Known(Muted(w, s), r) && Found(Muted(w, s), r) && Announced(Muted(w, s), {})
    ensures s.nodes[j].bestFound <= r
    ensures s.nodes[j].bestFound == r <==> r < TWO_TO_31
  {
    ToldResult(Muted(w, s), r, j);
  }

  /**
   * Whatever is lost, repeated or delayed: when nobody computes and no result is on its way to a
   * node, that node reports the greatest score of the counted paths - exactly if that fits into
   * the `int32_t` in which it is announced.
   */
  lemma ResultOfAnyRun(w: World, s: Cluster, order: seq<nat>, steps: seq<Step>, r: int, j: nat)
    requires w.Valid() && Fresh(w, s) && DealOrder(w, order) && j < |w.ids|
    requires Legal(w, Launch(w, s, order), steps) && Told(Final(w, Launch(w, s, order), steps), j)
    requires IsMax(w.g, r, 0, Counted(w, Launch(w, s, order), steps))
    ensures j < |Final(w, Launch(w, s, order), steps).nodes|
    ensures Final(w, Launch(w, s, order), steps).nodes[j].bestFound <= r
    ensures Final(w, Launch(w, s, order), steps).nodes[j].bestFound == r <==> r < TWO_TO_31
  {
    if LeaderComputes(w, Launch(w, s, order), steps) {
      LoudRun(w, s, order, steps, r, j);
    } else {
      AddEmpty(PoppedIn(w, Launch(w, s, order), steps));
      QuietRun(w, s, order, steps, r, j);
    }
  }
}
