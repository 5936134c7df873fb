/** What every step of the cluster keeps. */
module ClusterInvariants {
  import opened Basics
  import opened Multisets
  import opened Matrices
  import opened Paths
  import opened ParallelStacks
  import opened MaximumCuts
  import opened StackAssignments
  import opened Splitting
  import opened Computations
  import opened Clusters

  // ---------- the invariant ----------

  /** Valid paths none of which leads to more than `v`. */
  ghost predicate Bounded(g: Matrix, v: int, stack: seq<Path>) {
    ValidStack(g, stack) && forall q :: q in Pending(g, stack) ==> Score(g, q) <= v
  }

  ghost predicate BoundedTable(g: Matrix, v: int, t: Table) {
    forall k :: k in t ==> Bounded(g, v, t[k])
  }

  /**
   * Between two loop ticks: a node that is not computing has an empty stack, a computing node has
   * a log, and neither its work, nor its log, nor its results lead to more than `v`.
   */
  ghost predicate NodeOk(g: Matrix, v: int, st: NodeState) {
    && st.phase in {Initial, Computing, Waiting}
    && (st.phase != Computing ==> st.stack == [])
    && (st.phase == Computing ==> st.table.Some?)
    && Bounded(g, v, st.stack) && BoundedTable(g, v, TableOf(st))
    && st.bestMax <= v && st.bestFound <= v
  }

  ghost predicate PacketOk(w: World, v: int, p: Packet) {
    && p.dest < |w.ids|
    && match p
       case Assignment(dest, from, t, handover) =>
         from < |w.ids| && (handover ==> from != dest) && BoundedTable(w.g, v, t)
       case Result(dest, from, best) => from < |w.ids| && from != dest && best <= v
  }

  ghost predicate Inv(w: World, v: int, s: Cluster) {
    && |s.nodes| == |w.ids|
    && (forall i :: 0 <= i < |s.nodes| ==> NodeOk(w.g, v, s.nodes[i]))
    && (forall p :: p in s.net ==> PacketOk(w, v, p))
  }

  // ---------- the handlers keep it ----------

  lemma SubBounded(g: Matrix, v: int, a: seq<Path>, b: seq<Path>)
    requires Bounded(g, v, b) && forall p :: p in a ==> p in b
    ensures Bounded(g, v, a)
  {
    forall i | 0 <= i < |a| ensures ValidPath(g, a[i]) {
      assert a[i] in b;
    }
    forall q | q in Pending(g, a) ensures Score(g, q) <= v {
      PendingIsExtends(g, a, q);
      var i :| 0 <= i < |a| && Extends(g, a[i], q);
      assert a[i] in b;
      PendingIsExtends(g, b, q);
    }
  }

  lemma ShareBounded(g: Matrix, v: int, s: seq<Path>, i: nat, count: nat)
    requires Bounded(g, v, s)
    ensures Bounded(g, v, Share(s, i, count))
  {
    StrideElements(s, i, StepOf(i, count));
    SubBounded(g, v, Share(s, i, count), s);
  }

  lemma ComputedBounded(g: Matrix, v: int, st: NodeState, k: nat)
    requires Bounded(g, v, st.stack) && st.bestMax <= v
    ensures Bounded(g, v, Computed(g, st, k).stack)
    ensures st.bestMax <= Computed(g, st, k).bestMax <= v
  {
    var s := Search(st.stack, st.bestMax);
    AfterValid(g, s, k);
    VisitedPlusPending(g, s, k);
    BestOfVisited(g, s, k);
    forall q | q in Pending(g, After(g, s, k).stack) || q in Visited(g, s, k)
      ensures Score(g, q) <= v
    {
      assert q in Pending(g, s.stack);
    }
  }

  lemma EmptyBounded(g: Matrix, v: int)
    ensures Bounded(g, v, [])
  {
  }

  /** A quantum leaves nothing to a node that is not computing, and nothing to one that reports. */
  lemma QuantumEmpties(g: Matrix, me: Name, st: NodeState)
    requires ValidStack(g, st.stack) && (st.phase != Computing ==> st.stack == [])
    ensures Quantum(g, me, st).phase != Computing ==> Quantum(g, me, st).stack == []
    ensures st.phase != Computing ==> Quantum(g, me, st) == st
  {
    var s := Search(st.stack, st.bestMax);
    if st.phase != Computing {
      AfterEmpty(g, s, QUANTUM);
    } else if Drains(g, st) {
      PopsLeft(g, s, QUANTUM);
    }
  }

  lemma QuantumOk(g: Matrix, v: int, me: Name, st: NodeState)
    requires NodeOk(g, v, st)
    ensures NodeOk(g, v, Quantum(g, me, st))
    ensures QuantumReport(g, st).Some? ==> QuantumReport(g, st).value <= v
    ensures Quantum(g, me, st).bestFound >= st.bestFound
  {
    var c := Computed(g, st, QUANTUM);
    ComputedBounded(g, v, st, QUANTUM);
    QuantumEmpties(g, me, st);
    if Drains(g, st) && st.phase == Computing {
      ReportedBounded(g, v, c, ToInt32(c.bestMax), me);
    }
  }

  lemma ReportedBounded(g: Matrix, v: int, st: NodeState, best: Int32, from: Name)
    requires BoundedTable(g, v, TableOf(st)) && st.bestFound <= v && best <= v
    ensures BoundedTable(g, v, TableOf(Reported(st, best, from))) && st.bestFound <= Reported(st, best, from).bestFound <= v
  {
    EmptyBounded(g, v);
  }

  lemma AssignedOk(g: Matrix, v: int, me: Name, st: NodeState, a: Table)
    requires NodeOk(g, v, st) && BoundedTable(g, v, a)
    ensures NodeOk(g, v, Assigned(me, st, a))
  {
    EmptyBounded(g, v);
  }

  lemma ReportedOk(g: Matrix, v: int, st: NodeState, best: Int32, from: Name)
    requires NodeOk(g, v, st) && best <= v
    ensures NodeOk(g, v, Reported(st, best, from))
  {
    EmptyBounded(g, v);
  }

  /** There is something to divide exactly if there is something at all. */
  lemma SomethingToDivide(s: seq<Path>)
    ensures Share(s, 0, 2) != [] <==> s != []
  {
    ShareSize(s, 0, 2);
  }

  lemma DividedOk(g: Matrix, v: int, me: Name, st: NodeState, with: Name)
    requires NodeOk(g, v, st)
    ensures NodeOk(g, v, Divided(me, st, with))
    ensures Division(me, st, with).Some? ==> BoundedTable(g, v, Division(me, st, with).value)
    ensures Division(me, st, with).Some? ==> st.phase == Computing
  {
    ShareBounded(g, v, st.stack, 0, 2);
    ShareBounded(g, v, st.stack, 1, 2);
    SomethingToDivide(st.stack);
    var a := Division(me, st, with);
    if a.Some? {
      AssignedOk(g, v, me, st.(stack := Share(st.stack, 0, 2)), a.value);
    }
  }

  // ---------- every step keeps it ----------

  lemma NodeUpdated(w: World, v: int, s: Cluster, i: nat, st: NodeState, net: seq<Packet>)
    requires Inv(w, v, s) && i < |s.nodes| && NodeOk(w.g, v, st)
    requires forall p :: p in net ==> PacketOk(w, v, p)
    ensures Inv(w, v, Cluster(s.nodes[i := st], net))
  {
  }

  /** Nothing is ever invented: no step leads to more than `v`, whatever is lost or repeated. */
  lemma StepKeepsInv(w: World, v: int, s: Cluster, a: Step)
    requires w.Valid() && Inv(w, v, s) && Enabled(w, s, a)
    ensures Inv(w, v, Apply(w, s, a))
  {
    var s' := Apply(w, s, a);
    match a
    case Wake(i) =>
      NodeUpdated(w, v, s, i, s'.nodes[i], s'.net);
    case Tick(i) =>
      var report := QuantumReport(w.g, s.nodes[i]);
      QuantumOk(w.g, v, w.ids[i], s.nodes[i]);
      if report.Some? {
        ResultsHandNothing(w, i, report.value, |s.nodes|);
      }
      NodeUpdated(w, v, s, i, s'.nodes[i], s'.net);
    case Divide(i, with) =>
      var division := Division(w.ids[i], s.nodes[i], w.ids[with]);
      DividedOk(w.g, v, w.ids[i], s.nodes[i], w.ids[with]);
      if division.Some? {
        DivisionPackets(i, division.value, |s.nodes|);
      }
      NodeUpdated(w, v, s, i, s'.nodes[i], s'.net);
    case Resend(i, to) =>
      assert NodeOk(w.g, v, s.nodes[i]);
    case Deliver(k) =>
      var p := s.net[k];
      assert p in s.net && PacketOk(w, v, p);
      assert forall x :: x in Without(s.net, k) ==> x in s.net;
      if p.Assignment? {
        AssignedOk(w.g, v, w.ids[p.dest], s.nodes[p.dest], p.table);
      } else {
        ReportedOk(w.g, v, s.nodes[p.dest], p.best, w.ids[p.from]);
      }
      NodeUpdated(w, v, s, p.dest, s'.nodes[p.dest], s'.net);
  }

  // ---------- and, unless work is dropped, nothing is lost ----------

  /** `v` has been found by some node or is still ahead. */
  ghost predicate Attained(w: World, v: int, s: Cluster) {
    || (exists i :: 0 <= i < |s.nodes| && s.nodes[i].bestMax == v)
    || (exists q :: q in Total(w, s) && Score(w.g, q) == v)
  }

  /** A job is handed over to a node that is computing: it is logged, but nobody works on it. */
  ghost predicate Lossy(w: World, s: Cluster, a: Step)
    requires |s.nodes| == |w.ids| && Enabled(w, s, a)
  {
    a.Deliver? && Handed(w, s.net[a.k]) != [] && s.nodes[s.net[a.k].dest].phase == Computing
  }

  /** A node that is not computing takes a job that is only repeated from somebody's log. */
  ghost predicate Repeats(w: World, s: Cluster, a: Step)
    requires |s.nodes| == |w.ids| && Enabled(w, s, a)
  {
    && a.Deliver? && s.net[a.k].Assignment? && !s.net[a.k].handover
    && s.nodes[s.net[a.k].dest].phase != Computing
    && JobOf(s.net[a.k].table, w.ids[s.net[a.k].dest]) != []
  }

  // ---------- what a step does to the total, exactly ----------

  /** The paths that a quantum takes out. */
  ghost function Popped(w: World, s: Cluster, a: Step): multiset<Path>
    requires Enabled(w, s, a)
  {
    if a.Tick? then VisitedBy(w, s.nodes[a.i]) else multiset{}
  }

  /** The paths of a job that reaches a computing node. */
  ghost function Dropped(w: World, s: Cluster, a: Step): multiset<Path>
    requires |s.nodes| == |w.ids| && Enabled(w, s, a)
  {
    if Lossy(w, s, a) then Pending(w.g, Handed(w, s.net[a.k])) else multiset{}
  }

  /** The paths of a job that is taken from a repeated log. */
  ghost function Repeated(w: World, s: Cluster, a: Step): multiset<Path>
    requires |s.nodes| == |w.ids| && Enabled(w, s, a)
  {
    if Repeats(w, s, a) then Pending(w.g, JobOf(s.net[a.k].table, w.ids[s.net[a.k].dest])) else multiset{}
  }

  /** A result, or a table for a computing node, only takes its job out. */
  lemma DeliveryToBusy(w: World, s: Cluster, k: nat)
    requires |s.nodes| == |w.ids| && Enabled(w, s, Deliver(k))
    requires s.net[k].Result? || s.nodes[s.net[k].dest].phase == Computing
    ensures Total(w, s) == Total(w, Apply(w, s, Deliver(k))) + Pending(w.g, Handed(w, s.net[k]))
  {
    var p := s.net[k];
    DeliverLaw(w, s, k);
    CancelBoth(Total(w, Apply(w, s, Deliver(k))), Total(w, s), Pending(w.g, s.nodes[p.dest].stack),
               Pending(w.g, Handed(w, p)));
  }

  /** A node with an empty stack takes its job over, or takes it once more. */
  lemma DeliveryToIdle(w: World, s: Cluster, k: nat)
    requires |s.nodes| == |w.ids| && Enabled(w, s, Deliver(k)) && s.net[k].Assignment?
    requires s.nodes[s.net[k].dest].phase != Computing && s.nodes[s.net[k].dest].stack == []
    ensures var p := s.net[k];
            Total(w, s) + (if p.handover then multiset{} else Pending(w.g, JobOf(p.table, w.ids[p.dest])))
            == Total(w, Apply(w, s, Deliver(k)))
  {
    var p := s.net[k];
    var t, t', job := Total(w, s), Total(w, Apply(w, s, Deliver(k))), Pending(w.g, JobOf(p.table, w.ids[p.dest]));
    DeliverLaw(w, s, k);
    AddEmpty(t);
    AddEmpty(t');
    if p.handover {
      CancelOne(t', t, job);
    }
  }

  /** What is dropped and what is repeated, an empty job being neither. */
  lemma DeliveryShares(w: World, s: Cluster, k: nat)
    requires |s.nodes| == |w.ids| && Enabled(w, s, Deliver(k))
    ensures var p := s.net[k];
            var busy := p.Result? || s.nodes[p.dest].phase == Computing;
            && Dropped(w, s, Deliver(k)) == (if busy then Pending(w.g, Handed(w, p)) else multiset{})
            && Repeated(w, s, Deliver(k))
               == (if busy || p.handover then multiset{} else Pending(w.g, JobOf(p.table, w.ids[p.dest])))
  {
  }

  lemma DeliveryTotals(w: World, v: int, s: Cluster, k: nat)
    requires w.Valid() && Inv(w, v, s) && Enabled(w, s, Deliver(k))
    ensures Total(w, s) + Repeated(w, s, Deliver(k)) == Total(w, Apply(w, s, Deliver(k))) + Dropped(w, s, Deliver(k))
  {
    var t, t' := Total(w, s), Total(w, Apply(w, s, Deliver(k)));
    AddEmpty(t);
    AddEmpty(t');
    DeliveryShares(w, s, k);
    assert NodeOk(w.g, v, s.nodes[s.net[k].dest]);
    if s.net[k].Result? || s.nodes[s.net[k].dest].phase == Computing {
      DeliveryToBusy(w, s, k);
    } else {
      DeliveryToIdle(w, s, k);
    }
  }

  lemma UndeliveredTotals(w: World, v: int, s: Cluster, a: Step)
    requires w.Valid() && Inv(w, v, s) && Enabled(w, s, a) && !a.Deliver?
    ensures Total(w, s) == Total(w, Apply(w, s, a)) + Popped(w, s, a)
  {
    match a
    case Wake(i) => QuietLaw(w, s, a);
    case Tick(i) =>
      assert NodeOk(w.g, v, s.nodes[i]);
      TickLaw(w, s, i);
    case Divide(i, with) => DivideLaw(w, s, i, with);
    case Resend(i, to) => QuietLaw(w, s, a);
  }

  /** Every step moves paths, pops the visited ones, drops what comes too early and adds what is repeated. */
  lemma StepTotal(w: World, v: int, s: Cluster, a: Step)
    requires w.Valid() && Inv(w, v, s) && Enabled(w, s, a)
    ensures Total(w, s) + Repeated(w, s, a) == Total(w, Apply(w, s, a)) + Popped(w, s, a) + Dropped(w, s, a)
  {
    var t, t', popped := Total(w, s), Total(w, Apply(w, s, a)), Popped(w, s, a);
    AddEmpty(t);
    AddEmpty(t');
    AddEmpty(t' + popped);
    if a.Deliver? {
      DeliveryTotals(w, v, s, a.k);
    } else {
      UndeliveredTotals(w, v, s, a);
    }
  }

  lemma StepKeepsBest(w: World, v: int, s: Cluster, a: Step, i: nat)
    requires w.Valid() && Inv(w, v, s) && Enabled(w, s, a) && i < |s.nodes|
    ensures s.nodes[i].bestMax <= Apply(w, s, a).nodes[i].bestMax <= v
  {
    StepKeepsInv(w, v, s, a);
    assert NodeOk(w.g, v, Apply(w, s, a).nodes[i]);
    if a.Tick? && a.i == i {
      assert NodeOk(w.g, v, s.nodes[i]);
      ComputedBounded(w.g, v, s.nodes[i], QUANTUM);
    }
  }

  /** The value of the cluster is conserved by every step that does not drop a job. */
  lemma StepKeepsValue(w: World, v: int, s: Cluster, a: Step)
    requires w.Valid() && Inv(w, v, s) && Attained(w, v, s) && Enabled(w, s, a) && !Lossy(w, s, a)
    ensures Inv(w, v, Apply(w, s, a)) && Attained(w, v, Apply(w, s, a))
  {
    var s' := Apply(w, s, a);
    StepKeepsInv(w, v, s, a);
    if i :| 0 <= i < |s.nodes| && s.nodes[i].bestMax == v {
      StepKeepsBest(w, v, s, a, i);
      assert s'.nodes[i].bestMax == v;
    } else {
      var q :| q in Total(w, s) && Score(w.g, q) == v;
      StepTotal(w, v, s, a);
      InOneOf(Total(w, s') + Popped(w, s, a), Dropped(w, s, a), Total(w, s) + Repeated(w, s, a), q);
      if q !in Total(w, s') {
        VisitedIsFound(w, v, s, a.i, q);
      }
    }
  }

  lemma VisitedIsFound(w: World, v: int, s: Cluster, i: nat, q: Path)
    requires w.Valid() && Inv(w, v, s) && i < |s.nodes|
    requires q in VisitedBy(w, s.nodes[i]) && Score(w.g, q) == v
    ensures Attained(w, v, Apply(w, s, Tick(i)))
  {
    var st := s.nodes[i];
    BestOfVisited(w.g, Search(st.stack, st.bestMax), QUANTUM);
    StepKeepsBest(w, v, s, Tick(i), i);
    assert Apply(w, s, Tick(i)).nodes[i].bestMax == v;
  }
}
