/**
 * The nodes and the messages between them as a state machine.  Nodes take their steps in any
 * order and messages are delivered in any order, each once.
 */
module Clusters {
  import opened Basics
  import opened Multisets
  import opened Matrices
  import opened Paths
  import opened ParallelStacks
  import opened MaximumCuts
  import opened StackAssignments
  import opened Scheduling
  import opened Splitting
  import opened Computations

  /** What does not change: the graph, the ids of the nodes and which of them is the leader. */
  datatype World = World(g: Matrix, ids: seq<Name>, leader: nat) {
    ghost predicate Valid() {
      g.size >= 1 && Distinct(ids) && leader < |ids|
    }
  }

  /**
   * A table or a result on its way from node `from` to node `dest`.  A table is a `handover` if the
   * receiver's job in it is handed over by this very message, and not a repetition from the log.
   */
  datatype Packet =
    | Assignment(dest: nat, from: nat, table: Table, handover: bool)
    | Result(dest: nat, from: nat, best: Int32)

  datatype Cluster = Cluster(nodes: seq<NodeState>, net: seq<Packet>)

  /**
   * A non-leader leaves `Initial`; a node computes a quantum; a node handles a request to divide
   * with another one; a node sends its log to someone; a message is delivered.
   */
  datatype Step = Wake(i: nat) | Tick(i: nat) | Divide(i: nat, with: nat) | Resend(i: nat, to: nat) | Deliver(k: nat)

  ghost predicate Enabled(w: World, s: Cluster, a: Step) {
    match a
    case Wake(i) => i < |s.nodes| && i != w.leader && s.nodes[i].phase == Initial
    case Tick(i) => i < |s.nodes|
    case Divide(i, with) => i < |s.nodes| && with < |s.nodes| && i != with
    case Resend(i, to) => i < |s.nodes| && to < |s.nodes| && s.nodes[i].table.Some?
    case Deliver(k) =>
      && k < |s.net|
      && s.net[k].dest < |s.nodes|
      // a result that arrives before any table makes the program dereference a null pointer
      && (s.net[k].Result? ==> s.net[k].from < |w.ids| && s.nodes[s.net[k].dest].table.Some?)
  }

  /** One copy for every node below `n` but the sender. */
  function ResultPackets(from: nat, best: Int32, n: nat): seq<Packet> {
    if n == 0 then []
    else if n - 1 == from then ResultPackets(from, best, n - 1)
    else ResultPackets(from, best, n - 1) + [Result(n - 1, from, best)]
  }

  function AssignmentPackets(from: nat, a: Table, n: nat): seq<Packet> {
    if n == 0 then []
    else if n - 1 == from then AssignmentPackets(from, a, n - 1)
    else AssignmentPackets(from, a, n - 1) + [Assignment(n - 1, from, a, true)]
  }

  function Without(net: seq<Packet>, k: nat): seq<Packet>
    requires k < |net|
  {
    net[..k] + net[k + 1..]
  }

  ghost function Received(w: World, st: NodeState, p: Packet): NodeState
    requires p.dest < |w.ids| && (p.Result? ==> p.from < |w.ids|)
  {
    match p
    case Assignment(dest, _, table, _) => Assigned(w.ids[dest], st, table)
    case Result(_, from, best) => Reported(st, best, w.ids[from])
  }

  ghost function Apply(w: World, s: Cluster, a: Step): Cluster
    requires |s.nodes| == |w.ids| && Enabled(w, s, a)
  {
    match a
    case Wake(i) => s.(nodes := s.nodes[i := s.nodes[i].(phase := Waiting)])
    case Tick(i) =>
      var report := QuantumReport(w.g, s.nodes[i]);
      Cluster(s.nodes[i := Quantum(w.g, w.ids[i], s.nodes[i])],
              if report.None? then s.net else s.net + ResultPackets(i, report.value, |s.nodes|))
    case Divide(i, with) =>
      var division := Division(w.ids[i], s.nodes[i], w.ids[with]);
      Cluster(s.nodes[i := Divided(w.ids[i], s.nodes[i], w.ids[with])],
              if division.None? then s.net else s.net + AssignmentPackets(i, division.value, |s.nodes|))
    case Resend(i, to) => s.(net := s.net + [Assignment(to, i, s.nodes[i].table.value, false)])
    case Deliver(k) =>
      var p := s.net[k];
      Cluster(s.nodes[p.dest := Received(w, s.nodes[p.dest], p)], Without(s.net, k))
  }

  /**
   * The periodic step of a node that does not lead is the wake-up of a node in `Initial` and no step
   * at all of any other, but for the entries it clears; it clears none while all those it has logged
   * are connected.
   */
  lemma RefreshIsWake(w: World, s: Cluster, i: nat, known: set<Name>)
    requires |s.nodes| == |w.ids| && i < |s.nodes| && i != w.leader
    ensures var st := s.nodes[i];
            var stepped := if Enabled(w, s, Wake(i)) then Apply(w, s, Wake(i)) else s;
            && (Enabled(w, s, Wake(i)) <==> st.phase == Initial)
            && stepped == s.(nodes := s.nodes[i := Refreshed(st, known).(table := st.table)])
            && (TableOf(st).Keys <= known ==> stepped == s.(nodes := s.nodes[i := Refreshed(st, known)]))
  {
    if TableOf(s.nodes[i]).Keys <= known {
      assert Cleared(TableOf(s.nodes[i]), known) == TableOf(s.nodes[i]);
    }
    assert s.nodes[i := s.nodes[i]] == s.nodes;
  }

  // ---------- the start ----------

  /** Nothing has happened yet; only the leader still has to be in `Initial`. */
  ghost predicate Fresh(w: World, s: Cluster) {
    && |s.nodes| == |w.ids| && s.net == []
    && (forall i :: 0 <= i < |s.nodes| ==>
          s.nodes[i] == NodeState(s.nodes[i].phase, [], 0, 0, None) && s.nodes[i].phase in {Initial, Waiting})
    && w.leader < |s.nodes| && s.nodes[w.leader].phase == Initial
  }

  /** The order in which the leader deals: all nodes, itself last. */
  ghost predicate DealOrder(w: World, order: seq<nat>) {
    && Distinct(order) && |order| == |w.ids|
    && (forall k :: 0 <= k < |order| ==> order[k] < |w.ids|)
    && order != [] && order[|order| - 1] == w.leader
  }

  ghost function Names(w: World, order: seq<nat>): seq<Name>
    requires forall k :: 0 <= k < |order| ==> order[k] < |w.ids|
  {
    seq(|order|, k requires 0 <= k < |order| => w.ids[order[k]])
  }

  /** The copies of the initial deal; the one to the leader itself is not sent. */
  ghost function DealPackets(leader: nat, order: seq<nat>, a: Table, k: nat): seq<Packet>
    requires k <= |order|
  {
    if k == 0 then [] else DealPackets(leader, order, a, k - 1) + [Assignment(order[k - 1], leader, a, true)]
  }

  ghost function Launch(w: World, s: Cluster, order: seq<nat>): Cluster
    requires Fresh(w, s) && DealOrder(w, order)
  {
    var st, names := s.nodes[w.leader], Names(w, order);
    Cluster(s.nodes[w.leader := LeaderStarted(w.g, w.ids[w.leader], st, names)],
            DealPackets(w.leader, order, InitialDeal(w.g, st, names), |order| - 1))
  }

  // ---------- what is still to be visited, anywhere ----------

  ghost function Stacks(nodes: seq<NodeState>): seq<seq<Path>> {
    seq(|nodes|, i requires 0 <= i < |nodes| => nodes[i].stack)
  }

  /** The job that a message hands over. */
  function Handed(w: World, p: Packet): Job {
    if p.Assignment? && p.handover && p.dest < |w.ids| then JobOf(p.table, w.ids[p.dest]) else []
  }

  /** What all messages together hand over. */
  ghost function InTransit(w: World, net: seq<Packet>): multiset<Path> {
    if net == [] then multiset{}
    else InTransit(w, net[..|net| - 1]) + Pending(w.g, Handed(w, net[|net| - 1]))
  }

  /** All paths that some node's stack or some handed-over job still stands for. */
  ghost function Total(w: World, s: Cluster): multiset<Path> {
    PendingAll(w.g, Stacks(s.nodes)) + InTransit(w, s.net)
  }

  lemma NodeChange(w: World, nodes: seq<NodeState>, i: nat, st: NodeState)
    requires i < |nodes|
    ensures PendingAll(w.g, Stacks(nodes[i := st])) + Pending(w.g, nodes[i].stack)
         == PendingAll(w.g, Stacks(nodes)) + Pending(w.g, st.stack)
  {
    PendingAllUpdate(w.g, Stacks(nodes), i, st.stack);
    assert Stacks(nodes[i := st]) == Stacks(nodes)[i := st.stack];
  }

  lemma TransitPush(w: World, net: seq<Packet>, p: Packet)
    ensures InTransit(w, net + [p]) == InTransit(w, net) + Pending(w.g, Handed(w, p))
  {
    assert (net + [p])[..|net|] == net;
  }

  lemma {:induction false} NetGrows(w: World, net: seq<Packet>, more: seq<Packet>)
    ensures InTransit(w, net + more) == InTransit(w, net) + InTransit(w, more)
  {
    if more == [] {
      assert net + more == net;
    } else {
      var rest, p := more[..|more| - 1], more[|more| - 1];
      assert more == rest + [p];
      NetGrows(w, net, rest);
      SeqAssoc(net, rest, [p]);
      TransitPush(w, net + rest, p);
      SumAssoc(InTransit(w, net), InTransit(w, rest), Pending(w.g, Handed(w, p)));
    }
  }

  lemma NetShrinks(w: World, net: seq<Packet>, k: nat)
    requires k < |net|
    ensures InTransit(w, Without(net, k)) + Pending(w.g, Handed(w, net[k])) == InTransit(w, net)
  {
    var a, b := net[..k], net[k + 1..];
    assert net == a + [net[k]] + b;
    TransitPush(w, a, net[k]);
    NetGrows(w, a + [net[k]], b);
    NetGrows(w, a, b);
    SwapLast(InTransit(w, a), Pending(w.g, Handed(w, net[k])), InTransit(w, b));
  }

  /** Messages that hand nothing over do not count. */
  lemma {:induction false} NothingHanded(w: World, net: seq<Packet>)
    requires forall p :: p in net ==> Handed(w, p) == []
    ensures InTransit(w, net) == multiset{}
  {
    if net != [] {
      NothingHanded(w, net[..|net| - 1]);
      assert net[|net| - 1] in net;
    }
  }

  lemma {:induction false} ResultsHandNothing(w: World, from: nat, best: Int32, n: nat)
    ensures forall p :: p in ResultPackets(from, best, n) ==> Handed(w, p) == []
    ensures forall p :: p in ResultPackets(from, best, n) ==>
              p.Result? && p.from == from && p.best == best && p.dest < n && p.dest != from
  {
    if n > 0 {
      ResultsHandNothing(w, from, best, n - 1);
    }
  }

  lemma {:induction false} DivisionPackets(from: nat, a: Table, n: nat)
    ensures forall p :: p in AssignmentPackets(from, a, n) ==>
              p.Assignment? && p.dest < n && p.dest != from && p.from == from && p.table == a && p.handover
  {
    if n > 0 {
      DivisionPackets(from, a, n - 1);
    }
  }

  /** Exactly one copy goes to each node other than the sender. */
  lemma {:induction false} OneCopyEach(from: nat, a: Table, n: nat, to: nat)
    returns (before: seq<Packet>, after: seq<Packet>)
    requires to < n && to != from
    ensures AssignmentPackets(from, a, n) == before + [Assignment(to, from, a, true)] + after
    ensures forall p :: p in before || p in after ==>
              p.Assignment? && p.dest < n && p.dest != from && p.dest != to && p.from == from && p.table == a
  {
    if n - 1 == to {
      DivisionPackets(from, a, n - 1);
      before, after := AssignmentPackets(from, a, n - 1), [];
      assert before + [Assignment(to, from, a, true)] + after == before + [Assignment(to, from, a, true)];
    } else {
      before, after := OneCopyEach(from, a, n - 1, to);
      if n - 1 != from {
        var p := Assignment(n - 1, from, a, true);
        SeqAssoc(before + [Assignment(to, from, a, true)], after, [p]);
        after := after + [p];
      }
    }
  }

  /** Only the copy to the named client hands over its part of a division. */
  lemma DivisionHands(w: World, i: nat, with: nat, a: Table)
    requires with < |w.ids| && i != with
    requires forall j :: 0 <= j < |w.ids| && j != i && j != with ==> JobOf(a, w.ids[j]) == []
    ensures InTransit(w, AssignmentPackets(i, a, |w.ids|)) == Pending(w.g, JobOf(a, w.ids[with]))
  {
    var before, after := OneCopyEach(i, a, |w.ids|, with);
    NothingHanded(w, before);
    NothingHanded(w, after);
    TransitPush(w, before, Assignment(with, i, a, true));
    NetGrows(w, before + [Assignment(with, i, a, true)], after);
    AddEmpty(Pending(w.g, JobOf(a, w.ids[with])));
  }

  // ---------- what each step does to the total ----------

  /** The paths that node `st` visits in one quantum. */
  ghost function VisitedBy(w: World, st: NodeState): multiset<Path> {
    Visited(w.g, Search(st.stack, st.bestMax), QUANTUM)
  }

  /** A quantum takes exactly the visited paths out of the total. */
  lemma TickLaw(w: World, s: Cluster, i: nat)
    requires |s.nodes| == |w.ids| && i < |s.nodes| && ValidStack(w.g, s.nodes[i].stack)
    ensures Total(w, s) == Total(w, Apply(w, s, Tick(i))) + VisitedBy(w, s.nodes[i])
  {
    var st, s' := s.nodes[i], Apply(w, s, Tick(i));
    var st' := s'.nodes[i];
    NodeChange(w, s.nodes, i, st');
    VisitedPlusPending(w.g, Search(st.stack, st.bestMax), QUANTUM);
    var report := QuantumReport(w.g, st);
    if report.Some? {
      var more := ResultPackets(i, report.value, |s.nodes|);
      ResultsHandNothing(w, i, report.value, |s.nodes|);
      NothingHanded(w, more);
      NetGrows(w, s.net, more);
    }
    TakeOut(PendingAll(w.g, Stacks(s.nodes)), PendingAll(w.g, Stacks(s'.nodes)), InTransit(w, s.net),
            VisitedBy(w, st), Pending(w.g, st'.stack));
  }

  /** A division moves work, and nothing else. */
  lemma DivideLaw(w: World, s: Cluster, i: nat, with: nat)
    requires w.Valid() && |s.nodes| == |w.ids| && Enabled(w, s, Divide(i, with))
    ensures Total(w, Apply(w, s, Divide(i, with))) == Total(w, s)
  {
    var st := s.nodes[i];
    var division := Division(w.ids[i], st, w.ids[with]);
    if division.Some? {
      var given := Share(st.stack, 1, 2);
      DividedShape(w.ids[i], st, w.ids[with]);
      DivisionInTransit(w, s.net, i, with, division.value, given);
      DivideTotals(w, s, i, Divided(w.ids[i], st, w.ids[with]),
                   s.net + AssignmentPackets(i, division.value, |s.nodes|), given);
    } else {
      assert s.nodes[i := st] == s.nodes;
    }
  }

  lemma DividedShape(me: Name, st: NodeState, with: Name)
    requires me != with && Division(me, st, with).Some?
    ensures Division(me, st, with).value.Keys == {me, with}
    ensures JobOf(Division(me, st, with).value, with) == Share(st.stack, 1, 2)
    ensures Divided(me, st, with).stack == Share(st.stack, 0, 2)
  {
  }

  lemma DivideTotals(w: World, s: Cluster, i: nat, st: NodeState, net: seq<Packet>, given: seq<Path>)
    requires i < |s.nodes|
    requires st.stack == Share(s.nodes[i].stack, 0, 2) && given == Share(s.nodes[i].stack, 1, 2)
    requires InTransit(w, net) == InTransit(w, s.net) + Pending(w.g, given)
    ensures Total(w, Cluster(s.nodes[i := st], net)) == Total(w, s)
  {
    HalvesPending(w.g, s.nodes[i].stack);
    NodeChange(w, s.nodes, i, st);
    Handover(PendingAll(w.g, Stacks(s.nodes)), PendingAll(w.g, Stacks(s.nodes[i := st])), InTransit(w, s.net),
             Pending(w.g, st.stack), Pending(w.g, given));
  }

  lemma DivisionInTransit(w: World, net: seq<Packet>, i: nat, with: nat, a: Table, theirs: Job)
    requires w.Valid() && i < |w.ids| && with < |w.ids| && i != with
    requires a.Keys <= {w.ids[i], w.ids[with]} && JobOf(a, w.ids[with]) == theirs
    ensures InTransit(w, net + AssignmentPackets(i, a, |w.ids|)) == InTransit(w, net) + Pending(w.g, theirs)
  {
    DivisionHands(w, i, with, a);
    NetGrows(w, net, AssignmentPackets(i, a, |w.ids|));
  }

  /** A delivery exchanges the receiver's old stack and the handed-over job for its new stack. */
  lemma DeliverLaw(w: World, s: Cluster, k: nat)
    requires |s.nodes| == |w.ids| && Enabled(w, s, Deliver(k))
    ensures var p := s.net[k];
            (Total(w, Apply(w, s, Deliver(k))) + Pending(w.g, s.nodes[p.dest].stack) + Pending(w.g, Handed(w, p))
             == Total(w, s) + Pending(w.g, Received(w, s.nodes[p.dest], p).stack))
  {
    var p := s.net[k];
    var s' := Apply(w, s, Deliver(k));
    NodeChange(w, s.nodes, p.dest, s'.nodes[p.dest]);
    NetShrinks(w, s.net, k);
    AddBoth(PendingAll(w.g, Stacks(s.nodes)), PendingAll(w.g, Stacks(s'.nodes)),
            InTransit(w, s.net), InTransit(w, s'.net),
            Pending(w.g, s.nodes[p.dest].stack), Pending(w.g, s'.nodes[p.dest].stack), Pending(w.g, Handed(w, p)));
  }

  /** Waking up and repeating the log leave the total alone. */
  lemma QuietLaw(w: World, s: Cluster, a: Step)
    requires |s.nodes| == |w.ids| && Enabled(w, s, a) && (a.Wake? || a.Resend?)
    ensures Total(w, Apply(w, s, a)) == Total(w, s)
  {
    if a.Wake? {
      assert Stacks(Apply(w, s, a).nodes) == Stacks(s.nodes);
    } else {
      TransitPush(w, s.net, Assignment(a.to, a.i, s.nodes[a.i].table.value, false));
    }
  }
}
