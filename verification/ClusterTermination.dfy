/** When the leader may end the computation: what an empty log means, and on which condition. */
module ClusterTermination {
  import opened Basics
  import opened Paths
  import opened ParallelStacks
  import opened MaximumCuts
  import opened StackAssignments
  import opened Scheduling
  import opened Computations
  import opened Clusters
  import opened ClusterInvariants
  import opened ClusterRuns
  import opened ClusterAnnouncements
  import opened ClusterResults

  /** What the leader has logged for node `i`. */
  ghost function Entry(w: World, s: Cluster, i: nat): Job
    requires w.leader < |s.nodes| && i < |w.ids|
  {
    JobOf(TableOf(s.nodes[w.leader]), w.ids[i])
  }

  // ---------- the condition ----------

  /** A table by which its sender tells the leader of a division. */
  ghost predicate IsNews(w: World, p: Packet) {
    p.Assignment? && p.handover && p.dest == w.leader
  }

  ghost predicate JobComing(w: World, s: Cluster, i: nat) {
    exists p :: p in s.net && p.dest == i && Handed(w, p) != []
  }

  ghost predicate NewsComing(w: World, s: Cluster, i: nat) {
    exists p :: p in s.net && IsNews(w, p) && p.from == i
  }

  ghost predicate ReportComing(w: World, s: Cluster, i: nat) {
    exists p :: p in s.net && p.Result? && p.dest == w.leader && p.from == i
  }

  /**
   * The leader's entry of a node may be emptied if the node is not computing, if no job is on its
   * way to it, if it has no division to tell the leader of, and if it has no other result to tell.
   * A job from a repeated log may be taken if it is logged.
   */
  datatype Care = NotComputing | NoJobComing | NoNewsComing | NoReportComing | RepeatsLogged

  /** What stands against emptying the entry of node `i`. */
  ghost predicate Owes(w: World, s: Cluster, i: nat, c: Care)
    requires i < |s.nodes|
  {
    match c
    case NotComputing => s.nodes[i].phase == Computing
    case NoJobComing => i != w.leader && JobComing(w, s, i)
    case NoNewsComing => NewsComing(w, s, i)
    case NoReportComing => ReportComing(w, s, i)
    case RepeatsLogged => false
  }

  ghost predicate Emptied(w: World, s: Cluster, s': Cluster, i: nat)
    requires w.leader < |s.nodes| && w.leader < |s'.nodes| && i < |w.ids|
  {
    Entry(w, s, i) != [] && Entry(w, s', i) == []
  }

  ghost predicate Observes(w: World, s: Cluster, a: Step, c: Care)
    requires w.leader < |w.ids| == |s.nodes| && Enabled(w, s, a)
  {
    var s' := Apply(w, s, a);
    if c == RepeatsLogged then Repeats(w, s, a) ==> Entry(w, s', s.net[a.k].dest) != []
    else forall i :: 0 <= i < |w.ids| && Emptied(w, s, s', i) ==> !Owes(w, s', i, c)
  }

  /** Every step of the run observes the given part of the condition. */
  ghost predicate Careful(w: World, s: Cluster, steps: seq<Step>, cares: set<Care>)
    requires w.leader < |w.ids| && Legal(w, s, steps)
    decreases |steps|
  {
    steps == [] ||
    ((forall c :: c in cares ==> Observes(w, s, steps[0], c)) && Careful(w, Apply(w, s, steps[0]), steps[1..], cares))
  }

  /** What the work itself asks for; the results ask for `NoReportComing` as well. */
  const FOR_WORK: set<Care> := {NotComputing, NoJobComing, NoNewsComing, RepeatsLogged}

  // ---------- the invariant ----------

  /** Node `i` is named by the leader's log or by news among the first `m` messages. */
  ghost predicate Named(w: World, s: Cluster, i: nat, m: nat)
    requires w.leader < |s.nodes| && i < |w.ids| && m <= |s.net|
  {
    || Entry(w, s, i) != []
    || exists k :: 0 <= k < m && IsNews(w, s.net[k]) && JobOf(s.net[k].table, w.ids[i]) != []
  }

  /** Whoever has or gets something to do is named, and news comes from a node that is named before. */
  ghost predicate Covered(w: World, s: Cluster, cares: set<Care>)
    requires w.leader < |w.ids| == |s.nodes|
  {
    && (forall i, c :: 0 <= i < |s.nodes| && c in cares && c != NoNewsComing && Owes(w, s, i, c) ==> Named(w, s, i, |s.net|))
    && (forall m :: 0 <= m < |s.net| && IsNews(w, s.net[m]) ==>
          s.net[m].from < |w.ids| && Named(w, s, s.net[m].from, m))
  }

  /** An entry is only emptied when nothing stands against it. */
  ghost predicate Unopposed(w: World, s: Cluster, s': Cluster, cares: set<Care>)
    requires w.leader < |w.ids| == |s.nodes| && |s'.nodes| == |w.ids|
  {
    forall i, c :: 0 <= i < |w.ids| && Emptied(w, s, s', i) && c in cares ==> !Owes(w, s', i, c)
  }

  lemma CarefulIsUnopposed(w: World, s: Cluster, a: Step, cares: set<Care>)
    requires w.leader < |w.ids| == |s.nodes| && Enabled(w, s, a) && forall c :: c in cares ==> Observes(w, s, a, c)
    ensures Unopposed(w, s, Apply(w, s, a), cares)
  {
  }

  // ---------- steps that only add messages ----------

  lemma GrowthCovers(w: World, s: Cluster, s': Cluster, cares: set<Care>)
    requires w.leader < |w.ids| == |s.nodes| && |s'.nodes| == |w.ids| && FOR_WORK <= cares
    requires Covered(w, s, cares) && s.net <= s'.net && Unopposed(w, s, s', cares)
    requires forall i, c :: 0 <= i < |w.ids| && c in cares && c != NoNewsComing && Owes(w, s', i, c) ==>
               Named(w, s, i, |s.net|) || Named(w, s', i, |s'.net|)
    requires forall m :: |s.net| <= m < |s'.net| && IsNews(w, s'.net[m]) ==>
               s'.net[m].from < |w.ids| && Named(w, s, s'.net[m].from, |s.net|)
    ensures Covered(w, s', cares)
  {
    forall i, c | 0 <= i < |w.ids| && c in cares && c != NoNewsComing && Owes(w, s', i, c)
      ensures Named(w, s', i, |s'.net|)
    {
      if Named(w, s, i, |s.net|) {
        NamedStays(w, s, s', i, |s.net|);
      }
    }
    forall m | 0 <= m < |s'.net| && IsNews(w, s'.net[m])
      ensures s'.net[m].from < |w.ids| && Named(w, s', s'.net[m].from, m)
    {
      assert Owes(w, s', s'.net[m].from, NoNewsComing);
      if m < |s.net| {
        assert s.net[m] == s'.net[m];
        NamedStays(w, s, s', s'.net[m].from, m);
      } else {
        NamedStays(w, s, s', s'.net[m].from, |s.net|);
      }
    }
  }

  lemma NamedStays(w: World, s: Cluster, s': Cluster, i: nat, m: nat)
    requires w.leader < |s.nodes| && w.leader < |s'.nodes| && i < |w.ids| && m <= |s.net| && s.net <= s'.net
    requires Named(w, s, i, m) && !Emptied(w, s, s', i)
    ensures Named(w, s', i, m)
  {
  }

  /** Messages from `more` that are not in `net` are among the added ones. */
  lemma AddedMessages(net: seq<Packet>, more: seq<Packet>)
    ensures net <= net + more
    ensures forall p :: p in net + more ==> p in net || p in more
    ensures forall m :: |net| <= m < |net + more| ==> (net + more)[m] in more
  {
  }

  /** A quantum leaves nobody anything to do or tell but the node that computed. */
  lemma DebtBeforeTick(w: World, s: Cluster, i: nat, more: seq<Packet>, j: nat, c: Care)
    requires |s.nodes| == |w.ids| && i < |s.nodes| && j < |s.nodes|
    requires Apply(w, s, Tick(i)).net == s.net + more
    requires forall p :: p in more ==> p.Result? && p.from == i
    requires more != [] ==> s.nodes[i].phase == Computing
    requires Owes(w, Apply(w, s, Tick(i)), j, c)
    ensures Owes(w, s, j, c) || Owes(w, s, j, NotComputing)
  {
    AddedMessages(s.net, more);
  }

  lemma QuantumNet(w: World, s: Cluster, i: nat) returns (more: seq<Packet>)
    requires |s.nodes| == |w.ids| && i < |s.nodes|
    ensures Apply(w, s, Tick(i)).net == s.net + more
    ensures forall p :: p in more ==> p.Result? && p.from == i
    ensures more != [] ==> s.nodes[i].phase == Computing
  {
    var report := QuantumReport(w.g, s.nodes[i]);
    if report.None? {
      more := [];
    } else {
      more := ResultPackets(i, report.value, |s.nodes|);
      ResultsHandNothing(w, i, report.value, |s.nodes|);
    }
  }

  lemma TickCovers(w: World, s: Cluster, i: nat, cares: set<Care>)
    requires w.Valid() && |s.nodes| == |w.ids| && i < |s.nodes| && FOR_WORK <= cares
    requires Covered(w, s, cares) && Unopposed(w, s, Apply(w, s, Tick(i)), cares)
    ensures Covered(w, Apply(w, s, Tick(i)), cares)
  {
    var s' := Apply(w, s, Tick(i));
    var more := QuantumNet(w, s, i);
    AddedMessages(s.net, more);
    forall j, c | 0 <= j < |w.ids| && c in cares && c != NoNewsComing && Owes(w, s', j, c)
      ensures Named(w, s, j, |s.net|)
    {
      DebtBeforeTick(w, s, i, more, j, c);
    }
    GrowthCovers(w, s, s', cares);
  }

  lemma DivideCovers(w: World, v: int, s: Cluster, i: nat, with: nat, cares: set<Care>)
    requires w.Valid() && Inv(w, v, s) && Enabled(w, s, Divide(i, with)) && FOR_WORK <= cares
    requires Covered(w, s, cares) && Unopposed(w, s, Apply(w, s, Divide(i, with)), cares)
    ensures Covered(w, Apply(w, s, Divide(i, with)), cares)
  {
    var s', division := Apply(w, s, Divide(i, with)), Division(w.ids[i], s.nodes[i], w.ids[with]);
    if division.Some? {
      var more := AssignmentPackets(i, division.value, |s.nodes|);
      AddedMessages(s.net, more);
      DivisionPackets(i, division.value, |s.nodes|);
      DividedOk(w.g, v, w.ids[i], s.nodes[i], w.ids[with]);
      assert Owes(w, s, i, NotComputing);
      forall j, c | 0 <= j < |w.ids| && c in cares && c != NoNewsComing && Owes(w, s', j, c)
        ensures Named(w, s, j, |s.net|) || Named(w, s', j, |s'.net|)
      {
        if !Owes(w, s, j, c) {
          if c == NoJobComing && JobOf(division.value, w.ids[j]) != [] {
            GivenIsNamed(w, s, i, with, j);
          } else {
            assert Owes(w, s, j, NotComputing);
          }
        }
      }
      GrowthCovers(w, s, s', cares);
    } else {
      assert s' == s;
    }
  }

  /** The leader logs its own division, and is told of any other one. */
  lemma GivenIsNamed(w: World, s: Cluster, i: nat, with: nat, j: nat)
    requires w.Valid() && |s.nodes| == |w.ids| && Enabled(w, s, Divide(i, with)) && j < |w.ids|
    requires Division(w.ids[i], s.nodes[i], w.ids[with]).Some?
    requires JobOf(Division(w.ids[i], s.nodes[i], w.ids[with]).value, w.ids[j]) != []
    ensures Named(w, Apply(w, s, Divide(i, with)), j, |Apply(w, s, Divide(i, with)).net|)
  {
    var s', a := Apply(w, s, Divide(i, with)), Division(w.ids[i], s.nodes[i], w.ids[with]).value;
    if i == w.leader {
      LogAfterAssignment(w.ids[i], s.nodes[i].(stack := Share(s.nodes[i].stack, 0, 2)), a, w.ids[j]);
    } else {
      var before, after := OneCopyEach(i, a, |s.nodes|, w.leader);
      var k := |s.net| + |before|;
      assert s'.net[k] == Assignment(w.leader, i, a, true);
      assert IsNews(w, s'.net[k]);
    }
  }

  // ---------- deliveries ----------

  lemma WithoutMembers(net: seq<Packet>, k: nat)
    requires k < |net|
    ensures |Without(net, k)| == |net| - 1
    ensures forall m :: 0 <= m < |net| - 1 ==> Without(net, k)[m] == net[if m < k then m else m + 1]
    ensures forall p :: p in Without(net, k) ==> p in net
  {
  }

  /** The delivered news is in the log, and all other messages are where they were, or one place earlier. */
  lemma NamedAfterDelivery(w: World, s: Cluster, k: nat, i: nat, m: nat)
    requires w.Valid() && |s.nodes| == |w.ids| && Enabled(w, s, Deliver(k)) && i < |w.ids| && m <= |s.net|
    requires Named(w, s, i, m) && !Emptied(w, s, Apply(w, s, Deliver(k)), i)
    ensures Named(w, Apply(w, s, Deliver(k)), i, if k < m then m - 1 else m)
  {
    var s' := Apply(w, s, Deliver(k));
    WithoutMembers(s.net, k);
    if Entry(w, s', i) == [] {
      var n :| 0 <= n < m && IsNews(w, s.net[n]) && JobOf(s.net[n].table, w.ids[i]) != [];
      if n == k {
        LogAfterAssignment(w.ids[w.leader], s.nodes[w.leader], s.net[k].table, w.ids[i]);
        assert false;
      }
      assert s'.net[if n < k then n else n - 1] == s.net[n];
    }
  }

  /** What a node has to do after a delivery it had to do before, or it is logged. */
  lemma DebtBeforeDelivery(w: World, s: Cluster, k: nat, i: nat, c: Care)
    requires w.Valid() && |s.nodes| == |w.ids| && Enabled(w, s, Deliver(k)) && i < |w.ids|
    requires Observes(w, s, Deliver(k), RepeatsLogged) && Owes(w, Apply(w, s, Deliver(k)), i, c)
    ensures Owes(w, s, i, c) || Owes(w, s, i, NoJobComing) || Entry(w, Apply(w, s, Deliver(k)), i) != []
  {
    WithoutMembers(s.net, k);
    var p := s.net[k];
    if c == NotComputing && s.nodes[i].phase != Computing {
      assert p.dest == i && JobOf(p.table, w.ids[i]) != [];
      if i == w.leader {
        LogAfterAssignment(w.ids[i], s.nodes[i], p.table, w.ids[i]);
      } else if p.handover {
        assert p in s.net && Handed(w, p) != [];
      }
    }
  }

  lemma DeliverCovers(w: World, v: int, s: Cluster, k: nat, cares: set<Care>)
    requires w.Valid() && Inv(w, v, s) && Enabled(w, s, Deliver(k)) && FOR_WORK <= cares
    requires Covered(w, s, cares) && Unopposed(w, s, Apply(w, s, Deliver(k)), cares)
    requires Observes(w, s, Deliver(k), RepeatsLogged)
    ensures Covered(w, Apply(w, s, Deliver(k)), cares)
  {
    var s' := Apply(w, s, Deliver(k));
    WithoutMembers(s.net, k);
    forall i, c | 0 <= i < |w.ids| && c in cares && c != NoNewsComing && Owes(w, s', i, c)
      ensures Named(w, s', i, |s'.net|)
    {
      DebtBeforeDelivery(w, s, k, i, c);
      if Entry(w, s', i) == [] {
        NamedAfterDelivery(w, s, k, i, |s.net|);
      }
    }
    forall m | 0 <= m < |s'.net| && IsNews(w, s'.net[m])
      ensures s'.net[m].from < |w.ids| && Named(w, s', s'.net[m].from, m)
    {
      var n := if m < k then m else m + 1;
      assert s'.net[m] == s.net[n];
      assert Owes(w, s', s'.net[m].from, NoNewsComing);
      NamedAfterDelivery(w, s, k, s'.net[m].from, n);
    }
  }

  // ---------- every careful step and run ----------

  lemma WakeCovers(w: World, s: Cluster, i: nat, cares: set<Care>)
    requires w.Valid() && |s.nodes| == |w.ids| && Enabled(w, s, Wake(i)) && FOR_WORK <= cares && Covered(w, s, cares)
    ensures Covered(w, Apply(w, s, Wake(i)), cares)
  {
    var s' := Apply(w, s, Wake(i));
    forall j, c | 0 <= j < |w.ids| && c in cares && c != NoNewsComing && Owes(w, s', j, c)
      ensures Named(w, s, j, |s.net|)
    {
      assert Owes(w, s, j, c);
    }
    GrowthCovers(w, s, s', cares);
  }

  lemma ResendCovers(w: World, s: Cluster, i: nat, to: nat, cares: set<Care>)
    requires w.Valid() && |s.nodes| == |w.ids| && Enabled(w, s, Resend(i, to)) && FOR_WORK <= cares && Covered(w, s, cares)
    ensures Covered(w, Apply(w, s, Resend(i, to)), cares)
  {
    var s', more := Apply(w, s, Resend(i, to)), [Assignment(to, i, s.nodes[i].table.value, false)];
    AddedMessages(s.net, more);
    forall j, c | 0 <= j < |w.ids| && c in cares && c != NoNewsComing && Owes(w, s', j, c)
      ensures Named(w, s, j, |s.net|)
    {
      assert Owes(w, s, j, c);
    }
    GrowthCovers(w, s, s', cares);
  }

  /** Every step that observes the condition keeps the invariant. */
  lemma StepKeepsCovered(w: World, v: int, s: Cluster, a: Step, cares: set<Care>)
    requires w.Valid() && Inv(w, v, s) && Enabled(w, s, a) && FOR_WORK <= cares
    requires Covered(w, s, cares) && forall c :: c in cares ==> Observes(w, s, a, c)
    ensures |Apply(w, s, a).nodes| == |w.ids| && Covered(w, Apply(w, s, a), cares)
  {
    CarefulIsUnopposed(w, s, a, cares);
    match a
    case Wake(i) => WakeCovers(w, s, i, cares);
    case Tick(i) => TickCovers(w, s, i, cares);
    case Divide(i, with) => DivideCovers(w, v, s, i, with, cares);
    case Resend(i, to) => ResendCovers(w, s, i, to, cares);
    case Deliver(k) =>
      assert RepeatsLogged in cares;
      DeliverCovers(w, v, s, k, cares);
  }

  lemma {:induction false} RunKeepsCovered(w: World, v: int, s: Cluster, steps: seq<Step>, cares: set<Care>)
    requires w.Valid() && Inv(w, v, s) && Legal(w, s, steps) && FOR_WORK <= cares
    requires Covered(w, s, cares) && Careful(w, s, steps, cares)
    ensures |Final(w, s, steps).nodes| == |w.ids| && Covered(w, Final(w, s, steps), cares)
    decreases |steps|
  {
    if steps != [] {
      StepKeepsInv(w, v, s, steps[0]);
      StepKeepsCovered(w, v, s, steps[0], cares);
      RunKeepsCovered(w, v, Apply(w, s, steps[0]), steps[1..], cares);
    }
  }

  /** At the start the leader's log names everyone who is sent a job. */
  lemma LaunchCovered(w: World, s: Cluster, order: seq<nat>, cares: set<Care>)
    requires w.Valid() && Fresh(w, s) && DealOrder(w, order)
    ensures |Launch(w, s, order).nodes| == |w.ids| && Covered(w, Launch(w, s, order), cares)
  {
    var s1 := Launch(w, s, order);
    LaunchedStack(w, s, order);
    LaunchTables(w, s, order);
    LaunchEntries(w, s, order);
    LaunchJobs(w, s, order);
    forall i | 0 <= i < |s1.nodes| && i != w.leader ensures s1.nodes[i].phase != Computing {
      assert s1.nodes[i] == s.nodes[i];
    }
    CoveredByLog(w, s1, cares);
  }

  lemma CoveredByLog(w: World, s: Cluster, cares: set<Care>)
    requires w.leader < |w.ids| == |s.nodes|
    requires forall i :: 0 <= i < |s.nodes| && s.nodes[i].phase == Computing ==> Entry(w, s, i) != []
    requires forall p :: p in s.net ==>
               p.Assignment? && p.dest != w.leader && p.dest < |w.ids| && Handed(w, p) == Entry(w, s, p.dest)
    ensures Covered(w, s, cares)
  {
  }

  lemma LaunchJobs(w: World, s: Cluster, order: seq<nat>)
    requires w.Valid() && Fresh(w, s) && DealOrder(w, order)
    ensures var a := InitialDeal(w.g, s.nodes[w.leader], Names(w, order));
            forall p :: p in Launch(w, s, order).net ==>
              p.Assignment? && p.dest != w.leader && p.dest < |w.ids| && Handed(w, p) == JobOf(a, w.ids[p.dest])
  {
    var a := InitialDeal(w.g, s.nodes[w.leader], Names(w, order));
    DealPacketsShape(w.leader, order, a, |order| - 1);
    forall p | p in DealPackets(w.leader, order, a, |order| - 1) ensures p.dest != w.leader && p.dest < |w.ids| {
      var k :| 0 <= k < |order| - 1 && order[k] == p.dest;
    }
  }

  lemma LaunchEntries(w: World, s: Cluster, order: seq<nat>)
    requires w.Valid() && Fresh(w, s) && DealOrder(w, order)
    ensures forall i :: 0 <= i < |w.ids| ==>
              Entry(w, Launch(w, s, order), i) == JobOf(InitialDeal(w.g, s.nodes[w.leader], Names(w, order)), w.ids[i])
    ensures Launch(w, s, order).nodes[w.leader].stack == Entry(w, Launch(w, s, order), w.leader)
  {
  }

  // ---------- what an empty log means ----------

  /** Without entries there is no first piece of news, hence none. */
  lemma {:induction false} NoNews(w: World, s: Cluster, cares: set<Care>, m: nat)
    requires w.leader < |w.ids| == |s.nodes| && Covered(w, s, cares) && m <= |s.net|
    requires forall i :: 0 <= i < |w.ids| ==> Entry(w, s, i) == []
    ensures forall k :: 0 <= k < m ==> !IsNews(w, s.net[k])
  {
    if m > 0 {
      NoNews(w, s, cares, m - 1);
    }
  }

  /** Nobody has anything to do, or to tell the leader. */
  ghost predicate NothingOwed(w: World, s: Cluster, cares: set<Care>) {
    forall i, c :: 0 <= i < |s.nodes| && c in cares ==> !Owes(w, s, i, c)
  }

  lemma EmptyLogCovers(w: World, s: Cluster, cares: set<Care>)
    requires w.leader < |w.ids| == |s.nodes| && Covered(w, s, cares)
    requires NothingLogged(TableOf(s.nodes[w.leader]))
    ensures NothingOwed(w, s, cares)
  {
    NoNews(w, s, cares, |s.net|);
    forall i | 0 <= i < |s.nodes| ensures Entry(w, s, i) == [] && !Owes(w, s, i, NoNewsComing) {
    }
    forall i, c | 0 <= i < |s.nodes| && c in cares && c != NoNewsComing ensures !Owes(w, s, i, c) {
    }
  }

  lemma NothingOwedIsDone(w: World, v: int, s: Cluster, cares: set<Care>)
    requires w.Valid() && Inv(w, v, s) && FOR_WORK <= cares && NothingOwed(w, s, cares)
    ensures NoWorkLeft(w, s)
    ensures NoReportComing in cares ==> Told(s, w.leader)
  {
    forall i | 0 <= i < |s.nodes| ensures s.nodes[i].phase != Computing && s.nodes[i].stack == [] {
      assert !Owes(w, s, i, NotComputing);
      assert NodeOk(w.g, v, s.nodes[i]);
    }
    forall p | p in s.net ensures Handed(w, p) == [] {
      assert PacketOk(w, v, p);
      assert !Owes(w, s, p.dest, NoJobComing);
      assert p.Assignment? ==> !Owes(w, s, p.from, NoNewsComing);
    }
    forall p | p in s.net && p.Result? && p.dest == w.leader ensures NoReportComing !in cares {
      assert PacketOk(w, v, p);
      assert Owes(w, s, p.from, NoReportComing);
    }
  }

  /**
   * The leader ends the computation when its log is empty.  If no step of the run empties the
   * entry of a node that is computing, has a job coming or has told of a division, and repeated
   * jobs are taken only while they are logged, then nothing is left to do anywhere at that time.
   */
  lemma EmptyLogIsSafe(w: World, s: Cluster, order: seq<nat>, steps: seq<Step>, cares: set<Care>)
    requires w.Valid() && Fresh(w, s) && DealOrder(w, order) && FOR_WORK <= cares
    requires Legal(w, Launch(w, s, order), steps) && Careful(w, Launch(w, s, order), steps, cares)
    requires w.leader < |Final(w, Launch(w, s, order), steps).nodes|
    requires NothingLogged(TableOf(Final(w, Launch(w, s, order), steps).nodes[w.leader]))
    ensures NothingOwed(w, Final(w, Launch(w, s, order), steps), cares)
    ensures NoWorkLeft(w, Final(w, Launch(w, s, order), steps))
    ensures NoReportComing in cares ==> Told(Final(w, Launch(w, s, order), steps), w.leader)
  {
    var s1, t := Launch(w, s, order), Final(w, Launch(w, s, order), steps);
    var v := OptimumExists(w.g);
    LaunchEstablishes(w, v, s, order);
    LaunchCovered(w, s, order, cares);
    RunKeepsInv(w, v, s1, steps);
    RunKeepsCovered(w, v, s1, steps, cares);
    EmptyLogCovers(w, t, cares);
    NothingOwedIsDone(w, v, t, cares);
  }

  /** In terms of the program's own test, whoever is connected: Terminate goes out only when no work is left. */
  lemma TerminationIsSafe(w: World, s: Cluster, order: seq<nat>, steps: seq<Step>, known: set<Name>)
    requires w.Valid() && Fresh(w, s) && DealOrder(w, order)
    requires Legal(w, Launch(w, s, order), steps) && Careful(w, Launch(w, s, order), steps, FOR_WORK)
    requires w.leader < |Final(w, Launch(w, s, order), steps).nodes|
    requires EndsNow(TableOf(Final(w, Launch(w, s, order), steps).nodes[w.leader]), known)
    ensures NoWorkLeft(w, Final(w, Launch(w, s, order), steps))
  {
    TerminationTest(TableOf(Final(w, Launch(w, s, order), steps).nodes[w.leader]), known);
    EmptyLogIsSafe(w, s, order, steps, FOR_WORK);
  }

  /**
   * And the condition is exact: as long as it has been observed, a step that empties the leader's
   * log leaves nothing to do, or to tell, if and only if it observes the condition too.
   */
  lemma EmptyLogIsRight(w: World, s: Cluster, order: seq<nat>, steps: seq<Step>, a: Step, cares: set<Care>)
    requires w.Valid() && Fresh(w, s) && DealOrder(w, order) && FOR_WORK <= cares
    requires Legal(w, Launch(w, s, order), steps) && Careful(w, Launch(w, s, order), steps, cares)
    requires |Final(w, Launch(w, s, order), steps).nodes| == |w.ids| && Enabled(w, Final(w, Launch(w, s, order), steps), a)
    requires NothingLogged(TableOf(Apply(w, Final(w, Launch(w, s, order), steps), a).nodes[w.leader]))
    ensures NothingOwed(w, Apply(w, Final(w, Launch(w, s, order), steps), a), cares)
       <==> forall c :: c in cares ==> Observes(w, Final(w, Launch(w, s, order), steps), a, c)
  {
    var s1, t := Launch(w, s, order), Final(w, Launch(w, s, order), steps);
    var v := OptimumExists(w.g);
    LaunchEstablishes(w, v, s, order);
    LaunchCovered(w, s, order, cares);
    RunKeepsInv(w, v, s1, steps);
    RunKeepsCovered(w, v, s1, steps, cares);
    LastStep(w, v, t, a, cares);
  }

  lemma LastStep(w: World, v: int, t: Cluster, a: Step, cares: set<Care>)
    requires w.Valid() && Inv(w, v, t) && Enabled(w, t, a) && FOR_WORK <= cares && Covered(w, t, cares)
    requires NothingLogged(TableOf(Apply(w, t, a).nodes[w.leader]))
    ensures NothingOwed(w, Apply(w, t, a), cares) <==> forall c :: c in cares ==> Observes(w, t, a, c)
  {
    if forall c :: c in cares ==> Observes(w, t, a, c) {
      StepKeepsCovered(w, v, t, a, cares);
      EmptyLogCovers(w, Apply(w, t, a), cares);
    }
    assert Repeats(w, t, a) ==> Owes(w, Apply(w, t, a), t.net[a.k].dest, NotComputing);
  }

  /**
   * If moreover no entry is emptied while another result of that node is on its way, and no job
   * was dropped, then the leader reports the optimum at that time, on the conditions of
   * `EveryNodeFindsTheOptimum`.
   */
  lemma LeaderEndsWithTheOptimum(w: World, v: int, s: Cluster, order: seq<nat>, steps: seq<Step>)
    requires w.Valid() && Fresh(w, s) && DealOrder(w, order) && IsOptimum(w.g, v)
    requires Legal(w, Launch(w, s, order), steps) && Lossless(w, Launch(w, s, order), steps)
    requires Careful(w, Launch(w, s, order), steps, FOR_WORK + {NoReportComing})
    requires w.leader < |Final(w, Launch(w, s, order), steps).nodes|
    requires NothingLogged(TableOf(Final(w, Launch(w, s, order), steps).nodes[w.leader]))
    ensures Final(w, Launch(w, s, order), steps).nodes[w.leader].bestFound == v
       <==> v < TWO_TO_31 &&
            (LeaderComputes(w, Launch(w, s, order), steps)
             || IsMax(w.g, v, 0, Pending(w.g, After(w.g, Start(w.g), WARM_UP).stack)))
  {
    EmptyLogIsSafe(w, s, order, steps, FOR_WORK + {NoReportComing});
    EveryNodeFindsTheOptimum(w, v, s, order, steps, w.leader);
  }
}
