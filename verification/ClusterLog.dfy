/** What the leader's log is worth: under which guard it always leads to everything that is still to be done. */
module ClusterLogs {
  import opened Basics
  import opened Multisets
  import opened Matrices
  import opened Paths
  import opened ParallelStacks
  import opened MaximumCuts
  import opened StackAssignments
  import opened Splitting
  import opened Scheduling
  import opened Computations
  import opened Clusters
  import opened ClusterInvariants
  import opened ClusterRuns
  import opened ClusterAnnouncements
  import opened ClusterTermination
  import opened ClusterOrder
  import opened ClusterGuards

  // ---------- the guard ----------

  /** News on its way names node `i`. */
  ghost predicate NamedByNews(w: World, s: Cluster, i: nat)
    requires i < |w.ids|
  {
    exists p :: p in s.net && IsNews(w, p) && w.ids[i] in p.table
  }

  /**
   * A node divides only in favour of one that has nothing, has told everything, and is not named
   * by news on its way; only the leader repeats its log, to others, and nobody takes a job from
   * it; messages between two nodes stay in order.
   */
  ghost predicate Considerate(w: World, s: Cluster, a: Step)
    requires |s.nodes| == |w.ids| && Enabled(w, s, a)
  {
    && (a.Divide? && s.nodes[a.i].stack != [] ==>
          Vacant(w, s, a.with) && !ReportComing(w, s, a.with) && !NamedByNews(w, s, a.with))
    && (a.Resend? ==> a.i == w.leader && a.to != w.leader)
    && (a.Deliver? ==> InOrder(s.net, a.k))
    && !Repeats(w, s, a)
  }

  ghost predicate AllConsiderate(w: World, s: Cluster, steps: seq<Step>)
    requires Legal(w, s, steps)
    decreases |steps|
  {
    steps == [] || (Considerate(w, s, steps[0]) && AllConsiderate(w, Apply(w, s, steps[0]), steps[1..]))
  }

  // ---------- work within a job ----------

  /** Everything that `work` stands for extends an entry of `job`. */
  ghost predicate Covers(g: Matrix, job: seq<Path>, work: seq<Path>) {
    forall q :: q in Pending(g, work) ==> q in Pending(g, job)
  }

  lemma PopsCovered(g: Matrix, s: Search, k: nat)
    requires ValidStack(g, s.stack)
    ensures Covers(g, s.stack, After(g, s, k).stack)
  {
    VisitedPlusPending(g, s, k);
  }

  lemma HalvesCovered(g: Matrix, s: seq<Path>)
    ensures Covers(g, s, Share(s, 0, 2)) && Covers(g, s, Share(s, 1, 2))
  {
    HalvesPending(g, s);
  }

  /** All that node `i` has to do, or will get, is within `job`. */
  ghost predicate WorkWithin(w: World, s: Cluster, i: nat, job: seq<Path>)
    requires i < |s.nodes|
  {
    && Covers(w.g, job, s.nodes[i].stack)
    && forall p :: p in s.net && p.dest == i ==> Covers(w.g, job, Handed(w, p))
  }

  lemma VacantWorkWithin(w: World, v: int, s: Cluster, i: nat, job: seq<Path>)
    requires Inv(w, v, s) && i < |s.nodes| && Vacant(w, s, i)
    ensures WorkWithin(w, s, i, job)
  {
    assert NodeOk(w.g, v, s.nodes[i]);
  }

  lemma WorkShrinks(w: World, s: Cluster, s': Cluster, i: nat, job: seq<Path>)
    requires i < |s.nodes| && i < |s'.nodes| && WorkWithin(w, s, i, job)
    requires Covers(w.g, s.nodes[i].stack, s'.nodes[i].stack)
    requires forall p :: p in s'.net && p.dest == i && Handed(w, p) != [] ==> p in s.net
    ensures WorkWithin(w, s', i, job)
  {
  }

  lemma WorkMoves(w: World, s: Cluster, s': Cluster, i: nat, p: Packet, job: seq<Path>)
    requires i < |s.nodes| && i < |s'.nodes| && WorkWithin(w, s, i, job)
    requires p in s.net && p.dest == i && s'.nodes[i].stack == Handed(w, p)
    requires forall x :: x in s'.net ==> x in s.net
    ensures WorkWithin(w, s', i, job)
  {
  }

  // ---------- the invariant ----------

  /** A node with a result to tell the leader has nothing to do, no other result to tell and no later news. */
  ghost predicate ReportsAlone(w: World, s: Cluster) {
    forall m :: 0 <= m < |s.net| && s.net[m].Result? && s.net[m].dest == w.leader ==>
      s.net[m].from < |s.nodes| && Alone(w, s, s.net[m].from, m)
  }

  ghost predicate Alone(w: World, s: Cluster, i: nat, m: nat)
    requires i < |s.nodes|
  {
    && Vacant(w, s, i)
    && (forall n :: 0 <= n < |s.net| && n != m ==> !IsReport(w, s.net[n], i))
    && (forall n :: m < n < |s.net| && IsNews(w, s.net[n]) ==> s.net[n].from != i)
  }

  /** What reaches the leader as a table is news. */
  ghost predicate TablesAreNews(w: World, s: Cluster) {
    forall p :: p in s.net && p.Assignment? && p.dest == w.leader ==> p.handover
  }

  /** News names a job for everything its nodes have to do, and nothing only for a node that is done. */
  ghost predicate NewsIsTrue(w: World, s: Cluster)
    requires |s.nodes| == |w.ids|
  {
    forall p, i :: p in s.net && IsNews(w, p) && 0 <= i < |w.ids| && w.ids[i] in p.table ==>
      TrueOf(w, s, i, p.table[w.ids[i]])
  }

  ghost predicate TrueOf(w: World, s: Cluster, i: nat, job: seq<Path>)
    requires i < |s.nodes|
  {
    WorkWithin(w, s, i, job) && (job == [] ==> Vacant(w, s, i) && !ReportComing(w, s, i))
  }

  /** So does the log, for all nodes that no news names. */
  ghost predicate LogIsTrue(w: World, s: Cluster)
    requires w.leader < |w.ids| == |s.nodes|
  {
    forall i :: 0 <= i < |w.ids| && !NamedByNews(w, s, i) ==> WorkWithin(w, s, i, Entry(w, s, i))
  }

  ghost predicate Tidy(w: World, s: Cluster) {
    && w.leader < |w.ids| == |s.nodes|
    && OneJobEach(w, s) && NewsFollowed(w, s) && ReportsAlone(w, s) && TablesAreNews(w, s)
    && NewsIsTrue(w, s) && LogIsTrue(w, s)
  }

  lemma ComputingIsUnreported(w: World, s: Cluster, i: nat)
    requires ReportsAlone(w, s) && i < |s.nodes| && s.nodes[i].phase == Computing
    ensures !ReportComing(w, s, i)
  {
    forall m | 0 <= m < |s.net| ensures !IsReport(w, s.net[m], i) {
      assert IsReport(w, s.net[m], i) ==> Alone(w, s, i, m);
    }
  }

  lemma ComputingGetsNoJob(w: World, s: Cluster, i: nat)
    requires OneJobEach(w, s) && i < |s.nodes| && s.nodes[i].phase == Computing
    ensures !JobComing(w, s, i)
  {
  }

  // ---------- a quantum ----------

  /** A node that reports is done. */
  lemma QuantumReports(w: World, v: int, s: Cluster, i: nat) returns (more: seq<Packet>)
    requires w.Valid() && Inv(w, v, s) && i < |s.nodes|
    ensures var s' := Apply(w, s, Tick(i));
            && s'.net == s.net + more
            && Covers(w.g, s.nodes[i].stack, s'.nodes[i].stack)
            && (s.nodes[i].phase != Computing ==> s'.nodes[i] == s.nodes[i])
            && (more != [] ==> s.nodes[i].phase == Computing && s'.nodes[i].phase != Computing && s'.nodes[i].stack == [])
            && (s'.nodes[i].phase == Computing || s.nodes[i].phase != Computing ==> s'.nodes[i].table == s.nodes[i].table)
    ensures forall p :: p in more ==> p.Result? && p.from == i && Handed(w, p) == [] && p.dest != i
    ensures forall m, n :: 0 <= m < n < |more| ==> more[m].dest != more[n].dest
  {
    var st := s.nodes[i];
    assert NodeOk(w.g, v, st);
    PopsCovered(w.g, Search(st.stack, st.bestMax), QUANTUM);
    QuantumEmpties(w.g, w.ids[i], st);
    var report := QuantumReport(w.g, st);
    if report.None? {
      more := [];
    } else {
      more := ResultPackets(i, report.value, |s.nodes|);
      ResultsHandNothing(w, i, report.value, |s.nodes|);
      ResultsAscend(i, report.value, |s.nodes|);
    }
  }

  lemma {:induction false} ResultsAscend(from: nat, best: Int32, n: nat)
    ensures forall k :: 0 <= k < |ResultPackets(from, best, n)| ==> ResultPackets(from, best, n)[k].dest < n
    ensures forall j, k :: 0 <= j < k < |ResultPackets(from, best, n)| ==>
              ResultPackets(from, best, n)[j].dest < ResultPackets(from, best, n)[k].dest
  {
    if n > 0 {
      ResultsAscend(from, best, n - 1);
    }
  }

  /** Nobody but the node that computed changes its standing. */
  lemma TickVacancy(w: World, v: int, s: Cluster, i: nat, j: nat)
    requires w.Valid() && Inv(w, v, s) && i < |s.nodes| && j < |s.nodes| && Vacant(w, s, j)
    ensures Vacant(w, Apply(w, s, Tick(i)), j)
    ensures ReportComing(w, Apply(w, s, Tick(i)), j) ==> ReportComing(w, s, j)
  {
    var more := QuantumReports(w, v, s, i);
    AddedMessages(s.net, more);
  }

  lemma TickKeepsReports(w: World, v: int, s: Cluster, i: nat)
    requires w.Valid() && Inv(w, v, s) && i < |s.nodes| && OneJobEach(w, s) && ReportsAlone(w, s)
    ensures ReportsAlone(w, Apply(w, s, Tick(i)))
  {
    var s' := Apply(w, s, Tick(i));
    var more := QuantumReports(w, v, s, i);
    AddedMessages(s.net, more);
    forall m | 0 <= m < |s'.net| && s'.net[m].Result? && s'.net[m].dest == w.leader
      ensures s'.net[m].from < |s'.nodes| && Alone(w, s', s'.net[m].from, m)
    {
      if m < |s.net| {
        assert s'.net[m] == s.net[m];
        OldReportTick(w, v, s, i, more, m);
      } else {
        assert s'.net[m] == more[m - |s.net|];
        NewReportTick(w, v, s, i, more, m);
      }
    }
  }

  lemma OldReportTick(w: World, v: int, s: Cluster, i: nat, more: seq<Packet>, m: nat)
    requires w.Valid() && Inv(w, v, s) && i < |s.nodes| && m < |s.net| && Apply(w, s, Tick(i)).net == s.net + more
    requires s.net[m].from < |s.nodes| && Alone(w, s, s.net[m].from, m)
    requires forall p :: p in more ==> p.Result? && p.from == i
    requires more != [] ==> s.nodes[i].phase == Computing
    ensures Alone(w, Apply(w, s, Tick(i)), s.net[m].from, m)
  {
    var s', f := Apply(w, s, Tick(i)), s.net[m].from;
    AddedMessages(s.net, more);
    TickVacancy(w, v, s, i, f);
    forall n | 0 <= n < |s'.net| && n != m ensures !IsReport(w, s'.net[n], f) {
      assert n < |s.net| ==> s'.net[n] == s.net[n];
    }
  }

  lemma NewReportTick(w: World, v: int, s: Cluster, i: nat, more: seq<Packet>, m: nat)
    requires w.Valid() && Inv(w, v, s) && i < |s.nodes| && OneJobEach(w, s) && ReportsAlone(w, s)
    requires Apply(w, s, Tick(i)).net == s.net + more && |s.net| <= m < |s.net + more|
    requires s.nodes[i].phase == Computing && Apply(w, s, Tick(i)).nodes[i].phase != Computing
    requires forall p :: p in more ==> p.Result? && p.from == i && Handed(w, p) == []
    requires forall a, b :: 0 <= a < b < |more| ==> more[a].dest != more[b].dest
    requires (s.net + more)[m].dest == w.leader
    ensures Alone(w, Apply(w, s, Tick(i)), i, m)
  {
    var s' := Apply(w, s, Tick(i));
    AddedMessages(s.net, more);
    ComputingGetsNoJob(w, s, i);
    ComputingIsUnreported(w, s, i);
    forall n | 0 <= n < |s'.net| && n != m ensures !IsReport(w, s'.net[n], i) {
      if n < |s.net| {
        assert s'.net[n] == s.net[n] && s.net[n] in s.net;
      } else {
        assert s'.net[n] == more[n - |s.net|] && s'.net[m] == more[m - |s.net|];
      }
    }
  }

  lemma TickKeepsNews(w: World, v: int, s: Cluster, i: nat)
    requires w.Valid() && Inv(w, v, s) && i < |s.nodes| && NewsIsTrue(w, s) && TablesAreNews(w, s)
    ensures NewsIsTrue(w, Apply(w, s, Tick(i))) && TablesAreNews(w, Apply(w, s, Tick(i)))
  {
    var s' := Apply(w, s, Tick(i));
    var more := QuantumReports(w, v, s, i);
    AddedMessages(s.net, more);
    forall p, j | p in s'.net && IsNews(w, p) && 0 <= j < |w.ids| && w.ids[j] in p.table
      ensures TrueOf(w, s', j, p.table[w.ids[j]])
    {
      assert TrueOf(w, s, j, p.table[w.ids[j]]);
      WorkShrinks(w, s, s', j, p.table[w.ids[j]]);
      if p.table[w.ids[j]] == [] {
        TickVacancy(w, v, s, i, j);
      }
    }
  }

  lemma TickKeepsLog(w: World, v: int, s: Cluster, i: nat)
    requires w.Valid() && Inv(w, v, s) && i < |s.nodes| && OneJobEach(w, s) && LogIsTrue(w, s)
    ensures LogIsTrue(w, Apply(w, s, Tick(i)))
  {
    var s' := Apply(w, s, Tick(i));
    var more := QuantumReports(w, v, s, i);
    AddedMessages(s.net, more);
    forall j | 0 <= j < |w.ids| && !NamedByNews(w, s', j) ensures WorkWithin(w, s', j, Entry(w, s', j)) {
      assert !NamedByNews(w, s, j);
      if i == w.leader == j && s'.nodes[i].phase != Computing && s.nodes[i].phase == Computing {
        ComputingGetsNoJob(w, s, i);
        LeaderReportsDone(w, v, s, i);
      } else {
        SameEntryTick(w, s, i, j);
        WorkShrinks(w, s, s', j, Entry(w, s, j));
      }
    }
  }

  lemma LeaderReportsDone(w: World, v: int, s: Cluster, i: nat)
    requires w.Valid() && Inv(w, v, s) && i < |s.nodes| && !JobComing(w, s, i)
    requires Apply(w, s, Tick(i)).nodes[i].phase != Computing
    ensures WorkWithin(w, Apply(w, s, Tick(i)), i, Entry(w, Apply(w, s, Tick(i)), i))
  {
    var s' := Apply(w, s, Tick(i));
    var more := QuantumReports(w, v, s, i);
    AddedMessages(s.net, more);
    assert NodeOk(w.g, v, s.nodes[i]);
    QuantumEmpties(w.g, w.ids[i], s.nodes[i]);
    assert s'.nodes[i].stack == [];
  }

  lemma SameEntryTick(w: World, s: Cluster, i: nat, j: nat)
    requires w.Valid() && |s.nodes| == |w.ids| && i < |s.nodes| && j < |s.nodes|
    requires !(i == w.leader == j && Apply(w, s, Tick(i)).nodes[i].phase != Computing && s.nodes[i].phase == Computing)
    ensures Entry(w, Apply(w, s, Tick(i)), j) == Entry(w, s, j)
  {
    assert j != i ==> w.ids[j] != w.ids[i];
  }

  // ---------- a division ----------

  /** What a division changes: the divider keeps half, one packet hands over the other half. */
  ghost predicate Splits(w: World, s: Cluster, s': Cluster, i: nat, with: nat, a: Table) {
    && |s.nodes| == |w.ids| == |s'.nodes| && i < |w.ids| && with < |w.ids| && i != with
    && s.nodes[i].phase == Computing
    && s'.nodes == s.nodes[i := s'.nodes[i]] && s'.nodes[i].phase == Computing
    && s'.nodes[i].stack == Share(s.nodes[i].stack, 0, 2) != []
    && a == map[w.ids[i] := Share(s.nodes[i].stack, 0, 2)][w.ids[with] := Share(s.nodes[i].stack, 1, 2)]
    && s.net <= s'.net
    && (forall m :: |s.net| <= m < |s'.net| ==>
          s'.net[m].Assignment? && s'.net[m].handover && s'.net[m].from == i && s'.net[m].dest != i && s'.net[m].table == a
          && Handed(w, s'.net[m]) == if s'.net[m].dest == with then Share(s.nodes[i].stack, 1, 2) else [])
  }

  lemma DivisionSplits(w: World, v: int, s: Cluster, i: nat, with: nat) returns (a: Table)
    requires w.Valid() && Inv(w, v, s) && Enabled(w, s, Divide(i, with)) && s.nodes[i].stack != []
    ensures Splits(w, s, Apply(w, s, Divide(i, with)), i, with, a)
  {
    SomethingToDivide(s.nodes[i].stack);
    a := Division(w.ids[i], s.nodes[i], w.ids[with]).value;
    OnlyOneHands(w, s, i, with);
    DividedOk(w.g, v, w.ids[i], s.nodes[i], w.ids[with]);
    DivisionPackets(i, a, |s.nodes|);
    AddedMessages(s.net, AssignmentPackets(i, a, |s.nodes|));
  }

  lemma GrownMembers(net: seq<Packet>, net': seq<Packet>, p: Packet)
    requires net <= net' && p in net'
    ensures p in net || exists m :: |net| <= m < |net'| && net'[m] == p
  {
    var m :| 0 <= m < |net'| && net'[m] == p;
    assert m < |net| ==> net[m] == p;
  }

  /** All others stand as they did. */
  lemma SplitVacancy(w: World, s: Cluster, s': Cluster, i: nat, with: nat, a: Table, j: nat)
    requires Splits(w, s, s', i, with, a) && j < |s.nodes| && Vacant(w, s, j)
    ensures j != with || Share(s.nodes[i].stack, 1, 2) == [] ==> Vacant(w, s', j)
    ensures ReportComing(w, s', j) ==> ReportComing(w, s, j)
  {
    forall p | p in s'.net && p !in s.net ensures p.Assignment? && (Handed(w, p) != [] ==> p.dest == with) {
      GrownMembers(s.net, s'.net, p);
    }
  }

  lemma SplitKeepsReports(w: World, s: Cluster, s': Cluster, i: nat, with: nat, a: Table)
    requires Splits(w, s, s', i, with, a) && ReportsAlone(w, s) && !ReportComing(w, s, with)
    ensures ReportsAlone(w, s')
  {
    forall m | 0 <= m < |s'.net| && s'.net[m].Result? && s'.net[m].dest == w.leader
      ensures s'.net[m].from < |s'.nodes| && Alone(w, s', s'.net[m].from, m)
    {
      assert m < |s.net| && s'.net[m] == s.net[m] && s.net[m] in s.net;
      var f := s.net[m].from;
      assert Alone(w, s, f, m) && f != with && f != i;
      SplitVacancy(w, s, s', i, with, a, f);
      forall n | 0 <= n < |s'.net| && n != m ensures !IsReport(w, s'.net[n], f) {
        assert n < |s.net| ==> s'.net[n] == s.net[n];
      }
    }
  }

  lemma SplitWork(w: World, s: Cluster, s': Cluster, i: nat, with: nat, a: Table, j: nat, job: seq<Path>)
    requires Splits(w, s, s', i, with, a) && j < |s.nodes| && j != with && WorkWithin(w, s, j, job)
    ensures WorkWithin(w, s', j, job)
  {
    HalvesCovered(w.g, s.nodes[i].stack);
    forall p | p in s'.net && p.dest == j && Handed(w, p) != [] ensures p in s.net {
      GrownMembers(s.net, s'.net, p);
    }
    WorkShrinks(w, s, s', j, job);
  }

  /** The new table names exactly what its two nodes have to do. */
  lemma SplitIsTrue(w: World, v: int, s: Cluster, s': Cluster, i: nat, with: nat, a: Table)
    requires w.Valid() && Inv(w, v, s) && Splits(w, s, s', i, with, a) && OneJobEach(w, s)
    requires Vacant(w, s, with) && !ReportComing(w, s, with)
    ensures TrueOf(w, s', i, Share(s.nodes[i].stack, 0, 2)) && TrueOf(w, s', with, Share(s.nodes[i].stack, 1, 2))
  {
    ComputingGetsNoJob(w, s, i);
    assert NodeOk(w.g, v, s.nodes[with]);
    SplitVacancy(w, s, s', i, with, a, with);
    forall p | p in s'.net && p !in s.net
      ensures p.dest != i && (p.dest == with ==> Handed(w, p) == Share(s.nodes[i].stack, 1, 2))
    {
      GrownMembers(s.net, s'.net, p);
    }
  }

  lemma SplitKeepsNews(w: World, v: int, s: Cluster, s': Cluster, i: nat, with: nat, a: Table)
    requires w.Valid() && Inv(w, v, s) && Splits(w, s, s', i, with, a) && OneJobEach(w, s) && NewsIsTrue(w, s)
    requires Vacant(w, s, with) && !ReportComing(w, s, with) && !NamedByNews(w, s, with)
    ensures NewsIsTrue(w, s')
  {
    SplitIsTrue(w, v, s, s', i, with, a);
    forall p, j | p in s'.net && IsNews(w, p) && 0 <= j < |w.ids| && w.ids[j] in p.table
      ensures TrueOf(w, s', j, p.table[w.ids[j]])
    {
      if p in s.net {
        assert TrueOf(w, s, j, p.table[w.ids[j]]) && j != with;
        SplitWork(w, s, s', i, with, a, j, p.table[w.ids[j]]);
        if p.table[w.ids[j]] == [] {
          SplitVacancy(w, s, s', i, with, a, j);
        }
      } else {
        GrownMembers(s.net, s'.net, p);
        assert j == i || j == with;
        assert w.ids[i] != w.ids[with];
      }
    }
  }

  lemma DivideKeepsLog(w: World, v: int, s: Cluster, i: nat, with: nat, a: Table)
    requires w.Valid() && Inv(w, v, s) && Enabled(w, s, Divide(i, with)) && OneJobEach(w, s) && LogIsTrue(w, s)
    requires Splits(w, s, Apply(w, s, Divide(i, with)), i, with, a)
    requires Vacant(w, s, with) && !ReportComing(w, s, with)
    ensures LogIsTrue(w, Apply(w, s, Divide(i, with)))
  {
    var s' := Apply(w, s, Divide(i, with));
    SplitIsTrue(w, v, s, s', i, with, a);
    forall j | 0 <= j < |w.ids| && !NamedByNews(w, s', j) ensures WorkWithin(w, s', j, Entry(w, s', j)) {
      forall p | p in s.net ensures p in s'.net {
        var m :| 0 <= m < |s.net| && s.net[m] == p;
        assert s'.net[m] == p;
      }
      if i == w.leader {
        LogAfterAssignment(w.ids[i], s.nodes[i].(stack := Share(s.nodes[i].stack, 0, 2)), a, w.ids[j]);
        LeaderDivisionEntry(w, s, i, with, a, j);
      } else {
        if j == i || j == with {
          NewsOfDivision(w, s, i, with, a, j);
        }
      }
      if j != i && j != with {
        assert !NamedByNews(w, s, j);
        SplitWork(w, s, s', i, with, a, j, Entry(w, s, j));
      }
    }
  }

  lemma LeaderDivisionEntry(w: World, s: Cluster, i: nat, with: nat, a: Table, j: nat)
    requires w.Valid() && |s.nodes| == |w.ids| && Enabled(w, s, Divide(i, with)) && i == w.leader && j < |w.ids|
    requires Splits(w, s, Apply(w, s, Divide(i, with)), i, with, a)
    ensures Entry(w, Apply(w, s, Divide(i, with)), j) ==
            if j == i then Share(s.nodes[i].stack, 0, 2)
            else if j == with then Share(s.nodes[i].stack, 1, 2)
            else Entry(w, s, j)
  {
    assert j != i ==> w.ids[j] != w.ids[i];
    assert j != with ==> w.ids[j] != w.ids[with];
    LogAfterAssignment(w.ids[i], s.nodes[i].(stack := Share(s.nodes[i].stack, 0, 2)), a, w.ids[j]);
  }

  lemma NewsOfDivision(w: World, s: Cluster, i: nat, with: nat, a: Table, j: nat)
    requires w.Valid() && |s.nodes| == |w.ids| && Enabled(w, s, Divide(i, with)) && i != w.leader && j in {i, with}
    requires Splits(w, s, Apply(w, s, Divide(i, with)), i, with, a)
    ensures NamedByNews(w, Apply(w, s, Divide(i, with)), j)
  {
    var s' := Apply(w, s, Divide(i, with));
    var before, after := OneCopyEach(i, a, |s.nodes|, w.leader);
    var k := |s.net| + |before|;
    assert s'.net[k] == Assignment(w.leader, i, a, true);
    assert s'.net[k] in s'.net && w.ids[j] in a;
  }

  // ---------- a delivery ----------

  lemma DeliveryEffect(w: World, v: int, s: Cluster, k: nat)
    requires w.Valid() && Inv(w, v, s) && Enabled(w, s, Deliver(k)) && OneJobEach(w, s) && !Repeats(w, s, Deliver(k))
    ensures var s', p := Apply(w, s, Deliver(k)), s.net[k];
            && s'.nodes == s.nodes[p.dest := s'.nodes[p.dest]]
            && (forall x :: x in s'.net ==> x in s.net)
            && (if Handed(w, p) != [] then s'.nodes[p.dest].stack == Handed(w, p)
                else s'.nodes[p.dest].stack == s.nodes[p.dest].stack
                     && (s'.nodes[p.dest].phase == Computing <==> s.nodes[p.dest].phase == Computing))
  {
    WithoutMembers(s.net, k);
    assert NodeOk(w.g, v, s.nodes[s.net[k].dest]);
  }

  lemma DeliveryVacancy(w: World, v: int, s: Cluster, k: nat, j: nat)
    requires w.Valid() && Inv(w, v, s) && Enabled(w, s, Deliver(k)) && OneJobEach(w, s) && !Repeats(w, s, Deliver(k))
    requires j < |s.nodes| && Vacant(w, s, j)
    ensures Vacant(w, Apply(w, s, Deliver(k)), j)
  {
    DeliveryEffect(w, v, s, k);
    assert s.net[k] in s.net;
  }

  lemma DeliveryWork(w: World, v: int, s: Cluster, k: nat, j: nat, job: seq<Path>)
    requires w.Valid() && Inv(w, v, s) && Enabled(w, s, Deliver(k)) && OneJobEach(w, s) && !Repeats(w, s, Deliver(k))
    requires j < |s.nodes| && WorkWithin(w, s, j, job)
    ensures WorkWithin(w, Apply(w, s, Deliver(k)), j, job)
  {
    var s', p := Apply(w, s, Deliver(k)), s.net[k];
    DeliveryEffect(w, v, s, k);
    assert p in s.net;
    if j == p.dest && Handed(w, p) != [] {
      WorkMoves(w, s, s', j, p, job);
    } else {
      WorkShrinks(w, s, s', j, job);
    }
  }

  lemma DeliveryKeepsReports(w: World, v: int, s: Cluster, k: nat)
    requires w.Valid() && Inv(w, v, s) && Enabled(w, s, Deliver(k)) && OneJobEach(w, s) && !Repeats(w, s, Deliver(k))
    requires ReportsAlone(w, s)
    ensures ReportsAlone(w, Apply(w, s, Deliver(k)))
  {
    var s' := Apply(w, s, Deliver(k));
    WithoutMembers(s.net, k);
    forall m | 0 <= m < |s'.net| && s'.net[m].Result? && s'.net[m].dest == w.leader
      ensures s'.net[m].from < |s'.nodes| && Alone(w, s', s'.net[m].from, m)
    {
      var m0 := if m < k then m else m + 1;
      assert s'.net[m] == s.net[m0] && Alone(w, s, s.net[m0].from, m0);
      DeliveryVacancy(w, v, s, k, s.net[m0].from);
    }
  }

  lemma DeliveryKeepsNews(w: World, v: int, s: Cluster, k: nat)
    requires w.Valid() && Inv(w, v, s) && Enabled(w, s, Deliver(k)) && OneJobEach(w, s) && !Repeats(w, s, Deliver(k))
    requires NewsIsTrue(w, s) && TablesAreNews(w, s)
    ensures NewsIsTrue(w, Apply(w, s, Deliver(k))) && TablesAreNews(w, Apply(w, s, Deliver(k)))
  {
    var s' := Apply(w, s, Deliver(k));
    WithoutMembers(s.net, k);
    forall p, j | p in s'.net && IsNews(w, p) && 0 <= j < |w.ids| && w.ids[j] in p.table
      ensures TrueOf(w, s', j, p.table[w.ids[j]])
    {
      assert TrueOf(w, s, j, p.table[w.ids[j]]);
      DeliveryWork(w, v, s, k, j, p.table[w.ids[j]]);
      if p.table[w.ids[j]] == [] {
        DeliveryVacancy(w, v, s, k, j);
      }
    }
  }

  /** What the leader has logged for a node after a delivery. */
  lemma DeliveryEntry(w: World, s: Cluster, k: nat, j: nat)
    requires w.Valid() && |s.nodes| == |w.ids| && Enabled(w, s, Deliver(k)) && j < |w.ids|
    ensures var p := s.net[k];
            Entry(w, Apply(w, s, Deliver(k)), j) ==
            if p.dest != w.leader then Entry(w, s, j)
            else if p.Result? then if j == p.from then [] else Entry(w, s, j)
            else if w.ids[j] in p.table then p.table[w.ids[j]] else Entry(w, s, j)
  {
    var p := s.net[k];
    if p.dest == w.leader && p.Assignment? {
      LogAfterAssignment(w.ids[w.leader], s.nodes[w.leader], p.table, w.ids[j]);
    }
    assert p.Result? && j != p.from ==> w.ids[j] != w.ids[p.from];
  }

  lemma DeliveryKeepsLog(w: World, v: int, s: Cluster, k: nat)
    requires w.Valid() && Inv(w, v, s) && Enabled(w, s, Deliver(k)) && !Repeats(w, s, Deliver(k)) && Tidy(w, s)
    ensures LogIsTrue(w, Apply(w, s, Deliver(k)))
  {
    var s', p := Apply(w, s, Deliver(k)), s.net[k];
    assert p in s.net;
    WithoutMembers(s.net, k);
    forall j | 0 <= j < |w.ids| && !NamedByNews(w, s', j) ensures WorkWithin(w, s', j, Entry(w, s', j)) {
      DeliveryEntry(w, s, k, j);
      if p.dest == w.leader && p.Result? && p.from == j {
        assert Alone(w, s, j, k);
        VacantWorkWithin(w, v, s, j, []);
      } else if p.dest == w.leader && p.Assignment? && w.ids[j] in p.table {
        assert IsNews(w, p) && TrueOf(w, s, j, p.table[w.ids[j]]);
      } else {
        StillUnnamed(w, s, k, j);
        assert WorkWithin(w, s, j, Entry(w, s, j));
      }
      DeliveryWork(w, v, s, k, j, Entry(w, s', j));
    }
  }

  lemma StillUnnamed(w: World, s: Cluster, k: nat, j: nat)
    requires |s.nodes| == |w.ids| && Enabled(w, s, Deliver(k)) && j < |w.ids|
    requires !NamedByNews(w, Apply(w, s, Deliver(k)), j)
    requires IsNews(w, s.net[k]) ==> w.ids[j] !in s.net[k].table
    ensures !NamedByNews(w, s, j)
  {
    WithoutMembers(s.net, k);
    forall p | p in s.net && IsNews(w, p) ensures w.ids[j] !in p.table {
      var m :| 0 <= m < |s.net| && s.net[m] == p;
      if m != k {
        assert Without(s.net, k)[if m < k then m else m - 1] == p;
      }
    }
  }

  // ---------- every considerate step ----------

  lemma TickKeepsTidy(w: World, v: int, s: Cluster, i: nat)
    requires w.Valid() && Inv(w, v, s) && i < |s.nodes| && Tidy(w, s)
    ensures Tidy(w, Apply(w, s, Tick(i)))
  {
    TickKeepsOneJob(w, s, i);
    StepFollows(w, v, s, Tick(i));
    TickKeepsReports(w, v, s, i);
    TickKeepsNews(w, v, s, i);
    TickKeepsLog(w, v, s, i);
  }

  lemma DivideKeepsTidy(w: World, v: int, s: Cluster, i: nat, with: nat)
    requires w.Valid() && Inv(w, v, s) && Enabled(w, s, Divide(i, with)) && Tidy(w, s) && Considerate(w, s, Divide(i, with))
    ensures Tidy(w, Apply(w, s, Divide(i, with)))
  {
    if s.nodes[i].stack == [] {
      SomethingToDivide(s.nodes[i].stack);
      assert Apply(w, s, Divide(i, with)) == s;
    } else {
      var s' := Apply(w, s, Divide(i, with));
      var a := DivisionSplits(w, v, s, i, with);
      DivideKeepsOneJob(w, v, s, i, with);
      StepFollows(w, v, s, Divide(i, with));
      SplitKeepsReports(w, s, s', i, with, a);
      SplitKeepsNews(w, v, s, s', i, with, a);
      SplitKeepsTables(w, s, s', i, with, a);
      DivideKeepsLog(w, v, s, i, with, a);
    }
  }

  lemma SplitKeepsTables(w: World, s: Cluster, s': Cluster, i: nat, with: nat, a: Table)
    requires Splits(w, s, s', i, with, a) && TablesAreNews(w, s)
    ensures TablesAreNews(w, s')
  {
    forall p | p in s'.net && p !in s.net ensures p.Assignment? && p.handover {
      GrownMembers(s.net, s'.net, p);
    }
  }

  lemma DeliverKeepsTidy(w: World, v: int, s: Cluster, k: nat)
    requires w.Valid() && Inv(w, v, s) && Enabled(w, s, Deliver(k)) && Tidy(w, s) && Considerate(w, s, Deliver(k))
    ensures Tidy(w, Apply(w, s, Deliver(k)))
  {
    DeliverKeepsOneJob(w, s, k);
    StepFollows(w, v, s, Deliver(k));
    DeliveryKeepsReports(w, v, s, k);
    DeliveryKeepsNews(w, v, s, k);
    DeliveryKeepsLog(w, v, s, k);
  }

  /** Waking up and repeating the log leave everything as it was. */
  lemma QuietKeepsTidy(w: World, s: Cluster, s': Cluster, more: seq<Packet>)
    requires Tidy(w, s) && |s'.nodes| == |s.nodes| && s'.net == s.net + more
    requires forall i :: 0 <= i < |s.nodes| ==>
               s'.nodes[i].stack == s.nodes[i].stack && s'.nodes[i].table == s.nodes[i].table
               && (s'.nodes[i].phase == Computing <==> s.nodes[i].phase == Computing)
    requires forall p :: p in more ==> p.Assignment? && p.dest != w.leader && Handed(w, p) == []
    ensures OneJobEach(w, s') && NewsFollowed(w, s') && ReportsAlone(w, s')
  {
    AddedMessages(s.net, more);
    GrowthKeepsOneJob(w, s, s');
    forall m | 0 <= m < |s'.net| && IsNews(w, s'.net[m]) ensures Followed(w, s', s'.net[m].from, m) {
      FollowedStays(w, s, s', s'.net[m].from, m);
    }
    forall m | 0 <= m < |s'.net| && s'.net[m].Result? && s'.net[m].dest == w.leader
      ensures s'.net[m].from < |s'.nodes| && Alone(w, s', s'.net[m].from, m)
    {
      assert s'.net[m] == s.net[m] && Alone(w, s, s.net[m].from, m);
      forall n | 0 <= n < |s'.net| && n != m ensures !IsReport(w, s'.net[n], s.net[m].from) {
        assert n < |s.net| ==> s'.net[n] == s.net[n];
      }
    }
  }

  lemma QuietKeepsLog(w: World, s: Cluster, s': Cluster, more: seq<Packet>)
    requires Tidy(w, s) && |s'.nodes| == |s.nodes| && s'.net == s.net + more
    requires forall i :: 0 <= i < |s.nodes| ==>
               s'.nodes[i].stack == s.nodes[i].stack && s'.nodes[i].table == s.nodes[i].table
               && (s'.nodes[i].phase == Computing <==> s.nodes[i].phase == Computing)
    requires forall p :: p in more ==> p.Assignment? && p.dest != w.leader && Handed(w, p) == []
    ensures TablesAreNews(w, s') && NewsIsTrue(w, s') && LogIsTrue(w, s')
  {
    AddedMessages(s.net, more);
    forall p, j | p in s'.net && IsNews(w, p) && 0 <= j < |w.ids| && w.ids[j] in p.table
      ensures TrueOf(w, s', j, p.table[w.ids[j]])
    {
      assert TrueOf(w, s, j, p.table[w.ids[j]]);
      WorkShrinks(w, s, s', j, p.table[w.ids[j]]);
    }
    forall j | 0 <= j < |w.ids| && !NamedByNews(w, s', j) ensures WorkWithin(w, s', j, Entry(w, s', j)) {
      assert !NamedByNews(w, s, j) && Entry(w, s', j) == Entry(w, s, j);
      WorkShrinks(w, s, s', j, Entry(w, s, j));
    }
  }

  lemma StepKeepsTidy(w: World, v: int, s: Cluster, a: Step)
    requires w.Valid() && Inv(w, v, s) && Enabled(w, s, a) && Tidy(w, s) && Considerate(w, s, a)
    ensures Tidy(w, Apply(w, s, a))
  {
    match a
    case Wake(i) =>
      assert s.net + [] == s.net;
      QuietKeepsTidy(w, s, Apply(w, s, a), []);
      QuietKeepsLog(w, s, Apply(w, s, a), []);
    case Tick(i) => TickKeepsTidy(w, v, s, i);
    case Divide(i, with) => DivideKeepsTidy(w, v, s, i, with);
    case Resend(i, to) =>
      var more := [Assignment(to, i, s.nodes[i].table.value, false)];
      QuietKeepsTidy(w, s, Apply(w, s, a), more);
      QuietKeepsLog(w, s, Apply(w, s, a), more);
    case Deliver(k) => DeliverKeepsTidy(w, v, s, k);
  }

  // ---------- every considerate step is careful ----------

  lemma TickIsCareful(w: World, v: int, s: Cluster, i: nat, c: Care)
    requires w.Valid() && Inv(w, v, s) && i < |s.nodes| && Tidy(w, s)
    ensures Observes(w, s, Tick(i), c)
  {
    var s' := Apply(w, s, Tick(i));
    var more := QuantumReports(w, v, s, i);
    AddedMessages(s.net, more);
    StepKeepsInv(w, v, s, Tick(i));
    forall j | 0 <= j < |w.ids| && Emptied(w, s, s', j) ensures !Owes(w, s', j, c) {
      assert i == w.leader == j && s'.nodes[i].phase != Computing by {
        if !(i == w.leader == j && s'.nodes[i].phase != Computing && s.nodes[i].phase == Computing) {
          SameEntryTick(w, s, i, j);
        }
      }
      NothingToItself(w, v, s', j);
    }
  }

  /** The leader sends itself neither news nor results. */
  lemma NothingToItself(w: World, v: int, s: Cluster, i: nat)
    requires w.Valid() && Inv(w, v, s) && i == w.leader
    ensures !NewsComing(w, s, i) && !ReportComing(w, s, i)
  {
    assert forall p :: p in s.net ==> PacketOk(w, v, p);
  }

  /** A node that has nothing and no result to tell owes nothing. */
  lemma OwesNothing(w: World, s: Cluster, i: nat, c: Care)
    requires NewsFollowed(w, s) && i < |s.nodes| && Vacant(w, s, i) && !ReportComing(w, s, i)
    ensures !Owes(w, s, i, c)
  {
    NoNewsLeft(w, s, i);
  }

  lemma DivideIsCareful(w: World, v: int, s: Cluster, i: nat, with: nat, c: Care)
    requires w.Valid() && Inv(w, v, s) && Enabled(w, s, Divide(i, with)) && Tidy(w, s) && Considerate(w, s, Divide(i, with))
    ensures Observes(w, s, Divide(i, with), c)
  {
    var s' := Apply(w, s, Divide(i, with));
    if s.nodes[i].stack == [] {
      SomethingToDivide(s.nodes[i].stack);
      assert s' == s;
    } else {
      var a := DivisionSplits(w, v, s, i, with);
      StepFollows(w, v, s, Divide(i, with));
      forall j | 0 <= j < |w.ids| && Emptied(w, s, s', j) ensures !Owes(w, s', j, c) {
        assert i == w.leader;
        LeaderDivisionEntry(w, s, i, with, a, j);
        SplitVacancy(w, s, s', i, with, a, j);
        OwesNothing(w, s', j, c);
      }
    }
  }

  lemma DeliverIsCareful(w: World, v: int, s: Cluster, k: nat, c: Care)
    requires w.Valid() && Inv(w, v, s) && Enabled(w, s, Deliver(k)) && Tidy(w, s) && Considerate(w, s, Deliver(k))
    ensures Observes(w, s, Deliver(k), c)
  {
    var s', p := Apply(w, s, Deliver(k)), s.net[k];
    assert p in s.net;
    StepFollows(w, v, s, Deliver(k));
    forall j | 0 <= j < |w.ids| && Emptied(w, s, s', j) ensures !Owes(w, s', j, c) {
      DeliveryEntry(w, s, k, j);
      if p.Result? {
        assert Alone(w, s, j, k);
        LastReport(w, s, k, j);
      } else {
        assert IsNews(w, p) && TrueOf(w, s, j, p.table[w.ids[j]]);
        WithoutMembers(s.net, k);
      }
      DeliveryVacancy(w, v, s, k, j);
      OwesNothing(w, s', j, c);
    }
  }

  lemma LastReport(w: World, s: Cluster, k: nat, i: nat)
    requires |s.nodes| == |w.ids| && Enabled(w, s, Deliver(k)) && i < |s.nodes| && Alone(w, s, i, k)
    ensures !ReportComing(w, Apply(w, s, Deliver(k)), i)
  {
    WithoutMembers(s.net, k);
  }

  lemma StepIsCareful(w: World, v: int, s: Cluster, a: Step, c: Care)
    requires w.Valid() && Inv(w, v, s) && Enabled(w, s, a) && Tidy(w, s) && Considerate(w, s, a)
    ensures Observes(w, s, a, c)
  {
    match a
    case Wake(i) =>
    case Tick(i) => TickIsCareful(w, v, s, i, c);
    case Divide(i, with) => DivideIsCareful(w, v, s, i, with, c);
    case Resend(i, to) =>
    case Deliver(k) => DeliverIsCareful(w, v, s, k, c);
  }

  /** No considerate run drops a job or empties an entry too early. */
  lemma {:induction false} RunIsCareful(w: World, v: int, s: Cluster, steps: seq<Step>)
    requires w.Valid() && Inv(w, v, s) && Tidy(w, s) && Legal(w, s, steps) && AllConsiderate(w, s, steps)
    ensures Tidy(w, Final(w, s, steps)) && Lossless(w, s, steps) && Careful(w, s, steps, ALL_CARES)
    decreases |steps|
  {
    if steps != [] {
      var a := steps[0];
      forall c | c in ALL_CARES ensures Observes(w, s, a, c) {
        StepIsCareful(w, v, s, a, c);
      }
      NotLossy(w, s, a);
      StepKeepsInv(w, v, s, a);
      StepKeepsTidy(w, v, s, a);
      RunIsCareful(w, v, Apply(w, s, a), steps[1..]);
    }
  }

  lemma NotLossy(w: World, s: Cluster, a: Step)
    requires w.Valid() && Tidy(w, s) && Enabled(w, s, a) && Considerate(w, s, a)
    ensures !Lossy(w, s, a)
  {
    if a.Deliver? {
      DeliverKeepsOneJob(w, s, a.k);
    }
  }

  lemma LaunchTidy(w: World, s: Cluster, order: seq<nat>)
    requires w.Valid() && Fresh(w, s) && DealOrder(w, order)
    ensures Tidy(w, Launch(w, s, order))
  {
    var s1 := Launch(w, s, order);
    LaunchOneJobEach(w, s, order);
    LaunchFollowed(w, s, order);
    LaunchTables(w, s, order);
    LaunchEntries(w, s, order);
    LaunchJobs(w, s, order);
    DealtIsTidy(w, s, s1);
  }

  lemma DealtIsTidy(w: World, s: Cluster, s1: Cluster)
    requires w.Valid() && Fresh(w, s) && OneJobEach(w, s1) && NewsFollowed(w, s1)
    requires |s1.nodes| == |s.nodes| && s1.nodes == s.nodes[w.leader := s1.nodes[w.leader]]
    requires s1.nodes[w.leader].stack == Entry(w, s1, w.leader)
    requires forall p :: p in s1.net ==>
               p.Assignment? && p.dest != w.leader && p.dest < |w.ids| && Handed(w, p) == Entry(w, s1, p.dest)
    ensures Tidy(w, s1)
  {
    assert forall m :: 0 <= m < |s1.net| ==> s1.net[m] in s1.net;
    assert forall i :: 0 <= i < |s1.nodes| && i != w.leader ==> s1.nodes[i] == s.nodes[i];
  }

  // ---------- what it is good for ----------

  lemma FromLaunch(w: World, s: Cluster, order: seq<nat>, steps: seq<Step>)
    requires w.Valid() && Fresh(w, s) && DealOrder(w, order)
    requires Legal(w, Launch(w, s, order), steps) && AllConsiderate(w, Launch(w, s, order), steps)
    ensures Tidy(w, Final(w, Launch(w, s, order), steps))
    ensures Lossless(w, Launch(w, s, order), steps) && Careful(w, Launch(w, s, order), steps, ALL_CARES)
  {
    var v := OptimumExists(w.g);
    LaunchEstablishes(w, v, s, order);
    LaunchTidy(w, s, order);
    RunIsCareful(w, v, Launch(w, s, order), steps);
  }

  lemma {:induction false} TransitMember(w: World, net: seq<Packet>, q: Path)
    requires q in InTransit(w, net)
    ensures exists p :: p in net && q in Pending(w.g, Handed(w, p))
  {
    var rest, p := net[..|net| - 1], net[|net| - 1];
    InOneOf(InTransit(w, rest), Pending(w.g, Handed(w, p)), InTransit(w, net), q);
    if q in InTransit(w, rest) {
      TransitMember(w, rest, q);
    } else {
      assert p in net;
    }
  }

  /** Path `q` extends an entry of the leader's log or of news on its way. */
  ghost predicate Recorded(w: World, s: Cluster, q: Path)
    requires w.leader < |s.nodes|
  {
    || (exists i :: 0 <= i < |w.ids| && q in Pending(w.g, Entry(w, s, i)))
    || (exists p, i :: p in s.net && IsNews(w, p) && 0 <= i < |w.ids| && w.ids[i] in p.table
          && q in Pending(w.g, p.table[w.ids[i]]))
  }

  lemma WorkIsRecorded(w: World, s: Cluster, i: nat, q: Path)
    requires Tidy(w, s) && i < |s.nodes|
    requires q in Pending(w.g, s.nodes[i].stack) || exists p :: p in s.net && p.dest == i && q in Pending(w.g, Handed(w, p))
    ensures Recorded(w, s, q)
  {
    if NamedByNews(w, s, i) {
      var p :| p in s.net && IsNews(w, p) && w.ids[i] in p.table;
      assert TrueOf(w, s, i, p.table[w.ids[i]]);
    } else {
      assert WorkWithin(w, s, i, Entry(w, s, i));
    }
  }

  /** In a considerate run every path that is still to be visited, wherever it is, is recorded. */
  lemma LogLeadsToAllWork(w: World, s: Cluster, order: seq<nat>, steps: seq<Step>, q: Path)
    requires w.Valid() && Fresh(w, s) && DealOrder(w, order)
    requires Legal(w, Launch(w, s, order), steps) && AllConsiderate(w, Launch(w, s, order), steps)
    requires q in Total(w, Final(w, Launch(w, s, order), steps))
    ensures w.leader < |Final(w, Launch(w, s, order), steps).nodes|
    ensures Recorded(w, Final(w, Launch(w, s, order), steps), q)
  {
    FromLaunch(w, s, order, steps);
    TotalIsRecorded(w, Final(w, Launch(w, s, order), steps), q);
  }

  lemma TransitIsRecorded(w: World, t: Cluster, q: Path)
    requires Tidy(w, t) && q in InTransit(w, t.net)
    ensures Recorded(w, t, q)
  {
    TransitMember(w, t.net, q);
    var p :| p in t.net && q in Pending(w.g, Handed(w, p));
    WorkIsRecorded(w, t, p.dest, q);
  }

  lemma StackIsRecorded(w: World, t: Cluster, q: Path)
    requires Tidy(w, t) && q in PendingAll(w.g, Stacks(t.nodes))
    ensures Recorded(w, t, q)
  {
    PendingAllMember(w.g, Stacks(t.nodes), q);
    var stack :| stack in Stacks(t.nodes) && q in Pending(w.g, stack);
    var i :| 0 <= i < |t.nodes| && t.nodes[i].stack == stack;
    WorkIsRecorded(w, t, i, q);
  }

  lemma TotalIsRecorded(w: World, t: Cluster, q: Path)
    requires Tidy(w, t) && q in Total(w, t)
    ensures Recorded(w, t, q)
  {
    if q in InTransit(w, t.net) {
      TransitIsRecorded(w, t, q);
    } else {
      InOneOf(PendingAll(w.g, Stacks(t.nodes)), InTransit(w, t.net), Total(w, t), q);
      StackIsRecorded(w, t, q);
    }
  }

  /**
   * If in a considerate run a node disconnects that no news names, the job that re-homing takes
   * from its entry leads to everything the node still had to do.
   */
  lemma RehomingRecoversWork(w: World, s: Cluster, order: seq<nat>, steps: seq<Step>,
                             known: set<Name>, moves: seq<Move>, m: nat, i: nat)
    requires w.Valid() && Fresh(w, s) && DealOrder(w, order) && i < |w.ids|
    requires Legal(w, Launch(w, s, order), steps) && AllConsiderate(w, Launch(w, s, order), steps)
    requires w.leader < |Final(w, Launch(w, s, order), steps).nodes|
    requires var log := TableOf(Final(w, Launch(w, s, order), steps).nodes[w.leader]);
             Pairing(moves, Orphaned(log, known), Idle(log, known)) && m < |moves| && moves[m].from == w.ids[i]
    requires !NamedByNews(w, Final(w, Launch(w, s, order), steps), i)
    ensures var t := Final(w, Launch(w, s, order), steps);
            && i < |t.nodes|
            && WorkWithin(w, t, i, JobOf(RehomedLog(TableOf(t.nodes[w.leader]), known, moves), moves[m].to))
  {
    FromLaunch(w, s, order, steps);
    RehomingMoves(TableOf(Final(w, Launch(w, s, order), steps).nodes[w.leader]), moves, known, m);
  }

  /** A considerate run loses nothing, and when the leader's log is empty all is done and the leader knows the result. */
  lemma ConsiderateRunEndsRight(w: World, v: int, s: Cluster, order: seq<nat>, steps: seq<Step>)
    requires w.Valid() && Fresh(w, s) && DealOrder(w, order) && IsOptimum(w.g, v)
    requires Legal(w, Launch(w, s, order), steps) && AllConsiderate(w, Launch(w, s, order), steps)
    ensures Lossless(w, Launch(w, s, order), steps)
    ensures var t := Final(w, Launch(w, s, order), steps);
            && w.leader < |t.nodes|
            && (NothingLogged(TableOf(t.nodes[w.leader])) ==>
                  && NoWorkLeft(w, t)
                  && (t.nodes[w.leader].bestFound == v
                      <==> v < TWO_TO_31 &&
                           (LeaderComputes(w, Launch(w, s, order), steps)
                            || IsMax(w.g, v, 0, Pending(w.g, After(w.g, Start(w.g), WARM_UP).stack)))))
  {
    FromLaunch(w, s, order, steps);
    if NothingLogged(TableOf(Final(w, Launch(w, s, order), steps).nodes[w.leader])) {
      assert ALL_CARES == FOR_WORK + {NoReportComing};
      EmptyLogIsSafe(w, s, order, steps, ALL_CARES);
      LeaderEndsWithTheOptimum(w, v, s, order, steps);
    }
  }
}
