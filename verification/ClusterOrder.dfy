/** What changes when messages between the same two nodes do not overtake each other. */
module ClusterOrder {
  import opened Scheduling
  import opened Computations
  import opened Clusters
  import opened ClusterInvariants
  import opened ClusterRuns
  import opened ClusterAnnouncements
  import opened ClusterTermination

  /** No earlier message between the same two nodes is still on its way. */
  ghost predicate InOrder(net: seq<Packet>, k: nat)
    requires k < |net|
  {
    forall m :: 0 <= m < k ==> net[m].dest != net[k].dest || net[m].from != net[k].from
  }

  ghost predicate AllInOrder(w: World, s: Cluster, steps: seq<Step>)
    requires Legal(w, s, steps)
    decreases |steps|
  {
    steps == [] ||
    ((steps[0].Deliver? ==> InOrder(s.net, steps[0].k)) && AllInOrder(w, Apply(w, s, steps[0]), steps[1..]))
  }

  /** A result that its sender tells the leader. */
  ghost predicate IsReport(w: World, p: Packet, i: nat) {
    p.Result? && p.dest == w.leader && p.from == i
  }

  /** Behind the news of a division is its sender's report, or else the sender is computing. */
  ghost predicate NewsFollowed(w: World, s: Cluster) {
    forall m :: 0 <= m < |s.net| && IsNews(w, s.net[m]) ==> Followed(w, s, s.net[m].from, m)
  }

  ghost predicate Followed(w: World, s: Cluster, i: nat, m: nat) {
    && i < |s.nodes|
    && (s.nodes[i].phase == Computing || exists n :: m < n < |s.net| && IsReport(w, s.net[n], i))
  }

  lemma FollowedStays(w: World, s: Cluster, s': Cluster, i: nat, m: nat)
    requires s.net <= s'.net && |s'.nodes| == |s.nodes| && Followed(w, s, i, m)
    requires s.nodes[i].phase == Computing ==> s'.nodes[i].phase == Computing
    ensures Followed(w, s', i, m)
  {
    if n :| m < n < |s.net| && IsReport(w, s.net[n], i) {
      assert s'.net[n] == s.net[n];
    }
  }

  /** A node that reports puts its report behind all its news. */
  lemma TickFollows(w: World, s: Cluster, i: nat)
    requires w.Valid() && |s.nodes| == |w.ids| && i < |s.nodes| && NewsFollowed(w, s)
    requires forall p :: p in s.net && IsNews(w, p) ==> p.from != w.leader
    ensures NewsFollowed(w, Apply(w, s, Tick(i)))
  {
    var s' := Apply(w, s, Tick(i));
    var more := QuantumNet(w, s, i);
    AddedMessages(s.net, more);
    forall m | 0 <= m < |s'.net| && IsNews(w, s'.net[m]) ensures Followed(w, s', s'.net[m].from, m) {
      assert s'.net[m] == s.net[m] && s.net[m] in s.net;
      if s.net[m].from == i {
        ReportIsLast(w, s, i, m);
      } else {
        FollowedStays(w, s, s', s.net[m].from, m);
      }
    }
  }

  lemma ReportIsLast(w: World, s: Cluster, i: nat, m: nat)
    requires w.Valid() && |s.nodes| == |w.ids| && i < |s.nodes| && i != w.leader && m < |s.net| && Followed(w, s, i, m)
    ensures Followed(w, Apply(w, s, Tick(i)), i, m)
  {
    var s', report := Apply(w, s, Tick(i)), QuantumReport(w.g, s.nodes[i]);
    if report.Some? {
      EveryoneIsTold(i, report.value, |s.nodes|, w.leader);
      var p := Result(w.leader, i, report.value);
      var n :| 0 <= n < |ResultPackets(i, report.value, |s.nodes|)| && ResultPackets(i, report.value, |s.nodes|)[n] == p;
      assert s'.net[|s.net| + n] == p && IsReport(w, p, i);
    } else {
      FollowedStays(w, s, s', i, m);
    }
  }

  lemma DivideFollows(w: World, v: int, s: Cluster, i: nat, with: nat)
    requires w.Valid() && Inv(w, v, s) && Enabled(w, s, Divide(i, with)) && NewsFollowed(w, s)
    ensures NewsFollowed(w, Apply(w, s, Divide(i, with)))
  {
    var s', division := Apply(w, s, Divide(i, with)), Division(w.ids[i], s.nodes[i], w.ids[with]);
    if division.Some? {
      DivisionPackets(i, division.value, |s.nodes|);
      DividedOk(w.g, v, w.ids[i], s.nodes[i], w.ids[with]);
      var more := AssignmentPackets(i, division.value, |s.nodes|);
      AddedMessages(s.net, more);
      forall m | 0 <= m < |s'.net| && IsNews(w, s'.net[m]) ensures Followed(w, s', s'.net[m].from, m) {
        if m < |s.net| {
          FollowedStays(w, s, s', s.net[m].from, m);
        }
      }
    }
  }

  /** In order, a report is never delivered before the news in front of it. */
  lemma DeliveryFollows(w: World, s: Cluster, k: nat)
    requires w.Valid() && |s.nodes| == |w.ids| && Enabled(w, s, Deliver(k)) && InOrder(s.net, k) && NewsFollowed(w, s)
    ensures NewsFollowed(w, Apply(w, s, Deliver(k)))
  {
    var s' := Apply(w, s, Deliver(k));
    WithoutMembers(s.net, k);
    forall m | 0 <= m < |s'.net| && IsNews(w, s'.net[m]) ensures Followed(w, s', s'.net[m].from, m) {
      var m0 := if m < k then m else m + 1;
      var i := s.net[m0].from;
      assert Followed(w, s, i, m0);
      if s.nodes[i].phase != Computing {
        var n :| m0 < n < |s.net| && IsReport(w, s.net[n], i);
        assert n != k;
        assert s'.net[if n < k then n else n - 1] == s.net[n];
      }
    }
  }

  lemma StepFollows(w: World, v: int, s: Cluster, a: Step)
    requires w.Valid() && Inv(w, v, s) && Enabled(w, s, a) && NewsFollowed(w, s)
    requires a.Deliver? ==> InOrder(s.net, a.k)
    ensures NewsFollowed(w, Apply(w, s, a))
  {
    match a
    case Wake(i) =>
      forall m | 0 <= m < |s.net| && IsNews(w, s.net[m]) ensures Followed(w, Apply(w, s, a), s.net[m].from, m) {
        FollowedStays(w, s, Apply(w, s, a), s.net[m].from, m);
      }
    case Tick(i) =>
      assert forall p :: p in s.net ==> PacketOk(w, v, p);
      TickFollows(w, s, i);
    case Divide(i, with) => DivideFollows(w, v, s, i, with);
    case Resend(i, to) =>
      var s' := Apply(w, s, a);
      forall m | 0 <= m < |s'.net| && IsNews(w, s'.net[m]) ensures Followed(w, s', s'.net[m].from, m) {
        FollowedStays(w, s, s', s.net[m].from, m);
      }
    case Deliver(k) => DeliveryFollows(w, s, k);
  }

  // ---------- the condition without news ----------

  const IN_ORDER: set<Care> := {NotComputing, NoJobComing, NoReportComing, RepeatsLogged}
  const ALL_CARES: set<Care> := {NotComputing, NoJobComing, NoNewsComing, NoReportComing, RepeatsLogged}

  /** A node that neither computes nor has a report on its way has no news on its way either. */
  lemma NoNewsLeft(w: World, s: Cluster, i: nat)
    requires NewsFollowed(w, s) && i < |s.nodes|
    requires s.nodes[i].phase != Computing && !ReportComing(w, s, i)
    ensures !NewsComing(w, s, i)
  {
    forall m | 0 <= m < |s.net| && IsNews(w, s.net[m]) ensures s.net[m].from != i {
      assert Followed(w, s, s.net[m].from, m);
      assert forall n :: m < n < |s.net| ==> s.net[n] in s.net;
    }
  }

  lemma NewsObserved(w: World, v: int, s: Cluster, a: Step)
    requires w.Valid() && Inv(w, v, s) && Enabled(w, s, a) && NewsFollowed(w, s)
    requires a.Deliver? ==> InOrder(s.net, a.k)
    requires Observes(w, s, a, NotComputing) && Observes(w, s, a, NoReportComing)
    ensures Observes(w, s, a, NoNewsComing)
  {
    var s' := Apply(w, s, a);
    StepFollows(w, v, s, a);
    forall i | 0 <= i < |w.ids| && Emptied(w, s, s', i) ensures !Owes(w, s', i, NoNewsComing) {
      assert !Owes(w, s', i, NotComputing) && !Owes(w, s', i, NoReportComing);
      NoNewsLeft(w, s', i);
    }
  }

  /** In a run in order the news of divisions need no care of their own. */
  lemma {:induction false} InOrderIsCareful(w: World, v: int, s: Cluster, steps: seq<Step>)
    requires w.Valid() && Inv(w, v, s) && NewsFollowed(w, s) && Legal(w, s, steps) && AllInOrder(w, s, steps)
    requires Careful(w, s, steps, IN_ORDER)
    ensures Careful(w, s, steps, ALL_CARES)
    decreases |steps|
  {
    if steps != [] {
      NewsObserved(w, v, s, steps[0]);
      StepKeepsInv(w, v, s, steps[0]);
      StepFollows(w, v, s, steps[0]);
      InOrderIsCareful(w, v, Apply(w, s, steps[0]), steps[1..]);
    }
  }

  lemma LaunchFollowed(w: World, s: Cluster, order: seq<nat>)
    requires w.Valid() && Fresh(w, s) && DealOrder(w, order)
    ensures NewsFollowed(w, Launch(w, s, order))
  {
    LaunchJobs(w, s, order);
    assert forall m :: 0 <= m < |Launch(w, s, order).net| ==> Launch(w, s, order).net[m] in Launch(w, s, order).net;
  }

  lemma InOrderFromLaunch(w: World, s: Cluster, order: seq<nat>, steps: seq<Step>)
    requires w.Valid() && Fresh(w, s) && DealOrder(w, order)
    requires Legal(w, Launch(w, s, order), steps) && AllInOrder(w, Launch(w, s, order), steps)
    requires Careful(w, Launch(w, s, order), steps, IN_ORDER)
    ensures Careful(w, Launch(w, s, order), steps, ALL_CARES)
  {
    var v := OptimumExists(w.g);
    LaunchEstablishes(w, v, s, order);
    LaunchFollowed(w, s, order);
    InOrderIsCareful(w, v, Launch(w, s, order), steps);
  }

  /**
   * Between nodes whose messages stay in order, an empty log is right as soon as no entry is emptied
   * while its node computes, has a job coming or another result to tell, and no job is taken from a
   * repeated log that is not logged any more.
   */
  lemma InOrderEmptyLogIsSafe(w: World, s: Cluster, order: seq<nat>, steps: seq<Step>)
    requires w.Valid() && Fresh(w, s) && DealOrder(w, order)
    requires Legal(w, Launch(w, s, order), steps) && AllInOrder(w, Launch(w, s, order), steps)
    requires Careful(w, Launch(w, s, order), steps, IN_ORDER)
    requires w.leader < |Final(w, Launch(w, s, order), steps).nodes|
    requires NothingLogged(TableOf(Final(w, Launch(w, s, order), steps).nodes[w.leader]))
    ensures NothingOwed(w, Final(w, Launch(w, s, order), steps), ALL_CARES)
    ensures NoWorkLeft(w, Final(w, Launch(w, s, order), steps))
    ensures Told(Final(w, Launch(w, s, order), steps), w.leader)
  {
    InOrderFromLaunch(w, s, order, steps);
    EmptyLogIsSafe(w, s, order, steps, ALL_CARES);
  }
}
