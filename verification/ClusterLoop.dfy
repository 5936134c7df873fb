/**
 * The loop of the program.  Each node goes round: its leader's or non-leader's step, a quantum,
 * then the messages that have come.  A request to divide is a message, too.
 */
module ClusterLoops {
  import opened Basics
  import opened StackAssignments
  import opened Scheduling
  import opened Computations
  import opened Clusters
  import opened ClusterRuns
  import opened ClusterAnnouncements
  import opened ClusterTermination
  import opened ClusterOrder

  /** A request to node `to`, sent after the first `behind` of the messages that are still on their way. */
  datatype Request = Request(to: nat, with: nat, behind: nat)

  /**
   * Who has computed and is handling messages; whether the leader is in the middle of checking its
   * log, and to whom it still has to send that again; the requests on their way.
   */
  datatype Loop = Loop(reading: seq<bool>, checking: bool, owed: seq<nat>, asked: seq<Request>)

  /**
   * Going round without effect; the leader's check, which may send the log again and then asks for
   * divisions; a quantum; a message or a request is handled.
   */
  datatype Act =
    | Round(i: nat)
    | Check(again: bool)
    | Repeat
    | Ask(asks: seq<Request>)
    | Compute(i: nat)
    | Handle(k: nat)
    | Comply(j: nat)

  /** All nodes below `n` but the leader. */
  function OthersBelow(n: nat, leader: nat): seq<nat> {
    if n == 0 then [] else if n - 1 == leader then OthersBelow(n - 1, leader) else OthersBelow(n - 1, leader) + [n - 1]
  }

  ghost function MovesOf(w: World, asks: seq<Request>): seq<Move>
    requires forall k :: 0 <= k < |asks| ==> asks[k].to < |w.ids| && asks[k].with < |w.ids|
  {
    seq(|asks|, k requires 0 <= k < |asks| => Move(w.ids[asks[k].to], w.ids[asks[k].with]))
  }

  /**
   * The requests are those of `CheckAssignments` when every node is connected.  None goes to the
   * leader itself: runs in which the leader divides are not described here.
   */
  ghost predicate Asks(w: World, log: Table, net: seq<Packet>, asks: seq<Request>) {
    var known := Elems(w.ids);
    && (forall k :: 0 <= k < |asks| ==>
          asks[k].to < |w.ids| && asks[k].with < |w.ids| && asks[k].to != w.leader && asks[k].behind == |net|)
    && Pairing(MovesOf(w, asks), known - Idle(log, known), Idle(log, known))
    && |asks| == Min(|known - Idle(log, known)|, |Idle(log, known)|)
  }

  /** When the program takes an act.  If messages are `ordered`, none overtakes another one between two nodes. */
  ghost predicate Allowed(w: World, s: Cluster, l: Loop, a: Act, ordered: bool) {
    && w.leader < |w.ids| == |s.nodes| == |l.reading|
    && match a
       case Round(i) => i < |w.ids| && l.reading[i]
       case Check(_) => l.reading[w.leader] && !NothingLogged(TableOf(s.nodes[w.leader]))
       case Repeat => l.owed != [] && Enabled(w, s, Resend(w.leader, l.owed[0]))
       case Ask(asks) => l.checking && l.owed == [] && Asks(w, TableOf(s.nodes[w.leader]), s.net, asks)
       case Compute(i) => i < |w.ids| && !l.reading[i] && (i == w.leader ==> !l.checking)
       case Handle(k) =>
         && Enabled(w, s, Deliver(k)) && l.reading[s.net[k].dest]
         && (ordered ==> InOrder(s.net, k) && BeforeRequests(w, s, l, k))
       case Comply(j) => j < |l.asked| && MayComply(w, s, l, j, ordered)
  }

  /** No request sent before message `k` between the same nodes is still on its way. */
  ghost predicate BeforeRequests(w: World, s: Cluster, l: Loop, k: nat)
    requires k < |s.net|
  {
    forall j :: 0 <= j < |l.asked| && s.net[k].from == w.leader && l.asked[j].to == s.net[k].dest ==> k < l.asked[j].behind
  }

  ghost predicate MayComply(w: World, s: Cluster, l: Loop, j: nat, ordered: bool)
    requires j < |l.asked|
  {
    var r := l.asked[j];
    && Enabled(w, s, Divide(r.to, r.with)) && r.to < |l.reading| && l.reading[r.to] && r.behind <= |s.net|
    && (ordered ==>
          && (forall m :: 0 <= m < r.behind ==> s.net[m].dest != r.to || s.net[m].from != w.leader)
          && (forall h :: 0 <= h < j ==> l.asked[h].to != r.to))
  }

  /** The step of the cluster, if the act takes one. */
  ghost function ClusterStep(w: World, l: Loop, a: Act): Option<Step>
    requires a.Repeat? ==> l.owed != []
    requires a.Comply? ==> a.j < |l.asked|
  {
    match a
    case Repeat => Some(Resend(w.leader, l.owed[0]))
    case Compute(i) => Some(Tick(i))
    case Handle(k) => Some(Deliver(k))
    case Comply(j) => Some(Divide(l.asked[j].to, l.asked[j].with))
    case _ => None
  }

  /** Requests behind a delivered message move up by one place. */
  ghost function Moved(asked: seq<Request>, k: nat): seq<Request> {
    seq(|asked|, j requires 0 <= j < |asked| =>
      if asked[j].behind > k then asked[j].(behind := asked[j].behind - 1) else asked[j])
  }

  ghost function Looped(w: World, l: Loop, a: Act): Loop
    requires w.leader < |l.reading|
    requires a.Round? || a.Compute? ==> a.i < |l.reading|
    requires a.Repeat? ==> l.owed != []
    requires a.Comply? ==> a.j < |l.asked|
  {
    match a
    case Round(i) => l.(reading := l.reading[i := false])
    case Check(again) =>
      l.(reading := l.reading[w.leader := false], checking := true,
         owed := if again then OthersBelow(|w.ids|, w.leader) else [])
    case Repeat => l.(owed := l.owed[1..])
    case Ask(asks) => l.(checking := false, asked := l.asked + asks)
    case Compute(i) => l.(reading := l.reading[i := true])
    case Handle(k) => l.(asked := Moved(l.asked, k))
    case Comply(j) => l.(asked := l.asked[..j] + l.asked[j + 1..])
  }

  ghost function Acted(w: World, s: Cluster, l: Loop, a: Act): Cluster
    requires Allowed(w, s, l, a, false)
  {
    var step := ClusterStep(w, l, a);
    if step.None? then s else Apply(w, s, step.value)
  }

  /** A run of the program ... */
  ghost predicate Loops(w: World, s: Cluster, l: Loop, acts: seq<Act>, ordered: bool)
    decreases |acts|
  {
    acts == [] ||
    (Allowed(w, s, l, acts[0], false) && Allowed(w, s, l, acts[0], ordered)
     && Loops(w, Acted(w, s, l, acts[0]), Looped(w, l, acts[0]), acts[1..], ordered))
  }

  /** ... and what the cluster does in it. */
  ghost function StepsIn(w: World, s: Cluster, l: Loop, acts: seq<Act>): seq<Step>
    requires Loops(w, s, l, acts, false)
    decreases |acts|
  {
    if acts == [] then []
    else
      var step := ClusterStep(w, l, acts[0]);
      (if step.None? then [] else [step.value])
      + StepsIn(w, Acted(w, s, l, acts[0]), Looped(w, l, acts[0]), acts[1..])
  }

  /** After its start the leader computes first; all others have computed and are handling messages. */
  ghost function FirstLoop(w: World): Loop
    requires w.leader < |w.ids|
  {
    Loop(seq(|w.ids|, i => i != w.leader), false, [], [])
  }

  /** A run of the program is a legal run of the cluster. */
  lemma {:induction false} LoopsAreLegal(w: World, s: Cluster, l: Loop, acts: seq<Act>)
    requires Loops(w, s, l, acts, false) && |s.nodes| == |w.ids|
    ensures Legal(w, s, StepsIn(w, s, l, acts))
    decreases |acts|
  {
    if acts != [] {
      var a, step := acts[0], ClusterStep(w, l, acts[0]);
      LoopsAreLegal(w, Acted(w, s, l, a), Looped(w, l, a), acts[1..]);
      var rest := StepsIn(w, Acted(w, s, l, a), Looped(w, l, a), acts[1..]);
      if step.Some? {
        assert ([step.value] + rest)[1..] == rest;
      } else {
        assert [] + rest == rest;
      }
    }
  }

  /** In order means the same for both. */
  lemma {:induction false} OrderedLoops(w: World, s: Cluster, l: Loop, acts: seq<Act>)
    requires Loops(w, s, l, acts, false) && Loops(w, s, l, acts, true) && |s.nodes| == |w.ids|
    requires Legal(w, s, StepsIn(w, s, l, acts))
    ensures AllInOrder(w, s, StepsIn(w, s, l, acts))
    decreases |acts|
  {
    if acts != [] {
      var a, step := acts[0], ClusterStep(w, l, acts[0]);
      var rest := StepsIn(w, Acted(w, s, l, a), Looped(w, l, a), acts[1..]);
      LoopsAreLegal(w, Acted(w, s, l, a), Looped(w, l, a), acts[1..]);
      OrderedLoops(w, Acted(w, s, l, a), Looped(w, l, a), acts[1..]);
      if step.Some? {
        assert ([step.value] + rest)[1..] == rest;
      } else {
        assert [] + rest == rest;
      }
    }
  }

  /** So for runs of the program the news of divisions need no care of their own. */
  lemma LoopEmptyLogIsSafe(w: World, s: Cluster, order: seq<nat>, acts: seq<Act>)
    requires w.Valid() && Fresh(w, s) && DealOrder(w, order)
    requires Loops(w, Launch(w, s, order), FirstLoop(w), acts, false)
    requires Loops(w, Launch(w, s, order), FirstLoop(w), acts, true)
    requires var steps := StepsIn(w, Launch(w, s, order), FirstLoop(w), acts);
             Legal(w, Launch(w, s, order), steps) && Careful(w, Launch(w, s, order), steps, IN_ORDER)
    requires var t := Final(w, Launch(w, s, order), StepsIn(w, Launch(w, s, order), FirstLoop(w), acts));
             w.leader < |t.nodes| && NothingLogged(TableOf(t.nodes[w.leader]))
    ensures var t := Final(w, Launch(w, s, order), StepsIn(w, Launch(w, s, order), FirstLoop(w), acts));
            NothingOwed(w, t, ALL_CARES) && NoWorkLeft(w, t) && Told(t, w.leader)
  {
    var s1, steps := Launch(w, s, order), StepsIn(w, Launch(w, s, order), FirstLoop(w), acts);
    OrderedLoops(w, s1, FirstLoop(w), acts);
    InOrderEmptyLogIsSafe(w, s, order, steps);
  }
}
