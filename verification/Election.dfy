/**
 * Leader election as a message protocol.  Ids are compared only by their order, so integers
 * stand for the strings of the program; the empty string is `None`.
 */
module Elections {
  import opened Basics

  type Id = int

  datatype ElectState = ElectState(leaderId: Option<Id>, leader: bool, participant: bool)

  datatype Body = Election(id: Id) | Elected(id: Id) | KnownLeader(id: Id)
  datatype Packet = Packet(src: Id, dst: Id, body: Body)

  // ---------- the successor ----------

  ghost function Least(s: set<Id>): (x: Id)
    requires s != {}
    ensures x in s && forall y :: y in s ==> x <= y
  {
    var x := Pick(s);
    SplitOff(s, x);
    if s - {x} == {} then x
    else
      var m := Least(s - {x});
      if x < m then x else m
  }

  ghost function Greatest(s: set<Id>): (x: Id)
    requires s != {}
    ensures x in s && forall y :: y in s ==> y <= x
  {
    var x := Pick(s);
    SplitOff(s, x);
    if s - {x} == {} then x
    else
      var m := Greatest(s - {x});
      if x > m then x else m
  }

  ghost function Pick<T>(s: set<T>): (x: T)
    requires s != {}
    ensures x in s
  {
    var x :| x in s;
    x
  }

  lemma SplitOff<T>(s: set<T>, x: T)
    ensures forall y :: y in s ==> y == x || y in s - {x}
  {
  }

  lemma RestNonEmpty<T>(s: set<T>, x: T)
    requires x in s && s != {x}
    ensures s - {x} != {}
  {
  }

  ghost function Larger(peers: set<Id>, x: Id): set<Id> {
    set y | y in peers && y > x
  }

  ghost function Smaller(peers: set<Id>, x: Id): set<Id> {
    set y | y in peers && y < x
  }

  /** The least larger id and, if there is none, the greatest smaller one. */
  ghost function NextId(peers: set<Id>, x: Id): Option<Id> {
    if Larger(peers, x) != {} then Some(Least(Larger(peers, x)))
    else if Smaller(peers, x) != {} then Some(Greatest(Smaller(peers, x)))
    else None
  }

  /** The successor by its place among the ids: the next one above or, if nobody is above, the greatest. */
  lemma NextIdIs(peers: set<Id>, x: Id, y: Id)
    ensures NextId(peers, x) == Some(y) <==>
            && y in peers && y != x
            && if y > x then forall z :: z in peers && z > x ==> y <= z
               else forall z :: z in peers && z != x ==> z <= y
    ensures NextId(peers, x).None? <==> peers <= {x}
  {
    var larger, smaller := Larger(peers, x), Smaller(peers, x);
    assert forall z :: z in larger <==> z in peers && z > x;
    assert forall z :: z in smaller <==> z in peers && z < x;
    if larger != {} {
      assert Least(larger) in larger;
      if y in larger && forall z :: z in larger ==> y <= z {
        LeastIs(larger, y);
      }
    } else if smaller != {} {
      assert Greatest(smaller) in smaller;
      if y in smaller && forall z :: z in smaller ==> z <= y {
        GreatestIs(smaller, y);
      }
    }
  }

  lemma GreatestIs(s: set<Id>, x: Id)
    requires x in s && forall y :: y in s ==> y <= x
    ensures Greatest(s) == x
  {
  }

  // ---------- the handlers ----------

  ghost function ToNext(me: Id, peers: set<Id>, body: Body): set<Packet> {
    var next := NextId(peers, me);
    if next.Some? then {Packet(me, next.value, body)} else {}
  }

  ghost function ElectionState(me: Id, st: ElectState, x: Id): ElectState {
    if st.leaderId.None? && x == me then ElectState(Some(me), true, false) else st
  }

  ghost function ElectionReplies(me: Id, peers: set<Id>, st: ElectState, sender: Id, x: Id): set<Packet> {
    if st.leaderId.Some? then
      if sender in peers then {Packet(me, sender, KnownLeader(st.leaderId.value))} else {}
    else if x > me then ToNext(me, peers, Election(x))
    else if x < me && !st.participant then ToNext(me, peers, Election(me))
    else if x == me then ToNext(me, peers, Elected(me))
    else {}
  }

  /** The handler of both Elected and KnownLeader. */
  ghost function LeaderState(me: Id, st: ElectState, x: Id): ElectState {
    if x == me then st else ElectState(Some(x), false, false)
  }

  ghost function TimeoutState(me: Id, peers: set<Id>, st: ElectState): ElectState {
    if st.leaderId.None? && NextId(peers, me).None? then st.(leaderId := Some(me), leader := true) else st
  }

  ghost function TimeoutSends(me: Id, peers: set<Id>, st: ElectState): set<Packet> {
    if st.leaderId.None? then ToNext(me, peers, Election(me)) else {}
  }

  /**
   * A message is answered with one message at most, sent to a connected node: by a node that knows
   * the leader, to the sender; by any other, to its successor.  Without a leader the larger of both
   * ids is passed on, and a node whose own id comes back leads and says so.
   */
  lemma RepliesAre(me: Id, peers: set<Id>, st: ElectState, sender: Id, x: Id)
    requires me !in peers
    ensures var replies := ElectionReplies(me, peers, st, sender, x);
            && |replies| <= 1
            && (forall p :: p in replies ==>
                  && p.src == me && p.dst in peers
                  && (if st.leaderId.Some? then p.dst == sender else NextId(peers, me) == Some(p.dst))
                  && p.body == if st.leaderId.Some? then KnownLeader(st.leaderId.value)
                               else if x == me then Elected(me) else Election(if x > me then x else me))
            && (replies == {} <==>
                  if st.leaderId.Some? then sender !in peers else peers == {} || (x < me && st.participant))
  {
    NextIdIs(peers, me, if NextId(peers, me).Some? then NextId(peers, me).value else me);
  }

  /** A timeout sends the node's own id to its successor, and does nothing once a leader is known. */
  lemma TimeoutIs(me: Id, peers: set<Id>, st: ElectState)
    requires me !in peers
    ensures st.leaderId.Some? ==> TimeoutSends(me, peers, st) == {} && TimeoutState(me, peers, st) == st
    ensures st.leaderId.None? && peers == {} ==>
              TimeoutSends(me, peers, st) == {} && TimeoutState(me, peers, st) == ElectState(Some(me), true, st.participant)
    ensures st.leaderId.None? && peers != {} ==>
              && TimeoutState(me, peers, st) == st
              && exists next :: next in peers && TimeoutSends(me, peers, st) == {Packet(me, next, Election(me))}
                                && NextId(peers, me) == Some(next)
  {
    NextIdIs(peers, me, if NextId(peers, me).Some? then NextId(peers, me).value else me);
  }

  // ---------- the network ----------

  /** Messages stay in `sent` for good: they may be lost, duplicated and reordered at will. */
  datatype Net = Net(nodes: map<Id, ElectState>, sent: set<Packet>)

  /** A node's timeout, the handling of a message, and the message that greets a new connection. */
  datatype Act = Timeout(i: Id) | Handle(p: Packet) | Greet(i: Id, to: Id)

  ghost predicate Enabled(ids: set<Id>, s: Net, a: Act) {
    match a
    case Timeout(i) => i in ids
    case Handle(p) => p in s.sent && p.dst in ids
    case Greet(i, to) => i in ids && to in ids && i != to && i in s.nodes && s.nodes[i].leaderId.Some?
  }

  ghost function Apply(ids: set<Id>, s: Net, a: Act): Net
    requires s.nodes.Keys == ids && Enabled(ids, s, a)
  {
    match a
    case Timeout(i) =>
      Net(s.nodes[i := TimeoutState(i, ids - {i}, s.nodes[i])], s.sent + TimeoutSends(i, ids - {i}, s.nodes[i]))
    case Greet(i, to) => s.(sent := s.sent + {Packet(i, to, KnownLeader(s.nodes[i].leaderId.value))})
    case Handle(p) =>
      var me, st := p.dst, s.nodes[p.dst];
      match p.body
      case Election(x) =>
        Net(s.nodes[me := ElectionState(me, st, x)], s.sent + ElectionReplies(me, ids - {me}, st, p.src, x))
      case Elected(x) => s.(nodes := s.nodes[me := LeaderState(me, st, x)])
      case KnownLeader(x) => s.(nodes := s.nodes[me := LeaderState(me, st, x)])
  }

  ghost predicate InitialNet(ids: set<Id>, s: Net) {
    && ids != {} && s.nodes.Keys == ids && s.sent == {}
    && forall i :: i in ids ==> s.nodes[i] == ElectState(None, false, false)
  }

  // ---------- safety ----------

  ghost predicate NodeSafe(ids: set<Id>, i: Id, st: ElectState)
    requires ids != {}
  {
    && !st.participant
    && (st.leaderId.Some? ==> st.leaderId.value == Greatest(ids))
    && (st.leader <==> st.leaderId.Some? && i == Greatest(ids))
  }

  /** Where a message may be: the greatest id's token only bounces between it and its predecessor. */
  ghost predicate PacketSafe(ids: set<Id>, s: Net, p: Packet)
    requires ids != {}
  {
    var top := Greatest(ids);
    && p.src in ids && p.dst in ids && p.src != p.dst
    && match p.body
       case Election(x) =>
         if x == top then p.dst == top || NextId(ids - {top}, top) == Some(p.dst)
         else x == p.src && x < p.dst && NextId(ids - {x}, x) == Some(p.dst)
       case Elected(x) => x == top && top in s.nodes && s.nodes[top].leaderId.Some?
       case KnownLeader(x) => x == top && top in s.nodes && s.nodes[top].leaderId.Some?
  }

  ghost predicate Safe(ids: set<Id>, s: Net) {
    && ids != {} && s.nodes.Keys == ids
    && (forall i :: i in ids ==> NodeSafe(ids, i, s.nodes[i]))
    && (forall p :: p in s.sent ==> PacketSafe(ids, s, p))
    && (forall i :: i in ids && s.nodes[i].leaderId.Some? ==> s.nodes[Greatest(ids)].leaderId.Some?)
  }

  /** A node below the greatest one has a larger successor; the greatest one's is its predecessor. */
  lemma NextFacts(ids: set<Id>, i: Id)
    requires i in ids
    ensures NextId(ids - {i}, i).Some? ==> NextId(ids - {i}, i).value in ids - {i}
    ensures i < Greatest(ids) ==> NextId(ids - {i}, i).Some? && NextId(ids - {i}, i).value > i
    ensures NextId(ids - {i}, i).None? <==> ids == {i}
    ensures i == Greatest(ids) && NextId(ids - {i}, i).Some? ==> NextId(ids - {i}, i).value < i
  {
    var peers, top := ids - {i}, Greatest(ids);
    if i < top {
      assert top in Larger(peers, i);
    }
    if ids != {i} {
      RestNonEmpty(ids, i);
      var y := Pick(peers);
      assert y in Larger(peers, i) || y in Smaller(peers, i);
    }
    if i == top {
      assert Larger(peers, i) == {};
    }
  }

  /** The predecessor of the greatest id has the greatest id as its successor. */
  lemma Bounce(ids: set<Id>, m: Id)
    requires ids != {} && NextId(ids - {Greatest(ids)}, Greatest(ids)) == Some(m)
    ensures m in ids && m < Greatest(ids) && NextId(ids - {m}, m) == Some(Greatest(ids))
  {
    var top := Greatest(ids);
    var below, above := Smaller(ids - {top}, top), Larger(ids - {m}, m);
    assert Larger(ids - {top}, top) == {};
    assert m in below;
    assert top in above;
    forall y | y in above ensures top <= y {
      assert y != top ==> y in below;
    }
    LeastIs(above, top);
  }

  lemma LeastIs(s: set<Id>, x: Id)
    requires x in s && forall y :: y in s ==> x <= y
    ensures Least(s) == x
  {
  }

  lemma GrowingSent(ids: set<Id>, s: Net, i: Id, st: ElectState, more: set<Packet>)
    requires Safe(ids, s) && i in ids && NodeSafe(ids, i, st)
    requires s.nodes[i].leaderId.Some? ==> st.leaderId.Some?
    requires st.leaderId.Some? ==> i == Greatest(ids) || s.nodes[Greatest(ids)].leaderId.Some?
    requires forall p :: p in more ==> PacketSafe(ids, Net(s.nodes[i := st], s.sent + more), p)
    ensures Safe(ids, Net(s.nodes[i := st], s.sent + more))
  {
  }

  lemma TimeoutSafe(ids: set<Id>, s: Net, i: Id)
    requires Safe(ids, s) && i in ids
    ensures Safe(ids, Apply(ids, s, Timeout(i)))
  {
    assert NodeSafe(ids, i, s.nodes[i]);
    NextFacts(ids, i);
    GrowingSent(ids, s, i, TimeoutState(i, ids - {i}, s.nodes[i]), TimeoutSends(i, ids - {i}, s.nodes[i]));
  }

  lemma ElectionSafe(ids: set<Id>, s: Net, p: Packet)
    requires Safe(ids, s) && p in s.sent && p.body.Election?
    ensures Safe(ids, Apply(ids, s, Handle(p)))
  {
    var me, st, top := p.dst, s.nodes[p.dst], Greatest(ids);
    assert PacketSafe(ids, s, p) && NodeSafe(ids, me, st);
    NextFacts(ids, me);
    if NextId(ids - {top}, top) == Some(me) {
      Bounce(ids, me);
    }
    GrowingSent(ids, s, me, ElectionState(me, st, p.body.id), ElectionReplies(me, ids - {me}, st, p.src, p.body.id));
  }

  lemma LeaderNewsSafe(ids: set<Id>, s: Net, p: Packet)
    requires Safe(ids, s) && p in s.sent && !p.body.Election?
    ensures Safe(ids, Apply(ids, s, Handle(p)))
  {
  }

  lemma StepKeepsSafe(ids: set<Id>, s: Net, a: Act)
    requires Safe(ids, s) && Enabled(ids, s, a)
    ensures Safe(ids, Apply(ids, s, a))
  {
    match a
    case Timeout(i) => TimeoutSafe(ids, s, i);
    case Handle(p) =>
      if p.body.Election? {
        ElectionSafe(ids, s, p);
      } else {
        LeaderNewsSafe(ids, s, p);
      }
    case Greet(i, to) =>
      assert NodeSafe(ids, i, s.nodes[i]);
      assert s.nodes[i := s.nodes[i]] == s.nodes;
      GrowingSent(ids, s, i, s.nodes[i], {Packet(i, to, KnownLeader(s.nodes[i].leaderId.value))});
  }

  // ---------- runs ----------

  ghost predicate Legal(ids: set<Id>, s: Net, acts: seq<Act>)
    decreases |acts|
  {
    s.nodes.Keys == ids &&
    (acts == [] || (Enabled(ids, s, acts[0]) && Legal(ids, Apply(ids, s, acts[0]), acts[1..])))
  }

  ghost function Run(ids: set<Id>, s: Net, acts: seq<Act>): Net
    requires Legal(ids, s, acts)
    decreases |acts|
  {
    if acts == [] then s else Run(ids, Apply(ids, s, acts[0]), acts[1..])
  }

  lemma {:induction false} RunKeepsSafe(ids: set<Id>, s: Net, acts: seq<Act>)
    requires Safe(ids, s) && Legal(ids, s, acts)
    ensures Safe(ids, Run(ids, s, acts))
    decreases |acts|
  {
    if acts != [] {
      StepKeepsSafe(ids, s, acts[0]);
      RunKeepsSafe(ids, Apply(ids, s, acts[0]), acts[1..]);
    }
  }

  /**
   * Safety, in every reachable state: only the greatest id ever leads, every known leader is the
   * greatest id, and so is every leader announced by a message on its way.  A token of any other
   * node is only ever on its way to that node's successor, a larger id.
   */
  lemma OnlyTheGreatestLeads(ids: set<Id>, s: Net, acts: seq<Act>)
    requires InitialNet(ids, s) && Legal(ids, s, acts)
    ensures var t := Run(ids, s, acts);
            && Safe(ids, t)
            && (forall i :: i in ids && t.nodes[i].leader ==> i == Greatest(ids))
            && (forall i :: i in ids && t.nodes[i].leaderId.Some? ==> t.nodes[i].leaderId.value == Greatest(ids))
            && (forall p :: p in t.sent && !p.body.Election? ==> p.body.id == Greatest(ids))
            && (forall p :: p in t.sent && p.body.Election? && p.body.id != Greatest(ids) ==>
                  p.body.id < p.dst && NextId(ids - {p.body.id}, p.body.id) == Some(p.dst))
  {
    RunKeepsSafe(ids, s, acts);
    var t := Run(ids, s, acts);
    forall i | i in ids
      ensures t.nodes[i].leader ==> i == Greatest(ids)
      ensures t.nodes[i].leaderId.Some? ==> t.nodes[i].leaderId.value == Greatest(ids)
    {
      assert NodeSafe(ids, i, t.nodes[i]);
    }
    forall p | p in t.sent
      ensures !p.body.Election? ==> p.body.id == Greatest(ids)
      ensures p.body.Election? && p.body.id != Greatest(ids) ==>
                p.body.id < p.dst && NextId(ids - {p.body.id}, p.body.id) == Some(p.dst)
    {
      assert PacketSafe(ids, t, p);
    }
  }

  // ---------- progress ----------

  ghost function Leaderless(s: Net): set<Id> {
    set i | i in s.nodes && s.nodes[i].leaderId.None?
  }

  /** Everybody knows the greatest id as the leader, and it knows that it leads. */
  ghost predicate Agreed(ids: set<Id>, s: Net)
    requires ids != {}
  {
    && s.nodes.Keys == ids
    && (forall i :: i in ids ==> s.nodes[i].leaderId == Some(Greatest(ids)))
    && (forall i :: i in ids ==> (s.nodes[i].leader <==> i == Greatest(ids)))
  }

  lemma {:induction false} RunConcat(ids: set<Id>, s: Net, a: seq<Act>, b: seq<Act>)
    requires Legal(ids, s, a) && Legal(ids, Run(ids, s, a), b)
    ensures Legal(ids, s, a + b) && Run(ids, s, a + b) == Run(ids, Run(ids, s, a), b)
    decreases |a|
  {
    if a == [] {
      assert a + b == b;
    } else {
      RunConcat(ids, Apply(ids, s, a[0]), a[1..], b);
      assert (a + b)[0] == a[0] && (a + b)[1..] == a[1..] + b;
    }
  }

  lemma ThreeSteps(ids: set<Id>, s: Net, a: Act, b: Act, c: Act)
    requires s.nodes.Keys == ids && Enabled(ids, s, a) && Apply(ids, s, a).nodes.Keys == ids
    requires var s1 := Apply(ids, s, a);
             Enabled(ids, s1, b) && Apply(ids, s1, b).nodes.Keys == ids && Enabled(ids, Apply(ids, s1, b), c)
    requires Apply(ids, Apply(ids, Apply(ids, s, a), b), c).nodes.Keys == ids
    ensures Legal(ids, s, [a, b, c])
    ensures Run(ids, s, [a, b, c]) == Apply(ids, Apply(ids, Apply(ids, s, a), b), c)
  {
    var s1 := Apply(ids, s, a);
    var s2 := Apply(ids, s1, b);
    assert [a, b, c][1..] == [b, c] && [b, c][1..] == [c] && [c][1..] == [];
    assert Legal(ids, s2, [c]) && Legal(ids, s1, [b, c]);
    assert Run(ids, s2, [c]) == Run(ids, Apply(ids, s2, c), []);
    assert Run(ids, s1, [b, c]) == Run(ids, s2, [c]);
  }

  /** The greatest id's token comes back from its predecessor. */
  lemma GreatestElectsItself(ids: set<Id>, s: Net) returns (acts: seq<Act>)
    requires Safe(ids, s) && Greatest(ids) in Leaderless(s) && ids != {Greatest(ids)}
    ensures |acts| == 3 && Legal(ids, s, acts)
    ensures Leaderless(Run(ids, s, acts)) == Leaderless(s) - {Greatest(ids)}
  {
    var top := Greatest(ids);
    NextFacts(ids, top);
    var pred := NextId(ids - {top}, top).value;
    Bounce(ids, pred);
    var a, b, c := Timeout(top), Handle(Packet(top, pred, Election(top))), Handle(Packet(pred, top, Election(top)));
    var s1 := Apply(ids, s, a);
    assert s1.nodes == s.nodes;
    assert s.nodes[pred].leaderId.None?;
    var s2 := Apply(ids, s1, b);
    assert s2.nodes == s.nodes;
    var s3 := Apply(ids, s2, c);
    assert s3.nodes == s.nodes[top := ElectState(Some(top), true, false)];
    ThreeSteps(ids, s, a, b, c);
    acts := [a, b, c];
  }

  /** The greatest node without a leader asks its successor, which knows. */
  lemma NextOneLearns(ids: set<Id>, s: Net, m: Id) returns (acts: seq<Act>)
    requires Safe(ids, s) && m in Leaderless(s) && m < Greatest(ids)
    requires forall i :: i in Leaderless(s) ==> i <= m
    ensures |acts| == 3 && Legal(ids, s, acts)
    ensures Leaderless(Run(ids, s, acts)) == Leaderless(s) - {m}
  {
    var top := Greatest(ids);
    NextFacts(ids, m);
    var next := NextId(ids - {m}, m).value;
    assert next !in Leaderless(s);
    assert NodeSafe(ids, next, s.nodes[next]);
    var a, b, c := Timeout(m), Handle(Packet(m, next, Election(m))), Handle(Packet(next, m, KnownLeader(top)));
    var s1 := Apply(ids, s, a);
    assert s1.nodes == s.nodes;
    var s2 := Apply(ids, s1, b);
    assert s2.nodes == s.nodes;
    var s3 := Apply(ids, s2, c);
    assert s3.nodes == s.nodes[m := ElectState(Some(top), false, false)];
    ThreeSteps(ids, s, a, b, c);
    acts := [a, b, c];
  }

  lemma LonelyLeader(ids: set<Id>, s: Net) returns (acts: seq<Act>)
    requires Safe(ids, s) && Greatest(ids) in Leaderless(s) && ids == {Greatest(ids)}
    ensures |acts| <= 3 && Legal(ids, s, acts)
    ensures Leaderless(Run(ids, s, acts)) == Leaderless(s) - {Greatest(ids)}
  {
    var top := Greatest(ids);
    NextFacts(ids, top);
    acts := [Timeout(top)];
    var s1 := Apply(ids, s, Timeout(top));
    assert s1.nodes == s.nodes[top := s1.nodes[top]];
    assert acts[1..] == [];
    assert Legal(ids, s1, []);
    assert Run(ids, s, acts) == Run(ids, s1, []) == s1;
  }

  lemma NobodyLeaderless(ids: set<Id>, s: Net)
    requires Safe(ids, s) && Leaderless(s) == {}
    ensures Agreed(ids, s)
  {
    forall i | i in ids
      ensures s.nodes[i].leaderId == Some(Greatest(ids)) && (s.nodes[i].leader <==> i == Greatest(ids))
    {
      assert NodeSafe(ids, i, s.nodes[i]);
      assert i !in Leaderless(s);
    }
  }

  /** Progress: from every safe state at most three steps per node without a leader lead to agreement. */
  lemma {:induction false} AgreementWithin(ids: set<Id>, s: Net) returns (acts: seq<Act>)
    requires Safe(ids, s)
    ensures |acts| <= 3 * |Leaderless(s)| && Legal(ids, s, acts) && Agreed(ids, Run(ids, s, acts))
    decreases |Leaderless(s)|
  {
    if Leaderless(s) == {} {
      NobodyLeaderless(ids, s);
      acts := [];
    } else {
      var m := Greatest(Leaderless(s));
      var first;
      if m < Greatest(ids) {
        first := NextOneLearns(ids, s, m);
      } else if ids == {m} {
        first := LonelyLeader(ids, s);
      } else {
        first := GreatestElectsItself(ids, s);
      }
      RunKeepsSafe(ids, s, first);
      var rest := AgreementWithin(ids, Run(ids, s, first));
      RunConcat(ids, s, first, rest);
      acts := first + rest;
    }
  }

  /** In particular every reachable state is at most 3n steps away from agreement. */
  lemma ElectionProgress(ids: set<Id>, s: Net, past: seq<Act>) returns (acts: seq<Act>)
    requires InitialNet(ids, s) && Legal(ids, s, past)
    ensures |acts| <= 3 * |ids| && Legal(ids, s, past + acts) && Agreed(ids, Run(ids, s, past + acts))
  {
    RunKeepsSafe(ids, s, past);
    var t := Run(ids, s, past);
    SubsetSize(Leaderless(t), ids);
    acts := AgreementWithin(ids, t);
    RunConcat(ids, s, past, acts);
  }

  /** A greeted node that does not know the leader yet learns it, and nobody forgets it. */
  lemma GreetedLearns(ids: set<Id>, s: Net, i: Id, to: Id) returns (p: Packet)
    requires Safe(ids, s) && Enabled(ids, s, Greet(i, to))
    ensures Enabled(ids, Apply(ids, s, Greet(i, to)), Handle(p)) && p.src == i && p.dst == to
    ensures Leaderless(Apply(ids, Apply(ids, s, Greet(i, to)), Handle(p))) == Leaderless(s) - {to}
    ensures Safe(ids, Apply(ids, Apply(ids, s, Greet(i, to)), Handle(p)))
  {
    var s1 := Apply(ids, s, Greet(i, to));
    p := Packet(i, to, KnownLeader(s.nodes[i].leaderId.value));
    assert NodeSafe(ids, i, s.nodes[i]) && NodeSafe(ids, to, s.nodes[to]);
    StepKeepsSafe(ids, s, Greet(i, to));
    StepKeepsSafe(ids, s1, Handle(p));
    assert s1.nodes == s.nodes;
    assert Apply(ids, s1, Handle(p)).nodes == s.nodes[to := LeaderState(to, s.nodes[to], p.body.id)];
  }

  // ---------- one timeout is enough for a leader ----------

  /** The greatest id leads, its predecessor has been told, and nobody else has. */
  ghost predicate FirstToKnow(ids: set<Id>, s: Net)
    requires ids != {}
  {
    var top := Greatest(ids);
    var pred := NextId(ids - {top}, top);
    && pred.Some? && {top, pred.value} <= s.nodes.Keys == ids
    && s.nodes[top] == ElectState(Some(top), true, false)
    && s.nodes[pred.value] == ElectState(Some(top), false, false)
    && Leaderless(s) == ids - {top, pred.value}
  }

  /** Everybody is without a leader and the token of `x` is on its way. */
  ghost predicate TokenOut(ids: set<Id>, s: Net, x: Id) {
    && Safe(ids, s) && Leaderless(s) == ids && x in ids
    && NextId(ids - {x}, x).Some? && Packet(x, NextId(ids - {x}, x).value, Election(x)) in s.sent
  }

  /** The greatest id's token comes back, and its predecessor hears of that first. */
  lemma TopIsElected(ids: set<Id>, s: Net) returns (acts: seq<Act>)
    requires ids != {} && TokenOut(ids, s, Greatest(ids))
    ensures |acts| == 3 && Legal(ids, s, acts) && FirstToKnow(ids, Run(ids, s, acts))
    ensures forall a :: a in acts ==> a.Handle?
  {
    var top := Greatest(ids);
    NextFacts(ids, top);
    var pred := NextId(ids - {top}, top).value;
    Bounce(ids, pred);
    assert NodeSafe(ids, top, s.nodes[top]) && NodeSafe(ids, pred, s.nodes[pred]);
    assert top in Leaderless(s) && pred in Leaderless(s);
    var a, b, c := Handle(Packet(top, pred, Election(top))), Handle(Packet(pred, top, Election(top))),
                   Handle(Packet(top, pred, Elected(top)));
    var s1 := Apply(ids, s, a);
    assert s1.nodes == s.nodes;
    var s2 := Apply(ids, s1, b);
    assert s2.nodes == s.nodes[top := ElectState(Some(top), true, false)];
    var s3 := Apply(ids, s2, c);
    assert s3.nodes == s2.nodes[pred := ElectState(Some(top), false, false)];
    ThreeSteps(ids, s, a, b, c);
    acts := [a, b, c];
  }

  /** A larger node that knows no leader puts its own token in the place of a smaller one. */
  lemma TokenClimbs(ids: set<Id>, s: Net, x: Id) returns (a: Act, next: Id)
    requires TokenOut(ids, s, x) && x < Greatest(ids)
    ensures a.Handle? && Enabled(ids, s, a) && TokenOut(ids, Apply(ids, s, a), next)
    ensures Larger(ids, x) == Larger(ids, next) + {next} && next in Larger(ids, x)
  {
    NextFacts(ids, x);
    next := NextId(ids - {x}, x).value;
    NextFacts(ids, next);
    NextIdIs(ids - {x}, x, next);
    forall z | z in Larger(ids, x) ensures z in Larger(ids, next) + {next} {
      assert z in ids - {x} && z > x;
    }
    a := Handle(Packet(x, next, Election(x)));
    assert NodeSafe(ids, next, s.nodes[next]) && next in Leaderless(s);
    StepKeepsSafe(ids, s, a);
    assert Apply(ids, s, a).nodes == s.nodes;
  }

  lemma {:induction false} TokenReachesTop(ids: set<Id>, s: Net, x: Id) returns (acts: seq<Act>)
    requires TokenOut(ids, s, x)
    ensures |acts| == |Larger(ids, x)| + 3 && Legal(ids, s, acts) && FirstToKnow(ids, Run(ids, s, acts))
    ensures forall a :: a in acts ==> a.Handle?
    decreases |Larger(ids, x)|
  {
    if x == Greatest(ids) {
      assert Larger(ids, x) == {};
      acts := TopIsElected(ids, s);
    } else {
      var a, next := TokenClimbs(ids, s, x);
      var rest := TokenReachesTop(ids, Apply(ids, s, a), next);
      acts := [a] + rest;
      assert acts[1..] == rest;
    }
  }

  /**
   * From the start a single timeout, of any node, is enough: messages alone, one for each larger id
   * and three more, then make the greatest id the leader and tell its predecessor.
   */
  lemma OneTimeoutElects(ids: set<Id>, s: Net, i: Id) returns (acts: seq<Act>)
    requires InitialNet(ids, s) && i in ids && ids != {i}
    ensures forall a :: a in acts ==> a.Handle?
    ensures |acts| == |Larger(ids, i)| + 3
    ensures Legal(ids, s, [Timeout(i)] + acts) && FirstToKnow(ids, Run(ids, s, [Timeout(i)] + acts))
  {
    NextFacts(ids, i);
    var t := Apply(ids, s, Timeout(i));
    TimeoutSafe(ids, s, i);
    assert t.nodes == s.nodes;
    acts := TokenReachesTop(ids, t, i);
    assert ([Timeout(i)] + acts)[1..] == acts;
  }

  /** Once reached, agreement is never given up ... */
  lemma AgreementIsStable(ids: set<Id>, s: Net, a: Act)
    requires Safe(ids, s) && Agreed(ids, s) && Enabled(ids, s, a)
    ensures Agreed(ids, Apply(ids, s, a))
  {
    if a.Handle? {
      assert PacketSafe(ids, s, a.p);
    }
    var s' := Apply(ids, s, a);
    forall i | i in ids ensures s'.nodes[i] == s.nodes[i] {
      assert NodeSafe(ids, i, s.nodes[i]);
    }
  }

  /** ... and nobody's timeout does anything any more. */
  lemma AgreementIsQuiet(ids: set<Id>, s: Net, i: Id)
    requires Safe(ids, s) && Agreed(ids, s) && i in ids
    ensures Apply(ids, s, Timeout(i)) == s
  {
    TimeoutIs(i, ids - {i}, s.nodes[i]);
    assert s.nodes[i := s.nodes[i]] == s.nodes;
  }
}
