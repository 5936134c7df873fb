/** Two nodes may connect to each other at the same time; which of the connections stays. */
module Connections {
  import opened Basics
  import opened Elections

  /** A connection that `client` opened to `server`; each side holds one end of it. */
  datatype Conn = Conn(client: Id, server: Id)

  datatype End = End(conn: Conn, isClient: bool) {
    function Owner(): Id {
      if isClient then conn.client else conn.server
    }

    function Peer(): Id {
      if isClient then conn.server else conn.client
    }
  }

  type Connected = map<Id, End>

  // ---------- the handlers ----------

  /** Whether `AddOrDiscardClient` accepts the end; an entry yields only to the larger initiator. */
  predicate Accepts(me: Id, table: Connected, e: End) {
    e.Peer() != me && (e.Peer() !in table || ((e.Peer() < me) == e.isClient))
  }

  function Added(me: Id, table: Connected, e: End): Connected {
    if Accepts(me, table, e) then table[e.Peer() := e] else table
  }

  /** `DiscardClient` removes the entry only if it is this very end. */
  function Discarded(table: Connected, e: End): Connected {
    if e.Peer() in table && table[e.Peer()] == e then table - {e.Peer()} else table
  }

  /** Each entry is filed under the node at the other end. */
  ghost predicate Filed(table: Connected) {
    forall p :: p in table ==> table[p].Peer() == p
  }

  /** Exactly this end goes: it is in no entry any more, and every other entry stays. */
  lemma DiscardedIs(table: Connected, e: End)
    requires Filed(table)
    ensures forall p :: p in Discarded(table, e) <==> p in table && table[p] != e
    ensures forall p :: p in Discarded(table, e) ==> Discarded(table, e)[p] == table[p]
  {
  }

  // ---------- all nodes and all connections ----------

  /** The tables of all nodes, the ends whose handshake is complete, the connections closed by someone. */
  datatype Links = Links(tables: map<Id, Connected>, complete: set<End>, closed: set<Conn>)

  datatype Event = Complete(e: End) | Teardown(e: End)

  /** `conns` are the connections that are ever opened: at most one per ordered pair of nodes. */
  ghost predicate Enabled(conns: set<Conn>, s: Links, a: Event) {
    match a
    case Complete(e) => e.conn in conns && e !in s.complete
    case Teardown(e) => e.conn in s.closed && e in s.complete
  }

  ghost predicate Endpoints(ids: set<Id>, conns: set<Conn>) {
    forall c :: c in conns ==> c.client in ids && c.server in ids
  }

  /** An end that is not accepted is closed at once. */
  ghost function Apply(s: Links, a: Event): Links
    requires a.e.Owner() in s.tables
  {
    var me := a.e.Owner();
    match a
    case Complete(e) =>
      Links(s.tables[me := Added(me, s.tables[me], e)], s.complete + {e},
            if Accepts(me, s.tables[me], e) then s.closed else s.closed + {e.conn})
    case Teardown(e) => s.(tables := s.tables[me := Discarded(s.tables[me], e)])
  }

  /** The connection of the larger initiator. */
  predicate Wins(c: Conn) {
    c.client > c.server
  }

  function Opposite(c: Conn): Conn {
    Conn(c.server, c.client)
  }

  ghost predicate EntryOk(conns: set<Conn>, s: Links, n: Id, p: Id, e: End) {
    e.conn in conns && e.Owner() == n && e.Peer() == p && p != n && e in s.complete
  }

  /** The entry that an end of an open connection left in its owner's table. */
  ghost predicate Represented(s: Links, e: End)
    requires e.Owner() in s.tables
  {
    && e.Peer() in s.tables[e.Owner()]
    && (s.tables[e.Owner()][e.Peer()] == e || (!Wins(e.conn) && Wins(s.tables[e.Owner()][e.Peer()].conn)))
  }

  ghost predicate Inv(ids: set<Id>, conns: set<Conn>, s: Links) {
    && s.tables.Keys == ids && Endpoints(ids, conns)
    && (forall n, p :: n in ids && p in s.tables[n] ==> EntryOk(conns, s, n, p, s.tables[n][p]))
    && (forall c :: c in s.closed ==> c in conns && !Wins(c) && (c.client != c.server ==> Opposite(c) in conns))
    && (forall e :: e in s.complete ==> e.conn in conns)
    && (forall e :: e in s.complete && e.conn !in s.closed ==> Represented(s, e))
  }

  ghost predicate NoLinks(ids: set<Id>, conns: set<Conn>, s: Links) {
    && Endpoints(ids, conns) && s.tables.Keys == ids && s.complete == {} && s.closed == {}
    && forall n :: n in ids ==> s.tables[n] == map[]
  }

  lemma CompleteKeepsEntries(ids: set<Id>, conns: set<Conn>, s: Links, e: End)
    requires Inv(ids, conns, s) && Enabled(conns, s, Complete(e))
    ensures var s' := Apply(s, Complete(e));
            forall n, q :: n in ids && q in s'.tables[n] ==> EntryOk(conns, s', n, q, s'.tables[n][q])
  {
    var s', me, p := Apply(s, Complete(e)), e.Owner(), e.Peer();
    if p in s.tables[me] {
      assert EntryOk(conns, s, me, p, s.tables[me][p]);
    }
    forall n, q | n in ids && q in s'.tables[n]
      ensures EntryOk(conns, s', n, q, s'.tables[n][q])
    {
      if !(n == me && q == p) {
        assert EntryOk(conns, s, n, q, s.tables[n][q]);
      }
    }
  }

  lemma CompleteKeeps(ids: set<Id>, conns: set<Conn>, s: Links, e: End)
    requires Inv(ids, conns, s) && Enabled(conns, s, Complete(e))
    ensures Inv(ids, conns, Apply(s, Complete(e)))
  {
    var s' := Apply(s, Complete(e));
    CompleteKeepsEntries(ids, conns, s, e);
    forall f | f in s'.complete && f.conn !in s'.closed
      ensures Represented(s', f)
    {
      if f != e {
        assert Represented(s, f);
      }
    }
  }

  lemma TeardownKeeps(ids: set<Id>, conns: set<Conn>, s: Links, e: End)
    requires Inv(ids, conns, s) && Enabled(conns, s, Teardown(e))
    ensures Inv(ids, conns, Apply(s, Teardown(e)))
  {
    var s' := Apply(s, Teardown(e));
    forall n, q | n in ids && q in s'.tables[n]
      ensures EntryOk(conns, s', n, q, s'.tables[n][q])
    {
      assert EntryOk(conns, s, n, q, s.tables[n][q]);
    }
    forall f | f in s'.complete && f.conn !in s'.closed
      ensures Represented(s', f)
    {
      assert Represented(s, f);
    }
  }

  lemma StepKeepsInv(ids: set<Id>, conns: set<Conn>, s: Links, a: Event)
    requires Inv(ids, conns, s) && Enabled(conns, s, a)
    ensures Inv(ids, conns, Apply(s, a))
  {
    match a
    case Complete(e) => CompleteKeeps(ids, conns, s, e);
    case Teardown(e) => TeardownKeeps(ids, conns, s, e);
  }

  ghost predicate Legal(conns: set<Conn>, s: Links, events: seq<Event>)
    decreases |events|
  {
    events == [] ||
    (Enabled(conns, s, events[0]) && events[0].e.Owner() in s.tables && Legal(conns, Apply(s, events[0]), events[1..]))
  }

  ghost function Run(conns: set<Conn>, s: Links, events: seq<Event>): Links
    requires Legal(conns, s, events)
    decreases |events|
  {
    if events == [] then s else Run(conns, Apply(s, events[0]), events[1..])
  }

  lemma {:induction false} RunKeepsInv(ids: set<Id>, conns: set<Conn>, s: Links, events: seq<Event>)
    requires Inv(ids, conns, s) && Legal(conns, s, events)
    ensures Inv(ids, conns, Run(conns, s, events))
    ensures s.complete <= Run(conns, s, events).complete
    decreases |events|
  {
    if events != [] {
      StepKeepsInv(ids, conns, s, events[0]);
      RunKeepsInv(ids, conns, Apply(s, events[0]), events[1..]);
    }
  }

  /**
   * Convergence.  Once both ends of the connection opened by the larger id have completed their
   * handshake, both nodes use it, and they still do after any further completions and teardowns.
   */
  lemma LargerInitiatorStays(ids: set<Id>, conns: set<Conn>, s: Links, past: seq<Event>, future: seq<Event>, c: Conn)
    requires NoLinks(ids, conns, s) && Legal(conns, s, past) && Legal(conns, Run(conns, s, past), future)
    requires Wins(c) && {End(c, true), End(c, false)} <= Run(conns, s, past).complete
    ensures var t := Run(conns, Run(conns, s, past), future);
            && c.client in t.tables && c.server in t.tables
            && c.server in t.tables[c.client] && t.tables[c.client][c.server] == End(c, true)
            && c.client in t.tables[c.server] && t.tables[c.server][c.client] == End(c, false)
  {
    RunKeepsInv(ids, conns, s, past);
    RunKeepsInv(ids, conns, Run(conns, s, past), future);
    var t := Run(conns, Run(conns, s, past), future);
    assert End(c, true) in t.complete && End(c, false) in t.complete;
    assert Represented(t, End(c, true)) && Represented(t, End(c, false));
  }

  /** Every handshake on an open connection is complete and closed connections are torn down. */
  ghost predicate Settled(ids: set<Id>, conns: set<Conn>, s: Links)
    requires s.tables.Keys == ids
  {
    && (forall c :: c in conns && c !in s.closed ==> End(c, true) in s.complete && End(c, false) in s.complete)
    && (forall n, p :: n in ids && p in s.tables[n] ==> s.tables[n][p].conn !in s.closed)
  }

  /** The connection between two nodes that survives: the larger one's if there is one. */
  ghost function Survivor(conns: set<Conn>, a: Id, b: Id): Option<Conn> {
    var win, lose := if a > b then Conn(a, b) else Conn(b, a), if a > b then Conn(b, a) else Conn(a, b);
    if win in conns then Some(win) else if lose in conns then Some(lose) else None
  }

  ghost function Uses(s: Links, a: Id, b: Id): Option<Conn>
    requires a in s.tables
  {
    if b in s.tables[a] then Some(s.tables[a][b].conn) else None
  }

  /** An entry for a peer is one of the two connections between the nodes. */
  lemma EntryBetween(ids: set<Id>, conns: set<Conn>, s: Links, a: Id, b: Id)
    requires Inv(ids, conns, s) && a in ids && b in s.tables[a]
    ensures s.tables[a][b].conn in conns && s.tables[a][b].conn in {Conn(a, b), Conn(b, a)}
  {
    assert EntryOk(conns, s, a, b, s.tables[a][b]);
  }

  lemma OpenIsUsed(ids: set<Id>, conns: set<Conn>, s: Links, a: Id, b: Id, c: Conn)
    requires Inv(ids, conns, s) && Settled(ids, conns, s) && a in ids && a != b
    requires c in conns && c in {Conn(a, b), Conn(b, a)} && c !in s.closed
    ensures b in s.tables[a] && (s.tables[a][b].conn == c || (!Wins(c) && Wins(s.tables[a][b].conn)))
  {
    var e := End(c, c.client == a);
    assert e in s.complete;
    assert Represented(s, e);
  }

  lemma ClosedLoses(ids: set<Id>, conns: set<Conn>, s: Links, c: Conn)
    requires Inv(ids, conns, s) && c.client != c.server && c in s.closed
    ensures !Wins(c) && Opposite(c) in conns
  {
  }

  lemma UsesSurvivor(ids: set<Id>, conns: set<Conn>, s: Links, a: Id, b: Id)
    requires Inv(ids, conns, s) && Settled(ids, conns, s) && a in ids && a != b
    ensures Uses(s, a, b) == Survivor(conns, a, b)
  {
    var win, lose := if a > b then Conn(a, b) else Conn(b, a), if a > b then Conn(b, a) else Conn(a, b);
    var used := b in s.tables[a];
    if used {
      EntryBetween(ids, conns, s, a, b);
    }
    if win in conns {
      if win in s.closed {
        ClosedLoses(ids, conns, s, win);
      }
      OpenIsUsed(ids, conns, s, a, b, win);
      assert s.tables[a][b].conn == win;
    } else if lose in conns {
      if lose in s.closed {
        ClosedLoses(ids, conns, s, lose);
      }
      OpenIsUsed(ids, conns, s, a, b, lose);
      assert s.tables[a][b].conn == lose;
    } else {
      assert !used;
    }
  }

  /** When everything has settled, two nodes always use the same connection, if any was opened. */
  lemma BothEndsAgree(ids: set<Id>, conns: set<Conn>, s: Links, events: seq<Event>, a: Id, b: Id)
    requires NoLinks(ids, conns, s) && Legal(conns, s, events)
    requires Run(conns, s, events).tables.Keys == ids && Settled(ids, conns, Run(conns, s, events))
    requires a in ids && b in ids && a != b
    ensures var t := Run(conns, s, events);
            Uses(t, a, b) == Uses(t, b, a) == Survivor(conns, a, b)
  {
    RunKeepsInv(ids, conns, s, events);
    UsesSurvivor(ids, conns, Run(conns, s, events), a, b);
    UsesSurvivor(ids, conns, Run(conns, s, events), b, a);
  }

  // ---------- settling ----------

  /** The ends whose handshake is still open, on connections that nobody has closed. */
  ghost function OpenEnds(conns: set<Conn>, s: Links): set<End> {
    (set c | c in conns && c !in s.closed && End(c, true) !in s.complete :: End(c, true))
    + (set c | c in conns && c !in s.closed && End(c, false) !in s.complete :: End(c, false))
  }

  /** The entries of closed connections. */
  ghost function StaleEnds(s: Links): set<End> {
    set n, p | n in s.tables && p in s.tables[n] && s.tables[n][p].conn in s.closed :: s.tables[n][p]
  }

  lemma NothingOpen(ids: set<Id>, conns: set<Conn>, s: Links)
    requires s.tables.Keys == ids && OpenEnds(conns, s) == {} && StaleEnds(s) == {}
    ensures Settled(ids, conns, s)
  {
    forall c | c in conns && c !in s.closed
      ensures End(c, true) in s.complete && End(c, false) in s.complete
    {
      assert End(c, true) !in OpenEnds(conns, s) && End(c, false) !in OpenEnds(conns, s);
    }
    forall n, p | n in ids && p in s.tables[n]
      ensures s.tables[n][p].conn !in s.closed
    {
      assert s.tables[n][p] !in StaleEnds(s);
    }
  }

  lemma CompletingShrinks(ids: set<Id>, conns: set<Conn>, s: Links, e: End)
    requires Inv(ids, conns, s) && e in OpenEnds(conns, s)
    ensures Enabled(conns, s, Complete(e)) && e.Owner() in s.tables
    ensures OpenEnds(conns, Apply(s, Complete(e))) <= OpenEnds(conns, s) - {e}
    ensures StaleEnds(Apply(s, Complete(e))) <= StaleEnds(s) + {End(e.conn, !e.isClient)}
  {
    var s' := Apply(s, Complete(e));
    forall n, p | n in s'.tables && p in s'.tables[n] && s'.tables[n][p].conn in s'.closed
      ensures s'.tables[n][p] in StaleEnds(s) + {End(e.conn, !e.isClient)}
    {
      var f := s'.tables[n][p];
      if f != e {
        assert EntryOk(conns, s, n, p, f);
        assert f.conn in s.closed ==> f in StaleEnds(s);
        assert f.conn == e.conn ==> f == End(e.conn, !e.isClient);
      }
    }
  }

  lemma TearingDownShrinks(ids: set<Id>, conns: set<Conn>, s: Links, e: End)
    requires Inv(ids, conns, s) && e in StaleEnds(s)
    ensures Enabled(conns, s, Teardown(e)) && e.Owner() in s.tables
    ensures OpenEnds(conns, Apply(s, Teardown(e))) == OpenEnds(conns, s)
    ensures StaleEnds(Apply(s, Teardown(e))) <= StaleEnds(s) - {e}
  {
    var n, p :| n in s.tables && p in s.tables[n] && s.tables[n][p].conn in s.closed && s.tables[n][p] == e;
    assert EntryOk(conns, s, n, p, e);
    var s' := Apply(s, Teardown(e));
    forall m, q | m in s'.tables && q in s'.tables[m]
      ensures q in s.tables[m] && s'.tables[m][q] == s.tables[m][q] != e
    {
      assert EntryOk(conns, s, m, q, s.tables[m][q]);
    }
  }

  /** What is left to do: a completion closes at most one connection whose other end is in a table. */
  ghost function Unsettled(conns: set<Conn>, s: Links): nat {
    2 * |OpenEnds(conns, s)| + |StaleEnds(s)|
  }

  lemma SettlingStep(ids: set<Id>, conns: set<Conn>, s: Links) returns (a: Event)
    requires Inv(ids, conns, s) && (OpenEnds(conns, s) != {} || StaleEnds(s) != {})
    ensures Enabled(conns, s, a) && a.e.Owner() in s.tables
    ensures Inv(ids, conns, Apply(s, a)) && Unsettled(conns, Apply(s, a)) < Unsettled(conns, s)
  {
    if OpenEnds(conns, s) != {} {
      var e := Pick(OpenEnds(conns, s));
      a := Complete(e);
      CompletingShrinks(ids, conns, s, e);
      SubsetSize(OpenEnds(conns, Apply(s, a)), OpenEnds(conns, s) - {e});
      SubsetSize(StaleEnds(Apply(s, a)), StaleEnds(s) + {End(e.conn, !e.isClient)});
    } else {
      var e := Pick(StaleEnds(s));
      a := Teardown(e);
      TearingDownShrinks(ids, conns, s, e);
      SubsetSize(StaleEnds(Apply(s, a)), StaleEnds(s) - {e});
    }
    StepKeepsInv(ids, conns, s, a);
  }

  /**
   * From every state that the invariant allows, completing the open handshakes and then cleaning up
   * the entries of closed connections settles everything.
   */
  lemma {:induction false} SettlesIn(ids: set<Id>, conns: set<Conn>, s: Links) returns (events: seq<Event>)
    requires Inv(ids, conns, s)
    ensures Legal(conns, s, events) && |events| <= Unsettled(conns, s)
    ensures Inv(ids, conns, Run(conns, s, events)) && Settled(ids, conns, Run(conns, s, events))
    decreases Unsettled(conns, s)
  {
    if OpenEnds(conns, s) == {} && StaleEnds(s) == {} {
      NothingOpen(ids, conns, s);
      events := [];
    } else {
      var a := SettlingStep(ids, conns, s);
      var rest := SettlesIn(ids, conns, Apply(s, a));
      events := [a] + rest;
      assert events[1..] == rest;
    }
  }

  /** Both nodes use the connection between them that survives. */
  ghost predicate Agree(conns: set<Conn>, s: Links, a: Id, b: Id)
    requires a in s.tables && b in s.tables
  {
    Uses(s, a, b) == Uses(s, b, a) == Survivor(conns, a, b)
  }

  lemma SettledAgree(ids: set<Id>, conns: set<Conn>, s: Links, a: Id, b: Id)
    requires Inv(ids, conns, s) && Settled(ids, conns, s) && a in ids && b in ids && a != b
    ensures Agree(conns, s, a, b)
  {
    UsesSurvivor(ids, conns, s, a, b);
    UsesSurvivor(ids, conns, s, b, a);
  }

  /** So every reachable state can settle, and then any two nodes use the same connection. */
  lemma EverythingCanSettle(ids: set<Id>, conns: set<Conn>, s: Links, past: seq<Event>)
    returns (more: seq<Event>, end: Links)
    requires NoLinks(ids, conns, s) && Legal(conns, s, past)
    ensures Legal(conns, Run(conns, s, past), more) && end == Run(conns, Run(conns, s, past), more)
    ensures end.tables.Keys == ids && Settled(ids, conns, end)
    ensures forall a, b :: a in ids && b in ids && a != b ==> Agree(conns, end, a, b)
  {
    var now := Run(conns, s, past);
    RunKeepsInv(ids, conns, s, past);
    more := SettlesIn(ids, conns, now);
    end := Run(conns, now, more);
    forall a, b | a in ids && b in ids && a != b
      ensures Agree(conns, end, a, b)
    {
      SettledAgree(ids, conns, end, a, b);
    }
  }
}
