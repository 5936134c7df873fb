/** One node of the computation: its state, what each handler does to it, and the class itself. */
module Computations {
  import opened Basics
  import opened Matrices
  import opened Paths
  import opened ParallelStacks
  import opened MaximumCuts
  import opened StackAssignments
  import opened Scheduling

  datatype Phase = Initial | Computing | Waiting | Terminating | Finished

  /** The fields of `Computation` and of the search it owns. */
  datatype NodeState = NodeState(phase: Phase, stack: seq<Path>, bestMax: UInt32, bestFound: Int32, table: Option<Table>)

  // ---------- the handlers as functions ----------

  /** `k` rounds of the node's search. */
  ghost function Computed(g: Matrix, st: NodeState, k: nat): NodeState {
    var s := After(g, Search(st.stack, st.bestMax), k);
    st.(stack := s.stack, bestMax := s.best)
  }

  function TableOf(st: NodeState): Table {
    if st.table.Some? then st.table.value else map[]
  }

  /** A reported result: the best one is kept and the reporter's job is cleared. */
  function Reported(st: NodeState, best: Int32, from: Name): NodeState {
    st.(bestFound := if best > st.bestFound then best else st.bestFound,
        table := Some(TableOf(st)[from := []]))
  }

  /** `compute` returns true exactly if at most 10 paths are pending. */
  ghost predicate Drains(g: Matrix, st: NodeState) {
    |Pending(g, st.stack)| <= 10
  }

  ghost function Quantum(g: Matrix, me: Name, st: NodeState): NodeState {
    var c := Computed(g, st, QUANTUM);
    if Drains(g, st) && st.phase == Computing then Reported(c, ToInt32(c.bestMax), me).(phase := Waiting) else c
  }

  /** The result that the quantum broadcasts, if any. */
  ghost function QuantumReport(g: Matrix, st: NodeState): Option<Int32> {
    if Drains(g, st) && st.phase == Computing then Some(ToInt32(Computed(g, st, QUANTUM).bestMax)) else None
  }

  /**
   * A table arrives.  It is merged into the log, and a node that is not computing takes its own
   * job from it.  The very first table becomes the log itself, so that looking up the node's own
   * job, which inserts an empty one if there is none, shows in the log.
   */
  function Assigned(me: Name, st: NodeState, a: Table): NodeState {
    if st.phase == Computing then st.(table := Some(TableOf(st) + a))
    else
      var job := JobOf(a, me);
      st.(table := Some(if st.table.Some? then TableOf(st) + a else a[me := job]),
          stack := job,
          phase := if job != [] then Computing else Waiting)
  }

  /** The arrived table after the handler has looked into it. */
  function AssignedTable(me: Name, st: NodeState, a: Table): Table {
    if st.phase == Computing then a else a[me := JobOf(a, me)]
  }

  /** The log takes over every job the table lists, even an empty one, and keeps all others. */
  lemma LogAfterAssignment(me: Name, st: NodeState, a: Table, k: Name)
    ensures JobOf(TableOf(Assigned(me, st, a)), k) == if k in a then a[k] else JobOf(TableOf(st), k)
    ensures st.phase == Computing ==> Assigned(me, st, a).stack == st.stack && Assigned(me, st, a).phase == Computing
    ensures st.phase != Computing ==>
              && Assigned(me, st, a).stack == JobOf(a, me)
              && Assigned(me, st, a).phase == if JobOf(a, me) != [] then Computing else Waiting
    ensures Assigned(me, st, a).bestMax == st.bestMax && Assigned(me, st, a).bestFound == st.bestFound
  {
  }

  /** Whose entries there are then: the very first table also gets one for the node itself. */
  lemma EntriesAfterAssignment(me: Name, st: NodeState, a: Table)
    ensures TableOf(Assigned(me, st, a)).Keys
         == TableOf(st).Keys + a.Keys + if st.phase != Computing && st.table.None? then {me} else {}
    ensures Assigned(me, st, a).table.Some?
    ensures AssignedTable(me, st, a).Keys == a.Keys + if st.phase != Computing then {me} else {}
    ensures forall k :: k in AssignedTable(me, st, a) ==> AssignedTable(me, st, a)[k] == JobOf(a, k)
  {
  }

  /** A report counts if it is better, and empties the reporter's entry and no other one. */
  lemma LogAfterReport(st: NodeState, best: Int32, from: Name, k: Name)
    ensures JobOf(TableOf(Reported(st, best, from)), k) == if k == from then [] else JobOf(TableOf(st), k)
    ensures Reported(st, best, from).bestFound >= best && Reported(st, best, from).bestFound >= st.bestFound
    ensures Reported(st, best, from).bestFound in {best, st.bestFound}
    ensures Reported(st, best, from) == st.(bestFound := Reported(st, best, from).bestFound,
                                            table := Some(TableOf(st)[from := []]))
  {
  }

  /**
   * A quantum is as many rounds of the search.  A computing node whose stack it empties without
   * using up the quantum empties its own entry of the log as well, counts what it has found and
   * waits; no other entry changes.
   */
  lemma NodeAfterQuantum(g: Matrix, me: Name, st: NodeState, k: Name)
    ensures var q, s := Quantum(g, me, st), After(g, Search(st.stack, st.bestMax), QUANTUM);
            var ended := st.phase == Computing && |Pending(g, st.stack)| < QUANTUM;
            && q.stack == s.stack && q.bestMax == s.best
            && q.phase == (if ended then Waiting else st.phase)
            && JobOf(TableOf(q), k) == (if ended && k == me then [] else JobOf(TableOf(st), k))
            && q.bestFound == (if ended && ToInt32(s.best) > st.bestFound then ToInt32(s.best) else st.bestFound)
            && QuantumReport(g, st) == (if ended then Some(ToInt32(s.best)) else None)
  {
    var c := Computed(g, st, QUANTUM);
    LogAfterReport(c, ToInt32(c.bestMax), me, k);
  }

  /** The table that announces a division, unless there is nothing to divide. */
  ghost function Division(me: Name, st: NodeState, with: Name): Option<Table> {
    if Share(st.stack, 0, 2) == [] then None
    else Some(map[me := Share(st.stack, 0, 2)][with := Share(st.stack, 1, 2)])
  }

  ghost function Divided(me: Name, st: NodeState, with: Name): NodeState {
    var a := Division(me, st, with);
    if a.None? then st else Assigned(me, st.(stack := Share(st.stack, 0, 2)), a.value)
  }

  /** After a division the log names exactly what the node keeps and what it gives away. */
  lemma LogAfterDivision(me: Name, st: NodeState, with: Name, k: Name)
    requires me != with && Division(me, st, with).Some?
    ensures var log := TableOf(Divided(me, st, with));
            && JobOf(log, me) == Divided(me, st, with).stack != []
            && multiset(JobOf(log, me)) + multiset(JobOf(log, with)) == multiset(st.stack)
            && (k != me && k != with ==> JobOf(log, k) == JobOf(TableOf(st), k))
  {
    var kept, given := Share(st.stack, 0, 2), Share(st.stack, 1, 2);
    SharesKeepAll(st.stack, 2);
    FlattenTwo(Shares(st.stack, 2));
    LogAfterAssignment(me, st.(stack := kept), map[me := kept][with := given], k);
    LogAfterAssignment(me, st.(stack := kept), map[me := kept][with := given], me);
    LogAfterAssignment(me, st.(stack := kept), map[me := kept][with := given], with);
  }

  /**
   * A node without work divides nothing.  Any other keeps the even positions, names the odd ones for
   * the other client, mentions nobody else, and computes.
   */
  lemma DividedNode(me: Name, st: NodeState, with: Name)
    requires me != with
    ensures st.stack == [] ==> Division(me, st, with).None? && Divided(me, st, with) == st
    ensures st.stack != [] ==>
              var a, d := Division(me, st, with), Divided(me, st, with);
              && a == Some(map[me := Stride(st.stack, 0, 2), with := Stride(st.stack, 1, 2)])
              && d == NodeState(Computing, Stride(st.stack, 0, 2), st.bestMax, st.bestFound, Some(TableOf(st) + a.value))
  {
    NothingToDivide(st.stack);
    var kept, given := Share(st.stack, 0, 2), Share(st.stack, 1, 2);
    var a := map[me := kept][with := given];
    assert a[me := a[me]] == a && map[] + a == a;
    assert a == map[me := kept, with := given];
  }

  lemma NothingToDivide(stack: seq<Path>)
    ensures Share(stack, 0, 2) == [] <==> stack == []
  {
    ShareSize(stack, 0, 2);
  }

  /** Part `i` of the division goes to the i-th client of `order`. */
  ghost function Dealt(stack: seq<Path>, order: seq<Name>, k: nat): Table
    requires k <= |order|
  {
    if k == 0 then map[] else Dealt(stack, order, k - 1)[order[k - 1] := Share(stack, k - 1, |order|)]
  }

  /** Five quanta before the work is dealt out. */
  const WARM_UP := 55

  ghost function WarmedUp(g: Matrix, st: NodeState): NodeState {
    Computed(g, st.(phase := Waiting, stack := st.stack + Singletons(g.size)), WARM_UP)
  }

  /** The warm-up works on what there was and on all simple paths; what it does not pop is left. */
  lemma WarmUpKeeps(g: Matrix, st: NodeState)
    requires ValidStack(g, st.stack)
    ensures var before := st.stack + Singletons(g.size);
            && Visited(g, Search(before, st.bestMax), 5 * QUANTUM) + Pending(g, WarmedUp(g, st).stack)
               == Pending(g, st.stack) + AllPaths(g)
            && WarmedUp(g, st).phase == Waiting
            && WarmedUp(g, st).bestFound == st.bestFound && WarmedUp(g, st).table == st.table
  {
    PopulateCoversAll(g, []);
    PendingConcat(g, st.stack, Singletons(g.size));
    VisitedPlusPending(g, Search(st.stack + Singletons(g.size), st.bestMax), 5 * QUANTUM);
  }

  ghost function InitialDeal(g: Matrix, st: NodeState, order: seq<Name>): Table {
    Dealt(WarmedUp(g, st).stack, order, |order|)
  }

  ghost function LeaderStarted(g: Matrix, me: Name, st: NodeState, order: seq<Name>): NodeState {
    Assigned(me, WarmedUp(g, st), InitialDeal(g, st, order))
  }

  lemma {:induction false} DealtJob(stack: seq<Path>, order: seq<Name>, k: nat, i: nat)
    requires Distinct(order) && i < k <= |order|
    ensures JobOf(Dealt(stack, order, k), order[i]) == Share(stack, i, |order|)
  {
    if i < k - 1 {
      DealtJob(stack, order, k - 1, i);
    }
  }

  lemma {:induction false} DealtKeys(stack: seq<Path>, order: seq<Name>, k: nat)
    requires k <= |order|
    ensures Dealt(stack, order, k).Keys == Elems(order[..k])
  {
    if k > 0 {
      DealtKeys(stack, order, k - 1);
      assert order[..k] == order[..k - 1] + [order[k - 1]];
    }
  }

  lemma ComputedSum(g: Matrix, st: NodeState, a: nat, b: nat)
    ensures Computed(g, Computed(g, st, a), b) == Computed(g, st, a + b)
  {
    AfterSum(g, Search(st.stack, st.bestMax), a, b);
  }

  // ---------- what the leader decides from its table ----------

  /** A non-leader leaves `Initial` and forgets disconnected clients without jobs. */
  ghost function Refreshed(st: NodeState, known: set<Name>): NodeState {
    var woken := if st.phase == Initial then st.(phase := Waiting) else st;
    if st.table.None? then woken else woken.(table := Some(Cleared(TableOf(st), known)))
  }

  /** Only `Initial` is left, and only for `Waiting`; what the node does and has found stays. */
  lemma RefreshedNode(st: NodeState, known: set<Name>)
    ensures Refreshed(st, known).phase == if st.phase == Initial then Waiting else st.phase
    ensures Refreshed(st, known).stack == st.stack
    ensures Refreshed(st, known).bestMax == st.bestMax && Refreshed(st, known).bestFound == st.bestFound
    ensures st.table.None? ==> Refreshed(st, known).table.None?
    ensures st.table.Some? ==>
              && Refreshed(st, known).table.Some?
              && TableOf(Refreshed(st, known)).Keys
                 == TableOf(st).Keys * known + set k | k in TableOf(st) && TableOf(st)[k] != []
  {
    ClearedKeeps(TableOf(st), known);
  }

  /** No job in the log changes by that. */
  lemma RefreshedLog(st: NodeState, known: set<Name>, k: Name)
    ensures JobOf(TableOf(Refreshed(st, known)), k) == JobOf(TableOf(st), k)
    ensures Refreshed(st, known).stack == st.stack && Refreshed(st, known).phase != Initial
  {
    ClearedJobs(TableOf(st), known, k);
  }

  /** A node's state after the table was cleared and, if nothing is logged, everything was ended. */
  ghost function Surveyed(st: NodeState, known: set<Name>): NodeState {
    var c := st.(table := Some(Cleared(TableOf(st), known)));
    if NothingLogged(TableOf(st)) then c.(phase := Finished) else c
  }

  /** It is ended exactly if nothing is logged; its own work and the logged work stay. */
  lemma SurveyedNode(st: NodeState, known: set<Name>, k: Name)
    ensures var s := Surveyed(st, known);
            && s.phase == (if NothingLogged(TableOf(st)) then Finished else st.phase)
            && s.stack == st.stack && s.bestMax == st.bestMax && s.bestFound == st.bestFound
            && s.table.Some? && JobOf(TableOf(s), k) == JobOf(TableOf(st), k)
            && TableOf(s).Keys == TableOf(st).Keys * known + set k | k in TableOf(st) && TableOf(st)[k] != []
  {
    ClearedJobs(TableOf(st), known, k);
    ClearedKeeps(TableOf(st), known);
  }

  /** ... and after the orphaned jobs were moved. */
  ghost function Rehomed(me: Name, st: NodeState, moves: seq<Move>): NodeState {
    if moves == [] then st else Assigned(me, st, MovesTable(TableOf(st), moves))
  }

  /** ... and after the node itself was asked to divide, if it was. */
  ghost function SelfDivided(me: Name, st: NodeState, requests: seq<Move>): NodeState
    decreases |requests|
  {
    if requests == [] then st
    else
      var m := requests[|requests| - 1];
      var before := SelfDivided(me, st, requests[..|requests| - 1]);
      if m.from == me then Divided(me, before, m.to) else before
  }

  /** The tables that it broadcasts because of that. */
  ghost function SelfDivisions(me: Name, st: NodeState, requests: seq<Move>): seq<Table>
    decreases |requests|
  {
    if requests == [] then []
    else
      var rest, m := requests[..|requests| - 1], requests[|requests| - 1];
      var division := Division(me, SelfDivided(me, st, rest), m.to);
      SelfDivisions(me, st, rest) + if m.from == me && division.Some? then [division.value] else []
  }

  /** The log after both is the re-homed one. */
  lemma RehomedTable(me: Name, st: NodeState, known: set<Name>, moves: seq<Move>)
    ensures TableOf(Rehomed(me, Surveyed(st, known), moves)) == RehomedLog(TableOf(st), known, moves)
  {
  }

  /**
   * The table that announces the moves gives each orphaned job to its new client and empties the
   * entry of its old one, and names nobody else but the leader.  A leader without work takes the job
   * that the very table names for it, and one that computes goes on with its own.
   */
  lemma RehomedNode(me: Name, st: NodeState, known: set<Name>, moves: seq<Move>, i: nat)
    requires Pairing(moves, Orphaned(TableOf(st), known), Idle(TableOf(st), known)) && i < |moves|
    ensures var s := Surveyed(st, known);
            var sent, r := AssignedTable(me, s, MovesTable(TableOf(s), moves)), Rehomed(me, s, moves);
            && JobOf(sent, moves[i].to) == JobOf(TableOf(st), moves[i].from) != []
            && JobOf(sent, moves[i].from) == [] && moves[i].from in sent
            && sent.Keys == Donors(moves) + Receivers(moves) + (if s.phase != Computing then {me} else {})
            && r.stack == (if s.phase == Computing then st.stack else JobOf(sent, me))
            && r.phase == (if s.phase == Computing || JobOf(sent, me) != [] then Computing else Waiting)
            && r.bestMax == st.bestMax && r.bestFound == st.bestFound
  {
    var s := Surveyed(st, known);
    var t, a := TableOf(s), MovesTable(TableOf(s), moves);
    ClearedSets(TableOf(st), known);
    MovesTableKeys(t, moves);
    MovesTableAt(t, moves, Orphaned(t, known), Idle(t, known), i);
    ClearedJobs(TableOf(st), known, moves[i].from);
    EntriesAfterAssignment(me, s, a);
    LogAfterAssignment(me, s, a, me);
  }

  /** At most one of them, if the requests go to different clients. */
  lemma {:induction false} OneSelfDivision(me: Name, st: NodeState, requests: seq<Move>, from: set<Name>, to: set<Name>)
    requires Pairing(requests, from, to)
    ensures |SelfDivisions(me, st, requests)| <= if me in Donors(requests) then 1 else 0
  {
    if requests != [] {
      OneSelfDivision(me, st, requests[..|requests| - 1], from, to);
    }
  }

  /** Without such a request, or without work, it does nothing. */
  lemma {:induction false} NoSelfDivision(me: Name, st: NodeState, requests: seq<Move>)
    requires st.stack == [] || me !in Donors(requests)
    ensures SelfDivided(me, st, requests) == st && SelfDivisions(me, st, requests) == []
  {
    if requests != [] {
      NoSelfDivision(me, st, requests[..|requests| - 1]);
      NothingToDivide(st.stack);
    }
  }

  /**
   * A node that asks itself in favour of another client, and has work, broadcasts one table.  It
   * names these two: the node with the even positions of its stack, which are what is left of the
   * stack, and the other client with the odd ones.
   */
  lemma {:induction false} SelfDivisionNames(me: Name, st: NodeState, requests: seq<Move>,
                                             from: set<Name>, to: set<Name>, i: nat)
    requires Pairing(requests, from, to) && from !! to
    requires i < |requests| && requests[i].from == me && st.stack != []
    ensures var divisions, kept := SelfDivisions(me, st, requests), SelfDivided(me, st, requests).stack;
            && |divisions| == 1
            && divisions[0].Keys == {me, requests[i].to} && requests[i].to != me
            && divisions[0][me] == kept == Stride(st.stack, 0, 2)
            && divisions[0][requests[i].to] == Stride(st.stack, 1, 2)
            && multiset(kept) + multiset(divisions[0][requests[i].to]) == multiset(st.stack)
  {
    var rest, m := requests[..|requests| - 1], requests[|requests| - 1];
    PairingAt(requests, from, to, i);
    if i < |rest| {
      assert rest[i] == requests[i];
      PairingAt(rest, from, to, i);
      SelfDivisionNames(me, st, rest, from, to, i);
    } else {
      NoSelfDivision(me, st, rest);
      DividedNode(me, st, m.to);
      HalvesKeepAll(st.stack);
    }
  }

  /** What some tables name for other clients than `me`. */
  ghost function NamedForOthers(me: Name, tables: seq<Table>): multiset<Path> {
    if tables == [] then multiset{}
    else NamedForOthers(me, tables[..|tables| - 1]) + LoggedWork(tables[|tables| - 1] - {me})
  }

  lemma NamedForOthersPush(me: Name, tables: seq<Table>, t: Table)
    ensures NamedForOthers(me, tables + [t]) == NamedForOthers(me, tables) + LoggedWork(t - {me})
  {
    assert (tables + [t])[..|tables|] == tables;
  }

  /** Nothing is lost: what leaves the stack is what the broadcast tables name for the others. */
  lemma {:induction false} SelfDivisionsKeepAll(me: Name, st: NodeState, requests: seq<Move>)
    requires forall i :: 0 <= i < |requests| && requests[i].from == me ==> requests[i].to != me
    ensures multiset(SelfDivided(me, st, requests).stack) + NamedForOthers(me, SelfDivisions(me, st, requests))
         == multiset(st.stack)
  {
    if requests != [] {
      var rest, m := requests[..|requests| - 1], requests[|requests| - 1];
      SelfDivisionsKeepAll(me, st, rest);
      var before := SelfDivided(me, st, rest);
      if m.from == me && Division(me, before, m.to).Some? {
        NextSelfDivision(me, before, m.to, SelfDivisions(me, st, rest), multiset(st.stack));
      } else {
        assert SelfDivisions(me, st, requests) == SelfDivisions(me, st, rest) + [];
        assert SelfDivisions(me, st, rest) + [] == SelfDivisions(me, st, rest);
      }
    }
  }

  lemma NextSelfDivision(me: Name, st: NodeState, with: Name, tables: seq<Table>, all: multiset<Path>)
    requires me != with && Division(me, st, with).Some?
    requires multiset(st.stack) + NamedForOthers(me, tables) == all
    ensures multiset(Divided(me, st, with).stack) + NamedForOthers(me, tables + [Division(me, st, with).value]) == all
  {
    var t := Division(me, st, with).value;
    OneDivisionKeepsAll(me, st, with);
    NamedForOthersPush(me, tables, t);
    GiveFromStack(multiset(Divided(me, st, with).stack), LoggedWork(t - {me}),
                  multiset(st.stack), NamedForOthers(me, tables));
  }

  lemma GiveFromStack(kept: multiset<Path>, given: multiset<Path>, before: multiset<Path>, named: multiset<Path>)
    requires kept + given == before
    ensures kept + (named + given) == before + named
  {
  }

  lemma OneDivisionKeepsAll(me: Name, st: NodeState, with: Name)
    requires me != with && Division(me, st, with).Some?
    ensures multiset(Divided(me, st, with).stack) + LoggedWork(Division(me, st, with).value - {me}) == multiset(st.stack)
  {
    var kept, given := Share(st.stack, 0, 2), Share(st.stack, 1, 2);
    OthersInDivision(me, kept, with, given);
    LogAfterAssignment(me, st.(stack := kept), map[me := kept][with := given], me);
    LoggedAlone(with, given);
    HalvesKeepAll(st.stack);
  }

  lemma OthersInDivision(me: Name, kept: Job, with: Name, given: Job)
    requires me != with
    ensures map[me := kept][with := given] - {me} == map[with := given]
  {
  }

  lemma HalvesKeepAll(stack: seq<Path>)
    ensures multiset(Share(stack, 0, 2)) + multiset(Share(stack, 1, 2)) == multiset(stack)
  {
    StrideOne(stack, 0);
    InterleavedKeepsAll(stack, 0, 1);
  }

  ghost predicate ValidTable(g: Matrix, t: Table) {
    forall k :: k in t ==> ValidStack(g, t[k])
  }

  lemma {:induction false} MovesTableValid(g: Matrix, t: Table, moves: seq<Move>)
    requires ValidTable(g, t)
    ensures ValidTable(g, MovesTable(t, moves))
  {
    if moves != [] {
      MovesTableValid(g, t, moves[..|moves| - 1]);
    }
  }

  // ---------- parts of a stack of valid paths ----------

  lemma {:induction false} StrideValid(g: Matrix, s: seq<Path>, r: nat, d: nat)
    requires ValidStack(g, s) && d > 0
    ensures ValidStack(g, Stride(s, r, d))
    decreases |s| - r
  {
    if r < |s| {
      StrideValid(g, s, r + d, d);
    }
  }

  lemma ShareValid(g: Matrix, s: seq<Path>, i: nat, count: nat)
    requires ValidStack(g, s)
    ensures ValidStack(g, Share(s, i, count))
  {
    StrideValid(g, s, i, StepOf(i, count));
  }

  // ---------- the class ----------

  class Computation {
    const me: Name
    const maximumCut: MaximumCut
    var state: Phase
    var bestFound: Int32
    var currAssignment: StackAssignment?

    constructor (me: Name, maximumCut: MaximumCut)
      requires maximumCut.matrix.size >= 1 && maximumCut.View() == Search([], 0)
      ensures this.me == me && this.maximumCut == maximumCut
      ensures Valid() && View() == NodeState(Initial, [], 0, 0, None)
    {
      this.me := me;
      this.maximumCut := maximumCut;
      state := Initial;
      bestFound := 0;
      currAssignment := null;
    }

    ghost function View(): NodeState
      reads this, maximumCut, maximumCut.states, currAssignment
    {
      NodeState(state, maximumCut.states.data, maximumCut.bestMax, bestFound,
                if currAssignment == null then None else Some(currAssignment.assignments))
    }

    ghost predicate Valid()
      reads this, maximumCut, maximumCut.states
    {
      && maximumCut.matrix.size >= 1
      && maximumCut.Valid()
      && (state == Computing ==> currAssignment != null)
      && (state == Initial ==> currAssignment == null)
    }

    method OnAssignmentFinished(best: Int32, clientId: Name)
      requires Valid() && currAssignment != null
      modifies this`bestFound, currAssignment
      ensures Valid() && View() == Reported(old(View()), best, clientId)
    {
      if best > bestFound {
        bestFound := best;
      }
      currAssignment.SetAssignment(clientId, []);
    }

    method ComputeStep() returns (report: Option<Int32>)
      requires Valid()
      modifies this`bestFound, this`state, maximumCut`bestMax, maximumCut.states, currAssignment
      ensures Valid() && View() == Quantum(maximumCut.matrix, me, old(View()))
      ensures report == QuantumReport(maximumCut.matrix, old(View()))
    {
      report := None;
      var done := maximumCut.Compute();
      if done {
        if state == Computing {
          var best := ToInt32(maximumCut.bestMax);
          OnAssignmentFinished(best, me);
          report := Some(best);
          state := Waiting;
        }
      }
    }

    method OnAssignment(assign: StackAssignment)
      requires Valid() && assign != currAssignment
      requires ValidStack(maximumCut.matrix, JobOf(assign.assignments, me))
      modifies this, maximumCut.states, currAssignment, assign
      ensures Valid() && View() == Assigned(me, old(View()), old(assign.assignments))
      ensures assign.assignments == AssignedTable(me, old(View()), old(assign.assignments))
      ensures currAssignment == if old(currAssignment) == null then assign else old(currAssignment)
    {
      if currAssignment != null {
        currAssignment.Update(assign);
      } else {
        currAssignment := assign;
      }
      if state != Computing {
        var job := assign.GetAssignment(me);
        maximumCut.states.AssignData(job);
        if |maximumCut.states.data| > 0 {
          state := Computing;
        } else {
          state := Waiting;
        }
      }
    }

    method OnDivideWith(with: Name) returns (msg: Option<Table>)
      requires Valid()
      modifies this, maximumCut.states, currAssignment
      ensures Valid() && View() == Divided(me, old(View()), with)
      ensures msg == Division(me, old(View()), with)
      ensures if old(currAssignment) == null then currAssignment == null || fresh(currAssignment)
              else currAssignment == old(currAssignment)
    {
      msg := None;
      ghost var stack := maximumCut.states.data;
      ShareValid(maximumCut.matrix, stack, 0, 2);
      ShareValid(maximumCut.matrix, stack, 1, 2);
      var parStacks := GetParallelStacks(maximumCut.states.data, 2);
      assert Contents(parStacks)[0] == parStacks[0].data && Contents(parStacks)[1] == parStacks[1].data;
      if |parStacks| != 2 || |parStacks[0].data| == 0 {
        return;
      }
      maximumCut.states.AssignData(parStacks[0].data);
      var assign := new StackAssignment();
      assign.SetAssignment(me, parStacks[0].data);
      assign.SetAssignment(with, parStacks[1].data);
      msg := Some(assign.assignments);
      OnAssignment(assign);
    }

    /**
     * The leader's periodic step.  `clients` is what `GetClients` returns, `resend` the outcome of
     * the random test.  Results: the table re-broadcast, if any; the new clients, each of which is
     * sent the table; whether Terminate is broadcast; the table that announces the moved jobs, if
     * any (and, as ghost, the moves); the requests to divide, sent to their first component or
     * carried out at once if that is this node; and the tables broadcast in that case.
     */
    method CheckAssignments(clients: seq<Name>, resend: bool)
      returns (resent: Option<Table>, newClients: set<Name>, terminated: bool, moved: Option<Table>,
               requests: seq<Move>, divisions: seq<Table>, ghost moves: seq<Move>)
      requires Valid() && currAssignment != null
      requires ValidTable(maximumCut.matrix, currAssignment.assignments)
      modifies this, maximumCut.states, currAssignment
      ensures Valid() && currAssignment == old(currAssignment)
      ensures var known, t := Elems(clients + [me]), old(currAssignment.assignments);
              && (terminated <==> NothingLogged(t))
              && newClients == known - t.Keys
              && resent == (if resend then Some(Cleared(t, known)) else None)
              && Pairing(moves, Orphaned(t, known), Idle(t, known))
              && |moves| == Min(|Orphaned(t, known)|, |Idle(t, known)|)
              && Pairing(requests, known - Idle(t, known), Idle(t, known) - Receivers(moves))
              && |requests| == Min(|known - Idle(t, known)|, |Idle(t, known) - Receivers(moves)|)
              && var surveyed := Surveyed(old(View()), known);
              && moved == (if moves == [] then None
                           else Some(AssignedTable(me, surveyed, MovesTable(TableOf(surveyed), moves))))
              && divisions == SelfDivisions(me, Rehomed(me, surveyed, moves), requests)
              && View() == SelfDivided(me, Rehomed(me, surveyed, moves), requests)
    {
      var known := Elems(clients + [me]);
      var needJob, disconnected;
      resent, newClients, terminated, needJob, disconnected := Survey(known, resend);
      var stillNeed;
      moved, stillNeed, moves := Rehome(disconnected, needJob);
      requests := PairRequests(known - needJob, stillNeed);
      divisions := AskToDivide(requests);
    }

    /** Everything up to the termination test. */
    method Survey(known: set<Name>, resend: bool)
      returns (resent: Option<Table>, newClients: set<Name>, terminated: bool, needJob: set<Name>, disconnected: set<Name>)
      requires Valid() && currAssignment != null
      modifies this`state, currAssignment
      ensures Valid() && currAssignment == old(currAssignment)
      ensures var t := old(currAssignment.assignments);
              && (terminated <==> NothingLogged(t))
              && newClients == known - t.Keys && needJob == Idle(t, known) && disconnected == Orphaned(t, known)
              && resent == (if resend then Some(Cleared(t, known)) else None)
      ensures View() == Surveyed(old(View()), known)
    {
      ghost var st := View();
      var finished;
      newClients, finished, disconnected := Classify(currAssignment, known);
      needJob := newClients + finished;
      assert needJob == Idle(TableOf(st), known);
      resent := if resend then Some(currAssignment.assignments) else None;
      terminated := false;
      TerminationTest(TableOf(st), known);
      if |finished| + |newClients| == |known| {
        if |disconnected| == 0 {
          terminated := true;
          OnTerminate();
        }
      }
    }

    method OnTerminate()
      requires Valid()
      modifies this`state
      ensures Valid() && View() == old(View()).(phase := Finished)
    {
      state := Finished;
    }

    /** The periodic step of every other node. */
    method NonLeaderStep(clients: seq<Name>)
      requires Valid()
      modifies this`state, currAssignment
      ensures Valid() && currAssignment == old(currAssignment)
      ensures View() == Refreshed(old(View()), Elems(clients + [me]))
    {
      if state == Initial {
        state := Waiting;
      }
      if currAssignment != null {
        var known := Elems(clients + [me]);
        var finished, disconnected := ClearDisconnected(currAssignment, known, {}, currAssignment.assignments.Keys - known);
      }
    }

    /** The block that gives the jobs of disconnected clients to those that need one. */
    method Rehome(disconnected: set<Name>, needJob: set<Name>)
      returns (moved: Option<Table>, stillNeed: set<Name>, ghost moves: seq<Move>)
      requires Valid() && currAssignment != null
      requires ValidTable(maximumCut.matrix, currAssignment.assignments)
      requires disconnected !! needJob && disconnected <= currAssignment.assignments.Keys
      modifies this, maximumCut.states, currAssignment
      ensures Valid() && currAssignment == old(currAssignment)
      ensures Pairing(moves, disconnected, needJob) && |moves| == Min(|disconnected|, |needJob|)
      ensures stillNeed == needJob - Receivers(moves)
      ensures View() == Rehomed(me, old(View()), moves)
      ensures moved == if moves == [] then None
                       else Some(AssignedTable(me, old(View()), MovesTable(TableOf(old(View())), moves)))
    {
      var newAssignments, assignmentsNum;
      newAssignments, stillNeed, assignmentsNum, moves := PairJobs(currAssignment, disconnected, needJob);
      moved := None;
      if assignmentsNum > 0 {
        MovesTableValid(maximumCut.matrix, currAssignment.assignments, moves);
        OnAssignment(newAssignments);
        moved := Some(newAssignments.assignments);
      }
    }

    /** The effect of the requests on this node itself; the tables are broadcast. */
    method AskToDivide(requests: seq<Move>) returns (divisions: seq<Table>)
      requires Valid() && currAssignment != null
      modifies this, maximumCut.states, currAssignment
      ensures Valid() && currAssignment == old(currAssignment)
      ensures View() == SelfDivided(me, old(View()), requests)
      ensures divisions == SelfDivisions(me, old(View()), requests)
    {
      ghost var st := View();
      divisions := [];
      for i := 0 to |requests|
        invariant Valid() && currAssignment == old(currAssignment)
        invariant View() == SelfDivided(me, st, requests[..i])
        invariant divisions == SelfDivisions(me, st, requests[..i])
      {
        assert requests[..i + 1][..i] == requests[..i];
        if requests[i].from == me {
          var msg := OnDivideWith(requests[i].to);
          if msg.Some? {
            divisions := divisions + [msg.value];
          }
        }
      }
      assert requests[..|requests|] == requests;
    }

    /** The leader's `Initial` step; `clients` is what `GetClients` returns. */
    method InitLeaderStep(clients: seq<Name>) returns (msg: Table)
      requires Valid() && state == Initial
      requires Distinct(clients + [me])
      modifies this, maximumCut`bestMax, maximumCut.states
      ensures Valid() && View() == LeaderStarted(maximumCut.matrix, me, old(View()), clients + [me])
      ensures msg == InitialDeal(maximumCut.matrix, old(View()), clients + [me])
      ensures fresh(currAssignment)
    {
      ghost var g, st := maximumCut.matrix, View();
      state := Waiting;
      maximumCut.PopulateStates();
      var assign := new StackAssignment();
      var order := clients + [me];
      WarmUp();
      assert View() == WarmedUp(g, st);
      var pars := GetParallelStacks(maximumCut.states.data, |order|);
      DealOut(assign, pars, order);
      DealtJob(maximumCut.states.data, order, |order|, |clients|);
      ShareValid(g, maximumCut.states.data, |clients|, |order|);
      DealtKeys(maximumCut.states.data, order, |order|);
      assert order[..|order|] == order;
      assert me == order[|clients|];
      OnAssignment(assign);
      msg := assign.assignments;
    }

    /** Five compute steps in a row, none of which reports. */
    method WarmUp()
      requires Valid() && state == Waiting && currAssignment == null
      modifies this`bestFound, this`state, maximumCut`bestMax, maximumCut.states
      ensures Valid() && View() == Computed(maximumCut.matrix, old(View()), WARM_UP)
    {
      ghost var st := View();
      for i := 0 to 5
        invariant Valid() && currAssignment == null
        invariant View() == Computed(maximumCut.matrix, st, QUANTUM * i)
      {
        ComputedSum(maximumCut.matrix, st, QUANTUM * i, QUANTUM);
        var report := ComputeStep();
      }
    }

    /** The loop that enters each part under its client. */
    method DealOut(assign: StackAssignment, pars: seq<ParallelStack<Path>>, order: seq<Name>)
      requires |pars| == |order| && assign.assignments == map[]
      requires Contents(pars) == Shares(maximumCut.states.data, |order|)
      modifies assign
      ensures assign.assignments == Dealt(maximumCut.states.data, order, |order|)
    {
      for i := 0 to |order|
        invariant assign.assignments == Dealt(maximumCut.states.data, order, i)
        invariant maximumCut.states.data == old(maximumCut.states.data)
        invariant Contents(pars) == Shares(maximumCut.states.data, |order|)
      {
        assert Contents(pars)[i] == pars[i].data;
        assign.SetAssignment(order[i], pars[i].data);
      }
    }
  }
}
