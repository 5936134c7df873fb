/** How the leader reads its table: who needs a job, which jobs are orphaned, and what it does about it. */
module Scheduling {
  import opened Basics
  import opened Multisets
  import opened StackAssignments

  // ---------- what the table says ----------

  /** Connected clients without logged work. */
  ghost function Idle(t: Table, known: set<Name>): set<Name> {
    set k | k in known && JobOf(t, k) == []
  }

  /** Disconnected clients with logged work. */
  ghost function Orphaned(t: Table, known: set<Name>): set<Name> {
    set k | k in t && k !in known && t[k] != []
  }

  /** The table without disconnected clients that have no work. */
  ghost function Cleared(t: Table, known: set<Name>): Table {
    t - (set k | k in t && k !in known && t[k] == [])
  }

  ghost predicate NothingLogged(t: Table) {
    forall k :: k in t ==> t[k] == []
  }

  /** Clearing loses no job. */
  lemma ClearedJobs(t: Table, known: set<Name>, k: Name)
    ensures JobOf(Cleared(t, known), k) == JobOf(t, k)
  {
  }

  /** What stays in the table: connected clients with any entry, disconnected ones with work. */
  lemma ClearedKeeps(t: Table, known: set<Name>)
    ensures Cleared(t, known).Keys == t.Keys * known + set k | k in t && t[k] != []
    ensures forall k :: k in Cleared(t, known) ==> Cleared(t, known)[k] == t[k]
  {
  }

  /** The set computations at the head of `CheckAssignments`. */
  method Classify(table: StackAssignment, known: set<Name>)
    returns (newClients: set<Name>, finished: set<Name>, disconnected: set<Name>)
    modifies table
    ensures newClients == known - old(table.assignments).Keys
    ensures finished == Idle(old(table.assignments), known) - newClients
    ensures disconnected == Orphaned(old(table.assignments), known)
    ensures disconnected == table.assignments.Keys - known
    ensures forall k :: k in old(table.assignments) && k !in known ==>
              (k in disconnected <==> old(table.assignments)[k] != [])
    ensures table.assignments == Cleared(old(table.assignments), known)
  {
    var assignedClients := table.assignments.Keys;
    newClients := known - assignedClients;
    disconnected := assignedClients - known;
    finished := CollectFinished(table, assignedClients);
    finished, disconnected := ClearDisconnected(table, known, finished, disconnected);
  }

  method CollectFinished(table: StackAssignment, clients: set<Name>) returns (finished: set<Name>)
    requires clients <= table.assignments.Keys
    ensures finished == set k | k in clients && table.assignments[k] == []
  {
    finished := {};
    var toVisit := clients;
    while toVisit != {}
      invariant toVisit <= clients
      invariant finished == set k | k in clients && k !in toVisit && table.assignments[k] == []
      decreases |toVisit|
    {
      var client :| client in toVisit;
      toVisit := toVisit - {client};
      var job := table.Lookup(client);
      if |job| == 0 {
        finished := finished + {client};
      }
    }
  }

  /** The block that removes the disconnected clients without jobs. */
  method ClearDisconnected(table: StackAssignment, known: set<Name>, finished: set<Name>, disconnected: set<Name>)
    returns (finishedLeft: set<Name>, disconnectedLeft: set<Name>)
    requires disconnected == table.assignments.Keys - known
    modifies table
    ensures table.assignments == Cleared(old(table.assignments), known)
    ensures finishedLeft == finished - (disconnected - Orphaned(old(table.assignments), known))
    ensures disconnectedLeft == Orphaned(old(table.assignments), known)
    ensures disconnectedLeft == table.assignments.Keys - known
    ensures forall k :: k in disconnected ==> (k in disconnectedLeft <==> old(table.assignments)[k] != [])
  {
    var cleared := CollectFinished(table, disconnected);
    ghost var t := table.assignments;
    var toVisit := cleared;
    while toVisit != {}
      invariant toVisit <= cleared && table.assignments == t - (cleared - toVisit)
      decreases |toVisit|
    {
      var disc :| disc in toVisit;
      toVisit := toVisit - {disc};
      table.Remove(disc);
    }
    finishedLeft := finished - cleared;
    disconnectedLeft := disconnected - cleared;
    assert cleared == set k | k in t && k !in known && t[k] == [];
  }

  /** The size test of the program. */
  ghost predicate EndsNow(t: Table, known: set<Name>) {
    var newClients := known - t.Keys;
    var finished := Idle(t, known) - newClients;
    |finished| + |newClients| == |known| && |Orphaned(t, known)| == 0
  }

  /** It is true exactly if nothing at all is logged. */
  lemma TerminationTest(t: Table, known: set<Name>)
    ensures EndsNow(t, known) <==> NothingLogged(t)
  {
    var newClients := known - t.Keys;
    var finished := Idle(t, known) - newClients;
    assert |finished + newClients| == |finished| + |newClients|;
    SubsetSize(finished + newClients, known);
    if |finished| + |newClients| == |known| && Orphaned(t, known) == {} {
      forall k | k in t ensures t[k] == [] {
        if k in known {
          assert k in finished + newClients;
        } else {
          assert k !in Orphaned(t, known);
        }
      }
    }
    if NothingLogged(t) {
      assert finished + newClients == known;
      assert Orphaned(t, known) == {};
    }
  }

  // ---------- re-homing ----------

  /** A job moves from a disconnected client to one that needs a job. */
  datatype Move = Move(from: Name, to: Name)

  /** The assignments that announce some moves. */
  ghost function MovesTable(t: Table, moves: seq<Move>): Table {
    if moves == [] then map[]
    else
      var k := |moves| - 1;
      MovesTable(t, moves[..k])[moves[k].to := JobOf(t, moves[k].from)][moves[k].from := []]
  }

  ghost function Donors(moves: seq<Move>): set<Name> {
    if moves == [] then {} else Donors(moves[..|moves| - 1]) + {moves[|moves| - 1].from}
  }

  ghost function Receivers(moves: seq<Move>): set<Name> {
    if moves == [] then {} else Receivers(moves[..|moves| - 1]) + {moves[|moves| - 1].to}
  }

  /** Each donor gives once, each receiver takes once. */
  ghost predicate Pairing(moves: seq<Move>, donors: set<Name>, receivers: set<Name>) {
    moves == [] ||
    var rest, m := moves[..|moves| - 1], moves[|moves| - 1];
    && Pairing(rest, donors, receivers)
    && m.from in donors - Donors(rest)
    && m.to in receivers - Receivers(rest)
  }

  function Min(a: int, b: int): (m: int)
    ensures m <= a && m <= b && m in {a, b}
  {
    if a <= b then a else b
  }

  /** The pairing loop. */
  method PairJobs(table: StackAssignment, disconnected: set<Name>, needJob: set<Name>)
    returns (newAssignments: StackAssignment, stillNeed: set<Name>, assignmentsNum: nat, ghost moves: seq<Move>)
    requires disconnected !! needJob && disconnected <= table.assignments.Keys
    ensures fresh(newAssignments)
    ensures Pairing(moves, disconnected, needJob)
    ensures assignmentsNum == |moves| == Min(|disconnected|, |needJob|)
    ensures newAssignments.assignments == MovesTable(table.assignments, moves)
    ensures stillNeed == needJob - Receivers(moves)
  {
    newAssignments := new StackAssignment();
    ghost var t := table.assignments;
    moves := [];
    assignmentsNum := 0;
    stillNeed := needJob;
    var donors := disconnected;
    while |donors| > 0 && |stillNeed| > 0
      invariant fresh(newAssignments) && table.assignments == t && assignmentsNum == |moves|
      invariant Unpaired(moves, disconnected, needJob, donors, stillNeed)
      invariant newAssignments.assignments == MovesTable(t, moves)
      decreases |donors|
    {
      assignmentsNum := assignmentsNum + 1;
      var from :| from in donors;
      var to :| to in stillNeed;
      PairOne(moves, Move(from, to), disconnected, needJob, donors, stillNeed);
      donors := donors - {from};
      stillNeed := stillNeed - {to};
      EnterMove(table, newAssignments, from, to);
      MoreMoves(t, moves, Move(from, to));
      moves := moves + [Move(from, to)];
    }
  }

  /** The two assignments of the loop body. */
  method EnterMove(table: StackAssignment, newAssignments: StackAssignment, from: Name, to: Name)
    requires table != newAssignments && from in table.assignments
    modifies newAssignments
    ensures newAssignments.assignments
         == old(newAssignments.assignments)[to := JobOf(table.assignments, from)][from := []]
  {
    var job := table.Lookup(from);
    newAssignments.SetAssignment(to, job);
    newAssignments.SetAssignment(from, []);
  }

  lemma MoreMoves(t: Table, moves: seq<Move>, m: Move)
    ensures MovesTable(t, moves + [m]) == MovesTable(t, moves)[m.to := JobOf(t, m.from)][m.from := []]
  {
    assert (moves + [m])[..|moves|] == moves;
  }

  /** What is left of both sides after some moves. */
  ghost predicate Unpaired(moves: seq<Move>, donors: set<Name>, receivers: set<Name>,
                           donorsLeft: set<Name>, receiversLeft: set<Name>) {
    && Pairing(moves, donors, receivers)
    && donorsLeft == donors - Donors(moves)
    && receiversLeft == receivers - Receivers(moves)
    && |donorsLeft| == |donors| - |moves|
    && |receiversLeft| == |receivers| - |moves|
  }

  lemma PairOne(moves: seq<Move>, m: Move, donors: set<Name>, receivers: set<Name>,
                donorsLeft: set<Name>, receiversLeft: set<Name>)
    requires Unpaired(moves, donors, receivers, donorsLeft, receiversLeft)
    requires m.from in donorsLeft && m.to in receiversLeft
    ensures Unpaired(moves + [m], donors, receivers, donorsLeft - {m.from}, receiversLeft - {m.to})
  {
  }

  // ---------- re-homing keeps the logged work ----------

  /** All logged states together. */
  ghost function LoggedWork(t: Table): multiset<seq<int>>
    decreases |t|
  {
    if |t| == 0 then multiset{}
    else
      var k :| k in t.Keys;
      multiset(t[k]) + LoggedWork(t - {k})
  }

  lemma {:induction false} LoggedRemove(t: Table, k: Name)
    requires k in t
    ensures LoggedWork(t) == multiset(t[k]) + LoggedWork(t - {k})
    decreases |t|
  {
    var c :| c in t.Keys && LoggedWork(t) == multiset(t[c]) + LoggedWork(t - {c});
    if c != k {
      LoggedRemove(t - {c}, k);
      LoggedRemove(t - {k}, c);
      RemoveBoth(t, c, k);
      ExchangeFirst(multiset(t[c]), multiset(t[k]), LoggedWork(t - {c} - {k}));
    }
  }

  lemma RemoveBoth(t: Table, c: Name, k: Name)
    ensures t - {c} - {k} == t - {k} - {c}
  {
  }

  lemma LoggedAlone(k: Name, job: Job)
    ensures LoggedWork(map[k := job]) == multiset(job)
  {
    LoggedRemove(map[k := job], k);
    assert map[k := job] - {k} == map[];
  }

  /** Overwriting one entry exchanges exactly that entry's work. */
  lemma LoggedUpdate(t: Table, k: Name, job: Job)
    ensures LoggedWork(t[k := job]) + multiset(JobOf(t, k)) == LoggedWork(t) + multiset(job)
  {
    LoggedSet(t, k, job);
    if k in t {
      LoggedSet(t, k, t[k]);
      assert t[k := t[k]] == t;
    } else {
      assert t - {k} == t;
    }
    ExchangeOuter(multiset(job), LoggedWork(t - {k}), multiset(JobOf(t, k)));
  }

  lemma LoggedSet(t: Table, k: Name, job: Job)
    ensures LoggedWork(t[k := job]) == multiset(job) + LoggedWork(t - {k})
  {
    LoggedRemove(t[k := job], k);
    assert t[k := job] - {k} == t - {k};
  }

  /** Who holds what after the moves. */
  lemma {:induction false} MovedJobs(t: Table, moves: seq<Move>, donors: set<Name>, receivers: set<Name>, k: Name)
    requires Pairing(moves, donors, receivers) && donors !! receivers
    ensures k in Donors(moves) ==> JobOf(t + MovesTable(t, moves), k) == []
    ensures k !in Donors(moves) && k !in Receivers(moves) ==> JobOf(t + MovesTable(t, moves), k) == JobOf(t, k)
    ensures Donors(moves) <= donors && Receivers(moves) <= receivers
  {
    if moves != [] {
      var rest, m := moves[..|moves| - 1], moves[|moves| - 1];
      MovedJobs(t, rest, donors, receivers, k);
      TableMove(t, MovesTable(t, rest), m.to, JobOf(t, m.from), m.from);
    }
  }

  lemma TableMove(t: Table, u: Table, to: Name, job: Job, from: Name)
    ensures t + u[to := job][from := []] == (t + u)[to := job][from := []]
  {
  }

  /** Each receiver holds its donor's job. */
  lemma {:induction false} ReceiverHolds(t: Table, moves: seq<Move>, donors: set<Name>, receivers: set<Name>, i: nat)
    requires Pairing(moves, donors, receivers) && donors !! receivers && i < |moves|
    ensures moves[i].from in donors && moves[i].to in Receivers(moves)
    ensures JobOf(t + MovesTable(t, moves), moves[i].to) == JobOf(t, moves[i].from)
  {
    var rest, m := moves[..|moves| - 1], moves[|moves| - 1];
    TableMove(t, MovesTable(t, rest), m.to, JobOf(t, m.from), m.from);
    if i < |rest| {
      ReceiverHolds(t, rest, donors, receivers, i);
      MovedJobs(t, rest, donors, receivers, m.to);
      assert rest[i] == moves[i];
    }
  }

  /** The announcement itself: whom it names, and with what. */
  lemma {:induction false} MovesTableKeys(t: Table, moves: seq<Move>)
    ensures MovesTable(t, moves).Keys == Donors(moves) + Receivers(moves)
  {
    if moves != [] {
      MovesTableKeys(t, moves[..|moves| - 1]);
    }
  }

  lemma {:induction false} MovesTableAt(t: Table, moves: seq<Move>, donors: set<Name>, receivers: set<Name>, i: nat)
    requires Pairing(moves, donors, receivers) && donors !! receivers && i < |moves|
    ensures moves[i].from in donors && moves[i].to in receivers
    ensures moves[i].from in Donors(moves) && moves[i].to in Receivers(moves)
    ensures JobOf(MovesTable(t, moves), moves[i].to) == JobOf(t, moves[i].from)
    ensures JobOf(MovesTable(t, moves), moves[i].from) == []
  {
    var rest := moves[..|moves| - 1];
    if i < |rest| {
      MovesTableAt(t, rest, donors, receivers, i);
      assert rest[i] == moves[i];
    }
  }

  /** Conservation: the logged work is the same before and after re-homing. */
  lemma {:induction false} RehomingConserves(t: Table, moves: seq<Move>, known: set<Name>)
    requires Pairing(moves, Orphaned(t, known), Idle(t, known))
    ensures LoggedWork(t + MovesTable(t, moves)) == LoggedWork(t)
  {
    if moves == [] {
      assert t + map[] == t;
    } else {
      var rest, m := moves[..|moves| - 1], moves[|moves| - 1];
      RehomingConserves(t, rest, known);
      MovedJobs(t, rest, Orphaned(t, known), Idle(t, known), m.from);
      MovedJobs(t, rest, Orphaned(t, known), Idle(t, known), m.to);
      var u := t + MovesTable(t, rest);
      TableMove(t, MovesTable(t, rest), m.to, t[m.from], m.from);
      MoveKeeps(u, m.from, m.to, t[m.from]);
    }
  }

  lemma MoveKeeps(u: Table, from: Name, to: Name, job: Job)
    requires from != to && JobOf(u, from) == job && JobOf(u, to) == []
    ensures LoggedWork(u[to := job][from := []]) == LoggedWork(u)
  {
    LoggedUpdate(u, to, job);
    LoggedUpdate(u[to := job], from, []);
    Cancel(LoggedWork(u[to := job][from := []]), LoggedWork(u), multiset(job), LoggedWork(u[to := job]));
  }

  /** Clearing drops only empty entries. */
  lemma {:induction false} DropEmpty(t: Table, drop: set<Name>)
    requires forall k :: k in drop ==> k in t && t[k] == []
    ensures LoggedWork(t - drop) == LoggedWork(t)
    decreases |drop|
  {
    if drop == {} {
      assert t - drop == t;
    } else {
      assert |drop| > 0;
      var k :| k in drop;
      DropEmpty(t, drop - {k});
      DropOne(t - (drop - {k}), k);
      RemoveLast(t, drop, k);
    }
  }

  lemma DropOne(t: Table, k: Name)
    requires k in t && t[k] == []
    ensures LoggedWork(t - {k}) == LoggedWork(t)
  {
    LoggedRemove(t, k);
  }

  lemma RemoveLast(t: Table, drop: set<Name>, k: Name)
    requires k in drop
    ensures t - (drop - {k}) - {k} == t - drop
  {
  }

  lemma ClearedSets(t: Table, known: set<Name>)
    ensures Orphaned(Cleared(t, known), known) == Orphaned(t, known)
    ensures Idle(Cleared(t, known), known) == Idle(t, known)
  {
  }

  /** The log after clearing and re-homing. */
  ghost function RehomedLog(t: Table, known: set<Name>, moves: seq<Move>): Table {
    Cleared(t, known) + MovesTable(Cleared(t, known), moves)
  }

  /** No logged state is lost or copied ... */
  lemma RehomingKeepsWork(t: Table, moves: seq<Move>, known: set<Name>)
    requires Pairing(moves, Orphaned(t, known), Idle(t, known))
    ensures LoggedWork(RehomedLog(t, known, moves)) == LoggedWork(t)
  {
    ClearedSets(t, known);
    DropEmpty(t, set k | k in t && k !in known && t[k] == []);
    RehomingConserves(Cleared(t, known), moves, known);
  }

  /** ... each move takes an orphaned job to a client that had none ... */
  lemma {:induction false} RehomingMoves(t: Table, moves: seq<Move>, known: set<Name>, i: nat)
    requires Pairing(moves, Orphaned(t, known), Idle(t, known)) && i < |moves|
    ensures var u, m := RehomedLog(t, known, moves), moves[i];
            && m.from !in known && JobOf(t, m.from) != [] && JobOf(u, m.from) == []
            && m.to in known && JobOf(t, m.to) == [] && JobOf(u, m.to) == JobOf(t, m.from)
  {
    var c, m := Cleared(t, known), moves[i];
    ClearedSets(t, known);
    ClearedJobs(t, known, m.from);
    PairingAt(moves, Orphaned(c, known), Idle(c, known), i);
    MovedJobs(c, moves, Orphaned(c, known), Idle(c, known), m.from);
    ReceiverHolds(c, moves, Orphaned(c, known), Idle(c, known), i);
  }

  /** ... and every other job stays where it is. */
  lemma RehomingLeavesOthers(t: Table, moves: seq<Move>, known: set<Name>, k: Name)
    requires Pairing(moves, Orphaned(t, known), Idle(t, known))
    requires JobOf(t, k) != [] && k !in Donors(moves)
    ensures JobOf(RehomedLog(t, known, moves), k) == JobOf(t, k)
  {
    ClearedSets(t, known);
    ClearedJobs(t, known, k);
    MovedJobs(Cleared(t, known), moves, Orphaned(t, known), Idle(t, known), k);
  }

  /** In particular a connected client never loses its job. */
  lemma {:induction false} ConnectedKeepTheirJobs(t: Table, moves: seq<Move>, known: set<Name>, k: Name)
    requires Pairing(moves, Orphaned(t, known), Idle(t, known))
    requires k in known && JobOf(t, k) != []
    ensures JobOf(RehomedLog(t, known, moves), k) == JobOf(t, k)
  {
    ClearedSets(t, known);
    MovedJobs(Cleared(t, known), moves, Orphaned(t, known), Idle(t, known), k);
    RehomingLeavesOthers(t, moves, known, k);
  }

  lemma {:induction false} PairingAt(moves: seq<Move>, donors: set<Name>, receivers: set<Name>, i: nat)
    requires Pairing(moves, donors, receivers) && i < |moves|
    ensures moves[i].from in donors && moves[i].to in receivers
    ensures moves[i].from in Donors(moves)
  {
    if i < |moves| - 1 {
      PairingAt(moves[..|moves| - 1], donors, receivers, i);
    }
  }

  /** A pairing uses no donor and no receiver twice; that is all it asks for. */
  lemma {:induction false} PairingMeans(moves: seq<Move>, donors: set<Name>, receivers: set<Name>)
    ensures Pairing(moves, donors, receivers) <==>
            && (forall i :: 0 <= i < |moves| ==> moves[i].from in donors && moves[i].to in receivers)
            && (forall i, j :: 0 <= i < j < |moves| ==> moves[i].from != moves[j].from && moves[i].to != moves[j].to)
  {
    if moves != [] {
      var rest, m := moves[..|moves| - 1], moves[|moves| - 1];
      PairingMeans(rest, donors, receivers);
      InvolvedAt(rest);
      assert forall i :: 0 <= i < |rest| ==> moves[i] == rest[i];
    }
  }

  /** Donors and receivers are those that some move names. */
  lemma {:induction false} InvolvedAt(moves: seq<Move>)
    ensures forall k :: k in Donors(moves) <==> exists i :: 0 <= i < |moves| && moves[i].from == k
    ensures forall k :: k in Receivers(moves) <==> exists i :: 0 <= i < |moves| && moves[i].to == k
  {
    if moves != [] {
      var rest := moves[..|moves| - 1];
      InvolvedAt(rest);
      assert forall i :: 0 <= i < |rest| ==> moves[i] == rest[i];
    }
  }

  /** No client is ever asked to divide with itself, and none that has no logged work. */
  lemma RequestsAreProper(t: Table, known: set<Name>, receivers: set<Name>, requests: seq<Move>, i: nat)
    requires Pairing(requests, known - Idle(t, known), Idle(t, known) - receivers) && i < |requests|
    ensures requests[i].from != requests[i].to
    ensures requests[i].from in known && JobOf(t, requests[i].from) != []
    ensures requests[i].to in known && JobOf(t, requests[i].to) == []
  {
    PairingAt(requests, known - Idle(t, known), Idle(t, known) - receivers, i);
  }

  /** When Terminate goes out, no job is handed out any more. */
  lemma NothingAfterTerminate(t: Table, known: set<Name>, moves: seq<Move>, requests: seq<Move>)
    requires NothingLogged(t)
    requires |moves| == Min(|Orphaned(t, known)|, |Idle(t, known)|)
    requires |requests| == Min(|known - Idle(t, known)|, |Idle(t, known) - Receivers(moves)|)
    ensures moves == [] && requests == []
  {
  }

  // ---------- who is asked to divide ----------

  /** The loop that pairs working clients with those that still need a job. */
  method PairRequests(workingClients: set<Name>, needJob: set<Name>) returns (requests: seq<Move>)
    ensures Pairing(requests, workingClients, needJob)
    ensures |requests| == Min(|workingClients|, |needJob|)
  {
    requests := [];
    var working, need := workingClients, needJob;
    while working != {}
      invariant Unpaired(requests, workingClients, needJob, working, need)
      decreases |working|
    {
      if |need| == 0 {
        break;
      }
      var workingClient :| workingClient in working;
      var needsJob :| needsJob in need;
      PairOne(requests, Move(workingClient, needsJob), workingClients, needJob, working, need);
      working := working - {workingClient};
      need := need - {needsJob};
      requests := requests + [Move(workingClient, needsJob)];
    }
  }
}
