/** The part of `NetworkManager` that elects the leader and keeps the table of connections. */
module NetworkManagers {
  import opened Basics
  import opened Elections
  import opened Connections

  class NetworkManager {
    const networkId: Id
    var clientConnections: Connected
    var leaderId: Option<Id>
    var leader: bool
    var electionParticipant: bool
    var lostLeader: bool

    constructor (networkId: Id)
      ensures this.networkId == networkId && clientConnections == map[] && !lostLeader
      ensures Valid() && View() == ElectState(None, false, false)
    {
      this.networkId := networkId;
      clientConnections := map[];
      leaderId := None;
      leader := false;
      electionParticipant := false;
      lostLeader := false;
    }

    /** The node never holds a connection to itself, and every end is filed under its peer. */
    ghost predicate Valid()
      reads this
    {
      networkId !in clientConnections && Filed(clientConnections)
    }

    ghost function View(): ElectState
      reads this
    {
      ElectState(leaderId, leader, electionParticipant)
    }

    /** Sends only to connected clients. */
    method SendMsg(body: Body, dest: Option<Id>) returns (sent: set<Packet>)
      ensures sent == if dest.Some? && dest.value in clientConnections then {Packet(networkId, dest.value, body)} else {}
    {
      if dest.Some? && dest.value in clientConnections {
        sent := {Packet(networkId, dest.value, body)};
      } else {
        sent := {};
      }
    }

    /** The loop visits the connections in the order of the hash map, given here. */
    method GetNextId(prev: Id, order: seq<Id>) returns (next: Option<Id>)
      requires Elems(order) == clientConnections.Keys
      ensures next == NextId(clientConnections.Keys, prev)
    {
      var leastLargerThan: Option<Id> := None;
      var least: Option<Id> := None;
      for i := 0 to |order|
        invariant leastLargerThan.None? ==> forall k :: 0 <= k < i ==> order[k] <= prev
        invariant leastLargerThan.Some? ==> leastLargerThan.value in order && leastLargerThan.value > prev
        invariant leastLargerThan.Some? ==> forall k :: 0 <= k < i && order[k] > prev ==> leastLargerThan.value <= order[k]
        invariant least.None? ==> forall k :: 0 <= k < i ==> order[k] >= prev
        invariant least.Some? ==> least.value in order && least.value < prev
        invariant least.Some? ==> forall k :: 0 <= k < i && order[k] < prev ==> order[k] <= least.value
      {
        var otherId := order[i];
        if (leastLargerThan.None? || otherId < leastLargerThan.value) && otherId > prev {
          leastLargerThan := Some(otherId);
        }
        if (least.None? || least.value < otherId) && otherId < prev {
          least := Some(otherId);
        }
      }
      NextFromScan(order, prev, leastLargerThan, least);
      next := if leastLargerThan.Some? then leastLargerThan else least;
    }

    method OnElectionMessage(sender: Id, electId: Id, order: seq<Id>) returns (sent: set<Packet>)
      requires Valid() && Elems(order) == clientConnections.Keys
      modifies this`leaderId, this`leader, this`electionParticipant
      ensures Valid() && View() == ElectionState(networkId, old(View()), electId)
      ensures sent == ElectionReplies(networkId, clientConnections.Keys, old(View()), sender, electId)
      ensures View() == if old(leaderId).None? && electId == networkId then ElectState(Some(networkId), true, false)
                        else old(View())
    {
      NextIsPeer(clientConnections.Keys, networkId);
      if leaderId.Some? {
        sent := SendMsg(KnownLeader(leaderId.value), Some(sender));
        return;
      }
      sent := {};
      if electId > networkId {
        var next := GetNextId(networkId, order);
        sent := SendMsg(Election(electId), next);
      } else if electId < networkId && !electionParticipant {
        var next := GetNextId(networkId, order);
        sent := SendMsg(Election(networkId), next);
      } else if electId == networkId {
        leaderId := Some(networkId);
        leader := true;
        electionParticipant := false;
        var next := GetNextId(networkId, order);
        sent := SendMsg(Elected(networkId), next);
      }
    }

    method OnElectedMessage(electId: Id)
      requires Valid()
      modifies this`leaderId, this`leader, this`electionParticipant
      ensures Valid() && View() == LeaderState(networkId, old(View()), electId)
      ensures View() == if electId == networkId then old(View()) else ElectState(Some(electId), false, false)
    {
      if electId == networkId {
        return;
      }
      electionParticipant := false;
      leaderId := Some(electId);
      leader := false;
    }

    method OnKnownLeaderMessage(electId: Id)
      requires Valid()
      modifies this`leaderId, this`leader, this`electionParticipant
      ensures Valid() && View() == LeaderState(networkId, old(View()), electId)
      ensures View() == if electId == networkId then old(View()) else ElectState(Some(electId), false, false)
    {
      if electId == networkId {
        return;
      }
      electionParticipant := false;
      leaderId := Some(electId);
      leader := false;
    }

    /** `due`: discovery is over and the election timeout has passed; `alone`: so have ten seconds. */
    method Step(due: bool, alone: bool, order: seq<Id>) returns (sent: set<Packet>)
      requires Valid() && Elems(order) == clientConnections.Keys
      modifies this`leaderId, this`leader, this`lostLeader
      ensures Valid()
      ensures sent == if due then TimeoutSends(networkId, clientConnections.Keys, old(View())) else {}
      ensures var peers := clientConnections.Keys;
              var st := if due && (alone || peers != {}) then TimeoutState(networkId, peers, old(View())) else old(View());
              var gone := old(lostLeader) && (st.leaderId.None? || st.leaderId.value !in clientConnections);
              && View() == (if gone then ElectState(None, false, st.participant) else st)
              && lostLeader == (old(lostLeader) && !gone)
    {
      NextIsPeer(clientConnections.Keys, networkId);
      sent := {};
      if due && leaderId.None? {
        var destId := GetNextId(networkId, order);
        if destId.None? {
          if alone {
            leader := true;
            leaderId := Some(networkId);
          }
        } else {
          sent := SendMsg(Election(networkId), destId);
        }
      }
      if lostLeader {
        if leaderId.None? || leaderId.value !in clientConnections {
          leader := false;
          lostLeader := false;
          leaderId := None;
        }
      }
    }

    method AddOrDiscardClient(client: End) returns (added: bool)
      requires Valid()
      modifies this`clientConnections
      ensures Valid() && added == Accepts(networkId, old(clientConnections), client)
      ensures clientConnections == Added(networkId, old(clientConnections), client)
    {
      var id := client.Peer();
      if id == networkId {
        return false;
      }
      if id !in clientConnections {
        clientConnections := clientConnections[id := client];
        return true;
      }
      if (id < networkId) == client.isClient {
        clientConnections := clientConnections[id := client];
        return true;
      }
      return false;
    }

    method DiscardClient(client: End)
      requires Valid()
      modifies this`clientConnections, this`lostLeader
      ensures Valid() && clientConnections == Discarded(old(clientConnections), client)
      ensures forall p :: p in clientConnections <==> p in old(clientConnections) && old(clientConnections)[p] != client
      ensures forall p :: p in clientConnections ==> clientConnections[p] == old(clientConnections)[p]
      ensures lostLeader == (old(lostLeader) || (client.Peer() in old(clientConnections) && leaderId == Some(client.Peer())))
    {
      var id := client.Peer();
      if id !in clientConnections {
        return;
      }
      if clientConnections[id] == client {
        clientConnections := clientConnections - {id};
      }
      if leaderId == Some(id) {
        lostLeader := true;
      }
    }
  }

  lemma NextIsPeer(peers: set<Id>, me: Id)
    requires me !in peers
    ensures NextId(peers, me).Some? ==> NextId(peers, me).value in peers
    ensures NextId(peers, me).None? <==> peers == {}
  {
  }

  /** The two candidates of a full scan decide the successor. */
  lemma NextFromScan(order: seq<Id>, prev: Id, up: Option<Id>, down: Option<Id>)
    requires up.None? ==> forall k :: 0 <= k < |order| ==> order[k] <= prev
    requires up.Some? ==> up.value in order && up.value > prev
    requires up.Some? ==> forall k :: 0 <= k < |order| && order[k] > prev ==> up.value <= order[k]
    requires down.None? ==> forall k :: 0 <= k < |order| ==> order[k] >= prev
    requires down.Some? ==> down.value in order && down.value < prev
    requires down.Some? ==> forall k :: 0 <= k < |order| && order[k] < prev ==> order[k] <= down.value
    ensures NextId(Elems(order), prev) == if up.Some? then up else down
  {
    var peers := Elems(order);
    var larger, smaller := Larger(peers, prev), Smaller(peers, prev);
    if up.Some? {
      assert up.value in larger;
      assert Least(larger) in order;
    } else {
      assert larger == {};
      if down.Some? {
        assert down.value in smaller;
        assert Greatest(smaller) in order;
      } else {
        assert smaller == {};
      }
    }
  }
}
