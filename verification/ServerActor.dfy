// The server actor as the program keeps it: fields that the handlers update.
// Each handler is tied to its function in ElectionServer.
module ServerActor {
  import opened Ring
  import opened ElectionServer

  class Replica {
    const maxServers: nat
    const id: nat
    var idLeader: nat
    var imLeader: bool
    var connected: bool
    var disconnected: seq<nat>
    var neighbor: nat
    var seqNo: nat
    var acks: map<nat, bool>

    ghost function State(): Server
      reads this
    {
      Server(id, idLeader, imLeader, connected, disconnected, neighbor, seqNo, acks.Keys)
    }

    // A replica as it boots, before it has found a leader.
    constructor (maxServers: nat, id: nat)
      ensures this.maxServers == maxServers
      ensures State() == Server(id, 1, false, false, [], Next(maxServers, id), 0, {})
    {
      this.maxServers := maxServers;
      this.id := id;
      idLeader := 1;
      imLeader := false;
      connected := false;
      disconnected := [];
      neighbor := Next(maxServers, id);
      seqNo := 0;
      acks := map[];
    }

    method RefreshNeighbor() returns (ok: bool)
      modifies this`neighbor
      ensures (State(), ok) == Refresh(maxServers, old(State()))
    {
      if neighbor !in disconnected {
        return true;
      }
      neighbor := Next(maxServers, neighbor);
      var count := 0;
      while true
        invariant count <= maxServers
        invariant Scan(maxServers, id, disconnected, neighbor, maxServers - count)
               == Scan(maxServers, id, disconnected, Next(maxServers, old(neighbor)), maxServers)
        decreases maxServers - count
      {
        if count >= maxServers {
          return false;
        }
        if neighbor !in disconnected && neighbor != id {
          break;
        }
        neighbor := Next(maxServers, neighbor);
        count := count + 1;
      }
      ok := true;
    }

    method DeclareMyself() returns (items: seq<Item>)
      modifies this`seqNo
      ensures Reaction(State(), items) == Declare(old(State()))
    {
      items := [Mail(id, id, NewLeader(id, id, seqNo))];
      seqNo := seqNo + 1;
    }

    method PostToNeighbor(msg: Message) returns (items: seq<Item>)
      ensures items == Post(State(), msg)
    {
      items := [Udp(id, neighbor, msg), Wait(id, neighbor, msg)];
    }

    // `closed`: the connection to the leader turns out to be closed.
    method Ping(closed: bool) returns (items: seq<Item>)
      modifies this`connected
      ensures Reaction(State(), items) ==
        if old(connected) && !imLeader && closed then OnPing(old(State()), true) else Reaction(old(State()), [])
    {
      if !connected {
        return [];
      }
      items := [];
      if !imLeader {
        if closed {
          connected := false;
          items := [Begin(id)];
        }
      }
    }

    method StartElection() returns (items: seq<Item>)
      modifies this
      ensures Reaction(State(), items) == OnStartElection(maxServers, old(State()))
    {
      disconnected := disconnected + [idLeader];
      var ok := RefreshNeighbor();
      if !ok {
        items := DeclareMyself();
        return;
      }
      var msg := Election([id], idLeader, seqNo);
      seqNo := seqNo + 1;
      seqNo := seqNo + 1;
      items := PostToNeighbor(msg);
    }

    method CheckIfNeighborAcked(neighborId: nat, msg: Message) returns (items: seq<Item>)
      modifies this
      ensures Reaction(State(), items) == OnCheck(maxServers, old(State()), neighborId, msg)
    {
      if msg.seqNo in acks {
        return [];
      }
      disconnected := disconnected + [neighborId];
      var ok := RefreshNeighbor();
      if !ok {
        items := DeclareMyself();
        return;
      }
      items := PostToNeighbor(msg);
    }

    method HandleElection(msg: Message) returns (items: seq<Item>)
      requires msg.Election?
      modifies this
      ensures Reaction(State(), items) == OnElection(maxServers, old(State()), msg)
    {
      disconnected := disconnected + [msg.deadLeader];
      if idLeader == msg.deadLeader {
        connected := false;
      }
      var ok := RefreshNeighbor();
      if !ok {
        items := DeclareMyself();
        return;
      }
      if id in msg.serverIds {
        var leader := GreatestId(msg.serverIds);
        idLeader := leader;
        var news := NewLeader(id, leader, seqNo);
        seqNo := seqNo + 1;
        items := PostToNeighbor(news);
        return;
      }
      var election := Election(msg.serverIds + [id], msg.deadLeader, seqNo);
      seqNo := seqNo + 1;
      items := PostToNeighbor(election);
    }

    static method GreatestId(ids: seq<nat>) returns (leader: nat)
      ensures leader == MaxId(ids)
    {
      leader := 0;
      for k := 0 to |ids|
        invariant leader == MaxId(ids[..k])
      {
        assert ids[..k + 1][..k] == ids[..k];
        if ids[k] > leader {
          leader := ids[k];
        }
      }
      assert ids[..|ids|] == ids;
    }

    method HandleNewLeader(msg: Message) returns (items: seq<Item>)
      requires msg.NewLeader?
      modifies this
      ensures Reaction(State(), items) == OnNewLeader(maxServers, old(State()), msg)
    {
      items := [];
      idLeader := msg.leaderId;
      if msg.leaderId == id && !imLeader {
        imLeader := true;
      }
      if msg.idSender != id {
        var ok := RefreshNeighbor();
        if !ok {
          items := DeclareMyself();
        } else {
          items := PostToNeighbor(msg);
        }
      }
      if msg.leaderId != id && !connected {
        items := items + [Connect(id)];
      }
    }

    method HandleNeighborAck(ackId: nat, ackedSeqNo: nat)
      modifies this
      ensures Reaction(State(), []) == OnAck(old(State()), ackId, ackedSeqNo)
    {
      disconnected := Without(disconnected, ackId);
      acks := acks[ackedSeqNo := true];
    }

    method ConnectToServer(reached: bool)
      modifies this`connected
      ensures Reaction(State(), []) == OnConnect(old(State()), reached)
    {
      if reached {
        connected := true;
      }
    }
  }
}
