// One replica's part in the ring election: its state, the messages it
// exchanges, and what each handler does to them.
module ElectionServer {
  import opened Ring

  datatype Message =
    | Election(serverIds: seq<nat>, deadLeader: nat, seqNo: nat)
    | NewLeader(idSender: nat, leaderId: nat, seqNo: nat)
  {
    // The server that numbered the message: the last one to sign an Election,
    // the sender of a NewLeader.
    function Origin(): nat {
      if NewLeader? then idSender
      else if serverIds == [] then 0
      else serverIds[|serverIds| - 1]
    }

    // The servers it speaks for.
    function Names(): set<nat> {
      if NewLeader? then {leaderId} else set x | x in serverIds
    }
  }

  // Everything that can be outstanding: a datagram on the wire, a message in
  // a mailbox (src is where it came from), an ack on the wire, an armed
  // WaitForNeighborAck for msg.seqNo, a queued ConnectToServer or StartElection.
  datatype Item =
    | Udp(src: nat, dst: nat, msg: Message)
    | Mail(dst: nat, src: nat, msg: Message)
    | Ack(dst: nat, ackId: nat, seqNo: nat)
    | Wait(owner: nat, neighbor: nat, msg: Message)
    | Connect(owner: nat)
    | Begin(owner: nat)
  {
    // The server that handles the item.
    function Owner(): nat {
      if Wait? || Connect? || Begin? then owner else dst
    }

    predicate HasMessage() { Udp? || Mail? || Wait? }
  }

  datatype Server = Server(
    id: nat,
    idLeader: nat,
    imLeader: bool,
    connected: bool,
    disconnected: seq<nat>,
    neighbor: nat,
    seqNo: nat,
    acked: set<nat>)

  datatype Reaction = Reaction(server: Server, items: seq<Item>)

  function Refresh(n: nat, s: Server): (Server, bool) {
    var (neighbor, ok) := UpdateNeighbor(n, s.id, s.disconnected, s.neighbor);
    (s.(neighbor := neighbor), ok)
  }

  // Nobody else answers: the server sends itself the news that it leads.
  function Declare(s: Server): Reaction {
    Reaction(s.(seqNo := s.seqNo + 1), [Mail(s.id, s.id, NewLeader(s.id, s.id, s.seqNo))])
  }

  // Send to the neighbour and arm the wait for its ack.
  function Post(s: Server, msg: Message): seq<Item> {
    [Udp(s.id, s.neighbor, msg), Wait(s.id, s.neighbor, msg)]
  }

  function HangUp(s: Server, hungUp: bool): Server {
    s.(connected := s.connected && !hungUp)
  }

  // A ping that misses the leader has the server send itself StartElection. One
  // that finds the connection closed forgets it; one without an answer in time
  // does not.
  function OnPing(s: Server, hungUp: bool): Reaction {
    Reaction(HangUp(s, hungUp), [Begin(s.id)])
  }

  function OnStartElection(n: nat, s: Server): Reaction {
    var (s2, ok) := Refresh(n, s.(disconnected := s.disconnected + [s.idLeader]));
    if !ok then Declare(s2)
    else Reaction(s2.(seqNo := s.seqNo + 2), Post(s2, Election([s.id], s.idLeader, s.seqNo)))
  }

  function OnCheck(n: nat, s: Server, neighbor: nat, msg: Message): Reaction {
    if msg.seqNo in s.acked then Reaction(s, [])
    else
      var (s2, ok) := Refresh(n, s.(disconnected := s.disconnected + [neighbor]));
      if !ok then Declare(s2) else Reaction(s2, Post(s2, msg))
  }

  // The greatest id of a list, 0 for an empty one.
  function MaxId(ids: seq<nat>): nat {
    if ids == [] then 0
    else
      var rest := MaxId(ids[..|ids| - 1]);
      if ids[|ids| - 1] > rest then ids[|ids| - 1] else rest
  }

  lemma {:induction false} MaxIdIsMax(ids: seq<nat>)
    ensures forall x | x in ids :: x <= MaxId(ids)
    ensures ids != [] ==> MaxId(ids) in ids
  {
    if ids != [] {
      var front, last := ids[..|ids| - 1], ids[|ids| - 1];
      MaxIdIsMax(front);
      forall x | x in ids ensures x <= MaxId(ids) {
        assert x in front || x == last;
      }
      if MaxId(ids) != last {
        assert MaxId(ids) == MaxId(front) && MaxId(front) in front;
      }
    }
  }

  function OnElection(n: nat, s: Server, msg: Message): Reaction
    requires msg.Election?
  {
    var (s2, ok) := Refresh(n, s.(
      disconnected := s.disconnected + [msg.deadLeader],
      connected := s.connected && s.idLeader != msg.deadLeader));
    if !ok then Declare(s2)
    else if s.id in msg.serverIds then
      var leader := MaxId(msg.serverIds);
      Reaction(s2.(idLeader := leader, seqNo := s.seqNo + 1),
               Post(s2, NewLeader(s.id, leader, s.seqNo)))
    else
      Reaction(s2.(seqNo := s.seqNo + 1),
               Post(s2, Election(msg.serverIds + [s.id], msg.deadLeader, s.seqNo)))
  }

  function OnNewLeader(n: nat, s: Server, msg: Message): Reaction
    requires msg.NewLeader?
  {
    var s1 := s.(idLeader := msg.leaderId, imLeader := s.imLeader || msg.leaderId == s.id);
    var r :=
      if msg.idSender == s.id then Reaction(s1, [])
      else
        var (s2, ok) := Refresh(n, s1);
        if !ok then Declare(s2) else Reaction(s2, Post(s2, msg));
    if msg.leaderId != s.id && !s.connected then Reaction(r.server, r.items + [Connect(s.id)])
    else r
  }

  function Without(ids: seq<nat>, id: nat): seq<nat> {
    if ids == [] then []
    else
      var rest := Without(ids[..|ids| - 1], id);
      if ids[|ids| - 1] == id then rest else rest + [ids[|ids| - 1]]
  }

  lemma {:induction false} WithoutAbsent(ids: seq<nat>, id: nat)
    requires id !in ids
    ensures Without(ids, id) == ids
  {
    if ids != [] {
      WithoutAbsent(ids[..|ids| - 1], id);
    }
  }

  lemma {:induction false} WithoutIff(ids: seq<nat>, id: nat, x: nat)
    ensures x in Without(ids, id) <==> x in ids && x != id
  {
    if ids != [] {
      var front, last := ids[..|ids| - 1], ids[|ids| - 1];
      WithoutIff(front, id, x);
      assert ids == front + [last];
    }
  }

  function OnAck(s: Server, ackId: nat, seqNo: nat): Reaction {
    Reaction(s.(disconnected := Without(s.disconnected, ackId), acked := s.acked + {seqNo}), [])
  }

  // `reached` says whether the TCP connection to the leader could be made.
  function OnConnect(s: Server, reached: bool): Reaction {
    Reaction(s.(connected := s.connected || reached), [])
  }

  // What the receiver does with a datagram: acknowledge it under id 0 and hand
  // it to the server's mailbox.
  function OnDatagram(s: Server, src: nat, dst: nat, msg: Message): Reaction {
    Reaction(s, [Ack(src, 0, msg.seqNo), Mail(dst, src, msg)])
  }

  function React(n: nat, s: Server, item: Item, reached: bool): Reaction {
    match item
    case Udp(src, dst, msg) => OnDatagram(s, src, dst, msg)
    case Mail(_, _, msg) => if msg.Election? then OnElection(n, s, msg) else OnNewLeader(n, s, msg)
    case Ack(_, id, seqNo) => OnAck(s, id, seqNo)
    case Wait(_, neighbor, msg) => OnCheck(n, s, neighbor, msg)
    case Connect(_) => OnConnect(s, reached)
    case Begin(_) => OnStartElection(n, s)
  }
}
