// The actor that reads datagrams: it acknowledges and hands over election
// messages, and re-arms itself after each datagram, with one exception.
module UdpReceiver {
  import opened Options
  import opened ElectionServer

  // The fields a payload may have, each there and of the right type, or not.
  datatype Payload = Payload(
    serverIds: Option<seq<nat>>,
    deadLeader: Option<nat>,
    leaderId: Option<nat>,
    idSender: Option<nat>,
    id: Option<nat>,
    message: Option<string>,
    seqNo: Option<nat>)

  // What is read: nothing, or a message with a name, which is empty when the
  // text is not a message at all.
  datatype Datagram = Unreadable | Text(src: nat, name: string, payload: Payload)

  datatype Output =
    | SendAck(to: nat, ackId: nat, seqNo: nat)
    | ToServer(src: nat, msg: Message)
    | AckToServer(ackId: nat, seqNo: nat)
    | LeaderTo(src: nat)

  // A name that is known, with a field that the name asks for and that is missing.
  predicate Broken(d: Datagram) {
    d.Text? && var p := d.payload;
    match d.name
    case "election" => p.serverIds.None? || p.deadLeader.None? || p.seqNo.None?
    case "new_leader" => p.leaderId.None? || p.idSender.None? || p.seqNo.None?
    case "ack" => p.id.None? || p.message.None? || p.seqNo.None?
    case _ => false
  }

  function Outputs(d: Datagram): seq<Output> {
    if d.Unreadable? || Broken(d) then []
    else if d.name == "election" then
      var msg := Election(d.payload.serverIds.value, d.payload.deadLeader.value, d.payload.seqNo.value);
      [SendAck(d.src, 0, msg.seqNo), ToServer(d.src, msg)]
    else if d.name == "new_leader" then
      var msg := NewLeader(d.payload.idSender.value, d.payload.leaderId.value, d.payload.seqNo.value);
      [SendAck(d.src, 0, msg.seqNo), ToServer(d.src, msg)]
    else if d.name == "ack" then [AckToServer(d.payload.id.value, d.payload.seqNo.value)]
    else if d.name == "get_leader" then [LeaderTo(d.src)]
    else []
  }

  // The datagram is msg, from src, with every field in place.
  predicate Is(d: Datagram, src: nat, msg: Message) {
    d.Text? && d.src == src && d.payload.seqNo == Some(msg.seqNo)
    && match msg
       case Election(ids, dead, _) =>
         d.name == "election" && d.payload.serverIds == Some(ids) && d.payload.deadLeader == Some(dead)
       case NewLeader(sender, leader, _) =>
         d.name == "new_leader" && d.payload.idSender == Some(sender) && d.payload.leaderId == Some(leader)
  }

  lemma OutputsToServer(d: Datagram, src: nat, msg: Message)
    ensures ToServer(src, msg) in Outputs(d) <==> Is(d, src, msg)
    ensures Is(d, src, msg) ==> Outputs(d) == [SendAck(src, 0, msg.seqNo), ToServer(src, msg)]
  {
  }

  lemma OutputsAck(d: Datagram, to: nat, ackId: nat, seqNo: nat)
    ensures SendAck(to, ackId, seqNo) in Outputs(d) <==>
      ackId == 0 && exists msg: Message :: msg.seqNo == seqNo && Is(d, to, msg)
  {
    if SendAck(to, ackId, seqNo) in Outputs(d) {
      var p := d.payload;
      var msg := if d.name == "election" then Election(p.serverIds.value, p.deadLeader.value, seqNo)
                 else NewLeader(p.idSender.value, p.leaderId.value, seqNo);
      assert Is(d, to, msg);
    }
  }

  class Receiver {
    var listening: bool
    var outputs: seq<Output>

    constructor ()
      ensures listening && outputs == []
    {
      listening := true;
      outputs := [];
    }

    // One round of Listen; it leaves the receiver armed for the next or not.
    method Listen(d: Datagram)
      requires listening
      modifies this
      ensures (listening, outputs) == Round((true, old(outputs)), d)
    {
      listening := false;
      assert outputs + [] == outputs;
      if d.Unreadable? {
        listening := true;
        return;
      }
      var p := d.payload;
      if d.name == "election" {
        if p.serverIds.None? { return; }
        if p.deadLeader.None? { return; }
        if p.seqNo.None? { return; }
        var msg := Election(p.serverIds.value, p.deadLeader.value, p.seqNo.value);
        AcknowledgeAndHandOver(d.src, msg);
      } else if d.name == "new_leader" {
        if p.leaderId.None? { return; }
        if p.idSender.None? { return; }
        if p.seqNo.None? { return; }
        var msg := NewLeader(p.idSender.value, p.leaderId.value, p.seqNo.value);
        AcknowledgeAndHandOver(d.src, msg);
      } else if d.name == "ack" {
        if p.id.None? { return; }
        if p.message.None? { return; }
        if p.seqNo.None? { return; }
        outputs := outputs + [AckToServer(p.id.value, p.seqNo.value)];
      } else if d.name == "get_leader" {
        outputs := outputs + [LeaderTo(d.src)];
      }
      listening := true;
    }

    method AcknowledgeAndHandOver(src: nat, msg: Message)
      modifies this`outputs
      ensures outputs == old(outputs) + [SendAck(src, 0, msg.seqNo), ToServer(src, msg)]
    {
      outputs := outputs + [SendAck(src, 0, msg.seqNo)];
      outputs := outputs + [ToServer(src, msg)];
    }
  }

  // A receiver, armed or not, and one more datagram.
  function Round(r: (bool, seq<Output>), d: Datagram): (bool, seq<Output>) {
    if r.0 then (!Broken(d), r.1 + Outputs(d)) else r
  }

  function After(ds: seq<Datagram>): (bool, seq<Output>)
    decreases |ds|
  {
    if ds == [] then (true, []) else Round(After(ds[..|ds| - 1]), ds[|ds| - 1])
  }

  predicate NoneBroken(ds: seq<Datagram>) {
    forall d | d in ds :: !Broken(d)
  }

  // The receiver still listens iff no known name has come with a field missing.
  lemma {:induction false} ListensIff(ds: seq<Datagram>)
    ensures After(ds).0 <==> NoneBroken(ds)
  {
    if ds != [] {
      ListensIff(ds[..|ds| - 1]);
      assert ds == ds[..|ds| - 1] + [ds[|ds| - 1]];
    }
  }

  // Datagram k is read while the receiver still listens, and yields x.
  predicate Yields(ds: seq<Datagram>, k: nat, x: Output) {
    k < |ds| && x in Outputs(ds[k]) && NoneBroken(ds[..k])
  }

  lemma YieldsInFront(ds: seq<Datagram>, k: nat, x: Output)
    requires ds != []
    ensures Yields(ds, k, x) <==>
      if k == |ds| - 1 then x in Outputs(ds[k]) && NoneBroken(ds[..k]) else Yields(ds[..|ds| - 1], k, x)
  {
    if k < |ds| - 1 {
      assert ds[..|ds| - 1][..k] == ds[..k];
    }
  }

  lemma {:induction false} OutputsIff(ds: seq<Datagram>, x: Output)
    ensures x in After(ds).1 <==> exists k: nat :: Yields(ds, k, x)
  {
    if ds != [] {
      var front, last := ds[..|ds| - 1], |ds| - 1;
      OutputsIff(front, x);
      ListensIff(front);
      if k: nat :| Yields(front, k, x) {
        YieldsInFront(ds, k, x);
        assert Yields(ds, k, x);
      }
      YieldsInFront(ds, last, x);
      if k: nat :| Yields(ds, k, x) {
        YieldsInFront(ds, k, x);
        assert k == last || Yields(front, k, x);
      }
    }
  }

  // A message reaches the server iff it came whole, and before the first broken
  // datagram, which leaves the receiver deaf.
  lemma HandedOverIff(ds: seq<Datagram>, src: nat, msg: Message)
    ensures ToServer(src, msg) in After(ds).1 <==>
      exists k: nat :: k < |ds| && Is(ds[k], src, msg) && NoneBroken(ds[..k])
  {
    var x := ToServer(src, msg);
    OutputsIff(ds, x);
    if k: nat :| Yields(ds, k, x) {
      OutputsToServer(ds[k], src, msg);
      assert Is(ds[k], src, msg);
    }
    if k: nat :| k < |ds| && Is(ds[k], src, msg) && NoneBroken(ds[..k]) {
      OutputsToServer(ds[k], src, msg);
      assert Yields(ds, k, x);
    }
  }

  // Acks go out for messages handed over, for those only, and under id 0.
  lemma AckedIffHandedOver(ds: seq<Datagram>, to: nat, ackId: nat, seqNo: nat)
    ensures SendAck(to, ackId, seqNo) in After(ds).1 <==>
      ackId == 0 && exists msg: Message :: msg.seqNo == seqNo && ToServer(to, msg) in After(ds).1
  {
    var ack := SendAck(to, ackId, seqNo);
    OutputsIff(ds, ack);
    if k: nat :| Yields(ds, k, ack) {
      OutputsAck(ds[k], to, ackId, seqNo);
      var msg: Message :| msg.seqNo == seqNo && Is(ds[k], to, msg);
      HandedOverIff(ds, to, msg);
    }
    if ackId == 0 {
      if msg: Message :| msg.seqNo == seqNo && ToServer(to, msg) in After(ds).1 {
        HandedOverIff(ds, to, msg);
        var k: nat :| k < |ds| && Is(ds[k], to, msg) && NoneBroken(ds[..k]);
        OutputsToServer(ds[k], to, msg);
        assert Yields(ds, k, ack);
      }
    }
  }

  // The datagram is an ack, with every field in place.
  predicate IsAck(d: Datagram, ackId: nat, seqNo: nat) {
    d.Text? && d.name == "ack" && d.payload.message.Some?
    && d.payload.id == Some(ackId) && d.payload.seqNo == Some(seqNo)
  }

  lemma OutputsAckToServer(d: Datagram, ackId: nat, seqNo: nat)
    ensures AckToServer(ackId, seqNo) in Outputs(d) <==> IsAck(d, ackId, seqNo)
    ensures IsAck(d, ackId, seqNo) ==> Outputs(d) == [AckToServer(ackId, seqNo)]
  {
  }

  // An ack reaches the server, with its id and its number, iff it came whole and
  // before the first broken datagram.
  lemma AckHandedOverIff(ds: seq<Datagram>, ackId: nat, seqNo: nat)
    ensures AckToServer(ackId, seqNo) in After(ds).1 <==>
      exists k: nat :: k < |ds| && IsAck(ds[k], ackId, seqNo) && NoneBroken(ds[..k])
  {
    var x := AckToServer(ackId, seqNo);
    OutputsIff(ds, x);
    if k: nat :| Yields(ds, k, x) {
      OutputsAckToServer(ds[k], ackId, seqNo);
      assert IsAck(ds[k], ackId, seqNo);
    }
    if k: nat :| k < |ds| && IsAck(ds[k], ackId, seqNo) && NoneBroken(ds[..k]) {
      OutputsAckToServer(ds[k], ackId, seqNo);
      assert Yields(ds, k, x);
    }
  }

  predicate AsksLeader(d: Datagram, src: nat) {
    d.Text? && d.name == "get_leader" && d.src == src
  }

  lemma OutputsLeaderTo(d: Datagram, src: nat)
    ensures LeaderTo(src) in Outputs(d) <==> AsksLeader(d, src)
  {
  }

  // Who asks for the leader is handed over as well, under the same condition.
  lemma LeaderAskedIff(ds: seq<Datagram>, src: nat)
    ensures LeaderTo(src) in After(ds).1 <==>
      exists k: nat :: k < |ds| && AsksLeader(ds[k], src) && NoneBroken(ds[..k])
  {
    var x := LeaderTo(src);
    OutputsIff(ds, x);
    if k: nat :| Yields(ds, k, x) {
      OutputsLeaderTo(ds[k], src);
      assert AsksLeader(ds[k], src);
    }
    if k: nat :| k < |ds| && AsksLeader(ds[k], src) && NoneBroken(ds[..k]) {
      OutputsLeaderTo(ds[k], src);
      assert Yields(ds, k, x);
    }
  }

  // What SendAck puts on the wire.
  function AckText(src: nat, ackId: nat, message: string, seqNo: nat): Datagram {
    Text(src, "ack", Payload(None, None, None, None, Some(ackId), Some(message), Some(seqNo)))
  }

  // The round trip: a message that was handed over at its receiver is answered
  // with an ack that has its sender s mark its number and take nobody off its list.
  lemma AckRoundTrip(ds: seq<Datagram>, s: Server, peer: nat, msg: Message, text: string)
    requires ToServer(s.id, msg) in After(ds).1 && 0 !in s.disconnected
    ensures SendAck(s.id, 0, msg.seqNo) in After(ds).1
    ensures var back := [AckText(peer, 0, text, msg.seqNo)];
      && After(back) == (true, [AckToServer(0, msg.seqNo)])
      && OnAck(s, 0, msg.seqNo) == Reaction(s.(acked := s.acked + {msg.seqNo}), [])
  {
    AckedIffHandedOver(ds, s.id, 0, msg.seqNo);
    var back := [AckText(peer, 0, text, msg.seqNo)];
    OutputsAckToServer(back[0], 0, msg.seqNo);
    assert back[..0] == [] && After([]) == (true, []);
    assert [] + Outputs(back[0]) == Outputs(back[0]);
    WithoutAbsent(s.disconnected, 0);
  }
}
