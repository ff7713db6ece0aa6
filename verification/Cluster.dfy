// All the replicas together, as a transition system. One step is one handler
// call, or something the network or the machines do.
module Cluster {
  import opened Ring
  import opened ElectionServer

  // `pending` holds every outstanding item; any of them may be next, so nothing
  // is assumed about order. `sent` is history: every message ever posted.
  datatype Cluster = Cluster(
    n: nat,
    servers: map<nat, Server>,
    crashed: set<nat>,
    pending: seq<Item>,
    sent: set<Message>)

  datatype Step =
    | Ping(id: nat, hungUp: bool)       // a server's ping misses the leader
    | Handle(index: nat, reached: bool) // the owner of an item handles it
    | Duplicate(index: nat)             // the network delivers a datagram once more
    | Lose(index: nat)                  // a datagram, or an item of a crashed server, is gone
    | Crash(id: nat)

  predicate InRange(n: nat, item: Item) {
    match item
    case Udp(src, dst, _) => Id(n, src) && Id(n, dst)
    case Mail(dst, src, _) => Id(n, src) && Id(n, dst)
    case Ack(dst, _, _) => Id(n, dst)
    case Wait(owner, neighbor, _) => Id(n, owner) && Id(n, neighbor)
    case Connect(owner) => Id(n, owner)
    case Begin(owner) => Id(n, owner)
  }

  ghost predicate Valid(c: Cluster) {
    && (forall i: nat :: i in c.servers <==> 1 <= i <= c.n)
    && (forall i | i in c.servers :: c.servers[i].id == i && 1 <= c.servers[i].neighbor <= c.n)
    && (forall x | x in c.pending :: InRange(c.n, x))
  }

  predicate Live(c: Cluster, i: nat) {
    Id(c.n, i) && i !in c.crashed
  }

  // Who the server takes for the leader is there to be connected to.
  predicate LeaderListens(c: Cluster, i: nat) {
    i in c.servers
    && var leader := c.servers[i].idLeader;
       Live(c, leader) && leader in c.servers && c.servers[leader].imLeader
  }

  // Only a server with a connection to its leader, and that does not lead
  // itself, pings.
  predicate Enabled(c: Cluster, step: Step) {
    match step
    case Ping(i, _) => Live(c, i) && i in c.servers && c.servers[i].connected && !c.servers[i].imLeader
    case Handle(k, reached) =>
      k < |c.pending| && Live(c, c.pending[k].Owner())
      && (c.pending[k].Connect? && reached ==> LeaderListens(c, c.pending[k].owner))
    case Duplicate(k) => k < |c.pending| && (c.pending[k].Udp? || c.pending[k].Ack?)
    case Lose(k) =>
      k < |c.pending|
      && (c.pending[k].Udp? || c.pending[k].Ack? || !Live(c, c.pending[k].Owner()))
    case Crash(i) => Live(c, i)
  }

  // Suspicions are right: a ping only misses, and an election only starts, when
  // the leader that the server knows has crashed, and a wait only runs out on a
  // neighbour that has crashed.
  predicate Accurate(c: Cluster, step: Step)
    requires Enabled(c, step)
  {
    match step
    case Ping(i, _) => c.servers[i].idLeader in c.crashed
    case Handle(k, _) =>
      var item := c.pending[k];
      item.Owner() in c.servers ==>
        && (item.Wait? && item.msg.seqNo !in c.servers[item.owner].acked ==> item.neighbor in c.crashed)
        && (item.Begin? ==> c.servers[item.owner].idLeader in c.crashed)
    case _ => true
  }

  function Drop(items: seq<Item>, k: nat): seq<Item>
    requires k < |items|
  {
    items[..k] + items[k + 1..]
  }

  function Messages(items: seq<Item>): set<Message> {
    set item | item in items && item.HasMessage() :: item.msg
  }

  // What items that all carry one message hold.
  lemma MessagesOf(items: seq<Item>, k: nat, msg: Message)
    requires k < |items| && items[k].HasMessage() && items[k].msg == msg
    requires forall x | x in items && x.HasMessage() :: x.msg == msg
    ensures Messages(items) == {msg}
  {
  }

  function Settle(c: Cluster, i: nat, rest: seq<Item>, r: Reaction): Cluster {
    c.(servers := c.servers[i := r.server],
       pending := rest + r.items,
       sent := c.sent + Messages(r.items))
  }

  // The step is a server's StartElection.
  predicate StartsElection(c: Cluster, step: Step) {
    step.Handle? && step.index < |c.pending| && c.pending[step.index].Begin?
  }

  // The reaction that a Ping or Handle step runs.
  ghost function Reacts(c: Cluster, step: Step): Reaction
    requires Valid(c) && Enabled(c, step) && (step.Ping? || step.Handle?)
  {
    if step.Ping? then OnPing(c.servers[step.id], step.hungUp)
    else React(c.n, c.servers[c.pending[step.index].Owner()], c.pending[step.index], step.reached)
  }

  ghost function Actor(c: Cluster, step: Step): nat
    requires Enabled(c, step) && (step.Ping? || step.Handle?)
  {
    if step.Ping? then step.id else c.pending[step.index].Owner()
  }

  ghost function Apply(c: Cluster, step: Step): Cluster
    requires Valid(c) && Enabled(c, step)
  {
    match step
    case Ping(i, _) => Settle(c, i, c.pending, Reacts(c, step))
    case Handle(k, _) => Settle(c, Actor(c, step), Drop(c.pending, k), Reacts(c, step))
    case Duplicate(k) => c.(pending := c.pending + [c.pending[k]])
    case Lose(k) => c.(pending := Drop(c.pending, k))
    case Crash(i) => c.(crashed := c.crashed + {i})
  }

  // A run: states linked by enabled steps. (Valid asks nothing of the later
  // states that ApplyKeepsValid does not give.)
  ghost predicate IsRun(run: seq<Cluster>, steps: seq<Step>) {
    && |run| == |steps| + 1
    && (forall k | 0 <= k < |run| :: Valid(run[k]))
    && forall k | 0 <= k < |steps| ::
         Enabled(run[k], steps[k]) && run[k + 1] == Apply(run[k], steps[k])
  }

  // A run in which every suspicion is right.
  ghost predicate IsAccurateRun(run: seq<Cluster>, steps: seq<Step>) {
    && IsRun(run, steps)
    && forall k | 0 <= k < |steps| :: Accurate(run[k], steps[k])
  }

  // A run in which moreover nobody crashes: the crashed set is fixed.
  ghost predicate IsStableRun(run: seq<Cluster>, steps: seq<Step>) {
    && IsAccurateRun(run, steps)
    && forall k | 0 <= k < |steps| :: !steps[k].Crash?
  }

  lemma ReactInRange(n: nat, s: Server, item: Item, reached: bool)
    requires InRange(n, item) && item.Owner() == s.id && Id(n, s.neighbor)
    ensures var r := React(n, s, item, reached);
      && r.server.id == s.id && Id(n, r.server.neighbor)
      && forall x | x in r.items :: InRange(n, x)
  {
    forall listed: seq<nat> ensures Id(n, UpdateNeighbor(n, s.id, listed, s.neighbor).0) {
      UpdateNeighborExact(n, s.id, listed, s.neighbor);
    }
  }

  lemma SettleKeepsValid(c: Cluster, i: nat, rest: seq<Item>, r: Reaction)
    requires Valid(c) && Id(c.n, i)
    requires forall x | x in rest :: x in c.pending
    requires r.server.id == i && Id(c.n, r.server.neighbor)
    requires forall x | x in r.items :: InRange(c.n, x)
    ensures Valid(Settle(c, i, rest, r))
  {
  }

  // Every step leaves a cluster of the same ring, with every address on it.
  lemma ApplyKeepsValid(c: Cluster, step: Step)
    requires Valid(c) && Enabled(c, step)
    ensures Valid(Apply(c, step)) && Apply(c, step).n == c.n
  {
    match step
    case Ping(i, _) =>
      SettleKeepsValid(c, i, c.pending, Reacts(c, step));
    case Handle(k, reached) =>
      var i := Actor(c, step);
      ReactInRange(c.n, c.servers[i], c.pending[k], reached);
      SettleKeepsValid(c, i, Drop(c.pending, k), Reacts(c, step));
    case _ =>
  }
}
