// How a run goes on once a crashed server has been announced: whatever happens
// next, with right suspicions, no election is ever started again.
module DeadEnd {
  import opened Ring
  import opened ElectionServer
  import opened Cluster
  import opened ElectionSafety
  import opened ElectionLimits
  import opened LostElection

  // An item that its owner can handle without anybody taking the lead, as long
  // as 2 and 3 are both alive.
  predicate Harmless(c: Cluster, item: Item) {
    match item
    case Udp(_, _, msg) => msg == NEWS
    case Mail(_, _, msg) => msg == NEWS
    case Ack(_, _, _) => true
    case Wait(_, neighbor, msg) => msg == NEWS || neighbor !in c.crashed
    case Connect(_) => true
    case Begin(_) => false
  }

  // Without a leader, and without a connection to one.
  predicate Leaderless(c: Cluster, i: nat) {
    && i in c.servers
    && !c.servers[i].imLeader && !c.servers[i].connected && c.servers[i].idLeader in c.crashed
  }

  ghost predicate BothWait(c: Cluster) {
    && Leaderless(c, 2) && Leaderless(c, 3)
    && forall x | x in c.pending && Live(c, x.Owner()) :: Harmless(c, x)
  }

  ghost predicate NobodyStarts(c: Cluster) {
    forall x | x in c.pending :: !x.Begin?
  }

  ghost predicate NobodyPings(c: Cluster) {
    forall i | Live(c, i) && i in c.servers && c.servers[i].connected :: c.servers[i].imLeader
  }

  // Only 2 and 3 can be alive, and nobody can ping: both wait, or only one is
  // left, which has nobody to connect to but itself.
  ghost predicate Stuck(c: Cluster) {
    && c.n == 4 && 1 in c.crashed && 4 in c.crashed
    && NobodyStarts(c) && NobodyPings(c)
    && (Live(c, 2) && Live(c, 3) ==> BothWait(c))
  }

  lemma NoPing(c: Cluster, step: Step)
    requires Stuck(c) && Enabled(c, step)
    ensures !step.Ping? && !StartsElection(c, step)
  {
  }

  // ---- One handler, while both are alive ----

  // What it leaves: the server as leaderless as before, and the old news at most.
  ghost predicate Waits(c: Cluster, r: Reaction) {
    && !r.server.imLeader && !r.server.connected && r.server.idLeader in c.crashed
    && forall x | x in r.items :: Harmless(c, x)
  }

  lemma NewsWaits(c: Cluster, s: Server, other: nat)
    requires ServerSafe(c.n, c.crashed, s) && 4 in c.crashed && s.id != 4
    requires Live(c, other) && other != s.id && !s.imLeader && !s.connected
    ensures Waits(c, OnNewLeader(c.n, s, NEWS))
  {
    UpdateNeighborKeepsHop(c.n, c.crashed, s.id, s.disconnected, s.neighbor);
  }

  lemma CheckWaits(c: Cluster, s: Server, other: nat, neighbor: nat, msg: Message)
    requires ServerSafe(c.n, c.crashed, s) && Live(c, other) && other != s.id
    requires !s.imLeader && !s.connected && s.idLeader in c.crashed
    requires msg == NEWS || neighbor !in c.crashed
    requires msg.seqNo !in s.acked ==> neighbor in c.crashed
    ensures Waits(c, OnCheck(c.n, s, neighbor, msg))
  {
    if msg.seqNo !in s.acked { RefreshSafe(c.n, c.crashed, s, neighbor); }
  }

  lemma WaitingReacts(c: Cluster, item: Item, other: nat, reached: bool)
    requires item in c.pending && Live(c, item.Owner()) && Harmless(c, item)
    requires Leaderless(c, item.Owner()) && ServerSafe(c.n, c.crashed, c.servers[item.Owner()])
    requires c.servers[item.Owner()].id == item.Owner() && 4 in c.crashed
    requires Live(c, other) && other != item.Owner()
    requires item.Connect? && reached ==> LeaderListens(c, item.owner)
    requires item.Wait? && item.msg.seqNo !in c.servers[item.owner].acked ==> item.neighbor in c.crashed
    ensures Waits(c, React(c.n, c.servers[item.Owner()], item, reached))
  {
    var s := c.servers[item.Owner()];
    match item
    case Mail(_, _, msg) => NewsWaits(c, s, other);
    case Wait(_, neighbor, msg) => CheckWaits(c, s, other, neighbor, msg);
    case _ =>
  }

  // Nobody makes a StartElection out of another message, nobody stops leading,
  // and a connection needs a live leader.
  lemma ReactConnects(n: nat, s: Server, item: Item, reached: bool)
    requires !item.Begin?
    ensures var r := React(n, s, item, reached);
      && r.server.id == s.id && (s.imLeader ==> r.server.imLeader)
      && (r.server.connected ==> s.connected || (item.Connect? && reached))
      && forall x | x in r.items :: !x.Begin?
  {
  }

  // ---- One step ----

  lemma SettleStaysStuck(c: Cluster, i: nat, rest: seq<Item>, r: Reaction)
    requires Stuck(c) && (i == 2 || i == 3) && i in c.servers && forall x | x in rest :: x in c.pending
    requires (forall x | x in r.items :: !x.Begin?) && (r.server.connected ==> r.server.imLeader)
    requires Live(c, 2) && Live(c, 3) ==> Waits(c, r)
    ensures Stuck(Settle(c, i, rest, r))
  {
  }

  lemma HandleStaysStuck(c: Cluster, k: nat, reached: bool)
    requires Safe(c) && Stuck(c) && Enabled(c, Handle(k, reached)) && Accurate(c, Handle(k, reached))
    ensures Stuck(Apply(c, Handle(k, reached)))
  {
    var item := c.pending[k];
    var s := c.servers[item.Owner()];
    var r := React(c.n, s, item, reached);
    assert item in c.pending && Live(c, s.id);
    ReactConnects(c.n, s, item, reached);
    if Live(c, 2) && Live(c, 3) {
      WaitingReacts(c, item, if s.id == 2 then 3 else 2, reached);
    }
    SettleStaysStuck(c, s.id, Drop(c.pending, k), r);
  }

  lemma FewerStaysStuck(c: Cluster, step: Step)
    requires Valid(c) && Stuck(c) && Enabled(c, step) && (step.Duplicate? || step.Lose? || step.Crash?)
    ensures Stuck(Apply(c, step))
  {
    var c' := Apply(c, step);
    forall x | x in c'.pending ensures x in c.pending {
    }
    forall x | x in c'.pending && Live(c', x.Owner()) && Live(c', 2) && Live(c', 3) ensures Harmless(c', x) {
      assert Live(c, x.Owner()) && Live(c, 2) && Live(c, 3);
    }
  }

  lemma StepStaysStuck(c: Cluster, step: Step)
    requires Safe(c) && Stuck(c) && Enabled(c, step) && Accurate(c, step)
    ensures Stuck(Apply(c, step))
  {
    NoPing(c, step);
    match step
    case Handle(k, reached) => HandleStaysStuck(c, k, reached);
    case _ => FewerStaysStuck(c, step);
  }

  lemma {:induction false} RunStaysStuck(run: seq<Cluster>, steps: seq<Step>, k: nat)
    requires IsAccurateRun(run, steps) && Safe(run[0]) && Stuck(run[0]) && k < |run|
    ensures Safe(run[k]) && Stuck(run[k])
  {
    if k > 0 {
      RunStaysStuck(run, steps, k - 1);
      StepKeepsSafe(run[k - 1], steps[k - 1]);
      StepStaysStuck(run[k - 1], steps[k - 1]);
    }
  }

  lemma EndIsStuck()
    ensures Stuck(A16)
  {
    forall x | x in A16.pending ensures !x.Begin? && (x.Owner() == 4 || Harmless(A16, x)) {
    }
  }

  lemma ReachedIsSafe(c: Cluster)
    requires Reaches(c)
    ensures Safe(c)
  {
    var run, steps :| IsAccurateRun(run, steps) && run[0] == Boot(4, {1}) && run[|steps|] == c;
    BootIsStart(4, {1});
    RunIsSafe(run, steps, |steps|);
  }

  // Once 4 was announced and has crashed, no accurate continuation has a ping
  // that misses or an election that starts, crashes of 2 and 3 included; and as
  // long as both live, neither leads and both follow a crashed server.
  lemma NoElectionAgain(run: seq<Cluster>, steps: seq<Step>)
    requires IsAccurateRun(run, steps) && run[0] == A16
    ensures Reaches(A16)
    ensures forall k | 0 <= k < |steps| :: !steps[k].Ping? && !StartsElection(run[k], steps[k])
    ensures forall k | 0 <= k < |run| && Live(run[k], 2) && Live(run[k], 3) ::
      Leaderless(run[k], 2) && Leaderless(run[k], 3)
  {
    ToA16();
    EndIsStuck();
    ReachedIsSafe(A16);
    forall k | 0 <= k < |steps| ensures !steps[k].Ping? && !StartsElection(run[k], steps[k]) {
      RunStaysStuck(run, steps, k);
      NoPing(run[k], steps[k]);
    }
    forall k | 0 <= k < |run| && Live(run[k], 2) && Live(run[k], 3)
      ensures Leaderless(run[k], 2) && Leaderless(run[k], 3)
    {
      RunStaysStuck(run, steps, k);
    }
  }
}
