// Crashes at any time, right suspicions: servers skip crashed ids only, and a
// server that closes an election has heard of every live one.
module ElectionSafety {
  import opened Ring
  import opened ElectionServer
  import opened Cluster

  // The list holds crashed ids only, and so does the stretch of ring that the
  // server skips.
  ghost predicate ServerSafe(n: nat, crashed: set<nat>, s: Server) {
    && Id(n, s.id) && Id(n, s.neighbor)
    && (forall x | x in s.disconnected :: x in crashed)
    && Hop(n, crashed, s.id, s.neighbor)
  }

  ghost predicate MessageSafe(n: nat, crashed: set<nat>, msg: Message) {
    match msg
    case Election(ids, dead, _) => ids != [] && Walk(n, crashed, ids) && dead in crashed
    case NewLeader(sender, leader, _) =>
      && Id(n, sender) && Id(n, leader)
      && forall y: nat | Id(n, y) && y !in crashed :: y <= leader
  }

  // msg travels from src to dst.
  ghost predicate TransitSafe(n: nat, crashed: set<nat>, src: nat, dst: nat, msg: Message) {
    && Id(n, src) && Id(n, dst) && Hop(n, crashed, src, dst)
    && MessageSafe(n, crashed, msg)
    && (msg.Election? ==> msg.Origin() == src)
  }

  ghost predicate ItemSafe(n: nat, crashed: set<nat>, item: Item) {
    match item
    case Udp(src, dst, msg) => TransitSafe(n, crashed, src, dst, msg)
    case Mail(dst, src, msg) => TransitSafe(n, crashed, src, dst, msg)
    case Wait(owner, neighbor, msg) => TransitSafe(n, crashed, owner, neighbor, msg)
    case Ack(_, ackId, _) => ackId == 0
    case Connect(_) => true
    case Begin(_) => true
  }

  ghost predicate Safe(c: Cluster) {
    && Valid(c)
    && (forall x | x in c.crashed :: 1 <= x <= c.n)
    && (forall i | i in c.servers :: ServerSafe(c.n, c.crashed, c.servers[i]))
    && (forall x | x in c.pending :: ItemSafe(c.n, c.crashed, x))
    && (forall m | m in c.sent :: MessageSafe(c.n, c.crashed, m))
  }

  // The start of an election epoch: nothing is under way.
  ghost predicate Init(c: Cluster) {
    && Valid(c) && c.pending == [] && c.sent == {}
    && (forall x | x in c.crashed :: 1 <= x <= c.n)
    && (forall i | i in c.servers :: ServerSafe(c.n, c.crashed, c.servers[i]))
  }

  lemma RefreshSafe(n: nat, crashed: set<nat>, s: Server, x: nat)
    requires ServerSafe(n, crashed, s) && x in crashed
    ensures var (s2, ok) := Refresh(n, s.(disconnected := s.disconnected + [x]));
      && ServerSafe(n, crashed, s2)
      && (!ok ==> forall y: nat | Id(n, y) && y != s.id :: y in crashed)
  {
    UpdateNeighborKeepsHop(n, crashed, s.id, s.disconnected + [x], s.neighbor);
  }

  lemma DeclareSafe(n: nat, crashed: set<nat>, s: Server)
    requires ServerSafe(n, crashed, s)
    requires forall y: nat | Id(n, y) && y != s.id :: y in crashed
    ensures forall x | x in Declare(s).items :: ItemSafe(n, crashed, x)
  {
  }

  lemma StartSafe(n: nat, crashed: set<nat>, s: Server)
    requires ServerSafe(n, crashed, s) && s.idLeader in crashed
    ensures var r := OnStartElection(n, s);
      ServerSafe(n, crashed, r.server) && forall x | x in r.items :: ItemSafe(n, crashed, x)
  {
    RefreshSafe(n, crashed, s, s.idLeader);
    var (s2, ok) := Refresh(n, s.(disconnected := s.disconnected + [s.idLeader]));
    if !ok { DeclareSafe(n, crashed, s2); }
  }

  lemma CheckSafe(n: nat, crashed: set<nat>, s: Server, neighbor: nat, msg: Message)
    requires ServerSafe(n, crashed, s) && TransitSafe(n, crashed, s.id, neighbor, msg)
    requires msg.seqNo !in s.acked ==> neighbor in crashed
    ensures var r := OnCheck(n, s, neighbor, msg);
      ServerSafe(n, crashed, r.server) && forall x | x in r.items :: ItemSafe(n, crashed, x)
  {
    if msg.seqNo !in s.acked {
      RefreshSafe(n, crashed, s, neighbor);
      var (s2, ok) := Refresh(n, s.(disconnected := s.disconnected + [neighbor]));
      if !ok { DeclareSafe(n, crashed, s2); }
    }
  }

  // The token's hops from s back to s form a closed walk over crashed ids.
  lemma ClosingListCovers(n: nat, crashed: set<nat>, src: nat, s: nat, msg: Message, y: nat)
    requires msg.Election? && TransitSafe(n, crashed, src, s, msg)
    requires s in msg.serverIds
    requires Id(n, y) && y !in crashed
    ensures y in msg.serverIds && y <= MaxId(msg.serverIds)
  {
    var ids := msg.serverIds;
    var j :| 0 <= j < |ids| && ids[j] == s;
    var path := ids[j..] + [s];
    forall k | 0 <= k < |path| - 1 ensures Hop(n, crashed, path[k], path[k + 1]) {
      if j + k < |ids| - 1 { assert Hop(n, crashed, ids[j + k], ids[j + k + 1]); }
    }
    ClosedWalkVisits(n, crashed, path, y);
    MaxIdIsMax(ids);
  }

  lemma ElectionSafe(n: nat, crashed: set<nat>, s: Server, src: nat, msg: Message)
    requires ServerSafe(n, crashed, s) && msg.Election? && TransitSafe(n, crashed, src, s.id, msg)
    ensures var r := OnElection(n, s, msg);
      ServerSafe(n, crashed, r.server) && forall x | x in r.items :: ItemSafe(n, crashed, x)
  {
    RefreshSafe(n, crashed, s, msg.deadLeader);
    var (s2, ok) := Refresh(n, s.(disconnected := s.disconnected + [msg.deadLeader]));
    var ids := msg.serverIds;
    if !ok {
      DeclareSafe(n, crashed, s2);
    } else if s.id in ids {
      MaxIdIsMax(ids);
      forall y: nat | Id(n, y) && y !in crashed ensures y <= MaxId(ids) {
        ClosingListCovers(n, crashed, src, s.id, msg, y);
      }
      assert MessageSafe(n, crashed, NewLeader(s.id, MaxId(ids), s.seqNo));
    } else {
      var longer := ids + [s.id];
      forall k | 0 <= k < |longer| - 1 ensures Hop(n, crashed, longer[k], longer[k + 1]) {
        if k < |ids| - 1 { assert Hop(n, crashed, ids[k], ids[k + 1]); }
      }
      assert MessageSafe(n, crashed, Election(longer, msg.deadLeader, s.seqNo));
    }
  }

  lemma NewLeaderSafe(n: nat, crashed: set<nat>, s: Server, msg: Message)
    requires ServerSafe(n, crashed, s) && msg.NewLeader? && MessageSafe(n, crashed, msg)
    ensures var r := OnNewLeader(n, s, msg);
      ServerSafe(n, crashed, r.server) && forall x | x in r.items :: ItemSafe(n, crashed, x)
  {
    UpdateNeighborKeepsHop(n, crashed, s.id, s.disconnected, s.neighbor);
    var (s2, ok) := Refresh(n, s);
    if !ok { DeclareSafe(n, crashed, s2); }
  }

  // An ack names id 0, which is on no list.
  lemma AckRemovesNothing(n: nat, crashed: set<nat>, s: Server, seqNo: nat)
    requires ServerSafe(n, crashed, s) && (forall x | x in crashed :: 1 <= x <= n)
    ensures OnAck(s, 0, seqNo).server == s.(acked := s.acked + {seqNo})
  {
    WithoutAbsent(s.disconnected, 0);
  }

  lemma ReactSafe(n: nat, crashed: set<nat>, s: Server, item: Item, reached: bool)
    requires ServerSafe(n, crashed, s) && item.Owner() == s.id && ItemSafe(n, crashed, item)
    requires forall x | x in crashed :: 1 <= x <= n
    requires item.Wait? && item.msg.seqNo !in s.acked ==> item.neighbor in crashed
    requires item.Begin? ==> s.idLeader in crashed
    ensures var r := React(n, s, item, reached);
      ServerSafe(n, crashed, r.server) && forall x | x in r.items :: ItemSafe(n, crashed, x)
  {
    match item
    case Udp(src, dst, msg) =>
    case Mail(_, src, msg) =>
      if msg.Election? { ElectionSafe(n, crashed, s, src, msg); }
      else { NewLeaderSafe(n, crashed, s, msg); }
    case Ack(_, ackId, seqNo) => AckRemovesNothing(n, crashed, s, seqNo);
    case Wait(_, neighbor, msg) => CheckSafe(n, crashed, s, neighbor, msg);
    case Connect(_) =>
    case Begin(_) => StartSafe(n, crashed, s);
  }

  lemma SettleKeepsSafe(c: Cluster, i: nat, rest: seq<Item>, r: Reaction)
    requires Safe(c) && Id(c.n, i)
    requires forall x | x in rest :: x in c.pending
    requires r.server.id == i && ServerSafe(c.n, c.crashed, r.server)
    requires forall x | x in r.items :: InRange(c.n, x) && ItemSafe(c.n, c.crashed, x)
    ensures Safe(Settle(c, i, rest, r))
  {
  }

  lemma CrashKeepsSafe(c: Cluster, i: nat)
    requires Safe(c) && Live(c, i)
    ensures Safe(c.(crashed := c.crashed + {i}))
  {
  }

  lemma StepKeepsSafe(c: Cluster, step: Step)
    requires Safe(c) && Enabled(c, step) && Accurate(c, step)
    ensures Safe(Apply(c, step))
  {
    match step
    case Ping(i, _) =>
      SettleKeepsSafe(c, i, c.pending, Reacts(c, step));
    case Handle(k, reached) =>
      var i := Actor(c, step);
      ReactInRange(c.n, c.servers[i], c.pending[k], reached);
      ReactSafe(c.n, c.crashed, c.servers[i], c.pending[k], reached);
      SettleKeepsSafe(c, i, Drop(c.pending, k), Reacts(c, step));
    case Crash(i) => CrashKeepsSafe(c, i);
    case Duplicate(k) =>
    case Lose(k) =>
  }

  lemma {:induction false} RunIsSafe(run: seq<Cluster>, steps: seq<Step>, k: nat)
    requires IsAccurateRun(run, steps) && Init(run[0]) && k < |run|
    ensures Safe(run[k])
  {
    if k > 0 {
      RunIsSafe(run, steps, k - 1);
      StepKeepsSafe(run[k - 1], steps[k - 1]);
    }
  }

  // Skip safety, on every state of every run with right suspicions.
  lemma SkipSafety(run: seq<Cluster>, steps: seq<Step>, k: nat, i: nat)
    requires IsAccurateRun(run, steps) && Init(run[0]) && k < |run| && Id(run[k].n, i)
    ensures var c := run[k];
      && (forall x | x in c.servers[i].disconnected :: x in c.crashed)
      && (forall y: nat | Id(c.n, y) && Gap(c.n, i, y) < Gap(c.n, i, c.servers[i].neighbor) ::
            y in c.crashed)
  {
    RunIsSafe(run, steps, k);
  }

  ghost predicate IsHighest(c: Cluster, i: nat) {
    forall y: nat | Live(c, y) :: y <= i
  }

  lemma StepKeepsLeaders(c: Cluster, step: Step, i: nat)
    requires Safe(c) && Enabled(c, step) && Accurate(c, step)
    requires Live(Apply(c, step), i) && Apply(c, step).n == c.n && i in Apply(c, step).servers
    requires Apply(c, step).servers[i].imLeader
    ensures Live(c, i) && (c.servers[i].imLeader || IsHighest(c, i))
  {
    if step.Handle? && c.pending[step.index].Mail? {
      var item := c.pending[step.index];
      assert item in c.pending && ItemSafe(c.n, c.crashed, item);
    }
  }

  predicate Leads(c: Cluster, i: nat) {
    Live(c, i) && i in c.servers && c.servers[i].imLeader
  }

  lemma HighestStays(c: Cluster, step: Step, i: nat)
    requires Valid(c) && Enabled(c, step) && IsHighest(c, i)
    ensures IsHighest(Apply(c, step), i)
  {
    forall y: nat | Live(Apply(c, step), y) ensures Live(c, y) {
    }
  }

  // Who leads after step k led before it, or is the greatest live id; and who is
  // that stays so.
  ghost predicate LeadKept(run: seq<Cluster>, i: nat, k: nat)
    requires k + 1 < |run|
  {
    Leads(run[k + 1], i) ==>
      (Leads(run[k], i) && (IsHighest(run[k], i) ==> IsHighest(run[k + 1], i))) || IsHighest(run[k + 1], i)
  }

  lemma StepKeepsLead(run: seq<Cluster>, steps: seq<Step>, i: nat, k: nat)
    requires IsAccurateRun(run, steps) && Init(run[0]) && k < |steps|
    ensures LeadKept(run, i, k)
  {
    RunIsSafe(run, steps, k);
    ApplyKeepsValid(run[k], steps[k]);
    assert Enabled(run[k], steps[k]) && run[k + 1] == Apply(run[k], steps[k]);
    if Leads(run[k + 1], i) {
      StepKeepsLeaders(run[k], steps[k], i);
      if IsHighest(run[k], i) { HighestStays(run[k], steps[k], i); }
    }
  }

  lemma {:induction false} LeadOnward(run: seq<Cluster>, i: nat, k: nat)
    requires k < |run| && Leads(run[k], i)
    requires forall j: nat | j + 1 < |run| :: LeadKept(run, i, j)
    ensures Leads(run[0], i) || IsHighest(run[k], i)
  {
    if k > 0 {
      assert LeadKept(run, i, k - 1);
      if Leads(run[k - 1], i) { LeadOnward(run, i, k - 1); }
    }
  }

  // Single leader, with crashes at any time: a live server that leads led at the
  // start, or is the greatest live id.
  lemma LeaderIsGreatest(run: seq<Cluster>, steps: seq<Step>, k: nat, i: nat)
    requires IsAccurateRun(run, steps) && Init(run[0]) && k < |run| && Leads(run[k], i)
    ensures Leads(run[0], i) || IsHighest(run[k], i)
  {
    forall j: nat | j + 1 < |run| ensures LeadKept(run, i, j) {
      StepKeepsLead(run, steps, i, j);
    }
    LeadOnward(run, i, k);
  }

  // Coverage: whoever finds its own id in the token has every live id in it,
  // and the leader it then announces is at least every live id.
  lemma Coverage(run: seq<Cluster>, steps: seq<Step>, k: nat, y: nat)
    requires IsAccurateRun(run, steps) && Init(run[0]) && k < |steps|
    requires steps[k].Handle?
    requires var item := run[k].pending[steps[k].index];
      item.Mail? && item.msg.Election? && item.dst in item.msg.serverIds
    requires Live(run[k], y)
    ensures var item := run[k].pending[steps[k].index];
      && y in item.msg.serverIds
      && forall m | m in run[k + 1].sent && m.NewLeader? :: y <= m.leaderId
  {
    RunIsSafe(run, steps, k);
    RunIsSafe(run, steps, k + 1);
    var item := run[k].pending[steps[k].index];
    assert ItemSafe(run[k].n, run[k].crashed, item);
    ClosingListCovers(run[k].n, run[k].crashed, item.src, item.dst, item.msg, y);
  }
}
