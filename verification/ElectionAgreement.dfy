// The crashed set stays as it is, whoever led before: every announcement
// names the greatest live id, and one that comes home has told everybody.
module ElectionAgreement {
  import opened Ring
  import opened ElectionServer
  import opened Cluster
  import opened ElectionSafety

  // m is the greatest live id.
  ghost predicate BestOf(n: nat, crashed: set<nat>, m: nat) {
    Id(n, m) && m !in crashed && forall y: nat | Id(n, y) && y !in crashed :: y <= m
  }

  ghost predicate IsBest(c: Cluster, m: nat) {
    BestOf(c.n, c.crashed, m)
  }

  predicate Informed(servers: map<nat, Server>, m: nat, y: nat) {
    y in servers && servers[y].idLeader == m && (y == m ==> servers[y].imLeader)
  }

  // An announcement by `sender` that has come as far as src has informed every
  // live server on its way.
  ghost predicate Told(n: nat, crashed: set<nat>, servers: map<nat, Server>, m: nat, sender: nat, src: nat)
    requires Id(n, sender) && Id(n, src)
  {
    src != sender ==>
      forall y: nat | Id(n, y) && y !in crashed && y != sender ::
        Gap(n, sender, y) <= Gap(n, sender, src) ==> Informed(servers, m, y)
  }

  ghost predicate MessageAgrees(n: nat, crashed: set<nat>, m: nat, msg: Message) {
    match msg
    case Election(ids, _, _) => forall x | x in ids :: Id(n, x) && x !in crashed
    case NewLeader(sender, leader, _) => Id(n, sender) && sender !in crashed && leader == m
  }

  // msg is on its way from src.
  ghost predicate TransitAgrees(
    n: nat, crashed: set<nat>, servers: map<nat, Server>, m: nat, src: nat, msg: Message)
  {
    && Id(n, src) && MessageAgrees(n, crashed, m, msg)
    && (msg.NewLeader? ==> Told(n, crashed, servers, m, msg.idSender, src))
  }

  ghost predicate ItemAgrees(
    n: nat, crashed: set<nat>, servers: map<nat, Server>, m: nat, item: Item)
  {
    match item
    case Udp(src, _, msg) => TransitAgrees(n, crashed, servers, m, src, msg)
    case Mail(_, src, msg) => TransitAgrees(n, crashed, servers, m, src, msg)
    case Wait(owner, _, msg) => TransitAgrees(n, crashed, servers, m, owner, msg)
    case _ => true
  }

  ghost predicate Agrees(c: Cluster, m: nat) {
    && IsBest(c, m)
    && (forall x | x in c.pending :: ItemAgrees(c.n, c.crashed, c.servers, m, x))
    && (forall x | x in c.sent :: MessageAgrees(c.n, c.crashed, m, x))
  }

  // What one handler may do to its server: the leader it knows changes to m only.
  predicate Follows(m: nat, s: Server, s': Server) {
    && s'.id == s.id
    && (s'.idLeader == s.idLeader || s'.idLeader == m)
    && (s.imLeader ==> s'.imLeader)
    && (s'.imLeader ==> s.imLeader || (s.id == m && s'.idLeader == m))
  }

  // What has become of the servers since c0.
  ghost predicate Since(c0: Cluster, c: Cluster, m: nat) {
    forall i | i in c0.servers :: i in c.servers && Follows(m, c0.servers[i], c.servers[i])
  }

  lemma ToldGrows(n: nat, crashed: set<nat>, servers: map<nat, Server>, s': Server, m: nat, sender: nat, src: nat)
    requires Id(n, sender) && Id(n, src) && s'.id in servers && Follows(m, servers[s'.id], s')
    requires Told(n, crashed, servers, m, sender, src)
    ensures Told(n, crashed, servers[s'.id := s'], m, sender, src)
  {
  }

  // A live server with nobody else alive is the greatest.
  lemma AloneIsBest(n: nat, crashed: set<nat>, m: nat, i: nat)
    requires BestOf(n, crashed, m) && Id(n, i) && i !in crashed
    requires forall y: nat | Id(n, y) && y != i :: y in crashed
    ensures i == m
  {
  }

  lemma StartAgrees(n: nat, crashed: set<nat>, servers: map<nat, Server>, m: nat, s: Server)
    requires BestOf(n, crashed, m) && ServerSafe(n, crashed, s) && s.id !in crashed
    requires s.idLeader in crashed
    ensures var r := OnStartElection(n, s);
      Follows(m, s, r.server) && forall x | x in r.items :: ItemAgrees(n, crashed, servers, m, x)
  {
    RefreshSafe(n, crashed, s, s.idLeader);
    var (s2, ok) := Refresh(n, s.(disconnected := s.disconnected + [s.idLeader]));
    if !ok { AloneIsBest(n, crashed, m, s.id); }
  }

  lemma CheckAgrees(
    n: nat, crashed: set<nat>, servers: map<nat, Server>, m: nat, s: Server, neighbor: nat, msg: Message)
    requires BestOf(n, crashed, m) && ServerSafe(n, crashed, s) && s.id !in crashed
    requires TransitAgrees(n, crashed, servers, m, s.id, msg)
    requires msg.seqNo !in s.acked ==> neighbor in crashed
    ensures var r := OnCheck(n, s, neighbor, msg);
      Follows(m, s, r.server) && forall x | x in r.items :: ItemAgrees(n, crashed, servers, m, x)
  {
    if msg.seqNo !in s.acked {
      RefreshSafe(n, crashed, s, neighbor);
      var (s2, ok) := Refresh(n, s.(disconnected := s.disconnected + [neighbor]));
      if !ok { AloneIsBest(n, crashed, m, s.id); }
    }
  }

  // The greatest id of a token that is closed is the greatest live id.
  lemma ClosingFindsBest(n: nat, crashed: set<nat>, m: nat, src: nat, i: nat, msg: Message)
    requires BestOf(n, crashed, m) && msg.Election? && i in msg.serverIds
    requires TransitSafe(n, crashed, src, i, msg) && MessageAgrees(n, crashed, m, msg)
    ensures MaxId(msg.serverIds) == m
  {
    ClosingListCovers(n, crashed, src, i, msg, m);
    MaxIdIsMax(msg.serverIds);
  }

  lemma ElectionAgrees(
    n: nat, crashed: set<nat>, servers: map<nat, Server>, m: nat, s: Server, src: nat, msg: Message)
    requires BestOf(n, crashed, m) && ServerSafe(n, crashed, s) && s.id !in crashed
    requires msg.Election? && TransitSafe(n, crashed, src, s.id, msg)
    requires MessageAgrees(n, crashed, m, msg)
    ensures var r := OnElection(n, s, msg);
      Follows(m, s, r.server) && forall x | x in r.items :: ItemAgrees(n, crashed, servers, m, x)
  {
    RefreshSafe(n, crashed, s, msg.deadLeader);
    var (s2, ok) := Refresh(n, s.(disconnected := s.disconnected + [msg.deadLeader]));
    if !ok {
      AloneIsBest(n, crashed, m, s.id);
    } else if s.id in msg.serverIds {
      ClosingFindsBest(n, crashed, m, src, s.id, msg);
    }
  }

  // One hop further: whoever the hop passes over is crashed, and its end has
  // just been informed.
  lemma ToldOneHopFurther(
    n: nat, crashed: set<nat>, servers: map<nat, Server>, m: nat, sender: nat, src: nat, i: nat)
    requires Id(n, sender) && Id(n, src) && Id(n, i)
    requires Told(n, crashed, servers, m, sender, src)
    requires Hop(n, crashed, src, i) && Informed(servers, m, i)
    ensures Told(n, crashed, servers, m, sender, i)
  {
  }

  // `servers` already holds what the handler makes of s.
  lemma NewLeaderAgrees(
    n: nat, crashed: set<nat>, servers: map<nat, Server>, m: nat, s: Server, src: nat, msg: Message)
    requires BestOf(n, crashed, m) && ServerSafe(n, crashed, s) && s.id !in crashed
    requires msg.NewLeader? && TransitSafe(n, crashed, src, s.id, msg)
    requires TransitAgrees(n, crashed, servers, m, src, msg)
    requires s.id in servers && servers[s.id] == OnNewLeader(n, s, msg).server
    ensures var r := OnNewLeader(n, s, msg);
      && Follows(m, s, r.server) && Informed(servers, m, s.id)
      && forall x | x in r.items :: ItemAgrees(n, crashed, servers, m, x)
  {
    UpdateNeighborKeepsHop(n, crashed, s.id, s.disconnected, s.neighbor);
    var (s2, ok) := Refresh(n, s);
    if !ok { AloneIsBest(n, crashed, m, s.id); }
    ToldOneHopFurther(n, crashed, servers, m, msg.idSender, src, s.id);
  }

  lemma NewLeaderFollows(n: nat, s: Server, m: nat, msg: Message)
    requires msg.NewLeader? && msg.leaderId == m
    ensures Follows(m, s, OnNewLeader(n, s, msg).server)
  {
  }

  lemma ReactAgrees(
    n: nat, crashed: set<nat>, servers: map<nat, Server>, m: nat, item: Item, reached: bool)
    requires item.Owner() in servers && servers[item.Owner()].id == item.Owner()
    requires item.Owner() !in crashed
    requires BestOf(n, crashed, m) && ServerSafe(n, crashed, servers[item.Owner()])
    requires ItemSafe(n, crashed, item) && ItemAgrees(n, crashed, servers, m, item)
    requires item.Wait? && item.msg.seqNo !in servers[item.Owner()].acked ==> item.neighbor in crashed
    requires item.Begin? ==> servers[item.Owner()].idLeader in crashed
    ensures var s := servers[item.Owner()];
      var r := React(n, s, item, reached);
      && Follows(m, s, r.server)
      && forall x | x in r.items :: ItemAgrees(n, crashed, servers[s.id := r.server], m, x)
  {
    var s := servers[item.Owner()];
    match item
    case Udp(src, dst, msg) =>
      assert servers[s.id := s] == servers;
    case Mail(_, src, msg) =>
      if msg.Election? {
        ElectionAgrees(n, crashed, servers[s.id := OnElection(n, s, msg).server], m, s, src, msg);
      } else {
        var s' := OnNewLeader(n, s, msg).server;
        NewLeaderFollows(n, s, m, msg);
        ToldGrows(n, crashed, servers, s', m, msg.idSender, src);
        NewLeaderAgrees(n, crashed, servers[s.id := s'], m, s, src, msg);
      }
    case Ack(_, ackId, seqNo) =>
    case Wait(_, neighbor, msg) =>
      var s' := OnCheck(n, s, neighbor, msg).server;
      if msg.NewLeader? { ToldGrows(n, crashed, servers, s', m, msg.idSender, s.id); }
      CheckAgrees(n, crashed, servers[s.id := s'], m, s, neighbor, msg);
    case Connect(_) =>
    case Begin(_) =>
      StartAgrees(n, crashed, servers[s.id := OnStartElection(n, s).server], m, s);
  }

  lemma ItemAgreesGrows(
    n: nat, crashed: set<nat>, servers: map<nat, Server>, s': Server, m: nat, item: Item)
    requires s'.id in servers && Follows(m, servers[s'.id], s')
    requires ItemAgrees(n, crashed, servers, m, item)
    ensures ItemAgrees(n, crashed, servers[s'.id := s'], m, item)
  {
  }

  lemma SettleKeepsAgrees(c: Cluster, m: nat, i: nat, rest: seq<Item>, r: Reaction)
    requires Agrees(c, m) && i in c.servers && r.server.id == c.servers[i].id == i
    requires forall x | x in rest :: x in c.pending
    requires Follows(m, c.servers[i], r.server)
    requires forall x | x in r.items :: ItemAgrees(c.n, c.crashed, c.servers[i := r.server], m, x)
    ensures Agrees(Settle(c, i, rest, r), m)
    ensures forall y | Informed(c.servers, m, y) :: Informed(Settle(c, i, rest, r).servers, m, y)
    ensures Since(c, Settle(c, i, rest, r), m)
  {
    var c' := Settle(c, i, rest, r);
    forall x | x in c'.pending ensures ItemAgrees(c.n, c.crashed, c'.servers, m, x) {
      if x in rest { ItemAgreesGrows(c.n, c.crashed, c.servers, r.server, m, x); }
    }
    forall y | y in c'.sent ensures MessageAgrees(c.n, c.crashed, m, y) {
      if y !in c.sent {
        var x :| x in r.items && x.HasMessage() && x.msg == y;
        assert ItemAgrees(c.n, c.crashed, c'.servers, m, x);
      }
    }
  }

  lemma HandleKeepsAgrees(c: Cluster, m: nat, k: nat, reached: bool)
    requires Safe(c) && Agrees(c, m)
    requires Enabled(c, Handle(k, reached)) && Accurate(c, Handle(k, reached))
    ensures var c' := Settle(c, c.pending[k].Owner(), Drop(c.pending, k),
                             React(c.n, c.servers[c.pending[k].Owner()], c.pending[k], reached));
      && Agrees(c', m) && Since(c, c', m)
      && forall y | Informed(c.servers, m, y) :: Informed(c'.servers, m, y)
  {
    var item := c.pending[k];
    assert item in c.pending;
    ReactAgrees(c.n, c.crashed, c.servers, m, item, reached);
    SettleKeepsAgrees(c, m, item.Owner(), Drop(c.pending, k),
                      React(c.n, c.servers[item.Owner()], item, reached));
  }

  lemma StepKeepsAgrees(c: Cluster, m: nat, step: Step)
    requires Safe(c) && Agrees(c, m) && Enabled(c, step) && Accurate(c, step) && !step.Crash?
    ensures Agrees(Apply(c, step), m)
    ensures forall y | Informed(c.servers, m, y) :: Informed(Apply(c, step).servers, m, y)
    ensures Since(c, Apply(c, step), m)
  {
    match step
    case Ping(i, _) => SettleKeepsAgrees(c, m, i, c.pending, Reacts(c, step));
    case Handle(k, reached) => HandleKeepsAgrees(c, m, k, reached);
    case Duplicate(k) =>
    case Lose(k) =>
  }

  lemma StepKeepsSettled(c: Cluster, m: nat, step: Step)
    requires Safe(c) && Agrees(c, m) && Enabled(c, step) && Accurate(c, step) && !step.Crash?
    requires Settled(c, m)
    ensures Settled(Apply(c, step), m)
  {
    StepKeepsAgrees(c, m, step);
    var c' := Apply(c, step);
    forall y: nat | Live(c', y) ensures Informed(c'.servers, m, y) {
      assert Live(c, y);
    }
  }

  lemma {:induction false} RunAgrees(run: seq<Cluster>, steps: seq<Step>, m: nat, k: nat)
    requires IsStableRun(run, steps) && Init(run[0]) && IsBest(run[0], m) && k < |run|
    ensures Safe(run[k]) && Agrees(run[k], m)
    ensures run[k].n == run[0].n && run[k].crashed == run[0].crashed
  {
    if k > 0 {
      RunAgrees(run, steps, m, k - 1);
      StepKeepsSafe(run[k - 1], steps[k - 1]);
      StepKeepsAgrees(run[k - 1], m, steps[k - 1]);
    }
  }

  lemma StepSince(c0: Cluster, c: Cluster, c': Cluster, m: nat)
    requires Since(c0, c, m) && Since(c, c', m)
    ensures Since(c0, c', m)
  {
  }

  lemma {:induction false} RunSince(run: seq<Cluster>, steps: seq<Step>, m: nat, k: nat)
    requires IsStableRun(run, steps) && Init(run[0]) && IsBest(run[0], m) && k < |run|
    ensures Since(run[0], run[k], m)
  {
    if k > 0 {
      RunAgrees(run, steps, m, k - 1);
      StepKeepsAgrees(run[k - 1], m, steps[k - 1]);
      RunSince(run, steps, m, k - 1);
      StepSince(run[0], run[k - 1], run[k], m);
    }
  }

  // Agreement, from any start, for any number of concurrent initiators and any
  // reordering, duplication and loss: in every state, every announcement ever
  // made names the greatest live id; a live server has the leader it had or has
  // come to know that one; and who has taken the lead is that server, and knows it.
  lemma Agreement(run: seq<Cluster>, steps: seq<Step>, m: nat, k: nat)
    requires IsStableRun(run, steps) && Init(run[0]) && IsBest(run[0], m) && k < |run|
    ensures forall x | x in run[k].sent && x.NewLeader? :: x.leaderId == m
    ensures forall i: nat | Live(run[k], i) ::
      && i in run[0].servers
      && (run[k].servers[i].idLeader == m || run[k].servers[i].idLeader == run[0].servers[i].idLeader)
      && (run[k].servers[i].imLeader ==>
            run[0].servers[i].imLeader || (i == m && run[k].servers[i].idLeader == i))
  {
    RunAgrees(run, steps, m, k);
    RunSince(run, steps, m, k);
  }

  // Everyone alive knows who leads, and the leader leads.
  ghost predicate Settled(c: Cluster, m: nat)
  {
    forall y: nat | Live(c, y) :: Informed(c.servers, m, y)
  }

  // The news is back at its sender i: the last hop closes the circle.
  lemma HomecomingSettles(
    n: nat, crashed: set<nat>, servers: map<nat, Server>, m: nat, src: nat, i: nat, msg: Message)
    requires i in servers && servers[i].id == i && msg.NewLeader? && msg.idSender == i
    requires TransitSafe(n, crashed, src, i, msg) && TransitAgrees(n, crashed, servers, m, src, msg)
    ensures var after := servers[i := OnNewLeader(n, servers[i], msg).server];
      forall y: nat | Id(n, y) && y !in crashed :: Informed(after, m, y)
  {
  }

  lemma SettledStep(run: seq<Cluster>, steps: seq<Step>, m: nat, k: nat)
    requires IsStableRun(run, steps) && Init(run[0]) && IsBest(run[0], m) && k < |steps|
    requires Settled(run[k], m)
    ensures Settled(run[k + 1], m)
  {
    RunAgrees(run, steps, m, k);
    StepKeepsSettled(run[k], m, steps[k]);
  }

  lemma {:induction false} SettledStays(run: seq<Cluster>, steps: seq<Step>, m: nat, j: nat, k: nat)
    requires IsStableRun(run, steps) && Init(run[0]) && IsBest(run[0], m) && j <= k < |run|
    requires Settled(run[j], m)
    ensures Settled(run[k], m)
  {
    if j < k {
      SettledStays(run, steps, m, j, k - 1);
      SettledStep(run, steps, m, k - 1);
    }
  }

  // Announcement completeness: once an announcement is back at its sender,
  // every live server knows the greatest live id as leader, that server leads,
  // and it stays that way.
  lemma AnnouncementCompletes(run: seq<Cluster>, steps: seq<Step>, m: nat, j: nat, k: nat)
    requires IsStableRun(run, steps) && Init(run[0]) && IsBest(run[0], m)
    requires j < |steps| && j < k < |run| && steps[j].Handle?
    requires var item := run[j].pending[steps[j].index];
      item.Mail? && item.msg.NewLeader? && item.dst == item.msg.idSender
    ensures Settled(run[k], m)
  {
    RunAgrees(run, steps, m, j);
    var item := run[j].pending[steps[j].index];
    assert ItemSafe(run[j].n, run[j].crashed, item)
        && ItemAgrees(run[j].n, run[j].crashed, run[j].servers, m, item);
    HomecomingSettles(run[j].n, run[j].crashed, run[j].servers, m, item.src, item.dst, item.msg);
    RunAgrees(run, steps, m, j + 1);
    var home := run[j + 1];
    forall y: nat | Live(home, y) ensures Informed(home.servers, m, y) {
      assert Live(run[j], y);
    }
    SettledStays(run, steps, m, j + 1, k);
  }
}
