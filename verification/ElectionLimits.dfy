// Where the election's promises start and where they stop: the booted cluster,
// and the exact conditions under which a server announces the greatest live id
// and follows up what it posted.
module ElectionLimits {
  import opened Ring
  import opened ElectionServer
  import opened Cluster
  import opened ElectionSafety
  import opened ElectionAgreement
  import opened ElectionProgress
  import opened ElectionTermination

  // The cluster as it boots: server 1 leads, everyone else follows it.
  function Boot(n: nat, crashed: set<nat>): Cluster {
    Cluster(
      n,
      map i: nat | 1 <= i <= n :: Server(i, 1, i == 1, i != 1, [], Next(n, i), 0, {}),
      crashed, [], {})
  }

  // Once the first leader has crashed, a booted cluster is a start from which
  // every result about elections holds.
  lemma BootIsStart(n: nat, crashed: set<nat>)
    requires 1 in crashed && forall x | x in crashed :: 1 <= x <= n
    ensures Init(Boot(n, crashed)) && Prompt(Boot(n, crashed))
  {
  }

  // From boot, with any set of crashed servers that includes the first leader:
  // a run without loss has a bounded number of steps, and if an election was
  // started and no handler has anything left to do, every live server follows
  // the greatest live id, which leads.
  lemma BootedClusterElects(run: seq<Cluster>, steps: seq<Step>, crashed: set<nat>, m: nat, j: nat)
    requires IsLosslessRun(run, steps) && run[0] == Boot(run[0].n, crashed) && IsBest(run[0], m)
    requires 1 in crashed && forall x | x in crashed :: 1 <= x <= run[0].n
    ensures |steps| <= Made(steps) * (StartCost(run[0].n) + 1)
    ensures j < |steps| && StartsElection(run[j], steps[j]) && Idle(run[|steps|]) ==> Settled(run[|steps|], m)
  {
    BootIsStart(run[0].n, crashed);
    ElectionsEnd(run, steps, m);
    if j < |steps| && StartsElection(run[j], steps[j]) && Idle(run[|steps|]) {
      ElectionsSucceed(run, steps, m, j, |steps|);
    }
  }

  // A handler of the token announces a leader iff it closes the token or finds
  // no neighbour, and names the greatest live id iff the greatest id of the
  // token is still alive or it finds no neighbour: with crashes in mid-election
  // neither need be.
  lemma AnnouncesBestIffAlive(run: seq<Cluster>, steps: seq<Step>, k: nat, m: nat)
    requires IsAccurateRun(run, steps) && Init(run[0]) && k < |steps|
    requires steps[k].Handle? && IsBest(run[k], m)
    requires run[k].pending[steps[k].index].Mail? && run[k].pending[steps[k].index].msg.Election?
    ensures var c, item := run[k], run[k].pending[steps[k].index];
      var s := c.servers[item.dst];
      var alone := !Refresh(c.n, s.(disconnected := s.disconnected + [item.msg.deadLeader])).1;
      var posted := Messages(Reacts(c, steps[k]).items);
      && ((exists x :: x in posted && x.NewLeader?) <==> alone || item.dst in item.msg.serverIds)
      && forall x | x in posted && x.NewLeader? ::
           x.leaderId == m <==> alone || MaxId(item.msg.serverIds) !in c.crashed
  {
    var c, item := run[k], run[k].pending[steps[k].index];
    RunIsSafe(run, steps, k);
    assert item in c.pending && ItemSafe(c.n, c.crashed, item);
    ElectionAnswers(c.n, c.servers[item.dst], item.msg);
    AnswerNamesBestIff(c, m, item.dst, item.src, item.msg);
  }

  // The one message that a handler of the token posts.
  function Answer(n: nat, s: Server, msg: Message): Message
    requires msg.Election?
  {
    if !Refresh(n, s.(disconnected := s.disconnected + [msg.deadLeader])).1 then NewLeader(s.id, s.id, s.seqNo)
    else if s.id in msg.serverIds then NewLeader(s.id, MaxId(msg.serverIds), s.seqNo)
    else Election(msg.serverIds + [s.id], msg.deadLeader, s.seqNo)
  }

  lemma ElectionAnswers(n: nat, s: Server, msg: Message)
    requires msg.Election?
    ensures Messages(OnElection(n, s, msg).items) == {Answer(n, s, msg)}
  {
    MessagesOf(OnElection(n, s, msg).items, 0, Answer(n, s, msg));
  }

  lemma AnswerNamesBestIff(c: Cluster, m: nat, i: nat, src: nat, msg: Message)
    requires Safe(c) && Live(c, i) && IsBest(c, m) && msg.Election?
    requires TransitSafe(c.n, c.crashed, src, i, msg)
    ensures var s := c.servers[i];
      var alone := !Refresh(c.n, s.(disconnected := s.disconnected + [msg.deadLeader])).1;
      var x := Answer(c.n, s, msg);
      && (x.NewLeader? <==> alone || i in msg.serverIds)
      && (x.NewLeader? ==> (x.leaderId == m <==> alone || MaxId(msg.serverIds) !in c.crashed))
  {
    var s := c.servers[i];
    RefreshSafe(c.n, c.crashed, s, msg.deadLeader);
    if !Refresh(c.n, s.(disconnected := s.disconnected + [msg.deadLeader])).1 {
      AloneIsBest(c.n, c.crashed, m, i);
    } else if i in msg.serverIds {
      ClosingListCovers(c.n, c.crashed, src, i, msg, m);
      MaxIdIsMax(msg.serverIds);
    }
  }

  // ---- Who is believed dead ----

  predicate Listed(c: Cluster, i: nat, x: nat) {
    i in c.servers && x in c.servers[i].disconnected
  }

  // Server i starts an election over x, is told of one, or has waited for x in vain.
  predicate Suspects(s: Server, item: Item, x: nat) {
    || (item.Begin? && s.idLeader == x)
    || (item.Mail? && item.msg.Election? && item.msg.deadLeader == x)
    || (item.Wait? && item.msg.seqNo !in s.acked && item.neighbor == x)
  }

  lemma ReactListedIff(n: nat, s: Server, item: Item, reached: bool, x: nat)
    ensures x in React(n, s, item, reached).server.disconnected <==>
      Suspects(s, item, x) || (x in s.disconnected && !(item.Ack? && item.ackId == x))
  {
    if item.Ack? { WithoutIff(s.disconnected, item.ackId, x); }
  }

  // On every step of any run: x is on server i's list iff i has just come to
  // suspect it, or it was there and i has not just handled an ack of x's.
  lemma StepListedIff(c: Cluster, step: Step, i: nat, x: nat)
    requires Valid(c) && Enabled(c, step) && Id(c.n, i)
    ensures Listed(Apply(c, step), i, x) <==>
      if step.Handle? && c.pending[step.index].Owner() == i then
        var s, item := c.servers[i], c.pending[step.index];
        Suspects(s, item, x) || (Listed(c, i, x) && !(item.Ack? && item.ackId == x))
      else Listed(c, i, x)
  {
    if step.Handle? {
      var item := c.pending[step.index];
      ReactListedIff(c.n, c.servers[item.Owner()], item, step.reached, x);
    }
  }

  // ---- When a message is followed up ----

  predicate OnTable(c: Cluster, i: nat, q: nat) {
    i in c.servers && q in c.servers[i].acked
  }

  // Server i handles an ack for number q.
  predicate TakesAck(c: Cluster, step: Step, i: nat, q: nat) {
    step.Handle? && step.index < |c.pending|
    && var item := c.pending[step.index]; item.Ack? && item.dst == i && item.seqNo == q
  }

  ghost predicate AckBetween(run: seq<Cluster>, steps: seq<Step>, i: nat, q: nat, j: nat, k: nat)
    requires |run| == |steps| + 1 && k <= |steps|
  {
    exists t: nat :: j <= t < k && TakesAck(run[t], steps[t], i, q)
  }

  // No other handler touches the table.
  lemma ReactAcks(n: nat, s: Server, item: Item, reached: bool, q: nat)
    ensures q in React(n, s, item, reached).server.acked <==> q in s.acked || (item.Ack? && item.seqNo == q)
  {
  }

  lemma StepAcks(c: Cluster, step: Step, i: nat, q: nat)
    requires Valid(c) && Enabled(c, step) && Id(c.n, i)
    ensures OnTable(Apply(c, step), i, q) <==> OnTable(c, i, q) || TakesAck(c, step, i, q)
  {
    if step.Handle? {
      ReactAcks(c.n, c.servers[c.pending[step.index].Owner()], c.pending[step.index], step.reached, q);
    }
  }

  // What step k makes of number q on server i's table.
  ghost predicate AcksAt(run: seq<Cluster>, steps: seq<Step>, i: nat, q: nat, k: nat)
    requires k < |steps| && |run| == |steps| + 1
  {
    OnTable(run[k + 1], i, q) <==> OnTable(run[k], i, q) || TakesAck(run[k], steps[k], i, q)
  }

  lemma RunStepAcks(run: seq<Cluster>, steps: seq<Step>, i: nat, q: nat, k: nat)
    requires IsRun(run, steps) && k < |steps| && Id(run[k].n, i)
    ensures AcksAt(run, steps, i, q, k)
  {
    assert Enabled(run[k], steps[k]) && run[k + 1] == Apply(run[k], steps[k]);
    StepAcks(run[k], steps[k], i, q);
  }

  lemma {:induction false} SameRing(run: seq<Cluster>, steps: seq<Step>, k: nat)
    requires IsRun(run, steps) && k < |run|
    ensures run[k].n == run[0].n
  {
    if k > 0 {
      SameRing(run, steps, k - 1);
      ApplyKeepsValid(run[k - 1], steps[k - 1]);
    }
  }

  lemma AckBetweenOn(run: seq<Cluster>, steps: seq<Step>, i: nat, q: nat, j: nat, k: nat)
    requires |run| == |steps| + 1 && j <= k < |steps|
    ensures AckBetween(run, steps, i, q, j, k + 1)
       <==> AckBetween(run, steps, i, q, j, k) || TakesAck(run[k], steps[k], i, q)
  {
    if t: nat :| j <= t < k && TakesAck(run[t], steps[t], i, q) {
      assert j <= t < k + 1;
    }
  }

  lemma {:induction false} AcksOnward(run: seq<Cluster>, steps: seq<Step>, i: nat, q: nat, j: nat, k: nat)
    requires |run| == |steps| + 1 && j <= k < |run|
    requires forall t: nat | t < |steps| :: AcksAt(run, steps, i, q, t)
    ensures OnTable(run[k], i, q) <==> OnTable(run[j], i, q) || AckBetween(run, steps, i, q, j, k)
  {
    if j < k {
      AcksOnward(run, steps, i, q, j, k - 1);
      assert AcksAt(run, steps, i, q, k - 1);
      AckBetweenOn(run, steps, i, q, j, k - 1);
    }
  }

  // A number is on the ack table iff it was there before or an ack for it came in between.
  lemma AckedIff(run: seq<Cluster>, steps: seq<Step>, i: nat, q: nat, j: nat, k: nat)
    requires IsRun(run, steps) && j <= k < |run| && Id(run[0].n, i)
    ensures OnTable(run[k], i, q) <==> OnTable(run[j], i, q) || AckBetween(run, steps, i, q, j, k)
  {
    forall t: nat | t < |steps| ensures AcksAt(run, steps, i, q, t) {
      SameRing(run, steps, t);
      RunStepAcks(run, steps, i, q, t);
    }
    AcksOnward(run, steps, i, q, j, k);
  }

  // On every run, false suspicions included: when the wait for an election that
  // was started runs out, it is followed up iff its number was not on the ack
  // table at the start and no ack for that number has been handled since,
  // whatever message that ack was for.
  lemma StartIsFollowedUpIff(run: seq<Cluster>, steps: seq<Step>, j: nat, k: nat)
    requires IsRun(run, steps) && j < k < |steps| && StartsElection(run[j], steps[j]) && steps[k].Handle?
    requires var i, item := run[j].pending[steps[j].index].owner, run[k].pending[steps[k].index];
      item.Wait? && item.owner == i && i in run[j].servers
      && item.msg == Election([i], run[j].servers[i].idLeader, run[j].servers[i].seqNo)
    ensures var i := run[j].pending[steps[j].index].owner;
      var q := run[j].servers[i].seqNo;
      Reacts(run[k], steps[k]).items != []
      <==> q !in run[j].servers[i].acked && !AckBetween(run, steps, i, q, j, k)
  {
    var i := run[j].pending[steps[j].index].owner;
    assert Enabled(run[j], steps[j]) && Enabled(run[k], steps[k]);
    SameRing(run, steps, j);
    AckedIff(run, steps, i, run[j].servers[i].seqNo, j, k);
  }
}
