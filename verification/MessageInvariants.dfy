// What holds of the messages whatever is suspected, rightly or wrongly, and
// whoever crashes.
module MessageInvariants {
  import opened Ring
  import opened ElectionServer
  import opened Cluster

  ghost predicate Distinct(ids: seq<nat>) {
    forall j, k | 0 <= j < k < |ids| :: ids[j] != ids[k]
  }

  ghost predicate WellFormed(n: nat, msg: Message) {
    match msg
    case Election(ids, _, _) => ids != [] && Distinct(ids) && forall x | x in ids :: Id(n, x)
    case NewLeader(sender, leader, _) => Id(n, sender) && Id(n, leader) && sender <= leader
  }

  // Every server that x speaks for has posted a message of its own.
  ghost predicate Vouched(sent: set<Message>, x: Message) {
    forall p | p in x.Names() :: exists y :: y in sent && y.Origin() == p
  }

  ghost predicate Numbered(servers: map<nat, Server>, x: Message) {
    x.Origin() in servers && x.seqNo < servers[x.Origin()].seqNo
  }

  ghost predicate MessagesOk(c: Cluster) {
    && Valid(c)
    && (forall x | x in c.pending && x.HasMessage() :: x.msg in c.sent)
    && (forall x | x in c.sent :: WellFormed(c.n, x) && Vouched(c.sent, x) && Numbered(c.servers, x))
    && (forall x, y | x in c.sent && y in c.sent ::
          x.Origin() == y.Origin() && x.seqNo == y.seqNo ==> x == y)
  }

  // A message that s makes up while it handles one that speaks for `names`.
  ghost predicate IsNew(n: nat, s: Server, names: set<nat>, x: Message) {
    && WellFormed(n, x) && x.Origin() == s.id && x.seqNo == s.seqNo
    && forall p | p in x.Names() :: p == s.id || p in names
  }

  // What r posts is the one message handled or one new one, with a fresh number.
  ghost predicate Posts(n: nat, s: Server, handled: set<Message>, names: set<nat>, r: Reaction) {
    && r.server.id == s.id && s.seqNo <= r.server.seqNo
    && forall x | x in r.items && x.HasMessage() ::
         x.msg in handled
         || (&& IsNew(n, s, names, x.msg) && s.seqNo < r.server.seqNo
             && forall y | y in r.items && y.HasMessage() :: y.msg == x.msg)
  }

  lemma StartPosts(n: nat, s: Server)
    requires Id(n, s.id)
    ensures Posts(n, s, {}, {}, OnStartElection(n, s))
  {
  }

  lemma ElectionPosts(n: nat, s: Server, msg: Message)
    requires Id(n, s.id) && msg.Election? && WellFormed(n, msg)
    ensures Posts(n, s, {msg}, msg.Names(), OnElection(n, s, msg))
  {
    var ids := msg.serverIds;
    MaxIdIsMax(ids);
    if s.id in ids {
      assert IsNew(n, s, msg.Names(), NewLeader(s.id, MaxId(ids), s.seqNo));
    } else {
      assert IsNew(n, s, msg.Names(), Election(ids + [s.id], msg.deadLeader, s.seqNo));
    }
    assert IsNew(n, s, msg.Names(), NewLeader(s.id, s.id, s.seqNo));
  }

  lemma ReactPosts(n: nat, s: Server, item: Item, reached: bool)
    requires Id(n, s.id) && item.Owner() == s.id
    requires item.HasMessage() ==> WellFormed(n, item.msg)
    ensures Posts(n, s, if item.HasMessage() then {item.msg} else {},
                  if item.HasMessage() then item.msg.Names() else {}, React(n, s, item, reached))
  {
    if item.Mail? && item.msg.Election? {
      ElectionPosts(n, s, item.msg);
    } else if item.Begin? {
      StartPosts(n, s);
    }
  }

  lemma SettleKeepsMessages(
    c: Cluster, i: nat, rest: seq<Item>, handled: set<Message>, names: set<nat>, r: Reaction)
    requires MessagesOk(c) && i in c.servers && Valid(Settle(c, i, rest, r))
    requires forall x | x in rest :: x in c.pending
    requires handled <= c.sent
    requires forall p | p in names :: exists y :: y in c.sent && y.Origin() == p
    requires Posts(c.n, c.servers[i], handled, names, r)
    ensures MessagesOk(Settle(c, i, rest, r))
  {
  }

  lemma StepKeepsMessages(c: Cluster, step: Step)
    requires MessagesOk(c) && Enabled(c, step)
    ensures MessagesOk(Apply(c, step))
  {
    ApplyKeepsValid(c, step);
    match step
    case Ping(i, _) =>
      SettleKeepsMessages(c, i, c.pending, {}, {}, Reacts(c, step));
    case Handle(k, reached) => HandleKeepsMessages(c, k, reached);
    case _ =>
  }

  lemma HandleKeepsMessages(c: Cluster, k: nat, reached: bool)
    requires MessagesOk(c) && Enabled(c, Handle(k, reached)) && Valid(Apply(c, Handle(k, reached)))
    ensures MessagesOk(Apply(c, Handle(k, reached)))
  {
    var item := c.pending[k];
    assert item in c.pending;
    ReactPosts(c.n, c.servers[item.Owner()], item, reached);
    SettleKeepsMessages(
      c, item.Owner(), Drop(c.pending, k),
      if item.HasMessage() then {item.msg} else {},
      if item.HasMessage() then item.msg.Names() else {},
      React(c.n, c.servers[item.Owner()], item, reached));
  }

  // Nothing under way; nothing is asked of the servers.
  ghost predicate Quiet(c: Cluster) {
    Valid(c) && c.pending == [] && c.sent == {}
  }

  lemma {:induction false} RunKeepsMessages(run: seq<Cluster>, steps: seq<Step>, k: nat)
    requires IsRun(run, steps) && Quiet(run[0]) && k < |run|
    ensures MessagesOk(run[k]) && run[k].n == run[0].n
  {
    if k > 0 {
      RunKeepsMessages(run, steps, k - 1);
      var c, step := run[k - 1], steps[k - 1];
      assert Enabled(c, step) && run[k] == Apply(c, step);
      StepKeepsMessages(c, step);
      ApplyKeepsValid(c, step);
    }
  }

  // On every run, false suspicions included: a token never carries an id twice;
  // an announced leader is at least the announcer and has itself posted an
  // election message or declared itself; originator and number tell messages apart.
  lemma MessagesOnAnyRun(run: seq<Cluster>, steps: seq<Step>, k: nat)
    requires IsRun(run, steps) && Quiet(run[0]) && k < |run|
    ensures forall x | x in run[k].sent && x.Election? ::
      Distinct(x.serverIds) && forall i | i in x.serverIds :: Id(run[k].n, i)
    ensures forall x | x in run[k].sent && x.NewLeader? ::
      x.idSender <= x.leaderId && exists y :: y in run[k].sent && y.Origin() == x.leaderId
    ensures forall x, y | x in run[k].sent && y in run[k].sent ::
      x.Origin() == y.Origin() && x.seqNo == y.seqNo ==> x == y
    ensures forall x | x in run[k].pending && x.HasMessage() :: x.msg in run[k].sent
  {
    RunKeepsMessages(run, steps, k);
    forall x | x in run[k].sent && x.NewLeader?
      ensures exists y :: y in run[k].sent && y.Origin() == x.leaderId
    {
      assert Vouched(run[k].sent, x) && x.leaderId in x.Names();
    }
  }
}
