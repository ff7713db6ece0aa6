// With the crashed set fixed, an election ends: every handler call uses up more
// outstanding work than it creates.
module ElectionTermination {
  import opened Ring
  import opened ElectionServer
  import opened Cluster
  import opened ElectionSafety
  import opened ElectionAgreement
  import opened MessageInvariants

  // ---- The measure of one re-send chain ----

  function Ids(n: nat): (ids: set<nat>)
    ensures forall i: nat :: i in ids <==> 1 <= i <= n
  {
    if n == 0 then {} else Ids(n - 1) + {n}
  }

  lemma {:induction false} IdsCount(n: nat)
    ensures |Ids(n)| == n
  {
    if n > 0 {
      IdsCount(n - 1);
    }
  }

  function Free(n: nat, listed: seq<nat>): set<nat> {
    set i | i in Ids(n) && i !in listed
  }

  function Unlisted(n: nat, listed: seq<nat>): nat {
    |Free(n, listed)|
  }

  // Pairs (ids not yet listed, whether the awaited one is), as one number.
  function Patience(n: nat, listed: seq<nat>, awaited: nat): nat {
    2 * Unlisted(n, listed) + if awaited in listed then 1 else 0
  }

  lemma UnlistedAfter(n: nat, listed: seq<nat>, x: nat)
    ensures Unlisted(n, listed + [x]) == Unlisted(n, listed) - if Id(n, x) && x !in listed then 1 else 0
  {
    var before, after := Free(n, listed), Free(n, listed + [x]);
    if Id(n, x) && x !in listed {
      assert before == after + {x};
    } else {
      assert before == after;
    }
  }

  lemma PatienceBound(n: nat, listed: seq<nat>, awaited: nat)
    ensures Patience(n, listed, awaited) <= 2 * n + 1
    ensures (exists i: nat :: Id(n, i) && i !in listed) ==> Patience(n, listed, awaited) >= 2
  {
    IdsCount(n);
    var free := Free(n, listed);
    SubsetCount(free, Ids(n));
    if i: nat :| Id(n, i) && i !in listed {
      assert i in free;
      SubsetCount({i}, free);
    }
  }

  lemma {:induction false} SubsetCount(a: set<nat>, b: set<nat>)
    requires a <= b
    ensures |a| <= |b|
  {
    if a != {} {
      var x :| x in a;
      SubsetCount(a - {x}, b - {x});
      assert |a| == |a - {x}| + 1 && |b| == |b - {x}| + 1;
    }
  }

  lemma PatienceShrinks(n: nat, listed: seq<nat>, x: nat, awaited: nat)
    requires Id(n, awaited)
    ensures Patience(n, listed + [x], awaited) <= Patience(n, listed, awaited)
  {
    UnlistedAfter(n, listed, x);
  }

  // Each re-send leaves a smaller measure behind, on any server whatsoever and
  // whatever it suspects.
  lemma ResendDescends(n: nat, s: Server, awaited: nat, msg: Message)
    requires Id(n, s.id) && Id(n, s.neighbor) && Id(n, awaited)
    requires msg.seqNo !in s.acked
    requires Refresh(n, s.(disconnected := s.disconnected + [awaited])).1
    ensures var r := OnCheck(n, s, awaited, msg);
      && r.items == Post(r.server, msg)
      && Patience(n, r.server.disconnected, r.server.neighbor) < Patience(n, s.disconnected, awaited)
  {
    UnlistedAfter(n, s.disconnected, awaited);
    UpdateNeighborExact(n, s.id, s.disconnected + [awaited], s.neighbor);
  }

  // ---- The price of every outstanding item ----

  function Distance(n: nat, a: nat, b: nat): nat
    requires Id(n, a) && Id(n, b)
  {
    if a == b then 0 else Gap(n, a, b)
  }

  // A datagram worth u and the dearest wait that can stand behind it.
  function PostCost(n: nat, u: nat): nat {
    u + 1 + (2 * n + 1) * (u + 1)
  }

  // News that has d more steps to go before it is home.
  function NewsCost(n: nat, d: nat): nat {
    if d == 0 then 2 else 2 + PostCost(n, NewsCost(n, d - 1) + 2)
  }

  // A token that r more servers can still sign.
  function TokenCost(n: nat, r: nat): nat {
    3 + PostCost(n, NewsCost(n, n) + 2) + if r == 0 then 0 else PostCost(n, TokenCost(n, r - 1) + 2)
  }

  function Minus(a: nat, b: nat): nat {
    if a < b then 0 else a - b
  }

  // More than what one StartElection can set off.
  function StartCost(n: nat): nat {
    PostCost(n, TokenCost(n, Minus(n, 1)) + 2) + 3
  }

  // A message in the mailbox of dst.
  function MailCost(n: nat, dst: nat, msg: Message): nat
    requires Id(n, dst) && (msg.NewLeader? ==> Id(n, msg.idSender))
  {
    match msg
    case Election(ids, _, _) => TokenCost(n, Minus(n, |ids|))
    case NewLeader(sender, _, _) => NewsCost(n, Distance(n, dst, sender))
  }

  // The most that a copy of msg posted by `owner` can be worth.
  function CopyCost(n: nat, owner: nat, msg: Message): nat
    requires Id(n, owner) && (msg.NewLeader? ==> Id(n, msg.idSender))
  {
    match msg
    case Election(ids, _, _) => TokenCost(n, Minus(n, |ids|)) + 2
    case NewLeader(sender, _, _) => NewsCost(n, Gap(n, owner, sender) - 1) + 2
  }

  predicate Priced(n: nat, servers: map<nat, Server>, item: Item) {
    && InRange(n, item)
    && (item.HasMessage() && item.msg.NewLeader? ==> Id(n, item.msg.idSender))
    && (item.Wait? ==> item.owner in servers)
  }

  function Cost(n: nat, servers: map<nat, Server>, item: Item): (cost: nat)
    requires Priced(n, servers, item)
    ensures cost >= 1
  {
    match item
    case Udp(_, dst, msg) => MailCost(n, dst, msg) + 2
    case Mail(dst, _, msg) => NewsCostPositive(n); MailCost(n, dst, msg)
    case Ack(_, _, _) => 1
    case Connect(_) => 1
    case Begin(_) => StartCost(n)
    case Wait(owner, neighbor, msg) =>
      WaitCost(Patience(n, servers[owner].disconnected, neighbor), CopyCost(n, owner, msg))
  }

  function WaitCost(patience: nat, copy: nat): nat {
    1 + patience * (copy + 1)
  }

  lemma NewsCostPositive(n: nat)
    ensures forall d: nat :: NewsCost(n, d) >= 2
  {
  }

  ghost predicate AllPriced(n: nat, servers: map<nat, Server>, items: seq<Item>) {
    forall x | x in items :: Priced(n, servers, x)
  }

  function Work(n: nat, servers: map<nat, Server>, items: seq<Item>): nat
    requires AllPriced(n, servers, items)
  {
    if items == [] then 0
    else
      var last := |items| - 1;
      Work(n, servers, items[..last]) + Cost(n, servers, items[last])
  }

  lemma {:induction false} WorkAdds(n: nat, servers: map<nat, Server>, a: seq<Item>, b: seq<Item>)
    requires AllPriced(n, servers, a) && AllPriced(n, servers, b)
    ensures AllPriced(n, servers, a + b)
    ensures Work(n, servers, a + b) == Work(n, servers, a) + Work(n, servers, b)
  {
    if b == [] {
      assert a + b == a;
    } else {
      var last := |b| - 1;
      WorkAdds(n, servers, a, b[..last]);
      assert (a + b)[..|a + b| - 1] == a + b[..last];
    }
  }

  lemma WorkDrops(n: nat, servers: map<nat, Server>, items: seq<Item>, k: nat)
    requires AllPriced(n, servers, items) && k < |items|
    ensures AllPriced(n, servers, Drop(items, k))
    ensures Work(n, servers, items) == Work(n, servers, Drop(items, k)) + Cost(n, servers, items[k])
  {
    var one := [items[k]];
    assert items == items[..k] + (one + items[k + 1..]);
    WorkAdds(n, servers, one, items[k + 1..]);
    WorkAdds(n, servers, items[..k], one + items[k + 1..]);
    WorkAdds(n, servers, items[..k], items[k + 1..]);
    assert one[..0] == [];
    assert Work(n, servers, one) == Cost(n, servers, items[k]);
  }

  // A server that has only added ids to its list.
  ghost predicate Lengthens(s: Server, s': Server) {
    s'.disconnected == s.disconnected
    || exists x :: s'.disconnected == s.disconnected + [x]
  }

  lemma CostShrinks(n: nat, servers: map<nat, Server>, i: nat, s': Server, item: Item)
    requires i in servers && Lengthens(servers[i], s') && Priced(n, servers, item)
    ensures Priced(n, servers[i := s'], item)
    ensures Cost(n, servers[i := s'], item) <= Cost(n, servers, item)
  {
    if item.Wait? && item.owner == i && s'.disconnected != servers[i].disconnected {
      var x :| s'.disconnected == servers[i].disconnected + [x];
      PatienceShrinks(n, servers[i].disconnected, x, item.neighbor);
      MulGrows(Patience(n, s'.disconnected, item.neighbor),
               Patience(n, servers[i].disconnected, item.neighbor),
               CopyCost(n, i, item.msg) + 1);
    }
  }

  lemma {:induction false} WorkShrinks(
    n: nat, servers: map<nat, Server>, i: nat, s': Server, items: seq<Item>)
    requires i in servers && Lengthens(servers[i], s') && AllPriced(n, servers, items)
    ensures AllPriced(n, servers[i := s'], items)
    ensures Work(n, servers[i := s'], items) <= Work(n, servers, items)
  {
    forall x | x in items ensures Priced(n, servers[i := s'], x) {
      CostShrinks(n, servers, i, s', x);
    }
    if items != [] {
      var last := |items| - 1;
      WorkShrinks(n, servers, i, s', items[..last]);
      CostShrinks(n, servers, i, s', items[last]);
    }
  }

  lemma MulGrows(a: nat, b: nat, c: nat)
    requires a <= b
    ensures a * c <= b * c
  {
  }

  lemma {:induction false} NewsCostGrows(n: nat, d: nat, e: nat)
    requires d <= e
    ensures NewsCost(n, d) <= NewsCost(n, e)
  {
    if d == 0 {
      NewsCostPositive(n);
    } else {
      NewsCostGrows(n, d - 1, e - 1);
      PostCostGrows(n, NewsCost(n, d - 1) + 2, NewsCost(n, e - 1) + 2);
    }
  }

  lemma PostCostGrows(n: nat, u: nat, v: nat)
    requires u <= v
    ensures PostCost(n, u) <= PostCost(n, v)
  {
  }

  // A hop over crashed ids does not pass a live sender: news comes closer to it.
  lemma HopComesCloser(n: nat, crashed: set<nat>, owner: nat, neighbor: nat, sender: nat)
    requires Id(n, owner) && Id(n, neighbor) && Id(n, sender)
    requires Hop(n, crashed, owner, neighbor) && sender !in crashed
    ensures Distance(n, neighbor, sender) < Gap(n, owner, sender)
  {
  }

  lemma CopyIsWorth(n: nat, crashed: set<nat>, owner: nat, neighbor: nat, msg: Message)
    requires Id(n, owner) && Id(n, neighbor) && Hop(n, crashed, owner, neighbor)
    requires msg.NewLeader? ==> Id(n, msg.idSender) && msg.idSender !in crashed
    ensures MailCost(n, neighbor, msg) + 2 <= CopyCost(n, owner, msg)
  {
    if msg.NewLeader? {
      HopComesCloser(n, crashed, owner, neighbor, msg.idSender);
      NewsCostGrows(n, Distance(n, neighbor, msg.idSender), Gap(n, owner, msg.idSender) - 1);
    }
  }

  // ---- What each handler spends ----

  // The conditions under which a server posts msg or declares itself.
  ghost predicate Ready(n: nat, crashed: set<nat>, servers: map<nat, Server>, s: Server) {
    s.id in servers && servers[s.id] == s && ServerSafe(n, crashed, s) && s.id !in crashed
  }

  ghost predicate Sound(n: nat, crashed: set<nat>, msg: Message) {
    msg.NewLeader? ==> Id(n, msg.idSender) && msg.idSender !in crashed
  }

  lemma WorkOfPost(n: nat, crashed: set<nat>, servers: map<nat, Server>, s: Server, msg: Message)
    requires Ready(n, crashed, servers, s) && Sound(n, crashed, msg)
    ensures AllPriced(n, servers, Post(s, msg))
    ensures var copy := CopyCost(n, s.id, msg);
      && Work(n, servers, Post(s, msg)) <= copy + WaitCost(Patience(n, s.disconnected, s.neighbor), copy)
      && Work(n, servers, Post(s, msg)) <= PostCost(n, copy)
  {
    var copy := CopyCost(n, s.id, msg);
    var items := Post(s, msg);
    CopyIsWorth(n, crashed, s.id, s.neighbor, msg);
    PatienceBound(n, s.disconnected, s.neighbor);
    MulGrows(Patience(n, s.disconnected, s.neighbor), 2 * n + 1, copy + 1);
    assert items[..1] == [items[0]] && items[..1][..0] == [];
    assert Work(n, servers, items) == Work(n, servers, items[..1]) + Cost(n, servers, items[1]);
  }

  lemma WorkOfDeclare(n: nat, crashed: set<nat>, servers: map<nat, Server>, s: Server)
    requires Id(n, s.id)
    ensures AllPriced(n, servers, Declare(s).items) && Work(n, servers, Declare(s).items) == 2
  {
  }

  // The bargain of one re-send: a wait pays for a copy and a wait that is less patient.
  lemma WaitPays(p: nat, q: nat, copy: nat)
    requires q < p
    ensures copy + WaitCost(q, copy) < WaitCost(p, copy)
  {
    MulGrows(q + 1, p, copy + 1);
    assert (q + 1) * (copy + 1) == q * (copy + 1) + copy + 1;
  }

  lemma LastWaitPays(p: nat, copy: nat)
    requires p >= 2
    ensures 2 < WaitCost(p, copy)
  {
  }

  lemma CheckSpends(
    n: nat, crashed: set<nat>, servers: map<nat, Server>, s: Server, neighbor: nat, msg: Message)
    requires Ready(n, crashed, servers, s) && Sound(n, crashed, msg) && Id(n, neighbor)
    requires msg.seqNo !in s.acked ==> neighbor in crashed
    ensures var r := OnCheck(n, s, neighbor, msg);
      var after := servers[s.id := r.server];
      && Lengthens(s, r.server) && AllPriced(n, after, r.items)
      && Work(n, after, r.items) < Cost(n, servers, Wait(s.id, neighbor, msg))
  {
    if msg.seqNo !in s.acked {
      var r := OnCheck(n, s, neighbor, msg);
      var after := servers[s.id := r.server];
      RefreshSafe(n, crashed, s, neighbor);
      var (s2, ok) := Refresh(n, s.(disconnected := s.disconnected + [neighbor]));
      var p := Patience(n, s.disconnected, neighbor);
      var copy := CopyCost(n, s.id, msg);
      if !ok {
        WorkOfDeclare(n, crashed, after, s2);
        PatienceBound(n, s.disconnected, neighbor);
        LastWaitPays(p, copy);
      } else {
        ResendDescends(n, s, neighbor, msg);
        WorkOfPost(n, crashed, after, s2, msg);
        WaitPays(p, Patience(n, s2.disconnected, s2.neighbor), copy);
      }
    }
  }

  lemma ElectionSpends(n: nat, crashed: set<nat>, servers: map<nat, Server>, s: Server, src: nat, msg: Message)
    requires Ready(n, crashed, servers, s) && msg.Election?
    requires WellFormed(n, msg) && msg.deadLeader in crashed
    ensures var r := OnElection(n, s, msg);
      var after := servers[s.id := r.server];
      && Lengthens(s, r.server) && AllPriced(n, after, r.items)
      && Work(n, after, r.items) < MailCost(n, s.id, msg)
  {
    var ids := msg.serverIds;
    var r := OnElection(n, s, msg);
    var after := servers[s.id := r.server];
    RefreshSafe(n, crashed, s, msg.deadLeader);
    var (s2, ok) := Refresh(n, s.(disconnected := s.disconnected + [msg.deadLeader]));
    assert r.server.disconnected == s.disconnected + [msg.deadLeader];
    if !ok {
      WorkOfDeclare(n, crashed, after, s);
      assert r.items == Declare(s).items;
    } else if s.id in ids {
      var news := NewLeader(s.id, MaxId(ids), s.seqNo);
      WorkOfPost(n, crashed, after, r.server, news);
      NewsCostGrows(n, n - 1, n);
      PostCostGrows(n, CopyCost(n, s.id, news), NewsCost(n, n) + 2);
    } else {
      SignersFit(n, ids + [s.id]);
      WorkOfPost(n, crashed, after, r.server, Election(ids + [s.id], msg.deadLeader, s.seqNo));
    }
  }

  function Elements(ids: seq<nat>): set<nat> {
    set x | x in ids
  }

  // A list of distinct ids is no longer than the ring.
  lemma SignersFit(n: nat, ids: seq<nat>)
    requires Distinct(ids) && forall x | x in ids :: Id(n, x)
    ensures |ids| <= n
  {
    DistinctCount(ids);
    IdsCount(n);
    SubsetCount(Elements(ids), Ids(n));
  }

  lemma {:induction false} DistinctCount(ids: seq<nat>)
    requires Distinct(ids)
    ensures |Elements(ids)| == |ids|
  {
    if ids != [] {
      var front, last := ids[..|ids| - 1], ids[|ids| - 1];
      DistinctCount(front);
      assert ids == front + [last];
      assert Elements(ids) == Elements(front) + {last};
    }
  }

  lemma NewLeaderSpends(n: nat, crashed: set<nat>, servers: map<nat, Server>, s: Server, msg: Message)
    requires Ready(n, crashed, servers, s) && Sound(n, crashed, msg) && msg.NewLeader?
    ensures var r := OnNewLeader(n, s, msg);
      var after := servers[s.id := r.server];
      && Lengthens(s, r.server) && AllPriced(n, after, r.items)
      && Work(n, after, r.items) < MailCost(n, s.id, msg)
  {
    var r := OnNewLeader(n, s, msg);
    var after := servers[s.id := r.server];
    UpdateNeighborKeepsHop(n, crashed, s.id, s.disconnected, s.neighbor);
    var (s2, ok) := Refresh(n, s);
    var post :=
      if msg.idSender == s.id then [] else if !ok then Declare(s).items else Post(r.server, msg);
    var connect := [Connect(s.id)];
    assert connect[..0] == [];
    if msg.idSender != s.id {
      if !ok {
        WorkOfDeclare(n, crashed, after, s);
      } else {
        WorkOfPost(n, crashed, after, r.server, msg);
      }
    }
    assert r.items == post || r.items == post + connect;
    WorkAdds(n, after, post, connect);
  }

  lemma DatagramSpends(n: nat, servers: map<nat, Server>, s: Server, src: nat, dst: nat, msg: Message)
    requires s.id in servers && servers[s.id] == s && Priced(n, servers, Udp(src, dst, msg))
    ensures var r := OnDatagram(s, src, dst, msg);
      var after := servers[s.id := r.server];
      && Lengthens(s, r.server) && AllPriced(n, after, r.items)
      && Work(n, after, r.items) < Cost(n, servers, Udp(src, dst, msg))
  {
    var items := OnDatagram(s, src, dst, msg).items;
    assert items[..1] == [items[0]] && items[..1][..0] == [];
    assert Work(n, servers[s.id := s], items)
        == Work(n, servers[s.id := s], items[..1]) + Cost(n, servers[s.id := s], items[1]);
  }

  lemma StartSpends(n: nat, crashed: set<nat>, servers: map<nat, Server>, s: Server)
    requires Ready(n, crashed, servers, s) && s.idLeader in crashed
    ensures var r := OnStartElection(n, s);
      var after := servers[s.id := r.server];
      && Lengthens(s, r.server) && AllPriced(n, after, r.items)
      && Work(n, after, r.items) < StartCost(n)
  {
    var r := OnStartElection(n, s);
    var after := servers[s.id := r.server];
    RefreshSafe(n, crashed, s, s.idLeader);
    var (s2, ok) := Refresh(n, s.(disconnected := s.disconnected + [s.idLeader]));
    if !ok {
      WorkOfDeclare(n, crashed, after, s2);
    } else {
      WorkOfPost(n, crashed, after, r.server, Election([s.id], s.idLeader, s.seqNo));
    }
  }

  lemma ReactSpends(n: nat, crashed: set<nat>, servers: map<nat, Server>, item: Item, reached: bool)
    requires item.Owner() in servers && Ready(n, crashed, servers, servers[item.Owner()])
    requires servers[item.Owner()].id == item.Owner()
    requires Priced(n, servers, item) && ItemSafe(n, crashed, item)
    requires item.HasMessage() ==> Sound(n, crashed, item.msg) && WellFormed(n, item.msg)
    requires item.Wait? && item.msg.seqNo !in servers[item.Owner()].acked ==> item.neighbor in crashed
    requires item.Begin? ==> servers[item.Owner()].idLeader in crashed
    requires forall x | x in crashed :: 1 <= x <= n
    ensures var s := servers[item.Owner()];
      var r := React(n, s, item, reached);
      var after := servers[s.id := r.server];
      && Lengthens(s, r.server) && AllPriced(n, after, r.items)
      && Work(n, after, r.items) < Cost(n, servers, item)
  {
    var s := servers[item.Owner()];
    match item
    case Udp(src, dst, msg) => DatagramSpends(n, servers, s, src, dst, msg);
    case Mail(_, src, msg) =>
      if msg.Election? { ElectionSpends(n, crashed, servers, s, src, msg); }
      else { NewLeaderSpends(n, crashed, servers, s, msg); }
    case Ack(_, ackId, seqNo) => AckRemovesNothing(n, crashed, s, seqNo);
    case Wait(_, neighbor, msg) => CheckSpends(n, crashed, servers, s, neighbor, msg);
    case Connect(_) =>
    case Begin(_) => StartSpends(n, crashed, servers, s);
  }

  // ---- Whole runs ----

  ghost predicate Good(c: Cluster, m: nat) {
    Safe(c) && Agrees(c, m) && MessagesOk(c)
  }

  lemma GoodIsPriced(c: Cluster, m: nat)
    requires Good(c, m)
    ensures AllPriced(c.n, c.servers, c.pending)
    ensures forall x | x in c.pending && x.HasMessage() ::
      Sound(c.n, c.crashed, x.msg) && WellFormed(c.n, x.msg)
    ensures forall i: nat | Live(c, i) :: i in c.servers && Ready(c.n, c.crashed, c.servers, c.servers[i])
  {
  }

  lemma SettleSpends(c: Cluster, i: nat, rest: seq<Item>, r: Reaction)
    requires i in c.servers && Lengthens(c.servers[i], r.server)
    requires AllPriced(c.n, c.servers, rest) && AllPriced(c.n, c.servers[i := r.server], r.items)
    ensures var c' := Settle(c, i, rest, r);
      && AllPriced(c.n, c'.servers, c'.pending)
      && Work(c.n, c'.servers, c'.pending)
         <= Work(c.n, c.servers, rest) + Work(c.n, c'.servers, r.items)
  {
    WorkShrinks(c.n, c.servers, i, r.server, rest);
    WorkAdds(c.n, c.servers[i := r.server], rest, r.items);
  }

  lemma HandleSpends(c: Cluster, m: nat, k: nat, reached: bool)
    requires Good(c, m) && Enabled(c, Handle(k, reached)) && Accurate(c, Handle(k, reached))
    requires AllPriced(c.n, c.servers, c.pending)
    ensures var c' := Apply(c, Handle(k, reached));
      && AllPriced(c.n, c'.servers, c'.pending)
      && Work(c.n, c'.servers, c'.pending) < Work(c.n, c.servers, c.pending)
  {
    var item := c.pending[k];
    assert item in c.pending;
    GoodIsPriced(c, m);
    WorkDrops(c.n, c.servers, c.pending, k);
    ReactSpends(c.n, c.crashed, c.servers, item, reached);
    SettleSpends(c, item.Owner(), Drop(c.pending, k),
                 React(c.n, c.servers[item.Owner()], item, reached));
  }

  lemma PingBuys(c: Cluster, m: nat, i: nat, hungUp: bool)
    requires Good(c, m) && Enabled(c, Ping(i, hungUp)) && AllPriced(c.n, c.servers, c.pending)
    ensures var c' := Apply(c, Ping(i, hungUp));
      && AllPriced(c.n, c'.servers, c'.pending)
      && Work(c.n, c'.servers, c'.pending) <= Work(c.n, c.servers, c.pending) + StartCost(c.n)
  {
    var r := OnPing(c.servers[i], hungUp);
    assert r.items[..0] == [];
    SettleSpends(c, i, c.pending, r);
  }

  // Pings that miss the leader and datagrams duplicated: the steps that make new work.
  predicate Makes(step: Step) {
    step.Ping? || step.Duplicate?
  }

  function Made(steps: seq<Step>): nat {
    if steps == [] then 0
    else Made(steps[..|steps| - 1]) + if Makes(steps[|steps| - 1]) then 1 else 0
  }

  ghost function WorkIn(c: Cluster): nat {
    if AllPriced(c.n, c.servers, c.pending) then Work(c.n, c.servers, c.pending) else 0
  }

  // A token with r servers to go is dearer than any news.
  lemma TokenIsDearest(n: nat, r: nat)
    ensures NewsCost(n, n) + 2 <= TokenCost(n, r) && TokenCost(n, r) + 2 <= PostCost(n, TokenCost(n, r) + 2)
  {
  }

  // A datagram is never worth more than what an election sets off.
  lemma DatagramIsCheap(n: nat, servers: map<nat, Server>, item: Item)
    requires Priced(n, servers, item) && (item.Udp? || item.Ack?)
    requires item.Udp? ==> WellFormed(n, item.msg)
    ensures Cost(n, servers, item) <= StartCost(n)
  {
    TokenIsDearest(n, Minus(n, 1));
    if item.Udp? && item.msg.Election? {
      assert |item.msg.serverIds| >= 1;
      TokenCostGrows(n, Minus(n, |item.msg.serverIds|), Minus(n, 1));
    }
    if item.Udp? && item.msg.NewLeader? {
      NewsCostGrows(n, Distance(n, item.dst, item.msg.idSender), n);
    }
  }

  lemma {:induction false} TokenCostGrows(n: nat, r: nat, q: nat)
    requires r <= q
    ensures TokenCost(n, r) <= TokenCost(n, q)
  {
    if r > 0 {
      TokenCostGrows(n, r - 1, q - 1);
      PostCostGrows(n, TokenCost(n, r - 1) + 2, TokenCost(n, q - 1) + 2);
    }
  }

  lemma DuplicateBuys(c: Cluster, m: nat, k: nat)
    requires Good(c, m) && Enabled(c, Duplicate(k)) && AllPriced(c.n, c.servers, c.pending)
    ensures var c' := Apply(c, Duplicate(k));
      && AllPriced(c.n, c'.servers, c'.pending)
      && Work(c.n, c'.servers, c'.pending) <= Work(c.n, c.servers, c.pending) + StartCost(c.n)
  {
    var copy := [c.pending[k]];
    assert c.pending[k] in c.pending && copy[..0] == [];
    GoodIsPriced(c, m);
    WorkAdds(c.n, c.servers, c.pending, copy);
    DatagramIsCheap(c.n, c.servers, c.pending[k]);
  }

  // A step that makes no new work uses some up.
  lemma StepSpends(c: Cluster, m: nat, step: Step)
    requires Good(c, m) && Enabled(c, step) && Accurate(c, step) && !step.Crash?
    ensures WorkIn(Apply(c, step)) + 1 <= WorkIn(c) + if Makes(step) then StartCost(c.n) + 1 else 0
  {
    GoodIsPriced(c, m);
    match step
    case Ping(i, hungUp) => PingBuys(c, m, i, hungUp);
    case Duplicate(k) => DuplicateBuys(c, m, k);
    case Handle(k, reached) => HandleSpends(c, m, k, reached);
    case Lose(k) => WorkDrops(c.n, c.servers, c.pending, k);
  }

  // Step k leaves less work behind, apart from what it makes.
  ghost predicate Spends(run: seq<Cluster>, steps: seq<Step>, price: nat, k: nat)
    requires k < |steps| && |run| == |steps| + 1
  {
    WorkIn(run[k + 1]) + 1 <= WorkIn(run[k]) + if Makes(steps[k]) then price else 0
  }

  lemma RunStepSpends(run: seq<Cluster>, steps: seq<Step>, m: nat, k: nat)
    requires IsStableRun(run, steps) && Init(run[0]) && IsBest(run[0], m) && k < |steps|
    ensures Spends(run, steps, StartCost(run[0].n) + 1, k)
  {
    RunAgrees(run, steps, m, k);
    RunKeepsMessages(run, steps, k);
    StepSpends(run[k], m, steps[k]);
  }

  // What the work made so far amounts to.
  function Budget(steps: seq<Step>, price: nat): nat {
    if steps == [] then 0
    else Budget(steps[..|steps| - 1], price) + if Makes(steps[|steps| - 1]) then price else 0
  }

  lemma {:induction false} BudgetIsMade(steps: seq<Step>, price: nat)
    ensures Budget(steps, price) == Made(steps) * price
  {
    if steps != [] {
      BudgetIsMade(steps[..|steps| - 1], price);
      assert (Made(steps[..|steps| - 1]) + 1) * price == Made(steps[..|steps| - 1]) * price + price;
    }
  }

  lemma {:induction false} SpendingEnds(run: seq<Cluster>, steps: seq<Step>, price: nat, k: nat)
    requires |run| == |steps| + 1 && WorkIn(run[0]) == 0 && k < |run|
    requires forall j: nat | j < |steps| :: Spends(run, steps, price, j)
    ensures WorkIn(run[k]) + k <= Budget(steps[..k], price)
  {
    if k > 0 {
      SpendingEnds(run, steps, price, k - 1);
      assert Spends(run, steps, price, k - 1);
      assert steps[..k][..k - 1] == steps[..k - 1];
    }
  }

  // Termination: with the crashed set fixed, a run in which p pings
  // miss the leader and d datagrams are duplicated has at most (p + d) * (StartCost(n) + 1) steps.
  lemma ElectionsEnd(run: seq<Cluster>, steps: seq<Step>, m: nat)
    requires IsStableRun(run, steps) && Init(run[0]) && IsBest(run[0], m)
    ensures |steps| <= Made(steps) * (StartCost(run[0].n) + 1)
  {
    var price := StartCost(run[0].n) + 1;
    forall j: nat | j < |steps| ensures Spends(run, steps, price, j) {
      RunStepSpends(run, steps, m, j);
    }
    SpendingEnds(run, steps, price, |steps|);
    BudgetIsMade(steps, price);
    assert steps[..|steps|] == steps;
  }
}
