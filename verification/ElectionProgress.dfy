// With the crashed set fixed and no datagram to a live server lost: exactly when
// is an election that was started sure not to die out before everybody knows the
// new leader?
module ElectionProgress {
  import opened Ring
  import opened ElectionServer
  import opened Cluster
  import opened ElectionSafety
  import opened ElectionAgreement

  // ---- The start ----

  // Told that d is dead, server i would post to a crashed neighbour, under a
  // number that is on its ack table already.
  predicate Stale(c: Cluster, i: nat, d: nat) {
    && Live(c, i) && i in c.servers
    && var (s, ok) := Refresh(c.n, c.servers[i].(disconnected := c.servers[i].disconnected + [d]));
       ok && s.neighbor in c.crashed && s.seqNo in s.acked
  }

  // A live server that can miss d in a ping: it has a connection, takes d for
  // the leader and does not lead itself.
  predicate Pings(c: Cluster, j: nat, d: nat) {
    && Live(c, j) && j in c.servers
    && c.servers[j].idLeader == d && c.servers[j].connected && !c.servers[j].imLeader
  }

  // A crashed server over which an election can be started.
  ghost predicate OldLeader(c: Cluster, d: nat) {
    d in c.crashed && exists j: nat :: Pings(c, j, d)
  }

  // No old ack can be taken for the ack of a first message to a crashed neighbour.
  ghost predicate Prompt(c: Cluster) {
    forall i: nat, d: nat | OldLeader(c, d) :: !Stale(c, i, d)
  }

  // ---- What keeps an election going ----

  // A message that reaches a live server, or a wait on a crashed neighbour that
  // its owner has not got past yet, without an ack for its number.
  ghost predicate Carries(n: nat, crashed: set<nat>, servers: map<nat, Server>, item: Item) {
    && Id(n, item.Owner()) && item.Owner() !in crashed && item.HasMessage()
    && (item.Wait? ==>
          && item.owner in servers && item.neighbor in crashed
          && servers[item.owner].neighbor in crashed && item.msg.seqNo !in servers[item.owner].acked)
  }

  ghost predicate UnderWay(n: nat, crashed: set<nat>, servers: map<nat, Server>, items: seq<Item>) {
    exists x :: x in items && Carries(n, crashed, servers, x)
  }

  ghost predicate Going(c: Cluster) {
    UnderWay(c.n, c.crashed, c.servers, c.pending)
  }

  // A datagram to a live server was posted to the neighbour its sender still
  // has; so whoever gets an ack in this epoch has a live neighbour.
  ghost predicate ItemLinked(crashed: set<nat>, servers: map<nat, Server>, item: Item) {
    match item
    case Udp(src, dst, _) => dst !in crashed ==> src in servers && servers[src].neighbor == dst
    case Ack(dst, _, _) => dst in servers && servers[dst].neighbor !in crashed
    case _ => true
  }

  // Server i has given out a number since the start.
  ghost predicate Started(c0: Cluster, servers: map<nat, Server>, i: nat) {
    i in servers && i in c0.servers && servers[i].seqNo > c0.servers[i].seqNo
  }

  // Who signs has given out a number; who is told the news has signed.
  ghost predicate MessageStarted(c0: Cluster, servers: map<nat, Server>, msg: Message) {
    match msg
    case Election(ids, d, _) => OldLeader(c0, d) && forall p | p in ids :: Started(c0, servers, p)
    case NewLeader(_, _, _) => forall p: nat | Live(c0, p) :: Started(c0, servers, p)
  }

  ghost predicate ItemStarted(c0: Cluster, servers: map<nat, Server>, item: Item) {
    match item
    case Udp(src, _, msg) => Started(c0, servers, src) && MessageStarted(c0, servers, msg)
    case Mail(_, _, msg) => MessageStarted(c0, servers, msg)
    case Ack(dst, _, _) => Started(c0, servers, dst)
    case Wait(owner, _, msg) => Started(c0, servers, owner) && MessageStarted(c0, servers, msg)
    case Connect(owner) => Started(c0, servers, owner)
    case Begin(owner) =>
      owner in servers && (servers[owner].idLeader in c0.crashed ==> OldLeader(c0, servers[owner].idLeader))
  }

  ghost predicate AllListed(n: nat, s: Server) {
    forall y: nat | Id(n, y) && y != s.id :: y in s.disconnected
  }

  ghost predicate Backed(crashed: set<nat>, s: Server, items: seq<Item>) {
    exists x :: x in items && x.Wait? && x.owner == s.id && x.neighbor in crashed && x.msg.seqNo !in s.acked
  }

  // A server that a message can rely on: its neighbour is alive, or its search
  // for another fails, or it has a wait behind it that will move it on.
  ghost predicate Reliable(n: nat, crashed: set<nat>, s: Server, items: seq<Item>) {
    s.neighbor !in crashed || AllListed(n, s) || Backed(crashed, s, items)
  }

  // Whom it can miss in a ping somebody could miss at the start.
  ghost predicate Accountable(c0: Cluster, s: Server) {
    s.connected && !s.imLeader && s.idLeader in c0.crashed ==> OldLeader(c0, s.idLeader)
  }

  // It is as it was at the start, or has acted since.
  ghost predicate ServerLively(c0: Cluster, s: Server, items: seq<Item>)
    requires s.id in c0.servers
  {
    && Accountable(c0, s)
    && (|| s == c0.servers[s.id].(connected := s.connected)
        || (s.seqNo > c0.servers[s.id].seqNo && Reliable(c0.n, c0.crashed, s, items)))
  }

  ghost predicate ItemLively(c0: Cluster, servers: map<nat, Server>, item: Item) {
    ItemLinked(c0.crashed, servers, item) && ItemStarted(c0, servers, item)
  }

  ghost predicate Lively(c0: Cluster, c: Cluster) {
    && c.n == c0.n && c.crashed == c0.crashed
    && Valid(c0) && Valid(c)
    && (forall i | i in c.servers && i !in c.crashed :: ServerLively(c0, c.servers[i], c.pending))
    && (forall x | x in c.pending :: ItemLively(c0, c.servers, x))
  }

  lemma StartIsLively(c: Cluster)
    requires Init(c)
    ensures Lively(c, c)
  {
    forall i | i in c.servers && i !in c.crashed ensures ServerLively(c, c.servers[i], c.pending) {
      if c.servers[i].connected && !c.servers[i].imLeader {
        assert Pings(c, i, c.servers[i].idLeader);
      }
    }
  }

  // ---- One handler ----

  // What a handler leaves behind at server s, where `rest` is outstanding besides.
  ghost predicate Moves(c0: Cluster, servers: map<nat, Server>, s: Server, rest: seq<Item>, r: Reaction)
    requires s.id in c0.servers
  {
    && r.server.id == s.id && s.seqNo <= r.server.seqNo
    && (r.server.idLeader == s.idLeader || r.server.idLeader !in c0.crashed)
    && (s.neighbor !in c0.crashed ==> r.server.neighbor == s.neighbor)
    && ServerLively(c0, r.server, rest + r.items)
    && forall x | x in r.items :: ItemLively(c0, servers, x)
  }

  // A handler that refreshes its neighbour and then posts or declares: either
  // the message goes on, or something else of this server does.
  lemma PostGoesOn(
    n: nat, crashed: set<nat>, s: Server, listed: seq<nat>, rest: seq<Item>, r: Reaction, msg: Message)
    requires ServerSafe(n, crashed, s) && s.id !in crashed
    requires s.disconnected <= listed && forall x | x in listed :: x in crashed
    requires var (neighbor, ok) := UpdateNeighbor(n, s.id, listed, s.neighbor);
      && r.server.id == s.id && r.server.disconnected == listed
      && r.server.neighbor == neighbor && r.server.acked == s.acked
      && (if ok then Post(r.server, msg) <= r.items else Declare(s).items <= r.items)
      && (ok && neighbor in crashed ==> msg.seqNo !in s.acked || Reliable(n, crashed, s, rest))
    ensures Reliable(n, crashed, r.server, rest + r.items)
    ensures s.neighbor !in crashed ==> r.server.neighbor == s.neighbor
    ensures UnderWay(n, crashed, map[s.id := r.server], rest + r.items)
  {
    UpdateNeighborKeepsHop(n, crashed, s.id, listed, s.neighbor);
    UpdateNeighborExact(n, s.id, listed, s.neighbor);
    var (neighbor, ok) := UpdateNeighbor(n, s.id, listed, s.neighbor);
    var all, servers := rest + r.items, map[s.id := r.server];
    if !ok {
      assert r.items[0] in all && Carries(n, crashed, servers, r.items[0]);
    } else if neighbor !in crashed {
      assert r.items[0] == Udp(s.id, neighbor, msg) && r.items[0] in all;
      assert Carries(n, crashed, servers, r.items[0]);
    } else if msg.seqNo !in s.acked {
      assert r.items[1] == Wait(s.id, neighbor, msg) && r.items[1] in all;
      assert Carries(n, crashed, servers, r.items[1]);
    } else {
      var x :| x in rest && x.Wait? && x.owner == s.id && x.neighbor in crashed && x.msg.seqNo !in s.acked;
      assert x in all && Carries(n, crashed, servers, x);
    }
  }

  // What is under way for s alone is under way in the cluster.
  lemma UnderWayHere(n: nat, crashed: set<nat>, servers: map<nat, Server>, s': Server, items: seq<Item>)
    requires UnderWay(n, crashed, map[s'.id := s'], items)
    ensures UnderWay(n, crashed, servers[s'.id := s'], items)
  {
    var x :| x in items && Carries(n, crashed, map[s'.id := s'], x);
    assert Carries(n, crashed, servers[s'.id := s'], x);
  }

  // Told of an old leader's death, a server goes by a number that no ack of the
  // past has, or has something else behind it.
  lemma FirstIsUnacked(c0: Cluster, s: Server, d: nat, items: seq<Item>)
    requires Prompt(c0) && Valid(c0) && Live(c0, s.id) && OldLeader(c0, d) && ServerLively(c0, s, items)
    ensures var (neighbor, ok) := UpdateNeighbor(c0.n, s.id, s.disconnected + [d], s.neighbor);
      ok && neighbor in c0.crashed ==> s.seqNo !in s.acked || Reliable(c0.n, c0.crashed, s, items)
  {
    if s == c0.servers[s.id].(connected := s.connected) {
      assert !Stale(c0, s.id, d);
    }
  }

  lemma StartedGrows(c0: Cluster, servers: map<nat, Server>, s': Server, msg: Message)
    requires s'.id in servers && servers[s'.id].seqNo <= s'.seqNo && MessageStarted(c0, servers, msg)
    ensures MessageStarted(c0, servers[s'.id := s'], msg)
  {
  }

  // The setting of a handler call: s is about to handle something.
  ghost predicate Setting(c0: Cluster, servers: map<nat, Server>, s: Server) {
    && Valid(c0) && Prompt(c0) && Live(c0, s.id) && s.id in servers
    && servers[s.id] == s
    && (forall i: nat :: i in servers <==> 1 <= i <= c0.n)
    && ServerSafe(c0.n, c0.crashed, s) && Accountable(c0, s)
  }

  // Nobody else is alive: whoever declares itself has started.
  lemma DeclareIsLively(c0: Cluster, servers: map<nat, Server>, s: Server, s': Server)
    requires Valid(c0) && s'.id == s.id && Started(c0, servers[s.id := s'], s.id)
    requires forall y: nat | Id(c0.n, y) && y != s.id :: y in c0.crashed
    ensures forall x | x in Declare(s).items :: ItemLively(c0, servers[s.id := s'], x)
  {
  }

  lemma StartMoves(c0: Cluster, servers: map<nat, Server>, s: Server, rest: seq<Item>)
    requires Setting(c0, servers, s) && ServerLively(c0, s, rest) && OldLeader(c0, s.idLeader)
    ensures var r := OnStartElection(c0.n, s);
      var after := servers[s.id := r.server];
      Moves(c0, after, s, rest, r) && UnderWay(c0.n, c0.crashed, after, rest + r.items)
  {
    var n, crashed, d := c0.n, c0.crashed, s.idLeader;
    var r := OnStartElection(n, s);
    FirstIsUnacked(c0, s, d, rest);
    RefreshSafe(n, crashed, s, d);
    PostGoesOn(n, crashed, s, s.disconnected + [d], rest, r, Election([s.id], d, s.seqNo));
    UnderWayHere(n, crashed, servers, r.server, rest + r.items);
    if !Refresh(n, s.(disconnected := s.disconnected + [d])).1 {
      DeclareIsLively(c0, servers, s, r.server);
    }
  }

  lemma CheckMoves(c0: Cluster, servers: map<nat, Server>, s: Server, rest: seq<Item>, neighbor: nat, msg: Message)
    requires Setting(c0, servers, s) && neighbor in c0.crashed && msg.seqNo !in s.acked
    requires Started(c0, servers, s.id) && MessageStarted(c0, servers, msg)
    ensures var r := OnCheck(c0.n, s, neighbor, msg);
      var after := servers[s.id := r.server];
      Moves(c0, after, s, rest, r) && UnderWay(c0.n, c0.crashed, after, rest + r.items)
  {
    var n, crashed := c0.n, c0.crashed;
    var r := OnCheck(n, s, neighbor, msg);
    RefreshSafe(n, crashed, s, neighbor);
    PostGoesOn(n, crashed, s, s.disconnected + [neighbor], rest, r, msg);
    UnderWayHere(n, crashed, servers, r.server, rest + r.items);
    StartedGrows(c0, servers, r.server, msg);
    if !Refresh(n, s.(disconnected := s.disconnected + [neighbor])).1 {
      DeclareIsLively(c0, servers, s, r.server);
    }
  }

  lemma ElectionItems(c0: Cluster, servers: map<nat, Server>, s: Server, src: nat, msg: Message)
    requires Setting(c0, servers, s) && msg.Election?
    requires TransitSafe(c0.n, c0.crashed, src, s.id, msg) && MessageStarted(c0, servers, msg)
    requires s.seqNo >= c0.servers[s.id].seqNo
    ensures var r := OnElection(c0.n, s, msg);
      forall x | x in r.items :: ItemLively(c0, servers[s.id := r.server], x)
  {
    var r := OnElection(c0.n, s, msg);
    RefreshSafe(c0.n, c0.crashed, s, msg.deadLeader);
    StartedGrows(c0, servers, r.server, msg);
    if !Refresh(c0.n, s.(disconnected := s.disconnected + [msg.deadLeader])).1 {
      DeclareIsLively(c0, servers, s, r.server);
    } else if s.id in msg.serverIds {
      forall y: nat | Live(c0, y) ensures y in msg.serverIds {
        ClosingListCovers(c0.n, c0.crashed, src, s.id, msg, y);
      }
    }
  }

  lemma ElectionMoves(c0: Cluster, servers: map<nat, Server>, s: Server, rest: seq<Item>, src: nat, msg: Message)
    requires Setting(c0, servers, s) && ServerLively(c0, s, rest) && msg.Election?
    requires TransitSafe(c0.n, c0.crashed, src, s.id, msg) && MessageStarted(c0, servers, msg)
    requires s.id in msg.serverIds ==> MaxId(msg.serverIds) !in c0.crashed
    ensures var r := OnElection(c0.n, s, msg);
      var after := servers[s.id := r.server];
      Moves(c0, after, s, rest, r) && UnderWay(c0.n, c0.crashed, after, rest + r.items)
  {
    var n, crashed, d := c0.n, c0.crashed, msg.deadLeader;
    var r := OnElection(n, s, msg);
    var posted :=
      if s.id in msg.serverIds then NewLeader(s.id, MaxId(msg.serverIds), s.seqNo)
      else Election(msg.serverIds + [s.id], d, s.seqNo);
    FirstIsUnacked(c0, s, d, rest);
    PostGoesOn(n, crashed, s, s.disconnected + [d], rest, r, posted);
    UnderWayHere(n, crashed, servers, r.server, rest + r.items);
    ElectionItems(c0, servers, s, src, msg);
  }

  lemma NewLeaderMoves(c0: Cluster, servers: map<nat, Server>, s: Server, rest: seq<Item>, msg: Message)
    requires Setting(c0, servers, s) && ServerLively(c0, s, rest) && msg.NewLeader?
    requires msg.leaderId !in c0.crashed && MessageStarted(c0, servers, msg)
    ensures var r := OnNewLeader(c0.n, s, msg);
      var after := servers[s.id := r.server];
      && Moves(c0, after, s, rest, r)
      && (msg.idSender != s.id ==> UnderWay(c0.n, c0.crashed, after, rest + r.items))
  {
    var n, crashed := c0.n, c0.crashed;
    var r := OnNewLeader(n, s, msg);
    assert Started(c0, servers, s.id);
    StartedGrows(c0, servers, r.server, msg);
    if msg.idSender != s.id {
      UpdateNeighborKeepsHop(n, crashed, s.id, s.disconnected, s.neighbor);
      PostGoesOn(n, crashed, s, s.disconnected, rest, r, msg);
      UnderWayHere(n, crashed, servers, r.server, rest + r.items);
      if !Refresh(n, s).1 {
        DeclareIsLively(c0, servers, s, r.server);
      }
    } else {
      ReliableGrows(n, crashed, s, r.server, rest, rest + r.items);
    }
  }

  lemma ReliableGrows(n: nat, crashed: set<nat>, s: Server, s': Server, items: seq<Item>, more: seq<Item>)
    requires Reliable(n, crashed, s, items) && s'.id == s.id && s'.disconnected == s.disconnected
    requires s'.neighbor == s.neighbor && (s.neighbor in crashed ==> s'.acked == s.acked)
    requires forall x | x in items && x.Wait? && x.owner == s.id && x.msg.seqNo !in s.acked :: x in more
    ensures Reliable(n, crashed, s', more)
  {
  }

  // A call that hands nothing on: what else was under way still is.
  ghost predicate Harmless(crashed: set<nat>, s: Server, s': Server) {
    s'.neighbor == s.neighbor && (s.neighbor in crashed ==> s'.acked == s.acked)
  }

  lemma ReactMoves(
    c0: Cluster, servers: map<nat, Server>, m: nat, items: seq<Item>, rest: seq<Item>, item: Item, reached: bool)
    requires item.Owner() in servers && Setting(c0, servers, servers[item.Owner()])
    requires ServerLively(c0, servers[item.Owner()], items) && forall x | x in items && x != item :: x in rest
    requires servers[item.Owner()].id == item.Owner() && m !in c0.crashed && BestOf(c0.n, c0.crashed, m)
    requires ItemSafe(c0.n, c0.crashed, item) && ItemAgrees(c0.n, c0.crashed, servers, m, item)
    requires ItemLively(c0, servers, item)
    requires item.Connect? && reached ==> servers[item.Owner()].idLeader !in c0.crashed
    requires item.Begin? ==> servers[item.Owner()].idLeader in c0.crashed
    requires item.Wait? && item.msg.seqNo !in servers[item.Owner()].acked ==> item.neighbor in c0.crashed
    requires forall x | x in c0.crashed :: 1 <= x <= c0.n
    ensures var s := servers[item.Owner()];
      var r := React(c0.n, s, item, reached);
      var after := servers[s.id := r.server];
      && Moves(c0, after, s, rest, r)
      && (|| UnderWay(c0.n, c0.crashed, after, rest + r.items)
          || (Harmless(c0.crashed, s, r.server) && !Carries(c0.n, c0.crashed, servers, item) && !item.Begin?)
          || (item.Mail? && item.msg.NewLeader? && item.msg.idSender == s.id))
  {
    var s := servers[item.Owner()];
    var r := React(c0.n, s, item, reached);
    var after := servers[s.id := r.server];
    if !(item.Wait? && item.msg.seqNo !in s.acked) {
      LivelyStays(c0, s, s, items, rest);
    }
    match item
    case Udp(src, dst, msg) =>
      assert after == servers;
      LivelyStays(c0, s, r.server, rest, rest + r.items);
      assert r.items[1] in rest + r.items && Carries(c0.n, c0.crashed, after, r.items[1]);
    case Mail(_, src, msg) =>
      if msg.Election? {
        if s.id in msg.serverIds { ClosingFindsBest(c0.n, c0.crashed, m, src, s.id, msg); }
        ElectionMoves(c0, servers, s, rest, src, msg);
      } else {
        NewLeaderMoves(c0, servers, s, rest, msg);
      }
    case Ack(_, ackId, seqNo) =>
      AckRemovesNothing(c0.n, c0.crashed, s, seqNo);
    case Wait(_, neighbor, msg) =>
      if msg.seqNo !in s.acked {
        CheckMoves(c0, servers, s, rest, neighbor, msg);
      } else {
        LivelyStays(c0, s, r.server, rest, rest + r.items);
      }
    case Connect(_) =>
      LivelyStays(c0, s, r.server, rest, rest + r.items);
    case Begin(_) => StartMoves(c0, servers, s, rest);
  }

  lemma LivelyStays(c0: Cluster, s: Server, s': Server, items: seq<Item>, more: seq<Item>)
    requires s.id in c0.servers && ServerLively(c0, s, items) && s' == s.(connected := s'.connected)
    requires s'.connected ==> s.connected || s.idLeader !in c0.crashed
    requires forall x | x in items && x.Wait? && x.owner == s.id && x.msg.seqNo !in s.acked :: x in more
    ensures ServerLively(c0, s', more)
  {
    if s.seqNo > c0.servers[s.id].seqNo && Reliable(c0.n, c0.crashed, s, items) {
      ReliableGrows(c0.n, c0.crashed, s, s', items, more);
    }
  }

  // ---- One step ----

  lemma ItemStaysLively(c0: Cluster, servers: map<nat, Server>, s': Server, item: Item)
    requires s'.id in servers && ItemLively(c0, servers, item) && servers[s'.id].seqNo <= s'.seqNo
    requires s'.idLeader == servers[s'.id].idLeader || s'.idLeader !in c0.crashed
    requires servers[s'.id].neighbor !in c0.crashed ==> s'.neighbor == servers[s'.id].neighbor
    ensures ItemLively(c0, servers[s'.id := s'], item)
  {
    if item.HasMessage() { StartedGrows(c0, servers, s', item.msg); }
  }

  lemma SettleKeepsLively(c0: Cluster, c: Cluster, i: nat, rest: seq<Item>, r: Reaction)
    requires Lively(c0, c) && Live(c, i) && Valid(Settle(c, i, rest, r))
    requires forall x | x in rest :: x in c.pending
    requires forall x | x in c.pending && x.Wait? && x.owner != i :: x in rest
    requires Moves(c0, c.servers[i := r.server], c.servers[i], rest, r)
    ensures Lively(c0, Settle(c, i, rest, r))
  {
    var c' := Settle(c, i, rest, r);
    forall x | x in c'.pending ensures ItemLively(c0, c'.servers, x) {
      if x in rest { ItemStaysLively(c0, c.servers, r.server, x); }
    }
    forall j | j in c'.servers && j !in c'.crashed ensures ServerLively(c0, c'.servers[j], c'.pending) {
      if j != i { LivelyStays(c0, c.servers[j], c.servers[j], c.pending, c'.pending); }
    }
  }

  lemma DropKeeps(items: seq<Item>, k: nat, x: Item)
    requires k < |items| && x in items && x != items[k]
    ensures x in Drop(items, k)
  {
  }

  lemma HandleMoves(c0: Cluster, c: Cluster, m: nat, k: nat, reached: bool)
    requires Prompt(c0) && Lively(c0, c) && Safe(c) && Agrees(c, m)
    requires Enabled(c, Handle(k, reached)) && Accurate(c, Handle(k, reached))
    ensures var item, rest := c.pending[k], Drop(c.pending, k);
      var s := c.servers[item.Owner()];
      var r := React(c.n, s, item, reached);
      var after := c.servers[s.id := r.server];
      && Moves(c0, after, s, rest, r)
      && (|| UnderWay(c.n, c.crashed, after, rest + r.items)
          || (Harmless(c.crashed, s, r.server) && !Carries(c.n, c.crashed, c.servers, item) && !item.Begin?)
          || (item.Mail? && item.msg.NewLeader? && item.msg.idSender == s.id))
  {
    var item, rest := c.pending[k], Drop(c.pending, k);
    assert item in c.pending && ItemSafe(c.n, c.crashed, item) && ItemAgrees(c.n, c.crashed, c.servers, m, item);
    forall x | x in c.pending && x != item ensures x in rest { DropKeeps(c.pending, k, x); }
    ReactMoves(c0, c.servers, m, c.pending, rest, item, reached);
  }

  // The step is the sender's handling of its own news.
  predicate ComesHome(c: Cluster, step: Step) {
    step.Handle? && step.index < |c.pending|
    && var item := c.pending[step.index];
       item.Mail? && item.msg.NewLeader? && item.dst == item.msg.idSender
  }

  lemma HandleIsLively(c0: Cluster, c: Cluster, m: nat, k: nat, reached: bool)
    requires Prompt(c0) && Lively(c0, c) && Safe(c) && Agrees(c, m)
    requires Enabled(c, Handle(k, reached)) && Accurate(c, Handle(k, reached))
    ensures var c' := Apply(c, Handle(k, reached));
      Lively(c0, c') && (Going(c) || c.pending[k].Begin? ==> Going(c') || ComesHome(c, Handle(k, reached)))
  {
    var item, rest := c.pending[k], Drop(c.pending, k);
    var s := c.servers[item.Owner()];
    var r := React(c.n, s, item, reached);
    HandleMoves(c0, c, m, k, reached);
    ApplyKeepsValid(c, Handle(k, reached));
    forall x | x in c.pending && x != item ensures x in rest { DropKeeps(c.pending, k, x); }
    SettleKeepsLively(c0, c, s.id, rest, r);
    if !UnderWay(c.n, c.crashed, c.servers[s.id := r.server], rest + r.items)
      && !(item.Mail? && item.msg.NewLeader? && item.msg.idSender == s.id) {
      OthersGoOn(c, s.id, item, rest, r);
    }
  }

  lemma OthersGoOn(c: Cluster, i: nat, item: Item, rest: seq<Item>, r: Reaction)
    requires i in c.servers && Harmless(c.crashed, c.servers[i], r.server)
    requires !Carries(c.n, c.crashed, c.servers, item) && forall x | x in c.pending && x != item :: x in rest
    ensures Going(c) ==> UnderWay(c.n, c.crashed, c.servers[i := r.server], rest + r.items)
  {
    if x :| x in c.pending && Carries(c.n, c.crashed, c.servers, x) {
      assert x in rest + r.items && Carries(c.n, c.crashed, c.servers[i := r.server], x);
    }
  }

  lemma PingMoves(c0: Cluster, c: Cluster, i: nat, hungUp: bool)
    requires Lively(c0, c) && Enabled(c, Ping(i, hungUp)) && Accurate(c, Ping(i, hungUp))
    ensures var r := OnPing(c.servers[i], hungUp);
      Moves(c0, c.servers[i := r.server], c.servers[i], c.pending, r)
  {
    var r := OnPing(c.servers[i], hungUp);
    LivelyStays(c0, c.servers[i], r.server, c.pending, c.pending + r.items);
  }

  lemma PingIsLively(c0: Cluster, c: Cluster, i: nat, hungUp: bool)
    requires Lively(c0, c) && Enabled(c, Ping(i, hungUp)) && Accurate(c, Ping(i, hungUp))
    ensures var c' := Apply(c, Ping(i, hungUp)); Lively(c0, c') && (Going(c) ==> Going(c'))
  {
    var r := OnPing(c.servers[i], hungUp);
    PingMoves(c0, c, i, hungUp);
    ApplyKeepsValid(c, Ping(i, hungUp));
    SettleKeepsLively(c0, c, i, c.pending, r);
    OthersGoOn(c, i, Begin(i), c.pending, r);
  }

  // No datagram to a live server is lost.
  predicate Lossless(c: Cluster, step: Step)
    requires Enabled(c, step)
  {
    step.Lose? ==> c.pending[step.index].Ack? || !Live(c, c.pending[step.index].Owner())
  }

  lemma NetworkIsLively(c0: Cluster, c: Cluster, step: Step)
    requires Lively(c0, c) && Enabled(c, step) && Lossless(c, step) && (step.Lose? || step.Duplicate?)
    ensures var c' := Apply(c, step); Lively(c0, c') && (Going(c) ==> Going(c'))
  {
    var c' := Apply(c, step);
    if step.Lose? {
      forall x | x in c.pending && x != c.pending[step.index] ensures x in c'.pending {
        DropKeeps(c.pending, step.index, x);
      }
    }
    forall i | i in c'.servers && i !in c'.crashed ensures ServerLively(c0, c'.servers[i], c'.pending) {
      LivelyStays(c0, c.servers[i], c.servers[i], c.pending, c'.pending);
    }
    if x :| x in c.pending && Carries(c.n, c.crashed, c.servers, x) {
      assert x in c'.pending;
    }
  }

  // Every step keeps what a prompt start gives, and an election that is going on
  // goes on or brings the news home.
  lemma StepKeepsGoing(c0: Cluster, c: Cluster, m: nat, step: Step)
    requires Prompt(c0) && Lively(c0, c) && Safe(c) && Agrees(c, m)
    requires Enabled(c, step) && Accurate(c, step) && !step.Crash? && Lossless(c, step)
    ensures Lively(c0, Apply(c, step))
    ensures Going(c) || StartsElection(c, step) ==> Going(Apply(c, step)) || ComesHome(c, step)
  {
    match step
    case Ping(i, hungUp) => PingIsLively(c0, c, i, hungUp);
    case Handle(k, reached) => HandleIsLively(c0, c, m, k, reached);
    case _ => NetworkIsLively(c0, c, step);
  }

  // ---- Whole runs ----

  ghost predicate IsLosslessRun(run: seq<Cluster>, steps: seq<Step>) {
    IsStableRun(run, steps) && forall k | 0 <= k < |steps| :: Lossless(run[k], steps[k])
  }

  // What one step of the run makes of the election.
  ghost predicate GoesOn(run: seq<Cluster>, steps: seq<Step>, k: nat)
    requires k < |steps| && |run| == |steps| + 1
  {
    Lively(run[0], run[k]) ==>
      && Lively(run[0], run[k + 1])
      && (Going(run[k]) || StartsElection(run[k], steps[k]) ==> Going(run[k + 1]) || ComesHome(run[k], steps[k]))
  }

  lemma StepGoesOn(run: seq<Cluster>, steps: seq<Step>, m: nat, k: nat)
    requires IsLosslessRun(run, steps) && Init(run[0]) && IsBest(run[0], m) && k < |steps|
    requires Prompt(run[0])
    ensures GoesOn(run, steps, k)
  {
    RunAgrees(run, steps, m, k);
    if Lively(run[0], run[k]) {
      StepKeepsGoing(run[0], run[k], m, steps[k]);
    }
  }

  // Some news has come home from moment j on.
  ghost predicate HomeBetween(run: seq<Cluster>, steps: seq<Step>, j: nat, k: nat)
    requires |run| == |steps| + 1 && k <= |steps|
  {
    exists t: nat :: j <= t < k && ComesHome(run[t], steps[t])
  }

  lemma GoesOnOnce(run: seq<Cluster>, steps: seq<Step>, k: nat)
    requires k < |steps| && |run| == |steps| + 1 && GoesOn(run, steps, k)
    requires Lively(run[0], run[k]) && (Going(run[k]) || StartsElection(run[k], steps[k]))
    ensures Going(run[k + 1]) || ComesHome(run[k], steps[k])
  {
  }

  lemma {:induction false} GoingUntilHome(run: seq<Cluster>, steps: seq<Step>, j: nat, k: nat)
    requires |run| == |steps| + 1 && j < k < |run| && StartsElection(run[j], steps[j]) && Lively(run[0], run[0])
    requires forall i: nat | i < |steps| :: GoesOn(run, steps, i)
    ensures Going(run[k]) || HomeBetween(run, steps, j, k)
  {
    LivelyUntil(run, steps, k - 1);
    if j < k - 1 {
      GoingUntilHome(run, steps, j, k - 1);
    }
    if HomeBetween(run, steps, j, k - 1) {
      var t: nat :| j <= t < k - 1 && ComesHome(run[t], steps[t]);
      assert j <= t < k;
    } else {
      GoesOnOnce(run, steps, k - 1);
    }
  }

  lemma {:induction false} LivelyUntil(run: seq<Cluster>, steps: seq<Step>, k: nat)
    requires |run| == |steps| + 1 && k < |run| && Lively(run[0], run[0])
    requires forall i: nat | i < |steps| :: GoesOn(run, steps, i)
    ensures Lively(run[0], run[k])
  {
    if k > 0 {
      LivelyUntil(run, steps, k - 1);
      assert GoesOn(run, steps, k - 1);
    }
  }

  // No handler has anything left to do.
  ghost predicate Idle(c: Cluster) {
    forall k, reached | Enabled(c, Handle(k, reached)) :: !Accurate(c, Handle(k, reached))
  }

  lemma GoingIsNotIdle(c: Cluster)
    requires Valid(c) && Going(c)
    ensures !Idle(c)
  {
    var x :| x in c.pending && Carries(c.n, c.crashed, c.servers, x);
    var k: nat :| k < |c.pending| && c.pending[k] == x;
    assert Enabled(c, Handle(k, true)) && Accurate(c, Handle(k, true));
  }

  // From a prompt start, once an election was started, a run that has come to
  // rest has seen some news come home.
  lemma NewsComesHome(run: seq<Cluster>, steps: seq<Step>, m: nat, j: nat, k: nat)
    requires IsLosslessRun(run, steps) && Init(run[0]) && IsBest(run[0], m)
    requires Prompt(run[0]) && j < k < |run| && StartsElection(run[j], steps[j])
    requires Idle(run[k])
    ensures HomeBetween(run, steps, j, k)
  {
    forall i: nat | i < |steps| ensures GoesOn(run, steps, i) {
      StepGoesOn(run, steps, m, i);
    }
    StartIsLively(run[0]);
    GoingUntilHome(run, steps, j, k);
    if Going(run[k]) {
      GoingIsNotIdle(run[k]);
    }
  }

  // From a prompt start elections succeed: once one was started, a run that has
  // come to rest has everybody alive following the greatest live id, and that
  // server leading.
  lemma ElectionsSucceed(run: seq<Cluster>, steps: seq<Step>, m: nat, j: nat, k: nat)
    requires IsLosslessRun(run, steps) && Init(run[0]) && IsBest(run[0], m)
    requires Prompt(run[0]) && j < k < |run| && StartsElection(run[j], steps[j])
    requires Idle(run[k])
    ensures Settled(run[k], m)
  {
    NewsComesHome(run, steps, m, j, k);
    var t: nat :| j <= t < k && ComesHome(run[t], steps[t]);
    AnnouncementCompletes(run, steps, m, t, k);
  }
}
