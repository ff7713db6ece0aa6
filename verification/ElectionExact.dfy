// The exact start from which elections succeed: where an old ack can be taken
// for the ack of a first message, some run without any loss comes to rest
// with nobody told.
module ElectionExact {
  import opened Ring
  import opened ElectionServer
  import opened Cluster
  import opened ElectionSafety
  import opened ElectionAgreement
  import opened MessageInvariants
  import opened ElectionProgress
  import opened ElectionTermination

  // ---- Every run can be carried on until it rests ----

  lemma RunGoesOn(run: seq<Cluster>, steps: seq<Step>, step: Step)
    requires IsLosslessRun(run, steps)
    requires Enabled(run[|steps|], step) && Accurate(run[|steps|], step) && step.Handle?
    ensures IsLosslessRun(run + [Apply(run[|steps|], step)], steps + [step])
  {
    ApplyKeepsValid(run[|steps|], step);
    var run', steps' := run + [Apply(run[|steps|], step)], steps + [step];
    forall k | 0 <= k < |steps'|
      ensures Enabled(run'[k], steps'[k]) && run'[k + 1] == Apply(run'[k], steps'[k])
      ensures Accurate(run'[k], steps'[k]) && !steps'[k].Crash? && Lossless(run'[k], steps'[k])
    {
      if k < |steps| {
        assert run'[k] == run[k] && run'[k + 1] == run[k + 1] && steps'[k] == steps[k];
      }
    }
  }

  lemma HandlingSpends(run: seq<Cluster>, steps: seq<Step>, m: nat, step: Step)
    requires IsLosslessRun(run, steps) && Init(run[0]) && IsBest(run[0], m) && step.Handle?
    requires Enabled(run[|steps|], step) && Accurate(run[|steps|], step)
    ensures WorkIn(Apply(run[|steps|], step)) < WorkIn(run[|steps|])
  {
    RunAgrees(run, steps, m, |steps|);
    RunKeepsMessages(run, steps, |steps|);
    StepSpends(run[|steps|], m, step);
  }

  // run' is run, carried on by handler calls.
  ghost predicate CarriesOn(run: seq<Cluster>, steps: seq<Step>, run': seq<Cluster>, steps': seq<Step>) {
    && IsLosslessRun(run', steps') && run <= run' && steps <= steps'
    && forall k | |steps| <= k < |steps'| :: steps'[k].Handle?
  }

  lemma CarriesOnOn(
    run: seq<Cluster>, steps: seq<Step>, run1: seq<Cluster>, steps1: seq<Step>, run': seq<Cluster>, steps': seq<Step>)
    requires |run1| == |run| + 1 && run <= run1 && |steps1| == |steps| + 1 && steps <= steps1
    requires steps1[|steps|].Handle? && CarriesOn(run1, steps1, run', steps')
    ensures CarriesOn(run, steps, run', steps')
  {
  }

  // Every run can be carried on by handler calls until none is left.
  lemma {:induction false} ComesToRest(run: seq<Cluster>, steps: seq<Step>, m: nat)
    requires IsLosslessRun(run, steps) && Init(run[0]) && IsBest(run[0], m)
    ensures exists run', steps' :: CarriesOn(run, steps, run', steps') && Idle(run'[|steps'|])
    decreases WorkIn(run[|steps|])
  {
    var c := run[|steps|];
    if Idle(c) {
      assert CarriesOn(run, steps, run, steps);
    } else {
      var k, reached :| Enabled(c, Handle(k, reached)) && Accurate(c, Handle(k, reached));
      var step := Handle(k, reached);
      RunGoesOn(run, steps, step);
      HandlingSpends(run, steps, m, step);
      var run1, steps1 := run + [Apply(c, step)], steps + [step];
      ComesToRest(run1, steps1, m);
      var run', steps' :| CarriesOn(run1, steps1, run', steps') && Idle(run'[|steps'|]);
      CarriesOnOn(run, steps, run1, steps1, run', steps');
    }
  }

  // ---- An election that a stale ack ends ----

  // An item that can still have a message posted.
  ghost predicate Hot(crashed: set<nat>, servers: map<nat, Server>, item: Item) {
    && item.HasMessage() && item.Owner() !in crashed
    && (item.Wait? ==>
          && item.owner in servers && item.neighbor in crashed
          && item.msg.seqNo !in servers[item.owner].acked)
  }

  ghost predicate Cold(crashed: set<nat>, servers: map<nat, Server>, items: seq<Item>) {
    forall x | x in items :: !Hot(crashed, servers, x)
  }

  ghost predicate OneHot(crashed: set<nat>, servers: map<nat, Server>, items: seq<Item>) {
    forall a, b | 0 <= a < b < |items| :: !(Hot(crashed, servers, items[a]) && Hot(crashed, servers, items[b]))
  }

  // The only token there is has not been at the stale server i, or has ended there.
  ghost predicate Dying(c: Cluster, i: nat, d: nat) {
    && (forall x | x in c.pending && x.HasMessage() :: x.msg.Election? && x.msg.deadLeader == d)
    && d in c.crashed && (forall x | x in c.pending :: !x.Begin?)
    && (|| Cold(c.crashed, c.servers, c.pending)
        || (&& Stale(c, i, d) && OneHot(c.crashed, c.servers, c.pending)
            && forall x | x in c.pending && Hot(c.crashed, c.servers, x) :: Misses(i, x)))
  }

  predicate Misses(i: nat, item: Item) {
    && item.HasMessage() && item.msg.Election? && i !in item.msg.serverIds
    && (item.Wait? ==> item.owner != i)
  }

  // ---- Counting hot items ----

  // If the item handled was hot, nothing else was; what it posts may be.
  lemma HotSwapped(
    crashed: set<nat>, servers: map<nat, Server>, servers': map<nat, Server>, items: seq<Item>, k: nat, more: seq<Item>)
    requires k < |items| && OneHot(crashed, servers, items) && Hot(crashed, servers, items[k])
    requires forall x | Hot(crashed, servers', x) && x in items :: Hot(crashed, servers, x)
    requires OneHot(crashed, servers', more)
    ensures OneHot(crashed, servers', Drop(items, k) + more)
    ensures forall x | x in Drop(items, k) :: !Hot(crashed, servers', x)
  {
    var rest := Drop(items, k);
    forall j | 0 <= j < |rest| ensures !Hot(crashed, servers', rest[j]) {
      assert rest[j] == items[if j < k then j else j + 1];
    }
  }

  lemma HotDropped(
    crashed: set<nat>, servers: map<nat, Server>, servers': map<nat, Server>, items: seq<Item>, k: nat)
    requires k < |items| && OneHot(crashed, servers, items)
    requires forall x | Hot(crashed, servers', x) && x in items :: Hot(crashed, servers, x)
    ensures OneHot(crashed, servers', Drop(items, k))
  {
    var rest := Drop(items, k);
    forall a, b | 0 <= a < b < |rest| ensures !(Hot(crashed, servers', rest[a]) && Hot(crashed, servers', rest[b])) {
      assert rest[a] == items[if a < k then a else a + 1] && rest[b] == items[if b < k then b else b + 1];
    }
  }

  // ---- One handler ----

  function After(c: Cluster, r: Reaction): map<nat, Server> {
    c.servers[r.server.id := r.server]
  }

  // What a handler adds: the token goes on without i's signature, or ends at i.
  ghost predicate Leaves(c: Cluster, i: nat, d: nat, s: Server, r: Reaction) {
    && r.server.id == s.id && r.server.idLeader == s.idLeader
    && (forall x | x in r.items && x.HasMessage() :: x.msg.Election? && x.msg.deadLeader == d)
    && (forall x | x in r.items :: !x.Begin?)
    && OneHot(c.crashed, After(c, r), r.items)
    && (|| Cold(c.crashed, After(c, r), r.items)
        || (&& Stale(c.(servers := After(c, r)), i, d)
            && forall x | x in r.items && Hot(c.crashed, After(c, r), x) :: Misses(i, x)))
  }

  lemma PostLeaves(c: Cluster, i: nat, d: nat, s: Server, r: Reaction, msg: Message)
    requires Valid(c) && Live(c, i) && s.id in c.servers && r.server.id == s.id
    requires r.server.idLeader == s.idLeader && r.items == Post(r.server, msg)
    requires msg.Election? && msg.deadLeader == d && s.id !in c.crashed
    requires if s.id == i then r.server.neighbor in c.crashed && msg.seqNo in r.server.acked
      else Stale(c, i, d) && i !in msg.serverIds
    ensures Leaves(c, i, d, s, r)
  {
    var servers := After(c, r);
    assert r.items[0] == Udp(s.id, r.server.neighbor, msg) && r.items[1] == Wait(s.id, r.server.neighbor, msg);
    if s.id == i {
      assert Cold(c.crashed, servers, r.items);
    } else {
      assert servers[i] == c.servers[i];
    }
  }

  // Somebody else is alive: the search for a neighbour succeeds.
  lemma NotAlone(n: nat, crashed: set<nat>, s: Server, x: nat, i: nat)
    requires ServerSafe(n, crashed, s) && x in crashed && Id(n, i) && i !in crashed && i != s.id
    ensures Refresh(n, s.(disconnected := s.disconnected + [x])).1
  {
    RefreshSafe(n, crashed, s, x);
  }

  lemma StartLeaves(c: Cluster, i: nat, d: nat, s: Server)
    requires Valid(c) && Live(c, s.id) && ServerSafe(c.n, c.crashed, s) && Stale(c, i, d) && d in c.crashed
    requires s.idLeader == d && c.servers[s.id] == s
    ensures Leaves(c, i, d, s, OnStartElection(c.n, s))
  {
    if s.id != i { NotAlone(c.n, c.crashed, s, d, i); }
    PostLeaves(c, i, d, s, OnStartElection(c.n, s), Election([s.id], d, s.seqNo));
  }

  lemma SignLeaves(c: Cluster, i: nat, d: nat, s: Server, src: nat, msg: Message)
    requires Valid(c) && Live(c, s.id) && c.servers[s.id] == s && ServerSafe(c.n, c.crashed, s)
    requires Stale(c, i, d) && d in c.crashed && msg.Election? && msg.deadLeader == d && i !in msg.serverIds
    requires TransitSafe(c.n, c.crashed, src, s.id, msg)
    ensures Leaves(c, i, d, s, OnElection(c.n, s, msg))
  {
    if s.id in msg.serverIds {
      ClosingListCovers(c.n, c.crashed, src, s.id, msg, i);
      assert false;
    }
    if s.id != i { NotAlone(c.n, c.crashed, s, d, i); }
    PostLeaves(c, i, d, s, OnElection(c.n, s, msg), Election(msg.serverIds + [s.id], d, s.seqNo));
  }

  lemma ResendLeaves(c: Cluster, i: nat, d: nat, s: Server, neighbor: nat, msg: Message)
    requires Valid(c) && Live(c, s.id) && c.servers[s.id] == s && ServerSafe(c.n, c.crashed, s)
    requires Stale(c, i, d) && msg.Election? && msg.deadLeader == d && i !in msg.serverIds
    requires s.id != i && neighbor in c.crashed && msg.seqNo !in s.acked
    ensures Leaves(c, i, d, s, OnCheck(c.n, s, neighbor, msg))
  {
    NotAlone(c.n, c.crashed, s, neighbor, i);
    PostLeaves(c, i, d, s, OnCheck(c.n, s, neighbor, msg), msg);
  }

  lemma ReceiveLeaves(c: Cluster, i: nat, d: nat, s: Server, src: nat, msg: Message)
    requires Valid(c) && Live(c, s.id) && c.servers[s.id] == s
    requires Stale(c, i, d) && msg.Election? && msg.deadLeader == d && i !in msg.serverIds
    ensures Leaves(c, i, d, s, OnDatagram(s, src, s.id, msg))
  {
    var r := OnDatagram(s, src, s.id, msg);
    assert After(c, r) == c.servers;
    assert !Hot(c.crashed, c.servers, r.items[0]);
  }

  // A hot item hands the token on, or ends it.
  lemma HotLeaves(c: Cluster, i: nat, d: nat, k: nat, reached: bool)
    requires Safe(c) && Dying(c, i, d)
    requires Enabled(c, Handle(k, reached)) && Accurate(c, Handle(k, reached))
    requires Hot(c.crashed, c.servers, c.pending[k])
    ensures var s := c.servers[c.pending[k].Owner()];
      Leaves(c, i, d, s, React(c.n, s, c.pending[k], reached))
  {
    var item := c.pending[k];
    assert item in c.pending && ItemSafe(c.n, c.crashed, item) && Misses(i, item);
    var s := c.servers[item.Owner()];
    match item
    case Udp(src, dst, msg) => ReceiveLeaves(c, i, d, s, src, msg);
    case Mail(_, src, msg) => SignLeaves(c, i, d, s, src, msg);
    case Wait(_, neighbor, msg) => ResendLeaves(c, i, d, s, neighbor, msg);
  }

  // The others leave nothing, and what was stale stays so.
  lemma ColdLeaves(c: Cluster, i: nat, d: nat, k: nat, reached: bool)
    requires Safe(c) && Dying(c, i, d)
    requires Enabled(c, Handle(k, reached)) && Accurate(c, Handle(k, reached))
    requires !Hot(c.crashed, c.servers, c.pending[k])
    ensures var s := c.servers[c.pending[k].Owner()];
      var r := React(c.n, s, c.pending[k], reached);
      && r.items == [] && r.server.id == s.id && r.server.idLeader == s.idLeader && s.acked <= r.server.acked
      && (Stale(c, i, d) ==> Stale(c.(servers := After(c, r)), i, d))
  {
    var item := c.pending[k];
    assert item in c.pending && ItemSafe(c.n, c.crashed, item);
    var s := c.servers[item.Owner()];
    if item.Ack? { AckRemovesNothing(c.n, c.crashed, s, item.seqNo); }
  }

  // ---- Whole runs ----

  // Some live server still takes d for the leader.
  ghost predicate Followed(c: Cluster, d: nat) {
    exists j: nat :: Live(c, j) && j in c.servers && c.servers[j].idLeader == d
  }

  lemma FollowerStays(c: Cluster, d: nat, c': Cluster, i: nat)
    requires Followed(c, d) && c'.n == c.n && c'.crashed == c.crashed && i in c.servers && i in c'.servers
    requires c'.servers == c.servers[i := c'.servers[i]] && c'.servers[i].idLeader == c.servers[i].idLeader
    ensures Followed(c', d)
  {
    var j: nat :| Live(c, j) && j in c.servers && c.servers[j].idLeader == d;
    assert Live(c', j) && c'.servers[j].idLeader == d;
  }

  lemma NoAckNoChange(n: nat, s: Server, item: Item, reached: bool)
    requires !item.Ack?
    ensures React(n, s, item, reached).server.acked == s.acked
  {
  }

  lemma HotGoesOn(c: Cluster, i: nat, d: nat, k: nat, reached: bool)
    requires Safe(c) && Dying(c, i, d)
    requires Enabled(c, Handle(k, reached)) && Accurate(c, Handle(k, reached))
    requires Hot(c.crashed, c.servers, c.pending[k])
    ensures Dying(Apply(c, Handle(k, reached)), i, d)
  {
    var item := c.pending[k];
    var s := c.servers[item.Owner()];
    var r := React(c.n, s, item, reached);
    assert item in c.pending;
    HotLeaves(c, i, d, k, reached);
    NoAckNoChange(c.n, s, item, reached);
    HotSwapped(c.crashed, c.servers, After(c, r), c.pending, k, r.items);
  }

  lemma ColdGoesOn(c: Cluster, i: nat, d: nat, k: nat, reached: bool)
    requires Safe(c) && Dying(c, i, d)
    requires Enabled(c, Handle(k, reached)) && Accurate(c, Handle(k, reached))
    requires !Hot(c.crashed, c.servers, c.pending[k])
    ensures Dying(Apply(c, Handle(k, reached)), i, d)
  {
    var item := c.pending[k];
    var r := React(c.n, c.servers[item.Owner()], item, reached);
    ColdLeaves(c, i, d, k, reached);
    if OneHot(c.crashed, c.servers, c.pending) {
      HotDropped(c.crashed, c.servers, After(c, r), c.pending, k);
    }
    assert Drop(c.pending, k) + r.items == Drop(c.pending, k);
  }

  lemma HandleKeepsFollower(c: Cluster, i: nat, d: nat, k: nat, reached: bool)
    requires Safe(c) && Dying(c, i, d) && Followed(c, d)
    requires Enabled(c, Handle(k, reached)) && Accurate(c, Handle(k, reached))
    ensures Followed(Apply(c, Handle(k, reached)), d)
  {
    if Hot(c.crashed, c.servers, c.pending[k]) {
      HotLeaves(c, i, d, k, reached);
    } else {
      ColdLeaves(c, i, d, k, reached);
    }
    FollowerStays(c, d, Apply(c, Handle(k, reached)), c.pending[k].Owner());
  }

  // A lost election: no token gets past i, and some live server follows d.
  ghost predicate Lost(c: Cluster, i: nat, d: nat) {
    Followed(c, d) && Dying(c, i, d)
  }

  ghost predicate KeepsLost(run: seq<Cluster>, i: nat, d: nat, k: nat)
    requires k + 1 < |run|
  {
    Lost(run[k], i, d) ==> Lost(run[k + 1], i, d)
  }

  lemma {:induction false} LostOnward(run: seq<Cluster>, i: nat, d: nat, k: nat)
    requires 2 <= k < |run| && Lost(run[2], i, d)
    requires forall j: nat | 2 <= j && j + 1 < |run| :: KeepsLost(run, i, d, j)
    ensures Lost(run[k], i, d)
  {
    if k > 2 {
      LostOnward(run, i, d, k - 1);
      assert KeepsLost(run, i, d, k - 1);
    }
  }

  lemma StepKeepsLost(run: seq<Cluster>, steps: seq<Step>, m: nat, i: nat, d: nat, k: nat)
    requires IsLosslessRun(run, steps) && Init(run[0]) && IsBest(run[0], m)
    requires k < |steps| && steps[k].Handle?
    ensures KeepsLost(run, i, d, k)
  {
    RunAgrees(run, steps, m, k);
    if Lost(run[k], i, d) {
      HandleKeepsFollower(run[k], i, d, steps[k].index, steps[k].reached);
      if Hot(run[k].crashed, run[k].servers, run[k].pending[steps[k].index]) {
        HotGoesOn(run[k], i, d, steps[k].index, steps[k].reached);
      } else {
        ColdGoesOn(run[k], i, d, steps[k].index, steps[k].reached);
      }
    }
  }

  // The cluster once server j's ping has missed d.
  ghost function Pinged(c: Cluster, j: nat): Cluster
    requires Valid(c) && Enabled(c, Ping(j, true))
  {
    Apply(c, Ping(j, true))
  }

  lemma PingThenStart(c: Cluster, j: nat, d: nat)
    requires Init(c) && d in c.crashed && Pings(c, j, d)
    ensures Valid(Pinged(c, j)) && Enabled(Pinged(c, j), Handle(0, false))
    ensures Pinged(c, j).pending == [Begin(j)]
    ensures Accurate(c, Ping(j, true)) && Accurate(Pinged(c, j), Handle(0, false))
  {
    ApplyKeepsValid(c, Ping(j, true));
  }

  lemma StartIsRun(c: Cluster, j: nat, d: nat)
    requires Init(c) && d in c.crashed && Pings(c, j, d)
    requires Valid(Pinged(c, j)) && Enabled(Pinged(c, j), Handle(0, false))
    ensures var c1 := Pinged(c, j);
      IsLosslessRun([c, c1, Apply(c1, Handle(0, false))], [Ping(j, true), Handle(0, false)])
  {
    PingThenStart(c, j, d);
    ApplyKeepsValid(Pinged(c, j), Handle(0, false));
  }

  lemma StarterFollows(c: Cluster, d: nat, j: nat)
    requires Init(c) && d in c.crashed && Pings(c, j, d)
    requires Valid(Pinged(c, j)) && Enabled(Pinged(c, j), Handle(0, false))
    ensures Followed(Apply(Pinged(c, j), Handle(0, false)), d)
  {
    var c1 := Pinged(c, j);
    PingThenStart(c, j, d);
    assert Live(c1, j) && c1.servers[j].idLeader == d;
    FollowerStays(c1, d, Apply(c1, Handle(0, false)), j);
  }

  lemma LeavesDies(c: Cluster, i: nat, d: nat, s: Server, r: Reaction)
    requires Leaves(c, i, d, s, r) && d in c.crashed
    ensures Dying(Settle(c, s.id, [], r), i, d)
  {
    assert [] + r.items == r.items;
  }

  lemma StarterLeaves(c: Cluster, i: nat, d: nat, j: nat)
    requires Init(c) && Stale(c, i, d) && d in c.crashed && Pings(c, j, d)
    requires Valid(Pinged(c, j))
    ensures var c1 := Pinged(c, j);
      j in c1.servers && Leaves(c1, i, d, c1.servers[j], OnStartElection(c1.n, c1.servers[j]))
  {
    StartLeaves(Pinged(c, j), i, d, Pinged(c, j).servers[j]);
  }

  lemma StartSettles(c: Cluster, d: nat, j: nat)
    requires Init(c) && d in c.crashed && Pings(c, j, d)
    requires Valid(Pinged(c, j)) && Enabled(Pinged(c, j), Handle(0, false))
    ensures var c1 := Pinged(c, j);
      j in c1.servers && c1.servers[j].id == j
      && Apply(c1, Handle(0, false)) == Settle(c1, j, [], OnStartElection(c1.n, c1.servers[j]))
  {
    PingThenStart(c, j, d);
    assert Drop(Pinged(c, j).pending, 0) == [];
  }

  // Server j, which misses d, starts an election.
  lemma StartDies(c: Cluster, i: nat, d: nat, j: nat)
    requires Init(c) && Stale(c, i, d) && d in c.crashed && Pings(c, j, d)
    requires Valid(Pinged(c, j)) && Enabled(Pinged(c, j), Handle(0, false))
    ensures Lost(Apply(Pinged(c, j), Handle(0, false)), i, d)
  {
    StartSettles(c, d, j);
    StarterLeaves(c, i, d, j);
    LeavesDies(Pinged(c, j), i, d, Pinged(c, j).servers[j],
               OnStartElection(Pinged(c, j).n, Pinged(c, j).servers[j]));
    StarterFollows(c, d, j);
  }

  ghost predicate Fails(c: Cluster, m: nat, run: seq<Cluster>, steps: seq<Step>) {
    && IsLosslessRun(run, steps) && run[0] == c && |steps| > 1 && StartsElection(run[1], steps[1])
    && Idle(run[|steps|]) && !Settled(run[|steps|], m)
  }

  // A stale server costs an election: started over the dead leader it is stale
  // for, and carried on to rest, it tells nobody.
  lemma StaleServerFails(c: Cluster, m: nat, i: nat, d: nat)
    requires Init(c) && IsBest(c, m) && OldLeader(c, d) && Stale(c, i, d)
    ensures exists run: seq<Cluster>, steps: seq<Step> :: Fails(c, m, run, steps)
  {
    var j: nat :| Pings(c, j, d);
    PingThenStart(c, j, d);
    StartIsRun(c, j, d);
    StartDies(c, i, d, j);
    var c1 := Pinged(c, j);
    var run1, steps1 := [c, c1, Apply(c1, Handle(0, false))], [Ping(j, true), Handle(0, false)];
    ComesToRest(run1, steps1, m);
    var run, steps :| CarriesOn(run1, steps1, run, steps) && Idle(run[|steps|]);
    assert run[0] == run1[0] && run[1] == run1[1] && run[2] == run1[2] && steps[1] == steps1[1];
    forall k: nat | 2 <= k && k + 1 < |run| ensures KeepsLost(run, i, d, k) {
      StepKeepsLost(run, steps, m, i, d, k);
    }
    LostOnward(run, i, d, |steps|);
    RunAgrees(run, steps, m, |steps|);
    LostIsUnsettled(run[|steps|], m, i, d);
    assert Fails(c, m, run, steps);
  }

  lemma LostIsUnsettled(c: Cluster, m: nat, i: nat, d: nat)
    requires Lost(c, i, d) && Valid(c) && IsBest(c, m)
    ensures !Settled(c, m)
  {
    var j: nat :| Live(c, j) && j in c.servers && c.servers[j].idLeader == d;
    assert !Informed(c.servers, m, j);
  }

  // Whatever lossless run starts an election here, it rests only when everybody
  // knows the new leader.
  ghost predicate Succeeds(c: Cluster, m: nat) {
    forall run: seq<Cluster>, steps: seq<Step>, j: nat |
      IsLosslessRun(run, steps) && run[0] == c
      && j < |steps| && StartsElection(run[j], steps[j]) && Idle(run[|steps|]) ::
      Settled(run[|steps|], m)
  }

  // Elections are sure to succeed from a start iff no live server would, told of
  // the death of a leader that somebody's ping can miss, post to a crashed
  // neighbour under a number on its ack table.
  lemma ElectionsSucceedIff(c: Cluster, m: nat)
    requires Init(c) && IsBest(c, m)
    ensures Succeeds(c, m) <==> Prompt(c)
  {
    if Prompt(c) {
      forall run: seq<Cluster>, steps: seq<Step>, j: nat |
        IsLosslessRun(run, steps) && run[0] == c
        && j < |steps| && StartsElection(run[j], steps[j]) && Idle(run[|steps|])
        ensures Settled(run[|steps|], m)
      {
        ElectionsSucceed(run, steps, m, j, |steps|);
      }
    } else {
      var i: nat, d: nat :| OldLeader(c, d) && Stale(c, i, d);
      StaleServerFails(c, m, i, d);
      var run: seq<Cluster>, steps: seq<Step> :| Fails(c, m, run, steps);
      assert StartsElection(run[1], steps[1]);
    }
  }
}
