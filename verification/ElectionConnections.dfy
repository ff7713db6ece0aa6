// Who holds a connection to the leader: exactly what makes and breaks one, and
// that after an election the followers go for the new leader.
module ElectionConnections {
  import opened Ring
  import opened ElectionServer
  import opened Cluster
  import opened ElectionSafety
  import opened ElectionAgreement
  import opened ElectionProgress

  // ---- What makes and breaks a connection ----

  predicate Connected(c: Cluster, i: nat) {
    i in c.servers && c.servers[i].connected
  }

  predicate TriesConnecting(c: Cluster, step: Step, i: nat, reached: bool) {
    step.Handle? && step.index < |c.pending| && c.pending[step.index] == Connect(i) && step.reached == reached
  }

  // Server i's ping finds the connection closed, or i is told that the leader it
  // follows is dead.
  predicate Disconnects(c: Cluster, step: Step, i: nat) {
    || (step.Ping? && step.id == i && step.hungUp)
    || (step.Handle? && step.index < |c.pending| && i in c.servers
        && var item := c.pending[step.index];
           item.Mail? && item.dst == i && item.msg.Election? && item.msg.deadLeader == c.servers[i].idLeader)
  }

  lemma ReactConnectedIff(n: nat, s: Server, item: Item, reached: bool)
    ensures React(n, s, item, reached).server.connected <==>
      || (item.Connect? && reached)
      || (s.connected && !(item.Mail? && item.msg.Election? && item.msg.deadLeader == s.idLeader))
  {
  }

  lemma StepConnectedIff(c: Cluster, step: Step, i: nat)
    requires Valid(c) && Enabled(c, step)
    ensures Connected(Apply(c, step), i) <==>
      (i in c.servers && TriesConnecting(c, step, i, true)) || (Connected(c, i) && !Disconnects(c, step, i))
  {
    if step.Handle? {
      var item := c.pending[step.index];
      assert item in c.pending && InRange(c.n, item);
      ReactConnectedIff(c.n, c.servers[item.Owner()], item, step.reached);
    }
  }

  // What step k makes of the connection.
  ghost predicate ConnectedAt(run: seq<Cluster>, steps: seq<Step>, i: nat, k: nat)
    requires k < |steps| && |run| == |steps| + 1
  {
    Connected(run[k + 1], i) <==>
      TriesConnecting(run[k], steps[k], i, true) || (Connected(run[k], i) && !DisconnectsAt(run, steps, i, k))
  }

  ghost predicate DisconnectsAt(run: seq<Cluster>, steps: seq<Step>, i: nat, t: nat)
    requires |run| == |steps| + 1 && t < |steps|
  {
    Disconnects(run[t], steps[t], i)
  }

  // Nothing has broken a connection of server i from moment j on.
  ghost predicate Unbroken(run: seq<Cluster>, steps: seq<Step>, i: nat, j: nat, k: nat)
    requires |run| == |steps| + 1 && k <= |steps|
  {
    forall t: nat | j <= t < k :: !DisconnectsAt(run, steps, i, t)
  }

  ghost predicate MadeAt(run: seq<Cluster>, steps: seq<Step>, i: nat, k: nat, t: nat)
    requires |run| == |steps| + 1 && k <= |steps|
  {
    t < k && TriesConnecting(run[t], steps[t], i, true) && Unbroken(run, steps, i, t + 1, k)
  }

  ghost predicate Holds(run: seq<Cluster>, steps: seq<Step>, i: nat, k: nat)
    requires |run| == |steps| + 1 && k <= |steps|
  {
    || (Connected(run[0], i) && Unbroken(run, steps, i, 0, k))
    || exists t: nat :: MadeAt(run, steps, i, k, t)
  }

  lemma HoldsOn(run: seq<Cluster>, steps: seq<Step>, i: nat, k: nat)
    requires |run| == |steps| + 1 && k < |steps|
    ensures Holds(run, steps, i, k + 1) <==>
      TriesConnecting(run[k], steps[k], i, true) || (Holds(run, steps, i, k) && !DisconnectsAt(run, steps, i, k))
  {
    if TriesConnecting(run[k], steps[k], i, true) {
      assert MadeAt(run, steps, i, k + 1, k);
    }
    if t: nat :| MadeAt(run, steps, i, k, t) {
      if !DisconnectsAt(run, steps, i, k) { assert MadeAt(run, steps, i, k + 1, t); }
    }
    var next := k + 1;
    if t: nat :| MadeAt(run, steps, i, next, t) {
      if t < k { assert MadeAt(run, steps, i, k, t); }
    }
  }

  lemma {:induction false} HoldsOnward(run: seq<Cluster>, steps: seq<Step>, i: nat, k: nat)
    requires |run| == |steps| + 1 && k < |run|
    requires forall t: nat | t < |steps| :: ConnectedAt(run, steps, i, t)
    ensures Connected(run[k], i) <==> Holds(run, steps, i, k)
  {
    if k > 0 {
      HoldsOnward(run, steps, i, k - 1);
      assert ConnectedAt(run, steps, i, k - 1);
      HoldsOn(run, steps, i, k - 1);
    }
  }

  // On every run, false suspicions included: a server is connected iff it was at
  // first or has reached the leader since, and after that neither has its ping
  // found the connection closed nor an Election named the leader it followed.
  lemma ConnectedIff(run: seq<Cluster>, steps: seq<Step>, i: nat, k: nat)
    requires IsRun(run, steps) && k < |run|
    ensures Connected(run[k], i) <==> Holds(run, steps, i, k)
  {
    forall t: nat | t < |steps| ensures ConnectedAt(run, steps, i, t) {
      assert Enabled(run[t], steps[t]) && run[t + 1] == Apply(run[t], steps[t]);
      StepConnectedIff(run[t], steps[t], i);
      if steps[t].Handle? { assert run[t].pending[steps[t].index] in run[t].pending; }
    }
    HoldsOnward(run, steps, i, k);
  }

  // ---- Who has heard the news ----

  predicate TakesNews(c: Cluster, step: Step, i: nat) {
    step.Handle? && step.index < |c.pending|
    && var item := c.pending[step.index]; item.Mail? && item.dst == i && item.msg.NewLeader?
  }

  // Who takes news in this step.
  ghost function Hearers(c: Cluster, step: Step): set<nat> {
    set i | i in c.servers && TakesNews(c, step, i)
  }

  ghost function HeardBy(run: seq<Cluster>, steps: seq<Step>, k: nat): set<nat>
    requires |run| == |steps| + 1 && k <= |steps|
  {
    if k == 0 then {} else HeardBy(run, steps, k - 1) + Hearers(run[k - 1], steps[k - 1])
  }

  // News of `sender` that has come as far as src was heard by every live server
  // on its way.
  ghost predicate Along(n: nat, crashed: set<nat>, heard: set<nat>, sender: nat, src: nat) {
    && Id(n, sender) && Id(n, src)
    && (src != sender ==>
          forall y: nat | Id(n, y) && y !in crashed && y != sender && Gap(n, sender, y) <= Gap(n, sender, src) ::
            y in heard)
  }

  ghost predicate ItemAlong(n: nat, crashed: set<nat>, heard: set<nat>, item: Item) {
    match item
    case Udp(src, _, msg) => msg.NewLeader? ==> Along(n, crashed, heard, msg.idSender, src)
    case Mail(_, src, msg) => msg.NewLeader? ==> Along(n, crashed, heard, msg.idSender, src)
    case Wait(owner, _, msg) => msg.NewLeader? ==> Along(n, crashed, heard, msg.idSender, owner)
    case _ => true
  }

  ghost predicate AllAlong(c: Cluster, heard: set<nat>) {
    forall x | x in c.pending :: ItemAlong(c.n, c.crashed, heard, x)
  }

  lemma AlongOneHopFurther(n: nat, crashed: set<nat>, heard: set<nat>, sender: nat, src: nat, i: nat)
    requires Id(n, i) && Along(n, crashed, heard, sender, src) && Hop(n, crashed, src, i)
    ensures Along(n, crashed, heard + {i}, sender, i)
  {
  }

  // The last hop closes the circle: everybody alive has heard the news.
  lemma HomecomingIsHeard(n: nat, crashed: set<nat>, heard: set<nat>, src: nat, i: nat)
    requires Id(n, i) && Along(n, crashed, heard, i, src) && Hop(n, crashed, src, i)
    ensures forall y: nat | Id(n, y) && y !in crashed :: y in heard + {i}
  {
  }

  lemma AlongGrows(n: nat, crashed: set<nat>, heard: set<nat>, more: set<nat>, item: Item)
    requires ItemAlong(n, crashed, heard, item) && heard <= more
    ensures ItemAlong(n, crashed, more, item)
  {
  }

  lemma ReactIsAlong(n: nat, crashed: set<nat>, heard: set<nat>, s: Server, item: Item, reached: bool)
    requires Id(n, s.id) && item.Owner() == s.id && ItemSafe(n, crashed, item) && ItemAlong(n, crashed, heard, item)
    ensures var heard' := if item.Mail? && item.msg.NewLeader? then heard + {s.id} else heard;
      forall x | x in React(n, s, item, reached).items :: ItemAlong(n, crashed, heard', x)
  {
    if item.Mail? && item.msg.NewLeader? {
      AlongOneHopFurther(n, crashed, heard, item.msg.idSender, item.src, s.id);
    }
  }

  lemma StepIsAlong(c: Cluster, step: Step, heard: set<nat>)
    requires Safe(c) && AllAlong(c, heard) && Enabled(c, step) && !step.Crash?
    ensures AllAlong(Apply(c, step), heard + Hearers(c, step))
  {
    var more, c' := heard + Hearers(c, step), Apply(c, step);
    if step.Handle? {
      var item := c.pending[step.index];
      assert item in c.pending && ItemSafe(c.n, c.crashed, item);
      ReactIsAlong(c.n, c.crashed, heard, c.servers[item.Owner()], item, step.reached);
      assert item.Mail? && item.msg.NewLeader? ==> TakesNews(c, step, item.dst) && item.dst in more;
      forall x | x in Reacts(c, step).items ensures ItemAlong(c.n, c.crashed, more, x) {
        AlongGrows(c.n, c.crashed, if item.Mail? && item.msg.NewLeader? then heard + {item.dst} else heard, more, x);
      }
    }
    forall x | x in c'.pending ensures ItemAlong(c.n, c.crashed, more, x) {
      if x in c.pending { AlongGrows(c.n, c.crashed, heard, more, x); }
    }
  }

  ghost predicate KeepsAlong(run: seq<Cluster>, steps: seq<Step>, k: nat)
    requires |run| == |steps| + 1 && k < |steps|
  {
    AllAlong(run[k], HeardBy(run, steps, k)) ==> AllAlong(run[k + 1], HeardBy(run, steps, k + 1))
  }

  lemma {:induction false} AlongOnward(run: seq<Cluster>, steps: seq<Step>, k: nat)
    requires |run| == |steps| + 1 && k < |run| && run[0].pending == []
    requires forall j: nat | j < |steps| :: KeepsAlong(run, steps, j)
    ensures AllAlong(run[k], HeardBy(run, steps, k))
  {
    if k > 0 {
      AlongOnward(run, steps, k - 1);
      assert KeepsAlong(run, steps, k - 1);
    }
  }

  lemma RunIsAlong(run: seq<Cluster>, steps: seq<Step>, m: nat, k: nat)
    requires IsStableRun(run, steps) && Init(run[0]) && IsBest(run[0], m) && k < |run|
    ensures AllAlong(run[k], HeardBy(run, steps, k))
  {
    forall j: nat | j < |steps| ensures KeepsAlong(run, steps, j) {
      RunAgrees(run, steps, m, j);
      if AllAlong(run[j], HeardBy(run, steps, j)) {
        StepIsAlong(run[j], steps[j], HeardBy(run, steps, j));
      }
    }
    AlongOnward(run, steps, k);
  }

  lemma {:induction false} HeardWhen(run: seq<Cluster>, steps: seq<Step>, i: nat, k: nat)
    requires |run| == |steps| + 1 && k <= |steps| && i in HeardBy(run, steps, k)
    ensures exists h: nat :: h < k && TakesNews(run[h], steps[h], i)
  {
    if i in HeardBy(run, steps, k - 1) {
      HeardWhen(run, steps, i, k - 1);
      var h: nat :| h < k - 1 && TakesNews(run[h], steps[h], i);
      assert h < k;
    } else {
      assert TakesNews(run[k - 1], steps[k - 1], i);
    }
  }

  // When some news has come home, every live server has taken news before.
  lemma EverybodyHears(run: seq<Cluster>, steps: seq<Step>, m: nat, t: nat, i: nat)
    requires IsStableRun(run, steps) && Init(run[0]) && IsBest(run[0], m)
    requires t < |steps| && ComesHome(run[t], steps[t]) && Live(run[t], i)
    ensures exists h: nat :: h <= t && TakesNews(run[h], steps[h], i)
  {
    var c, item := run[t], run[t].pending[steps[t].index];
    RunAgrees(run, steps, m, t);
    RunIsAlong(run, steps, m, t);
    var heard := HeardBy(run, steps, t);
    assert item in c.pending && ItemSafe(c.n, c.crashed, item) && ItemAlong(c.n, c.crashed, heard, item);
    HomecomingIsHeard(c.n, c.crashed, heard, item.src, item.dst);
    if i != item.dst {
      HeardWhen(run, steps, i, t);
      var h: nat :| h < t && TakesNews(run[h], steps[h], i);
      assert h <= t;
    } else {
      assert TakesNews(run[t], steps[t], i);
    }
  }

  // ---- Going for the new leader ----

  // Server i follows m, and is connected, about to try, or has tried in vain
  // since moment h.
  ghost predicate Served(run: seq<Cluster>, steps: seq<Step>, m: nat, i: nat, h: nat, k: nat)
    requires |run| == |steps| + 1 && k <= |steps|
  {
    && i in run[k].servers && run[k].servers[i].idLeader == m
    && (Connected(run[k], i) || Connect(i) in run[k].pending || FailedSince(run, steps, i, h, k))
  }

  ghost predicate FailedSince(run: seq<Cluster>, steps: seq<Step>, i: nat, h: nat, k: nat)
    requires |run| == |steps| + 1 && k <= |steps|
  {
    exists t: nat :: h < t < k && TriesConnecting(run[t], steps[t], i, false)
  }

  lemma NewsServes(n: nat, s: Server, msg: Message)
    requires msg.NewLeader? && msg.leaderId != s.id
    ensures var r := OnNewLeader(n, s, msg);
      r.server.idLeader == msg.leaderId && (r.server.connected || Connect(s.id) in r.items)
  {
  }

  lemma TakingServes(run: seq<Cluster>, steps: seq<Step>, m: nat, i: nat, h: nat)
    requires IsStableRun(run, steps) && Init(run[0]) && IsBest(run[0], m)
    requires h < |steps| && TakesNews(run[h], steps[h], i) && i != m
    ensures Served(run, steps, m, i, h, h + 1)
  {
    var c, item := run[h], run[h].pending[steps[h].index];
    RunAgrees(run, steps, m, h);
    assert item in c.pending && ItemAgrees(c.n, c.crashed, c.servers, m, item);
    NewsServes(c.n, c.servers[i], item.msg);
  }

  // Nobody who follows a live leader loses its connection or its attempt.
  lemma StepServes(c: Cluster, m: nat, i: nat, step: Step)
    requires Safe(c) && Agrees(c, m) && Enabled(c, step) && Accurate(c, step) && !step.Crash?
    requires Live(c, i) && c.servers[i].idLeader == m
    ensures i in Apply(c, step).servers && Apply(c, step).servers[i].idLeader == m
    ensures Connected(c, i) ==> Connected(Apply(c, step), i)
    ensures Connect(i) in c.pending ==>
      || Connect(i) in Apply(c, step).pending || Connected(Apply(c, step), i)
      || TriesConnecting(c, step, i, false)
  {
    StepKeepsAgrees(c, m, step);
    StepConnectedIff(c, step, i);
    FollowerKeepsConnection(c, m, i, step);
    if (step.Handle? || step.Lose?) && Connect(i) in c.pending && c.pending[step.index] != Connect(i) {
      DropKeeps(c.pending, step.index, Connect(i));
    }
  }

  lemma FollowerKeepsConnection(c: Cluster, m: nat, i: nat, step: Step)
    requires Safe(c) && Agrees(c, m) && Enabled(c, step) && Accurate(c, step)
    requires Live(c, i) && c.servers[i].idLeader == m
    ensures !Disconnects(c, step, i)
  {
    if step.Handle? {
      var item := c.pending[step.index];
      assert item in c.pending && ItemSafe(c.n, c.crashed, item);
    }
  }

  lemma ServedNext(run: seq<Cluster>, steps: seq<Step>, m: nat, i: nat, h: nat, k: nat)
    requires IsStableRun(run, steps) && Init(run[0]) && IsBest(run[0], m)
    requires h < k < |steps| && Live(run[0], i) && Served(run, steps, m, i, h, k)
    ensures Served(run, steps, m, i, h, k + 1)
  {
    RunAgrees(run, steps, m, k);
    StepServes(run[k], m, i, steps[k]);
    if t: nat :| h < t < k && TriesConnecting(run[t], steps[t], i, false) {
      assert h < t < k + 1;
    }
  }

  lemma {:induction false} ServedOnward(run: seq<Cluster>, steps: seq<Step>, m: nat, i: nat, h: nat, k: nat)
    requires IsStableRun(run, steps) && Init(run[0]) && IsBest(run[0], m)
    requires h < k < |run| && TakesNews(run[h], steps[h], i) && Live(run[0], i) && i != m
    ensures Served(run, steps, m, i, h, k)
  {
    if k == h + 1 {
      TakingServes(run, steps, m, i, h);
    } else {
      ServedOnward(run, steps, m, i, h, k - 1);
      ServedNext(run, steps, m, i, h, k - 1);
    }
  }

  lemma ConnectIsNotIdle(c: Cluster, i: nat)
    requires Valid(c) && Live(c, i) && Connect(i) in c.pending
    ensures !Idle(c)
  {
    var k: nat :| k < |c.pending| && c.pending[k] == Connect(i);
    assert Enabled(c, Handle(k, false)) && Accurate(c, Handle(k, false));
  }

  // From a prompt start, once an election was started, a run that has come to
  // rest has every live server but the leader itself connected, unless it has
  // tried in vain since it took the news.
  lemma FollowersConnect(run: seq<Cluster>, steps: seq<Step>, m: nat, j: nat, k: nat, i: nat)
    requires IsLosslessRun(run, steps) && Init(run[0]) && IsBest(run[0], m) && Prompt(run[0])
    requires j < k < |run| && StartsElection(run[j], steps[j]) && Idle(run[k])
    requires Live(run[0], i) && i != m
    ensures exists h: nat ::
      && h < k && TakesNews(run[h], steps[h], i)
      && (Connected(run[k], i) || FailedSince(run, steps, i, h, k))
  {
    NewsComesHome(run, steps, m, j, k);
    var t: nat :| j <= t < k && ComesHome(run[t], steps[t]);
    RunAgrees(run, steps, m, t);
    EverybodyHears(run, steps, m, t, i);
    var h: nat :| h <= t && TakesNews(run[h], steps[h], i);
    ServedOnward(run, steps, m, i, h, k);
    RunAgrees(run, steps, m, k);
    if Connect(i) in run[k].pending { ConnectIsNotIdle(run[k], i); }
  }
}
