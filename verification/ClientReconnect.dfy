// How passengers and drivers find the leader, at start and after a failover.
module ClientReconnect {
  import opened Ring
  import opened Cluster
  import opened ElectionSafety
  import opened ElectionAgreement
  import opened ElectionProgress

  datatype Connection = Connected(server: nat) | Refused

  // The greatest listening id, or a refusal iff nobody listens.
  predicate IsGreatest(maxServers: nat, listening: set<nat>, r: Connection) {
    match r
    case Connected(s) =>
      Id(maxServers, s) && s in listening && forall y: nat | s < y <= maxServers :: y !in listening
    case Refused => forall y: nat | 1 <= y <= maxServers :: y !in listening
  }

  // connect_to_server_leader: try the greatest id, then the others downwards.
  // `listening` is who accepts a TCP connection.
  method ConnectToServerLeader(maxServers: nat, listening: set<nat>) returns (r: Connection)
    requires maxServers >= 1
    ensures IsGreatest(maxServers, listening, r)
  {
    r := if maxServers in listening then Connected(maxServers) else Refused;
    if r.Refused? {
      var id := maxServers - 1;
      while id >= 1
        invariant 0 <= id < maxServers && r.Refused?
        invariant forall y: nat | id < y <= maxServers :: y !in listening
      {
        r := if id in listening then Connected(id) else Refused;
        if r.Connected? {
          break;
        }
        id := id - 1;
      }
    }
  }

  // Only a live server that leads accepts connections, once its listener is open.
  function Listening(c: Cluster): set<nat> {
    set i | i in c.servers && i !in c.crashed && c.servers[i].imLeader
  }

  // In any state after an election the scan can only reach the greatest live id,
  // or a server that led when it began; once the news is out it reaches the
  // leader that everybody knows.
  lemma ReconnectFindsLeader(
    run: seq<Cluster>, steps: seq<Step>, m: nat, k: nat, scan: Connection)
    requires IsStableRun(run, steps) && Init(run[0]) && IsBest(run[0], m) && k < |run|
    requires IsGreatest(run[k].n, Listening(run[k]), scan)
    ensures scan.Connected? ==>
      scan.server in run[0].servers && (scan.server == m || run[0].servers[scan.server].imLeader)
    ensures Settled(run[k], m) ==>
      scan == Connected(m) && forall y: nat | Live(run[k], y) :: run[k].servers[y].idLeader == scan.server
  {
    RunAgrees(run, steps, m, k);
    Agreement(run, steps, m, k);
    if scan.Connected? { assert Live(run[k], scan.server); }
    if Settled(run[k], m) {
      assert Live(run[k], m) && Informed(run[k].servers, m, m);
      assert m in Listening(run[k]);
    }
  }

  // After an election that nobody's crash disturbs and no loss cuts short, every
  // client that reconnects reaches the server that all live replicas follow.
  lemma ClientsFollowElection(
    run: seq<Cluster>, steps: seq<Step>, m: nat, j: nat, k: nat, scan: Connection)
    requires IsLosslessRun(run, steps) && Init(run[0]) && IsBest(run[0], m)
    requires Prompt(run[0]) && j < k < |run| && StartsElection(run[j], steps[j]) && Idle(run[k])
    requires IsGreatest(run[k].n, Listening(run[k]), scan)
    ensures scan == Connected(m)
    ensures forall y: nat | Live(run[k], y) :: run[k].servers[y].idLeader == scan.server
  {
    ElectionsSucceed(run, steps, m, j, k);
    ReconnectFindsLeader(run, steps, m, k, scan);
  }
}
