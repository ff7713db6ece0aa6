// Two runs of four servers from boot, every suspicion right, that show what the
// election does not keep when servers crash in the middle of it. They begin in
// the same way: servers 3 and 4 both miss the crashed leader 1 and start.
module LostElection {
  import opened Ring
  import opened ElectionServer
  import opened Cluster
  import opened ElectionProgress
  import opened ElectionLimits

  // A run from boot, after the first leader has crashed, that ends in c.
  ghost predicate Reaches(c: Cluster) {
    exists run, steps :: IsAccurateRun(run, steps) && run[0] == Boot(4, {1}) && run[|steps|] == c
  }

  lemma Boots()
    ensures Reaches(Boot(4, {1}))
  {
    BootIsStart(4, {1});
    var run: seq<Cluster>, steps: seq<Step> := [Boot(4, {1})], [];
    assert IsAccurateRun(run, steps) && run[0] == Boot(4, {1}) && run[|steps|] == Boot(4, {1});
  }

  lemma RunGoesOn(run: seq<Cluster>, steps: seq<Step>, step: Step, c': Cluster)
    requires IsAccurateRun(run, steps) && Valid(c')
    requires Enabled(run[|steps|], step) && Accurate(run[|steps|], step) && c' == Apply(run[|steps|], step)
    ensures IsAccurateRun(run + [c'], steps + [step])
  {
  }

  lemma Extend(c: Cluster, step: Step)
    requires Reaches(c) && Valid(c) && Enabled(c, step) && Accurate(c, step)
    ensures Reaches(Apply(c, step)) && Valid(Apply(c, step))
  {
    ApplyKeepsValid(c, step);
    var c' := Apply(c, step);
    var run, steps :| IsAccurateRun(run, steps) && run[0] == Boot(4, {1}) && run[|steps|] == c;
    RunGoesOn(run, steps, step, c');
    assert (run + [c'])[0] == run[0] && (run + [c'])[|steps + [step]|] == c';
  }

  // What c becomes when server s handles its k-th item: s turns into s', which
  // posts `items`.
  lemma Handles(c: Cluster, k: nat, reached: bool, s': Server, rest: seq<Item>, items: seq<Item>, c': Cluster)
    requires Reaches(c) && Valid(c) && Enabled(c, Handle(k, reached)) && Accurate(c, Handle(k, reached))
    requires Drop(c.pending, k) == rest && Actor(c, Handle(k, reached)) == s'.id
    requires React(c.n, c.servers[s'.id], c.pending[k], reached) == Reaction(s', items)
    requires c'.n == c.n && c'.crashed == c.crashed && c'.servers == c.servers[s'.id := s']
    requires c'.pending == rest + items && c'.sent == c.sent + Messages(items)
    ensures Reaches(c') && Valid(c')
  {
    Extend(c, Handle(k, reached));
  }

  lemma Misses(c: Cluster, s': Server, c': Cluster)
    requires Reaches(c) && Valid(c) && Enabled(c, Ping(s'.id, true)) && Accurate(c, Ping(s'.id, true))
    requires s' == c.servers[s'.id].(connected := false)
    requires c' == c.(servers := c.servers[s'.id := s'], pending := c.pending + [Begin(s'.id)])
    ensures Reaches(c') && Valid(c')
  {
    assert Messages([Begin(s'.id)]) == {};
    Extend(c, Ping(s'.id, true));
  }

  lemma Crashes(c: Cluster, i: nat, c': Cluster)
    requires Reaches(c) && Valid(c) && Enabled(c, Crash(i)) && c' == c.(crashed := c.crashed + {i})
    ensures Reaches(c') && Valid(c')
  {
    Extend(c, Crash(i));
  }

  lemma Loses(c: Cluster, k: nat, rest: seq<Item>, c': Cluster)
    requires Reaches(c) && Valid(c) && Enabled(c, Lose(k)) && Drop(c.pending, k) == rest
    requires c' == c.(pending := rest)
    ensures Reaches(c') && Valid(c')
  {
    Extend(c, Lose(k));
  }

  // ---- The servers and messages of the runs ----

  function At(
    two: Server, three: Server, four: Server, crashed: set<nat>, pending: seq<Item>, sent: set<Message>): Cluster
  {
    Cluster(4, map[1 := Server(1, 1, true, false, [], 2, 0, {}), 2 := two, 3 := three, 4 := four],
            crashed, pending, sent)
  }

  const T3 := Election([3], 1, 0)
  const T34 := Election([3, 4], 1, 2)
  const T342 := Election([3, 4, 2], 1, 0)
  const T4 := Election([4], 1, 0)
  const T42 := Election([4, 2], 1, 1)
  const NEWS := NewLeader(3, 4, 2)
  const T2 := Election([2], 4, 2)

  const TWO := Server(2, 1, false, true, [], 3, 0, {})
  const TWO_SIGNED := Server(2, 1, false, false, [1], 3, 1, {})
  const TWO_ACKED0 := TWO_SIGNED.(acked := {0})
  const TWO_TWICE := Server(2, 1, false, false, [1, 1], 3, 2, {0})
  const TWO_ACKED1 := TWO_TWICE.(acked := {0, 1})
  const TWO_TOLD := TWO_ACKED1.(idLeader := 4)
  const TWO_ACKED2 := TWO_TOLD.(acked := {0, 1, 2})
  const TWO_CONNECTED := TWO_ACKED2.(connected := true)
  const TWO_STARTED := TWO_ACKED2.(disconnected := [1, 1, 4], seqNo := 4)

  const THREE := Server(3, 1, false, true, [], 4, 0, {})
  const THREE_HUNG := THREE.(connected := false)
  const THREE_STARTED := Server(3, 1, false, false, [1], 4, 2, {})
  const THREE_ACKED := THREE_STARTED.(acked := {0})
  const THREE_CLOSED := Server(3, 4, false, false, [1, 1], 4, 3, {0})

  const FOUR := Server(4, 1, false, true, [], 1, 0, {})
  const FOUR_HUNG := FOUR.(connected := false)
  const FOUR_STARTED := Server(4, 1, false, false, [1], 2, 2, {})
  const FOUR_SIGNED := Server(4, 1, false, false, [1, 1], 2, 3, {})
  const FOUR_LEADS := FOUR_SIGNED.(idLeader := 4, imLeader := true)

  // What is outstanding, named by what it is and whose.
  const B3 := Begin(3)
  const B4 := Begin(4)
  const B2 := Begin(2)
  const U34 := Udp(3, 4, T3)
  const W34 := Wait(3, 4, T3)
  const A3 := Ack(3, 0, 0)
  const M4 := Mail(4, 3, T3)
  const U42 := Udp(4, 2, T4)
  const W42 := Wait(4, 2, T4)
  const A4 := Ack(4, 0, 0)
  const M2B := Mail(2, 4, T4)
  const U42A := Udp(4, 2, T34)
  const W42A := Wait(4, 2, T34)
  const A4A := Ack(4, 0, 2)
  const M2 := Mail(2, 4, T34)
  const U23 := Udp(2, 3, T342)
  const W23 := Wait(2, 3, T342)
  const A2 := Ack(2, 0, 0)
  const M3 := Mail(3, 2, T342)
  const U23B := Udp(2, 3, T42)
  const W23B := Wait(2, 3, T42)
  const A2B := Ack(2, 0, 1)
  const M3B := Mail(3, 2, T42)
  const N34 := Udp(3, 4, NEWS)
  const WN34 := Wait(3, 4, NEWS)
  const AN3 := Ack(3, 0, 2)
  const N4 := Mail(4, 3, NEWS)
  const N42 := Udp(4, 2, NEWS)
  const WN42 := Wait(4, 2, NEWS)
  const AN4 := Ack(4, 0, 2)
  const N2 := Mail(2, 4, NEWS)
  const N23 := Udp(2, 3, NEWS)
  const WN23 := Wait(2, 3, NEWS)
  const AN2 := Ack(2, 0, 2)
  const N3 := Mail(3, 2, NEWS)
  const C2 := Connect(2)
  const U2 := Udp(2, 3, T2)
  const W2 := Wait(2, 3, T2)

  const K0 := At(TWO, THREE, FOUR, {1}, [], {})

  // 3 and 4 miss the leader and start.
  const K1 := At(TWO, THREE_HUNG, FOUR, {1},
    [B3], {})
  const K2 := At(TWO, THREE_HUNG, FOUR_HUNG, {1},
    [B3, B4], {})
  const K3 := At(TWO, THREE_STARTED, FOUR_HUNG, {1},
    [B4, U34, W34], {T3})
  const K4 := At(TWO, THREE_STARTED, FOUR_STARTED, {1},
    [U34, W34, U42, W42], {T3, T4})

  // The token of 3 goes round: 4 and 2 sign it, 2 as its number 0.
  const K5 := At(TWO, THREE_STARTED, FOUR_STARTED, {1},
    [W34, U42, W42, A3, M4], {T3, T4})
  const K6 := At(TWO, THREE_STARTED, FOUR_SIGNED, {1},
    [W34, U42, W42, A3, U42A, W42A], {T3, T4, T34})
  const K7 := At(TWO, THREE_STARTED, FOUR_SIGNED, {1},
    [W34, U42, W42, A3, W42A, A4A, M2], {T3, T4, T34})
  const K8 := At(TWO_SIGNED, THREE_STARTED, FOUR_SIGNED, {1},
    [W34, U42, W42, A3, W42A, A4A, U23, W23], {T3, T4, T34, T342})
  const K9 := At(TWO_SIGNED, THREE_STARTED, FOUR_SIGNED, {1},
    [W34, U42, W42, A3, W42A, A4A, W23, A2, M3], {T3, T4, T34, T342})
  const K10 := At(TWO_SIGNED, THREE_ACKED, FOUR_SIGNED, {1},
    [W34, U42, W42, W42A, A4A, W23, A2, M3], {T3, T4, T34, T342})
  const K11 := At(TWO_SIGNED, THREE_ACKED, FOUR_SIGNED, {1},
    [U42, W42, W42A, A4A, W23, A2, M3], {T3, T4, T34, T342})
  const K12 := At(TWO_ACKED0, THREE_ACKED, FOUR_SIGNED, {1},
    [U42, W42, W42A, A4A, W23, M3], {T3, T4, T34, T342})
  const K13 := At(TWO_ACKED0, THREE_ACKED, FOUR_SIGNED, {1},
    [U42, W42, W42A, A4A, M3], {T3, T4, T34, T342})

  // ---- One end ----

  // 4 crashes before 3 closes its token; 4's own token is lost with it.
  const A14 := At(TWO_ACKED0, THREE_ACKED, FOUR_SIGNED, {1, 4},
    [U42, W42, W42A, A4A, M3], {T3, T4, T34, T342})
  const A15 := At(TWO_ACKED0, THREE_CLOSED, FOUR_SIGNED, {1, 4},
    [U42, W42, W42A, A4A, N34, WN34], {T3, T4, T34, T342, NEWS})
  const A16 := At(TWO_ACKED0, THREE_CLOSED, FOUR_SIGNED, {1, 4},
    [W42, W42A, A4A, N34, WN34], {T3, T4, T34, T342, NEWS})

  // ---- The other end ----

  // 3 closes its token and announces 4 as its number 2; 2 signs 4's token as number 1.
  const L14 := At(TWO_ACKED0, THREE_CLOSED, FOUR_SIGNED, {1},
    [U42, W42, W42A, A4A, N34, WN34], {T3, T4, T34, T342, NEWS})
  const L15 := At(TWO_ACKED0, THREE_CLOSED, FOUR_SIGNED, {1},
    [W42, W42A, A4A, N34, WN34, A4, M2B], {T3, T4, T34, T342, NEWS})
  const L16 := At(TWO_TWICE, THREE_CLOSED, FOUR_SIGNED, {1},
    [W42, W42A, A4A, N34, WN34, A4, U23B, W23B], {T3, T4, T34, T342, NEWS, T42})
  const L17 := At(TWO_TWICE, THREE_CLOSED, FOUR_SIGNED, {1},
    [W42, W42A, A4A, N34, WN34, A4, W23B, A2B, M3B], {T3, T4, T34, T342, NEWS, T42})
  const L18 := At(TWO_ACKED1, THREE_CLOSED, FOUR_SIGNED, {1},
    [W42, W42A, A4A, N34, WN34, A4, W23B, M3B], {T3, T4, T34, T342, NEWS, T42})
  const L19 := At(TWO_ACKED1, THREE_CLOSED, FOUR_SIGNED, {1},
    [W42, W42A, A4A, N34, WN34, A4, M3B], {T3, T4, T34, T342, NEWS, T42})

  // 4 takes the lead; 2 forwards the news under its number 2, gets the ack and connects to 4.
  const L20 := At(TWO_ACKED1, THREE_CLOSED, FOUR_SIGNED, {1},
    [W42, W42A, A4A, WN34, A4, M3B, AN3, N4], {T3, T4, T34, T342, NEWS, T42})
  const L21 := At(TWO_ACKED1, THREE_CLOSED, FOUR_LEADS, {1},
    [W42, W42A, A4A, WN34, A4, M3B, AN3, N42, WN42], {T3, T4, T34, T342, NEWS, T42})
  const L22 := At(TWO_ACKED1, THREE_CLOSED, FOUR_LEADS, {1},
    [W42, W42A, A4A, WN34, A4, M3B, AN3, WN42, AN4, N2], {T3, T4, T34, T342, NEWS, T42})
  const L23 := At(TWO_TOLD, THREE_CLOSED, FOUR_LEADS, {1},
    [W42, W42A, A4A, WN34, A4, M3B, AN3, WN42, AN4, N23, WN23, C2], {T3, T4, T34, T342, NEWS, T42})
  const L24 := At(TWO_TOLD, THREE_CLOSED, FOUR_LEADS, {1},
    [W42, W42A, A4A, WN34, A4, M3B, AN3, WN42, AN4, WN23, C2, AN2, N3], {T3, T4, T34, T342, NEWS, T42})
  const L25 := At(TWO_ACKED2, THREE_CLOSED, FOUR_LEADS, {1},
    [W42, W42A, A4A, WN34, A4, M3B, AN3, WN42, AN4, WN23, C2, N3], {T3, T4, T34, T342, NEWS, T42})
  const L26 := At(TWO_ACKED2, THREE_CLOSED, FOUR_LEADS, {1},
    [W42, W42A, A4A, WN34, A4, M3B, AN3, WN42, AN4, C2, N3], {T3, T4, T34, T342, NEWS, T42})
  const L27 := At(TWO_CONNECTED, THREE_CLOSED, FOUR_LEADS, {1},
    [W42, W42A, A4A, WN34, A4, M3B, AN3, WN42, AN4, N3], {T3, T4, T34, T342, NEWS, T42})

  // 3 and 4 crash; 2 misses 4 and starts, under a number that is on its ack table.
  const L28 := At(TWO_CONNECTED, THREE_CLOSED, FOUR_LEADS, {1, 3},
    [W42, W42A, A4A, WN34, A4, M3B, AN3, WN42, AN4, N3], {T3, T4, T34, T342, NEWS, T42})
  const L29 := At(TWO_CONNECTED, THREE_CLOSED, FOUR_LEADS, {1, 3, 4},
    [W42, W42A, A4A, WN34, A4, M3B, AN3, WN42, AN4, N3], {T3, T4, T34, T342, NEWS, T42})
  const L30 := At(TWO_ACKED2, THREE_CLOSED, FOUR_LEADS, {1, 3, 4},
    [W42, W42A, A4A, WN34, A4, M3B, AN3, WN42, AN4, N3, B2], {T3, T4, T34, T342, NEWS, T42})
  const L31 := At(TWO_STARTED, THREE_CLOSED, FOUR_LEADS, {1, 3, 4},
    [W42, W42A, A4A, WN34, A4, M3B, AN3, WN42, AN4, N3, U2, W2], {T3, T4, T34, T342, NEWS, T42, T2})
  const L32 := At(TWO_STARTED, THREE_CLOSED, FOUR_LEADS, {1, 3, 4},
    [W42, W42A, A4A, WN34, A4, M3B, AN3, WN42, AN4, N3, U2], {T3, T4, T34, T342, NEWS, T42, T2})

  // ---- The steps ----

  lemma StartOfRun()
    ensures Reaches(K0) && Valid(K0)
  {
    Boots();
    var booted := Boot(4, {1}).servers;
    assert Next(4, 1) == 2 && Next(4, 2) == 3 && Next(4, 3) == 4 && Next(4, 4) == 1;
    forall i: nat ensures i in booted <==> i in K0.servers {
    }
    assert booted.Keys == K0.servers.Keys;
    forall i: nat | i in booted ensures booted[i] == K0.servers[i] {
    }
    assert booted == K0.servers;
  }

  lemma Closing()
    ensures OnElection(4, THREE_ACKED, T342) == Reaction(THREE_CLOSED, [N34, WN34])
  {
    MaxIdIsMax(T342.serverIds);
    assert 4 in T342.serverIds && [1] + [1] == [1, 1];
  }

  lemma TwoTakesAcks()
    ensures OnAck(TWO_SIGNED, 0, 0) == Reaction(TWO_ACKED0, [])
    ensures OnAck(TWO_TWICE, 0, 1) == Reaction(TWO_ACKED1, [])
    ensures OnAck(TWO_TOLD, 0, 2) == Reaction(TWO_ACKED2, [])
  {
    WithoutAbsent([1], 0);
    WithoutAbsent([1, 1], 0);
    assert {0} + {1} == {0, 1} && {0, 1} + {2} == {0, 1, 2};
  }

  lemma TwoStarts()
    ensures OnStartElection(4, TWO_ACKED2) == Reaction(TWO_STARTED, [U2, W2])
  {
    assert [1, 1] + [4] == [1, 1, 4];
  }

  lemma ToK1()
    ensures Reaches(K1) && Valid(K1)
  {
    StartOfRun();
    Misses(K0, THREE_HUNG, K1);
  }

  lemma ToK2()
    ensures Reaches(K2) && Valid(K2)
  {
    ToK1();
    Misses(K1, FOUR_HUNG, K2);
  }

  lemma ToK3()
    ensures Reaches(K3) && Valid(K3)
  {
    ToK2();
    MessagesOf([U34, W34], 0, T3);
    Handles(K2, 0, false, THREE_STARTED, [B4], [U34, W34], K3);
  }

  lemma ToK4()
    ensures Reaches(K4) && Valid(K4)
  {
    ToK3();
    assert Scan(4, 4, [1], 2, 4) == (2, true);
    MessagesOf([U42, W42], 0, T4);
    Handles(K3, 0, false, FOUR_STARTED, [U34, W34], [U42, W42], K4);
  }

  lemma ToK5()
    ensures Reaches(K5) && Valid(K5)
  {
    ToK4();
    MessagesOf([A3, M4], 1, T3);
    Handles(K4, 0, false, FOUR_STARTED, [W34, U42, W42], [A3, M4], K5);
  }

  lemma ToK6()
    ensures Reaches(K6) && Valid(K6)
  {
    ToK5();
    assert [1] + [1] == [1, 1] && [3] + [4] == [3, 4];
    MessagesOf([U42A, W42A], 0, T34);
    Handles(K5, 4, false, FOUR_SIGNED, [W34, U42, W42, A3], [U42A, W42A], K6);
  }

  lemma ToK7()
    ensures Reaches(K7) && Valid(K7)
  {
    ToK6();
    MessagesOf([A4A, M2], 1, T34);
    Handles(K6, 4, false, TWO, [W34, U42, W42, A3, W42A], [A4A, M2], K7);
  }

  lemma ToK8()
    ensures Reaches(K8) && Valid(K8)
  {
    ToK7();
    assert [] + [1] == [1] && [3, 4] + [2] == [3, 4, 2];
    MessagesOf([U23, W23], 0, T342);
    Handles(K7, 6, false, TWO_SIGNED, [W34, U42, W42, A3, W42A, A4A], [U23, W23], K8);
  }

  lemma ToK9()
    ensures Reaches(K9) && Valid(K9)
  {
    ToK8();
    MessagesOf([A2, M3], 1, T342);
    Handles(K8, 6, false, THREE_STARTED, [W34, U42, W42, A3, W42A, A4A, W23], [A2, M3], K9);
  }

  lemma ToK10()
    ensures Reaches(K10) && Valid(K10)
  {
    ToK9();
    WithoutAbsent([1], 0);
    Handles(K9, 3, false, THREE_ACKED, [W34, U42, W42, W42A, A4A, W23, A2, M3], [], K10);
  }

  lemma ToK11()
    ensures Reaches(K11) && Valid(K11)
  {
    ToK10();
    Handles(K10, 0, false, THREE_ACKED, [U42, W42, W42A, A4A, W23, A2, M3], [], K11);
  }

  lemma ToK12()
    ensures Reaches(K12) && Valid(K12)
  {
    ToK11();
    TwoTakesAcks();
    Handles(K11, 5, false, TWO_ACKED0, [U42, W42, W42A, A4A, W23, M3], [], K12);
  }

  lemma ToK13()
    ensures Reaches(K13) && Valid(K13)
  {
    ToK12();
    Handles(K12, 4, false, TWO_ACKED0, [U42, W42, W42A, A4A, M3], [], K13);
  }

  lemma ToA14()
    ensures Reaches(A14) && Valid(A14)
  {
    ToK13();
    Crashes(K13, 4, A14);
  }

  lemma ToA15()
    ensures Reaches(A15) && Valid(A15)
  {
    ToA14();
    Closing();
    MessagesOf([N34, WN34], 0, NEWS);
    Handles(A14, 4, false, THREE_CLOSED, [U42, W42, W42A, A4A], [N34, WN34], A15);
  }

  lemma ToA16()
    ensures Reaches(A16) && Valid(A16)
  {
    ToA15();
    Loses(A15, 0, [W42, W42A, A4A, N34, WN34], A16);
  }

  lemma ToL14()
    ensures Reaches(L14) && Valid(L14)
  {
    ToK13();
    Closing();
    MessagesOf([N34, WN34], 0, NEWS);
    Handles(K13, 4, false, THREE_CLOSED, [U42, W42, W42A, A4A], [N34, WN34], L14);
  }

  lemma ToL15()
    ensures Reaches(L15) && Valid(L15)
  {
    ToL14();
    MessagesOf([A4, M2B], 1, T4);
    Handles(L14, 0, false, TWO_ACKED0, [W42, W42A, A4A, N34, WN34], [A4, M2B], L15);
  }

  lemma ToL16()
    ensures Reaches(L16) && Valid(L16)
  {
    ToL15();
    assert [1] + [1] == [1, 1] && [4] + [2] == [4, 2];
    MessagesOf([U23B, W23B], 0, T42);
    Handles(L15, 6, false, TWO_TWICE, [W42, W42A, A4A, N34, WN34, A4], [U23B, W23B], L16);
  }

  lemma ToL17()
    ensures Reaches(L17) && Valid(L17)
  {
    ToL16();
    MessagesOf([A2B, M3B], 1, T42);
    Handles(L16, 6, false, THREE_CLOSED, [W42, W42A, A4A, N34, WN34, A4, W23B], [A2B, M3B], L17);
  }

  lemma ToL18()
    ensures Reaches(L18) && Valid(L18)
  {
    ToL17();
    TwoTakesAcks();
    Handles(L17, 7, false, TWO_ACKED1, [W42, W42A, A4A, N34, WN34, A4, W23B, M3B], [], L18);
  }

  lemma ToL19()
    ensures Reaches(L19) && Valid(L19)
  {
    ToL18();
    Handles(L18, 6, false, TWO_ACKED1, [W42, W42A, A4A, N34, WN34, A4, M3B], [], L19);
  }

  lemma ToL20()
    ensures Reaches(L20) && Valid(L20)
  {
    ToL19();
    MessagesOf([AN3, N4], 1, NEWS);
    Handles(L19, 3, false, FOUR_SIGNED, [W42, W42A, A4A, WN34, A4, M3B], [AN3, N4], L20);
  }

  lemma ToL21()
    ensures Reaches(L21) && Valid(L21)
  {
    ToL20();
    MessagesOf([N42, WN42], 0, NEWS);
    Handles(L20, 7, false, FOUR_LEADS, [W42, W42A, A4A, WN34, A4, M3B, AN3], [N42, WN42], L21);
  }

  lemma ToL22()
    ensures Reaches(L22) && Valid(L22)
  {
    ToL21();
    MessagesOf([AN4, N2], 1, NEWS);
    Handles(L21, 7, false, TWO_ACKED1, [W42, W42A, A4A, WN34, A4, M3B, AN3, WN42], [AN4, N2], L22);
  }

  lemma ToL23()
    ensures Reaches(L23) && Valid(L23)
  {
    ToL22();
    MessagesOf([N23, WN23, C2], 0, NEWS);
    Handles(L22, 9, false, TWO_TOLD, [W42, W42A, A4A, WN34, A4, M3B, AN3, WN42, AN4], [N23, WN23, C2], L23);
  }

  lemma ToL24()
    ensures Reaches(L24) && Valid(L24)
  {
    ToL23();
    MessagesOf([AN2, N3], 1, NEWS);
    Handles(L23, 9, false, THREE_CLOSED, [W42, W42A, A4A, WN34, A4, M3B, AN3, WN42, AN4, WN23, C2], [AN2, N3], L24);
  }

  lemma ToL25()
    ensures Reaches(L25) && Valid(L25)
  {
    ToL24();
    TwoTakesAcks();
    Handles(L24, 11, false, TWO_ACKED2, [W42, W42A, A4A, WN34, A4, M3B, AN3, WN42, AN4, WN23, C2, N3], [], L25);
  }

  lemma ToL26()
    ensures Reaches(L26) && Valid(L26)
  {
    ToL25();
    Handles(L25, 9, false, TWO_ACKED2, [W42, W42A, A4A, WN34, A4, M3B, AN3, WN42, AN4, C2, N3], [], L26);
  }

  lemma ToL27()
    ensures Reaches(L27) && Valid(L27)
  {
    ToL26();
    Handles(L26, 9, true, TWO_CONNECTED, [W42, W42A, A4A, WN34, A4, M3B, AN3, WN42, AN4, N3], [], L27);
  }

  lemma ToL28()
    ensures Reaches(L28) && Valid(L28)
  {
    ToL27();
    Crashes(L27, 3, L28);
  }

  lemma ToL29()
    ensures Reaches(L29) && Valid(L29)
  {
    ToL28();
    Crashes(L28, 4, L29);
  }

  lemma ToL30()
    ensures Reaches(L30) && Valid(L30)
  {
    ToL29();
    Misses(L29, TWO_ACKED2, L30);
  }

  lemma ToL31()
    ensures Reaches(L31) && Valid(L31)
  {
    ToL30();
    TwoStarts();
    MessagesOf([U2, W2], 0, T2);
    Handles(L30, 10, false, TWO_STARTED, [W42, W42A, A4A, WN34, A4, M3B, AN3, WN42, AN4, N3], [U2, W2], L31);
  }

  lemma ToL32()
    ensures Reaches(L32) && Valid(L32)
  {
    ToL31();
    Handles(L31, 11, false, TWO_STARTED, [W42, W42A, A4A, WN34, A4, M3B, AN3, WN42, AN4, N3, U2], [], L32);
  }

  // A server that crashes after it has signed the token is announced as leader.
  lemma CrashedServerIsElected()
    ensures Reaches(A15) && NEWS in A15.sent && NEWS.leaderId in A15.crashed
  {
    ToA15();
  }

  // Every item left belongs to a crashed server.
  lemma AtRest()
    ensures Idle(L32)
  {
    forall x | x in L32.pending ensures x.Owner() == 3 || x.Owner() == 4 {
    }
  }

  // An election that a live server starts comes to rest without an answer: its
  // token goes to a crashed neighbour only, is not sent on, and the server goes
  // on following a crashed leader.
  lemma ElectionIsLost()
    ensures Reaches(L32) && Idle(L32)
    ensures Live(L32, 2) && L32.servers[2].idLeader in L32.crashed && !L32.servers[2].imLeader
    ensures T2 in L32.sent && T2.Origin() == 2
  {
    ToL32();
    AtRest();
  }
}
