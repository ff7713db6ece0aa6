// The leader sends whole snapshots to its replicas over TCP, in order. From the
// first one on, a replica is some earlier state of the leader, and its place in
// the leader's history never moves back.
module ReplicaPrefix {
  import opened Registry

  // One leader's reign, seen from one replica. history: every state the leader's
  // registry has had in it, the last is the present one. channel: the snapshots
  // on their way.
  datatype Link = Link(history: seq<Registry>, channel: seq<Registry>, replica: Registry)

  datatype Step = Handle(op: Op) | SendPong | ReceivePong

  predicate Enabled(l: Link, step: Step) {
    l.history != [] && (step.ReceivePong? ==> l.channel != [])
  }

  function Leader(l: Link): Registry
    requires l.history != []
  {
    l.history[|l.history| - 1]
  }

  function Next(l: Link, step: Step): Link
    requires Enabled(l, step)
  {
    match step
    case Handle(op) => l.(history := l.history + [Apply(Leader(l), op)])
    case SendPong => l.(channel := l.channel + [Leader(l)])
    case ReceivePong => l.(replica := l.channel[0], channel := l.channel[1..])
  }

  // A reign begins with whatever registry the leader brings, empty at boot or
  // that of a promoted replica, and the other replica has whatever it has.
  predicate Begins(l: Link) {
    |l.history| == 1 && l.channel == []
  }

  ghost predicate IsRun(run: seq<Link>, steps: seq<Step>) {
    && |run| == |steps| + 1 && Begins(run[0])
    && forall k | 0 <= k < |steps| :: Enabled(run[k], steps[k]) && run[k + 1] == Next(run[k], steps[k])
  }

  // A snapshot has arrived before moment a.
  predicate Received(steps: seq<Step>, a: nat) {
    exists k :: 0 <= k < a && k < |steps| && steps[k].ReceivePong?
  }

  // ---- Places in the history ----

  // Where in the history the replica, if it has received anything, and then each
  // snapshot under way stand.
  ghost predicate MarksFit(l: Link, marks: seq<nat>, received: bool) {
    && |marks| == |l.channel| + 1
    && (forall j | 0 <= j < |marks| :: marks[j] < |l.history|)
    && (forall j, k | 0 <= j < k < |marks| :: marks[j] <= marks[k])
    && (received ==> l.replica == l.history[marks[0]])
    && forall j | 0 <= j < |l.channel| :: l.channel[j] == l.history[marks[j + 1]]
  }

  function NextMarks(l: Link, marks: seq<nat>, step: Step): seq<nat>
    requires Enabled(l, step) && |marks| == |l.channel| + 1
  {
    match step
    case Handle(_) => marks
    case SendPong => marks + [|l.history| - 1]
    case ReceivePong => marks[1..]
  }

  lemma HandleFits(l: Link, marks: seq<nat>, received: bool, op: Op)
    requires Enabled(l, Handle(op)) && MarksFit(l, marks, received)
    ensures MarksFit(Next(l, Handle(op)), marks, received)
  {
    var longer := Next(l, Handle(op)).history;
    forall j | 0 <= j < |l.history| ensures longer[j] == l.history[j] {
    }
  }

  lemma SendFits(l: Link, marks: seq<nat>, received: bool)
    requires Enabled(l, SendPong) && MarksFit(l, marks, received)
    ensures MarksFit(Next(l, SendPong), marks + [|l.history| - 1], received)
  {
    var channel, longer := Next(l, SendPong).channel, marks + [|l.history| - 1];
    forall j | 0 <= j < |channel| ensures channel[j] == l.history[longer[j + 1]] {
      if j < |l.channel| { assert channel[j] == l.channel[j] && longer[j + 1] == marks[j + 1]; }
    }
  }

  lemma ReceiveFits(l: Link, marks: seq<nat>, received: bool)
    requires Enabled(l, ReceivePong) && MarksFit(l, marks, received)
    ensures MarksFit(Next(l, ReceivePong), marks[1..], true) && marks[0] <= marks[1]
  {
    var channel, shorter := Next(l, ReceivePong).channel, marks[1..];
    assert l.channel[0] == l.history[marks[0 + 1]];
    forall j | 0 <= j < |channel| ensures channel[j] == l.history[shorter[j + 1]] {
      assert channel[j] == l.channel[j + 1] && shorter[j + 1] == marks[j + 1 + 1];
    }
  }

  // Snapshots under way stay in the order of the history, and the replica's
  // place in it never moves back.
  lemma MarksStayFit(l: Link, marks: seq<nat>, received: bool, step: Step)
    requires Enabled(l, step) && MarksFit(l, marks, received)
    ensures MarksFit(Next(l, step), NextMarks(l, marks, step), received || step.ReceivePong?)
    ensures NextMarks(l, marks, step)[0] >= marks[0]
  {
    match step
    case Handle(op) => HandleFits(l, marks, received, op);
    case SendPong => SendFits(l, marks, received);
    case ReceivePong => ReceiveFits(l, marks, received);
  }

  ghost predicate Nondecreasing(pos: seq<nat>) {
    forall a, b | 0 <= a <= b < |pos| :: pos[a] <= pos[b]
  }

  // At moment a the replica is what it was at first, or the state at place pos[a].
  ghost predicate InPlace(run: seq<Link>, steps: seq<Step>, pos: seq<nat>, a: nat)
    requires a < |run| && a < |pos|
  {
    if Received(steps, a) then pos[a] < |run[a].history| && run[a].replica == run[a].history[pos[a]]
    else run[a].replica == run[0].replica
  }

  // The places up to moment n, with the marks that go on from there.
  ghost predicate Traced(run: seq<Link>, steps: seq<Step>, n: nat, pos: seq<nat>, marks: seq<nat>)
    requires n < |run|
  {
    && |pos| == n + 1 && Nondecreasing(pos)
    && (forall a: nat | a <= n :: InPlace(run, steps, pos, a))
    && MarksFit(run[n], marks, Received(steps, n)) && pos[n] == marks[0]
  }

  lemma ReceivedNext(steps: seq<Step>, n: nat)
    requires n < |steps|
    ensures Received(steps, n + 1) <==> Received(steps, n) || steps[n].ReceivePong?
  {
    if k :| 0 <= k < n && k < |steps| && steps[k].ReceivePong? {
      assert 0 <= k < n + 1;
    }
  }

  lemma TraceNext(run: seq<Link>, steps: seq<Step>, n: nat, pos: seq<nat>, marks: seq<nat>)
    requires IsRun(run, steps) && n < |steps| && Traced(run, steps, n, pos, marks)
    ensures var marks' := NextMarks(run[n], marks, steps[n]);
      |marks'| > 0 && Traced(run, steps, n + 1, pos + [marks'[0]], marks')
  {
    var l, step := run[n], steps[n];
    assert Enabled(l, step) && run[n + 1] == Next(l, step);
    var marks' := NextMarks(l, marks, step);
    MarksStayFit(l, marks, Received(steps, n), step);
    ReceivedNext(steps, n);
    var pos' := pos + [marks'[0]];
    forall a: nat | a <= n + 1 ensures InPlace(run, steps, pos', a) {
      if a <= n {
        assert InPlace(run, steps, pos, a) && pos'[a] == pos[a];
      } else if !Received(steps, n + 1) {
        assert InPlace(run, steps, pos, n) && !step.ReceivePong?;
      }
    }
  }

  lemma {:induction false} Traces(run: seq<Link>, steps: seq<Step>, n: nat)
    requires IsRun(run, steps) && n < |run|
    ensures exists pos, marks :: Traced(run, steps, n, pos, marks)
  {
    if n == 0 {
      assert Traced(run, steps, 0, [0], [0]);
    } else {
      Traces(run, steps, n - 1);
      var pos, marks :| Traced(run, steps, n - 1, pos, marks);
      TraceNext(run, steps, n - 1, pos, marks);
    }
  }

  lemma {:induction false} HistoryGrows(run: seq<Link>, steps: seq<Step>, a: nat, b: nat)
    requires IsRun(run, steps) && a <= b < |run|
    ensures run[a].history <= run[b].history
  {
    if a < b {
      HistoryGrows(run, steps, a, b - 1);
      assert Enabled(run[b - 1], steps[b - 1]) && run[b] == Next(run[b - 1], steps[b - 1]);
    }
  }

  // Replica prefix, for a whole reign: there is one sequence of places in the
  // leader's one growing history, which never moves back, such that the replica
  // is at every moment the state at its place, from the first snapshot on, and
  // what it was before that.
  lemma ReplicaIsPrefix(run: seq<Link>, steps: seq<Step>)
    requires IsRun(run, steps)
    ensures forall a, b | 0 <= a <= b < |run| :: run[a].history <= run[b].history
    ensures exists pos: seq<nat> ::
      && |pos| == |run| && Nondecreasing(pos)
      && forall a: nat | a < |run| :: InPlace(run, steps, pos, a)
  {
    forall a, b | 0 <= a <= b < |run| ensures run[a].history <= run[b].history {
      HistoryGrows(run, steps, a, b);
    }
    Traces(run, steps, |steps|);
    var pos, marks :| Traced(run, steps, |steps|, pos, marks);
    assert |pos| == |run| && Nondecreasing(pos);
  }

  // ---- Promotion ----

  ghost predicate ComesFrom(r: Registry, r': Registry) {
    exists op :: r' == Apply(r, op)
  }

  // The states of a leader, one handler after another.
  ghost predicate IsHistory(history: seq<Registry>) {
    history != [] && forall j | 0 <= j < |history| - 1 :: ComesFrom(history[j], history[j + 1])
  }

  // From any valid start, every state is valid and keeps what the earlier ones hold.
  lemma {:induction false} HistoryIsValid(history: seq<Registry>, a: nat, b: nat)
    requires IsHistory(history) && RegistryValid(history[0]) && a <= b < |history|
    ensures RegistryValid(history[b]) && Keeps(history[a], history[b])
  {
    if b > 0 {
      assert ComesFrom(history[b - 1], history[b - 1 + 1]);
      var op :| history[b] == Apply(history[b - 1], op);
      HistoryIsValid(history, if a < b then a else b - 1, b - 1);
      StepKeepsRegistry(history[b - 1], op);
    }
  }

  lemma {:induction false} RunHasHistory(run: seq<Link>, steps: seq<Step>, a: nat)
    requires IsRun(run, steps) && a < |run|
    ensures IsHistory(run[a].history) && run[a].history[0] == run[0].history[0]
  {
    if a > 0 {
      RunHasHistory(run, steps, a - 1);
      var l, step := run[a - 1], steps[a - 1];
      assert Enabled(l, step) && run[a] == Next(l, step);
      if step.Handle? {
        HistoryExtends(l.history, step.op);
      }
    }
  }

  lemma HistoryExtends(history: seq<Registry>, op: Op)
    requires IsHistory(history)
    ensures IsHistory(history + [Apply(history[|history| - 1], op)])
  {
    var longer := history + [Apply(history[|history| - 1], op)];
    forall j | 0 <= j < |longer| - 1 ensures ComesFrom(longer[j], longer[j + 1]) {
      if j < |history| - 1 {
        assert ComesFrom(history[j], history[j + 1]);
      }
    }
  }

  lemma KeepsThrough(r: Registry, r': Registry, r'': Registry)
    requires Keeps(r, r') && Keeps(r', r'')
    ensures Keeps(r, r'')
  {
  }

  // A replica promoted in the middle of any reign. After its first snapshot it
  // has a valid registry, and everyone it knows has the id the leader gave;
  // before it, it has what it had, valid or not, which agrees with the leader
  // if it agreed with what the leader began with.
  lemma PromotedReplica(run: seq<Link>, steps: seq<Step>, a: nat)
    requires IsRun(run, steps) && a < |run| && RegistryValid(run[0].history[0])
    ensures run[a].history != [] && RegistryValid(Leader(run[a]))
    ensures Received(steps, a) ==> RegistryValid(run[a].replica) && Keeps(run[a].replica, Leader(run[a]))
    ensures !Received(steps, a) ==>
      && run[a].replica == run[0].replica
      && (Keeps(run[0].replica, Leader(run[0])) ==> Keeps(run[a].replica, Leader(run[a])))
  {
    ReplicaIsPrefix(run, steps);
    var pos: seq<nat> :| |pos| == |run| && Nondecreasing(pos)
      && forall b: nat | b < |run| :: InPlace(run, steps, pos, b);
    assert InPlace(run, steps, pos, a);
    RunHasHistory(run, steps, a);
    var last := |run[a].history| - 1;
    if Received(steps, a) {
      HistoryIsValid(run[a].history, pos[a], last);
      HistoryIsValid(run[a].history, 0, pos[a]);
    } else {
      HistoryIsValid(run[a].history, 0, last);
      if Keeps(run[0].replica, Leader(run[0])) {
        KeepsThrough(run[0].replica, run[0].history[0], Leader(run[a]));
      }
    }
  }

  // The id it will give out next, in any reign: greater than all it knows, if
  // its registry is valid; and new to the old leader iff the leader has given
  // out no more ids than it knows of, which from the first snapshot on means
  // that it has missed no registration.
  lemma PromotedIdIsFreshIff(run: seq<Link>, steps: seq<Step>, a: nat)
    requires IsRun(run, steps) && a < |run| && RegistryValid(run[0].history[0])
    ensures run[a].history != []
    ensures RegistryValid(run[a].replica) ==>
      forall who, id: nat | Holds(View(run[a].replica), who, id) :: id < run[a].replica.idsCount + 1
    ensures !Taken(View(Leader(run[a])), run[a].replica.idsCount + 1)
       <==> Leader(run[a]).idsCount <= run[a].replica.idsCount
    ensures Received(steps, a) ==> run[a].replica.idsCount <= Leader(run[a]).idsCount
  {
    PromotedReplica(run, steps, a);
    NextIdIsTakenIff(Leader(run[a]), run[a].replica.idsCount + 1);
  }

  lemma NextIdIsTakenIff(r: Registry, id: nat)
    requires RegistryValid(r) && id >= 1
    ensures Taken(View(r), id) <==> id <= r.idsCount
  {
    var b := View(r);
    assert BookValid(b);
  }

  // ---- A second reign ----

  const X := PassengerLogin("x")
  const Y := PassengerLogin("y")

  function WithPassenger(name: string): Registry {
    Registry(map[], map[], map[name := 1], 1)
  }

  // The first leader logs a passenger in and gets a snapshot through to one
  // replica, but not to the other.
  const TOLD := [
    Link([EMPTY], [], EMPTY),
    Link([EMPTY, WithPassenger("x")], [], EMPTY),
    Link([EMPTY, WithPassenger("x")], [WithPassenger("x")], EMPTY),
    Link([EMPTY, WithPassenger("x")], [], WithPassenger("x"))]
  const TOLD_BY := [Handle(X), SendPong, ReceivePong]

  const UNTOLD := [Link([EMPTY], [], EMPTY), Link([EMPTY, WithPassenger("x")], [], EMPTY)]
  const UNTOLD_BY := [Handle(X)]

  // The other one leads next, and logs another passenger in.
  const SECOND := [
    Link([EMPTY], [], WithPassenger("x")),
    Link([EMPTY, WithPassenger("y")], [], WithPassenger("x"))]
  const SECOND_BY := [Handle(Y)]

  lemma LoginIsFirst(name: string)
    ensures Apply(EMPTY, PassengerLogin(name)) == WithPassenger(name)
  {
    assert map[][name := 1] == map[name := 1];
  }

  // Until the second leader's first snapshot, the replica has a state that this
  // leader never had, and an id in it is somebody else's at the leader.
  lemma SecondReignDiffers()
    ensures IsRun(TOLD, TOLD_BY) && IsRun(UNTOLD, UNTOLD_BY)
    ensures TOLD[3].history == UNTOLD[1].history
    ensures IsRun(SECOND, SECOND_BY)
    ensures SECOND[0].history == [UNTOLD[1].replica] && SECOND[0].replica == TOLD[3].replica
    ensures SECOND[1].replica !in SECOND[1].history
    ensures !Keeps(SECOND[1].replica, Leader(SECOND[1]))
  {
    LoginIsFirst("x");
    LoginIsFirst("y");
    var r, r' := WithPassenger("x"), WithPassenger("y");
    assert r.passengers["x"] == 1 && "x" !in r'.passengers;
    assert Holds(View(r), APassenger("x"), 1) && !Holds(View(r'), APassenger("x"), 1);
  }

  // A replica that missed a registration: promoted, it gives out an id that the
  // old leader has given to somebody else.
  lemma MissedRegistration()
    ensures IsRun(UNTOLD, UNTOLD_BY) && UNTOLD[1].replica.idsCount + 1 == 1
    ensures Holds(View(Leader(UNTOLD[1])), APassenger("x"), 1)
    ensures Holds(View(Apply(UNTOLD[1].replica, Y)), APassenger("y"), 1)
  {
    LoginIsFirst("x");
    LoginIsFirst("y");
  }
}
