// A driver and its rides: the driver sends itself one task after another, tells
// the server over one ordered channel when it is taken and when it is free, and
// the server's record of it converges to the driver's own.
module Ride {
  import opened Options
  import opened Walk
  import opened Registry
  import opened SocketUpdates

  datatype Driver = Driver(
    name: string,
    socket: string,
    available: bool,
    registered: bool,
    position: Point,
    passengerPosition: Option<Point>,
    destination: Option<Point>,
    pickedUp: bool,
    passenger: nat,
    connection: Option<nat>)

  // The messages a driver sends itself during a ride.
  datatype Task = StartRide | PickUpPassenger | RideToDestination | EndRide(dst: Point)

  datatype Reply = Accepts(socket: string) | Refuses | HasArrived

  // A reply, and the connection it goes to.
  datatype Letter = Letter(to: nat, reply: Reply)

  datatype Response = Response(driver: Driver, tasks: seq<Task>, toServer: seq<Op>, letters: seq<Letter>)

  function OnRegister(d: Driver): Response {
    Response(d.(registered := true), [], [NewDriver(d.name, d.socket, d.position)], [])
  }

  // `from` is the connection that the request came over.
  function OnRequestRide(d: Driver, from: nat, passenger: nat, origin: Point, destination: Point): Response {
    if !d.available then Response(d, [], [], [Letter(from, Refuses)])
    else
      Response(
        d.(passenger := passenger, passengerPosition := Some(origin),
           destination := Some(destination), available := false, connection := Some(from)),
        [StartRide], [BusyDriver(d.name)], [Letter(from, Accepts(d.socket))])
  }

  // None: the process ended on an arithmetic overflow.
  function OnTask(d: Driver, task: Task): Option<Response> {
    match task
    case StartRide => Some(Response(d, [PickUpPassenger], [], []))
    case PickUpPassenger =>
      if d.passengerPosition.None? then Some(Response(d, [], [], []))
      else
        var next := MoveTo(d.position, d.passengerPosition.value);
        if next.None? then None
        else if next != d.passengerPosition then
          Some(Response(d.(position := next.value), [PickUpPassenger], [], []))
        else
          Some(Response(
            d.(position := next.value, pickedUp := true), [RideToDestination], [],
            if d.connection.Some? then [Letter(d.connection.value, HasArrived)] else []))
    case RideToDestination =>
      if d.destination.None? then Some(Response(d, [], [], []))
      else
        var next := MoveTo(d.position, d.destination.value);
        if next.None? then None
        else if next != d.destination then
          Some(Response(d.(position := next.value), [RideToDestination], [], []))
        else Some(Response(d.(position := next.value), [EndRide(next.value)], [], []))
    case EndRide(dst) =>
      Some(Response(
        d.(position := dst, available := true, pickedUp := false),
        [], [UpdateDriver(d.name, dst)], []))
  }

  // ---- The driver with its server ----

  datatype Trip = Accepted(from: nat, passenger: nat, origin: Point, destination: Point) | Ended(at: Point)

  // A letter as it was sent: where the driver was then, and how long the log.
  datatype Posted = Posted(letter: Letter, at: Point, age: nat)

  // registering: the driver's first message to itself is still queued.
  // channel: what is on its way to the server, in order. log, mail: history.
  datatype World = World(
    driver: Driver,
    registering: bool,
    tasks: seq<Task>,
    channel: seq<Op>,
    server: Leader,
    log: seq<Trip>,
    mail: seq<Posted>)

  datatype Step =
    | HandleRegister
    | HandleRequest(from: nat, passenger: nat, origin: Point, destination: Point)
    | HandleTask(index: nat)
    | ServerHandles
    | ServerElsewhere(op: Op)
    | ServerRunsQueue

  // Messages of other drivers and passengers, and ones that move no driver.
  predicate Elsewhere(name: string, op: Op) {
    op.name != name || op.UpdateSocket? || op.ReconnectDriver? || op.PassengerLogin?
  }

  // Requests come through the listener, which opens behind the registration.
  predicate Enabled(w: World, step: Step) {
    match step
    case HandleRegister => w.registering
    case HandleRequest(_, _, _, _) => !w.registering
    case HandleTask(k) => k < |w.tasks| && OnTask(w.driver, w.tasks[k]).Some?
    case ServerHandles => w.channel != []
    case ServerElsewhere(op) => Elsewhere(w.driver.name, op)
    case ServerRunsQueue => true
  }

  function Send(letters: seq<Letter>, at: Point, age: nat): seq<Posted> {
    seq(|letters|, k requires 0 <= k < |letters| => Posted(letters[k], at, age))
  }

  function Follow(w: World, rest: seq<Task>, r: Response, trips: seq<Trip>): World {
    w.(driver := r.driver, tasks := rest + r.tasks, channel := w.channel + r.toServer, log := w.log + trips,
       mail := w.mail + Send(r.letters, r.driver.position, |w.log + trips|))
  }

  function Next(w: World, step: Step): World
    requires Enabled(w, step)
  {
    match step
    case HandleRegister => Follow(w, w.tasks, OnRegister(w.driver), []).(registering := false)
    case HandleRequest(from, passenger, origin, destination) =>
      Follow(w, w.tasks, OnRequestRide(w.driver, from, passenger, origin, destination),
             if w.driver.available then [Accepted(from, passenger, origin, destination)] else [])
    case HandleTask(k) =>
      Follow(w, w.tasks[..k] + w.tasks[k + 1..], OnTask(w.driver, w.tasks[k]).value,
             if w.tasks[k].EndRide? then [Ended(w.tasks[k].dst)] else [])
    case ServerHandles => w.(server := OnEvent(w.server, Receive(w.channel[0])), channel := w.channel[1..])
    case ServerElsewhere(op) => w.(server := OnEvent(w.server, Receive(op)))
    case ServerRunsQueue => w.(server := OnEvent(w.server, RunDeferred))
  }

  // A driver that has just started; the server may have its name already.
  ghost predicate Init(w: World) {
    && w.driver.available && !w.driver.pickedUp && w.registering
    && w.tasks == [] && w.channel == [] && w.log == [] && w.mail == []
    && QueueValid(w.server)
  }

  ghost predicate IsRun(run: seq<World>, steps: seq<Step>) {
    && |run| == |steps| + 1 && Init(run[0])
    && forall k | 0 <= k < |steps| :: Enabled(run[k], steps[k]) && run[k + 1] == Next(run[k], steps[k])
  }

  // ---- One ride at a time ----

  // Rides taken and ended by turns, each ended where it was to go.
  predicate Alternates(log: seq<Trip>) {
    forall k: nat | k < |log| :: InTurn(log, k)
  }

  predicate InTurn(log: seq<Trip>, k: nat)
    requires k < |log|
  {
    if k % 2 == 0 then log[k].Accepted?
    else log[k].Ended? && log[k - 1].Accepted? && log[k].at == log[k - 1].destination
  }

  lemma AlternatesOn(log: seq<Trip>, e: Trip)
    requires Alternates(log)
    requires if |log| % 2 == 0 then e.Accepted?
      else e.Ended? && log[|log| - 1].Accepted? && e.at == log[|log| - 1].destination
    ensures Alternates(log + [e])
  {
    forall k: nat | k < |log + [e]| ensures InTurn(log + [e], k) {
      if k < |log| { assert InTurn(log, k); }
    }
  }

  predicate OneToken(w: World) {
    var d := w.driver;
    && |w.tasks| == (if d.available then 0 else 1)
    && (w.registering ==> d.available && w.log == [] && w.channel == [])
    && Alternates(w.log) && (d.available <==> |w.log| % 2 == 0)
    && (d.available ==> !d.pickedUp) && (!w.registering ==> d.registered)
    && (!d.available ==>
          && w.log[|w.log| - 1].Accepted?
          && d.passengerPosition == Some(w.log[|w.log| - 1].origin)
          && d.destination == Some(w.log[|w.log| - 1].destination)
          && d.passenger == w.log[|w.log| - 1].passenger && d.connection == Some(w.log[|w.log| - 1].from)
          && (d.pickedUp <==> w.tasks[0].RideToDestination? || w.tasks[0].EndRide?)
          && (w.tasks[0].EndRide? ==> Some(w.tasks[0].dst) == d.destination && d.position == w.tasks[0].dst))
  }

  lemma TaskKeepsToken(w: World, k: nat)
    requires OneToken(w) && Enabled(w, HandleTask(k))
    ensures OneToken(Next(w, HandleTask(k)))
  {
    assert k == 0 && w.tasks[..0] + w.tasks[1..] == [];
    var w' := Next(w, HandleTask(k));
    assert w'.tasks == OnTask(w.driver, w.tasks[0]).value.tasks;
    if w.tasks[0].EndRide? {
      AlternatesOn(w.log, Ended(w.tasks[0].dst));
    } else {
      assert w'.log == w.log;
    }
  }

  lemma RequestKeepsToken(w: World, from: nat, passenger: nat, origin: Point, destination: Point)
    requires OneToken(w) && Enabled(w, HandleRequest(from, passenger, origin, destination))
    ensures OneToken(Next(w, HandleRequest(from, passenger, origin, destination)))
  {
    var w' := Next(w, HandleRequest(from, passenger, origin, destination));
    if w.driver.available {
      assert w'.tasks == [StartRide];
      AlternatesOn(w.log, Accepted(from, passenger, origin, destination));
    } else {
      assert w'.tasks == w.tasks && w'.log == w.log;
    }
  }

  lemma StepKeepsToken(w: World, step: Step)
    requires OneToken(w) && Enabled(w, step)
    ensures OneToken(Next(w, step))
  {
    match step
    case HandleRegister => assert Next(w, step).tasks == w.tasks && Next(w, step).log == w.log;
    case HandleRequest(from, passenger, origin, destination) =>
      RequestKeepsToken(w, from, passenger, origin, destination);
    case HandleTask(k) => TaskKeepsToken(w, k);
    case _ =>
  }

  lemma {:induction false} RunHasOneToken(run: seq<World>, steps: seq<Step>, k: nat)
    requires IsRun(run, steps) && k < |run|
    ensures OneToken(run[k])
  {
    if k > 0 {
      RunHasOneToken(run, steps, k - 1);
      assert Enabled(run[k - 1], steps[k - 1]);
      StepKeepsToken(run[k - 1], steps[k - 1]);
    }
  }

  // In every state of every run there is one pending task during a ride, which
  // has a passenger to fetch and a place to go, and none outside a ride.
  lemma OneRideToken(run: seq<World>, steps: seq<Step>, k: nat)
    requires IsRun(run, steps) && k < |run|
    ensures |run[k].tasks| == if run[k].driver.available then 0 else 1
    ensures !run[k].driver.available ==>
      var d, log := run[k].driver, run[k].log;
      && log != [] && log[|log| - 1].Accepted? && d.passenger == log[|log| - 1].passenger
      && d.passengerPosition == Some(log[|log| - 1].origin) && d.destination == Some(log[|log| - 1].destination)
    ensures !run[k].registering ==> run[k].driver.registered
  {
    RunHasOneToken(run, steps, k);
  }

  // Between two rides accepted, the first one ended, where it was to go.
  lemma RidesAreSeparate(run: seq<World>, steps: seq<Step>, k: nat, i: nat, j: nat)
    requires IsRun(run, steps) && k < |run| && i < j < |run[k].log|
    requires run[k].log[i].Accepted? && run[k].log[j].Accepted?
    ensures i + 1 < j && run[k].log[i + 1] == Ended(run[k].log[i].destination)
  {
    RunHasOneToken(run, steps, k);
    assert InTurn(run[k].log, i) && InTurn(run[k].log, j) && InTurn(run[k].log, i + 1);
  }

  // ---- What the server thinks ----

  datatype Status = Status(busy: bool, position: Point)

  function StatusOf(r: Registry, name: string): Option<Status> {
    var e := EntryAt(View(r), name);
    if e.Some? then Some(Status(e.value.busy, e.value.info.position)) else None
  }

  function StatusAfter(s: Option<Status>, op: Op): Option<Status> {
    match op
    case NewDriver(_, _, position) => if s.Some? then s else Some(Status(false, position))
    case BusyDriver(_) => if s.Some? then Some(s.value.(busy := true)) else s
    case UpdateDriver(_, position) =>
      if s.Some? && s.value.busy then Some(Status(false, position)) else s
    case _ => s
  }

  function StatusAfterAll(s: Option<Status>, ops: seq<Op>): Option<Status>
    decreases |ops|
  {
    if ops == [] then s else StatusAfter(StatusAfterAll(s, ops[..|ops| - 1]), ops[|ops| - 1])
  }

  // The server's maps say of a name what the messages about it make of it.
  lemma ServerFollows(r: Registry, op: Op, name: string)
    requires r.drivers.Keys !! r.busyDrivers.Keys
    ensures Apply(r, op).drivers.Keys !! Apply(r, op).busyDrivers.Keys
    ensures StatusOf(Apply(r, op), name) ==
      if op.name == name then StatusAfter(StatusOf(r, name), op) else StatusOf(r, name)
  {
    ApplyRefinesWrite(r, op);
    WriteAt(View(r), op, name);
  }

  lemma {:induction false} StatusAfterFirst(s: Option<Status>, op: Op, ops: seq<Op>)
    ensures StatusAfterAll(s, [op] + ops) == StatusAfterAll(StatusAfter(s, op), ops)
  {
    var all := [op] + ops;
    if ops == [] {
      assert all[..0] == [] && all[|all| - 1] == op;
    } else {
      StatusAfterFirst(s, op, ops[..|ops| - 1]);
      assert all[..|all| - 1] == [op] + ops[..|ops| - 1];
    }
  }

  // The status the server will have once it has handled all that is on its way.
  function Foreseen(w: World): Option<Status> {
    StatusAfterAll(StatusOf(w.server.registry, w.driver.name), w.channel)
  }

  // A record of the driver as it is: free or busy, and where, if free.
  predicate Shows(status: Option<Status>, d: Driver) {
    && status.Some? && status.value.busy == !d.available
    && (d.available ==> status.value.position == d.position)
  }

  // What the server has of the name before the registration arrives does not
  // stand in its way: nothing, or a free driver at the right place.
  predicate Welcome(first: Option<Status>, position: Point) {
    first.None? || first == Some(Status(false, position))
  }

  // `first` and `start` are what the server had, and where the driver was, at first.
  ghost predicate Converges(w: World, first: Option<Status>, start: Point) {
    && QueueValid(w.server)
    && (forall op | op in w.channel :: op.name == w.driver.name)
    && (w.log == [] ==> w.driver.available && w.driver.position == start)
    && var s := Foreseen(w);
       if w.registering then w.log == [] && w.channel == [] && s == first
       else s.Some? && (Shows(s, w.driver) <==> w.log != [] || Welcome(first, start))
  }

  lemma SendKeepsForeseen(w: World, op: Op)
    ensures StatusAfterAll(StatusOf(w.server.registry, w.driver.name), w.channel + [op])
         == StatusAfter(Foreseen(w), op)
  {
  }

  lemma ServerKeepsConverging(w: World, first: Option<Status>, start: Point)
    requires Converges(w, first, start) && Enabled(w, ServerHandles)
    ensures Converges(Next(w, ServerHandles), first, start)
  {
    var name := w.driver.name;
    ServerFollows(w.server.registry, w.channel[0], name);
    EventKeepsQueueValid(w.server, Receive(w.channel[0]));
    StatusAfterFirst(StatusOf(w.server.registry, name), w.channel[0], w.channel[1..]);
    assert w.channel == [w.channel[0]] + w.channel[1..];
  }

  lemma RegisterKeepsConverging(w: World, first: Option<Status>, start: Point)
    requires Converges(w, first, start) && OneToken(w) && Enabled(w, HandleRegister)
    ensures Converges(Next(w, HandleRegister), first, start)
  {
    SendKeepsForeseen(w, NewDriver(w.driver.name, w.driver.socket, w.driver.position));
  }

  lemma RequestKeepsConverging(
    w: World, from: nat, passenger: nat, origin: Point, destination: Point, first: Option<Status>, start: Point)
    requires Converges(w, first, start) && OneToken(w)
    requires Enabled(w, HandleRequest(from, passenger, origin, destination))
    ensures Converges(Next(w, HandleRequest(from, passenger, origin, destination)), first, start)
  {
    if w.driver.available {
      SendKeepsForeseen(w, BusyDriver(w.driver.name));
    } else {
      assert w.channel + [] == w.channel && w.log + [] == w.log;
    }
  }

  lemma EndKeepsConverging(w: World, k: nat, first: Option<Status>, start: Point)
    requires Converges(w, first, start) && OneToken(w) && Enabled(w, HandleTask(k)) && w.tasks[k].EndRide?
    ensures Converges(Next(w, HandleTask(k)), first, start)
  {
    SendKeepsForeseen(w, UpdateDriver(w.driver.name, w.tasks[k].dst));
  }

  lemma TaskKeepsConverging(w: World, k: nat, first: Option<Status>, start: Point)
    requires Converges(w, first, start) && OneToken(w) && Enabled(w, HandleTask(k)) && !w.tasks[k].EndRide?
    ensures Converges(Next(w, HandleTask(k)), first, start)
  {
    assert w.channel + [] == w.channel && w.log + [] == w.log;
  }

  lemma StepKeepsConverging(w: World, step: Step, first: Option<Status>, start: Point)
    requires Converges(w, first, start) && OneToken(w) && Enabled(w, step)
    ensures Converges(Next(w, step), first, start)
  {
    match step
    case ServerHandles => ServerKeepsConverging(w, first, start);
    case ServerElsewhere(op) =>
      ServerFollows(w.server.registry, op, w.driver.name);
      EventKeepsQueueValid(w.server, Receive(op));
    case ServerRunsQueue =>
      EventKeepsQueueValid(w.server, RunDeferred);
      if w.server.queue != [] {
        assert w.server.queue[0] in w.server.queue;
        ServerFollows(w.server.registry, w.server.queue[0], w.driver.name);
      }
    case HandleRegister => RegisterKeepsConverging(w, first, start);
    case HandleRequest(from, passenger, origin, destination) =>
      RequestKeepsConverging(w, from, passenger, origin, destination, first, start);
    case HandleTask(k) =>
      if w.tasks[k].EndRide? { EndKeepsConverging(w, k, first, start); }
      else { TaskKeepsConverging(w, k, first, start); }
  }

  // What the server had of the driver's name when the run began.
  function OldRecord(run: seq<World>): Option<Status>
    requires run != []
  {
    StatusOf(run[0].server.registry, run[0].driver.name)
  }

  lemma {:induction false} RunConverges(run: seq<World>, steps: seq<Step>, k: nat)
    requires IsRun(run, steps) && k < |run|
    ensures Converges(run[k], OldRecord(run), run[0].driver.position)
    ensures run[k].driver.name == run[0].driver.name
  {
    if k > 0 {
      RunConverges(run, steps, k - 1);
      RunHasOneToken(run, steps, k - 1);
      assert Enabled(run[k - 1], steps[k - 1]);
      StepKeepsConverging(run[k - 1], steps[k - 1], OldRecord(run), run[0].driver.position);
    }
  }

  // In every state of every run of a registered driver, whatever else the server
  // handles meanwhile: what is on its way makes the server's record show the
  // driver as it is iff it has accepted a ride, or the server did not have the
  // name at first, or had it free and where the driver was.
  lemma RegistrationConvergesIff(run: seq<World>, steps: seq<Step>, k: nat)
    requires IsRun(run, steps) && k < |run| && !run[k].registering
    ensures Foreseen(run[k]).Some?
    ensures Shows(Foreseen(run[k]), run[k].driver)
       <==> run[k].log != [] || Welcome(OldRecord(run), run[0].driver.position)
  {
    RunConverges(run, steps, k);
  }

  // With nothing on its way, the server's two maps then have the driver in the
  // right one, and a free one at its exact position.
  lemma ServerViewConverges(run: seq<World>, steps: seq<Step>, k: nat)
    requires IsRun(run, steps) && k < |run| && !run[k].registering && run[k].channel == []
    ensures var r, d := run[k].server.registry, run[k].driver;
      && Known(r, d.name)
      && ((if d.available then d.name in r.drivers && r.drivers[d.name].position == d.position
           else d.name in r.busyDrivers)
          <==> run[k].log != [] || Welcome(OldRecord(run), run[0].driver.position))
  {
    RunConverges(run, steps, k);
    RegistrationConvergesIff(run, steps, k);
  }

  // A driver that registers again after the server had it busy stays busy there.
  lemma UnwelcomeRecord(d: Driver, before: Point)
    requires d.available && !d.pickedUp
    ensures var r := Apply(Apply(EMPTY, NewDriver(d.name, d.socket, before)), BusyDriver(d.name));
      var w0 := World(d, true, [], [], Leader(r, []), [], []);
      var w1 := Next(w0, HandleRegister);
      && w1.channel != []
      && var w2 := Next(w1, ServerHandles);
         && IsRun([w0, w1, w2], [HandleRegister, ServerHandles])
         && !w2.registering && w2.channel == [] && w2.driver.available
         && d.name in w2.server.registry.busyDrivers && d.name !in w2.server.registry.drivers
  {
  }
}
