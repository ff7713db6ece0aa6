// Where passengers find a driver: the socket in the server's record is the one
// the driver listens on.
module RideSocket {
  import opened Options
  import opened Registry
  import opened SocketUpdates
  import opened Ride

  // Nobody else speaks about this driver's socket.
  predicate LeavesSocket(name: string, step: Step) {
    step.ServerElsewhere? ==> !Announces(Receive(step.op), name) && !Updates(Receive(step.op), name)
  }

  predicate IsReport(op: Op) {
    op.BusyDriver? || op.UpdateDriver?
  }

  // A registration will be taken as it is: the name is known, or no update of
  // it is left from before.
  ghost predicate Receptive(w: World) {
    QueueValid(w.server)
    && (Known(w.server.registry, w.driver.name) || LastSocket(w.server.queue, w.driver.name).None?)
  }

  // The registration is on its way, ahead of everything else.
  ghost predicate OnItsWay(w: World) {
    && Receptive(w) && w.channel != [] && w.channel[0].NewDriver?
    && w.channel[0].name == w.driver.name && w.channel[0].socket == w.driver.socket
    && forall op | op in w.channel[1..] :: IsReport(op)
  }

  // It has arrived.
  ghost predicate Found(w: World) {
    && QueueValid(w.server) && Known(w.server.registry, w.driver.name)
    && SocketOf(Drained(w.server), w.driver.name) == Some(w.driver.socket)
    && forall op | op in w.channel :: IsReport(op)
  }

  ghost predicate SocketOk(w: World) {
    if w.registering then w.channel == [] && Receptive(w) else OnItsWay(w) || Found(w)
  }

  // An event that leaves the driver's socket alone.
  lemma EventKeepsSocket(w: World, e: Event)
    requires Receptive(w) && !Announces(e, w.driver.name) && !Updates(e, w.driver.name)
    ensures var w' := w.(server := OnEvent(w.server, e));
      && Receptive(w')
      && (Known(w.server.registry, w.driver.name) ==>
            && Known(w'.server.registry, w.driver.name)
            && SocketOf(Drained(w'.server), w.driver.name) == SocketOf(Drained(w.server), w.driver.name))
  {
    var name := w.driver.name;
    EventKeepsQueueValid(w.server, e);
    if Known(w.server.registry, name) {
      OthersKeepSocket(w.server, e, name);
    } else {
      EventKeepsUnannounced(w.server, e, name);
    }
  }

  lemma EventKeepsUnannounced(l: Leader, e: Event, name: string)
    requires QueueValid(l) && QueueValid(OnEvent(l, e)) && LastSocket(l.queue, name).None?
    requires !Announces(e, name) && !Updates(e, name)
    ensures LastSocket(OnEvent(l, e).queue, name).None?
  {
    NoneQueuedIff(l.queue, name);
    NoneQueuedIff(OnEvent(l, e).queue, name);
  }

  lemma {:induction false} NoneQueuedIff(queue: seq<Op>, name: string)
    requires OnlyUpdates(queue)
    ensures LastSocket(queue, name).None? <==> forall op | op in queue :: op.name != name
  {
    if queue != [] {
      var front := queue[..|queue| - 1];
      NoneQueuedIff(front, name);
      assert queue == front + [queue[|queue| - 1]];
    }
  }

  lemma ServerKeepsSocket(w: World)
    requires SocketOk(w) && Enabled(w, ServerHandles)
    ensures SocketOk(Next(w, ServerHandles))
  {
    var w', e, name := Next(w, ServerHandles), Receive(w.channel[0]), w.driver.name;
    assert w.channel[0] in w.channel;
    if OnItsWay(w) {
      if Known(w.server.registry, name) {
        AnnouncedSocket(w.server, e, name);
      } else {
        FirstSocket(w.server, e, name);
      }
      assert Found(w');
    } else {
      EventKeepsSocket(w, e);
      assert Found(w');
    }
  }

  lemma ElsewhereKeepsSocket(w: World, e: Event)
    requires SocketOk(w) && !Announces(e, w.driver.name) && !Updates(e, w.driver.name)
    ensures SocketOk(w.(server := OnEvent(w.server, e)))
  {
    EventKeepsSocket(w, e);
  }

  lemma ReportKeepsSocket(w: World, w': World, ops: seq<Op>)
    requires SocketOk(w) && !w.registering && forall op | op in ops :: IsReport(op)
    requires !w'.registering && w'.server == w.server && w'.channel == w.channel + ops
    requires w'.driver.name == w.driver.name && w'.driver.socket == w.driver.socket
    ensures SocketOk(w')
  {
    if OnItsWay(w) {
      assert w'.channel[1..] == w.channel[1..] + ops;
      assert OnItsWay(w');
    } else {
      assert Found(w');
    }
  }

  lemma StepKeepsSocket(w: World, step: Step)
    requires SocketOk(w) && OneToken(w) && Enabled(w, step) && LeavesSocket(w.driver.name, step)
    ensures SocketOk(Next(w, step))
    ensures Next(w, step).driver.name == w.driver.name && Next(w, step).driver.socket == w.driver.socket
  {
    match step
    case HandleRegister =>
      var w' := Next(w, step);
      assert w'.channel == [NewDriver(w.driver.name, w.driver.socket, w.driver.position)];
      assert OnItsWay(w');
    case HandleRequest(from, passenger, origin, destination) =>
      ReportKeepsSocket(w, Next(w, step), OnRequestRide(w.driver, from, passenger, origin, destination).toServer);
    case HandleTask(k) => ReportKeepsSocket(w, Next(w, step), OnTask(w.driver, w.tasks[k]).value.toServer);
    case ServerHandles => ServerKeepsSocket(w);
    case ServerElsewhere(op) => ElsewhereKeepsSocket(w, Receive(op));
    case ServerRunsQueue => ElsewhereKeepsSocket(w, RunDeferred);
  }

  lemma {:induction false} RunKeepsSocket(run: seq<World>, steps: seq<Step>, k: nat)
    requires IsRun(run, steps) && Receptive(run[0]) && k < |run|
    requires forall j | 0 <= j < |steps| :: LeavesSocket(run[0].driver.name, steps[j])
    ensures SocketOk(run[k]) && run[k].driver.name == run[0].driver.name
    ensures run[k].driver.socket == run[0].driver.socket
  {
    if k > 0 {
      RunKeepsSocket(run, steps, k - 1);
      RunHasOneToken(run, steps, k - 1);
      assert Enabled(run[k - 1], steps[k - 1]);
      StepKeepsSocket(run[k - 1], steps[k - 1]);
    }
  }

  // In every run, whether the server had the name before or not: with the
  // registration over and nothing on its way, the server's record has the socket
  // that the driver listens on, at once if no update is queued, and else when
  // the queue has run empty.
  lemma DriverIsFound(run: seq<World>, steps: seq<Step>, k: nat)
    requires IsRun(run, steps) && Receptive(run[0]) && k < |run|
    requires forall j | 0 <= j < |steps| :: LeavesSocket(run[0].driver.name, steps[j])
    requires !run[k].registering && run[k].channel == []
    ensures var l, d := run[k].server, run[0].driver;
      && Known(l.registry, d.name) && SocketOf(Drained(l), d.name) == Some(d.socket)
      && (l.queue == [] ==> SocketOf(l.registry, d.name) == Some(d.socket))
  {
    RunKeepsSocket(run, steps, k);
  }
}
