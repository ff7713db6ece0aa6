// The leader changes a driver's socket through a message to itself, which runs
// some time later. When might it as well have run at once?
module SocketUpdates {
  import opened Options
  import opened Walk
  import opened Registry

  // ---- A queue of updates, and one message ----

  predicate OnlyUpdates(queue: seq<Op>) {
    forall op | op in queue :: op.UpdateSocket?
  }

  // The socket that a queue of updates gives to a name in the end.
  function LastSocket(queue: seq<Op>, name: string): Option<string>
    requires OnlyUpdates(queue)
  {
    if queue == [] then None
    else if queue[|queue| - 1].name == name then Some(queue[|queue| - 1].socket)
    else LastSocket(queue[..|queue| - 1], name)
  }

  function Relabel(e: Option<Entry>, socket: Option<string>): Option<Entry> {
    if e.Some? && socket.Some? then Some(Entry(e.value.info.(socket := socket.value), e.value.busy)) else e
  }

  // A queue of updates gives everybody the last socket it has for them, and
  // changes nothing else.
  ghost predicate Relabels(b: Book, queue: seq<Op>, b': Book)
    requires OnlyUpdates(queue)
  {
    && b'.idsCount == b.idsCount && b'.passengers == b.passengers
    && forall x :: EntryAt(b', x) == Relabel(EntryAt(b, x), LastSocket(queue, x))
  }

  lemma {:induction false} QueueRelabels(r: Registry, queue: seq<Op>)
    requires r.drivers.Keys !! r.busyDrivers.Keys && OnlyUpdates(queue)
    ensures var r' := ApplyAll(r, queue);
      r'.drivers.Keys !! r'.busyDrivers.Keys && Relabels(View(r), queue, View(r'))
  {
    if queue != [] {
      var front, last := queue[..|queue| - 1], queue[|queue| - 1];
      assert last in queue;
      QueueRelabels(r, front);
      var mid := ApplyAll(r, front);
      ApplyRefinesWrite(mid, last);
      CounterAfter(View(mid), last);
      forall x ensures EntryAt(View(Apply(mid, last)), x) == Relabel(EntryAt(View(r), x), LastSocket(queue, x)) {
        WriteAt(View(mid), last, x);
      }
    }
  }

  // The counter and the passengers depend on who is known only.
  lemma CounterAfter(b: Book, op: Op)
    ensures var b' := Write(b, op);
      && b'.idsCount == b.idsCount
           + (if op.NewDriver? && op.name !in b.entries then 1 else 0)
           + (if op.PassengerLogin? && op.name !in b.passengers then 1 else 0)
      && b'.passengers ==
           if op.PassengerLogin? && op.name !in b.passengers
           then b.passengers[op.name := b.idsCount + 1] else b.passengers
  {
  }

  // A message that gives a driver a socket, and the updates queued before it,
  // which will give the driver another one.
  predicate Clashes(r: Registry, queue: seq<Op>, op: Op)
    requires OnlyUpdates(queue)
  {
    && ((op.NewDriver? && !Known(r, op.name)) || (op.UpdateSocket? && Known(r, op.name)))
    && LastSocket(queue, op.name).Some? && LastSocket(queue, op.name).value != op.socket
  }

  // On one entry: relabelling and the message change places iff they do not clash.
  lemma EntryCommutesIff(e: Option<Entry>, socket: Option<string>, op: Op, nextId: nat)
    ensures EntryAfter(Relabel(e, socket), op, nextId) == Relabel(EntryAfter(e, op, nextId), socket)
       <==> !(&& ((op.NewDriver? && e.None?) || (op.UpdateSocket? && e.Some?))
              && socket.Some? && socket.value != op.socket)
  {
  }

  lemma SameBook(b: Book, c: Book)
    requires b.idsCount == c.idsCount && b.passengers == c.passengers
    requires forall x :: EntryAt(b, x) == EntryAt(c, x)
    ensures b == c
  {
    assert forall x :: x in b.entries <==> EntryAt(b, x).Some?;
    assert forall x :: x in c.entries <==> EntryAt(c, x).Some?;
    forall x | x in b.entries ensures b.entries[x] == c.entries[x] {
      assert EntryAt(b, x) == EntryAt(c, x);
    }
    assert b.entries == c.entries;
  }

  // The books that the two orders give: first the message, then the queue.
  lemma MessageFirstAt(r: Registry, queue: seq<Op>, op: Op, x: string)
    requires r.drivers.Keys !! r.busyDrivers.Keys && OnlyUpdates(queue)
    ensures var e := EntryAt(View(r), x);
      EntryAt(View(ApplyAll(Apply(r, op), queue)), x)
      == Relabel(if x == op.name then EntryAfter(e, op, r.idsCount + 1) else e, LastSocket(queue, x))
  {
    ApplyRefinesWrite(r, op);
    WriteAt(View(r), op, x);
    QueueRelabels(Apply(r, op), queue);
  }

  lemma QueueFirstAt(r: Registry, queue: seq<Op>, op: Op, x: string)
    requires r.drivers.Keys !! r.busyDrivers.Keys && OnlyUpdates(queue)
    ensures var e := Relabel(EntryAt(View(r), x), LastSocket(queue, x));
      EntryAt(View(Apply(ApplyAll(r, queue), op)), x)
      == if x == op.name then EntryAfter(e, op, r.idsCount + 1) else e
  {
    var mid := ApplyAll(r, queue);
    QueueRelabels(r, queue);
    ApplyRefinesWrite(mid, op);
    WriteAt(View(mid), op, x);
    assert View(mid).idsCount == r.idsCount;
  }

  lemma OrdersCount(r: Registry, queue: seq<Op>, op: Op)
    requires r.drivers.Keys !! r.busyDrivers.Keys && OnlyUpdates(queue)
    ensures var r1, r2 := ApplyAll(Apply(r, op), queue), Apply(ApplyAll(r, queue), op);
      && r1.drivers.Keys !! r1.busyDrivers.Keys && r2.drivers.Keys !! r2.busyDrivers.Keys
      && r1.idsCount == r2.idsCount && r1.passengers == r2.passengers
  {
    var mid := ApplyAll(r, queue);
    ApplyRefinesWrite(r, op);
    CounterAfter(View(r), op);
    QueueRelabels(Apply(r, op), queue);
    QueueRelabels(r, queue);
    ApplyRefinesWrite(mid, op);
    CounterAfter(View(mid), op);
    assert EntryAt(View(mid), op.name) == Relabel(EntryAt(View(r), op.name), LastSocket(queue, op.name));
  }

  // A queue of updates, of known and unknown names, changes places with any
  // message iff the message gives no driver a socket that the queue overwrites
  // with another.
  lemma QueueCommutesIff(r: Registry, queue: seq<Op>, op: Op)
    requires r.drivers.Keys !! r.busyDrivers.Keys && OnlyUpdates(queue)
    ensures ApplyAll(Apply(r, op), queue) == Apply(ApplyAll(r, queue), op) <==> !Clashes(r, queue, op)
  {
    var r1, r2 := ApplyAll(Apply(r, op), queue), Apply(ApplyAll(r, queue), op);
    var e := EntryAt(View(r), op.name);
    assert Known(r, op.name) <==> e.Some?;
    MessageFirstAt(r, queue, op, op.name);
    QueueFirstAt(r, queue, op, op.name);
    EntryCommutesIff(e, LastSocket(queue, op.name), op, r.idsCount + 1);
    if !Clashes(r, queue, op) {
      OrdersCount(r, queue, op);
      forall x ensures EntryAt(View(r1), x) == EntryAt(View(r2), x) {
        MessageFirstAt(r, queue, op, x);
        QueueFirstAt(r, queue, op, x);
      }
      SameBook(View(r1), View(r2));
      ViewTellsApart(r1, r2);
    }
  }

  // One update and another message change places iff they do not give one
  // driver two sockets; with BusyDriver, UpdateDriver and PassengerLogin always.
  lemma UpdateCommutesIff(r: Registry, name: string, socket: string, op: Op)
    requires r.drivers.Keys !! r.busyDrivers.Keys
    ensures Apply(Apply(r, op), UpdateSocket(name, socket)) == Apply(Apply(r, UpdateSocket(name, socket)), op)
       <==> !(&& op.name == name
              && ((op.NewDriver? && !Known(r, name)) || (op.UpdateSocket? && Known(r, name)))
              && op.socket != socket)
  {
    var queue := [UpdateSocket(name, socket)];
    assert queue[..0] == [];
    QueueCommutesIff(r, queue, op);
    assert LastSocket(queue, op.name) == if op.name == name then Some(socket) else None;
    assert ApplyAll(r, queue) == Apply(ApplyAll(r, []), queue[0]);
    assert ApplyAll(Apply(r, op), queue) == Apply(ApplyAll(Apply(r, op), []), queue[0]);
  }

  // It changes the socket of one record and nothing else.
  lemma UpdateChangesOneSocket(r: Registry, name: string, socket: string)
    requires r.drivers.Keys !! r.busyDrivers.Keys
    ensures var b, b' := View(r), View(Apply(r, UpdateSocket(name, socket)));
      && b'.passengers == b.passengers && b'.idsCount == b.idsCount
      && b'.entries.Keys == b.entries.Keys
      && (forall x | x in b.entries && x != name :: b'.entries[x] == b.entries[x])
      && (name in b.entries ==>
            b'.entries[name] == Entry(b.entries[name].info.(socket := socket), b.entries[name].busy))
  {
  }

  // ---- The leader with its mailbox ----

  datatype Leader = Leader(registry: Registry, queue: seq<Op>)

  // A message from outside, or the next deferred update.
  datatype Event = Receive(op: Op) | RunDeferred

  function OnEvent(l: Leader, e: Event): Leader {
    match e
    case Receive(op) => Leader(Apply(l.registry, op), l.queue + Deferred(l.registry, op))
    case RunDeferred =>
      if l.queue == [] then l else Leader(Apply(l.registry, l.queue[0]), l.queue[1..])
  }

  // The registry once the queue has run empty.
  function Drained(l: Leader): Registry {
    ApplyAll(l.registry, l.queue)
  }

  // A leader that needs no queue: it changes the socket on the spot.
  function Immediate(r: Registry, op: Op): Registry {
    ApplyAll(Apply(r, op), Deferred(r, op))
  }

  function ImmediateEvent(r: Registry, e: Event): Registry {
    if e.Receive? then Immediate(r, e.op) else r
  }

  ghost predicate QueueValid(l: Leader) {
    l.registry.drivers.Keys !! l.registry.busyDrivers.Keys && OnlyUpdates(l.queue)
  }

  // The event gives a driver a socket that a queued update overwrites.
  ghost predicate Shows(l: Leader, e: Event)
    requires QueueValid(l)
  {
    e.Receive? && Clashes(l.registry, l.queue, e.op)
  }

  lemma EventKeepsQueueValid(l: Leader, e: Event)
    requires QueueValid(l)
    ensures QueueValid(OnEvent(l, e))
  {
    if e.Receive? {
      ApplyRefinesWrite(l.registry, e.op);
    } else if l.queue != [] {
      ApplyRefinesWrite(l.registry, l.queue[0]);
    }
  }

  lemma {:induction false} ApplyAllAppend(r: Registry, a: seq<Op>, b: seq<Op>)
    ensures ApplyAll(r, a + b) == ApplyAll(ApplyAll(r, a), b)
  {
    if b == [] {
      assert a + b == a;
    } else {
      assert (a + b)[..|a + b| - 1] == a + b[..|b| - 1];
      ApplyAllAppend(r, a, b[..|b| - 1]);
    }
  }

  // Who is known, and so what is deferred, does not depend on the queue.
  lemma DeferredAgrees(r: Registry, queue: seq<Op>, op: Op)
    requires r.drivers.Keys !! r.busyDrivers.Keys && OnlyUpdates(queue)
    ensures Deferred(ApplyAll(r, queue), op) == Deferred(r, op)
  {
    QueueRelabels(r, queue);
    var b, b' := View(r), View(ApplyAll(r, queue));
    assert EntryAt(b', op.name) == Relabel(EntryAt(b, op.name), LastSocket(queue, op.name));
    assert Known(r, op.name) <==> EntryAt(b, op.name).Some?;
    assert Known(ApplyAll(r, queue), op.name) <==> EntryAt(b', op.name).Some?;
  }

  // Seen from after the queue has run empty, an event is the immediate change
  // iff it does not show; running the queue never shows.
  lemma EventIsImmediate(l: Leader, e: Event)
    requires QueueValid(l)
    ensures Drained(OnEvent(l, e)) == ImmediateEvent(Drained(l), e) <==> !Shows(l, e)
  {
    match e
    case Receive(op) =>
      var later := Deferred(l.registry, op);
      QueueCommutesIff(l.registry, l.queue, op);
      DeferredAgrees(l.registry, l.queue, op);
      ApplyAllAppend(Apply(l.registry, op), l.queue, later);
      if later == [] {
        assert Immediate(Drained(l), op) == Apply(Drained(l), op);
      }
    case RunDeferred =>
      if l.queue != [] {
        assert [l.queue[0]] + l.queue[1..] == l.queue;
        ApplyAllAppend(l.registry, [l.queue[0]], l.queue[1..]);
        assert [l.queue[0]][..0] == [];
      }
  }

  function OnEvents(l: Leader, events: seq<Event>): Leader
    decreases |events|
  {
    if events == [] then l else OnEvent(OnEvents(l, events[..|events| - 1]), events[|events| - 1])
  }

  function ImmediateAll(r: Registry, events: seq<Event>): Registry
    decreases |events|
  {
    if events == [] then r
    else ImmediateEvent(ImmediateAll(r, events[..|events| - 1]), events[|events| - 1])
  }

  lemma {:induction false} EventsKeepQueueValid(l: Leader, events: seq<Event>)
    requires QueueValid(l)
    ensures QueueValid(OnEvents(l, events))
  {
    if events != [] {
      EventsKeepQueueValid(l, events[..|events| - 1]);
      EventKeepsQueueValid(OnEvents(l, events[..|events| - 1]), events[|events| - 1]);
    }
  }

  // After k events the leader, once drained, is one that never defers.
  ghost predicate Matches(l: Leader, events: seq<Event>, k: nat)
    requires k <= |events|
  {
    Drained(OnEvents(l, events[..k])) == ImmediateAll(Drained(l), events[..k])
  }

  ghost predicate ShowsAt(l: Leader, events: seq<Event>, k: nat)
    requires QueueValid(l) && k < |events|
  {
    EventsKeepQueueValid(l, events[..k]);
    Shows(OnEvents(l, events[..k]), events[k])
  }

  lemma MatchesNext(l: Leader, events: seq<Event>, k: nat)
    requires QueueValid(l) && k < |events| && Matches(l, events, k)
    ensures Matches(l, events, k + 1) <==> !ShowsAt(l, events, k)
  {
    EventsKeepQueueValid(l, events[..k]);
    assert events[..k + 1][..k] == events[..k];
    EventIsImmediate(OnEvents(l, events[..k]), events[k]);
  }

  lemma {:induction false} HiddenMatches(l: Leader, events: seq<Event>, k: nat)
    requires QueueValid(l) && k <= |events|
    requires forall j: nat | j < |events| :: !ShowsAt(l, events, j)
    ensures Matches(l, events, k)
  {
    if k > 0 {
      HiddenMatches(l, events, k - 1);
      MatchesNext(l, events, k - 1);
    } else {
      assert events[..0] == [];
    }
  }

  // However the deferred updates fall among the messages: the leader can be
  // taken at every moment for one that never defers iff no event of the run shows.
  lemma DeferringIsInvisible(l: Leader, events: seq<Event>)
    requires QueueValid(l)
    ensures (forall k: nat | k <= |events| :: Matches(l, events, k))
       <==> (forall k: nat | k < |events| :: !ShowsAt(l, events, k))
  {
    if forall k: nat | k <= |events| :: Matches(l, events, k) {
      forall k: nat | k < |events| ensures !ShowsAt(l, events, k) {
        assert Matches(l, events, k) && Matches(l, events, k + 1);
        MatchesNext(l, events, k);
      }
    }
    if forall k: nat | k < |events| :: !ShowsAt(l, events, k) {
      forall k: nat | k <= |events| ensures Matches(l, events, k) {
        HiddenMatches(l, events, k);
      }
    }
  }

  // ---- Whose socket the leader has ----

  function SocketOf(r: Registry, name: string): Option<string> {
    var e := EntryAt(View(r), name);
    if e.Some? then Some(e.value.info.socket) else None
  }

  // A message in which a driver says where it listens.
  predicate Announces(e: Event, name: string) {
    e.Receive? && (e.op.NewDriver? || e.op.ReconnectDriver?) && e.op.name == name
  }

  predicate Updates(e: Event, name: string) {
    e.Receive? && e.op.UpdateSocket? && e.op.name == name
  }

  lemma DrainedSocket(l: Leader, name: string)
    requires QueueValid(l)
    ensures var last := LastSocket(l.queue, name);
      && (Known(Drained(l), name) <==> Known(l.registry, name))
      && (Known(l.registry, name) ==>
            SocketOf(Drained(l), name) == if last.Some? then last else SocketOf(l.registry, name))
  {
    QueueRelabels(l.registry, l.queue);
    var b, b' := View(l.registry), View(Drained(l));
    assert EntryAt(b', name) == Relabel(EntryAt(b, name), LastSocket(l.queue, name));
    assert Known(l.registry, name) <==> EntryAt(b, name).Some?;
    assert Known(Drained(l), name) <==> EntryAt(b', name).Some?;
  }

  // A known driver that registers again or reconnects is found where it says,
  // whatever is queued.
  lemma AnnouncedSocket(l: Leader, e: Event, name: string)
    requires QueueValid(l) && Known(l.registry, name) && Announces(e, name)
    ensures var l' := OnEvent(l, e);
      QueueValid(l') && Known(l'.registry, name) && SocketOf(Drained(l'), name) == Some(e.op.socket)
  {
    var l' := OnEvent(l, e);
    EventKeepsQueueValid(l, e);
    assert l'.queue[|l'.queue| - 1] == UpdateSocket(name, e.op.socket);
    DrainedSocket(l', name);
  }

  // An unknown driver that registers is found where it says, unless an update
  // of its name is still queued.
  lemma FirstSocket(l: Leader, e: Event, name: string)
    requires QueueValid(l) && !Known(l.registry, name) && Announces(e, name) && e.op.NewDriver?
    ensures var l' := OnEvent(l, e);
      var last := LastSocket(l.queue, name);
      && QueueValid(l') && Known(l'.registry, name)
      && SocketOf(Drained(l'), name) == if last.Some? then last else Some(e.op.socket)
  {
    var l' := OnEvent(l, e);
    EventKeepsQueueValid(l, e);
    assert l.queue + [] == l.queue;
    assert SocketOf(l'.registry, name) == Some(e.op.socket);
    DrainedSocket(l', name);
  }

  lemma ReceivedKeepsSocket(l: Leader, op: Op, name: string)
    requires QueueValid(l) && Known(l.registry, name)
    requires !Announces(Receive(op), name) && !Updates(Receive(op), name)
    ensures var l' := OnEvent(l, Receive(op));
      && Known(l'.registry, name) && SocketOf(l'.registry, name) == SocketOf(l.registry, name)
      && LastSocket(l.queue + Deferred(l.registry, op), name) == LastSocket(l.queue, name)
  {
    EventKeepsQueueValid(l, Receive(op));
    ApplyRefinesWrite(l.registry, op);
    WriteAt(View(l.registry), op, name);
    var later := Deferred(l.registry, op);
    if later == [] {
      assert l.queue + later == l.queue;
    } else {
      assert (l.queue + later)[..|l.queue + later| - 1] == l.queue;
    }
  }

  // Nothing else changes where a known driver is found.
  lemma OthersKeepSocket(l: Leader, e: Event, name: string)
    requires QueueValid(l) && Known(l.registry, name) && !Announces(e, name) && !Updates(e, name)
    ensures var l' := OnEvent(l, e);
      && QueueValid(l') && Known(l'.registry, name)
      && SocketOf(Drained(l'), name) == SocketOf(Drained(l), name)
  {
    EventKeepsQueueValid(l, e);
    DrainedSocket(l, name);
    DrainedSocket(OnEvent(l, e), name);
    if e.Receive? {
      ReceivedKeepsSocket(l, e.op, name);
    } else {
      EventIsImmediate(l, e);
    }
  }

  // The socket that a driver was last heard from.
  function LastAnnounced(events: seq<Event>, name: string): Option<string>
    decreases |events|
  {
    if events == [] then None
    else if Announces(events[|events| - 1], name) then Some(events[|events| - 1].op.socket)
    else LastAnnounced(events[..|events| - 1], name)
  }

  // However messages and queued updates fall, once the queue has run empty a
  // known driver is found where its last registration or reconnection said.
  // (Updates are what the leader sends itself: they come out of the queue.)
  lemma {:induction false} FoundWhereItSaid(l: Leader, events: seq<Event>, name: string)
    requires QueueValid(l) && Known(l.registry, name)
    requires forall e | e in events :: !Updates(e, name)
    ensures var l', last := OnEvents(l, events), LastAnnounced(events, name);
      && QueueValid(l') && Known(l'.registry, name)
      && SocketOf(Drained(l'), name) == if last.Some? then last else SocketOf(Drained(l), name)
  {
    if events != [] {
      var front, e := events[..|events| - 1], events[|events| - 1];
      FoundWhereItSaid(l, front, name);
      assert e in events;
      if Announces(e, name) {
        AnnouncedSocket(OnEvents(l, front), e, name);
      } else {
        OthersKeepSocket(OnEvents(l, front), e, name);
      }
    }
  }

  // A driver that reconnects to a leader that does not know it, and registers
  // before the update has run, shows the deferral iff its socket has changed.
  lemma UnknownReconnectShows(l: Leader, name: string, socket: string, other: string, position: Point)
    requires QueueValid(l) && !Known(l.registry, name)
    ensures var l' := OnEvent(l, Receive(ReconnectDriver(name, socket)));
      && QueueValid(l')
      && (Shows(l', Receive(NewDriver(name, other, position))) <==> socket != other)
  {
    var l' := OnEvent(l, Receive(ReconnectDriver(name, socket)));
    assert l'.queue[|l'.queue| - 1] == UpdateSocket(name, socket);
  }
}
