// What the leader knows about drivers and passengers: two driver maps and one
// id counter. It behaves like one book of names with a busy flag.
module Registry {
  import opened Options
  import opened Walk

  datatype DriverInfo = DriverInfo(name: string, socket: string, id: nat, position: Point)

  datatype Registry = Registry(
    drivers: map<string, DriverInfo>,
    busyDrivers: map<string, DriverInfo>,
    passengers: map<string, nat>,
    idsCount: nat)

  const EMPTY := Registry(map[], map[], map[], 0)

  // The messages that the leader's registry handlers take. UpdateSocket is one
  // that the leader sends to itself.
  datatype Op =
    | NewDriver(name: string, socket: string, position: Point)
    | BusyDriver(name: string)
    | UpdateDriver(name: string, position: Point)
    | UpdateSocket(name: string, socket: string)
    | ReconnectDriver(name: string, socket: string)
    | PassengerLogin(name: string)

  predicate Known(r: Registry, name: string) {
    name in r.drivers || name in r.busyDrivers
  }

  // What the handler of op does at once.
  function Apply(r: Registry, op: Op): Registry {
    match op
    case NewDriver(name, socket, position) =>
      if Known(r, name) then r
      else
        var id := r.idsCount + 1;
        r.(drivers := r.drivers[name := DriverInfo(name, socket, id, position)], idsCount := id)
    case BusyDriver(name) =>
      if name !in r.drivers then r
      else r.(drivers := r.drivers - {name}, busyDrivers := r.busyDrivers[name := r.drivers[name]])
    case UpdateDriver(name, position) =>
      if name !in r.busyDrivers then r
      else r.(
        busyDrivers := r.busyDrivers - {name},
        drivers := r.drivers[name := r.busyDrivers[name].(position := position)])
    case UpdateSocket(name, socket) =>
      r.(drivers := WithSocket(r.drivers, name, socket),
         busyDrivers := WithSocket(r.busyDrivers, name, socket))
    case ReconnectDriver(_, _) => r
    case PassengerLogin(name) =>
      if name in r.passengers then r
      else r.(passengers := r.passengers[name := r.idsCount + 1], idsCount := r.idsCount + 1)
  }

  function WithSocket(m: map<string, DriverInfo>, name: string, socket: string): map<string, DriverInfo> {
    if name in m then m[name := m[name].(socket := socket)] else m
  }

  // What the handler of op leaves in the leader's own mailbox.
  function Deferred(r: Registry, op: Op): seq<Op> {
    if op.ReconnectDriver? || (op.NewDriver? && Known(r, op.name))
    then [UpdateSocket(op.name, op.socket)]
    else []
  }

  function ApplyAll(r: Registry, ops: seq<Op>): Registry
    decreases |ops|
  {
    if ops == [] then r else Apply(ApplyAll(r, ops[..|ops| - 1]), ops[|ops| - 1])
  }

  // The list a passenger gets: the available drivers.
  function Offered(r: Registry): set<DriverInfo> {
    r.drivers.Values
  }

  // ---- One book ----

  datatype Entry = Entry(info: DriverInfo, busy: bool)

  datatype Book = Book(entries: map<string, Entry>, passengers: map<string, nat>, idsCount: nat)

  function View(r: Registry): Book {
    Book(
      map name | name in r.drivers.Keys + r.busyDrivers.Keys ::
        if name in r.drivers then Entry(r.drivers[name], false) else Entry(r.busyDrivers[name], true),
      r.passengers,
      r.idsCount)
  }

  function EntryAt(b: Book, name: string): Option<Entry> {
    if name in b.entries then Some(b.entries[name]) else None
  }

  // What a message does to the entry of the name it carries.
  function EntryAfter(e: Option<Entry>, op: Op, nextId: nat): Option<Entry> {
    match op
    case NewDriver(name, socket, position) =>
      if e.Some? then e else Some(Entry(DriverInfo(name, socket, nextId, position), false))
    case BusyDriver(_) => if e.Some? then Some(e.value.(busy := true)) else e
    case UpdateDriver(_, position) =>
      if e.Some? && e.value.busy then Some(Entry(e.value.info.(position := position), false)) else e
    case UpdateSocket(_, socket) =>
      if e.Some? then Some(Entry(e.value.info.(socket := socket), e.value.busy)) else e
    case ReconnectDriver(_, _) => e
    case PassengerLogin(_) => e
  }

  // The same messages, on the book: one entry, and the counter for a new name.
  function Write(b: Book, op: Op): Book {
    if op.PassengerLogin? then
      if op.name in b.passengers then b
      else b.(passengers := b.passengers[op.name := b.idsCount + 1], idsCount := b.idsCount + 1)
    else
      var e := EntryAfter(EntryAt(b, op.name), op, b.idsCount + 1);
      if e.None? then b
      else b.(
        entries := b.entries[op.name := e.value],
        idsCount := b.idsCount + if op.name in b.entries then 0 else 1)
  }

  lemma WriteAt(b: Book, op: Op, x: string)
    ensures EntryAt(Write(b, op), x) ==
      if x == op.name then EntryAfter(EntryAt(b, x), op, b.idsCount + 1) else EntryAt(b, x)
  {
  }

  // ---- Who has which id ----

  datatype Who = ADriver(name: string) | APassenger(name: string)

  predicate Holds(b: Book, who: Who, id: nat) {
    match who
    case ADriver(name) => name in b.entries && b.entries[name].info.id == id
    case APassenger(name) => name in b.passengers && b.passengers[name] == id
  }

  ghost predicate Taken(b: Book, id: nat) {
    exists who :: Holds(b, who, id)
  }

  // The ids given out are 1..idsCount, each to one name, and each name has one.
  ghost predicate BookValid(b: Book) {
    && (forall name | name in b.entries :: b.entries[name].info.name == name)
    && (forall who, id: nat | Holds(b, who, id) :: 1 <= id <= b.idsCount)
    && (forall v, w, id: nat | Holds(b, v, id) && Holds(b, w, id) :: v == w)
    && (forall id: nat | 1 <= id <= b.idsCount :: Taken(b, id))
  }

  ghost predicate RegistryValid(r: Registry) {
    r.drivers.Keys !! r.busyDrivers.Keys && BookValid(View(r))
  }

  // Nobody is forgotten or renumbered.
  ghost predicate Keeps(r: Registry, r': Registry) {
    && r.idsCount <= r'.idsCount
    && forall who, id: nat | Holds(View(r), who, id) :: Holds(View(r'), who, id)
  }

  lemma EmptyIsValid()
    ensures RegistryValid(EMPTY)
  {
  }

  // What both sides say of one name.
  lemma ApplyAtName(r: Registry, op: Op, x: string)
    requires r.drivers.Keys !! r.busyDrivers.Keys
    ensures var r' := Apply(r, op);
      var e, e' := View(r).entries, Write(View(r), op).entries;
      && !(x in r'.drivers && x in r'.busyDrivers)
      && (Known(r', x) <==> x in e')
      && (x in r'.drivers ==> e'[x] == Entry(r'.drivers[x], false))
      && (x in r'.busyDrivers ==> e'[x] == Entry(r'.busyDrivers[x], true))
  {
  }

  lemma ApplyCounts(r: Registry, op: Op)
    ensures var b := Write(View(r), op);
      Apply(r, op).passengers == b.passengers && Apply(r, op).idsCount == b.idsCount
  {
  }

  // Each handler on the two maps is the one write to the book.
  lemma ApplyRefinesWrite(r: Registry, op: Op)
    requires r.drivers.Keys !! r.busyDrivers.Keys
    ensures View(Apply(r, op)) == Write(View(r), op)
    ensures Apply(r, op).drivers.Keys !! Apply(r, op).busyDrivers.Keys
  {
    var r', e' := Apply(r, op), Write(View(r), op).entries;
    forall x
      ensures !(x in r'.drivers && x in r'.busyDrivers) && (Known(r', x) <==> x in e')
      ensures x in r'.drivers ==> e'[x] == Entry(r'.drivers[x], false)
      ensures x in r'.busyDrivers ==> e'[x] == Entry(r'.busyDrivers[x], true)
    {
      ApplyAtName(r, op, x);
    }
    ApplyCounts(r, op);
    ViewIs(r', e');
  }

  lemma ViewIs(r: Registry, entries: map<string, Entry>)
    requires forall x :: Known(r, x) <==> x in entries
    requires forall x | x in r.drivers :: x in entries && entries[x] == Entry(r.drivers[x], false)
    requires forall x | x in r.busyDrivers :: x in entries && entries[x] == Entry(r.busyDrivers[x], true)
    requires r.drivers.Keys !! r.busyDrivers.Keys
    ensures View(r).entries == entries
  {
  }

  // The book tells registries apart.
  lemma ViewTellsApart(r: Registry, q: Registry)
    requires r.drivers.Keys !! r.busyDrivers.Keys && q.drivers.Keys !! q.busyDrivers.Keys
    requires View(r) == View(q)
    ensures r == q
  {
    forall x
      ensures x in r.drivers <==> x in q.drivers
      ensures x in r.busyDrivers <==> x in q.busyDrivers
      ensures x in r.drivers ==> r.drivers[x] == q.drivers[x]
      ensures x in r.busyDrivers ==> r.busyDrivers[x] == q.busyDrivers[x]
    {
      assert x in View(r).entries <==> x in View(q).entries;
      assert x in View(r).entries ==> View(r).entries[x] == View(q).entries[x];
    }
    assert r.drivers == q.drivers && r.busyDrivers == q.busyDrivers;
  }

  lemma WriteKeepsIds(b: Book, op: Op, who: Who, id: nat)
    ensures Holds(b, who, id) ==> Holds(Write(b, op), who, id)
    ensures Holds(Write(b, op), who, id) ==> Holds(b, who, id) || id == b.idsCount + 1
  {
  }

  function Newcomer(op: Op): Who {
    if op.NewDriver? then ADriver(op.name) else APassenger(op.name)
  }

  // A write that hands out an id hands out the next one, to one new name.
  lemma WriteHandsOut(b: Book, op: Op)
    requires Write(b, op).idsCount != b.idsCount
    ensures Write(b, op).idsCount == b.idsCount + 1
    ensures Holds(Write(b, op), Newcomer(op), b.idsCount + 1)
    ensures forall who, id: nat | Holds(Write(b, op), who, id) && !Holds(b, who, id) :: who == Newcomer(op)
  {
  }

  lemma WriteWithoutId(b: Book, op: Op, who: Who, id: nat)
    requires Write(b, op).idsCount == b.idsCount
    ensures Holds(Write(b, op), who, id) <==> Holds(b, who, id)
  {
  }

  lemma WriteKeepsValid(b: Book, op: Op)
    requires BookValid(b)
    ensures BookValid(Write(b, op))
  {
    var b' := Write(b, op);
    forall who, id: nat ensures Holds(b, who, id) ==> Holds(b', who, id)
      ensures Holds(b', who, id) ==> Holds(b, who, id) || id == b.idsCount + 1
    {
      WriteKeepsIds(b, op, who, id);
    }
    if b'.idsCount == b.idsCount {
      forall who, id: nat ensures Holds(b', who, id) <==> Holds(b, who, id) {
        WriteWithoutId(b, op, who, id);
      }
    } else {
      WriteHandsOut(b, op);
    }
    forall id: nat | 1 <= id <= b'.idsCount ensures Taken(b', id) {
      if id <= b.idsCount {
        assert Taken(b, id);
        var who :| Holds(b, who, id);
        assert Holds(b', who, id);
      } else {
        assert Holds(b', Newcomer(op), id);
      }
    }
  }

  lemma StepKeepsRegistry(r: Registry, op: Op)
    requires RegistryValid(r)
    ensures RegistryValid(Apply(r, op)) && Keeps(r, Apply(r, op))
  {
    ApplyRefinesWrite(r, op);
    WriteKeepsValid(View(r), op);
    forall who, id: nat | Holds(View(r), who, id) ensures Holds(View(Apply(r, op)), who, id) {
      WriteKeepsIds(View(r), op, who, id);
    }
  }

  lemma {:induction false} WriteAllOf(r: Registry, ops: seq<Op>)
    requires RegistryValid(r)
    ensures RegistryValid(ApplyAll(r, ops)) && Keeps(r, ApplyAll(r, ops))
  {
    if ops != [] {
      var front := ops[..|ops| - 1];
      WriteAllOf(r, front);
      StepKeepsRegistry(ApplyAll(r, front), ops[|ops| - 1]);
    }
  }

  function WriteAll(b: Book, ops: seq<Op>): Book
    decreases |ops|
  {
    if ops == [] then b else Write(WriteAll(b, ops[..|ops| - 1]), ops[|ops| - 1])
  }

  // Whatever handlers run, in whatever order, from the empty registry: the two
  // maps are the one book, they are disjoint, ids are given out once and for all,
  // and the list for passengers is exactly the entries that are not busy.
  lemma {:induction false} RegistryIsBook(ops: seq<Op>)
    ensures var r := ApplyAll(EMPTY, ops);
      && RegistryValid(r)
      && View(r) == WriteAll(View(EMPTY), ops)
      && (forall info :: info in Offered(r) <==>
            exists name :: name in View(r).entries && View(r).entries[name] == Entry(info, false))
  {
    EmptyIsValid();
    WriteAllOf(EMPTY, ops);
    if ops != [] {
      var front := ops[..|ops| - 1];
      RegistryIsBook(front);
      ApplyRefinesWrite(ApplyAll(EMPTY, front), ops[|ops| - 1]);
    }
    OfferedIsFree(ApplyAll(EMPTY, ops));
  }

  lemma OfferedIsFree(r: Registry)
    requires r.drivers.Keys !! r.busyDrivers.Keys
    ensures forall info :: info in Offered(r) <==>
      exists name :: name in View(r).entries && View(r).entries[name] == Entry(info, false)
  {
    forall info ensures info in Offered(r) <==>
      exists name :: name in View(r).entries && View(r).entries[name] == Entry(info, false)
    {
      if info in Offered(r) {
        var name :| name in r.drivers && r.drivers[name] == info;
        assert View(r).entries[name] == Entry(info, false);
      }
    }
  }
}
