// The leader's registry as the program keeps it: maps that the handlers update.
module RegistryActor {
  import opened Options
  import opened Walk
  import opened Registry

  class RegistryServer {
    var drivers: map<string, DriverInfo>
    var busyDrivers: map<string, DriverInfo>
    var passengers: map<string, nat>
    var addresses: map<nat, nat>   // passenger id to its connection
    var idsCount: nat
    var mailbox: seq<Op>           // messages the server has sent to itself

    ghost function State(): Registry
      reads this
    {
      Registry(drivers, busyDrivers, passengers, idsCount)
    }

    // Every connection belongs to a passenger that was given its id.
    ghost predicate Valid()
      reads this
    {
      && RegistryValid(State())
      && forall id | id in addresses :: exists name :: name in passengers && passengers[name] == id
    }

    constructor ()
      ensures State() == EMPTY && mailbox == [] && addresses == map[] && Valid()
    {
      drivers := map[];
      busyDrivers := map[];
      passengers := map[];
      addresses := map[];
      idsCount := 0;
      mailbox := [];
      new;
      EmptyIsValid();
    }

    method NewDriver(name: string, socket: string, position: Point)
      requires Valid()
      modifies this`drivers, this`idsCount, this`mailbox
      ensures Valid()
      ensures State() == Apply(old(State()), Op.NewDriver(name, socket, position))
      ensures mailbox == old(mailbox) + Deferred(old(State()), Op.NewDriver(name, socket, position))
    {
      ghost var after := Apply(State(), Op.NewDriver(name, socket, position));
      StepKeepsRegistry(State(), Op.NewDriver(name, socket, position));
      if name in drivers {
        mailbox := mailbox + [Op.UpdateSocket(name, socket)];
        return;
      }
      if name in busyDrivers {
        mailbox := mailbox + [Op.UpdateSocket(name, socket)];
        return;
      }
      idsCount := idsCount + 1;
      var id := idsCount;
      drivers := drivers[name := DriverInfo(name, socket, id, position)];
      assert State() == after;
    }

    // The list that goes to a passenger, in some order, each driver once.
    method GetDrivers() returns (offered: set<DriverInfo>)
      requires Valid()
      ensures forall info :: info in offered <==>
        exists name :: name in View(State()).entries && View(State()).entries[name] == Entry(info, false)
    {
      OfferedIsFree(State());
      offered := drivers.Values;
    }

    // `id` is what the passenger is told.
    method PassengerLogin(name: string, address: nat) returns (id: nat)
      requires Valid()
      modifies this`passengers, this`addresses, this`idsCount
      ensures Valid()
      ensures State() == Apply(old(State()), Op.PassengerLogin(name))
      ensures name in passengers && id == passengers[name] && addresses == old(addresses)[id := address]
    {
      StepKeepsRegistry(State(), Op.PassengerLogin(name));
      if name in passengers {
        id := passengers[name];
        addresses := addresses[id := address];
      } else {
        idsCount := idsCount + 1;
        id := idsCount;
        passengers := passengers[name := id];
        addresses := addresses[id := address];
      }
      forall x | x in addresses ensures exists n :: n in passengers && passengers[n] == x {
        if x == id {
          assert passengers[name] == x;
        } else {
          var n :| n in old(passengers) && old(passengers)[n] == x;
          assert n in passengers && passengers[n] == x;
        }
      }
    }

    method UpdateDriver(name: string, position: Point)
      requires Valid()
      modifies this`drivers, this`busyDrivers
      ensures Valid()
      ensures State() == Apply(old(State()), Op.UpdateDriver(name, position))
    {
      StepKeepsRegistry(State(), Op.UpdateDriver(name, position));
      if name !in busyDrivers {
        return;
      }
      var driver := busyDrivers[name];
      busyDrivers := busyDrivers - {name};
      driver := driver.(position := position);
      drivers := drivers[name := driver];
    }

    method BusyDriver(name: string)
      requires Valid()
      modifies this`drivers, this`busyDrivers
      ensures Valid()
      ensures State() == Apply(old(State()), Op.BusyDriver(name))
    {
      StepKeepsRegistry(State(), Op.BusyDriver(name));
      if name !in drivers {
        return;
      }
      var driver := drivers[name];
      drivers := drivers - {name};
      busyDrivers := busyDrivers[name := driver];
    }

    // Who is told to reconnect, if its connection is known.
    method ReconnectDriver(name: string, passenger: nat, socket: string) returns (told: Option<nat>)
      requires Valid()
      modifies this`mailbox
      ensures Valid() && unchanged(this`drivers) && unchanged(this`busyDrivers)
      ensures mailbox == old(mailbox) + Deferred(old(State()), Op.ReconnectDriver(name, socket))
      ensures told == if passenger in addresses then Some(addresses[passenger]) else None
    {
      mailbox := mailbox + [Op.UpdateSocket(name, socket)];
      told := if passenger in addresses then Some(addresses[passenger]) else None;
    }

    method UpdateDriverSocket(name: string, socket: string)
      requires Valid()
      modifies this`drivers, this`busyDrivers
      ensures Valid()
      ensures State() == Apply(old(State()), Op.UpdateSocket(name, socket))
    {
      StepKeepsRegistry(State(), Op.UpdateSocket(name, socket));
      if name in drivers {
        drivers := drivers[name := drivers[name].(socket := socket)];
      }
      if name in busyDrivers {
        busyDrivers := busyDrivers[name := busyDrivers[name].(socket := socket)];
      }
    }

    // A replica takes over the state of a snapshot.
    method UpdateNetworkState(snapshot: Registry)
      modifies this`drivers, this`busyDrivers, this`passengers, this`idsCount
      ensures State() == snapshot && addresses == old(addresses) && mailbox == old(mailbox)
    {
      drivers := snapshot.drivers;
      busyDrivers := snapshot.busyDrivers;
      passengers := snapshot.passengers;
      idsCount := snapshot.idsCount;
    }
  }
}
