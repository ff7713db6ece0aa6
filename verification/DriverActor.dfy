// The driver actor as the program keeps it. Each handler is tied to its function
// in Ride; `ok` is false when an overflow ends the process.
module DriverActor {
  import opened Options
  import opened Walk
  import opened Registry
  import opened Ride

  class DriverProcess {
    const name: string
    const socket: string
    var isAvailable: bool
    var isRegistered: bool
    var position: Point
    var passengerPosition: Option<Point>
    var destination: Option<Point>
    var passengerPickedUp: bool
    var currentPassenger: nat
    var currentConnection: Option<nat>

    ghost function State(): Driver
      reads this
    {
      Driver(name, socket, isAvailable, isRegistered, position,
             passengerPosition, destination, passengerPickedUp, currentPassenger, currentConnection)
    }

    constructor (name: string, socket: string, position: Point)
      ensures State() == Driver(name, socket, true, false, position, None, None, false, 0, None)
    {
      this.name := name;
      this.socket := socket;
      isAvailable := true;
      isRegistered := false;
      this.position := position;
      passengerPosition := None;
      destination := None;
      passengerPickedUp := false;
      currentPassenger := 0;
      currentConnection := None;
    }

    method Move(target: Point) returns (ok: bool)
      modifies this`position
      ensures ok <==> MoveTo(old(position), target).Some?
      ensures ok ==> Some(position) == MoveTo(old(position), target)
    {
      if position.x < target.x {
        position := position.(x := position.x + 1);
      } else if position.x == 0 {
        return false;
      } else {
        position := position.(x := position.x - 1);
      }
      if position.y < target.y {
        position := position.(y := position.y + 1);
      } else if position.y == 0 {
        return false;
      } else {
        position := position.(y := position.y - 1);
      }
      ok := true;
    }

    method HandleRegister() returns (toServer: seq<Op>)
      modifies this
      ensures Response(State(), [], toServer, []) == OnRegister(old(State()))
    {
      toServer := [NewDriver(name, socket, position)];
      isRegistered := true;
    }

    method HandleRequestRide(from: nat, passenger: nat, origin: Point, target: Point)
      returns (tasks: seq<Task>, toServer: seq<Op>, letters: seq<Letter>)
      modifies this
      ensures Response(State(), tasks, toServer, letters)
           == OnRequestRide(old(State()), from, passenger, origin, target)
    {
      tasks, toServer := [], [];
      if !isAvailable {
        letters := [Letter(from, Refuses)];
      } else {
        currentPassenger := passenger;
        passengerPosition := Some(origin);
        destination := Some(target);
        isAvailable := false;
        currentConnection := Some(from);
        letters := [Letter(from, Accepts(socket))];
        toServer := [BusyDriver(name)];
        tasks := [StartRide];
      }
    }

    method HandleStartRide() returns (tasks: seq<Task>)
      ensures OnTask(State(), StartRide) == Some(Response(State(), tasks, [], []))
    {
      tasks := [PickUpPassenger];
    }

    method HandlePickUpPassenger() returns (ok: bool, tasks: seq<Task>, letters: seq<Letter>)
      modifies this
      ensures ok <==> OnTask(old(State()), PickUpPassenger).Some?
      ensures ok ==> Some(Response(State(), tasks, [], letters)) == OnTask(old(State()), PickUpPassenger)
    {
      ok, tasks, letters := true, [], [];
      if passengerPosition.None? {
        return;
      }
      ok := Move(passengerPosition.value);
      if !ok {
        return;
      }
      if position != passengerPosition.value {
        tasks := [PickUpPassenger];
        return;
      }
      passengerPickedUp := true;
      if currentConnection.Some? {
        letters := [Letter(currentConnection.value, HasArrived)];
      }
      tasks := [RideToDestination];
    }

    method HandleRideToDestination() returns (ok: bool, tasks: seq<Task>)
      modifies this
      ensures ok <==> OnTask(old(State()), RideToDestination).Some?
      ensures ok ==> Some(Response(State(), tasks, [], [])) == OnTask(old(State()), RideToDestination)
    {
      ok, tasks := true, [];
      if destination.None? {
        return;
      }
      ok := Move(destination.value);
      if !ok {
        return;
      }
      if position != destination.value {
        tasks := [RideToDestination];
        return;
      }
      tasks := [EndRide(position)];
    }

    method HandleEndRide(dst: Point) returns (toServer: seq<Op>)
      modifies this
      ensures OnTask(old(State()), EndRide(dst)) == Some(Response(State(), [], toServer, []))
    {
      position := dst;
      toServer := [UpdateDriver(name, position)];
      isAvailable := true;
      passengerPickedUp := false;
    }
  }
}
