// The passenger actor as the program keeps it: its search for a driver and its
// travel.
module PassengerActor {
  import opened Options
  import opened Walk
  import opened DriverSearch
  import opened RideLegs

  class Passenger {
    var position: Point
    var destination: Point
    var driversInfo: seq<Candidate>

    constructor (position: Point, destination: Point)
      ensures this.position == position && this.destination == destination && driversInfo == []
    {
      this.position := position;
      this.destination := destination;
      driversInfo := [];
    }

    method SelectDriver(range: nat) returns (chosen: Option<Candidate>)
      modifies this`driversInfo
      ensures (chosen, driversInfo) == Select(DistanceFrom(position), old(driversInfo), range)
      decreases if range > MAX_RANGE then 0 else MAX_RANGE + 1 - range
    {
      for i := 0 to |driversInfo|
        invariant driversInfo == old(driversInfo)
        invariant forall j | 0 <= j < i :: DistanceFrom(position)(driversInfo[j]) >= range
      {
        var driver := driversInfo[i];
        var distance := Distance(position, driver.position);
        if distance < range {
          driversInfo := Without(driversInfo, i);
          return Some(driver);
        }
      }
      if range > MAX_RANGE {
        chosen := None;
      } else {
        chosen := SelectDriver(range + 10);
      }
    }

    // A list has come, from the server or from KeepLooking.
    method HandleDrivers(list: seq<Candidate>) returns (chosen: Option<Candidate>)
      modifies this`driversInfo
      ensures (chosen, driversInfo) == Select(DistanceFrom(position), list, FIRST_RANGE)
    {
      driversInfo := list;
      chosen := SelectDriver(FIRST_RANGE);
    }

    // The driver refused, or could not be reached: the list to search next.
    method KeepLooking() returns (list: seq<Candidate>)
      ensures list == driversInfo
    {
      list := driversInfo;
    }

    // One driver after the other refuses, or cannot be reached: whom the
    // passenger asks, in order, until nobody is found.
    method AskAll(list: seq<Candidate>) returns (asked: seq<Candidate>)
      modifies this`driversInfo
      ensures (asked, driversInfo) == SearchAll(DistanceFrom(position), list)
      decreases |list|
    {
      ghost var near := DistanceFrom(position);
      var chosen := HandleDrivers(list);
      SearchUnfolds(near, list, chosen, driversInfo);
      if chosen.None? {
        return [];
      }
      var next := KeepLooking();
      var others := AskAll(next);
      asked := [chosen.value] + others;
    }

    method Move(target: Point) returns (ok: bool)
      modifies this`position
      ensures ok <==> MoveTo(old(position), target).Some?
      ensures ok ==> Some(position) == MoveTo(old(position), target)
    {
      if position.x < target.x {
        position := position.(x := position.x + 1);
      } else if position.x == 0 {
        return false;
      } else {
        position := position.(x := position.x - 1);
      }
      if position.y < target.y {
        position := position.(y := position.y + 1);
      } else if position.y == 0 {
        return false;
      } else {
        position := position.(y := position.y - 1);
      }
      ok := true;
    }

    // `again`: the passenger sends itself Traveling once more; otherwise it has
    // arrived and asks for the payment to be confirmed.
    method HandleTraveling() returns (ok: bool, again: bool)
      modifies this`position
      ensures ok <==> OnTraveling(old(position), destination).Some?
      ensures ok ==> Some((position, again)) == OnTraveling(old(position), destination)
    {
      again := false;
      ok := Move(destination);
      if ok {
        again := position != destination;
      }
    }
  }
}
