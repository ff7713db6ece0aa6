// A ride from start to end: the driver walks to the passenger and then both walk
// to the destination. When does it end, and do the two stay together?
module RideLegs {
  import opened Options
  import opened Walk
  import opened Ride

  function Iterate<S>(step: S -> Option<S>, s: S, n: nat): Option<S>
    decreases n
  {
    if n == 0 then Some(s)
    else
      var before := Iterate(step, s, n - 1);
      if before.None? then None else step(before.value)
  }

  lemma {:induction false} IterateOn<S>(step: S -> Option<S>, s: S, m: nat, n: nat)
    requires Iterate(step, s, m).Some?
    ensures Iterate(step, s, m + n) == Iterate(step, Iterate(step, s, m).value, n)
  {
    if n > 0 {
      IterateOn(step, s, m, n - 1);
    }
  }

  // A driver and the task it is at, one handler call later. None: an overflow
  // ended the process.
  function Advance(s: (Driver, Task)): Option<(Driver, Task)> {
    var r := OnTask(s.0, s.1);
    if r.None? then None
    else if r.value.tasks == [] then Some(s)
    else Some((r.value.driver, r.value.tasks[0]))
  }

  // n handler calls of a driver that follows its own messages.
  function Drive(d: Driver, task: Task, n: nat): Option<(Driver, Task)> {
    Iterate(Advance, (d, task), n)
  }

  lemma NotThereBefore(p: Point, target: Point, n: nat)
    requires n >= 1 && NotThereYet(p, target, n)
    ensures NotThereYet(p, target, n - 1)
  {
  }

  // As long as the passenger is not reached, the driver is where the walk leads.
  lemma {:induction false} PickUpLeg(d: Driver, origin: Point, n: nat)
    requires d.passengerPosition == Some(origin) && NotThereYet(d.position, origin, n)
    ensures var q := After(d.position, origin, n);
      Drive(d, PickUpPassenger, n) ==
        if q.None? then None else Some((d.(position := q.value), PickUpPassenger))
  {
    if n > 0 {
      NotThereBefore(d.position, origin, n);
      PickUpLeg(d, origin, n - 1);
    }
  }

  lemma {:induction false} DestinationLeg(d: Driver, target: Point, n: nat)
    requires d.destination == Some(target) && NotThereYet(d.position, target, n)
    ensures var q := After(d.position, target, n);
      Drive(d, RideToDestination, n) ==
        if q.None? then None else Some((d.(position := q.value), RideToDestination))
  {
    if n > 0 {
      NotThereBefore(d.position, target, n);
      DestinationLeg(d, target, n - 1);
    }
  }

  lemma DriveOn(d: Driver, task: Task, m: nat, n: nat)
    requires Drive(d, task, m).Some?
    ensures Drive(d, task, m + n) ==
      Drive(Drive(d, task, m).value.0, Drive(d, task, m).value.1, n)
  {
    IterateOn(Advance, (d, task), m, n);
  }

  lemma LastMove(p: Point, target: Point)
    requires Reachable(p, target)
    ensures var m := Moves(p, target);
      && NotThereYet(p, target, m - 1) && After(p, target, m - 1).Some?
      && MoveTo(After(p, target, m - 1).value, target) == Some(target)
  {
    ArrivesExactly(p, target, Moves(p, target));
  }

  // A reachable passenger is picked up after exactly Moves calls.
  lemma PickUpEnds(d: Driver, origin: Point)
    requires d.passengerPosition == Some(origin) && Reachable(d.position, origin)
    ensures Drive(d, PickUpPassenger, Moves(d.position, origin))
         == Some((d.(position := origin, pickedUp := true), RideToDestination))
  {
    LastMove(d.position, origin);
    PickUpLeg(d, origin, Moves(d.position, origin) - 1);
  }

  lemma DestinationEnds(d: Driver, target: Point)
    requires d.destination == Some(target) && Reachable(d.position, target)
    ensures Drive(d, RideToDestination, Moves(d.position, target))
         == Some((d.(position := target), EndRide(target)))
  {
    LastMove(d.position, target);
    DestinationLeg(d, target, Moves(d.position, target) - 1);
  }

  predicate AtEnd(s: Option<(Driver, Task)>) {
    s.Some? && s.value.1.EndRide?
  }

  lemma NoPickUpNoEnd(d: Driver, origin: Point, n: nat)
    requires d.passengerPosition == Some(origin)
    requires Reachable(d.position, origin) ==> n < Moves(d.position, origin)
    ensures !AtEnd(Drive(d, PickUpPassenger, n))
  {
    if Reachable(d.position, origin) {
      ArrivesExactly(d.position, origin, Moves(d.position, origin));
    } else {
      UnreachableIsNeverReached(d.position, origin, n);
    }
    PickUpLeg(d, origin, n);
  }

  lemma NoArrivalNoEnd(d: Driver, target: Point, n: nat)
    requires d.destination == Some(target) && !Reachable(d.position, target)
    ensures !AtEnd(Drive(d, RideToDestination, n))
  {
    UnreachableIsNeverReached(d.position, target, n);
    DestinationLeg(d, target, n);
  }

  lemma LegAfterLeg(d: Driver, task: Task, m: nat, d2: Driver, task2: Task, n: nat)
    requires Drive(d, task, m) == Some((d2, task2))
    ensures Drive(d, task, m + n) == Drive(d2, task2, n)
  {
    DriveOn(d, task, m, n);
  }

  // A ride with both legs reachable takes the sum of their moves, and ends at
  // the destination with the passenger picked up.
  lemma RideEnds(d: Driver, origin: Point, target: Point)
    requires d.passengerPosition == Some(origin) && d.destination == Some(target)
    requires Reachable(d.position, origin) && Reachable(origin, target)
    ensures Drive(d, PickUpPassenger, Moves(d.position, origin) + Moves(origin, target))
         == Some((d.(position := target, pickedUp := true), EndRide(target)))
  {
    var d2 := d.(position := origin, pickedUp := true);
    PickUpEnds(d, origin);
    DestinationEnds(d2, target);
    LegAfterLeg(d, PickUpPassenger, Moves(d.position, origin), d2, RideToDestination, Moves(origin, target));
  }

  lemma UnreachableRideNeverEnds(d: Driver, origin: Point, target: Point, n: nat)
    requires d.passengerPosition == Some(origin) && d.destination == Some(target)
    requires !Reachable(d.position, origin) || !Reachable(origin, target)
    ensures !AtEnd(Drive(d, PickUpPassenger, n))
  {
    var m := Moves(d.position, origin);
    if Reachable(d.position, origin) && n >= m {
      PickUpEnds(d, origin);
      DriveOn(d, PickUpPassenger, m, n - m);
      NoArrivalNoEnd(d.(position := origin, pickedUp := true), target, n - m);
    } else {
      NoPickUpNoEnd(d, origin, n);
    }
  }

  // An accepted ride comes to its end iff both legs do.
  lemma RideEndsIff(d: Driver, origin: Point, target: Point)
    requires d.passengerPosition == Some(origin) && d.destination == Some(target)
    ensures (exists n: nat :: AtEnd(Drive(d, PickUpPassenger, n)))
       <==> Reachable(d.position, origin) && Reachable(origin, target)
  {
    if Reachable(d.position, origin) && Reachable(origin, target) {
      RideEnds(d, origin, target);
      assert AtEnd(Drive(d, PickUpPassenger, Moves(d.position, origin) + Moves(origin, target)));
    } else {
      forall n: nat ensures !AtEnd(Drive(d, PickUpPassenger, n)) {
        UnreachableRideNeverEnds(d, origin, target, n);
      }
    }
  }

  // A driver that accepts a ride from the place next to it never picks the
  // passenger up: the two axes never come right at the same time.
  lemma NextDoorIsNeverReached(d: Driver, target: Point, n: nat)
    requires d.position == Point(1, 1) && d.passengerPosition == Some(Point(1, 2)) && d.destination == Some(target)
    ensures !AtEnd(Drive(d, PickUpPassenger, n))
  {
    UnreachableRideNeverEnds(d, Point(1, 2), target, n);
  }

  // ---- The passenger ----

  // Traveling: one move, and whether to travel on.
  function OnTraveling(position: Point, destination: Point): Option<(Point, bool)> {
    var next := MoveTo(position, destination);
    if next.None? then None else Some((next.value, next.value != destination))
  }

  // n calls of the passenger's handler from where it was picked up.
  function Travel(position: Point, destination: Point, n: nat): Option<(Point, bool)>
    decreases n
  {
    if n == 0 then Some((position, true))
    else
      var before := Travel(position, destination, n - 1);
      if before.None? || !before.value.1 then before
      else OnTraveling(before.value.0, destination)
  }

  lemma {:induction false} TravelIsWalk(p: Point, target: Point, n: nat)
    requires NotThereYet(p, target, n)
    ensures var q := After(p, target, n);
      Travel(p, target, n) == if q.None? then None else Some((q.value, true))
  {
    if n > 0 {
      NotThereBefore(p, target, n);
      TravelIsWalk(p, target, n - 1);
    }
  }

  // The n-th call of the one and of the other leave both at the same place, and
  // both going on or both there.
  ghost predicate Together(d: Driver, target: Point, n: nat) {
    var a, b := Drive(d, RideToDestination, n), Travel(d.position, target, n);
    && (a.None? <==> b.None?)
    && (a.Some? ==> a.value.0.position == b.value.0 && (a.value.1.EndRide? <==> !b.value.1))
  }

  lemma TogetherOnTheWay(d: Driver, target: Point, n: nat)
    requires d.destination == Some(target) && NotThereYet(d.position, target, n)
    ensures Together(d, target, n)
  {
    DestinationLeg(d, target, n);
    TravelIsWalk(d.position, target, n);
  }

  lemma TogetherAtTheEnd(d: Driver, target: Point)
    requires d.destination == Some(target) && Reachable(d.position, target)
    ensures Together(d, target, Moves(d.position, target))
  {
    DestinationEnds(d, target);
    LastMove(d.position, target);
    TravelIsWalk(d.position, target, Moves(d.position, target) - 1);
  }

  // From the pick-up on, driver and passenger are at the same place after every
  // step, and stop at the same step or never.
  lemma DriverAndPassengerStayTogether(d: Driver, target: Point, n: nat)
    requires d.destination == Some(target)
    requires Reachable(d.position, target) ==> n <= Moves(d.position, target)
    ensures Together(d, target, n)
  {
    if !Reachable(d.position, target) {
      UnreachableIsNeverReached(d.position, target, n);
      TogetherOnTheWay(d, target, n);
    } else if n == Moves(d.position, target) {
      TogetherAtTheEnd(d, target);
    } else {
      ArrivesExactly(d.position, target, Moves(d.position, target));
      TogetherOnTheWay(d, target, n);
    }
  }
}
