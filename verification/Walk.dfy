// Positions on the map, and how drivers and passengers move on it: one step on
// both axes at a time.
module Walk {
  import opened Options

  datatype Point = Point(x: nat, y: nat)

  // One step of one coordinate. Coordinates are unsigned: 0 - 1 is an overflow
  // that ends the process, None.
  function AxisStep(x: nat, target: nat): Option<nat> {
    if x < target then Some(x + 1)
    else if x == 0 then None
    else Some(x - 1)
  }

  function MoveTo(p: Point, target: Point): Option<Point> {
    var x, y := AxisStep(p.x, target.x), AxisStep(p.y, target.y);
    if x.Some? && y.Some? then Some(Point(x.value, y.value)) else None
  }

  // Where n moves lead.
  function After(p: Point, target: Point, n: nat): Option<Point>
    decreases n
  {
    if n == 0 then Some(p)
    else
      var q := After(p, target, n - 1);
      if q.Some? then MoveTo(q.value, target) else None
  }

  // The walker stops the first time that a move leaves it on the target.
  ghost predicate Arrives(p: Point, target: Point, n: nat) {
    && n >= 1 && After(p, target, n) == Some(target)
    && forall k: nat | 1 <= k < n :: After(p, target, k) != Some(target)
  }

  function Apart(a: nat, b: nat): nat {
    if a < b then b - a else a - b
  }

  function Max(a: nat, b: nat): nat {
    if a < b then b else a
  }

  // The number of moves a walk takes, if it ends.
  function Moves(p: Point, target: Point): nat {
    if p == target then 2 else Max(Apart(p.x, target.x), Apart(p.y, target.y))
  }

  // When a walk ends: the distances have equal parity, and no axis waits at 0.
  predicate Reachable(p: Point, target: Point) {
    var dx, dy := Apart(p.x, target.x), Apart(p.y, target.y);
    && dx % 2 == dy % 2
    && (target.x >= 1 || dx == Moves(p, target))
    && (target.y >= 1 || dy == Moves(p, target))
  }

  // One coordinate after n moves: it comes straight to the target and then
  // steps off below it and back.
  function AxisAfter(x: nat, target: nat, n: nat): Option<nat> {
    var d := Apart(x, target);
    if n <= d then Some(if x < target then x + n else x - n)
    else if target == 0 then None
    else if (n - d) % 2 == 0 then Some(target)
    else Some(target - 1)
  }

  lemma AxisAfterStep(x: nat, target: nat, n: nat)
    ensures AxisAfter(x, target, n + 1) ==
      var y := AxisAfter(x, target, n); if y.Some? then AxisStep(y.value, target) else None
  {
  }

  lemma {:induction false} AfterByAxis(p: Point, target: Point, n: nat)
    ensures var x, y := AxisAfter(p.x, target.x, n), AxisAfter(p.y, target.y, n);
      After(p, target, n) == if x.Some? && y.Some? then Some(Point(x.value, y.value)) else None
  {
    if n > 0 {
      AfterByAxis(p, target, n - 1);
      AxisAfterStep(p.x, target.x, n - 1);
      AxisAfterStep(p.y, target.y, n - 1);
    }
  }

  // One coordinate is on its target after n moves.
  predicate Hits(x: nat, target: nat, n: nat) {
    var d := Apart(x, target);
    n == d || (n > d && target >= 1 && (n - d) % 2 == 0)
  }

  lemma OnTarget(p: Point, target: Point, n: nat)
    ensures After(p, target, n) == Some(target) <==> Hits(p.x, target.x, n) && Hits(p.y, target.y, n)
  {
    AfterByAxis(p, target, n);
  }

  lemma HitsEarlier(x: nat, target: nat, n: nat, m: nat)
    requires Hits(x, target, n) && Apart(x, target) <= m <= n && (n - m) % 2 == 0
    ensures Hits(x, target, m)
  {
  }

  lemma ArrivalIsReachable(p: Point, target: Point, n: nat)
    requires Arrives(p, target, n)
    ensures Reachable(p, target) && n == Moves(p, target)
  {
    var m := Moves(p, target);
    OnTarget(p, target, n);
    HitsEarlier(p.x, target.x, n, m);
    HitsEarlier(p.y, target.y, n, m);
    OnTarget(p, target, m);
  }

  lemma ReachableArrives(p: Point, target: Point)
    requires Reachable(p, target)
    ensures Arrives(p, target, Moves(p, target))
  {
    OnTarget(p, target, Moves(p, target));
    forall k: nat | 1 <= k < Moves(p, target) ensures After(p, target, k) != Some(target) {
      OnTarget(p, target, k);
    }
  }

  // A walk ends iff the target is reachable, and then after exactly Moves steps:
  // the greater distance, or 2 for a walker that was there to begin with.
  lemma ArrivesExactly(p: Point, target: Point, n: nat)
    ensures Arrives(p, target, n) <==> Reachable(p, target) && n == Moves(p, target)
  {
    if Arrives(p, target, n) {
      ArrivalIsReachable(p, target, n);
    }
    if Reachable(p, target) {
      ReachableArrives(p, target);
    }
  }

  // The walker has not been on its target in n moves.
  ghost predicate NotThereYet(p: Point, target: Point, n: nat) {
    forall k: nat | 1 <= k <= n :: After(p, target, k) != Some(target)
  }

  lemma {:induction false} FirstArrival(p: Point, target: Point, k: nat)
    requires k >= 1 && After(p, target, k) == Some(target)
    ensures Reachable(p, target)
    decreases k
  {
    if j: nat :| 1 <= j < k && After(p, target, j) == Some(target) {
      FirstArrival(p, target, j);
    } else {
      ArrivesExactly(p, target, k);
    }
  }

  lemma UnreachableIsNeverReached(p: Point, target: Point, n: nat)
    requires !Reachable(p, target)
    ensures NotThereYet(p, target, n)
  {
    if k: nat :| 1 <= k <= n && After(p, target, k) == Some(target) {
      FirstArrival(p, target, k);
    }
  }

  // An overflow is for good.
  lemma StaysOverflown(p: Point, target: Point, m: nat, n: nat)
    requires m <= n && After(p, target, m).None?
    ensures After(p, target, n).None?
  {
    AfterByAxis(p, target, m);
    AfterByAxis(p, target, n);
  }

  // A walker, which stops where it arrives, overflows on its way iff it cannot
  // arrive and a target coordinate is 0.
  lemma OverflowsIff(p: Point, target: Point)
    ensures (exists n: nat :: After(p, target, n).None? && NotThereYet(p, target, n))
       <==> !Reachable(p, target) && (target.x == 0 || target.y == 0)
  {
    if n: nat :| After(p, target, n).None? && NotThereYet(p, target, n) {
      AfterByAxis(p, target, n);
      if Reachable(p, target) {
        ReachableArrives(p, target);
        if n <= Moves(p, target) { StaysOverflown(p, target, n, Moves(p, target)); }
      }
    }
    if !Reachable(p, target) && (target.x == 0 || target.y == 0) {
      var far := Apart(p.x, target.x) + Apart(p.y, target.y) + 1;
      AfterByAxis(p, target, far);
      UnreachableIsNeverReached(p, target, far);
    }
  }
}
