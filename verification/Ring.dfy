// The ring of server ids 1..n, walked clockwise, and the search for the next
// server that is not believed dead.
module Ring {

  predicate Id(n: nat, i: nat) {
    1 <= i <= n
  }

  // The id that follows i on the ring.
  function Next(n: nat, i: nat): nat {
    if i == n then 1 else i + 1
  }

  // Clockwise steps from a to b, at least one: a full turn when a == b.
  function Gap(n: nat, a: nat, b: nat): (g: nat)
    requires Id(n, a) && Id(n, b)
    ensures 1 <= g <= n
    ensures g == n <==> a == b
  {
    if a < b then b - a else b + n - a
  }

  // Every id strictly between a and b, clockwise, is in `dead`.
  // When a == b that is every other id.
  ghost predicate Hop(n: nat, dead: set<nat>, a: nat, b: nat)
    requires Id(n, a) && Id(n, b)
  {
    forall y: nat | Id(n, y) :: Gap(n, a, y) < Gap(n, a, b) ==> y in dead
  }

  // A path of ids in which each hop passes over dead ids only.
  ghost predicate Walk(n: nat, dead: set<nat>, path: seq<nat>) {
    && (forall k | 0 <= k < |path| :: Id(n, path[k]))
    && (forall k | 0 <= k < |path| - 1 :: Hop(n, dead, path[k], path[k + 1]))
  }

  lemma GapBeyond(n: nat, a: nat, b: nat, y: nat)
    requires Id(n, a) && Id(n, b) && Id(n, y)
    requires Gap(n, a, b) < Gap(n, a, y)
    ensures Gap(n, a, y) == Gap(n, a, b) + Gap(n, b, y)
  {
  }

  // A walk that ends on the id it started from has called at every live id.
  lemma ClosedWalkVisits(n: nat, dead: set<nat>, path: seq<nat>, y: nat)
    requires Walk(n, dead, path)
    requires |path| >= 2 && path[0] == path[|path| - 1]
    requires Id(n, y) && y !in dead
    ensures y in path
  {
    if y !in path {
      var k := 0;
      while k < |path| - 1
        invariant 0 <= k <= |path| - 1
        invariant Gap(n, path[k], y) + k <= Gap(n, path[0], y)
      {
        assert Hop(n, dead, path[k], path[k + 1]);
        assert path[k + 1] != y;
        GapBeyond(n, path[k], path[k + 1], y);
        k := k + 1;
      }
    }
  }

  // The loop of update_neighbor: look at `fuel` ids, starting with cur, for
  // one that is neither `me` nor listed.
  function Scan(n: nat, me: nat, listed: seq<nat>, cur: nat, fuel: nat): (nat, bool)
    decreases fuel
  {
    if fuel == 0 then (cur, false)
    else if cur !in listed && cur != me then (cur, true)
    else Scan(n, me, listed, Next(n, cur), fuel - 1)
  }

  // update_neighbor: keep an unlisted neighbour, otherwise search from the one after it.
  function UpdateNeighbor(n: nat, me: nat, listed: seq<nat>, neighbor: nat): (nat, bool) {
    if neighbor !in listed then (neighbor, true)
    else Scan(n, me, listed, Next(n, neighbor), n)
  }

  lemma {:induction false} ScanFrom(n: nat, me: nat, listed: seq<nat>, base: nat, cur: nat, fuel: nat)
    requires Id(n, me) && Id(n, base) && Id(n, cur) && fuel <= n
    requires fuel > 0 ==> Gap(n, base, cur) == n - fuel + 1
    requires fuel == 0 ==> cur == Next(n, base)
    ensures var (r, ok) := Scan(n, me, listed, cur, fuel);
      && Id(n, r)
      && (ok ==> r != me && r !in listed && n - fuel + 1 <= Gap(n, base, r))
      && (forall y: nat | Id(n, y) && n - fuel + 1 <= Gap(n, base, y) ::
            ok ==> Gap(n, base, y) < Gap(n, base, r) ==> y in listed || y == me)
      && (forall y: nat | Id(n, y) && n - fuel + 1 <= Gap(n, base, y) ::
            !ok ==> y in listed || y == me)
      && (!ok ==> r == Next(n, base))
    decreases fuel
  {
    if fuel != 0 && (cur in listed || cur == me) {
      forall y: nat | Id(n, y) && Gap(n, base, y) == n - fuel + 1 ensures y == cur {
      }
      ScanFrom(n, me, listed, base, Next(n, cur), fuel - 1);
    }
  }

  // What update_neighbor returns, for every list and every starting neighbour:
  // it fails iff no id other than `me` is free (a neighbour that is `me` itself,
  // unlisted, passes the first test); a listed neighbour is replaced by the first
  // free id clockwise after it.
  lemma UpdateNeighborExact(n: nat, me: nat, listed: seq<nat>, neighbor: nat)
    requires Id(n, me) && Id(n, neighbor)
    ensures var (r, ok) := UpdateNeighbor(n, me, listed, neighbor);
      && Id(n, r)
      && (neighbor != me ==> (!ok <==> forall y: nat | Id(n, y) && y != me :: y in listed))
      && (neighbor == me ==>
            (!ok <==> me in listed && forall y: nat | Id(n, y) && y != me :: y in listed))
      && (ok ==> r !in listed && (r == me ==> neighbor == me && me !in listed))
      && (neighbor !in listed ==> ok && r == neighbor)
      && (ok && neighbor in listed ==>
            forall y: nat | Id(n, y) && Gap(n, neighbor, y) < Gap(n, neighbor, r) :: y in listed || y == me)
      && (!ok ==> r == Next(n, neighbor))
  {
    if neighbor in listed {
      ScanFrom(n, me, listed, neighbor, Next(n, neighbor), n);
    }
  }

  // If the list holds dead ids only and the old neighbour skips dead ids only,
  // so does the new one; and a failed search means that nobody else is alive.
  lemma UpdateNeighborKeepsHop(n: nat, dead: set<nat>, me: nat, listed: seq<nat>, neighbor: nat)
    requires Id(n, me) && Id(n, neighbor)
    requires forall x | x in listed :: x in dead
    requires Hop(n, dead, me, neighbor)
    ensures var (r, ok) := UpdateNeighbor(n, me, listed, neighbor);
      && Id(n, r) && Hop(n, dead, me, r)
      && (!ok ==> forall y: nat | Id(n, y) && y != me :: y in dead)
  {
    UpdateNeighborExact(n, me, listed, neighbor);
    var (r, ok) := UpdateNeighbor(n, me, listed, neighbor);
    forall y: nat | Id(n, y) && Gap(n, me, y) < Gap(n, me, r) ensures y in dead {
      if ok && neighbor in listed && Gap(n, me, neighbor) < Gap(n, me, y) {
        GapBeyond(n, me, neighbor, y);
        GapBeyond(n, me, neighbor, r);
      }
    }
  }
}
