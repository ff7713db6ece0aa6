// How a passenger picks drivers: in a circle that widens from 5 by 10 up to 1005,
// the first driver of the list inside it, and each driver once.
module DriverSearch {
  import opened Options
  import opened Walk

  datatype Candidate = Candidate(socket: string, position: Point)

  const FIRST_RANGE := 5
  const MAX_RANGE := 1000

  function FloorSqrt(n: nat): nat {
    if n == 0 then 0
    else
      var r := FloorSqrt(n - 1);
      if (r + 1) * (r + 1) <= n then r + 1 else r
  }

  lemma {:induction false} FloorSqrtExact(n: nat)
    ensures var r := FloorSqrt(n); r * r <= n < (r + 1) * (r + 1)
  {
    if n > 0 {
      FloorSqrtExact(n - 1);
    }
  }

  function Distance(p: Point, q: Point): nat {
    var dx, dy := Apart(p.x, q.x), Apart(p.y, q.y);
    FloorSqrt(dx * dx + dy * dy)
  }

  // The rounded distance is below a range iff the exact one is.
  lemma DistanceBelow(p: Point, q: Point, range: nat)
    ensures var dx, dy := Apart(p.x, q.x), Apart(p.y, q.y);
      Distance(p, q) < range <==> dx * dx + dy * dy < range * range
  {
    var dx, dy := Apart(p.x, q.x), Apart(p.y, q.y);
    var d := Distance(p, q);
    FloorSqrtExact(dx * dx + dy * dy);
    if d < range {
      Squares(d + 1, range);
    } else {
      Squares(range, d);
    }
  }

  lemma Squares(a: nat, b: nat)
    requires a <= b
    ensures a * a <= b * b
  {
  }

  // The search goes by how far each candidate is: from here, this far.
  function DistanceFrom(here: Point): Candidate -> nat {
    (c: Candidate) => Distance(here, c.position)
  }

  // The first candidate inside the circle, |list| if there is none.
  function FirstWithin(near: Candidate -> nat, list: seq<Candidate>, range: nat): (i: nat)
    ensures i <= |list|
    ensures i < |list| ==> near(list[i]) < range
    ensures forall j | 0 <= j < i :: near(list[j]) >= range
  {
    if list == [] || near(list[0]) < range then 0
    else 1 + FirstWithin(near, list[1..], range)
  }

  function Without(list: seq<Candidate>, i: nat): seq<Candidate>
    requires i < |list|
  {
    list[..i] + list[i + 1..]
  }

  // select_driver: the driver chosen and the list that remains.
  function Select(near: Candidate -> nat, list: seq<Candidate>, range: nat): (r: (Option<Candidate>, seq<Candidate>))
    ensures |r.1| == |list| - if r.0.Some? then 1 else 0
    decreases if range > MAX_RANGE then 0 else MAX_RANGE + 1 - range
  {
    var i := FirstWithin(near, list, range);
    if i < |list| then (Some(list[i]), Without(list, i))
    else if range > MAX_RANGE then (None, list)
    else Select(near, list, range + 10)
  }

  // ---- One call ----

  // The number of widenings after which a candidate is inside.
  function Band(near: Candidate -> nat, c: Candidate): nat {
    (near(c) + 5) / 10
  }

  const BANDS := 101

  // Of the least band in the list, the first.
  ghost predicate Nearest(near: Candidate -> nat, list: seq<Candidate>, i: nat)
    requires i < |list|
  {
    && Band(near, list[i]) < BANDS
    && (forall x | x in list :: Band(near, list[i]) <= Band(near, x))
    && (forall j | 0 <= j < i :: Band(near, list[i]) < Band(near, list[j]))
  }

  // What a search may find: the nearest, taken out, or nobody near.
  ghost predicate Finds(near: Candidate -> nat, list: seq<Candidate>, chosen: Option<Candidate>, left: seq<Candidate>) {
    match chosen
    case None => left == list && forall x | x in list :: Band(near, x) >= BANDS
    case Some(c) => exists i: nat :: Takes(near, list, i, c, left)
  }

  ghost predicate Takes(near: Candidate -> nat, list: seq<Candidate>, i: nat, c: Candidate, left: seq<Candidate>) {
    i < |list| && c == list[i] && left == Without(list, i) && Nearest(near, list, i)
  }

  lemma FirstInBand(near: Candidate -> nat, list: seq<Candidate>, b: nat)
    ensures var i := FirstWithin(near, list, 5 + 10 * b);
      && (i < |list| ==> Band(near, list[i]) <= b)
      && (forall j | 0 <= j < i :: Band(near, list[j]) > b)
      && (i == |list| ==> forall x | x in list :: Band(near, x) > b)
  {
  }

  // What a call that starts with the circle of band b finds, if nobody is nearer.
  lemma {:induction false} SelectFrom(near: Candidate -> nat, list: seq<Candidate>, b: nat)
    requires b < BANDS && forall x | x in list :: Band(near, x) >= b
    ensures var (chosen, left) := Select(near, list, 5 + 10 * b); Finds(near, list, chosen, left)
    decreases BANDS - b
  {
    var i := FirstWithin(near, list, 5 + 10 * b);
    FirstInBand(near, list, b);
    if i < |list| {
      assert Takes(near, list, i, list[i], Without(list, i));
    } else if b + 1 < BANDS {
      SelectFrom(near, list, b + 1);
      assert 5 + 10 * (b + 1) == 5 + 10 * b + 10;
    }
  }

  lemma BandGap(near: Candidate -> nat, c: Candidate, x: Candidate)
    requires Band(near, c) <= Band(near, x)
    ensures near(c) <= near(x) + 9
  {
  }

  lemma FirstSearchFinds(near: Candidate -> nat, list: seq<Candidate>, chosen: Option<Candidate>, left: seq<Candidate>)
    requires Select(near, list, FIRST_RANGE) == (chosen, left)
    ensures Finds(near, list, chosen, left)
  {
    SelectFrom(near, list, 0);
  }

  // One search from the first range finds nobody iff everybody is at 1005 or
  // farther, and then the list is as it was.
  lemma SelectNobodyIff(near: Candidate -> nat, list: seq<Candidate>)
    ensures var (chosen, left) := Select(near, list, FIRST_RANGE);
      && (chosen.None? <==> forall x | x in list :: near(x) >= 1005)
      && (chosen.None? ==> left == list)
  {
    SelectFrom(near, list, 0);
    var (chosen, left) := Select(near, list, FIRST_RANGE);
    assert Finds(near, list, chosen, left);
    if chosen.Some? {
      var i: nat :| Takes(near, list, i, chosen.value, left);
      assert list[i] in list && Band(near, list[i]) < BANDS;
      assert near(list[i]) < 1005;
    } else {
      forall x | x in list ensures near(x) >= 1005 {
        assert Band(near, x) >= BANDS;
      }
    }
  }

  lemma FoundIsNear(
    near: Candidate -> nat, list: seq<Candidate>, chosen: Option<Candidate>, left: seq<Candidate>, x: Candidate)
    requires Finds(near, list, chosen, left) && chosen.Some? && x in list
    ensures near(chosen.value) <= near(x) + 9
    ensures exists i: nat :: i < |list| && chosen.value == list[i] && left == Without(list, i)
  {
    var i: nat :| Takes(near, list, i, chosen.value, left);
    BandGap(near, list[i], x);
  }

  // Whom it finds is at most 9 farther than anybody in the list, and is taken
  // out of it; the rest stays in order.
  lemma SelectNearlyClosest(
    near: Candidate -> nat, list: seq<Candidate>, chosen: Candidate, left: seq<Candidate>, x: Candidate)
    requires Select(near, list, FIRST_RANGE) == (Some(chosen), left) && x in list
    ensures near(chosen) <= near(x) + 9
    ensures exists i: nat :: i < |list| && chosen == list[i] && left == Without(list, i)
  {
    FirstSearchFinds(near, list, Some(chosen), left);
    FoundIsNear(near, list, Some(chosen), left, x);
  }

  // ---- A whole search ----

  // Search until nobody is found: whom it tries, in order, and who is left.
  function SearchAll(near: Candidate -> nat, list: seq<Candidate>): (seq<Candidate>, seq<Candidate>)
    decreases |list|
  {
    var (chosen, left) := Select(near, list, FIRST_RANGE);
    if chosen.None? then ([], list)
    else
      var (tried, rest) := SearchAll(near, left);
      ([chosen.value] + tried, rest)
  }

  // A search is one call, and then a search of what it left.
  lemma SearchUnfolds(near: Candidate -> nat, list: seq<Candidate>, chosen: Option<Candidate>, left: seq<Candidate>)
    requires Select(near, list, FIRST_RANGE) == (chosen, left)
    ensures |left| == |list| - if chosen.Some? then 1 else 0
    ensures SearchAll(near, list) ==
      if chosen.None? then ([], left)
      else ([chosen.value] + SearchAll(near, left).0, SearchAll(near, left).1)
  {
    SelectNobodyIff(near, list);
  }

  function Pick(list: seq<Candidate>, keep: Candidate -> bool): seq<Candidate> {
    if list == [] then []
    else (if keep(list[0]) then [list[0]] else []) + Pick(list[1..], keep)
  }

  function OfBand(near: Candidate -> nat, b: nat): Candidate -> bool {
    (c: Candidate) => Band(near, c) == b
  }

  function InBand(near: Candidate -> nat, list: seq<Candidate>, b: nat): seq<Candidate> {
    Pick(list, OfBand(near, b))
  }

  function Far(near: Candidate -> nat, list: seq<Candidate>): seq<Candidate> {
    Pick(list, (c: Candidate) => near(c) >= 1005)
  }

  // The bands b, b+1, ..., 100 one after another, each in the order of the list:
  // the list sorted stably by band.
  function ByBand(near: Candidate -> nat, list: seq<Candidate>, b: nat): seq<Candidate>
    decreases BANDS - b
  {
    if b >= BANDS then [] else InBand(near, list, b) + ByBand(near, list, b + 1)
  }

  lemma {:induction false} PickAppend(a: seq<Candidate>, c: seq<Candidate>, keep: Candidate -> bool)
    ensures Pick(a + c, keep) == Pick(a, keep) + Pick(c, keep)
  {
    if a == [] {
      assert a + c == c;
    } else {
      PickAppend(a[1..], c, keep);
      assert (a + c)[0] == a[0] && (a + c)[1..] == a[1..] + c;
      var first := if keep(a[0]) then [a[0]] else [];
      assert Pick(a, keep) == first + Pick(a[1..], keep);
      assert Pick(a + c, keep) == first + Pick(a[1..] + c, keep);
      assert first + (Pick(a[1..], keep) + Pick(c, keep)) == (first + Pick(a[1..], keep)) + Pick(c, keep);
    }
  }

  lemma {:induction false} PickNone(list: seq<Candidate>, keep: Candidate -> bool)
    requires forall x | x in list :: !keep(x)
    ensures Pick(list, keep) == []
  {
    if list != [] {
      assert list[0] in list;
      PickNone(list[1..], keep);
    }
  }

  lemma {:induction false} PickAll(list: seq<Candidate>, keep: Candidate -> bool)
    requires forall x | x in list :: keep(x)
    ensures Pick(list, keep) == list
  {
    if list != [] {
      assert list[0] in list;
      PickAll(list[1..], keep);
    }
  }

  lemma PickAround(a: seq<Candidate>, x: Candidate, c: seq<Candidate>, keep: Candidate -> bool)
    ensures Pick(a + ([x] + c), keep) == Pick(a, keep) + ((if keep(x) then [x] else []) + Pick(c, keep))
    ensures Pick(a + c, keep) == Pick(a, keep) + Pick(c, keep)
  {
    PickAppend(a, [x] + c, keep);
    assert ([x] + c)[1..] == c;
    PickAppend(a, c, keep);
  }

  lemma PickTakesOut(a: seq<Candidate>, x: Candidate, c: seq<Candidate>, keep: Candidate -> bool)
    ensures !keep(x) ==> Pick(a + ([x] + c), keep) == Pick(a + c, keep)
    ensures keep(x) && Pick(a, keep) == [] ==> Pick(a + ([x] + c), keep) == [x] + Pick(a + c, keep)
  {
    PickAround(a, x, c, keep);
    assert [] + ([x] + Pick(c, keep)) == [x] + ([] + Pick(c, keep));
    assert [] + Pick(c, keep) == Pick(c, keep);
  }

  // Taking out the nearest takes it out of its band, where it comes first.
  lemma TakeFromBand(near: Candidate -> nat, list: seq<Candidate>, i: nat, b: nat)
    requires i < |list| && Nearest(near, list, i)
    ensures TakenOut(near, list, list[i], Without(list, i), b)
    ensures Far(near, list) == Far(near, Without(list, i))
  {
    var a, c := list[..i], list[i + 1..];
    assert list == a + ([list[i]] + c);
    if b == Band(near, list[i]) {
      forall y | y in a ensures Band(near, y) != b {
        var j :| 0 <= j < i && list[j] == y;
      }
      PickNone(a, OfBand(near, b));
    }
    PickTakesOut(a, list[i], c, OfBand(near, b));
    PickTakesOut(a, list[i], c, (c: Candidate) => near(c) >= 1005);
    if b < Band(near, list[i]) {
      PickNone(list, OfBand(near, b));
    }
  }

  // w is the list without x, which comes first in its band.
  ghost predicate TakenOut(near: Candidate -> nat, list: seq<Candidate>, x: Candidate, w: seq<Candidate>, b: nat) {
    && (b == Band(near, x) ==> InBand(near, list, b) == [x] + InBand(near, w, b))
    && (b != Band(near, x) ==> InBand(near, list, b) == InBand(near, w, b))
    && (b < Band(near, x) ==> InBand(near, list, b) == [])
  }

  lemma SortedFrom(near: Candidate -> nat, list: seq<Candidate>, b: nat)
    requires b < BANDS
    ensures ByBand(near, list, b) == InBand(near, list, b) + ByBand(near, list, b + 1)
  {
  }

  lemma {:induction false} TakeFromSorted(
    near: Candidate -> nat, list: seq<Candidate>, x: Candidate, w: seq<Candidate>, b: nat)
    requires forall k: nat :: TakenOut(near, list, x, w, k)
    requires Band(near, x) < BANDS && b <= BANDS
    ensures b <= Band(near, x) ==> ByBand(near, list, b) == [x] + ByBand(near, w, b)
    ensures b > Band(near, x) ==> ByBand(near, list, b) == ByBand(near, w, b)
    decreases BANDS - b
  {
    if b < BANDS {
      TakeFromSorted(near, list, x, w, b + 1);
      assert TakenOut(near, list, x, w, b);
      SortedFrom(near, list, b);
      SortedFrom(near, w, b);
      SeqStitch([x], InBand(near, w, b), ByBand(near, w, b + 1));
    }
  }

  lemma SeqStitch(x: seq<Candidate>, head: seq<Candidate>, tail: seq<Candidate>)
    ensures (x + head) + tail == x + (head + tail)
    ensures [] + (x + tail) == x + ([] + tail)
  {
  }

  lemma {:induction false} NobodySorted(near: Candidate -> nat, list: seq<Candidate>, b: nat)
    requires forall x | x in list :: Band(near, x) >= BANDS
    ensures ByBand(near, list, b) == []
    decreases BANDS - b
  {
    if b < BANDS {
      PickNone(list, OfBand(near, b));
      NobodySorted(near, list, b + 1);
    }
  }

  // Searching again and again is a stable sort: the drivers at less than 1005
  // are tried band by band, in the order of the list inside a band, and the
  // others are what is left, in order.
  lemma {:induction false} SearchIsStableSort(near: Candidate -> nat, list: seq<Candidate>)
    ensures SearchAll(near, list) == (ByBand(near, list, 0), Far(near, list))
    decreases |list|
  {
    SelectFrom(near, list, 0);
    var (chosen, left) := Select(near, list, FIRST_RANGE);
    if chosen.None? {
      NobodySorted(near, list, 0);
      forall x | x in list ensures near(x) >= 1005 {
        assert Band(near, x) >= BANDS;
      }
      PickAll(list, (c: Candidate) => near(c) >= 1005);
    } else {
      var i: nat :| Takes(near, list, i, chosen.value, left);
      SearchIsStableSort(near, left);
      forall b: nat ensures TakenOut(near, list, list[i], left, b) {
        TakeFromBand(near, list, i, b);
      }
      TakeFromSorted(near, list, list[i], left, 0);
      TakeFromBand(near, list, i, 0);
    }
  }

  // Tried and left together are the list: nobody is tried twice, and there are
  // at most as many attempts as drivers.
  lemma {:induction false} SearchConserves(near: Candidate -> nat, list: seq<Candidate>)
    ensures var (tried, left) := SearchAll(near, list);
      multiset(tried) + multiset(left) == multiset(list) && |tried| + |left| == |list|
    decreases |list|
  {
    SelectFrom(near, list, 0);
    var (chosen, left) := Select(near, list, FIRST_RANGE);
    if chosen.Some? {
      var i: nat :| Takes(near, list, i, chosen.value, left);
      var (tried, rest) := SearchAll(near, left);
      WithoutLosesOne(list, i);
      SearchConserves(near, left);
      assert SearchAll(near, list) == ([chosen.value] + tried, rest);
    }
  }

  lemma WithoutLosesOne(list: seq<Candidate>, i: nat)
    requires i < |list|
    ensures multiset(list) == multiset{list[i]} + multiset(Without(list, i))
    ensures |Without(list, i)| == |list| - 1
  {
    assert list == list[..i] + ([list[i]] + list[i + 1..]);
  }
}
