/** The random placer as a function of its stream of draws, and why it can always go on. */
module RandomPlacer {
  import opened Geometry
  import opened GameRules

  datatype Draw = Draw(x: int, y: int, horizontal: bool)

  // Running: the draws given are used up before the placer returns.
  datatype Outcome = Running | Placed(fleet: seq<Placement>, rest: seq<Draw>)

  const SHIP_SIZES := [4, 3, 3, 2, 2, 2, 1, 1, 1, 1]
  const MAX_ATTEMPTS := 1000

  predicate InRange(d: Draw) {
    0 <= d.x < BOARD_SIZE && 0 <= d.y < BOARD_SIZE
  }

  function Drawn(d: Draw, size: int): Placement {
    Placement(d.x, d.y, size, d.horizontal)
  }

  // The placer with some ships down and some failed attempts at the next one.
  // After the last attempt it clears the board and starts again.
  ghost function Place(fleet: seq<Placement>, attempts: nat, draws: seq<Draw>): Outcome
    requires |fleet| <= |SHIP_SIZES| && attempts <= MAX_ATTEMPTS
    decreases |draws|, attempts
  {
    if |fleet| == |SHIP_SIZES| then Placed(fleet, draws)
    else if attempts == MAX_ATTEMPTS then Place([], 0, draws)
    else if draws == [] then Running
    else
      var p := Drawn(draws[0], SHIP_SIZES[|fleet|]);
      if CanJoin(fleet, p) then Place(fleet + [p], 0, draws[1..])
      else Place(fleet, attempts + 1, draws[1..])
  }

  // All draws were refused for a ship of this size, except the last one if it was placed.
  ghost predicate Tried(fleet: seq<Placement>, size: int, draws: seq<Draw>, placed: bool) {
    && (placed ==> draws != [])
    && forall k :: 0 <= k < |draws| ==> (CanJoin(fleet, Drawn(draws[k], size)) <==> placed && k == |draws| - 1)
  }

  lemma TriedOneMore(fleet: seq<Placement>, size: int, draws: seq<Draw>, d: Draw, placed: bool)
    requires Tried(fleet, size, draws, false)
    requires placed <==> CanJoin(fleet, Drawn(d, size))
    ensures Tried(fleet, size, draws + [d], placed)
  {
  }

  // A round of tries moves the placer on to the next ship, to a fresh start, or out of draws.
  lemma PlaceTried(fleet: seq<Placement>, draws: seq<Draw>, tries: nat, placed: bool)
    requires |fleet| < |SHIP_SIZES| && tries <= |draws| && tries <= MAX_ATTEMPTS
    requires Tried(fleet, SHIP_SIZES[|fleet|], draws[..tries], placed)
    requires !placed ==> tries == MAX_ATTEMPTS || tries == |draws|
    ensures Place(fleet, 0, draws) ==
            if placed then Place(fleet + [Drawn(draws[tries - 1], SHIP_SIZES[|fleet|])], 0, draws[tries..])
            else if tries == MAX_ATTEMPTS then Place([], 0, draws[tries..])
            else Running
  {
    PlaceTriedFrom(fleet, 0, draws, tries, placed);
  }

  lemma {:induction false} PlaceTriedFrom(fleet: seq<Placement>, attempts: nat, draws: seq<Draw>, tries: nat, placed: bool)
    requires |fleet| < |SHIP_SIZES| && tries <= |draws| && attempts + tries <= MAX_ATTEMPTS
    requires Tried(fleet, SHIP_SIZES[|fleet|], draws[..tries], placed)
    requires !placed ==> attempts + tries == MAX_ATTEMPTS || tries == |draws|
    ensures Place(fleet, attempts, draws) ==
            if placed then Place(fleet + [Drawn(draws[tries - 1], SHIP_SIZES[|fleet|])], 0, draws[tries..])
            else if attempts + tries == MAX_ATTEMPTS then Place([], 0, draws[tries..])
            else Running
    decreases tries
  {
    if tries == 0 {
      assert draws[0..] == draws;
    } else {
      assert draws[..tries][0] == draws[0];
      if 1 < tries || !placed {
        assert draws[..tries][1..] == draws[1..][..tries - 1];
        PlaceTriedFrom(fleet, attempts + 1, draws[1..], tries - 1, placed);
        assert draws[1..][tries - 1..] == draws[tries..];
      }
    }
  }

  // The fleets the loop can hold.
  ghost predicate OnCourse(fleet: seq<Placement>) {
    && |fleet| <= |SHIP_SIZES|
    && WellPlaced(fleet)
    && forall i :: 0 <= i < |fleet| ==> fleet[i].size == SHIP_SIZES[i]
  }

  lemma JoinStaysOnCourse(fleet: seq<Placement>, p: Placement)
    requires OnCourse(fleet) && |fleet| < |SHIP_SIZES|
    requires CanJoin(fleet, p) && p.size == SHIP_SIZES[|fleet|]
    ensures OnCourse(fleet + [p])
  {
  }

  // How many ships of a size are among the first k of the required list.
  function RequiredCount(k: nat, size: int): int {
    if size == 4 then (if k < 1 then 0 else 1)
    else if size == 3 then (if k < 1 then 0 else if k < 3 then k - 1 else 2)
    else if size == 2 then (if k < 3 then 0 else if k < 6 then k - 3 else 3)
    else (if k < 6 then 0 else k - 6)
  }

  lemma {:induction false} OnCourseCounts(fleet: seq<Placement>, size: int)
    requires OnCourse(fleet) && 1 <= size <= 4
    ensures SizeCount(fleet, size) == RequiredCount(|fleet|, size)
    decreases |fleet|
  {
    if fleet != [] {
      OnCourseCounts(fleet[..|fleet| - 1], size);
    }
  }

  // Whatever the draws and however often it started again, a fleet it returns is legal.
  lemma {:induction false} PlacedIsLegal(fleet: seq<Placement>, attempts: nat, draws: seq<Draw>)
    requires OnCourse(fleet) && attempts <= MAX_ATTEMPTS
    ensures var o := Place(fleet, attempts, draws); o.Placed? ==> OnCourse(o.fleet) && LegalFleet(o.fleet)
    decreases |draws|, attempts
  {
    if |fleet| == |SHIP_SIZES| {
      OnCourseCounts(fleet, 4);
      OnCourseCounts(fleet, 3);
      OnCourseCounts(fleet, 2);
      OnCourseCounts(fleet, 1);
      ValidatorAgreesWithPlacer(fleet);
    } else if attempts == MAX_ATTEMPTS {
      PlacedIsLegal([], 0, draws);
    } else if draws != [] {
      var p := Drawn(draws[0], SHIP_SIZES[|fleet|]);
      if CanJoin(fleet, p) {
        JoinStaysOnCourse(fleet, p);
        PlacedIsLegal(fleet + [p], 0, draws[1..]);
      } else {
        PlacedIsLegal(fleet, attempts + 1, draws[1..]);
      }
    }
  }

  // ----- The placer is never stuck

  // Slots for a ship of a given size: four rows, three apart, and columns far enough apart.
  function Stride(size: int): int {
    if size == 3 then 7 else if size == 2 then 4 else 3
  }

  function Columns(size: int): int {
    if size == 3 then 2 else if size == 2 then 3 else 4
  }

  function Slot(size: int, n: int): Placement {
    Placement(Stride(size) * (n % Columns(size)), 3 * (n / Columns(size)), size, true)
  }

  ghost function Blocked(p: Placement, size: int): set<int> {
    set n | 0 <= n < 4 * Columns(size) && !Apart(p, Slot(size, n))
  }

  ghost function BlockedBySome(fleet: seq<Placement>, size: int): set<int> {
    set n | 0 <= n < 4 * Columns(size) && exists i :: 0 <= i < |fleet| && !Apart(fleet[i], Slot(size, n))
  }

  // A ship that touches the slot in row i and column j lies within these bounds.
  lemma BlockedBounds(p: Placement, size: int, i: int, j: int)
    requires 1 <= size <= 3 && !Apart(p, Placement(Stride(size) * j, 3 * i, size, true))
    ensures p.y - 1 <= 3 * i <= (if p.horizontal then p.y + 1 else p.y + p.size)
    ensures p.x - size <= Stride(size) * j <= (if p.horizontal then p.x + p.size else p.x + 1)
  {
    var slot := Placement(Stride(size) * j, 3 * i, size, true);
    var a, b :| Covers(p, a) && Covers(slot, b) && Near(a, b);
  }

  // One ship blocks at most two slots, and a one-cell ship at most one of the one-cell slots.
  lemma BlockedCount(p: Placement, size: int)
    requires 1 <= size <= 3 && 1 <= p.size <= 4
    ensures |Blocked(p, size)| <= if size == 1 && p.size == 1 then 1 else 2
  {
    var stride, columns := Stride(size), Columns(size);
    var i0, j0 := (p.y + 1) / 3, (p.x - size + stride - 1) / stride;
    var first := columns * i0 + j0;
    var second := if p.horizontal then first + 1 else first + columns;
    forall n | n in Blocked(p, size) ensures n == first || (n == second && !(size == 1 && p.size == 1)) {
      BlockedBounds(p, size, n / columns, n % columns);
      BlockedIndex(p, size, n);
    }
    if size == 1 && p.size == 1 {
      SubsetCount(Blocked(p, size), {first});
    } else {
      SubsetCount(Blocked(p, size), {first, second});
    }
  }

  lemma BlockedIndex(p: Placement, size: int, n: int)
    requires 1 <= size <= 3 && 1 <= p.size <= 4
    requires var i, j := n / Columns(size), n % Columns(size);
      && p.y - 1 <= 3 * i <= (if p.horizontal then p.y + 1 else p.y + p.size)
      && p.x - size <= Stride(size) * j <= (if p.horizontal then p.x + p.size else p.x + 1)
    ensures var first := Columns(size) * ((p.y + 1) / 3) + (p.x - size + Stride(size) - 1) / Stride(size);
      n == first || (n == (if p.horizontal then first + 1 else first + Columns(size)) && !(size == 1 && p.size == 1))
  {
    var i, j := n / Columns(size), n % Columns(size);
    var i0, j0 := (p.y + 1) / 3, (p.x - size + Stride(size) - 1) / Stride(size);
    var tall, wide := !p.horizontal && p.size > 1, p.horizontal && p.size > 1;
    assert i == i0 || (i == i0 + 1 && tall) by {
      assert 3 * i0 <= p.y + 1 < 3 * i0 + 3;
    }
    assert j == j0 || (j == j0 + 1 && wide) by {
      ColumnIndex(p.x, size, j, if p.horizontal then p.size else 1);
    }
    assert n == Columns(size) * i + j;
  }

  lemma ColumnIndex(x: int, size: int, j: int, width: int)
    requires 1 <= size <= 3 && 1 <= width <= 4
    requires x - size <= Stride(size) * j <= x + width
    ensures var j0 := (x - size + Stride(size) - 1) / Stride(size);
      j == j0 || (j == j0 + 1 && 1 < width)
  {
    if size == 3 {
    } else if size == 2 {
    } else {
    }
  }

  // The slots that the first ships of the required list can block.
  function Budget(k: nat, size: int): int {
    if size == 1 && 6 < k then 12 + (k - 6) else 2 * k
  }

  lemma {:induction false} FleetBlocks(fleet: seq<Placement>, size: int)
    requires OnCourse(fleet) && 1 <= size <= 3
    ensures |BlockedBySome(fleet, size)| <= Budget(|fleet|, size)
    decreases |fleet|
  {
    if fleet == [] {
      assert BlockedBySome(fleet, size) == {};
    } else {
      var front, last := fleet[..|fleet| - 1], fleet[|fleet| - 1];
      FleetBlocks(front, size);
      BlockedCount(last, size);
      forall n | n in BlockedBySome(fleet, size) ensures n in BlockedBySome(front, size) || n in Blocked(last, size) {
        var i :| 0 <= i < |fleet| && !Apart(fleet[i], Slot(size, n));
        assert i < |front| ==> fleet[i] == front[i];
      }
      SubsetCount(BlockedBySome(fleet, size), BlockedBySome(front, size) + Blocked(last, size));
    }
  }

  ghost function Range(n: nat): (r: set<int>)
    ensures |r| == n && forall k :: k in r <==> 0 <= k < n
  {
    if n == 0 then {} else Range(n - 1) + {n - 1}
  }

  // From every fleet the loop can hold, some draw places the next ship.
  lemma NeverStuck(fleet: seq<Placement>) returns (d: Draw)
    requires OnCourse(fleet) && |fleet| < |SHIP_SIZES|
    ensures InRange(d) && CanJoin(fleet, Drawn(d, SHIP_SIZES[|fleet|]))
  {
    var size := SHIP_SIZES[|fleet|];
    if fleet == [] {
      d := Draw(0, 0, true);
    } else {
      var slots := Range(4 * Columns(size));
      FleetBlocks(fleet, size);
      if slots <= BlockedBySome(fleet, size) {
        SubsetCount(slots, BlockedBySome(fleet, size));
        assert false;
      }
      var n :| n in slots && n !in BlockedBySome(fleet, size);
      var p := Slot(size, n);
      assert 0 <= n % Columns(size) < Columns(size) && 0 <= n / Columns(size) < 4;
      d := Draw(p.x, p.y, true);
      assert Drawn(d, size) == p;
    }
  }

  // So the restart branch is only bad luck: from every state of the loop there are draws that
  // finish the fleet at hand, one draw a ship.
  lemma {:induction false} CanAlwaysFinish(fleet: seq<Placement>, attempts: nat) returns (draws: seq<Draw>)
    requires OnCourse(fleet) && attempts < MAX_ATTEMPTS
    ensures |draws| == |SHIP_SIZES| - |fleet| && forall d :: d in draws ==> InRange(d)
    ensures var o := Place(fleet, attempts, draws); o.Placed? && fleet <= o.fleet
    decreases |SHIP_SIZES| - |fleet|
  {
    if |fleet| == |SHIP_SIZES| {
      draws := [];
    } else {
      var d := NeverStuck(fleet);
      var p := Drawn(d, SHIP_SIZES[|fleet|]);
      JoinStaysOnCourse(fleet, p);
      var rest := CanAlwaysFinish(fleet + [p], 0);
      draws := [d] + rest;
      assert draws[1..] == rest;
    }
  }

  // When a thousand draws in a row fail for a ship, all ships are taken back and placing begins again.
  lemma RestartsAfterThousand(fleet: seq<Placement>, draws: seq<Draw>)
    requires |fleet| < |SHIP_SIZES| && 1000 <= |draws|
    requires forall k :: 0 <= k < 1000 ==> !CanJoin(fleet, Drawn(draws[k], SHIP_SIZES[|fleet|]))
    ensures Place(fleet, 0, draws) == Place([], 0, draws[1000..])
  {
    PlaceTried(fleet, draws, 1000, false);
  }
}
