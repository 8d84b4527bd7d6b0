/** What one player's waters are, without their grid: the fleet and the attacked cells.
    The grid, the hit sets and the fog of war of a board are all read off these two. */
module SeaState {
  import opened Geometry

  datatype CellState = Empty | Ship | Hit | Miss
  datatype ShotResult = Miss | Hit | Kill | AlreadyShot | InvalidCoordinates

  datatype Sea = Sea(fleet: seq<Placement>, attacked: set<Cell>)

  const OPEN_SEA := Sea([], {})

  ghost predicate WellFormed(s: Sea) {
    WellPlaced(s.fleet) && forall c :: c in s.attacked ==> OnBoard(c)
  }

  function View(s: Sea, c: Cell): CellState {
    if Occupied(s.fleet, c) then
      if c in s.attacked then CellState.Hit else CellState.Ship
    else
      if c in s.attacked then CellState.Miss else CellState.Empty
  }

  ghost predicate Sunk(s: Sea, p: Placement) {
    forall c :: Covers(p, c) ==> c in s.attacked
  }

  ghost predicate AllSunk(s: Sea) {
    s.fleet != [] && forall i :: 0 <= i < |s.fleet| ==> Sunk(s, s.fleet[i])
  }

  // The cells around a ship that lie on the board.
  ghost function Surround(p: Placement): set<Cell> {
    set c | c in AllCells() && !Covers(p, c) && exists b :: Covers(p, b) && Near(b, c)
  }

  // The first ship, in the order of placement, that has the cell.
  function ShipIndexAt(fleet: seq<Placement>, c: Cell): (i: nat)
    requires Occupied(fleet, c)
    ensures i < |fleet| && Covers(fleet[i], c)
    ensures forall j :: 0 <= j < i ==> !Covers(fleet[j], c)
  {
    if Covers(fleet[0], c) then 0 else
    var k :| 0 <= k < |fleet| && Covers(fleet[k], c);
    assert fleet[1..][k - 1] == fleet[k];
    1 + ShipIndexAt(fleet[1..], c)
  }

  // One shot. A ship that has lost its last cell takes its whole surroundings with it.
  ghost function Fire(s: Sea, c: Cell): (Sea, ShotResult) {
    if !OnBoard(c) then (s, InvalidCoordinates)
    else if c in s.attacked then (s, AlreadyShot)
    else
      var struck := s.(attacked := s.attacked + {c});
      if !Occupied(s.fleet, c) then (struck, ShotResult.Miss)
      else
        var p := s.fleet[ShipIndexAt(s.fleet, c)];
        if Sunk(struck, p) then (struck.(attacked := struck.attacked + Surround(p)), Kill)
        else (struck, ShotResult.Hit)
  }

  predicate Accepted(r: ShotResult) {
    r == ShotResult.Miss || r == ShotResult.Hit || r == Kill
  }

  ghost function OccupiedCells(fleet: seq<Placement>): set<Cell> {
    set c | c in AllCells() && Occupied(fleet, c)
  }

  ghost function HitCells(s: Sea): set<Cell> {
    set c | c in s.attacked && Occupied(s.fleet, c)
  }

  ghost function TotalSize(fleet: seq<Placement>): int {
    if fleet == [] then 0 else TotalSize(fleet[..|fleet| - 1]) + fleet[|fleet| - 1].size
  }

  // In a fleet that does not touch, the ship at a cell is the only one near that cell.
  lemma OnlyShipNear(fleet: seq<Placement>, i: nat, j: nat, a: Cell, b: Cell)
    requires NoTouch(fleet) && i < |fleet| && j < |fleet|
    requires Covers(fleet[i], a) && Covers(fleet[j], b) && Near(a, b)
    ensures i == j
  {
  }

  // Around a ship of a fleet that does not touch there is only water.
  lemma SurroundIsWater(fleet: seq<Placement>, i: nat, c: Cell)
    requires NoTouch(fleet) && i < |fleet| && c in Surround(fleet[i])
    ensures !Occupied(fleet, c)
  {
    var b :| Covers(fleet[i], b) && Near(b, c);
    if Occupied(fleet, c) {
      var j :| 0 <= j < |fleet| && Covers(fleet[j], c);
      OnlyShipNear(fleet, i, j, b, c);
    }
  }

  lemma FireKeepsWellFormed(s: Sea, c: Cell)
    requires WellFormed(s)
    ensures WellFormed(Fire(s, c).0) && Fire(s, c).0.fleet == s.fleet
  {
    AllCellsCount();
  }

  // Exactly which cells change in a shot, seen on the grid.
  lemma FireView(s: Sea, c: Cell, d: Cell)
    requires WellFormed(s)
    ensures var (t, r) := Fire(s, c);
      && (!Accepted(r) ==> View(t, d) == View(s, d))
      && (Accepted(r) ==>
            if d == c then View(s, c) == (if r == ShotResult.Miss then CellState.Empty else CellState.Ship)
                           && View(t, c) == (if r == ShotResult.Miss then CellState.Miss else CellState.Hit)
            else if r == Kill && d in Surround(s.fleet[ShipIndexAt(s.fleet, c)])
                 then View(t, d) == CellState.Miss && View(s, d) in {CellState.Empty, CellState.Miss}
            else View(t, d) == View(s, d))
  {
    if Fire(s, c).1 == Kill {
      var i := ShipIndexAt(s.fleet, c);
      if d in Surround(s.fleet[i]) {
        SurroundIsWater(s.fleet, i, d);
      }
    }
  }

  // The shot that strikes ship i changes the hit set of ship i by its cell, and no other hit set.
  lemma FireHits(s: Sea, c: Cell, i: nat)
    requires WellFormed(s) && i < |s.fleet| && Covers(s.fleet[i], c) && c !in s.attacked
    ensures Accepted(Fire(s, c).1) && ShipIndexAt(s.fleet, c) == i
    ensures forall k, d :: 0 <= k < |s.fleet| && Covers(s.fleet[k], d) ==>
      (d in Fire(s, c).0.attacked <==> d in s.attacked || (k == i && d == c))
  {
    OnlyShipNear(s.fleet, i, ShipIndexAt(s.fleet, c), c, c);
    forall k, d | 0 <= k < |s.fleet| && Covers(s.fleet[k], d)
      ensures d in Fire(s, c).0.attacked <==> d in s.attacked || (k == i && d == c)
    {
      FireView(s, c, d);
      if d == c {
        OnlyShipNear(s.fleet, i, k, c, c);
      }
    }
  }

  // A shot is answered with Kill exactly when it turns the last Ship cell of some ship into a Hit.
  lemma KillIsLastCell(s: Sea, c: Cell)
    requires WellFormed(s)
    ensures Fire(s, c).1 == Kill <==>
            exists i :: 0 <= i < |s.fleet| && Covers(s.fleet[i], c) && View(s, c) == CellState.Ship &&
                        forall d :: Covers(s.fleet[i], d) && d != c ==> View(s, d) == CellState.Hit
  {
    if Fire(s, c).1 == Kill {
      var i := ShipIndexAt(s.fleet, c);
      forall d | Covers(s.fleet[i], d) && d != c ensures View(s, d) == CellState.Hit {
        assert d in s.attacked + {c};
      }
    }
    if i :| 0 <= i < |s.fleet| && Covers(s.fleet[i], c) && View(s, c) == CellState.Ship &&
            forall d :: Covers(s.fleet[i], d) && d != c ==> View(s, d) == CellState.Hit {
      assert OnBoard(c);
      OnlyShipNear(s.fleet, i, ShipIndexAt(s.fleet, c), c, c);
    }
  }

  // The victory test over ships says what the grid says: not one cell is still in state Ship.
  lemma VictoryReadsTheGrid(s: Sea)
    requires WellFormed(s) && s.fleet != []
    ensures AllSunk(s) <==> forall c :: OnBoard(c) ==> View(s, c) != CellState.Ship
  {
    if AllSunk(s) {
      forall c | OnBoard(c) && Occupied(s.fleet, c) ensures c in s.attacked {
        var i := ShipIndexAt(s.fleet, c);
        assert Sunk(s, s.fleet[i]);
      }
    } else {
      var i :| 0 <= i < |s.fleet| && !Sunk(s, s.fleet[i]);
      var c :| Covers(s.fleet[i], c) && c !in s.attacked;
      assert View(s, c) == CellState.Ship;
    }
  }

  // Ships do not share cells, so the occupied cells number the sum of the sizes.
  lemma {:induction false} OccupiedCount(fleet: seq<Placement>)
    requires WellPlaced(fleet)
    ensures |OccupiedCells(fleet)| == TotalSize(fleet)
    decreases |fleet|
  {
    if fleet == [] {
      assert OccupiedCells(fleet) == {};
    } else {
      var rest, last := fleet[..|fleet| - 1], fleet[|fleet| - 1];
      OccupiedCount(rest);
      CellsCount(last);
      AllCellsCount();
      forall c ensures c in OccupiedCells(fleet) <==> c in OccupiedCells(rest) || c in Cells(last) {
        CoversIsListed(last, c);
        if Occupied(rest, c) {
          var i :| 0 <= i < |rest| && Covers(rest[i], c);
          assert Covers(fleet[i], c);
        }
        if Occupied(fleet, c) && !Covers(last, c) {
          var i :| 0 <= i < |fleet| && Covers(fleet[i], c);
          assert Covers(rest[i], c);
        }
      }
      forall c ensures !(c in OccupiedCells(rest) && c in Cells(last)) {
        CoversIsListed(last, c);
        if Occupied(rest, c) && Covers(last, c) {
          var i :| 0 <= i < |rest| && Covers(rest[i], c);
          OnlyShipNear(fleet, i, |fleet| - 1, c, c);
        }
      }
      assert OccupiedCells(fleet) == OccupiedCells(rest) + Cells(last);
      assert OccupiedCells(rest) !! Cells(last);
    }
  }

  // Ship cells and Hit cells together never change in number: no shot makes or loses a ship cell.
  lemma ShipCellsAreConserved(s: Sea)
    requires WellFormed(s)
    ensures |set c | c in AllCells() && View(s, c) == CellState.Ship|
            + |set c | c in AllCells() && View(s, c) == CellState.Hit| == TotalSize(s.fleet)
  {
    var afloat := set c | c in AllCells() && View(s, c) == CellState.Ship;
    var hit := set c | c in AllCells() && View(s, c) == CellState.Hit;
    assert afloat + hit == OccupiedCells(s.fleet) && afloat !! hit;
    OccupiedCount(s.fleet);
  }

  // An accepted shot strictly grows the attacked cells, adds one Hit cell if it struck a ship
  // and none otherwise; a refused shot changes nothing.
  lemma FireCounts(s: Sea, c: Cell)
    requires WellFormed(s)
    ensures var (t, r) := Fire(s, c);
      && (Accepted(r) ==> |s.attacked| < |t.attacked|)
      && |HitCells(t)| == |HitCells(s)| + (if r in {ShotResult.Hit, Kill} then 1 else 0)
      && (!Accepted(r) ==> t == s)
  {
    var (t, r) := Fire(s, c);
    if Accepted(r) {
      SubsetCount(s.attacked + {c}, t.attacked);
      if r == ShotResult.Miss {
        assert HitCells(t) == HitCells(s);
      } else {
        forall d ensures d in HitCells(t) <==> d in HitCells(s) + {c} {
          FireView(s, c, d);
        }
        assert HitCells(t) == HitCells(s) + {c};
      }
    }
  }

  lemma AttackedBound(s: Sea)
    requires WellFormed(s)
    ensures |s.attacked| <= 100
    ensures s.fleet != [] && !AllSunk(s) ==> |s.attacked| <= 99
  {
    AllCellsCount();
    SubsetCount(s.attacked, AllCells());
    if s.fleet != [] && !AllSunk(s) {
      VictoryReadsTheGrid(s);
      var c :| OnBoard(c) && View(s, c) == CellState.Ship;
      assert c in AllCells() && c !in s.attacked;
    }
  }

  // The grid before the shot decides the answer.
  lemma FireAnswers(s: Sea, c: Cell)
    requires WellFormed(s)
    ensures var r := Fire(s, c).1;
      && (r == InvalidCoordinates <==> !OnBoard(c))
      && (r == AlreadyShot <==> OnBoard(c) && View(s, c) in {CellState.Hit, CellState.Miss})
      && (r == ShotResult.Miss <==> OnBoard(c) && View(s, c) == CellState.Empty)
      && (r in {ShotResult.Hit, Kill} <==> OnBoard(c) && View(s, c) == CellState.Ship)
  {
  }

  // Around a ship lies the rest of its rectangle widened by one, as far as the board goes.
  lemma SurroundIsRing(p: Placement, c: Cell)
    requires 1 <= p.size
    ensures c in Surround(p) <==>
      OnBoard(c) && !Covers(p, c) && p.x - 1 <= c.x <= Right(p) + 1 && p.y - 1 <= c.y <= Bottom(p) + 1
  {
    AllCellsCount();
    NearByCoordinates(p, c);
  }
}
