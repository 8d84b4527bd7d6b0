/** The mutable board: a grid of cell states kept beside a list of ships with hit sets. */
module BoardModel {
  import opened Geometry
  import opened SeaState
  import opened RandomPlacer

  datatype CellInfo = CellInfo(x: int, y: int, state: CellState)

  function RowMajor(info: CellInfo): int {
    BOARD_SIZE * info.y + info.x
  }

  predicate Before(c: Cell, x: int, y: int) {
    c.y < y || (c.y == y && c.x < x)
  }

  // The list holds exactly the attacked cells that come before (x, y), in order.
  ghost predicate FogUpTo(sea: Sea, fog: seq<CellInfo>, x: int, y: int)
  {
    && (forall i :: 0 <= i < |fog| ==>
          var c := Cell(fog[i].x, fog[i].y);
          OnBoard(c) && c in sea.attacked && Before(c, x, y) && fog[i].state == View(sea, c))
    && (forall c :: c in sea.attacked && Before(c, x, y) ==>
          exists i :: 0 <= i < |fog| && c == Cell(fog[i].x, fog[i].y))
    && (forall i, j :: 0 <= i < j < |fog| ==> RowMajor(fog[i]) < RowMajor(fog[j]))
  }

  lemma FogGrows(sea: Sea, fog: seq<CellInfo>, x: int, y: int, info: CellInfo)
    requires WellFormed(sea) && FogUpTo(sea, fog, x, y) && OnBoard(Cell(x, y)) && Cell(x, y) in sea.attacked
    requires info == CellInfo(x, y, View(sea, Cell(x, y)))
    ensures FogUpTo(sea, fog + [info], x + 1, y)
  {
    var longer := fog + [info];
    forall c | c in sea.attacked && Before(c, x + 1, y)
      ensures exists i :: 0 <= i < |longer| && c == Cell(longer[i].x, longer[i].y)
    {
      if c == Cell(x, y) {
        assert longer[|fog|] == info;
      } else {
        var i :| 0 <= i < |fog| && c == Cell(fog[i].x, fog[i].y);
        assert longer[i] == fog[i];
      }
    }
  }

  class Ship {
    ghost const placement: Placement
    var cells: seq<Cell>
    var hits: set<Cell>

    ghost predicate Valid()
      reads this
    {
      && 0 <= placement.size
      && cells == CellList(placement)
      && forall c :: c in hits ==> Covers(placement, c)
    }

    // The hits are the attacked cells of the ship.
    ghost predicate Records(attacked: set<Cell>)
      reads this
    {
      forall c :: c in hits <==> Covers(placement, c) && c in attacked
    }

    constructor (x: int, y: int, size: int, horizontal: bool)
      requires 0 <= size
      ensures Valid() && placement == Placement(x, y, size, horizontal) && hits == {}
    {
      placement := Placement(x, y, size, horizontal);
      cells := [];
      hits := {};
      new;
      for i := 0 to size
        invariant cells == CellList(placement)[..i] && hits == {}
      {
        if horizontal {
          cells := cells + [Cell(x + i, y)];
        } else {
          cells := cells + [Cell(x, y + i)];
        }
      }
    }

    method ContainsCell(x: int, y: int) returns (found: bool)
      requires Valid()
      ensures found <==> Covers(placement, Cell(x, y))
    {
      CoversIsListed(placement, Cell(x, y));
      for i := 0 to |cells|
        invariant Cell(x, y) !in cells[..i]
      {
        if cells[i].x == x && cells[i].y == y {
          return true;
        }
      }
      return false;
    }

    method RecordHit(x: int, y: int)
      requires Valid()
      modifies `hits
      ensures Valid()
      ensures hits == if Covers(placement, Cell(x, y)) then old(hits) + {Cell(x, y)} else old(hits)
    {
      var found := ContainsCell(x, y);
      if found {
        hits := hits + {Cell(x, y)};
      }
    }

    // The source compares the sizes of the two collections; that this means every cell is hit
    // needs the hits to lie in the ship and its cells to be distinct.
    method IsSunk() returns (sunk: bool)
      requires Valid()
      ensures sunk <==> forall c :: Covers(placement, c) ==> c in hits
    {
      sunk := |hits| == |cells|;
      CellsCount(placement);
      forall c ensures c in Cells(placement) <==> Covers(placement, c) {
        CoversIsListed(placement, c);
      }
      SubsetCount(hits, Cells(placement));
    }
  }

  ghost predicate GridShows(cells: array2<CellState>, sea: Sea)
    reads cells
    requires cells.Length0 == BOARD_SIZE && cells.Length1 == BOARD_SIZE
  {
    forall x, y :: 0 <= x < BOARD_SIZE && 0 <= y < BOARD_SIZE ==> cells[y, x] == View(sea, Cell(x, y))
  }

  // The grid of the sea with the cell of a shot already turned into a Hit.
  ghost predicate StruckGrid(cells: array2<CellState>, sea: Sea, c: Cell)
    reads cells
    requires cells.Length0 == BOARD_SIZE && cells.Length1 == BOARD_SIZE
  {
    forall x, y :: 0 <= x < BOARD_SIZE && 0 <= y < BOARD_SIZE ==>
      cells[y, x] == if Cell(x, y) == c then CellState.Hit else View(sea, Cell(x, y))
  }

  // The ship objects stand for the fleet, and their hit sets are its attacked cells.
  ghost predicate ShipsRecord(ships: seq<Ship>, fleet: seq<Placement>, attacked: set<Cell>)
    reads ships
  {
    && |ships| == |fleet|
    && (forall i, j :: 0 <= i < j < |ships| ==> ships[i] != ships[j])
    && (forall i :: 0 <= i < |ships| ==> ships[i].Valid() && ships[i].placement == fleet[i])
    && (forall i :: 0 <= i < |ships| ==> ships[i].Records(attacked))
  }

  class Board {
    const cells: array2<CellState>
    var ships: seq<Ship>
    ghost var sea: Sea

    // The representation invariant: grid, ship list and hit sets all agree with one fleet
    // that does not touch and one set of attacked cells.
    ghost predicate Valid()
      reads this, cells, ships
    {
      && cells.Length0 == BOARD_SIZE && cells.Length1 == BOARD_SIZE
      && WellFormed(sea)
      && ShipsRecord(ships, sea.fleet, sea.attacked)
      && GridShows(cells, sea)
    }

    ghost function Repr(): set<object>
      reads this
    {
      {this, cells} + set s | s in ships
    }

    // Ship objects that were not there before are newly allocated.
    twostate predicate OnlyFreshShips()
      reads this
    {
      forall s :: s in ships ==> s in old(ships) || fresh(s)
    }

    // A board none of whose objects changed is as valid as it was.
    twostate lemma Untouched()
      requires old(Valid()) && unchanged(this) && unchanged(cells) && forall s :: s in ships ==> unchanged(s)
      ensures Valid()
    {
      forall i | 0 <= i < |ships|
        ensures ships[i].Valid() && ships[i].placement == sea.fleet[i] && ships[i].Records(sea.attacked)
      {
        assert ships[i] in ships;
        assert old(ships[i].Valid() && ships[i].Records(sea.attacked));
      }
    }

    constructor ()
      ensures Valid() && fresh(Repr()) && sea == OPEN_SEA
    {
      cells := new CellState[BOARD_SIZE, BOARD_SIZE]((y, x) => CellState.Empty);
      ships := [];
      sea := OPEN_SEA;
    }

    method Clear()
      requires Valid()
      modifies this, cells
      ensures Valid() && OnlyFreshShips() && sea == OPEN_SEA
    {
      forall x, y | 0 <= x < BOARD_SIZE && 0 <= y < BOARD_SIZE {
        cells[y, x] := CellState.Empty;
      }
      ships := [];
      sea := OPEN_SEA;
    }

    // Some cell near (x, y), itself included, is a ship cell not yet hit.
    ghost predicate ShipNear(c: Cell)
      reads this
    {
      exists d :: OnBoard(d) && Near(d, c) && View(sea, d) == CellState.Ship
    }

    method HasAdjacentShip(x: int, y: int) returns (found: bool)
      requires Valid()
      ensures found <==> ShipNear(Cell(x, y))
    {
      for dx := -1 to 2
        invariant forall d :: OnBoard(d) && -1 <= d.x - x < dx && -1 <= d.y - y <= 1 ==> View(sea, d) != CellState.Ship
      {
        for dy := -1 to 2
          invariant forall d :: OnBoard(d) && -1 <= d.x - x < dx && -1 <= d.y - y <= 1 ==> View(sea, d) != CellState.Ship
          invariant forall d :: OnBoard(d) && d.x - x == dx && -1 <= d.y - y < dy ==> View(sea, d) != CellState.Ship
        {
          var nx, ny := x + dx, y + dy;
          if OnBoard(Cell(nx, ny)) && cells[ny, nx] == CellState.Ship {
            assert Near(Cell(nx, ny), Cell(x, y));
            return true;
          }
        }
      }
      return false;
    }

    method CanPlaceShip(x: int, y: int, size: int, horizontal: bool) returns (ok: bool)
      requires Valid()
      ensures var p := Placement(x, y, size, horizontal);
        ok <==> Fits(p) && forall c :: Covers(p, c) ==> !ShipNear(c)
      ensures sea.attacked == {} ==> (ok <==> CanJoin(sea.fleet, Placement(x, y, size, horizontal)))
    {
      ghost var p := Placement(x, y, size, horizontal);
      FreshShipNear(p);
      ok := true;
      var i := 0;
      while i < size
        invariant 0 <= i && (0 <= size ==> i <= size)
        invariant forall k :: 0 <= k < i ==> OnBoard(CellAt(p, k)) && !ShipNear(CellAt(p, k))
      {
        var cx := if horizontal then x + i else x;
        var cy := if horizontal then y else y + i;
        assert CellAt(p, i) == Cell(cx, cy) && Covers(p, Cell(cx, cy));
        if !OnBoard(Cell(cx, cy)) {
          return false;
        }
        var adjacent := HasAdjacentShip(cx, cy);
        if adjacent {
          return false;
        }
        i := i + 1;
      }
      forall c | Covers(p, c) ensures OnBoard(c) && !ShipNear(c) {
        assert c == CellAt(p, if horizontal then c.x - x else c.y - y);
      }
    }

    // On a board without shots, the cell rule of the source is the ship rule.
    lemma FreshShipNear(p: Placement)
      requires Valid()
      ensures sea.attacked == {} ==>
              ((forall c :: Covers(p, c) ==> !ShipNear(c)) <==> forall i :: 0 <= i < |sea.fleet| ==> Apart(sea.fleet[i], p))
    {
      if sea.attacked == {} {
        if forall c :: Covers(p, c) ==> !ShipNear(c) {
          forall i | 0 <= i < |sea.fleet| ensures Apart(sea.fleet[i], p) {
            forall a, b | Covers(sea.fleet[i], a) && Covers(p, b) ensures !Near(a, b) {
              assert !ShipNear(b) && OnBoard(a) && View(sea, a) == CellState.Ship;
            }
          }
        }
        if forall i :: 0 <= i < |sea.fleet| ==> Apart(sea.fleet[i], p) {
          forall c, d | Covers(p, c) && Occupied(sea.fleet, d) ensures !Near(d, c) {
            assert Apart(sea.fleet[ShipIndexAt(sea.fleet, d)], p);
          }
        }
      }
    }

    // Ships are placed before the first shot: the engine clears the board first.
    method PlaceShip(p: Placement) returns (placed: bool)
      requires Valid() && sea.attacked == {} && 0 <= p.size
      modifies this, cells
      ensures Valid() && OnlyFreshShips()
      ensures placed <==> CanJoin(old(sea.fleet), p)
      ensures sea == if placed then Sea(old(sea.fleet) + [p], {}) else old(sea)
    {
      placed := CanPlaceShip(p.x, p.y, p.size, p.horizontal);
      if !placed {
        return false;
      }
      var ship := new Ship(p.x, p.y, p.size, p.horizontal);
      DrawShip(ship);
      OccupiedByOneMore(sea.fleet, p);
      assert GridShows(cells, Sea(sea.fleet + [p], {}));
      RecordOneMore(ships, ship, sea.fleet);
      ships := ships + [ship];
      sea := Sea(sea.fleet + [p], {});
    }

    method DrawShip(ship: Ship)
      requires cells.Length0 == BOARD_SIZE && cells.Length1 == BOARD_SIZE
      requires ship.Valid() && Fits(ship.placement)
      modifies cells
      ensures forall x, y :: 0 <= x < BOARD_SIZE && 0 <= y < BOARD_SIZE ==>
        cells[y, x] == if Covers(ship.placement, Cell(x, y)) then CellState.Ship else old(cells[y, x])
    {
      forall c ensures c in ship.cells <==> Covers(ship.placement, c) {
        CoversIsListed(ship.placement, c);
      }
      for i := 0 to |ship.cells|
        invariant forall x, y :: 0 <= x < BOARD_SIZE && 0 <= y < BOARD_SIZE ==>
          cells[y, x] == if Cell(x, y) in ship.cells[..i] then CellState.Ship else old(cells[y, x])
      {
        assert ship.cells[i] in ship.cells;
        cells[ship.cells[i].y, ship.cells[i].x] := CellState.Ship;
      }
      assert ship.cells[..|ship.cells|] == ship.cells;
    }

    lemma OccupiedByOneMore(fleet: seq<Placement>, p: Placement)
      ensures forall c :: Occupied(fleet + [p], c) <==> Occupied(fleet, c) || Covers(p, c)
    {
      forall c ensures Occupied(fleet + [p], c) <==> Occupied(fleet, c) || Covers(p, c) {
        if Occupied(fleet, c) {
          var i :| 0 <= i < |fleet| && Covers(fleet[i], c);
          assert Covers((fleet + [p])[i], c);
        }
        if Covers(p, c) {
          assert Covers((fleet + [p])[|fleet|], c);
        }
      }
    }

    // The cells around a ship. The source collects them in an ordered set and returns its list.
    method GetSurroundingCells(ship: Ship) returns (surrounding: set<Cell>)
      requires ship.Valid()
      ensures surrounding == Surround(ship.placement)
    {
      ghost var p := ship.placement;
      surrounding := {};
      for k := 0 to |ship.cells|
        invariant forall c :: c in surrounding <==>
          OnBoard(c) && !Covers(p, c) && exists i :: 0 <= i < k && Near(ship.cells[i], c)
      {
        surrounding := AddAround(ship, ship.cells[k], surrounding);
      }
      AllCellsCount();
      forall c ensures c in surrounding <==> c in Surround(p) {
        if b :| Covers(p, b) && Near(b, c) {
          CoversIsListed(p, b);
          var i :| 0 <= i < |ship.cells| && ship.cells[i] == b;
          assert Near(ship.cells[i], c);
        }
        forall i | 0 <= i < |ship.cells| ensures Covers(p, ship.cells[i]) {
          CoversIsListed(p, ship.cells[i]);
        }
      }
    }

    // The two inner loops of the above: the neighbours of one cell of the ship.
    method AddAround(ship: Ship, cell: Cell, before: set<Cell>) returns (after: set<Cell>)
      requires ship.Valid() && cell in ship.cells
      ensures forall c :: c in after <==> c in before || (OnBoard(c) && !Covers(ship.placement, c) && Near(cell, c))
    {
      ghost var p := ship.placement;
      CoversIsListed(p, cell);
      after := before;
      for dx := -1 to 2
        invariant forall c :: c in after <==>
          c in before || (OnBoard(c) && !Covers(p, c) && Near(cell, c) && c.x - cell.x < dx)
      {
        for dy := -1 to 2
          invariant forall c :: c in after <==>
            c in before || (OnBoard(c) && !Covers(p, c) && Near(cell, c) &&
                            (c.x - cell.x < dx || (c.x - cell.x == dx && c.y - cell.y < dy)))
        {
          if dx == 0 && dy == 0 {
            assert forall c: Cell :: c.x == cell.x && c.y == cell.y ==> c == cell;
            continue;
          }
          var nx, ny := cell.x + dx, cell.y + dy;
          var own := ship.ContainsCell(nx, ny);
          if OnBoard(Cell(nx, ny)) && !own {
            after := after + {Cell(nx, ny)};
          }
        }
      }
    }

    method MarkSurroundingAsMiss(ship: Ship)
      requires cells.Length0 == BOARD_SIZE && cells.Length1 == BOARD_SIZE
      requires ship.Valid()
      modifies cells
      ensures forall x, y :: 0 <= x < BOARD_SIZE && 0 <= y < BOARD_SIZE ==>
        cells[y, x] == if Cell(x, y) in Surround(ship.placement) && old(cells[y, x]) == CellState.Empty
                       then CellState.Miss else old(cells[y, x])
    {
      var rest := GetSurroundingCells(ship);
      AllCellsCount();
      while rest != {}
        invariant rest <= Surround(ship.placement)
        invariant forall x, y :: 0 <= x < BOARD_SIZE && 0 <= y < BOARD_SIZE ==>
          cells[y, x] == if Cell(x, y) in Surround(ship.placement) - rest && old(cells[y, x]) == CellState.Empty
                         then CellState.Miss else old(cells[y, x])
      {
        var c :| c in rest;
        assert OnBoard(c);
        if cells[c.y, c.x] == CellState.Empty {
          cells[c.y, c.x] := CellState.Miss;
        }
        rest := rest - {c};
      }
    }

    method Shoot(x: int, y: int) returns (r: ShotResult)
      requires Valid()
      modifies this, cells, ships
      ensures Valid() && ships == old(ships) && sea.fleet == old(sea.fleet)
      ensures (sea, r) == Fire(old(sea), Cell(x, y))
    {
      ghost var s, c := sea, Cell(x, y);
      if !OnBoard(Cell(x, y)) {
        return InvalidCoordinates;
      }
      if cells[y, x] == CellState.Hit || cells[y, x] == CellState.Miss {
        return AlreadyShot;
      }
      FireKeepsWellFormed(s, c);
      if cells[y, x] == CellState.Empty {
        cells[y, x] := CellState.Miss;
        sea := Fire(s, c).0;
        return ShotResult.Miss;
      }
      cells[y, x] := CellState.Hit;
      r := HitShipAt(x, y);
    }

    // The part of a shot that looks for the ship of a cell just turned into a Hit.
    method HitShipAt(x: int, y: int) returns (r: ShotResult)
      requires cells.Length0 == BOARD_SIZE && cells.Length1 == BOARD_SIZE
      requires WellFormed(sea) && ShipsRecord(ships, sea.fleet, sea.attacked) && StruckGrid(cells, sea, Cell(x, y))
      requires View(sea, Cell(x, y)) == CellState.Ship
      modifies this, cells, ships
      ensures Valid() && ships == old(ships)
      ensures (sea, r) == Fire(old(sea), Cell(x, y))
    {
      var i := 0;
      while true
        modifies {}
        invariant 0 <= i <= |ships|
        invariant forall k :: 0 <= k < i ==> !Covers(sea.fleet[k], Cell(x, y))
        decreases |ships| - i
      {
        // A Ship cell always has a ship: the fall-through answer of the source is never given.
        assert Covers(sea.fleet[ShipIndexAt(sea.fleet, Cell(x, y))], Cell(x, y));
        assert i < |ships|;
        var here := ships[i].ContainsCell(x, y);
        if here {
          break;
        }
        i := i + 1;
      }
      r := StrikeShip(i, x, y);
    }

    method StrikeShip(i: nat, x: int, y: int) returns (r: ShotResult)
      requires cells.Length0 == BOARD_SIZE && cells.Length1 == BOARD_SIZE
      requires WellFormed(sea) && ShipsRecord(ships, sea.fleet, sea.attacked) && StruckGrid(cells, sea, Cell(x, y))
      requires i < |ships| && Covers(sea.fleet[i], Cell(x, y)) && Cell(x, y) !in sea.attacked
      modifies this, cells, ships
      ensures Valid() && ships == old(ships)
      ensures (sea, r) == Fire(old(sea), Cell(x, y))
    {
      ghost var s, c := sea, Cell(x, y);
      FireKeepsWellFormed(s, c);
      var sunk := RecordHitOn(i, x, y);
      FinishGrid(ships[i], sunk, c);
      r := if sunk then Kill else ShotResult.Hit;
      sea := Fire(s, c).0;
    }

    method FinishGrid(ship: Ship, sunk: bool, ghost c: Cell)
      requires cells.Length0 == BOARD_SIZE && cells.Length1 == BOARD_SIZE
      requires WellFormed(sea) && StruckGrid(cells, sea, c) && ship.Valid()
      requires Occupied(sea.fleet, c) && c !in sea.attacked && OnBoard(c)
      requires ship.placement == sea.fleet[ShipIndexAt(sea.fleet, c)] && sunk == (Fire(sea, c).1 == Kill)
      modifies cells
      ensures GridShows(cells, Fire(sea, c).0)
    {
      GridAfterStrike(sea, c);
      if sunk {
        MarkSurroundingAsMiss(ship);
      }
    }

    method RecordHitOn(i: nat, x: int, y: int) returns (sunk: bool)
      requires WellFormed(sea) && ShipsRecord(ships, sea.fleet, sea.attacked)
      requires i < |ships| && Covers(sea.fleet[i], Cell(x, y)) && Cell(x, y) !in sea.attacked
      modifies ships
      ensures ShipsRecord(ships, sea.fleet, Fire(sea, Cell(x, y)).0.attacked)
      ensures ShipIndexAt(sea.fleet, Cell(x, y)) == i && Fire(sea, Cell(x, y)).1 == if sunk then Kill else ShotResult.Hit
    {
      ghost var c := Cell(x, y);
      FireHits(sea, c, i);
      ships[i].RecordHit(x, y);
      sunk := ships[i].IsSunk();
      assert sunk <==> Sunk(sea.(attacked := sea.attacked + {c}), sea.fleet[i]);
      assert forall k :: 0 <= k < |ships| && k != i ==> ships[k].hits == old(ships[k].hits);
    }

    lemma GridAfterStrike(s: Sea, c: Cell)
      requires WellFormed(s) && Occupied(s.fleet, c) && c !in s.attacked && OnBoard(c)
      ensures var (t, r) := Fire(s, c);
        forall d :: View(t, d) == if d == c then CellState.Hit
          else if r == Kill && d in Surround(s.fleet[ShipIndexAt(s.fleet, c)]) && View(s, d) == CellState.Empty then CellState.Miss
          else View(s, d)
    {
      forall d ensures var (t, r) := Fire(s, c);
        View(t, d) == if d == c then CellState.Hit
          else if r == Kill && d in Surround(s.fleet[ShipIndexAt(s.fleet, c)]) && View(s, d) == CellState.Empty then CellState.Miss
          else View(s, d)
      {
        FireView(s, c, d);
      }
    }

    method AreAllShipsSunk() returns (sunk: bool)
      requires Valid()
      ensures sunk <==> AllSunk(sea)
    {
      for i := 0 to |ships|
        invariant forall k :: 0 <= k < i ==> Sunk(sea, sea.fleet[k])
      {
        var down := ships[i].IsSunk();
        assert down <==> Sunk(sea, sea.fleet[i]);
        if !down {
          return false;
        }
      }
      return |ships| != 0;
    }

    method GetCell(x: int, y: int) returns (state: CellState)
      requires Valid()
      ensures state == View(sea, Cell(x, y))
    {
      if !OnBoard(Cell(x, y)) {
        return CellState.Empty;
      }
      return cells[y, x];
    }

    method GetShipAt(x: int, y: int) returns (ship: Ship?)
      requires Valid()
      ensures ship == null <==> !Occupied(sea.fleet, Cell(x, y))
      ensures ship != null ==> ship in ships && ship.Valid() && ship.placement == sea.fleet[ShipIndexAt(sea.fleet, Cell(x, y))]
    {
      for i := 0 to |ships|
        invariant forall k :: 0 <= k < i ==> !Covers(sea.fleet[k], Cell(x, y))
      {
        var here := ships[i].ContainsCell(x, y);
        if here {
          OnlyShipNear(sea.fleet, i, ShipIndexAt(sea.fleet, Cell(x, y)), Cell(x, y), Cell(x, y));
          return ships[i];
        }
      }
      return null;
    }

    // The attacked cells with their states, row by row, each once.
    method GetFogOfWar() returns (fog: seq<CellInfo>)
      requires Valid()
      ensures forall c :: c in sea.attacked <==> exists i :: 0 <= i < |fog| && c == Cell(fog[i].x, fog[i].y)
      ensures forall i :: 0 <= i < |fog| ==> fog[i].state == View(sea, Cell(fog[i].x, fog[i].y))
      ensures forall i, j :: 0 <= i < j < |fog| ==> RowMajor(fog[i]) < RowMajor(fog[j])
    {
      fog := [];
      for y := 0 to BOARD_SIZE
        invariant FogUpTo(sea, fog, 0, y)
      {
        fog := FogRow(fog, y);
      }
    }

    method FogRow(before: seq<CellInfo>, y: int) returns (fog: seq<CellInfo>)
      requires Valid() && 0 <= y < BOARD_SIZE && FogUpTo(sea, before, 0, y)
      ensures FogUpTo(sea, fog, 0, y + 1)
    {
      fog := before;
      for x := 0 to BOARD_SIZE
        invariant FogUpTo(sea, fog, x, y)
      {
        var state := cells[y, x];
        if state == CellState.Hit || state == CellState.Miss {
          FogGrows(sea, fog, x, y, CellInfo(x, y, state));
          fog := fog + [CellInfo(x, y, state)];
        }
      }
    }

    // Up to MAX_ATTEMPTS draws for the next ship: all refused but perhaps the last.
    method TryOneShip(size: int, draws: seq<Draw>) returns (placed: bool, tries: nat)
      requires Valid() && sea.attacked == {} && 0 <= size
      modifies this, cells
      ensures Valid() && OnlyFreshShips()
      ensures tries <= |draws| && tries <= MAX_ATTEMPTS
      ensures Tried(old(sea.fleet), size, draws[..tries], placed)
      ensures !placed ==> tries == MAX_ATTEMPTS || tries == |draws|
      ensures sea == if placed then Sea(old(sea.fleet) + [Drawn(draws[tries - 1], size)], {}) else old(sea)
    {
      placed, tries := false, 0;
      while !placed && tries < MAX_ATTEMPTS
        invariant Valid() && OnlyFreshShips()
        invariant tries <= |draws| && tries <= MAX_ATTEMPTS
        invariant Tried(old(sea.fleet), size, draws[..tries], placed)
        invariant sea == if placed then Sea(old(sea.fleet) + [Drawn(draws[tries - 1], size)], {}) else old(sea)
      {
        if tries == |draws| {
          return;
        }
        ghost var fleet := sea.fleet;
        placed := TryDraw(draws[tries], size);
        TriedOneMore(fleet, size, draws[..tries], draws[tries], placed);
        assert draws[..tries] + [draws[tries]] == draws[..tries + 1];
        tries := tries + 1;
      }
    }

    method TryDraw(d: Draw, size: int) returns (placed: bool)
      requires Valid() && sea.attacked == {} && 0 <= size
      modifies this, cells
      ensures Valid() && OnlyFreshShips()
      ensures placed <==> CanJoin(old(sea.fleet), Drawn(d, size))
      ensures sea == if placed then Sea(old(sea.fleet) + [Drawn(d, size)], {}) else old(sea)
    {
      placed := CanPlaceShip(d.x, d.y, size, d.horizontal);
      if placed {
        placed := PlaceShip(Placement(d.x, d.y, size, d.horizontal));
      }
    }

    // The random placer over a stream of draws. It answers done when it would have returned;
    // otherwise the stream was too short for it.
    method PlaceShipsRandomly(draws: seq<Draw>) returns (done: bool, rest: seq<Draw>)
      requires Valid()
      modifies this, cells
      ensures Valid() && OnlyFreshShips()
      ensures Place([], 0, draws) == if done then Placed(sea.fleet, rest) else Running
      ensures done ==> sea.attacked == {}
      decreases |draws|
    {
      Clear();
      rest := draws;
      var shipSizes := [4, 3, 3, 2, 2, 2, 1, 1, 1, 1];
      for k := 0 to |shipSizes|
        invariant Valid() && OnlyFreshShips()
        invariant sea.attacked == {} && |sea.fleet| == k && |rest| <= |draws|
        invariant Place([], 0, draws) == Place(sea.fleet, 0, rest)
      {
        ghost var fleet := sea.fleet;
        var placed, tries := TryOneShip(shipSizes[k], rest);
        PlaceTried(fleet, rest, tries, placed);
        rest := rest[tries..];
        if !placed {
          if tries < MAX_ATTEMPTS {
            return false, rest;
          }
          Clear();
          done, rest := PlaceShipsRandomly(rest);
          return;
        }
      }
      return true, rest;
    }
  }

  lemma RecordOneMore(ships: seq<Ship>, ship: Ship, fleet: seq<Placement>)
    requires ShipsRecord(ships, fleet, {}) && ship.Valid() && ship.hits == {} && ship !in ships
    ensures ShipsRecord(ships + [ship], fleet + [ship.placement], {})
  {
  }

  lemma SeparateBoards(a: Board, b: Board)
    requires a.Repr() !! b.Repr()
    ensures a != b && a.cells != b.cells && forall s :: s in a.ships ==> s !in b.ships
  {
    assert a in a.Repr() && b in b.Repr() && a.cells in a.Repr() && b.cells in b.Repr();
    forall s | s in a.ships ensures s !in b.ships {
      assert s in a.Repr();
    }
  }
}
