/** Cells, ship placements and the distance rules of the ten by ten board. */
module Geometry {
  const BOARD_SIZE := 10

  datatype Cell = Cell(x: int, y: int)

  // A ship as a client asks for it: its first cell, its length and its direction.
  datatype Placement = Placement(x: int, y: int, size: int, horizontal: bool)

  predicate OnBoard(c: Cell) {
    0 <= c.x < BOARD_SIZE && 0 <= c.y < BOARD_SIZE
  }

  // The two cells are equal or share a side or a corner.
  predicate Near(a: Cell, b: Cell) {
    -1 <= a.x - b.x <= 1 && -1 <= a.y - b.y <= 1
  }

  predicate Covers(p: Placement, c: Cell) {
    if p.horizontal then c.y == p.y && p.x <= c.x < p.x + p.size
    else c.x == p.x && p.y <= c.y < p.y + p.size
  }

  function CellAt(p: Placement, i: int): Cell {
    if p.horizontal then Cell(p.x + i, p.y) else Cell(p.x, p.y + i)
  }

  function CellList(p: Placement): seq<Cell>
    requires 0 <= p.size
  {
    seq(p.size, i => CellAt(p, i))
  }

  ghost predicate Fits(p: Placement) {
    forall c :: Covers(p, c) ==> OnBoard(c)
  }

  // No cell of one ship equals or touches a cell of the other.
  ghost predicate Apart(p: Placement, q: Placement) {
    forall a, b :: Covers(p, a) && Covers(q, b) ==> !Near(a, b)
  }

  ghost predicate NoTouch(fleet: seq<Placement>) {
    forall i, j :: 0 <= i < j < |fleet| ==> Apart(fleet[i], fleet[j])
  }

  ghost predicate WellPlaced(fleet: seq<Placement>) {
    && NoTouch(fleet)
    && forall i :: 0 <= i < |fleet| ==> 0 <= fleet[i].size && Fits(fleet[i])
  }

  predicate Occupied(fleet: seq<Placement>, c: Cell) {
    exists i :: 0 <= i < |fleet| && Covers(fleet[i], c)
  }

  // The rule the board applies to one more ship.
  ghost predicate CanJoin(fleet: seq<Placement>, p: Placement) {
    Fits(p) && forall i :: 0 <= i < |fleet| ==> Apart(fleet[i], p)
  }

  ghost function Cells(p: Placement): set<Cell>
    requires 0 <= p.size
  {
    set i | 0 <= i < p.size :: CellAt(p, i)
  }

  lemma CoversIsListed(p: Placement, c: Cell)
    requires 0 <= p.size
    ensures c in CellList(p) <==> Covers(p, c)
    ensures c in Cells(p) <==> Covers(p, c)
  {
    if Covers(p, c) {
      var i := if p.horizontal then c.x - p.x else c.y - p.y;
      assert c == CellAt(p, i);
      assert CellList(p)[i] == c;
    }
  }

  lemma {:induction false} CellsCount(p: Placement)
    requires 0 <= p.size
    ensures |Cells(p)| == p.size
    decreases p.size
  {
    if p.size == 0 {
      assert Cells(p) == {};
    } else {
      var shorter := p.(size := p.size - 1);
      CellsCount(shorter);
      var last := CellAt(p, p.size - 1);
      forall c ensures c in Cells(p) <==> c in Cells(shorter) + {last} {
        CoversIsListed(p, c);
        CoversIsListed(shorter, c);
      }
      CoversIsListed(shorter, last);
      assert Cells(p) == Cells(shorter) + {last};
    }
  }

  lemma RowCells(y: int)
    ensures var row := Cells(Placement(0, y, BOARD_SIZE, true));
      |row| == BOARD_SIZE && forall c :: c in row <==> 0 <= c.x < BOARD_SIZE && c.y == y
  {
    var p := Placement(0, y, BOARD_SIZE, true);
    CellsCount(p);
    forall c ensures c in Cells(p) <==> Covers(p, c) {
      CoversIsListed(p, c);
    }
  }

  ghost function FirstRows(n: nat): (r: set<Cell>)
    ensures |r| == BOARD_SIZE * n
    ensures forall c :: c in r <==> 0 <= c.x < BOARD_SIZE && 0 <= c.y < n
  {
    if n == 0 then {} else
    RowCells(n - 1);
    var rest, row := FirstRows(n - 1), Cells(Placement(0, n - 1, BOARD_SIZE, true));
    assert rest !! row;
    rest + row
  }

  ghost function AllCells(): set<Cell> {
    set x, y | 0 <= x < BOARD_SIZE && 0 <= y < BOARD_SIZE :: Cell(x, y)
  }

  lemma AllCellsCount()
    ensures |AllCells()| == 100
    ensures forall c :: c in AllCells() <==> OnBoard(c)
  {
    AllCellsAreRows(BOARD_SIZE);
  }

  lemma AllCellsAreRows(n: nat)
    requires n == BOARD_SIZE
    ensures |AllCells()| == BOARD_SIZE * n
    ensures forall c :: c in AllCells() <==> OnBoard(c)
  {
    forall c ensures c in AllCells() <==> OnBoard(c) {
      assert c == Cell(c.x, c.y);
    }
    assert AllCells() == FirstRows(n);
  }

  lemma SubsetCount<T>(a: set<T>, b: set<T>)
    requires a <= b
    ensures |a| <= |b|
    ensures |a| == |b| <==> a == b
  {
    assert b == a + (b - a);
  }

  function Right(p: Placement): int {
    if p.horizontal then p.x + p.size - 1 else p.x
  }

  function Bottom(p: Placement): int {
    if p.horizontal then p.y else p.y + p.size - 1
  }

  // Two ships are apart if and only if a free column or a free row runs between their rectangles.
  lemma ApartByCoordinates(p: Placement, q: Placement)
    requires 1 <= p.size && 1 <= q.size
    ensures Apart(p, q) <==>
      Right(p) + 1 < q.x || Right(q) + 1 < p.x || Bottom(p) + 1 < q.y || Bottom(q) + 1 < p.y
  {
    if !(Right(p) + 1 < q.x || Right(q) + 1 < p.x || Bottom(p) + 1 < q.y || Bottom(q) + 1 < p.y) {
      var a, b := Closest(p, q), Closest(q, p);
      assert Covers(p, a) && Covers(q, b) && Near(a, b);
    }
  }

  function Clamp(low: int, high: int, v: int): int {
    if v < low then low else if v > high then high else v
  }

  // The cell of p that is closest to q's first cell, or to its side.
  function Closest(p: Placement, q: Placement): Cell {
    Cell(Clamp(p.x, Right(p), Clamp(q.x, Right(q), p.x)), Clamp(p.y, Bottom(p), Clamp(q.y, Bottom(q), p.y)))
  }

  // A ship of at least one cell is near exactly the cells of its rectangle widened by one.
  lemma NearByCoordinates(p: Placement, c: Cell)
    requires 1 <= p.size
    ensures (exists b :: Covers(p, b) && Near(b, c)) <==>
            p.x - 1 <= c.x <= Right(p) + 1 && p.y - 1 <= c.y <= Bottom(p) + 1
  {
    if p.x - 1 <= c.x <= Right(p) + 1 && p.y - 1 <= c.y <= Bottom(p) + 1 {
      var b := Cell(Clamp(p.x, Right(p), c.x), Clamp(p.y, Bottom(p), c.y));
      assert Covers(p, b) && Near(b, c);
    }
  }
}
