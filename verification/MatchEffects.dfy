/** What each operation of a game achieves, told by the grids, the sides and the phase before it. */
module MatchEffects {
  import opened Ids
  import opened Options
  import opened Geometry
  import opened SeaState
  import opened GameRules
  import opened RandomPlacer
  import opened MatchState

  function SideOf(m: Match, g: Guid): Side
    requires IsPlayer(m, g)
  {
    if g == m.one.guid then m.one else m.two
  }

  // The side that is not the player's.
  function OtherSide(m: Match, g: Guid): Side
    requires IsPlayer(m, g)
  {
    if g == m.one.guid then m.two else m.one
  }

  // All but the two sides.
  predicate SameCourse(m: Match, n: Match) {
    n.phase == m.phase && n.turn == m.turn && n.winner == m.winner && n.reason == m.reason
  }

  // ----- Placing

  // The fleet stands on the player's board, the player is ready, and nothing else has changed.
  predicate FleetIsPlaced(m: Match, g: Guid, fleet: seq<Placement>, n: Match) {
    && IsPlayer(m, g) && IsPlayer(n, g)
    && SideOf(n, g) == Side(g, true, Sea(fleet, {})) && OtherSide(n, g) == OtherSide(m, g)
    && SameCourse(m, n)
  }

  lemma LegalFleetIsPlaced(m: Match, g: Guid, ships: seq<Placement>)
    ensures var n := Step(m, PlaceOp(g, ships));
      if m.phase == Placing && LegalFleet(ships) && IsPlayer(m, g) then
        FleetIsPlaced(m, g, ships, n) && MatchState.PlaceShips(m, g, ships).1 == Returned(true)
      else n == m
    ensures m.phase != Placing || !LegalFleet(ships) ==> MatchState.PlaceShips(m, g, ships).1 == Returned(false)
  {
  }

  lemma RandomFleetIsPlaced(m: Match, g: Guid, draws: seq<Draw>)
    requires Place([], 0, draws).Placed?
    ensures var n := Step(m, RandomOp(g, draws));
      if m.phase == Placing && IsPlayer(m, g) then
        FleetIsPlaced(m, g, Place([], 0, draws).fleet, n) && LegalFleet(SideOf(n, g).sea.fleet)
      else n == m
  {
    PlacedIsLegal([], 0, draws);
  }

  // The battle starts if and only if both are ready; nothing else changes.
  lemma BattleStarts(m: Match)
    ensures var n := Step(m, StartOp);
      && (m.phase == Placing && m.one.ready && m.two.ready ==> n.phase == Battle && n == m.(phase := Battle))
      && (m.phase != Placing || !m.one.ready || !m.two.ready ==> n == m)
  {
  }

  // Two different players who place legal fleets get into battle with exactly these fleets.
  lemma PlacingLeadsToBattle(one: Guid, two: Guid, first: Guid, fleet1: seq<Placement>, fleet2: seq<Placement>)
    requires one != two && LegalFleet(fleet1) && LegalFleet(fleet2)
    ensures Run(NewMatch(one, two, first), [PlaceOp(one, fleet1), PlaceOp(two, fleet2), StartOp]) ==
      Match(Side(one, true, Sea(fleet1, {})), Side(two, true, Sea(fleet2, {})), Battle, first, None, NoReason)
  {
    var start := NewMatch(one, two, first);
    var ops := [PlaceOp(one, fleet1), PlaceOp(two, fleet2), StartOp];
    RunOnce(start, [], ops[0], ops[..1]);
    RunOnce(start, ops[..1], ops[1], ops[..2]);
    RunOnce(start, ops[..2], ops[2], ops);
    LegalFleetIsPlaced(start, one, fleet1);
    LegalFleetIsPlaced(Run(start, ops[..1]), two, fleet2);
    BattleStarts(Run(start, ops[..2]));
  }

  lemma RunOnce(m: Match, ops: seq<Op>, op: Op, longer: seq<Op>)
    requires longer == ops + [op]
    ensures Run(m, longer) == Step(Run(m, ops), op)
  {
    assert longer[..|ops|] == ops;
  }

  // ----- Shots

  // Whether a shot is accepted: in battle, in turn, and at a cell that has not been attacked.
  predicate Hittable(m: Match, g: Guid, c: Cell) {
    && m.phase == Battle && m.turn == g && IsPlayer(m, g) && OnBoard(c)
    && View(OtherSide(m, g).sea, c) in {CellState.Empty, CellState.Ship}
  }

  lemma RefusedShot(m: Match, g: Guid, c: Cell)
    requires Inv(m)
    ensures Hittable(m, g, c) <==> Accepted(Shoot(m, g, c.x, c.y).1.result)
    ensures !Hittable(m, g, c) ==> Step(m, ShootOp(g, c.x, c.y)) == m
  {
    assert Cell(c.x, c.y) == c;
    if m.phase == Battle && m.turn == g {
      FireAnswers(Target(m, g), c);
    }
  }

  // No cell of the opponent's board shows Ship.
  ghost predicate Beaten(m: Match, g: Guid)
    requires IsPlayer(m, g)
  {
    forall d :: OnBoard(d) ==> View(OtherSide(m, g).sea, d) != CellState.Ship
  }

  // An accepted shot marks its cell on the opponent's board; open water passes the turn, a ship does
  // not, and the last Ship cell wins the game. The shooter's side stays as it is.
  lemma AcceptedShot(m: Match, g: Guid, c: Cell)
    requires Inv(m) && Hittable(m, g, c)
    ensures var n := Step(m, ShootOp(g, c.x, c.y));
      var water := View(OtherSide(m, g).sea, c) == CellState.Empty;
      && n.one.guid == m.one.guid && n.two.guid == m.two.guid && SideOf(n, g) == SideOf(m, g)
      && View(OtherSide(n, g).sea, c) == (if water then CellState.Miss else CellState.Hit)
      && OtherSide(n, g).sea.fleet == OtherSide(m, g).sea.fleet
      && n.turn == (if water then OtherSide(m, g).guid else g)
      && (Beaten(n, g) <==> n.phase == Finished)
      && (Beaten(n, g) ==> n.winner == Some(g) && n.reason == AllShipsSunk)
      && (!Beaten(n, g) ==> n.phase == Battle && n.winner == None && n.reason == NoReason)
  {
    var s := Target(m, g);
    assert Cell(c.x, c.y) == c && s == OtherSide(m, g).sea;
    FireAnswers(s, c);
    FireView(s, c, c);
    LegalIsAfloat(s.fleet);
    FireAtSide(s, c);
    VictoryReadsTheGrid(Fire(s, c).0);
  }

  // The report of a shot: cell and answer, the player to shoot next, and after a kill, and only then,
  // the ship and the cells around it.
  lemma ReportIsRight(m: Match, g: Guid, c: Cell)
    requires Inv(m) && Hittable(m, g, c)
    ensures var (n, info) := Shoot(m, g, c.x, c.y);
      && info.x == c.x && info.y == c.y && info.nextTurn == n.turn
      && (info.result == ShotResult.Miss <==> View(OtherSide(m, g).sea, c) == CellState.Empty)
      && (info.killedCells.Some? <==> info.result == Kill) && (info.surrounding.Some? <==> info.result == Kill)
  {
    assert Cell(c.x, c.y) == c;
    FireAnswers(Target(m, g), c);
  }

  // The cells of a killed ship are the one shot at and Hit cells in one piece: every cell near one of
  // them is one of them or a reported cell around the ship.
  lemma KilledCellsAreTheShip(m: Match, g: Guid, c: Cell)
    requires Inv(m) && Shoot(m, g, c.x, c.y).1.result == Kill
    ensures var (n, info) := Shoot(m, g, c.x, c.y);
      && info.killedCells.Some? && info.surrounding.Some? && IsPlayer(n, g)
      && var killed, around := info.killedCells.value, info.surrounding.value;
         && c in killed && (forall d :: d in killed ==> View(OtherSide(n, g).sea, d) == CellState.Hit)
         && forall d :: d in around <==> OnBoard(d) && d !in killed && exists b :: b in killed && Near(b, d)
  {
    var s := Target(m, g);
    assert Cell(c.x, c.y) == c;
    var t := Fire(s, c).0;
    FireAnswers(s, c);
    var i := ShipIndexAt(s.fleet, c);
    var p := s.fleet[i];
    AllCellsCount();
    forall d ensures d in CellList(p) <==> Covers(p, d) {
      CoversIsListed(p, d);
    }
    forall d | Covers(p, d) ensures View(t, d) == CellState.Hit {
      assert Occupied(t.fleet, d);
    }
  }

  // ----- Giving up

  // Surrender and disconnection end a game that is not over, with their own reason and nothing but the
  // winner to show for it; a game that is over stays as it is.
  lemma GivingUpEnds(m: Match, g: Guid)
    ensures var (s, d) := (Step(m, SurrenderOp(g)), Step(m, DisconnectOp(g)));
      if m.phase == Finished then s == m && d == m
      else
        && s.phase == Finished && s.reason == Surrendered && s.one == m.one && s.two == m.two && s.turn == m.turn
        && d == s.(reason := Disconnected)
        && s.winner == (if g == m.one.guid then Some(m.two.guid) else Some(m.one.guid))
  {
  }
}
