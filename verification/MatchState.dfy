/** A game as a value, its operations as functions, and what holds of every run of them. */
module MatchState {
  import opened Ids
  import opened Options
  import opened Geometry
  import opened SeaState
  import opened GameRules
  import opened RandomPlacer

  datatype Phase = Placing | Battle | Finished
  datatype Reason = NoReason | AllShipsSunk | Surrendered | Disconnected

  datatype Side = Side(guid: Guid, ready: bool, sea: Sea)
  datatype Match = Match(one: Side, two: Side, phase: Phase, turn: Guid, winner: Option<Guid>, reason: Reason)

  // NotAPlayer: the source throws for a guid that is neither player's.
  datatype Reply = Returned(ok: bool) | NotAPlayer

  datatype ShotInfo = ShotInfo(
    result: ShotResult, x: int, y: int,
    killedCells: Option<seq<Cell>>, surrounding: Option<set<Cell>>, nextTurn: Guid)

  function NewMatch(one: Guid, two: Guid, first: Guid): Match {
    Match(Side(one, false, OPEN_SEA), Side(two, false, OPEN_SEA), Placing, first, None, NoReason)
  }

  predicate IsPlayer(m: Match, g: Guid) {
    g == m.one.guid || g == m.two.guid
  }

  // The other player's guid; empty for a stranger.
  function OpponentOf(m: Match, g: Guid): Guid {
    if g == m.one.guid then m.two.guid else if g == m.two.guid then m.one.guid else ""
  }

  ghost function SetFleet(m: Match, g: Guid, fleet: seq<Placement>): (Match, Reply) {
    if g == m.one.guid then (m.(one := Side(g, true, Sea(fleet, {}))), Returned(true))
    else if g == m.two.guid then (m.(two := Side(g, true, Sea(fleet, {}))), Returned(true))
    else (m, NotAPlayer)
  }

  ghost function PlaceShips(m: Match, g: Guid, ships: seq<Placement>): (Match, Reply) {
    if m.phase != Placing || Judge(ships) != Legal then (m, Returned(false)) else SetFleet(m, g, ships)
  }

  // A call that returns has been given enough draws.
  ghost function PlaceRandomly(m: Match, g: Guid, draws: seq<Draw>): (Match, Reply)
    requires Place([], 0, draws).Placed?
  {
    if m.phase != Placing then (m, Returned(false)) else SetFleet(m, g, Place([], 0, draws).fleet)
  }

  function StartBattle(m: Match): Match {
    if m.phase == Placing && m.one.ready && m.two.ready then m.(phase := Battle) else m
  }

  function Finish(m: Match, winner: Guid, reason: Reason): Match {
    m.(phase := Finished, winner := Some(winner), reason := reason)
  }

  // Surrender and disconnection. A stranger's guid makes the first player win, as in the source.
  function GiveUp(m: Match, g: Guid, reason: Reason): Match {
    if m.phase == Finished then m
    else Finish(m, if g == m.one.guid then m.two.guid else m.one.guid, reason)
  }

  function Other(m: Match): Guid {
    if m.turn == m.one.guid then m.two.guid else m.one.guid
  }

  function Target(m: Match, shooter: Guid): Sea {
    if shooter == m.one.guid then m.two.sea else m.one.sea
  }

  function SetTarget(m: Match, shooter: Guid, sea: Sea): Match {
    if shooter == m.one.guid then m.(two := m.two.(sea := sea)) else m.(one := m.one.(sea := sea))
  }

  ghost function Shoot(m: Match, g: Guid, x: int, y: int): (Match, ShotInfo) {
    if m.phase != Battle || m.turn != g then (m, ShotInfo(InvalidCoordinates, x, y, None, None, ""))
    else
      var (sea, r) := Fire(Target(m, g), Cell(x, y));
      var shot := AfterShot(SetTarget(m, g, sea), g, sea, r);
      (shot, Report(sea, x, y, r, shot.turn))
  }

  // What the answer of the board does to turn and result.
  ghost function AfterShot(m: Match, g: Guid, sea: Sea, r: ShotResult): Match {
    if r == ShotResult.Miss then m.(turn := Other(m))
    else if r == Kill && AllSunk(sea) then Finish(m, g, AllShipsSunk)
    else m
  }

  ghost function Report(sea: Sea, x: int, y: int, r: ShotResult, nextTurn: Guid): ShotInfo {
    if r == Kill && Occupied(sea.fleet, Cell(x, y)) then
      var p := sea.fleet[ShipIndexAt(sea.fleet, Cell(x, y))];
      ShotInfo(r, x, y, Some(if p.size < 0 then [] else CellList(p)), Some(Surround(p)), nextTurn)
    else
      ShotInfo(r, x, y, None, None, nextTurn)
  }

  // ----- The invariant of a game

  ghost predicate SideOk(s: Side, phase: Phase) {
    && WellFormed(s.sea)
    && (if s.ready then LegalFleet(s.sea.fleet) else s.sea == OPEN_SEA)
    && (phase == Placing ==> s.sea.attacked == {})
  }

  ghost predicate Inv(m: Match) {
    && SideOk(m.one, m.phase) && SideOk(m.two, m.phase)
    && IsPlayer(m, m.turn)
    && (m.phase == Battle ==> m.one.ready && m.two.ready)
    && (m.phase == Finished <==> m.winner.Some?) && (m.phase == Finished <==> m.reason != NoReason)
    && (m.phase == Finished ==> IsPlayer(m, m.winner.value))
    && (m.reason == AllShipsSunk ==>
          AllSunk(Target(m, m.winner.value)) && !AllSunk(Target(m, OpponentOf(m, m.winner.value))))
    && (m.reason != AllShipsSunk ==> !AllSunk(m.one.sea) && !AllSunk(m.two.sea))
    // A game of a player against themselves never gets a second fleet, so it never sees a shot.
    && (m.one.guid == m.two.guid ==> !m.two.ready && m.phase != Battle && m.one.sea.attacked == {})
  }

  lemma LegalIsAfloat(fleet: seq<Placement>)
    requires LegalFleet(fleet)
    ensures WellFormed(Sea(fleet, {})) && fleet != [] && !AllSunk(Sea(fleet, {}))
  {
    ValidatorAgreesWithPlacer(fleet);
    SizesAreLegal(fleet);
    assert Covers(fleet[0], CellAt(fleet[0], 0));
  }

  lemma {:induction false} SizesBySizeCount(fleet: seq<Placement>)
    requires forall i :: 0 <= i < |fleet| ==> 1 <= fleet[i].size <= 4
    ensures TotalSize(fleet) ==
      4 * SizeCount(fleet, 4) + 3 * SizeCount(fleet, 3) + 2 * SizeCount(fleet, 2) + SizeCount(fleet, 1)
    decreases |fleet|
  {
    if fleet != [] {
      SizesBySizeCount(fleet[..|fleet| - 1]);
    }
  }

  const TOTAL_SHIP_CELLS := 20

  // A legal fleet covers 20 cells, and after any shots as many cells show Ship or Hit.
  lemma LegalFleetCells(s: Sea)
    requires LegalFleet(s.fleet) && WellFormed(s)
    ensures |OccupiedCells(s.fleet)| == TOTAL_SHIP_CELLS
    ensures |set c | c in AllCells() && View(s, c) == CellState.Ship|
            + |set c | c in AllCells() && View(s, c) == CellState.Hit| == TOTAL_SHIP_CELLS
  {
    SizesAreLegal(s.fleet);
    SizesBySizeCount(s.fleet);
    OccupiedCount(s.fleet);
    ShipCellsAreConserved(s);
  }

  lemma SetFleetKeepsInv(m: Match, g: Guid, fleet: seq<Placement>)
    requires Inv(m) && m.phase == Placing && LegalFleet(fleet)
    ensures Inv(SetFleet(m, g, fleet).0)
  {
    LegalIsAfloat(fleet);
  }

  // A shot at a fleet that is still afloat: the fleet stays, and it goes down only with a Kill.
  lemma FireAtSide(s: Sea, c: Cell)
    requires WellFormed(s) && s.fleet != [] && !AllSunk(s)
    ensures var (t, r) := Fire(s, c);
      WellFormed(t) && t.fleet == s.fleet && (AllSunk(t) ==> r == Kill)
  {
    FireKeepsWellFormed(s, c);
    if AllSunk(Fire(s, c).0) {
      OnlyKillsSink(s, c);
    }
  }

  lemma ShootKeepsInv(m: Match, g: Guid, x: int, y: int)
    requires Inv(m)
    ensures Inv(Shoot(m, g, x, y).0)
  {
    if m.phase == Battle && m.turn == g {
      var s := Target(m, g);
      LegalIsAfloat(s.fleet);
      FireAtSide(s, Cell(x, y));
      HitSideKeepsInv(m, g, Fire(s, Cell(x, y)).0);
    }
  }

  lemma HitSideKeepsInv(m: Match, g: Guid, sea: Sea)
    requires Inv(m) && m.phase == Battle && m.turn == g
    requires WellFormed(sea) && sea.fleet == Target(m, g).fleet
    ensures !AllSunk(sea) ==> Inv(SetTarget(m, g, sea)) && Inv(SetTarget(m, g, sea).(turn := Other(m)))
    ensures AllSunk(sea) ==> Inv(Finish(SetTarget(m, g, sea), g, AllShipsSunk))
  {
    if g == m.one.guid {
      assert SideOk(m.two.(sea := sea), Battle);
    } else {
      assert SideOk(m.one.(sea := sea), Battle);
    }
  }

  lemma GiveUpKeepsInv(m: Match, g: Guid, reason: Reason)
    requires Inv(m) && reason in {Surrendered, Disconnected}
    ensures Inv(GiveUp(m, g, reason))
  {
  }

  // The last ship of a fleet goes down only with a Kill.
  lemma OnlyKillsSink(s: Sea, c: Cell)
    requires WellFormed(s) && !AllSunk(s) && AllSunk(Fire(s, c).0)
    ensures Fire(s, c).1 == Kill
  {
    var t := Fire(s, c).0;
    var i :| 0 <= i < |s.fleet| && !Sunk(s, s.fleet[i]);
    var d :| Covers(s.fleet[i], d) && d !in s.attacked;
    assert Sunk(t, t.fleet[i]);
    FireView(s, c, d);
    assert d == c;
    OnlyShipNear(s.fleet, i, ShipIndexAt(s.fleet, c), c, c);
  }

  // ----- Runs

  datatype Op =
    | PlaceOp(guid: Guid, ships: seq<Placement>)
    | RandomOp(guid: Guid, draws: seq<Draw>)
    | StartOp
    | ShootOp(guid: Guid, x: int, y: int)
    | SurrenderOp(guid: Guid)
    | DisconnectOp(guid: Guid)

  datatype Shot = Shot(shooter: Guid, info: ShotInfo)

  // A random placement that has not returned has not happened.
  ghost function Step(m: Match, op: Op): Match {
    match op
    case PlaceOp(g, ships) => PlaceShips(m, g, ships).0
    case RandomOp(g, draws) => if Place([], 0, draws).Placed? then PlaceRandomly(m, g, draws).0 else m
    case StartOp => StartBattle(m)
    case ShootOp(g, x, y) => Shoot(m, g, x, y).0
    case SurrenderOp(g) => GiveUp(m, g, Surrendered)
    case DisconnectOp(g) => GiveUp(m, g, Disconnected)
  }

  ghost function Run(m: Match, ops: seq<Op>): Match {
    if ops == [] then m else Step(Run(m, ops[..|ops| - 1]), ops[|ops| - 1])
  }

  // The answers given to all shots of a run, in order.
  ghost function Shots(m: Match, ops: seq<Op>): seq<Shot> {
    if ops == [] then []
    else
      var front, op := ops[..|ops| - 1], ops[|ops| - 1];
      match op
      case ShootOp(g, x, y) => Shots(m, front) + [Shot(g, Shoot(Run(m, front), g, x, y).1)]
      case _ => Shots(m, front)
  }

  lemma NewIsInv(one: Guid, two: Guid, first: Guid)
    requires first == one || first == two
    ensures Inv(NewMatch(one, two, first))
  {
  }

  lemma StartKeepsInv(m: Match)
    requires Inv(m)
    ensures Inv(StartBattle(m))
  {
    if m.one.guid == m.two.guid {
      assert !m.two.ready;
    }
  }

  lemma PlaceKeepsInv(m: Match, g: Guid, ships: seq<Placement>)
    requires Inv(m)
    ensures Inv(PlaceShips(m, g, ships).0)
  {
    if m.phase == Placing && Judge(ships) == Legal {
      SetFleetKeepsInv(m, g, ships);
    }
  }

  lemma RandomKeepsInv(m: Match, g: Guid, draws: seq<Draw>)
    requires Inv(m) && Place([], 0, draws).Placed?
    ensures Inv(PlaceRandomly(m, g, draws).0)
  {
    if m.phase == Placing {
      PlacedIsLegal([], 0, draws);
      SetFleetKeepsInv(m, g, Place([], 0, draws).fleet);
    }
  }

  lemma StepKeepsInv(m: Match, op: Op)
    requires Inv(m)
    ensures Inv(Step(m, op))
  {
    match op
    case PlaceOp(g, ships) => PlaceKeepsInv(m, g, ships);
    case RandomOp(g, draws) =>
      if Place([], 0, draws).Placed? {
        RandomKeepsInv(m, g, draws);
      }
    case ShootOp(g, x, y) => ShootKeepsInv(m, g, x, y);
    case SurrenderOp(g) => GiveUpKeepsInv(m, g, Surrendered);
    case DisconnectOp(g) => GiveUpKeepsInv(m, g, Disconnected);
    case StartOp => StartKeepsInv(m);
  }

  lemma StepKeepsPlayers(m: Match, op: Op)
    ensures Step(m, op).one.guid == m.one.guid && Step(m, op).two.guid == m.two.guid
  {
  }

  lemma {:induction false} RunKeepsInv(one: Guid, two: Guid, first: Guid, ops: seq<Op>)
    requires first == one || first == two
    ensures var m := Run(NewMatch(one, two, first), ops); Inv(m) && m.one.guid == one && m.two.guid == two
    decreases |ops|
  {
    if ops != [] {
      RunKeepsInv(one, two, first, ops[..|ops| - 1]);
      StepKeepsInv(Run(NewMatch(one, two, first), ops[..|ops| - 1]), ops[|ops| - 1]);
      StepKeepsPlayers(Run(NewMatch(one, two, first), ops[..|ops| - 1]), ops[|ops| - 1]);
    }
  }

  // Phases only move forward, and once the game is finished nothing of it changes any more.
  function Rank(p: Phase): int {
    match p case Placing => 0 case Battle => 1 case Finished => 2
  }

  lemma {:induction false} PhasesMoveForward(m: Match, ops: seq<Op>, k: nat)
    requires k <= |ops|
    ensures Rank(Run(m, ops[..k]).phase) <= Rank(Run(m, ops).phase)
    ensures Run(m, ops[..k]).phase == Finished ==> Run(m, ops) == Run(m, ops[..k])
    decreases |ops|
  {
    if k == |ops| {
      assert ops[..k] == ops;
    } else {
      var front := ops[..|ops| - 1];
      PhasesMoveForward(m, front, k);
      assert front[..k] == ops[..k];
    }
  }
}
