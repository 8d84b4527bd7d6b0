/** The mutable game: two players with a board each, a phase, a turn and a result. */
module GameModel {
  import opened Ids
  import opened Options
  import opened Geometry
  import opened SeaState
  import opened RandomPlacer
  import opened MatchState
  import GameRules
  import BoardModel

  class GamePlayer {
    const guid: Guid
    const board: BoardModel.Board
    var ready: bool

    constructor (guid: Guid)
      ensures this.guid == guid && !ready && board.Valid() && board.sea == OPEN_SEA
      ensures fresh(board) && fresh(board.Repr())
    {
      this.guid := guid;
      this.board := new BoardModel.Board();
      ready := false;
    }

    ghost function AsSide(): Side
      reads this, board
    {
      Side(guid, ready, board.sea)
    }
  }

  class Game {
    const player1: GamePlayer
    const player2: GamePlayer
    var state: Phase
    var currentTurn: Guid
    var winner: Option<Guid>
    var reason: Reason

    ghost function Repr(): set<object>
      reads player1.board, player2.board
    {
      {this, player1, player2} + player1.board.Repr() + player2.board.Repr()
    }

    ghost predicate BoardsOk()
      reads player1.board, player2.board, player1.board.Repr(), player2.board.Repr()
    {
      && player1 != player2
      && player1.board.Repr() !! player2.board.Repr()
      && this !in player1.board.Repr() && this !in player2.board.Repr()
      && player1.board.Valid() && player2.board.Valid()
    }

    // The game as a value.
    ghost function AsMatch(): Match
      reads this, player1, player2, player1.board, player2.board
    {
      Match(player1.AsSide(), player2.AsSide(), state, currentTurn, winner, reason)
    }

    ghost predicate Valid()
      reads this, player1, player2, player1.board, player2.board, player1.board.Repr(), player2.board.Repr()
    {
      BoardsOk() && Inv(AsMatch())
    }

    constructor (guid1: Guid, guid2: Guid, firstStarts: bool)
      ensures Valid() && fresh(Repr())
      ensures AsMatch() == NewMatch(guid1, guid2, if firstStarts then guid1 else guid2)
    {
      var first := new GamePlayer(guid1);
      var second := new GamePlayer(guid2);
      assert first.board.Repr() !! second.board.Repr();
      player1, player2 := first, second;
      state := Placing;
      currentTurn := if firstStarts then guid1 else guid2;
      winner := None;
      reason := NoReason;
      new;
      NewIsInv(guid1, guid2, currentTurn);
    }

    // Null where the source throws.
    method GetGamePlayer(guid: Guid) returns (p: GamePlayer?)
      ensures p == if guid == player1.guid then player1 else if guid == player2.guid then player2 else null
    {
      if guid == player1.guid {
        return player1;
      }
      if guid == player2.guid {
        return player2;
      }
      return null;
    }

    method GetOpponentGamePlayer(guid: Guid) returns (p: GamePlayer?)
      ensures p == if guid == player1.guid then player2 else if guid == player2.guid then player1 else null
    {
      if guid == player1.guid {
        return player2;
      }
      if guid == player2.guid {
        return player1;
      }
      return null;
    }

    method GetOpponentGuid(guid: Guid) returns (other: Guid)
      ensures other == OpponentOf(AsMatch(), guid)
    {
      if guid == player1.guid {
        return player2.guid;
      }
      if guid == player2.guid {
        return player1.guid;
      }
      return "";
    }

    method PlaceShips(guid: Guid, ships: seq<Placement>) returns (r: Reply)
      requires Valid()
      modifies Repr()
      ensures Valid() && fresh(Repr() - old(Repr()))
      ensures (AsMatch(), r) == MatchState.PlaceShips(old(AsMatch()), guid, ships)
    {
      if state != Placing {
        return Returned(false);
      }
      var verdict := GameRules.ValidatePlacement(ships);
      if verdict != GameRules.Legal {
        return Returned(false);
      }
      var player := GetGamePlayer(guid);
      if player == null {
        return NotAPlayer;
      }
      PlaceKeepsInv(AsMatch(), guid, ships);
      Deploy(player, ships);
      return Returned(true);
    }

    ghost function Deployed(m: Match, player: GamePlayer, fleet: seq<Placement>): Match {
      var side := Side(player.guid, true, Sea(fleet, {}));
      if player == player1 then m.(one := side) else m.(two := side)
    }

    method Deploy(player: GamePlayer, ships: seq<Placement>)
      requires BoardsOk() && player in {player1, player2} && GameRules.LegalFleet(ships)
      modifies Repr()
      ensures BoardsOk() && fresh(Repr() - old(Repr()))
      ensures AsMatch() == Deployed(old(AsMatch()), player, ships)
    {
      ghost var other := if player == player1 then player2 else player1;
      BoardModel.SeparateBoards(player.board, other.board);
      PutDown(player.board, ships);
      player.ready := true;
      other.board.Untouched();
    }

    method DeployRandomly(player: GamePlayer, draws: seq<Draw>)
      requires BoardsOk() && player in {player1, player2} && Place([], 0, draws).Placed?
      modifies Repr()
      ensures BoardsOk() && fresh(Repr() - old(Repr()))
      ensures AsMatch() == Deployed(old(AsMatch()), player, Place([], 0, draws).fleet)
    {
      ghost var other := if player == player1 then player2 else player1;
      BoardModel.SeparateBoards(player.board, other.board);
      var done, rest := player.board.PlaceShipsRandomly(draws);
      player.ready := true;
      other.board.Untouched();
    }

    // The loop that puts down a validated fleet. The source has a branch for a ship that the board
    // refuses; it is never taken.
    static method PutDown(board: BoardModel.Board, ships: seq<Placement>)
      requires board.Valid() && GameRules.LegalFleet(ships)
      modifies board, board.cells
      ensures board.Valid() && board.OnlyFreshShips()
      ensures board.sea == Sea(ships, {})
    {
      board.Clear();
      for i := 0 to |ships|
        invariant board.Valid() && board.OnlyFreshShips()
        invariant board.sea == Sea(ships[..i], {})
      {
        GameRules.LegalNeverRefused(ships, i);
        var placed := board.PlaceShip(ships[i]);
        assert placed;
        assert ships[..i] + [ships[i]] == ships[..i + 1];
      }
      assert ships[..|ships|] == ships;
    }

    method PlaceShipsRandomly(guid: Guid, draws: seq<Draw>) returns (r: Reply)
      requires Valid() && Place([], 0, draws).Placed?
      modifies Repr()
      ensures Valid() && fresh(Repr() - old(Repr()))
      ensures (AsMatch(), r) == PlaceRandomly(old(AsMatch()), guid, draws)
    {
      if state != Placing {
        return Returned(false);
      }
      var player := GetGamePlayer(guid);
      if player == null {
        return NotAPlayer;
      }
      RandomKeepsInv(AsMatch(), guid, draws);
      DeployRandomly(player, draws);
      return Returned(true);
    }

    method StartBattle()
      requires Valid()
      modifies this
      ensures Valid() && Repr() == old(Repr())
      ensures AsMatch() == MatchState.StartBattle(old(AsMatch()))
    {
      StartKeepsInv(AsMatch());
      if state == Placing && player1.ready && player2.ready {
        state := Battle;
      }
    }

    method FinishGame(winnerGuid: Guid, why: Reason)
      modifies this
      ensures AsMatch() == Finish(old(AsMatch()), winnerGuid, why)
    {
      state := Finished;
      winner := Some(winnerGuid);
      reason := why;
    }

    method SwitchTurn()
      modifies this
      ensures AsMatch() == old(AsMatch()).(turn := Other(old(AsMatch())))
    {
      if currentTurn == player1.guid {
        currentTurn := player2.guid;
      } else {
        currentTurn := player1.guid;
      }
    }

    method FireAt(opponent: GamePlayer, x: int, y: int) returns (result: ShotResult)
      requires BoardsOk() && opponent in {player1, player2}
      modifies Repr()
      ensures BoardsOk() && Repr() == old(Repr())
      ensures (opponent.board.sea, result) == Fire(old(opponent.board.sea), Cell(x, y))
      ensures AsMatch() ==
              if opponent == player1 then old(AsMatch()).(one := old(AsMatch()).one.(sea := opponent.board.sea))
              else old(AsMatch()).(two := old(AsMatch()).two.(sea := opponent.board.sea))
    {
      ghost var other := if opponent == player1 then player2 else player1;
      BoardModel.SeparateBoards(opponent.board, other.board);
      result := opponent.board.Shoot(x, y);
      other.board.Untouched();
    }

    // The cells of the ship at (x, y) and those around it, if there is a ship.
    static method DescribeShip(board: BoardModel.Board, x: int, y: int)
      returns (killed: Option<seq<Cell>>, surrounding: Option<set<Cell>>)
      requires board.Valid()
      ensures var fleet, c := board.sea.fleet, Cell(x, y);
        if Occupied(fleet, c) then
          var p := fleet[ShipIndexAt(fleet, c)];
          0 <= p.size && killed == Some(CellList(p)) && surrounding == Some(Surround(p))
        else killed == None && surrounding == None
    {
      var ship := board.GetShipAt(x, y);
      if ship == null {
        return None, None;
      }
      var around := board.GetSurroundingCells(ship);
      return Some(ship.cells), Some(around);
    }

    method FinishIfSunk(board: BoardModel.Board, shooter: Guid)
      requires board.Valid() && board in {player1.board, player2.board}
      modifies this
      ensures AsMatch() == AfterShot(old(AsMatch()), shooter, board.sea, Kill)
    {
      var over := board.AreAllShipsSunk();
      if over {
        FinishGame(shooter, AllShipsSunk);
      }
    }

    // Turn, result and report after the board's answer.
    method Conclude(board: BoardModel.Board, shooter: Guid, x: int, y: int, result: ShotResult) returns (info: ShotInfo)
      requires board.Valid() && board in {player1.board, player2.board}
      modifies this
      ensures AsMatch() == AfterShot(old(AsMatch()), shooter, board.sea, result)
      ensures info == Report(board.sea, x, y, result, currentTurn)
    {
      var killed, surrounding := None, None;
      if result == ShotResult.Miss {
        SwitchTurn();
      }
      if result == Kill {
        killed, surrounding := DescribeShip(board, x, y);
        FinishIfSunk(board, shooter);
      }
      info := ShotInfo(result, x, y, killed, surrounding, currentTurn);
    }

    method Settle(board: BoardModel.Board, shooter: Guid, x: int, y: int, result: ShotResult) returns (info: ShotInfo)
      requires BoardsOk() && board in {player1.board, player2.board}
      modifies this
      ensures BoardsOk() && Repr() == old(Repr())
      ensures AsMatch() == AfterShot(old(AsMatch()), shooter, board.sea, result)
      ensures info == Report(board.sea, x, y, result, currentTurn)
    {
      info := Conclude(board, shooter, x, y, result);
    }

    method ShootInTurn(shooter: Guid, x: int, y: int) returns (info: ShotInfo)
      requires BoardsOk() && (shooter == player1.guid || shooter == player2.guid)
      modifies Repr()
      ensures BoardsOk() && Repr() == old(Repr())
      ensures var m := old(AsMatch());
        var (sea, r) := Fire(Target(m, shooter), Cell(x, y));
        AsMatch() == AfterShot(SetTarget(m, shooter, sea), shooter, sea, r) && info == Report(sea, x, y, r, currentTurn)
    {
      var opponent := GetOpponentGamePlayer(shooter);
      var result := FireAt(opponent, x, y);
      info := Settle(opponent.board, shooter, x, y, result);
    }

    method Shoot(shooter: Guid, x: int, y: int) returns (info: ShotInfo)
      requires Valid()
      modifies Repr()
      ensures Valid() && Repr() == old(Repr())
      ensures (AsMatch(), info) == MatchState.Shoot(old(AsMatch()), shooter, x, y)
    {
      if state != Battle {
        return ShotInfo(InvalidCoordinates, x, y, None, None, "");
      }
      if currentTurn != shooter {
        return ShotInfo(InvalidCoordinates, x, y, None, None, "");
      }
      ShootKeepsInv(AsMatch(), shooter, x, y);
      info := ShootInTurn(shooter, x, y);
    }

    // The body that the source repeats in surrender and disconnection.
    method Concede(guid: Guid, why: Reason)
      modifies this
      ensures AsMatch() == MatchState.GiveUp(old(AsMatch()), guid, why)
    {
      if state == Finished {
        return;
      }
      var winnerGuid := if guid == player1.guid then player2.guid else player1.guid;
      FinishGame(winnerGuid, why);
    }

    method GiveUp(guid: Guid, why: Reason)
      requires Valid() && why in {Surrendered, Disconnected}
      modifies this
      ensures Valid() && Repr() == old(Repr())
      ensures AsMatch() == MatchState.GiveUp(old(AsMatch()), guid, why)
    {
      GiveUpKeepsInv(AsMatch(), guid, why);
      Concede(guid, why);
    }

    method Surrender(guid: Guid)
      requires Valid()
      modifies this
      ensures Valid() && Repr() == old(Repr())
      ensures AsMatch() == MatchState.GiveUp(old(AsMatch()), guid, Surrendered)
    {
      GiveUp(guid, Surrendered);
    }

    method HandleDisconnect(guid: Guid)
      requires Valid()
      modifies this
      ensures Valid() && Repr() == old(Repr())
      ensures AsMatch() == MatchState.GiveUp(old(AsMatch()), guid, Disconnected)
    {
      GiveUp(guid, Disconnected);
    }
  }
}
