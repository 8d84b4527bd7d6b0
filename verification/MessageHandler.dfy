/** The request handlers as methods over the managers, each proved to be its step of the server. */
module MessageHandling {
  import opened Bytes
  import opened Ids
  import opened Options
  import opened Geometry
  import opened Players
  import opened GameArchive
  import opened Sessions
  import opened MatchState
  import opened ServerState
  import opened SeaState
  import Invites
  import Matchmaking
  import Nickname
  import GameModel

  class Server {
    const players: PlayerManager
    const sessions: SessionManager
    const games: GameManager
    const matchmaker: Matchmaking.Matchmaker
    const invites: Invites.InviteManager

    ghost function Parts(): set<object> {
      {players, sessions, games, matchmaker, invites}
    }

    ghost function AsWorld(): World
      reads Parts()
    {
      World(players.players, sessions.sessions, sessions.closed, sessions.bound, sessions.nextId,
            matchmaker.queue, invites.invites, games.AsArchive())
    }

    constructor ()
      ensures AsWorld() == EMPTY_WORLD && fresh(Parts())
    {
      players := new PlayerManager();
      sessions := new SessionManager();
      games := new GameManager();
      matchmaker := new Matchmaking.Matchmaker();
      invites := new Invites.InviteManager();
    }

    // ----- Starting and ending games

    method CreateGame(one: Guid, two: Guid, t: Ticket)
      requires one in players.players && two in players.players
      modifies players, games
      ensures AsWorld() == StartGame(old(AsWorld()), one, two, t)
    {
      var m := games.CreateGame(one, two, t.id, t.firstStarts);
      players.Update(one, Entered(players.players[one], t.id));
      players.Update(two, Entered(players.players[two], t.id));
    }

    method NotifyGameOver(m: Match)
      modifies players
      ensures AsWorld() == ServerState.NotifyGameOver(old(AsWorld()), m)
    {
      var winnerGuid := match m.winner case Some(g) => g case None => "";
      var loserGuid := OpponentOf(m, winnerGuid);
      CountResult(winnerGuid, loserGuid);
    }

    method CountResult(winnerGuid: Guid, loserGuid: Guid)
      modifies players
      ensures players.players == Consoled(Rewarded(old(players.players), winnerGuid), loserGuid)
    {
      if winnerGuid in players.players {
        players.Update(winnerGuid, BackOnline(WithWin(players.players[winnerGuid])));
      }
      if loserGuid in players.players {
        players.Update(loserGuid, BackOnline(WithLoss(players.players[loserGuid])));
      }
    }

    method EndGameOf(g: Guid, reason: Reason)
      modifies players, games
      ensures AsWorld() == EndGame(old(AsWorld()), g, reason)
    {
      var id := games.GetGameByPlayer(g);
      if id.None? || games.games[id.value].phase == Finished {
        return;
      }
      var m := GiveUp(games.games[id.value], g, reason);
      games.Update(id.value, m);
      NotifyGameOver(m);
    }

    // ----- Lobby

    method CheckMatchmaking(tickets: seq<Ticket>)
      requires |matchmaker.queue| <= 2 * |tickets| + 1
      modifies players, games, matchmaker
      ensures AsWorld() == ServerState.CheckMatchmaking(old(AsWorld()), tickets)
    {
      var left := tickets;
      ghost var goal := ServerState.CheckMatchmaking(AsWorld(), tickets);
      while true
        invariant |matchmaker.queue| <= 2 * |left| + 1
        invariant ServerState.CheckMatchmaking(AsWorld(), left) == goal
        decreases |left|
      {
        var pair := matchmaker.TryMatchPlayers(players.players);
        if pair.None? {
          break;
        }
        CreateGame(pair.value.0, pair.value.1, left[0]);
        left := left[1..];
      }
    }

    method HandleFindGame(g: Guid, tickets: seq<Ticket>)
      requires g in players.players && |matchmaker.queue| <= 2 * |tickets|
      modifies players, games, matchmaker
      ensures AsWorld() == ServerState.HandleFindGame(old(AsWorld()), g, tickets)
    {
      if players.players[g].status == InGame {
        return;
      }
      if players.players[g].status == Online {
        matchmaker.AddPlayer(g);
      }
      CheckMatchmaking(tickets);
    }

    method HandleCancelSearch(g: Guid)
      modifies matchmaker
      ensures AsWorld() == ServerState.HandleCancelSearch(old(AsWorld()), g)
    {
      matchmaker.RemovePlayer(g);
    }

    method HandleInvite(g: Guid, target: Option<Guid>, newId: InviteId, now: int)
      modifies invites
      ensures AsWorld() == ServerState.HandleInvite(old(AsWorld()), g, target, newId, now)
    {
      if target.None? || target.value == "" {
        return;
      }
      var targetPlayer := players.GetPlayer(target.value);
      if targetPlayer.None? || targetPlayer.value.status == Offline || targetPlayer.value.status == InGame {
        return;
      }
      var inviteId := invites.CreateInvite(g, target.value, newId, now);
    }

    method HandleInviteResponse(g: Guid, id: Option<InviteId>, accepted: Option<bool>, t: Ticket, now: int)
      requires g in players.players
      modifies players, games, matchmaker, invites
      ensures AsWorld() == ServerState.HandleInviteResponse(old(AsWorld()), g, id, accepted, t, now)
    {
      if id.None? || accepted.None? {
        return;
      }
      var invite := invites.GetInvite(id.value, now);
      if invite.None? {
        return;
      }
      if !accepted.value {
        var declined := invites.DeclineInvite(id.value);
        return;
      }
      var fromGuid := invite.value.from;
      var fromPlayer := players.GetPlayer(fromGuid);
      if fromPlayer.None? || fromPlayer.value.status != Online {
        var declined := invites.DeclineInvite(id.value);
        return;
      }
      var pair := invites.AcceptInvite(id.value, now);
      if players.players[g].status != Online {
        return;
      }
      matchmaker.RemovePlayer(fromGuid);
      matchmaker.RemovePlayer(g);
      CreateGame(fromGuid, g, t);
    }

    // ----- Games

    method HandleSurrender(g: Guid)
      modifies players, games
      ensures AsWorld() == ServerState.HandleSurrender(old(AsWorld()), g)
    {
      EndGameOf(g, Surrendered);
    }

    // A game in the archive stands for a game object, null if the index names none; the two handlers
    // below work on that object. What they do to the object and to the roster is what the step does to
    // the game in the archive and to the roster.

    ghost predicate IsGameOf(game: GameModel.Game?, g: Guid)
      reads games
      reads if game == null then {} else {game, game.player1, game.player2, game.player1.board, game.player2.board}
    {
      match GameOf(games.AsArchive(), g)
      case None => game == null
      case Some(id) => game != null && game.AsMatch() == games.games[id]
    }

    // The server with the object's state in the archive.
    ghost function WithGame(game: GameModel.Game, id: GameId): World
      reads Parts(), game, game.player1, game.player2, game.player1.board, game.player2.board
    {
      SetGame(AsWorld(), id, game.AsMatch())
    }

    lemma OtherThings(game: GameModel.Game)
      ensures Parts() !! game.Repr()
    {
      assert Parts() !! game.player1.board.Repr() && Parts() !! game.player2.board.Repr();
    }

    static method PlaceAndStart(g: Guid, ships: seq<Placement>, game: GameModel.Game)
      requires game.Valid()
      modifies game.Repr()
      ensures game.Valid() && game.AsMatch() == ServerState.PlaceAndStart(old(game.AsMatch()), g, ships)
    {
      var r := game.PlaceShips(g, ships);
      if r != Returned(true) {
        return;
      }
      if game.player1.ready && game.player2.ready {
        game.StartBattle();
      }
    }

    method HandlePlaceShips(g: Guid, ships: Option<seq<Placement>>, game: GameModel.Game?)
      requires IsGameOf(game, g) && (game != null ==> game.Valid())
      modifies if game == null then {} else game.Repr()
      ensures var step := ServerState.HandlePlaceShips(old(AsWorld()), g, ships);
        if game == null then step == AsWorld()
        else game.Valid() && step == WithGame(game, old(games.index)[g])
    {
      if game == null {
        return;
      }
      OtherThings(game);
      SameGame(AsWorld(), games.index[g], game.AsMatch());
      if game.state != Placing {
        return;
      }
      if ExtractShips(ships).None? {
        return;
      }
      PlaceAndStart(g, ships.value, game);
    }

    // The part of the game-over notification that needs the game object only.
    method RecordGameOver(game: GameModel.Game)
      requires game.Valid()
      modifies players
      ensures players.players == Notified(old(players.players), game.AsMatch())
    {
      var winnerGuid := match game.winner case Some(g) => g case None => "";
      var loserGuid := game.GetOpponentGuid(winnerGuid);
      CountResult(winnerGuid, loserGuid);
    }

    // What follows the shot: nothing if it was refused, else statistics and the end of the game.
    method RecordShot(g: Guid, result: ShotResult, game: GameModel.Game)
      requires game.Valid() && g in players.players
      modifies players
      ensures game.Valid() && game.AsMatch() == old(game.AsMatch())
      ensures players.players == Recorded(old(players.players), g, game.AsMatch(), result)
    {
      if result == AlreadyShot || result == InvalidCoordinates {
        return;
      }
      var isHit := result == ShotResult.Hit || result == Kill;
      players.Update(g, WithShot(players.players[g], isHit));
      if game.state == Finished {
        RecordGameOver(game);
      }
    }

    method ShootAndRecord(g: Guid, c: Cell, game: GameModel.Game, ghost id: GameId)
      requires game.Valid() && id in games.games && game.AsMatch() == games.games[id] && g in players.players
      modifies players, game.Repr()
      ensures game.Valid() && WithGame(game, id) == ShotIn(old(AsWorld()), id, g, c)
    {
      OtherThings(game);
      var info := game.Shoot(g, c.x, c.y);
      RecordShot(g, info.result, game);
    }

    method HandleShoot(g: Guid, coords: Option<Cell>, game: GameModel.Game?)
      requires g in players.players && IsGameOf(game, g) && (game != null ==> game.Valid())
      modifies players, if game == null then {} else game.Repr()
      ensures var step := ServerState.HandleShoot(old(AsWorld()), g, coords);
        if game == null then step == AsWorld()
        else game.Valid() && step == WithGame(game, old(games.index)[g])
    {
      if game == null {
        return;
      }
      if game.state != Battle || game.currentTurn != g || ExtractCoordinates(coords).None? {
        SameGame(AsWorld(), games.index[g], game.AsMatch());
        return;
      }
      ShootAndRecord(g, coords.value, game, games.index[g]);
    }

    // ----- Sessions

    method HandleConnect() returns (s: SessionId)
      modifies sessions
      ensures AsWorld() == ServerState.HandleConnect(old(AsWorld())) && s == old(sessions.nextId)
    {
      s := sessions.AddSession();
    }

    // The player whom an authorisation is about: known by guid, found by nickname, or new. None if the
    // one who was found is online. The player whom the search finds is reported, for the step to name.
    method IdentifyPlayer(nickname: seq<Byte>, guid: Option<Guid>, newGuid: Guid)
      returns (player: Option<Guid>, ghost found: Guid)
      modifies players
      ensures var who := Identify(old(players.players), nickname, guid, newGuid, found);
        if player.None? then who.None? && players.players == old(players.players)
        else player.value in players.players && who == Some((player.value, players.players))
      ensures Named(old(players.players), nickname) ==>
        found in old(players.players) && old(players.players)[found].nickname == nickname
    {
      found := SomeoneNamed(players.players, nickname, newGuid);
      if guid.Some? && guid.value != "" && guid.value in players.players {
        if players.players[guid.value].nickname != nickname {
          players.Update(guid.value, players.players[guid.value].(nickname := nickname));
        }
        assert players.players == old(players.players)[guid.value := old(players.players)[guid.value].(nickname := nickname)];
        return Some(guid.value), found;
      }
      var account, wasCreated := players.FindOrCreatePlayer(nickname, newGuid);
      if !wasCreated {
        found := account;
        if IsOnline(players.players[account]) {
          return None, found;
        }
      }
      return Some(account), found;
    }

    // The end of the handler: the session is given the player, unless they are online elsewhere.
    method BindTo(s: SessionId, player: Guid)
      requires player in players.players && (s in sessions.sessions || s in sessions.closed)
      modifies players, sessions
      ensures AsWorld() == LogIn(old(AsWorld()), s, player)
    {
      if IsOnline(players.players[player]) && players.players[player].session != Some(s) {
        return;
      }
      sessions.SetPlayer(s, player);
      var online := players.SetPlayerOnline(player, s);
      sessions.BindPlayerToSession(player, s);
    }

    method HandleAuth(s: SessionId, nickname: Option<seq<Byte>>, guid: Option<Guid>, newGuid: Guid)
      returns (ghost found: Guid)
      requires s in sessions.sessions || s in sessions.closed
      modifies players, sessions
      ensures AsWorld() == ServerState.HandleAuth(old(AsWorld()), s, nickname, guid, newGuid, found)
      ensures nickname.Some? && Named(old(players.players), nickname.value) ==>
        found in old(players.players) && old(players.players)[found].nickname == nickname.value
    {
      found := if nickname.Some? then SomeoneNamed(players.players, nickname.value, newGuid) else newGuid;
      var current := sessions.GetPlayer(s);
      if current.Some? {
        return;
      }
      if nickname.None? || nickname.value == [] {
        return;
      }
      var valid := Nickname.IsValidNickname(nickname.value);
      if !valid {
        return;
      }
      var player;
      player, found := IdentifyPlayer(nickname.value, guid, newGuid);
      if player.None? {
        return;
      }
      BindTo(s, player.value);
    }

    method OnPlayerDisconnect(g: Guid)
      modifies players, games, matchmaker, invites
      ensures var left := old(AsWorld()).(queue := Matchmaking.Remove(old(matchmaker.queue), g),
                                          invites := Invites.RemoveFor(old(invites.invites), g));
        var ended := EndGame(left, g, Disconnected);
        AsWorld() == if g in ended.roster then ended.(roster := ended.roster[g := Gone(ended.roster[g])]) else ended
    {
      matchmaker.RemovePlayer(g);
      invites.RemoveInvitesForPlayer(g);
      EndGameOf(g, Disconnected);
      players.SetPlayerOffline(g);
    }

    method HandleDrop(s: SessionId)
      modifies players, sessions, games, matchmaker, invites
      ensures AsWorld() == ServerState.HandleDrop(old(AsWorld()), s)
    {
      ghost var w := AsWorld();
      var player := sessions.RemoveSession(s);
      assert s !in w.sessions ==> w.sessions - {s} == w.sessions;
      if player.Some? && player.value != "" {
        OnPlayerDisconnect(player.value);
      }
    }
  }
}
