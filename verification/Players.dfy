/** Players, their statuses and statistics, and the manager that keeps them. */
module Players {
  import opened Bytes
  import opened Ids
  import opened Options

  datatype Status = Offline | Online | InGame

  datatype Stats = Stats(played: nat, wins: nat, losses: nat, shotsFired: nat, shotsHit: nat)

  const NO_STATS := Stats(0, 0, 0, 0, 0)

  datatype Player = Player(
    nickname: seq<Byte>, status: Status, game: Option<GameId>, session: Option<SessionId>, stats: Stats)

  type Roster = map<Guid, Player>

  function NewPlayer(nickname: seq<Byte>): Player {
    Player(nickname, Offline, None, None, NO_STATS)
  }

  predicate IsOnline(p: Player) {
    p.status != Offline
  }

  function WithWin(p: Player): Player {
    p.(stats := p.stats.(wins := p.stats.wins + 1, played := p.stats.played + 1))
  }

  function WithLoss(p: Player): Player {
    p.(stats := p.stats.(losses := p.stats.losses + 1, played := p.stats.played + 1))
  }

  function WithShot(p: Player, hit: bool): Player {
    p.(stats := p.stats.(shotsFired := p.stats.shotsFired + 1,
                         shotsHit := if hit then p.stats.shotsHit + 1 else p.stats.shotsHit))
  }

  // A player who is back in the lobby after a game.
  function BackOnline(p: Player): Player {
    p.(status := Online, game := None)
  }

  function Entered(p: Player, game: GameId): Player {
    p.(status := InGame, game := Some(game))
  }

  function Gone(p: Player): Player {
    p.(session := None, status := Offline, game := None)
  }

  ghost predicate Named(r: Roster, nickname: seq<Byte>) {
    exists g :: g in r && r[g].nickname == nickname
  }

  // A player with the nickname, if there is one.
  ghost function SomeoneNamed(r: Roster, nickname: seq<Byte>, otherwise: Guid): (g: Guid)
    ensures Named(r, nickname) ==> g in r && r[g].nickname == nickname
  {
    if Named(r, nickname) then
      var g :| g in r && r[g].nickname == nickname;
      g
    else otherwise
  }

  class PlayerManager {
    var players: Roster

    constructor ()
      ensures players == map[]
    {
      players := map[];
    }

    method GetPlayer(guid: Guid) returns (p: Option<Player>)
      ensures p == if guid in players then Some(players[guid]) else None
    {
      if guid in players {
        return Some(players[guid]);
      }
      return None;
    }

    // Which of several players with the nickname is found is not determined.
    method FindOrCreatePlayer(nickname: seq<Byte>, newGuid: Guid) returns (guid: Guid, wasCreated: bool)
      modifies this
      ensures wasCreated <==> !Named(old(players), nickname)
      ensures if wasCreated then guid == newGuid && players == old(players)[newGuid := NewPlayer(nickname)]
              else guid in players && players[guid].nickname == nickname && players == old(players)
    {
      var rest := players.Keys;
      while rest != {}
        invariant rest <= players.Keys
        invariant forall g :: g in players && g !in rest ==> players[g].nickname != nickname
      {
        var g :| g in rest;
        if players[g].nickname == nickname {
          return g, false;
        }
        rest := rest - {g};
      }
      players := players[newGuid := NewPlayer(nickname)];
      return newGuid, true;
    }

    method SetPlayerOnline(guid: Guid, session: SessionId) returns (found: bool)
      modifies this
      ensures found <==> guid in old(players)
      ensures players == if found then old(players)[guid := old(players)[guid].(session := Some(session), status := Online)]
                         else old(players)
    {
      if guid !in players {
        return false;
      }
      players := players[guid := players[guid].(session := Some(session), status := Online)];
      return true;
    }

    method SetPlayerOffline(guid: Guid)
      modifies this
      ensures players == if guid in old(players) then old(players)[guid := Gone(old(players)[guid])] else old(players)
    {
      if guid in players {
        players := players[guid := Gone(players[guid])];
      }
    }

    // The fields of a player object, written through its shared pointer.
    method Update(guid: Guid, p: Player)
      requires guid in players
      modifies this
      ensures players == old(players)[guid := p]
    {
      players := players[guid := p];
    }
  }
}
