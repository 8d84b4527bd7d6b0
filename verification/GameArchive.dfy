/** The games and the index from players to games. */
module GameArchive {
  import opened Ids
  import opened Options
  import opened MatchState

  type Games = map<GameId, Match>
  type Index = map<Guid, GameId>

  datatype Archive = Archive(games: Games, index: Index)

  function AddGame(a: Archive, id: GameId, m: Match): Archive {
    Archive(a.games[id := m], a.index[m.one.guid := id][m.two.guid := id])
  }

  function GameOf(a: Archive, g: Guid): Option<GameId> {
    if g in a.index && a.index[g] in a.games then Some(a.index[g]) else None
  }

  function RemoveGame(a: Archive, id: GameId): Archive {
    if id !in a.games then a
    else Archive(a.games - {id}, a.index - {a.games[id].one.guid} - {a.games[id].two.guid})
  }

  class GameManager {
    var games: Games
    var index: Index

    ghost function AsArchive(): Archive
      reads this
    {
      Archive(games, index)
    }

    constructor ()
      ensures AsArchive() == Archive(map[], map[])
    {
      games, index := map[], map[];
    }

    // The part of createGame under its lock; the caller writes the two player objects.
    method CreateGame(player1: Guid, player2: Guid, newId: GameId, firstStarts: bool) returns (m: Match)
      modifies this
      ensures m == NewMatch(player1, player2, if firstStarts then player1 else player2)
      ensures AsArchive() == AddGame(old(AsArchive()), newId, m)
    {
      m := NewMatch(player1, player2, if firstStarts then player1 else player2);
      games := games[newId := m];
      index := index[player1 := newId];
      index := index[player2 := newId];
    }

    method GetGameByPlayer(g: Guid) returns (id: Option<GameId>)
      ensures id == GameOf(AsArchive(), g)
    {
      if g in index {
        if index[g] in games {
          return Some(index[g]);
        }
      }
      return None;
    }

    method RemoveGameById(id: GameId)
      modifies this
      ensures AsArchive() == RemoveGame(old(AsArchive()), id)
    {
      if id in games {
        index := index - {games[id].one.guid};
        index := index - {games[id].two.guid};
        games := games - {id};
      }
    }

    // A game object written through its shared pointer.
    method Update(id: GameId, m: Match)
      requires id in games
      modifies this
      ensures AsArchive() == old(AsArchive()).(games := old(games)[id := m])
    {
      games := games[id := m];
    }
  }

  // The index names only stored games of that player.
  ghost predicate IndexSound(a: Archive) {
    forall g :: g in a.index ==> a.index[g] in a.games && IsPlayer(a.games[a.index[g]], g)
  }

  // Every unfinished game is found by both its players.
  ghost predicate IndexComplete(a: Archive) {
    forall id :: id in a.games && a.games[id].phase != Finished ==>
      GameOf(a, a.games[id].one.guid) == Some(id) && GameOf(a, a.games[id].two.guid) == Some(id)
  }

  datatype ArchiveOp = Create(id: GameId, one: Guid, two: Guid, first: Guid) | Remove(id: GameId)

  function ApplyOp(a: Archive, op: ArchiveOp): Archive {
    match op
    case Create(id, one, two, first) => if id in a.games then a else AddGame(a, id, NewMatch(one, two, first))
    case Remove(id) => RemoveGame(a, id)
  }

  function ApplyOps(a: Archive, ops: seq<ArchiveOp>): Archive {
    if ops == [] then a else ApplyOp(ApplyOps(a, ops[..|ops| - 1]), ops[|ops| - 1])
  }

  // Over any sequence of creations and removals.
  lemma {:induction false} IndexStaysSound(a: Archive, ops: seq<ArchiveOp>)
    requires IndexSound(a)
    ensures IndexSound(ApplyOps(a, ops))
    decreases |ops|
  {
    if ops != [] {
      IndexStaysSound(a, ops[..|ops| - 1]);
    }
  }

  // Removing a game also drops its players' entries for later games: the index stays complete
  // exactly when no other unfinished game shares a player with the removed one.
  lemma RemovalKeepsCompleteness(a: Archive, id: GameId)
    requires IndexSound(a) && IndexComplete(a) && id in a.games
    ensures IndexComplete(RemoveGame(a, id)) <==>
            forall other :: other in a.games && other != id && a.games[other].phase != Finished ==>
              !IsPlayer(a.games[other], a.games[id].one.guid) && !IsPlayer(a.games[other], a.games[id].two.guid)
  {
    var b, m := RemoveGame(a, id), a.games[id];
    if IndexComplete(b) {
      forall other | other in a.games && other != id && a.games[other].phase != Finished
        ensures !IsPlayer(a.games[other], m.one.guid) && !IsPlayer(a.games[other], m.two.guid)
      {
        assert other in b.games;
        assert a.games[other].one.guid in b.index && a.games[other].two.guid in b.index;
      }
    }
  }

  // The order of events in which it breaks: a finished game is removed after its player went on.
  lemma RemovalBreaksCompleteness()
    ensures var first := Finish(NewMatch("a", "b", "a"), "a", Surrendered);
      var a := AddGame(AddGame(Archive(map[], map[]), "1", first), "2", NewMatch("a", "c", "a"));
      IndexSound(a) && IndexComplete(a) && !IndexComplete(RemoveGame(a, "1"))
  {
    var first := Finish(NewMatch("a", "b", "a"), "a", Surrendered);
    var second := NewMatch("a", "c", "a");
    var a := AddGame(AddGame(Archive(map[], map[]), "1", first), "2", second);
    assert a.games == map["1" := first, "2" := second];
    assert "2" in RemoveGame(a, "1").games && "a" !in RemoveGame(a, "1").index;
  }

  // A stored game is found by both its players, and nobody else finds another game than before.
  lemma AddedIsFound(a: Archive, id: GameId, m: Match, g: Guid)
    requires id !in a.games
    ensures var b := AddGame(a, id, m);
      && id in b.games && b.games[id] == m
      && (IsPlayer(m, g) ==> GameOf(b, g) == Some(id))
      && (!IsPlayer(m, g) && GameOf(a, g).Some? ==> GameOf(b, g) == GameOf(a, g))
      && forall other :: other in a.games ==> other in b.games && b.games[other] == a.games[other]
  {
  }

  // A removed game is found by nobody, and the other games are still stored.
  lemma RemovedIsGone(a: Archive, id: GameId, g: Guid)
    requires id in a.games
    ensures var b := RemoveGame(a, id);
      && GameOf(b, g) != Some(id) && (IsPlayer(a.games[id], g) ==> GameOf(b, g) == None)
      && (!IsPlayer(a.games[id], g) && GameOf(a, g) != Some(id) ==> GameOf(b, g) == GameOf(a, g))
      && b.games.Keys == a.games.Keys - {id} && forall other :: other in b.games ==> b.games[other] == a.games[other]
  {
  }
}
