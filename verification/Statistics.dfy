/** Statistics are conserved: what all players have recorded together is what all games show. */
module Statistics {
  import opened Bytes
  import opened Ids
  import opened Options
  import opened Players
  import opened GameArchive
  import opened MatchState
  import opened MatchRuns
  import opened ServerState
  import opened ServerInvariant
  import opened SeaState
  import opened Geometry
  import ServerSteps
  import Invites
  import Matchmaking

  // Wins, losses, hits and shots; of a game: finished (counted for each side), Hit cells on both
  // boards and attacked cells on both boards.
  datatype Tally = Tally(wins: int, losses: int, hits: int, shots: int)

  const NOTHING := Tally(0, 0, 0, 0)

  function Plus(a: Tally, b: Tally): Tally {
    Tally(a.wins + b.wins, a.losses + b.losses, a.hits + b.hits, a.shots + b.shots)
  }

  function Minus(a: Tally, b: Tally): Tally {
    Tally(a.wins - b.wins, a.losses - b.losses, a.hits - b.hits, a.shots - b.shots)
  }

  lemma PlusSwaps(a: Tally, b: Tally, rest: Tally)
    ensures Plus(a, Plus(b, rest)) == Plus(b, Plus(a, rest))
  {
  }

  lemma PlusUndoes(t: Tally, a: Tally)
    ensures Plus(Minus(t, a), a) == t && Minus(Plus(a, t), a) == t && Minus(t, NOTHING) == t
    ensures Plus(a, t) == Plus(t, a)
  {
  }

  function OfPlayer(p: Player): Tally {
    Tally(p.stats.wins, p.stats.losses, p.stats.shotsHit, p.stats.shotsFired)
  }

  ghost function OfMatch(m: Match): Tally {
    var over := if m.phase == Finished then 1 else 0;
    Tally(over, over, |HitCells(m.one.sea)| + |HitCells(m.two.sea)|, AttackedTotal(m))
  }

  ghost function AllPlayers(r: Roster): Tally
    decreases |r|
  {
    if r == map[] then NOTHING
    else
      var g :| g in r;
      Plus(OfPlayer(r[g]), AllPlayers(r - {g}))
  }

  ghost function AllGames(games: Games): Tally
    decreases |games|
  {
    if games == map[] then NOTHING
    else
      var id :| id in games;
      Plus(OfMatch(games[id]), AllGames(games - {id}))
  }

  lemma {:induction false} PickPlayer(r: Roster, g: Guid)
    requires g in r
    ensures AllPlayers(r) == Plus(OfPlayer(r[g]), AllPlayers(r - {g}))
    decreases |r|
  {
    var first :| first in r && AllPlayers(r) == Plus(OfPlayer(r[first]), AllPlayers(r - {first}));
    if first == g {
      assert AllPlayers(r - {first}) == AllPlayers(r - {g});
    } else {
      PickPlayer(r - {first}, g);
      assert AllPlayers(r - {first}) == Plus(OfPlayer(r[g]), AllPlayers(r - {first} - {g}));
      PickPlayer(r - {g}, first);
      assert AllPlayers(r - {g}) == Plus(OfPlayer(r[first]), AllPlayers(r - {g} - {first}));
      assert r - {first} - {g} == r - {g} - {first};
      PlusSwaps(OfPlayer(r[first]), OfPlayer(r[g]), AllPlayers(r - {g} - {first}));
    }
  }

  lemma {:induction false} PickGame(games: Games, id: GameId)
    requires id in games
    ensures AllGames(games) == Plus(OfMatch(games[id]), AllGames(games - {id}))
    decreases |games|
  {
    var first :| first in games && AllGames(games) == Plus(OfMatch(games[first]), AllGames(games - {first}));
    if first == id {
      assert AllGames(games - {first}) == AllGames(games - {id});
    } else {
      PickGame(games - {first}, id);
      assert AllGames(games - {first}) == Plus(OfMatch(games[id]), AllGames(games - {first} - {id}));
      PickGame(games - {id}, first);
      assert AllGames(games - {id}) == Plus(OfMatch(games[first]), AllGames(games - {id} - {first}));
      assert games - {first} - {id} == games - {id} - {first};
      PlusSwaps(OfMatch(games[first]), OfMatch(games[id]), AllGames(games - {id} - {first}));
    }
  }

  lemma WritePlayer(r: Roster, g: Guid, p: Player)
    ensures AllPlayers(r[g := p]) == Plus(Minus(AllPlayers(r), if g in r then OfPlayer(r[g]) else NOTHING), OfPlayer(p))
  {
    PickPlayer(r[g := p], g);
    assert r[g := p] - {g} == r - {g};
    var rest := AllPlayers(r - {g});
    PlusUndoes(rest, OfPlayer(p));
    if g in r {
      PickPlayer(r, g);
      PlusUndoes(rest, OfPlayer(r[g]));
    } else {
      assert r - {g} == r;
      PlusUndoes(rest, NOTHING);
    }
  }

  lemma WriteGame(games: Games, id: GameId, m: Match)
    ensures AllGames(games[id := m]) == Plus(Minus(AllGames(games), if id in games then OfMatch(games[id]) else NOTHING), OfMatch(m))
  {
    PickGame(games[id := m], id);
    assert games[id := m] - {id} == games - {id};
    var rest := AllGames(games - {id});
    PlusUndoes(rest, OfMatch(m));
    if id in games {
      PickGame(games, id);
      PlusUndoes(rest, OfMatch(games[id]));
    } else {
      assert games - {id} == games;
      PlusUndoes(rest, NOTHING);
    }
  }

  // The two sides of the books.
  predicate Even(p: Tally, g: Tally) {
    p.wins == g.wins && p.losses == g.losses && p.hits == g.hits && p.shots <= g.shots
  }

  predicate PlayedAdds(p: Player) {
    p.stats.played == p.stats.wins + p.stats.losses
  }

  ghost predicate AllAdd(r: Roster) {
    forall g :: g in r ==> PlayedAdds(r[g])
  }

  ghost predicate Balanced(r: Roster, games: Games) {
    Even(AllPlayers(r), AllGames(games)) && AllAdd(r)
  }

  ghost predicate BooksOk(w: World) {
    Balanced(w.roster, w.archive.games)
  }

  lemma SameSum(r: Roster, g: Guid, p: Player)
    requires p.stats == if g in r then r[g].stats else NO_STATS
    ensures AllPlayers(r[g := p]) == AllPlayers(r)
  {
    WritePlayer(r, g, p);
    PlusUndoes(AllPlayers(r), OfPlayer(p));
  }

  lemma PlayedStillAdds(r: Roster, g: Guid, p: Player)
    requires AllAdd(r) && PlayedAdds(p)
    ensures AllAdd(r[g := p])
  {
  }

  // A player is written without touching their statistics, or is new.
  lemma QuietWrite(r: Roster, games: Games, g: Guid, p: Player)
    requires Balanced(r, games) && p.stats == if g in r then r[g].stats else NO_STATS
    ensures Balanced(r[g := p], games)
  {
    SameSum(r, g, p);
    PlayedStillAdds(r, g, p);
  }

  // A game is stored that shows as much as before.
  lemma QuietGame(r: Roster, games: Games, id: GameId, m: Match)
    requires Balanced(r, games) && OfMatch(m) == if id in games then OfMatch(games[id]) else NOTHING
    ensures Balanced(r, games[id := m])
  {
    WriteGame(games, id, m);
    PlusUndoes(AllGames(games), OfMatch(m));
  }

  lemma StartBalances(w: World, one: Guid, two: Guid, t: Ticket)
    requires BooksOk(w) && one in w.roster && two in w.roster && t.id !in w.archive.games
    ensures BooksOk(StartGame(w, one, two, t))
  {
    var m := NewMatch(one, two, if t.firstStarts then one else two);
    var r := w.roster[one := Entered(w.roster[one], t.id)];
    QuietWrite(w.roster, w.archive.games, one, Entered(w.roster[one], t.id));
    QuietWrite(r, w.archive.games, two, Entered(r[two], t.id));
    assert HitCells(OPEN_SEA) == {};
    QuietGame(r[two := Entered(r[two], t.id)], w.archive.games, t.id, m);
  }

  // The notification of a finished game records one win and one loss.
  lemma NotifiedTally(r: Roster, m: Match)
    requires m.winner.Some? && IsPlayer(m, m.winner.value) && m.one.guid in r && m.two.guid in r && AllAdd(r)
    ensures AllAdd(Notified(r, m))
    ensures var (p, n) := (AllPlayers(r), AllPlayers(Notified(r, m)));
      n.wins == p.wins + 1 && n.losses == p.losses + 1 && n.hits == p.hits && n.shots == p.shots
  {
    var winner, loser := m.winner.value, OpponentOf(m, m.winner.value);
    var won := BackOnline(WithWin(r[winner]));
    var rewarded := r[winner := won];
    WritePlayer(r, winner, won);
    PlayedStillAdds(r, winner, won);
    var lost := BackOnline(WithLoss(rewarded[loser]));
    WritePlayer(rewarded, loser, lost);
    PlayedStillAdds(rewarded, loser, lost);
    assert Notified(r, m) == rewarded[loser := lost];
  }

  // A game over is one win, one loss and one finished game.
  lemma GameOverBalances(r: Roster, games: Games, id: GameId, m: Match)
    requires Balanced(r, games) && id in games && OfMatch(m) == Plus(OfMatch(games[id]), Tally(1, 1, 0, 0))
    requires m.winner.Some? && IsPlayer(m, m.winner.value) && m.one.guid in r && m.two.guid in r
    ensures Balanced(Notified(r, m), games[id := m])
  {
    NotifiedTally(r, m);
    WriteGame(games, id, m);
  }

  lemma GivenUpTally(m: Match, g: Guid, reason: Reason)
    requires m.phase != Finished
    ensures OfMatch(GiveUp(m, g, reason)) == Plus(OfMatch(m), Tally(1, 1, 0, 0))
  {
  }

  // All that is needed of a game given up.
  lemma GivenUpFacts(r: Roster, games: Games, id: GameId, g: Guid, reason: Reason)
    requires GamesSound(games) && PlayersKnown(r, games) && id in games && games[id].phase != Finished
    requires reason in {Surrendered, Disconnected}
    ensures var m := GiveUp(games[id], g, reason);
      && OfMatch(m) == Plus(OfMatch(games[id]), Tally(1, 1, 0, 0))
      && m.winner.Some? && IsPlayer(m, m.winner.value) && m.one.guid in r && m.two.guid in r
  {
    GivenUpTally(games[id], g, reason);
    ServerSteps.GivenUpIsSound(games, id, g, reason);
  }

  lemma GivenUpBalances(r: Roster, games: Games, id: GameId, g: Guid, reason: Reason)
    requires GamesSound(games) && PlayersKnown(r, games) && id in games && games[id].phase != Finished
    requires reason in {Surrendered, Disconnected} && Balanced(r, games)
    ensures var m := GiveUp(games[id], g, reason); Balanced(Notified(r, m), games[id := m])
  {
    GivenUpFacts(r, games, id, g, reason);
    GameOverBalances(r, games, id, GiveUp(games[id], g, reason));
  }

  lemma EndedBalances(r: Roster, a: Archive, g: Guid, reason: Reason)
    requires GamesSound(a.games) && PlayersKnown(r, a.games) && Balanced(r, a.games)
    requires reason in {Surrendered, Disconnected}
    ensures Balanced(Ended(r, a, g, reason).0, Ended(r, a, g, reason).1.games)
  {
    var id := GameOf(a, g);
    if id.Some? && a.games[id.value].phase != Finished {
      GivenUpBalances(r, a.games, id.value, g, reason);
    }
  }

  lemma EndGameBalances(w: World, g: Guid, reason: Reason)
    requires GamesSound(w.archive.games) && PlayersKnown(w.roster, w.archive.games) && BooksOk(w)
    requires reason in {Surrendered, Disconnected}
    ensures BooksOk(EndGame(w, g, reason))
  {
    EndedBalances(w.roster, w.archive, g, reason);
  }

  // What an answer to a shot adds to the game's side of the books.
  lemma ShotTally(m: Match, g: Guid, x: int, y: int)
    requires MatchState.Inv(m) && m.phase == Battle && m.turn == g
    ensures var (n, info) := Shoot(m, g, x, y);
      var over := if n.phase == Finished then 1 else 0;
      && OfMatch(n).wins == over && OfMatch(n).losses == over
      && OfMatch(n).hits == OfMatch(m).hits + (if info.result in {ShotResult.Hit, Kill} then 1 else 0)
      && OfMatch(n).shots >= OfMatch(m).shots + (if Accepted(info.result) then 1 else 0)
      && (!Accepted(info.result) ==> n == m)
  {
    FireCounts(Target(m, g), Cell(x, y));
  }

  lemma RefusedShotBalances(r: Roster, games: Games, id: GameId, m: Match)
    requires Balanced(r, games) && id in games && games[id] == m
    ensures Balanced(r, games[id := m])
  {
    assert games[id := m] == games;
  }

  lemma ShotBalances(r: Roster, games: Games, id: GameId, m: Match, g: Guid, hit: bool)
    requires Balanced(r, games) && id in games && games[id].phase != Finished && g in r
    requires OfMatch(m).hits == OfMatch(games[id]).hits + (if hit then 1 else 0)
    requires OfMatch(m).shots >= OfMatch(games[id]).shots + 1
    requires m.phase == Finished ==> m.winner.Some? && IsPlayer(m, m.winner.value) && m.one.guid in r && m.two.guid in r
    ensures var counted := r[g := WithShot(r[g], hit)];
      Balanced(if m.phase == Finished then Notified(counted, m) else counted, games[id := m])
  {
    var counted := r[g := WithShot(r[g], hit)];
    WritePlayer(r, g, WithShot(r[g], hit));
    PlayedStillAdds(r, g, WithShot(r[g], hit));
    WriteGame(games, id, m);
    if m.phase == Finished {
      NotifiedTally(counted, m);
    }
  }

  lemma ShotFacts(r: Roster, games: Games, id: GameId, g: Guid, x: int, y: int)
    requires GamesSound(games) && PlayersKnown(r, games) && id in games && games[id].phase == Battle && games[id].turn == g
    ensures var (m, info) := Shoot(games[id], g, x, y);
      && OfMatch(m).hits == OfMatch(games[id]).hits + (if info.result in {ShotResult.Hit, Kill} then 1 else 0)
      && (Accepted(info.result) ==> OfMatch(m).shots >= OfMatch(games[id]).shots + 1)
      && (!Accepted(info.result) ==> m == games[id])
      && (m.phase == Finished ==> m.winner.Some? && IsPlayer(m, m.winner.value))
      && m.one.guid in r && m.two.guid in r
  {
    ShotTally(games[id], g, x, y);
    ServerSteps.ShotIsSound(games, id, g, x, y);
  }

  lemma ShotInBalances(w: World, id: GameId, g: Guid, c: Cell)
    requires GamesSound(w.archive.games) && PlayersKnown(w.roster, w.archive.games) && BooksOk(w) && g in w.roster
    requires id in w.archive.games && w.archive.games[id].phase == Battle && w.archive.games[id].turn == g
    ensures BooksOk(ShotIn(w, id, g, c))
  {
    var (m, info) := Shoot(w.archive.games[id], g, c.x, c.y);
    ShotFacts(w.roster, w.archive.games, id, g, c.x, c.y);
    if Accepted(info.result) {
      ShotBalances(w.roster, w.archive.games, id, m, g, info.result != ShotResult.Miss);
    } else {
      RefusedShotBalances(w.roster, w.archive.games, id, m);
    }
  }

  lemma ShootBalances(w: World, g: Guid, coords: Option<Cell>)
    requires GamesSound(w.archive.games) && PlayersKnown(w.roster, w.archive.games) && BooksOk(w) && g in w.roster
    ensures BooksOk(HandleShoot(w, g, coords))
  {
    var id := GameOf(w.archive, g);
    if id.Some? && w.archive.games[id.value].phase == Battle && w.archive.games[id.value].turn == g && coords.Some? {
      ShotInBalances(w, id.value, g, coords.value);
    }
  }

  lemma PlacedTally(m: Match, g: Guid, ships: seq<Placement>)
    requires MatchState.Inv(m) && m.phase == Placing
    ensures OfMatch(PlaceAndStart(m, g, ships)) == NOTHING && OfMatch(m) == NOTHING
  {
    assert forall s: Sea :: s.attacked == {} ==> HitCells(s) == {};
  }

  lemma PlaceShipsBalances(w: World, g: Guid, ships: Option<seq<Placement>>)
    requires GamesSound(w.archive.games) && BooksOk(w)
    ensures BooksOk(HandlePlaceShips(w, g, ships))
  {
    var id := GameOf(w.archive, g);
    if id.Some? && w.archive.games[id.value].phase == Placing && ships.Some? {
      PlacedTally(w.archive.games[id.value], g, ships.value);
      QuietGame(w.roster, w.archive.games, id.value, PlaceAndStart(w.archive.games[id.value], g, ships.value));
    }
  }

  lemma {:induction false} MatchmakingBalances(w: World, tickets: seq<Ticket>)
    requires BooksOk(w) && FreshTickets(w.archive, tickets) && EnoughTickets(w, tickets)
    ensures BooksOk(CheckMatchmaking(w, tickets))
    decreases |tickets|
  {
    var (queue, pair) := Matchmaking.TryMatch(w.queue, w.roster);
    if pair.Some? {
      var next := w.(queue := queue);
      StartBalances(next, pair.value.0, pair.value.1, tickets[0]);
      ServerSteps.FreshForTheRest(w.archive, tickets, StartGame(next, pair.value.0, pair.value.1, tickets[0]).archive);
      MatchmakingBalances(StartGame(next, pair.value.0, pair.value.1, tickets[0]), tickets[1..]);
    }
  }

  lemma IdentifyBalances(r: Roster, games: Games, nickname: seq<Byte>, guid: Option<Guid>, newGuid: Guid, found: Guid)
    requires Balanced(r, games) && newGuid !in r
    ensures var who := Identify(r, nickname, guid, newGuid, found); who.Some? ==> Balanced(who.value.1, games)
  {
    if guid.Some? && guid.value != "" && guid.value in r {
      QuietWrite(r, games, guid.value, r[guid.value].(nickname := nickname));
    } else if !Named(r, nickname) {
      QuietWrite(r, games, newGuid, NewPlayer(nickname));
    }
  }

  lemma AuthBalances(w: World, s: SessionId, nickname: Option<seq<Byte>>, guid: Option<Guid>, newGuid: Guid, found: Guid)
    requires BooksOk(w) && Speaks(w, s) && newGuid !in w.roster
    ensures BooksOk(HandleAuth(w, s, nickname, guid, newGuid, found))
  {
    if PlayerOf(w, s).None? && nickname.Some? {
      var who := Identify(w.roster, nickname.value, guid, newGuid, found);
      IdentifyBalances(w.roster, w.archive.games, nickname.value, guid, newGuid, found);
      if who.Some? && who.value.0 in who.value.1 {
        var (g, roster) := who.value;
        QuietWrite(roster, w.archive.games, g, roster[g].(session := Some(s), status := Online));
      }
    }
  }

  lemma DropBalances(w: World, s: SessionId)
    requires GamesSound(w.archive.games) && PlayersKnown(w.roster, w.archive.games) && BooksOk(w)
    ensures BooksOk(HandleDrop(w, s))
  {
    if s in w.sessions && w.sessions[s].Some? {
      var g := w.sessions[s].value;
      EndedBalances(w.roster, w.archive, g, Disconnected);
      var (roster, archive) := Ended(w.roster, w.archive, g, Disconnected);
      if g in roster {
        QuietWrite(roster, archive.games, g, Gone(roster[g]));
      }
    }
  }

  lemma ResponseBalances(w: World, g: Guid, id: Option<InviteId>, accepted: Option<bool>, t: Ticket, now: int)
    requires BooksOk(w) && g in w.roster && t.id !in w.archive.games
    ensures BooksOk(HandleInviteResponse(w, g, id, accepted, t, now))
  {
    if id.Some? && Invites.Get(w.invites, id.value, now).Some? {
      var from := Invites.Get(w.invites, id.value, now).value.from;
      if Matchmaking.CanPlay(w.roster, from) {
        var queue := Matchmaking.Remove(Matchmaking.Remove(w.queue, from), g);
        StartBalances(w.(invites := w.invites - {id.value}, queue := queue), from, g, t);
      }
    }
  }

  lemma AnswerBalances(w: World, s: SessionId, g: Guid, request: Request)
    requires Sound(w) && BooksOk(w) && g in w.roster && !request.Auth? && Possible(w, Message(s, request))
    ensures BooksOk(Answer(w, g, request))
  {
    match request
    case FindGame(tickets) =>
      if w.roster[g].status != InGame {
        MatchmakingBalances(Queued(w, g), tickets);
      }
    case InviteResponse(id, accepted, ticket, now) => ResponseBalances(w, g, id, accepted, ticket, now);
    case PlaceShips(ships) => PlaceShipsBalances(w, g, ships);
    case ShootAt(coords) => ShootBalances(w, g, coords);
    case Surrender => EndGameBalances(w, g, Surrendered);
    case _ =>
  }

  lemma StepBalances(w: World, e: Event)
    requires Sound(w) && BooksOk(w) && Possible(w, e)
    ensures BooksOk(Next(w, e))
  {
    match e
    case Connect =>
    case Drop(s) => DropBalances(w, s);
    case Message(s, request) =>
      if request.Auth? {
        AuthBalances(w, s, request.nickname, request.guid, request.newGuid, request.found);
      } else if PlayerOf(w, s).Some? && PlayerOf(w, s).value in w.roster {
        AnswerBalances(w, s, PlayerOf(w, s).value, request);
      }
  }

  // Late messages of removed sessions do not disturb the books.
  lemma {:induction false} RunBalances(run: seq<Event>)
    requires LegalRun(EMPTY_WORLD, run)
    ensures BooksOk(After(EMPTY_WORLD, run))
    decreases |run|
  {
    if run != [] {
      var before := After(EMPTY_WORLD, run[..|run| - 1]);
      RunBalances(run[..|run| - 1]);
      ServerSteps.RunIsSound(run[..|run| - 1]);
      StepBalances(before, run[|run| - 1]);
    }
  }

  // ----- What the books say

  ghost function Over(games: Games): set<GameId> {
    set id | id in games && games[id].phase == Finished
  }

  lemma OverWithout(games: Games, id: GameId)
    requires id in games
    ensures |Over(games)| == |Over(games - {id})| + if games[id].phase == Finished then 1 else 0
    ensures |games| == |games - {id}| + 1
  {
    assert Over(games) == Over(games - {id}) + if games[id].phase == Finished then {id} else {};
    assert games.Keys == (games - {id}).Keys + {id};
  }

  lemma {:induction false} FinishedCount(games: Games)
    ensures AllGames(games).wins == AllGames(games).losses == |Over(games)|
    decreases |games|
  {
    if games == map[] {
      assert Over(games) == {};
    } else {
      var id :| id in games;
      PickGame(games, id);
      OverWithout(games, id);
      FinishedCount(games - {id});
    }
  }

  lemma OneGameWithin(games: Games, id: GameId)
    requires GamesSound(games) && id in games
    ensures OfMatch(games[id]).shots <= 199
  {
    AttackedTotalBound(games[id]);
  }

  lemma {:induction false} ShotsWithin(games: Games)
    requires GamesSound(games)
    ensures AllGames(games).shots <= 199 * |games|
    decreases |games|
  {
    if games != map[] {
      var id :| id in games;
      PickGame(games, id);
      OverWithout(games, id);
      OneGameWithin(games, id);
      assert GamesSound(games - {id});
      ShotsWithin(games - {id});
    }
  }

  // After every run of the server: all wins together, all losses together and the finished games are
  // equally many, each player's games are their wins and losses, the hits recorded are the Hit cells on
  // all boards, and no more than 199 shots a game were recorded.
  lemma StatisticsAreConserved(run: seq<Event>)
    requires LegalRun(EMPTY_WORLD, run)
    ensures var w := After(EMPTY_WORLD, run);
      var p := AllPlayers(w.roster);
      && p.wins == p.losses == |Over(w.archive.games)|
      && p.hits == AllGames(w.archive.games).hits
      && p.shots <= 199 * |w.archive.games|
      && forall g :: g in w.roster ==> w.roster[g].stats.played == w.roster[g].stats.wins + w.roster[g].stats.losses
  {
    RunBalances(run);
    ServerSteps.RunIsSound(run);
    FinishedCount(After(EMPTY_WORLD, run).archive.games);
    ShotsWithin(After(EMPTY_WORLD, run).archive.games);
  }
}
