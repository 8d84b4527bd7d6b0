/** Each player's own record: the games they have won and lost, the cells they have hit and the shots
    they have fired. */
module Records {
  import opened Bytes
  import opened Ids
  import opened Options
  import opened Players
  import opened GameArchive
  import opened MatchState
  import opened ServerState
  import opened ServerInvariant
  import opened SeaState
  import opened Geometry
  import ServerSteps
  import Invites
  import Matchmaking

  ghost function Won(games: Games, g: Guid): set<GameId> {
    set id | id in games && games[id].winner == Some(g)
  }

  predicate IsLoser(m: Match, g: Guid) {
    m.winner.Some? && OpponentOf(m, m.winner.value) == g
  }

  ghost function Lost(games: Games, g: Guid): set<GameId> {
    set id | id in games && IsLoser(games[id], g)
  }

  // The Hit cells on the board that the player shoots at.
  ghost function HitsIn(m: Match, g: Guid): set<Cell> {
    if IsPlayer(m, g) then HitCells(Target(m, g)) else {}
  }

  ghost function HitsOf(games: Games, g: Guid): set<(GameId, Cell)> {
    set id, c | id in games && c in HitsIn(games[id], g) :: (id, c)
  }

  // The attacked cells on the boards that the player shoots at.
  ghost function AttackedIn(m: Match, g: Guid): set<Cell> {
    if IsPlayer(m, g) then Target(m, g).attacked else {}
  }

  ghost function AttackedOf(games: Games, g: Guid): set<(GameId, Cell)> {
    set id, c | id in games && c in AttackedIn(games[id], g) :: (id, c)
  }

  // What the games show of a player.
  ghost predicate ShowResults(games: Games, g: Guid, s: Stats) {
    s.wins == |Won(games, g)| && s.losses == |Lost(games, g)|
  }

  ghost predicate ShowHits(games: Games, g: Guid, s: Stats) {
    s.shotsHit == |HitsOf(games, g)| && s.shotsFired <= |AttackedOf(games, g)|
  }

  ghost predicate ResultsOk(r: Roster, games: Games) {
    forall g {:trigger ShowResults(games, g, r[g].stats)} :: g in r ==> ShowResults(games, g, r[g].stats)
  }

  ghost predicate HitsOk(r: Roster, games: Games) {
    forall g {:trigger ShowHits(games, g, r[g].stats)} :: g in r ==> ShowHits(games, g, r[g].stats)
  }

  ghost predicate RecordsOk(r: Roster, games: Games) {
    ResultsOk(r, games) && HitsOk(r, games)
  }

  // ----- One game is written

  // The two states of a game show the same.
  ghost predicate ShowSame(a: Match, b: Match) {
    && a.winner == b.winner && a.one.guid == b.one.guid && a.two.guid == b.two.guid
    && HitCells(a.one.sea) == HitCells(b.one.sea) && HitCells(a.two.sea) == HitCells(b.two.sea)
    && a.one.sea.attacked == b.one.sea.attacked && a.two.sea.attacked == b.two.sea.attacked
  }

  ghost predicate ShowsNothing(m: Match) {
    m.winner == None && m.one.sea.attacked == {} && m.two.sea.attacked == {}
  }

  lemma SameSets(games: Games, id: GameId, m: Match, g: Guid)
    requires if id in games then ShowSame(games[id], m) else ShowsNothing(m)
    ensures Won(games[id := m], g) == Won(games, g) && Lost(games[id := m], g) == Lost(games, g)
    ensures HitsOf(games[id := m], g) == HitsOf(games, g) && AttackedOf(games[id := m], g) == AttackedOf(games, g)
  {
    assert id in games ==> HitsIn(m, g) == HitsIn(games[id], g) && AttackedIn(m, g) == AttackedIn(games[id], g);
    assert id !in games ==> HitsIn(m, g) == {} && AttackedIn(m, g) == {};
  }

  lemma QuietGame(r: Roster, games: Games, id: GameId, m: Match)
    requires RecordsOk(r, games) && if id in games then ShowSame(games[id], m) else ShowsNothing(m)
    ensures RecordsOk(r, games[id := m])
  {
    forall g | g in r ensures ShowResults(games[id := m], g, r[g].stats) && ShowHits(games[id := m], g, r[g].stats) {
      assert ShowResults(games, g, r[g].stats) && ShowHits(games, g, r[g].stats);
      SameSets(games, id, m, g);
    }
  }

  lemma WonWith(games: Games, id: GameId, m: Match, g: Guid)
    requires id in games && games[id].winner == None
    ensures id !in Won(games, g)
    ensures Won(games[id := m], g) == if m.winner == Some(g) then Won(games, g) + {id} else Won(games, g)
  {
  }

  lemma LostWith(games: Games, id: GameId, m: Match, g: Guid)
    requires id in games && games[id].winner == None
    ensures id !in Lost(games, g)
    ensures Lost(games[id := m], g) == if IsLoser(m, g) then Lost(games, g) + {id} else Lost(games, g)
  {
  }

  lemma WonAfter(games: Games, id: GameId, m: Match, g: Guid)
    requires id in games && games[id].winner == None
    ensures |Won(games[id := m], g)| == |Won(games, g)| + if m.winner == Some(g) then 1 else 0
    ensures |Lost(games[id := m], g)| == |Lost(games, g)| + if IsLoser(m, g) then 1 else 0
  {
    WonWith(games, id, m, g);
    LostWith(games, id, m, g);
  }

  lemma HitsAfter(games: Games, id: GameId, m: Match, g: Guid)
    requires id in games && HitsIn(m, g) == HitsIn(games[id], g)
    ensures HitsOf(games[id := m], g) == HitsOf(games, g)
  {
  }

  lemma AttackedAfter(games: Games, id: GameId, m: Match, g: Guid)
    requires id in games && AttackedIn(m, g) == AttackedIn(games[id], g)
    ensures AttackedOf(games[id := m], g) == AttackedOf(games, g)
  {
  }

  lemma MoreCells(games: Games, id: GameId, m: Match, g: Guid, c: Cell)
    requires id in games && c in AttackedIn(m, g) && c !in AttackedIn(games[id], g) && AttackedIn(games[id], g) <= AttackedIn(m, g)
    ensures (id, c) !in AttackedOf(games, g) && AttackedOf(games, g) + {(id, c)} <= AttackedOf(games[id := m], g)
  {
    forall a: (GameId, Cell) | a in AttackedOf(games, g) ensures a in AttackedOf(games[id := m], g) {
      assert a.0 in games && a.1 in AttackedIn(games[a.0], g);
    }
  }

  // One more cell at least.
  lemma MoreAttacked(games: Games, id: GameId, m: Match, g: Guid, c: Cell)
    requires id in games && c in AttackedIn(m, g) && c !in AttackedIn(games[id], g) && AttackedIn(games[id], g) <= AttackedIn(m, g)
    ensures |AttackedOf(games, g)| + 1 <= |AttackedOf(games[id := m], g)|
  {
    MoreCells(games, id, m, g, c);
    SubsetCount(AttackedOf(games, g) + {(id, c)}, AttackedOf(games[id := m], g));
  }

  lemma HitsWith(games: Games, id: GameId, m: Match, g: Guid, c: Cell)
    requires id in games && c !in HitsIn(games[id], g) && HitsIn(m, g) == HitsIn(games[id], g) + {c}
    ensures (id, c) !in HitsOf(games, g) && HitsOf(games[id := m], g) == HitsOf(games, g) + {(id, c)}
  {
    var n := games[id := m];
    forall h: (GameId, Cell) ensures h in HitsOf(n, g) <==> h in HitsOf(games, g) + {(id, c)} {
      assert h in HitsOf(n, g) <==> h.0 in n && h.1 in HitsIn(n[h.0], g);
    }
  }

  lemma OneMoreHit(games: Games, id: GameId, m: Match, g: Guid, c: Cell)
    requires id in games && c !in HitsIn(games[id], g) && HitsIn(m, g) == HitsIn(games[id], g) + {c}
    ensures |HitsOf(games[id := m], g)| == |HitsOf(games, g)| + 1
  {
    HitsWith(games, id, m, g, c);
    var hits := HitsOf(games, g);
    assert |hits + {(id, c)}| == |hits| + 1;
  }

  // ----- Players are written

  lemma QuietPlayer(r: Roster, games: Games, g: Guid, p: Player)
    requires RecordsOk(r, games) && g in r && p.stats == r[g].stats
    ensures RecordsOk(r[g := p], games)
  {
    assert forall h: Guid :: h in r[g := p] ==> h in r && r[g := p][h].stats == r[h].stats;
    forall h | h in r ensures ShowResults(games, h, r[h].stats) && ShowHits(games, h, r[h].stats) {
    }
  }

  lemma KnownSides(r: Roster, games: Games, id: GameId)
    requires GamesSound(games) && PlayersKnown(r, games) && id in games
    ensures var m := games[id];
      && m.one.guid in r && m.two.guid in r
      && (m.winner.Some? ==> m.winner.value in r && OpponentOf(m, m.winner.value) in r)
      && (m.winner.Some? <==> m.phase == Finished)
  {
    assert MatchState.Inv(games[id]);
  }

  // Of somebody new the games show nothing.
  lemma NothingOfStranger(r: Roster, games: Games, g: Guid)
    requires GamesSound(games) && PlayersKnown(r, games) && g !in r
    ensures Won(games, g) == {} && Lost(games, g) == {} && HitsOf(games, g) == {} && AttackedOf(games, g) == {}
  {
    forall id | id in games ensures !IsPlayer(games[id], g) && games[id].winner != Some(g) && !IsLoser(games[id], g) {
      KnownSides(r, games, id);
    }
  }

  lemma StrangerHasNoRecord(r: Roster, games: Games, g: Guid, nickname: seq<Byte>)
    requires RecordsOk(r, games) && GamesSound(games) && PlayersKnown(r, games) && g !in r
    ensures RecordsOk(r[g := NewPlayer(nickname)], games)
  {
    NothingOfStranger(r, games, g);
    var n := r[g := NewPlayer(nickname)];
    forall h | h in n ensures ShowResults(games, h, n[h].stats) && ShowHits(games, h, n[h].stats) {
      if h != g {
        assert ShowResults(games, h, r[h].stats) && ShowHits(games, h, r[h].stats);
      }
    }
  }

  // ----- Games begin and end

  lemma StartRecords(w: World, one: Guid, two: Guid, t: Ticket)
    requires RecordsOk(w.roster, w.archive.games) && one in w.roster && two in w.roster && t.id !in w.archive.games
    ensures var n := StartGame(w, one, two, t); RecordsOk(n.roster, n.archive.games)
  {
    var r := w.roster[one := Entered(w.roster[one], t.id)];
    QuietPlayer(w.roster, w.archive.games, one, Entered(w.roster[one], t.id));
    QuietPlayer(r, w.archive.games, two, Entered(r[two], t.id));
    QuietGame(r[two := Entered(r[two], t.id)], w.archive.games, t.id, NewMatch(one, two, if t.firstStarts then one else two));
  }

  // What the notification writes into each player's record.
  lemma NotifiedStats(r: Roster, m: Match, g: Guid)
    requires m.winner.Some? && g in r
    ensures g in Notified(r, m)
    ensures var (was, now) := (r[g].stats, Notified(r, m)[g].stats);
      && now.wins == was.wins + (if m.winner == Some(g) then 1 else 0)
      && now.losses == was.losses + (if IsLoser(m, g) then 1 else 0)
      && now.shotsHit == was.shotsHit && now.shotsFired == was.shotsFired
  {
  }

  // Hits are on record already, the result is not.
  lemma GameOverRecords(r: Roster, games: Games, id: GameId, m: Match)
    requires id in games && games[id].winner == None && m.winner.Some?
    requires ResultsOk(r, games) && HitsOk(r, games[id := m])
    requires IsPlayer(m, m.winner.value) && m.one.guid in r && m.two.guid in r
    ensures RecordsOk(Notified(r, m), games[id := m])
  {
    var n := Notified(r, m);
    forall g | g in n ensures ShowResults(games[id := m], g, n[g].stats) && ShowHits(games[id := m], g, n[g].stats) {
      assert ShowResults(games, g, r[g].stats) && ShowHits(games[id := m], g, r[g].stats);
      NotifiedStats(r, m, g);
      WonAfter(games, id, m, g);
    }
  }

  lemma GivenUpRecords(r: Roster, games: Games, id: GameId, g: Guid, reason: Reason)
    requires GamesSound(games) && PlayersKnown(r, games) && RecordsOk(r, games)
    requires id in games && games[id].phase != Finished && reason in {Surrendered, Disconnected}
    ensures var m := GiveUp(games[id], g, reason); RecordsOk(Notified(r, m), games[id := m])
  {
    var m := GiveUp(games[id], g, reason);
    KnownSides(r, games, id);
    forall h | h in r ensures ShowHits(games[id := m], h, r[h].stats) {
      assert ShowHits(games, h, r[h].stats);
      HitsAfter(games, id, m, h);
      AttackedAfter(games, id, m, h);
    }
    GameOverRecords(r, games, id, m);
  }

  lemma EndedRecords(r: Roster, a: Archive, g: Guid, reason: Reason)
    requires GamesSound(a.games) && PlayersKnown(r, a.games) && RecordsOk(r, a.games)
    requires reason in {Surrendered, Disconnected}
    ensures RecordsOk(Ended(r, a, g, reason).0, Ended(r, a, g, reason).1.games)
  {
    var id := GameOf(a, g);
    if id.Some? && a.games[id.value].phase != Finished {
      GivenUpRecords(r, a.games, id.value, g, reason);
    }
  }

  // ----- Shots

  lemma FireHitCells(s: Sea, c: Cell)
    requires WellFormed(s)
    ensures var (t, r) := Fire(s, c);
      if r in {ShotResult.Hit, Kill} then c !in HitCells(s) && HitCells(t) == HitCells(s) + {c}
      else HitCells(t) == HitCells(s)
  {
    var (t, r) := Fire(s, c);
    if r in {ShotResult.Hit, Kill} {
      FireHits(s, c, ShipIndexAt(s.fleet, c));
      assert forall d :: d in HitCells(t) <==> d in HitCells(s) || d == c;
    } else if r == ShotResult.Miss {
      assert forall d :: d in HitCells(t) <==> d in HitCells(s);
    }
  }

  // A shot shows on the shooter's record only, and there one cell at most.
  lemma ShotHits(m: Match, g: Guid, c: Cell, h: Guid)
    requires MatchState.Inv(m) && m.phase == Battle && m.turn == g
    ensures var (n, info) := Shoot(m, g, c.x, c.y);
      if h == g && info.result in {ShotResult.Hit, Kill} then c !in HitsIn(m, h) && HitsIn(n, h) == HitsIn(m, h) + {c}
      else HitsIn(n, h) == HitsIn(m, h)
  {
    var s := Target(m, g);
    FireHitCells(s, Cell(c.x, c.y));
  }

  lemma ShotHitsOf(games: Games, id: GameId, g: Guid, c: Cell, h: Guid)
    requires GamesSound(games) && id in games && games[id].phase == Battle && games[id].turn == g
    ensures var (m, info) := Shoot(games[id], g, c.x, c.y);
      |HitsOf(games[id := m], h)| == |HitsOf(games, h)| + if h == g && info.result in {ShotResult.Hit, Kill} then 1 else 0
  {
    var (m, info) := Shoot(games[id], g, c.x, c.y);
    ShotHits(games[id], g, c, h);
    if h == g && info.result in {ShotResult.Hit, Kill} {
      OneMoreHit(games, id, m, h, c);
    } else {
      HitsAfter(games, id, m, h);
    }
  }

  // An accepted shot attacks one more cell at least, on the board that the shooter shoots at, and no
  // cell on any other board.
  lemma ShotAttacks(m: Match, g: Guid, c: Cell, h: Guid)
    requires MatchState.Inv(m) && m.phase == Battle && m.turn == g
    ensures var (n, info) := Shoot(m, g, c.x, c.y);
      if h == g && Accepted(info.result) then
        c !in AttackedIn(m, h) && c in AttackedIn(n, h) && AttackedIn(m, h) <= AttackedIn(n, h)
      else AttackedIn(n, h) == AttackedIn(m, h)
  {
    assert Cell(c.x, c.y) == c;
  }

  lemma ShotAttacksOf(games: Games, id: GameId, g: Guid, c: Cell, h: Guid)
    requires GamesSound(games) && id in games && games[id].phase == Battle && games[id].turn == g
    requires Accepted(Shoot(games[id], g, c.x, c.y).1.result)
    ensures var m := Shoot(games[id], g, c.x, c.y).0;
      |AttackedOf(games, h)| + (if h == g then 1 else 0) <= |AttackedOf(games[id := m], h)|
  {
    var m := Shoot(games[id], g, c.x, c.y).0;
    ShotAttacks(games[id], g, c, h);
    if h == g {
      MoreAttacked(games, id, m, h, c);
    } else {
      AttackedAfter(games, id, m, h);
    }
  }

  lemma CountedHits(r: Roster, games: Games, id: GameId, g: Guid, c: Cell)
    requires GamesSound(games) && RecordsOk(r, games) && g in r
    requires id in games && games[id].phase == Battle && games[id].turn == g
    requires Accepted(Shoot(games[id], g, c.x, c.y).1.result)
    ensures var (m, info) := Shoot(games[id], g, c.x, c.y);
      var counted := r[g := WithShot(r[g], info.result != ShotResult.Miss)];
      ResultsOk(counted, games) && HitsOk(counted, games[id := m])
  {
    var (m, info) := Shoot(games[id], g, c.x, c.y);
    var counted := r[g := WithShot(r[g], info.result != ShotResult.Miss)];
    forall h | h in counted ensures ShowResults(games, h, counted[h].stats) && ShowHits(games[id := m], h, counted[h].stats) {
      assert ShowResults(games, h, r[h].stats) && ShowHits(games, h, r[h].stats);
      ShotHitsOf(games, id, g, c, h);
      ShotAttacksOf(games, id, g, c, h);
    }
  }

  lemma WithResult(r: Roster, games: Games, id: GameId, m: Match)
    requires id in games && games[id].winner == None && ResultsOk(r, games) && HitsOk(r, games[id := m])
    requires m.winner.Some? <==> m.phase == Finished
    requires m.winner.Some? ==> IsPlayer(m, m.winner.value) && m.one.guid in r && m.two.guid in r
    ensures RecordsOk(if m.phase == Finished then Notified(r, m) else r, games[id := m])
  {
    if m.phase == Finished {
      GameOverRecords(r, games, id, m);
    } else {
      forall g | g in r ensures ShowResults(games[id := m], g, r[g].stats) {
        assert ShowResults(games, g, r[g].stats);
        WonAfter(games, id, m, g);
      }
    }
  }

  // What the records need to know of a shot besides the hits.
  lemma ShotOutcome(r: Roster, games: Games, id: GameId, g: Guid, c: Cell)
    requires GamesSound(games) && PlayersKnown(r, games) && id in games && games[id].phase == Battle && games[id].turn == g
    ensures var (m, info) := Shoot(games[id], g, c.x, c.y);
      && games[id].winner == None && (m.winner.Some? <==> m.phase == Finished)
      && (m.winner.Some? ==> IsPlayer(m, m.winner.value)) && m.one.guid in r && m.two.guid in r
      && (!Accepted(info.result) ==> m == games[id])
  {
    KnownSides(r, games, id);
    ShootKeepsInv(games[id], g, c.x, c.y);
    ServerSteps.ShotIsSound(games, id, g, c.x, c.y);
    FireCounts(Target(games[id], g), c);
  }

  lemma AcceptedRecords(r: Roster, games: Games, id: GameId, g: Guid, c: Cell)
    requires GamesSound(games) && PlayersKnown(r, games) && RecordsOk(r, games) && g in r
    requires id in games && games[id].phase == Battle && games[id].turn == g
    requires Accepted(Shoot(games[id], g, c.x, c.y).1.result)
    ensures var (m, info) := Shoot(games[id], g, c.x, c.y); RecordsOk(Recorded(r, g, m, info.result), games[id := m])
  {
    var (m, info) := Shoot(games[id], g, c.x, c.y);
    ShotOutcome(r, games, id, g, c);
    CountedHits(r, games, id, g, c);
    WithResult(r[g := WithShot(r[g], info.result != ShotResult.Miss)], games, id, m);
  }

  lemma ShotInRecords(w: World, id: GameId, g: Guid, c: Cell)
    requires GamesSound(w.archive.games) && PlayersKnown(w.roster, w.archive.games)
    requires RecordsOk(w.roster, w.archive.games) && g in w.roster
    requires id in w.archive.games && w.archive.games[id].phase == Battle && w.archive.games[id].turn == g
    ensures var n := ShotIn(w, id, g, c); RecordsOk(n.roster, n.archive.games)
  {
    var games := w.archive.games;
    var (m, info) := Shoot(games[id], g, c.x, c.y);
    if Accepted(info.result) {
      AcceptedRecords(w.roster, games, id, g, c);
    } else {
      ShotOutcome(w.roster, games, id, g, c);
      assert games[id := m] == games;
    }
  }

  // ----- The handlers

  lemma PlacedShowsSame(m: Match, g: Guid, ships: seq<Placement>)
    requires MatchState.Inv(m) && m.phase == Placing
    ensures ShowSame(m, PlaceAndStart(m, g, ships))
  {
    assert forall s: Sea :: s.attacked == {} ==> HitCells(s) == {};
  }

  lemma PlaceShipsRecords(w: World, g: Guid, ships: Option<seq<Placement>>)
    requires GamesSound(w.archive.games) && RecordsOk(w.roster, w.archive.games)
    ensures var n := HandlePlaceShips(w, g, ships); RecordsOk(n.roster, n.archive.games)
  {
    var id := GameOf(w.archive, g);
    if id.Some? && w.archive.games[id.value].phase == Placing && ships.Some? {
      PlacedShowsSame(w.archive.games[id.value], g, ships.value);
      QuietGame(w.roster, w.archive.games, id.value, PlaceAndStart(w.archive.games[id.value], g, ships.value));
    }
  }

  lemma ShootRecords(w: World, g: Guid, coords: Option<Cell>)
    requires GamesSound(w.archive.games) && PlayersKnown(w.roster, w.archive.games)
    requires RecordsOk(w.roster, w.archive.games) && g in w.roster
    ensures var n := HandleShoot(w, g, coords); RecordsOk(n.roster, n.archive.games)
  {
    var id := GameOf(w.archive, g);
    if id.Some? && w.archive.games[id.value].phase == Battle && w.archive.games[id.value].turn == g && coords.Some? {
      ShotInRecords(w, id.value, g, coords.value);
    }
  }

  lemma {:induction false} MatchmakingRecords(w: World, tickets: seq<Ticket>)
    requires RecordsOk(w.roster, w.archive.games) && FreshTickets(w.archive, tickets) && EnoughTickets(w, tickets)
    ensures var n := CheckMatchmaking(w, tickets); RecordsOk(n.roster, n.archive.games)
    decreases |tickets|
  {
    var (queue, pair) := Matchmaking.TryMatch(w.queue, w.roster);
    if pair.Some? {
      var next := w.(queue := queue);
      StartRecords(next, pair.value.0, pair.value.1, tickets[0]);
      ServerSteps.FreshForTheRest(w.archive, tickets, StartGame(next, pair.value.0, pair.value.1, tickets[0]).archive);
      MatchmakingRecords(StartGame(next, pair.value.0, pair.value.1, tickets[0]), tickets[1..]);
    }
  }

  lemma ResponseRecords(w: World, g: Guid, id: Option<InviteId>, accepted: Option<bool>, t: Ticket, now: int)
    requires RecordsOk(w.roster, w.archive.games) && g in w.roster && t.id !in w.archive.games
    ensures var n := HandleInviteResponse(w, g, id, accepted, t, now); RecordsOk(n.roster, n.archive.games)
  {
    if id.Some? && Invites.Get(w.invites, id.value, now).Some? {
      var from := Invites.Get(w.invites, id.value, now).value.from;
      if Matchmaking.CanPlay(w.roster, from) {
        var queue := Matchmaking.Remove(Matchmaking.Remove(w.queue, from), g);
        StartRecords(w.(invites := w.invites - {id.value}, queue := queue), from, g, t);
      }
    }
  }

  lemma AuthRecords(w: World, s: SessionId, nickname: Option<seq<Byte>>, guid: Option<Guid>, newGuid: Guid, found: Guid)
    requires GamesSound(w.archive.games) && PlayersKnown(w.roster, w.archive.games)
    requires RecordsOk(w.roster, w.archive.games) && Speaks(w, s) && newGuid !in w.roster
    ensures var n := HandleAuth(w, s, nickname, guid, newGuid, found); RecordsOk(n.roster, n.archive.games)
  {
    if PlayerOf(w, s).None? && nickname.Some? {
      var who := Identify(w.roster, nickname.value, guid, newGuid, found);
      if who.Some? && who.value.0 in who.value.1 {
        var (g, roster) := who.value;
        assert RecordsOk(roster, w.archive.games) by {
          if guid.Some? && guid.value != "" && guid.value in w.roster {
            QuietPlayer(w.roster, w.archive.games, g, roster[g]);
          } else if !Named(w.roster, nickname.value) {
            StrangerHasNoRecord(w.roster, w.archive.games, newGuid, nickname.value);
          }
        }
        QuietPlayer(roster, w.archive.games, g, roster[g].(session := Some(s), status := Online));
      }
    }
  }

  lemma DropRecords(w: World, s: SessionId)
    requires GamesSound(w.archive.games) && PlayersKnown(w.roster, w.archive.games) && RecordsOk(w.roster, w.archive.games)
    ensures var n := HandleDrop(w, s); RecordsOk(n.roster, n.archive.games)
  {
    if s in w.sessions && w.sessions[s].Some? {
      var g := w.sessions[s].value;
      EndedRecords(w.roster, w.archive, g, Disconnected);
      var (roster, archive) := Ended(w.roster, w.archive, g, Disconnected);
      if g in roster {
        QuietPlayer(roster, archive.games, g, Gone(roster[g]));
      }
    }
  }

  lemma AnswerRecords(w: World, s: SessionId, g: Guid, request: Request)
    requires GamesSound(w.archive.games) && PlayersKnown(w.roster, w.archive.games) && g in w.roster
    requires RecordsOk(w.roster, w.archive.games) && !request.Auth? && Possible(w, Message(s, request))
    ensures var n := Answer(w, g, request); RecordsOk(n.roster, n.archive.games)
  {
    match request
    case FindGame(tickets) =>
      if w.roster[g].status != InGame {
        MatchmakingRecords(Queued(w, g), tickets);
      }
    case InviteResponse(id, accepted, ticket, now) => ResponseRecords(w, g, id, accepted, ticket, now);
    case PlaceShips(ships) => PlaceShipsRecords(w, g, ships);
    case ShootAt(coords) => ShootRecords(w, g, coords);
    case Surrender => EndedRecords(w.roster, w.archive, g, Surrendered);
    case _ =>
  }

  lemma StepRecords(w: World, e: Event)
    requires GamesSound(w.archive.games) && PlayersKnown(w.roster, w.archive.games)
    requires RecordsOk(w.roster, w.archive.games) && Possible(w, e)
    ensures var n := Next(w, e); RecordsOk(n.roster, n.archive.games)
  {
    match e
    case Connect =>
    case Drop(s) => DropRecords(w, s);
    case Message(s, request) =>
      if request.Auth? {
        AuthRecords(w, s, request.nickname, request.guid, request.newGuid, request.found);
      } else if PlayerOf(w, s).Some? && PlayerOf(w, s).value in w.roster {
        AnswerRecords(w, s, PlayerOf(w, s).value, request);
      }
  }

  // After every run of the server, late messages included, each player's wins, losses and hits are
  // exactly the games they have won, the games they have lost and the Hit cells on their opponents'
  // boards, and they have fired no more shots than there are attacked cells on those boards.
  lemma {:induction false} RunRecords(run: seq<Event>)
    requires LegalRun(EMPTY_WORLD, run)
    ensures var w := After(EMPTY_WORLD, run); RecordsOk(w.roster, w.archive.games)
    decreases |run|
  {
    if run != [] {
      var before := After(EMPTY_WORLD, run[..|run| - 1]);
      RunRecords(run[..|run| - 1]);
      ServerSteps.RunIsSound(run[..|run| - 1]);
      StepRecords(before, run[|run| - 1]);
    }
  }
}
