/** Every accepted shot is counted, once, for the one who fired it: the records of shots are what the
    messages of a run have done. */
module ShotLog {
  import opened Bytes
  import opened Ids
  import opened Options
  import opened Geometry
  import opened SeaState
  import opened Players
  import opened GameArchive
  import opened MatchState
  import opened MatchEffects
  import opened ServerState
  import opened ServerInvariant
  import opened Effects
  import Matchmaking
  import ServerSteps

  // ----- One shot

  // The player may shoot at the cell: in the battle of the game that the index names, in turn, and at a
  // cell that has not been attacked.
  predicate CanHit(w: World, g: Guid, c: Cell) {
    GameOf(w.archive, g).Some? && Hittable(w.archive.games[GameOf(w.archive, g).value], g, c)
  }

  predicate HitsShip(w: World, g: Guid, c: Cell)
    requires CanHit(w, g, c)
  {
    View(OtherSide(w.archive.games[GameOf(w.archive, g).value], g).sea, c) == CellState.Ship
  }

  function OneShot(p: Player, hit: bool): Player {
    p.(stats := p.stats.(shotsFired := p.stats.shotsFired + 1, shotsHit := p.stats.shotsHit + if hit then 1 else 0))
  }

  // The shot is on record for the shooter, the game has gone on by it, and if it was the last one, its
  // result is on record too.
  ghost predicate ShotIsOnRecord(w: World, g: Guid, c: Cell, n: World)
    requires CanHit(w, g, c)
  {
    var id := GameOf(w.archive, g).value;
    && OnlyGame(w.(roster := n.roster), id, n)
    && var k := n.archive.games[id];
       && k == Step(w.archive.games[id], ShootOp(g, c.x, c.y))
       && n.roster.Keys == w.roster.Keys
       && forall h :: h in w.roster ==>
            var p := if h == g then OneShot(w.roster[h], HitsShip(w, g, c)) else w.roster[h];
            n.roster[h] == if k.phase == Finished then AfterGame(p, k, h) else p
  }

  lemma ShotFacts(m: Match, g: Guid, c: Cell)
    requires MatchState.Inv(m) && Hittable(m, g, c)
    ensures var (k, info) := Shoot(m, g, c.x, c.y);
      && k == Step(m, ShootOp(g, c.x, c.y))
      && Accepted(info.result) && (info.result != ShotResult.Miss <==> View(OtherSide(m, g).sea, c) == CellState.Ship)
      && k.one.guid == m.one.guid && k.two.guid == m.two.guid
      && (k.phase == Finished ==> k.winner == Some(g))
  {
    RefusedShot(m, g, c);
    ReportIsRight(m, g, c);
    AcceptedShot(m, g, c);
  }

  lemma ShotRoster(r: Roster, g: Guid, k: Match, result: ShotResult)
    requires g in r && Accepted(result) && k.one.guid in r && k.two.guid in r && IsPlayer(k, g)
    requires k.phase == Finished ==> k.winner == Some(g)
    ensures var n := Recorded(r, g, k, result);
      && n.Keys == r.Keys
      && forall h :: h in r ==>
           var p := if h == g then OneShot(r[h], result != ShotResult.Miss) else r[h];
           n[h] == if k.phase == Finished then AfterGame(p, k, h) else p
  {
    var counted := r[g := WithShot(r[g], result != ShotResult.Miss)];
    if k.phase == Finished {
      NotificationWrites(counted, k);
    }
  }

  lemma OnRecord(w: World, id: GameId, g: Guid, c: Cell, k: Match, result: ShotResult)
    requires CanHit(w, g, c) && GameOf(w.archive, g) == Some(id) && g in w.roster
    requires k == Step(w.archive.games[id], ShootOp(g, c.x, c.y)) && (k.phase == Finished ==> k.winner == Some(g))
    requires k.one.guid in w.roster && k.two.guid in w.roster && IsPlayer(k, g)
    requires Accepted(result) && (result != ShotResult.Miss <==> HitsShip(w, g, c))
    ensures ShotIsOnRecord(w, g, c, SetGame(w, id, k).(roster := Recorded(w.roster, g, k, result)))
  {
    ShotRoster(w.roster, g, k, result);
  }

  lemma ShotWrites(w: World, id: GameId, g: Guid, c: Cell)
    requires CanHit(w, g, c) && GameOf(w.archive, g) == Some(id) && g in w.roster
    requires MatchState.Inv(w.archive.games[id]) && PlayersKnown(w.roster, w.archive.games)
    ensures ShotIsOnRecord(w, g, c, ShotIn(w, id, g, c))
  {
    var m := w.archive.games[id];
    var (k, info) := Shoot(m, g, c.x, c.y);
    ShotFacts(m, g, c);
    OnRecord(w, id, g, c, k, info.result);
  }

  lemma ShootCases(w: World, g: Guid, c: Cell)
    requires g in w.roster
    ensures var id := GameOf(w.archive, g);
      HandleShoot(w, g, Some(c)) ==
      if id.None? || w.archive.games[id.value].phase != Battle || w.archive.games[id.value].turn != g || !OnBoard(c) then w
      else ShotIn(w, id.value, g, c)
  {
  }

  lemma RefusedInGame(w: World, id: GameId, g: Guid, c: Cell)
    requires GameOf(w.archive, g) == Some(id) && g in w.roster && !CanHit(w, g, c)
    requires MatchState.Inv(w.archive.games[id])
    ensures ShotIn(w, id, g, c) == w
  {
    RefusedShot(w.archive.games[id], g, c);
    SameGame(w, id, w.archive.games[id]);
  }

  // A message with a shot counts it if the player may shoot there. Otherwise nothing happens.
  lemma ShotIsCounted(w: World, s: SessionId, g: Guid, coords: Option<Cell>)
    requires Sound(w) && Speaker(w, s, g)
    ensures var e := Message(s, ShootAt(coords));
      && Possible(w, e)
      && if coords.Some? && CanHit(w, g, coords.value) then ShotIsOnRecord(w, g, coords.value, Next(w, e)) else Next(w, e) == w
  {
    var id := GameOf(w.archive, g);
    if id.Some? && coords.Some? {
      IndexNamesOwnGame(w, g);
      ShotInGame(w, s, g, coords.value);
    }
  }

  lemma ShotInGame(w: World, s: SessionId, g: Guid, c: Cell)
    requires Speaker(w, s, g) && GameOf(w.archive, g).Some? && PlayersKnown(w.roster, w.archive.games)
    requires MatchState.Inv(w.archive.games[GameOf(w.archive, g).value])
    requires IsPlayer(w.archive.games[GameOf(w.archive, g).value], g)
    ensures var e := Message(s, ShootAt(Some(c)));
      && Possible(w, e)
      && if CanHit(w, g, c) then ShotIsOnRecord(w, g, c, Next(w, e)) else Next(w, e) == w
  {
    var id := GameOf(w.archive, g).value;
    ShootCases(w, g, c);
    if CanHit(w, g, c) {
      ShotWrites(w, id, g, c);
    } else {
      RefusedInGame(w, id, g, c);
    }
  }

  // ----- Everything else leaves the records of shots alone

  // Shots fired and shots hit, none of a player who is not known.
  function ShotsOf(r: Roster, g: Guid): (nat, nat) {
    if g in r then (r[g].stats.shotsFired, r[g].stats.shotsHit) else (0, 0)
  }

  ghost predicate SameShots(r: Roster, n: Roster) {
    forall g :: ShotsOf(n, g) == ShotsOf(r, g)
  }

  lemma {:induction false} MatchmakingFiresNone(w: World, tickets: seq<Ticket>)
    requires EnoughTickets(w, tickets)
    ensures SameShots(w.roster, CheckMatchmaking(w, tickets).roster)
    decreases |tickets|
  {
    var (queue, pair) := Matchmaking.TryMatch(w.queue, w.roster);
    if pair.Some? {
      var n := StartGame(w.(queue := queue), pair.value.0, pair.value.1, tickets[0]);
      MatchmakingFiresNone(n, tickets[1..]);
      assert SameShots(w.roster, n.roster);
    }
  }

  lemma EndFiresNone(w: World, g: Guid, reason: Reason)
    ensures SameShots(w.roster, EndGame(w, g, reason).roster)
  {
  }

  lemma ResponseFiresNone(w: World, g: Guid, id: Option<InviteId>, accepted: Option<bool>, t: Ticket, now: int)
    requires g in w.roster
    ensures SameShots(w.roster, HandleInviteResponse(w, g, id, accepted, t, now).roster)
  {
  }

  lemma DropFiresNone(w: World, s: SessionId)
    ensures SameShots(w.roster, HandleDrop(w, s).roster)
  {
    if s in w.sessions && w.sessions[s].Some? {
      EndFiresNone(w, w.sessions[s].value, Disconnected);
    }
  }

  lemma AuthFiresNone(w: World, s: SessionId, nickname: Option<seq<Byte>>, guid: Option<Guid>, newGuid: Guid, found: Guid)
    requires Speaks(w, s) && newGuid !in w.roster
    ensures SameShots(w.roster, HandleAuth(w, s, nickname, guid, newGuid, found).roster)
  {
  }

  lemma AnswerFiresNone(w: World, g: Guid, request: Request)
    requires g in w.roster && (request.FindGame? ==> |w.queue| <= 2 * |request.tickets|) && !request.ShootAt?
    ensures SameShots(w.roster, Answer(w, g, request).roster)
  {
    match request
    case FindGame(tickets) =>
      if w.roster[g].status != InGame {
        MatchmakingFiresNone(Queued(w, g), tickets);
      }
    case InviteResponse(id, accepted, ticket, now) => ResponseFiresNone(w, g, id, accepted, ticket, now);
    case PlaceShips(ships) => ServerSteps.PlaceShipsCases(w, g, ships);
    case Surrender => EndFiresNone(w, g, Surrendered);
    case _ =>
  }

  // ----- Whole runs

  // The event is a shot of this player that is accepted.
  predicate IsShot(w: World, e: Event, g: Guid) {
    && e.Message? && e.request.ShootAt? && e.request.coords.Some? && Speaker(w, e.from, g)
    && CanHit(w, g, e.request.coords.value)
  }

  predicate IsHit(w: World, e: Event, g: Guid) {
    IsShot(w, e, g) && HitsShip(w, g, e.request.coords.value)
  }

  function Plus(a: (nat, nat), fired: bool, hit: bool): (nat, nat) {
    (a.0 + (if fired then 1 else 0), a.1 + (if hit then 1 else 0))
  }

  // The accepted shots of a player in a run, and those of them that hit.
  ghost function ShotsIn(run: seq<Event>, g: Guid): (nat, nat)
    requires LegalRun(EMPTY_WORLD, run)
    decreases |run|
  {
    if run == [] then (0, 0)
    else
      var front, last := run[..|run| - 1], run[|run| - 1];
      var w := After(EMPTY_WORLD, front);
      Plus(ShotsIn(front, g), IsShot(w, last, g), IsHit(w, last, g))
  }

  lemma RecordedShots(w: World, g: Guid, c: Cell, n: World, h: Guid)
    requires CanHit(w, g, c) && g in w.roster && ShotIsOnRecord(w, g, c, n)
    ensures ShotsOf(n.roster, h) == Plus(ShotsOf(w.roster, h), h == g, h == g && HitsShip(w, g, c))
  {
  }

  lemma StepCounts(w: World, e: Event, g: Guid)
    requires Sound(w) && Possible(w, e)
    ensures ShotsOf(Next(w, e).roster, g) == Plus(ShotsOf(w.roster, g), IsShot(w, e, g), IsHit(w, e, g))
  {
    match e
    case Connect =>
    case Drop(s) => DropFiresNone(w, s);
    case Message(s, request) =>
      if request.Auth? {
        AuthFiresNone(w, s, request.nickname, request.guid, request.newGuid, request.found);
      } else if PlayerOf(w, s).Some? && PlayerOf(w, s).value in w.roster {
        MessageCounts(w, s, PlayerOf(w, s).value, request, g);
      }
  }

  lemma MessageCounts(w: World, s: SessionId, p: Guid, request: Request, g: Guid)
    requires Sound(w) && Possible(w, Message(s, request)) && Speaker(w, s, p) && !request.Auth?
    ensures var e := Message(s, request);
      ShotsOf(Next(w, e).roster, g) == Plus(ShotsOf(w.roster, g), IsShot(w, e, g), IsHit(w, e, g))
  {
    if request.ShootAt? {
      ShotIsCounted(w, s, p, request.coords);
      if request.coords.Some? && CanHit(w, p, request.coords.value) {
        RecordedShots(w, p, request.coords.value, Next(w, Message(s, request)), g);
      }
    } else {
      AnswerFiresNone(w, p, request);
    }
  }

  // After every run, each player's shots fired and shots hit are the accepted shots that the player's
  // messages have fired in the run, and those of them that met a ship.
  lemma {:induction false} ShotsAreCounted(run: seq<Event>, g: Guid)
    requires LegalRun(EMPTY_WORLD, run)
    ensures ShotsOf(After(EMPTY_WORLD, run).roster, g) == ShotsIn(run, g)
    decreases |run|
  {
    if run != [] {
      ShotsAreCounted(run[..|run| - 1], g);
      ServerSteps.RunIsSound(run[..|run| - 1]);
      StepCounts(After(EMPTY_WORLD, run[..|run| - 1]), run[|run| - 1], g);
    }
  }
}
