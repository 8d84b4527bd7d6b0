/** Every request, connection and disconnection keeps the agreement of the server's maps. */
module ServerSteps {
  import opened Bytes
  import opened Ids
  import opened Options
  import opened Players
  import opened GameArchive
  import opened Sessions
  import opened MatchState
  import opened ServerState
  import opened ServerInvariant
  import opened Geometry
  import opened SeaState
  import Invites
  import Matchmaking

  // ----- Lobby

  lemma CancelSearchKeepsSound(w: World, g: Guid)
    requires Sound(w)
    ensures Sound(HandleCancelSearch(w, g)) && g !in HandleCancelSearch(w, g).queue
  {
    Matchmaking.RemoveMembers(w.queue, g);
    assert QueueAgrees(w.roster, Matchmaking.Remove(w.queue, g));
  }

  lemma FreshForTheRest(a: Archive, tickets: seq<Ticket>, b: Archive)
    requires tickets != [] && FreshTickets(a, tickets) && b.games.Keys == a.games.Keys + {tickets[0].id}
    ensures FreshTickets(b, tickets[1..])
  {
    forall i | 0 <= i < |tickets[1..]| ensures tickets[1..][i].id !in b.games {
      assert tickets[1..][i] == tickets[i + 1];
    }
  }

  lemma RequeueKeepsSound(w: World, queue: seq<Guid>)
    requires Sound(w) && QueueAgrees(w.roster, queue)
    ensures Sound(w.(queue := queue))
  {
  }

  lemma TryMatchKeepsSound(w: World)
    requires Sound(w)
    ensures Sound(w.(queue := Matchmaking.TryMatch(w.queue, w.roster).0))
  {
    var queue := Matchmaking.TryMatch(w.queue, w.roster).0;
    Matchmaking.TryMatchKeepsDistinct(w.queue, w.roster);
    assert QueueAgrees(w.roster, queue);
    RequeueKeepsSound(w, queue);
  }

  // One match: a game for the pair, and the other tickets for the rest.
  lemma MatchKeepsSound(w: World, queue: seq<Guid>, pair: (Guid, Guid), tickets: seq<Ticket>)
    requires Sound(w) && tickets != [] && FreshTickets(w.archive, tickets)
    requires Matchmaking.TryMatch(w.queue, w.roster) == (queue, Some(pair))
    ensures var n := StartGame(w.(queue := queue), pair.0, pair.1, tickets[0]);
      Sound(n) && FreshTickets(n.archive, tickets[1..])
  {
    Matchmaking.TryMatchKeepsDistinct(w.queue, w.roster);
    TryMatchKeepsSound(w);
    StartGameKeepsSound(w.(queue := queue), pair.0, pair.1, tickets[0]);
    FreshForTheRest(w.archive, tickets, StartGame(w.(queue := queue), pair.0, pair.1, tickets[0]).archive);
  }

  lemma {:induction false} CheckMatchmakingKeepsSound(w: World, tickets: seq<Ticket>)
    requires Sound(w) && FreshTickets(w.archive, tickets) && EnoughTickets(w, tickets)
    ensures Sound(CheckMatchmaking(w, tickets))
    decreases |tickets|
  {
    var (queue, pair) := Matchmaking.TryMatch(w.queue, w.roster);
    if pair.Some? {
      MatchKeepsSound(w, queue, pair.value, tickets);
      CheckMatchmakingKeepsSound(StartGame(w.(queue := queue), pair.value.0, pair.value.1, tickets[0]), tickets[1..]);
    } else {
      TryMatchKeepsSound(w);
    }
  }

  lemma FindGameKeepsSound(w: World, g: Guid, tickets: seq<Ticket>)
    requires Sound(w) && g in w.roster && FreshTickets(w.archive, tickets) && |w.queue| <= 2 * |tickets|
    ensures Sound(HandleFindGame(w, g, tickets))
  {
    if w.roster[g].status != InGame {
      assert QueueAgrees(w.roster, Queued(w, g).queue);
      CheckMatchmakingKeepsSound(Queued(w, g), tickets);
    }
  }

  lemma InviteKeepsSound(w: World, g: Guid, target: Option<Guid>, newId: InviteId, now: int)
    requires Sound(w) && g in w.roster
    ensures Sound(HandleInvite(w, g, target, newId, now))
  {
    var n := HandleInvite(w, g, target, newId, now);
    if n != w {
      assert InvitesAgree(w.roster, n.invites);
    }
  }

  lemma InviteResponseKeepsSound(w: World, g: Guid, id: Option<InviteId>, accepted: Option<bool>, t: Ticket, now: int)
    requires Sound(w) && g in w.roster && t.id !in w.archive.games
    ensures Sound(HandleInviteResponse(w, g, id, accepted, t, now))
  {
    if id.Some? && accepted.Some? && Invites.Get(w.invites, id.value, now).Some? {
      var from := Invites.Get(w.invites, id.value, now).value.from;
      var gone := w.(invites := w.invites - {id.value});
      assert InvitesAgree(w.roster, gone.invites);
      if accepted.value && Matchmaking.CanPlay(w.roster, from) && Matchmaking.CanPlay(w.roster, g) {
        CancelSearchKeepsSound(gone, from);
        var left := HandleCancelSearch(gone, from);
        CancelSearchKeepsSound(left, g);
        Matchmaking.RemoveMembers(left.queue, g);
        StartGameKeepsSound(HandleCancelSearch(left, g), from, g, t);
      }
    }
  }

  // ----- Games

  lemma StatusesAfterReplace(r: Roster, a: Archive, id: GameId, m: Match)
    requires StatusesAgree(r, a) && IndexAgrees(a) && id in a.games && a.games[id].phase != Finished
    requires m.phase != Finished && m.one.guid == a.games[id].one.guid && m.two.guid == a.games[id].two.guid
    ensures StatusesAgree(r, a.(games := a.games[id := m]))
  {
    IndexAfterReplace(a, id, m);
  }

  // A game goes on.
  lemma GoOnKeepsSound(w: World, id: GameId, m: Match)
    requires Sound(w) && id in w.archive.games && w.archive.games[id].phase != Finished
    requires GamesSound(w.archive.games[id := m]) && m.phase != Finished
    requires m.one.guid == w.archive.games[id].one.guid && m.two.guid == w.archive.games[id].two.guid
    ensures Sound(SetGame(w, id, m))
  {
    IndexAfterReplace(w.archive, id, m);
    StatusesAfterReplace(w.roster, w.archive, id, m);
    BothInGame(w, id);
    KnownInGame(w.roster, w.roster, w.archive.games, id, m);
  }

  lemma PlaceKeepsShape(m: Match, g: Guid, ships: seq<Placement>)
    ensures var p := MatchState.PlaceShips(m, g, ships).0;
      p.phase == m.phase && p.one.guid == m.one.guid && p.two.guid == m.two.guid
  {
  }

  // Steps of a game, carried over from the game's own invariant.
  lemma PlacedIsSound(games: Games, id: GameId, g: Guid, ships: seq<Placement>)
    requires GamesSound(games) && id in games && games[id].phase == Placing
    ensures var m := PlaceAndStart(games[id], g, ships);
      GamesSound(games[id := m]) && m.phase != Finished && m.one.guid == games[id].one.guid && m.two.guid == games[id].two.guid
  {
    PlaceKeepsInv(games[id], g, ships);
    PlaceKeepsShape(games[id], g, ships);
    StartKeepsInv(MatchState.PlaceShips(games[id], g, ships).0);
    GamesStaySound(games, id, PlaceAndStart(games[id], g, ships));
  }

  lemma ShotIsSound(games: Games, id: GameId, g: Guid, x: int, y: int)
    requires GamesSound(games) && id in games
    ensures var (m, info) := Shoot(games[id], g, x, y);
      && GamesSound(games[id := m])
      && m.one.guid == games[id].one.guid && m.two.guid == games[id].two.guid
      && (m.phase == Finished ==> m.winner.Some? && IsPlayer(m, m.winner.value))
      && (!Accepted(info.result) ==> m.phase == games[id].phase)
  {
    ShootKeepsInv(games[id], g, x, y);
    GamesStaySound(games, id, Shoot(games[id], g, x, y).0);
  }

  lemma GivenUpIsSound(games: Games, id: GameId, g: Guid, reason: Reason)
    requires GamesSound(games) && id in games && games[id].phase != Finished && reason in {Surrendered, Disconnected}
    ensures var m := GiveUp(games[id], g, reason);
      && GamesSound(games[id := m]) && m.phase == Finished
      && m.one.guid == games[id].one.guid && m.two.guid == games[id].two.guid
      && m.winner.Some? && IsPlayer(m, m.winner.value)
  {
    GiveUpKeepsInv(games[id], g, reason);
    GamesStaySound(games, id, GiveUp(games[id], g, reason));
  }

  lemma PlaceInKeepsSound(w: World, id: GameId, g: Guid, ships: seq<Placement>)
    requires Sound(w) && id in w.archive.games && w.archive.games[id].phase == Placing
    ensures Sound(SetGame(w, id, PlaceAndStart(w.archive.games[id], g, ships)))
  {
    PlacedIsSound(w.archive.games, id, g, ships);
    GoOnKeepsSound(w, id, PlaceAndStart(w.archive.games[id], g, ships));
  }

  lemma PlaceShipsCases(w: World, g: Guid, ships: Option<seq<Placement>>)
    ensures var id := GameOf(w.archive, g);
      HandlePlaceShips(w, g, ships) ==
      if id.None? || w.archive.games[id.value].phase != Placing || ExtractShips(ships).None? then w
      else SetGame(w, id.value, PlaceAndStart(w.archive.games[id.value], g, ships.value))
  {
  }

  lemma PlaceShipsKeepsSound(w: World, g: Guid, ships: Option<seq<Placement>>)
    requires Sound(w)
    ensures Sound(HandlePlaceShips(w, g, ships))
  {
    PlaceShipsCases(w, g, ships);
    var id := GameOf(w.archive, g);
    if id.Some? && w.archive.games[id.value].phase == Placing && ExtractShips(ships).Some? {
      PlaceInKeepsSound(w, id.value, g, ships.value);
    }
  }

  // Only statistics of one player change.
  lemma StatsOnlyKeepsSound(w: World, g: Guid, p: Player)
    requires Sound(w) && g in w.roster && p == w.roster[g].(stats := p.stats)
    ensures Sound(w.(roster := w.roster[g := p]))
  {
    var n := w.roster[g := p];
    SessionsCarryOver(w.roster, n, w.sessions, w.closed, w.bound, w.nextSession);
    QueueCarriesOver(w.roster, n, w.queue);
    assert StatusesAgree(n, w.archive);
  }

  lemma AcceptedShotKeepsSound(w: World, g: Guid, id: GameId, m: Match, result: ShotResult)
    requires Sound(w) && g in w.roster && id in w.archive.games && w.archive.games[id].phase != Finished
    requires GamesSound(w.archive.games[id := m])
    requires m.one.guid == w.archive.games[id].one.guid && m.two.guid == w.archive.games[id].two.guid
    requires m.phase == Finished ==> m.winner.Some? && IsPlayer(m, m.winner.value)
    requires Accepted(result)
    ensures Sound(SetGame(w, id, m).(roster := Recorded(w.roster, g, m, result)))
  {
    var p := WithShot(w.roster[g], result != ShotResult.Miss);
    StatsOnlyKeepsSound(w, g, p);
    var counted := w.(roster := w.roster[g := p]);
    if m.phase == Finished {
      GameOverKeepsSound(counted, id, m);
    } else {
      GoOnKeepsSound(counted, id, m);
    }
  }

  lemma ShotInKeepsSound(w: World, id: GameId, g: Guid, c: Cell)
    requires Sound(w) && g in w.roster && id in w.archive.games && w.archive.games[id].phase == Battle
    ensures Sound(ShotIn(w, id, g, c))
  {
    var (m, info) := Shoot(w.archive.games[id], g, c.x, c.y);
    ShotIsSound(w.archive.games, id, g, c.x, c.y);
    if Accepted(info.result) {
      AcceptedShotKeepsSound(w, g, id, m, info.result);
    } else {
      GoOnKeepsSound(w, id, m);
    }
  }

  lemma ShootKeepsSound(w: World, g: Guid, coords: Option<Cell>)
    requires Sound(w) && g in w.roster
    ensures Sound(HandleShoot(w, g, coords))
  {
    var id := GameOf(w.archive, g);
    if id.Some? && w.archive.games[id.value].phase == Battle && coords.Some? {
      ShotInKeepsSound(w, id.value, g, coords.value);
    }
  }

  lemma GivenUpKeepsSound(w: World, id: GameId, g: Guid, reason: Reason)
    requires Sound(w) && reason in {Surrendered, Disconnected}
    requires id in w.archive.games && w.archive.games[id].phase != Finished
    ensures var m := GiveUp(w.archive.games[id], g, reason);
      m.phase == Finished && Sound(NotifyGameOver(SetGame(w, id, m), m))
  {
    GivenUpIsSound(w.archive.games, id, g, reason);
    GameOverKeepsSound(w, id, GiveUp(w.archive.games[id], g, reason));
  }

  lemma EndGameCases(w: World, g: Guid, reason: Reason)
    ensures var id := GameOf(w.archive, g);
      EndGame(w, g, reason) ==
      if id.None? || w.archive.games[id.value].phase == Finished then w
      else var m := GiveUp(w.archive.games[id.value], g, reason); NotifyGameOver(SetGame(w, id.value, m), m)
  {
  }

  lemma EndGameKeepsSound(w: World, g: Guid, reason: Reason)
    requires Sound(w) && reason in {Surrendered, Disconnected}
    ensures Sound(EndGame(w, g, reason))
  {
    EndGameCases(w, g, reason);
    var id := GameOf(w.archive, g);
    if id.Some? && w.archive.games[id.value].phase != Finished {
      GivenUpKeepsSound(w, id.value, g, reason);
    }
  }

  lemma EndGameEndsPlaying(w: World, g: Guid, reason: Reason)
    ensures !Playing(EndGame(w, g, reason).archive, g)
  {
  }

  // ----- Sessions

  lemma ConnectKeepsSound(w: World)
    requires Sound(w)
    ensures Sound(HandleConnect(w))
  {
  }

  // Ending a game neither reads nor writes sessions and lobby.
  lemma EndGameFrame(w: World, g: Guid, reason: Reason, sessions: Connected, closed: Connected, bound: Bound)
    ensures var n := EndGame(w, g, reason);
      && n.sessions == w.sessions && n.closed == w.closed && n.bound == w.bound && n.queue == w.queue && n.invites == w.invites
      && n.nextSession == w.nextSession && n.roster.Keys == w.roster.Keys
      && EndGame(w.(sessions := sessions, closed := closed, bound := bound), g, reason)
         == n.(sessions := sessions, closed := closed, bound := bound)
  {
  }

  // A player who is in no queue and in no game can go offline.
  lemma UnbindKeepsSound(w: World, s: SessionId, g: Guid)
    requires Sound(w) && SpeaksFor(w.sessions, s, g)
    requires g !in w.queue && !Playing(w.archive, g)
    ensures Sound(w.(sessions := w.sessions - {s}, closed := w.closed[s := Some(g)], bound := w.bound - {g},
                     roster := w.roster[g := Gone(w.roster[g])]))
  {
    var n := w.roster[g := Gone(w.roster[g])];
    assert w.bound[g] == s;
    assert SessionsAgree(n, w.sessions - {s}, w.closed[s := Some(g)], w.bound - {g}, w.nextSession);
    assert StatusesAgree(n, w.archive);
    assert QueueAgrees(n, w.queue);
  }

  // The disconnected player has left queue and invites.
  function LeftLobby(w: World, g: Guid): World {
    w.(queue := Matchmaking.Remove(w.queue, g), invites := Invites.RemoveFor(w.invites, g))
  }

  lemma DropCases(w: World, s: SessionId, g: Guid)
    requires SpeaksFor(w.sessions, s, g) && g != "" && g in w.roster
    ensures var ended := EndGame(LeftLobby(w, g), g, Disconnected);
      && g in ended.roster
      && HandleDrop(w, s) == ended.(sessions := w.sessions - {s}, closed := w.closed[s := Some(g)],
                                    bound := w.bound - {g}, roster := ended.roster[g := Gone(ended.roster[g])])
  {
    EndGameFrame(LeftLobby(w, g), g, Disconnected, w.sessions - {s}, w.closed[s := Some(g)], w.bound - {g});
  }

  lemma LeaveKeepsSound(w: World, g: Guid)
    requires Sound(w)
    ensures Sound(LeftLobby(w, g)) && g !in LeftLobby(w, g).queue
  {
    CancelSearchKeepsSound(w, g);
    assert InvitesAgree(w.roster, LeftLobby(w, g).invites);
  }

  lemma SilentDropKeepsSound(w: World, s: SessionId)
    requires Sound(w) && s in w.sessions && w.sessions[s].None?
    ensures Sound(HandleDrop(w, s))
  {
    assert SessionsAgree(w.roster, w.sessions - {s}, w.closed[s := None], w.bound, w.nextSession);
  }

  lemma DropKeepsSound(w: World, s: SessionId)
    requires Sound(w)
    ensures Sound(HandleDrop(w, s))
  {
    if s in w.sessions && w.sessions[s].Some? {
      var g := w.sessions[s].value;
      var left := LeftLobby(w, g);
      LeaveKeepsSound(w, g);
      EndGameKeepsSound(left, g, Disconnected);
      EndGameEndsPlaying(left, g, Disconnected);
      EndGameFrame(left, g, Disconnected, w.sessions, w.closed, w.bound);
      DropCases(w, s, g);
      UnbindKeepsSound(EndGame(left, g, Disconnected), s, g);
    } else if s in w.sessions {
      SilentDropKeepsSound(w, s);
    }
  }

  lemma RenameKeepsSound(w: World, g: Guid, nickname: seq<Byte>)
    requires Sound(w) && g in w.roster
    ensures Sound(w.(roster := w.roster[g := w.roster[g].(nickname := nickname)]))
  {
    var n := w.roster[g := w.roster[g].(nickname := nickname)];
    SessionsCarryOver(w.roster, n, w.sessions, w.closed, w.bound, w.nextSession);
    QueueCarriesOver(w.roster, n, w.queue);
    assert StatusesAgree(n, w.archive);
  }

  lemma NewPlayerKeepsSound(w: World, g: Guid, nickname: seq<Byte>)
    requires Sound(w) && g !in w.roster && g != ""
    ensures Sound(w.(roster := w.roster[g := NewPlayer(nickname)]))
  {
    var n := w.roster[g := NewPlayer(nickname)];
    assert !Playing(w.archive, g);
    assert SessionsAgree(n, w.sessions, w.closed, w.bound, w.nextSession);
    assert StatusesAgree(n, w.archive);
    QueueCarriesOver(w.roster, n, w.queue);
    assert PlayersKnown(n, w.archive.games);
  }

  // A session without a player is given one who is bound to none: a registered session, or a removed one.
  lemma SessionsAfterBind(r: Roster, sessions: Connected, closed: Connected, bound: Bound, next: SessionId,
                          s: SessionId, g: Guid, n: Roster)
    requires SessionsAgree(r, sessions, closed, bound, next) && g in r && g !in bound
    requires n == r[g := r[g].(session := Some(s), status := Online)]
    requires s in sessions && sessions[s].None?
    ensures SessionsAgree(n, sessions[s := Some(g)], closed, bound[g := s], next)
  {
    assert forall h :: h in bound ==> SpeaksFor(sessions, bound[h], h) || SpeaksFor(closed, bound[h], h);
  }

  lemma SessionsAfterLateBind(r: Roster, sessions: Connected, closed: Connected, bound: Bound, next: SessionId,
                              s: SessionId, g: Guid, n: Roster)
    requires SessionsAgree(r, sessions, closed, bound, next) && g in r && g !in bound
    requires n == r[g := r[g].(session := Some(s), status := Online)]
    requires s in closed && closed[s].None?
    ensures SessionsAgree(n, sessions, closed[s := Some(g)], bound[g := s], next)
  {
    assert forall h :: h in bound ==> SpeaksFor(sessions, bound[h], h) || SpeaksFor(closed, bound[h], h);
  }

  lemma BindKeepsSound(w: World, s: SessionId, g: Guid)
    requires Sound(w) && Speaks(w, s) && PlayerOf(w, s).None? && g in w.roster && !IsOnline(w.roster[g])
    ensures Sound(SetPlayer(w, s, g).(bound := w.bound[g := s],
                                      roster := w.roster[g := w.roster[g].(session := Some(s), status := Online)]))
  {
    var n := w.roster[g := w.roster[g].(session := Some(s), status := Online)];
    assert g !in w.bound && !Playing(w.archive, g);
    if s in w.sessions {
      SessionsAfterBind(w.roster, w.sessions, w.closed, w.bound, w.nextSession, s, g, n);
    } else {
      SessionsAfterLateBind(w.roster, w.sessions, w.closed, w.bound, w.nextSession, s, g, n);
    }
    assert StatusesAgree(n, w.archive);
    QueueCarriesOver(w.roster, n, w.queue);
  }

  // The roster of an authorisation that gets as far as a player: renamed, new, or as it was.
  lemma IdentifyKeepsSound(w: World, nickname: seq<Byte>, guid: Option<Guid>, newGuid: Guid, found: Guid)
    requires Sound(w) && newGuid !in w.roster && newGuid != ""
    ensures var who := Identify(w.roster, nickname, guid, newGuid, found);
      who.Some? ==> who.value.0 in who.value.1 && who.value.0 != "" && Sound(w.(roster := who.value.1))
  {
    if guid.Some? && guid.value != "" && guid.value in w.roster {
      RenameKeepsSound(w, guid.value, nickname);
    } else if !Named(w.roster, nickname) {
      NewPlayerKeepsSound(w, newGuid, nickname);
    } else {
      assert w.(roster := w.roster) == w;
    }
  }

  // Nobody is online on a session that has no player.
  lemma NotOnSilentSession(w: World, s: SessionId, g: Guid)
    requires Sound(w) && Speaks(w, s) && PlayerOf(w, s).None? && g in w.roster
    ensures w.roster[g].session != Some(s)
  {
  }

  lemma LogInKeepsSound(w: World, s: SessionId, g: Guid)
    requires Sound(w) && Speaks(w, s) && PlayerOf(w, s).None? && g in w.roster
    ensures Sound(LogIn(w, s, g))
  {
    NotOnSilentSession(w, s, g);
    if !IsOnline(w.roster[g]) {
      BindKeepsSound(w, s, g);
    }
  }

  lemma AuthKeepsSound(w: World, s: SessionId, nickname: Option<seq<Byte>>, guid: Option<Guid>, newGuid: Guid, found: Guid)
    requires Sound(w) && Speaks(w, s) && newGuid !in w.roster && newGuid != ""
    ensures Sound(HandleAuth(w, s, nickname, guid, newGuid, found))
  {
    if PlayerOf(w, s).None? && nickname.Some? {
      var who := Identify(w.roster, nickname.value, guid, newGuid, found);
      IdentifyKeepsSound(w, nickname.value, guid, newGuid, found);
      if who.Some? {
        LogInKeepsSound(w.(roster := who.value.1), s, who.value.0);
      }
    }
  }

  // ----- All steps, all runs

  lemma AnswerKeepsSound(w: World, s: SessionId, g: Guid, request: Request)
    requires Sound(w) && g in w.roster && !request.Auth? && Possible(w, Message(s, request))
    ensures Sound(Answer(w, g, request))
  {
    match request
    case FindGame(tickets) => FindGameKeepsSound(w, g, tickets);
    case CancelSearch => CancelSearchKeepsSound(w, g);
    case Invite(target, newId, now) => InviteKeepsSound(w, g, target, newId, now);
    case InviteResponse(id, accepted, ticket, now) => InviteResponseKeepsSound(w, g, id, accepted, ticket, now);
    case PlaceShips(ships) => PlaceShipsKeepsSound(w, g, ships);
    case ShootAt(coords) => ShootKeepsSound(w, g, coords);
    case Surrender => EndGameKeepsSound(w, g, Surrendered);
  }

  lemma StepKeepsSound(w: World, e: Event)
    requires Sound(w) && Possible(w, e)
    ensures Sound(Next(w, e))
  {
    match e
    case Connect => ConnectKeepsSound(w);
    case Drop(s) => DropKeepsSound(w, s);
    case Message(s, request) =>
      if request.Auth? {
        AuthKeepsSound(w, s, request.nickname, request.guid, request.newGuid, request.found);
      } else if PlayerOf(w, s).Some? && PlayerOf(w, s).value in w.roster {
        AnswerKeepsSound(w, s, PlayerOf(w, s).value, request);
      }
  }

  // After every run, also one in which removed sessions still deliver messages.
  lemma {:induction false} RunIsSound(run: seq<Event>)
    requires LegalRun(EMPTY_WORLD, run)
    ensures Sound(After(EMPTY_WORLD, run))
    decreases |run|
  {
    if run != [] {
      RunIsSound(run[..|run| - 1]);
      StepKeepsSound(After(EMPTY_WORLD, run[..|run| - 1]), run[|run| - 1]);
    }
  }
}
