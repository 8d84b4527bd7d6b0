/** What the scattered maps of the server agree on: always, and as long as no removed session speaks
    out of turn. */
module ServerInvariant {
  import opened Ids
  import opened Options
  import opened Players
  import opened GameArchive
  import opened Sessions
  import opened MatchState
  import opened ServerState
  import Invites
  import Matchmaking

  // The player of a session, registered or removed.
  predicate SpeaksFor(sessions: Connected, s: SessionId, g: Guid) {
    s in sessions && sessions[s] == Some(g)
  }

  // A registered session with a player is the one that the player is bound to, a player is bound to a
  // session that speaks for them, and offline means unbound.
  ghost predicate SessionsAgree(r: Roster, sessions: Connected, closed: Connected, bound: Bound, next: SessionId) {
    && "" !in r
    && (forall s :: s in sessions ==> s < next)
    && (forall s :: s in closed ==> s < next && s !in sessions)
    && (forall s :: s in closed && closed[s].Some? ==> closed[s].value in r)
    && (forall s :: s in sessions && sessions[s].Some? ==> sessions[s].value in bound && bound[sessions[s].value] == s)
    && (forall g :: g in bound ==> g in r && (SpeaksFor(sessions, bound[g], g) || SpeaksFor(closed, bound[g], g)))
    && (forall g {:trigger r[g]} :: g in r ==> (r[g].status == Offline <==> g !in bound))
    && (forall g {:trigger r[g]} :: g in r ==> r[g].session == if g in bound then Some(bound[g]) else None)
  }

  predicate Playing(a: Archive, g: Guid) {
    g in a.index && a.index[g] in a.games && a.games[a.index[g]].phase != Finished
  }

  // In a game means: the index leads to an unfinished game, which is also the current game.
  ghost predicate StatusesAgree(r: Roster, a: Archive) {
    forall g {:trigger r[g]} :: g in r ==>
      && (r[g].status == InGame <==> Playing(a, g))
      && r[g].game == if Playing(a, g) then Some(a.index[g]) else None
  }

  ghost predicate GamesSound(games: Games) {
    forall id :: id in games ==> MatchState.Inv(games[id])
  }

  ghost predicate PlayersKnown(r: Roster, games: Games) {
    forall id :: id in games ==> games[id].one.guid in r && games[id].two.guid in r
  }

  // Every unfinished game is found by both its players.
  ghost predicate IndexAgrees(a: Archive) {
    IndexSound(a) && IndexComplete(a)
  }

  ghost predicate QueueAgrees(r: Roster, queue: seq<Guid>) {
    && Matchmaking.Distinct(queue)
    && forall g :: g in queue ==> Matchmaking.CanPlay(r, g)
  }

  ghost predicate InvitesAgree(r: Roster, invites: Invites.Store) {
    forall id :: id in invites ==> invites[id].id == id && invites[id].from in r && invites[id].to in r
  }

  // Holds in every world the server can get into.
  ghost predicate Sound(w: World) {
    && SessionsAgree(w.roster, w.sessions, w.closed, w.bound, w.nextSession)
    && StatusesAgree(w.roster, w.archive)
    && GamesSound(w.archive.games) && PlayersKnown(w.roster, w.archive.games)
    && IndexAgrees(w.archive)
    && QueueAgrees(w.roster, w.queue)
    && InvitesAgree(w.roster, w.invites)
  }

  // Players are bound to registered sessions, and invites name such players.
  ghost predicate AllConnected(sessions: Connected, bound: Bound, invites: Invites.Store) {
    && (forall g :: g in bound ==> bound[g] in sessions)
    && forall id :: id in invites ==> invites[id].from in bound && invites[id].to in bound
  }

  // Holds as long as no removed session strands a player or an invite.
  ghost predicate Agree(w: World) {
    Sound(w) && AllConnected(w.sessions, w.bound, w.invites)
  }

  // Nobody is in two unfinished games.
  lemma OneGameAtATime(w: World, a: GameId, b: GameId, g: Guid)
    requires Sound(w) && a in w.archive.games && b in w.archive.games
    requires w.archive.games[a].phase != Finished && w.archive.games[b].phase != Finished
    requires IsPlayer(w.archive.games[a], g) && IsPlayer(w.archive.games[b], g)
    ensures a == b
  {
    assert GameOf(w.archive, g) == Some(a);
  }

  // ----- Rosters that differ only inside a connected player

  // The two rosters have the same players with the same bindings; who was offline still is.
  ghost predicate SameBindings(r: Roster, n: Roster) {
    && n.Keys == r.Keys
    && forall g :: g in r ==> n[g].session == r[g].session && (n[g].status == Offline <==> r[g].status == Offline)
  }

  lemma SessionsCarryOver(r: Roster, n: Roster, sessions: Connected, closed: Connected, bound: Bound, next: SessionId)
    requires SessionsAgree(r, sessions, closed, bound, next) && SameBindings(r, n)
    ensures SessionsAgree(n, sessions, closed, bound, next)
  {
    assert forall g :: g in n <==> g in r;
  }

  lemma QueueCarriesOver(r: Roster, n: Roster, queue: seq<Guid>)
    requires QueueAgrees(r, queue) && forall g :: g in queue ==> g in n && n[g].status == Online
    ensures QueueAgrees(n, queue)
  {
  }

  lemma KnownInGame(r: Roster, n: Roster, games: Games, id: GameId, m: Match)
    requires PlayersKnown(r, games) && r.Keys <= n.Keys && m.one.guid in n && m.two.guid in n
    ensures PlayersKnown(n, games[id := m])
  {
  }

  // ----- The index through the life of a game

  lemma IndexAfterStart(a: Archive, id: GameId, m: Match)
    requires IndexAgrees(a) && id !in a.games && m.phase == Placing
    requires !Playing(a, m.one.guid) && !Playing(a, m.two.guid)
    ensures var b := AddGame(a, id, m);
      && IndexAgrees(b)
      && forall g :: if IsPlayer(m, g) then Playing(b, g) && b.index[g] == id
                     else (Playing(b, g) <==> Playing(a, g)) && (Playing(a, g) ==> b.index[g] == a.index[g])
  {
    var b := AddGame(a, id, m);
    forall x | x in b.games && b.games[x].phase != Finished
      ensures GameOf(b, b.games[x].one.guid) == Some(x) && GameOf(b, b.games[x].two.guid) == Some(x)
    {
      if x != id {
        assert GameOf(a, a.games[x].one.guid) == Some(x) && GameOf(a, a.games[x].two.guid) == Some(x);
        assert Playing(a, a.games[x].one.guid) && Playing(a, a.games[x].two.guid);
      }
    }
  }

  // An unfinished game is replaced by a later state of itself.
  lemma IndexAfterReplace(a: Archive, id: GameId, m: Match)
    requires IndexAgrees(a) && id in a.games && a.games[id].phase != Finished
    requires m.one.guid == a.games[id].one.guid && m.two.guid == a.games[id].two.guid
    ensures var b := a.(games := a.games[id := m]);
      && IndexAgrees(b)
      && forall g :: Playing(b, g) <==> Playing(a, g) && !(m.phase == Finished && IsPlayer(m, g))
  {
    var b := a.(games := a.games[id := m]);
    assert GameOf(a, m.one.guid) == Some(id) && GameOf(a, m.two.guid) == Some(id);
    forall g ensures Playing(b, g) <==> Playing(a, g) && !(m.phase == Finished && IsPlayer(m, g)) {
      assert g in a.index && a.index[g] == id ==> IsPlayer(a.games[id], g);
    }
    forall x | x in b.games && b.games[x].phase != Finished
      ensures GameOf(b, b.games[x].one.guid) == Some(x) && GameOf(b, b.games[x].two.guid) == Some(x)
    {
      assert GameOf(a, a.games[x].one.guid) == Some(x) && GameOf(a, a.games[x].two.guid) == Some(x);
    }
  }

  // ----- Starting a game

  lemma StatusesAfterStart(r: Roster, a: Archive, id: GameId, m: Match, n: Roster)
    requires StatusesAgree(r, a) && IndexAgrees(a) && id !in a.games && m.phase == Placing
    requires !Playing(a, m.one.guid) && !Playing(a, m.two.guid) && n.Keys == r.Keys
    requires forall g :: g in n ==> n[g] == if IsPlayer(m, g) then Entered(r[g], id) else r[g]
    ensures StatusesAgree(n, AddGame(a, id, m))
  {
    var b := AddGame(a, id, m);
    IndexAfterStart(a, id, m);
    forall g | g in n
      ensures (n[g].status == InGame <==> Playing(b, g)) && n[g].game == if Playing(b, g) then Some(b.index[g]) else None
    {
      assert g in r;
    }
  }

  lemma GamesStaySound(games: Games, id: GameId, m: Match)
    requires GamesSound(games) && MatchState.Inv(m)
    ensures GamesSound(games[id := m])
  {
  }

  lemma NewGameIsSound(games: Games, id: GameId, one: Guid, two: Guid, first: Guid)
    requires GamesSound(games) && (first == one || first == two)
    ensures GamesSound(games[id := NewMatch(one, two, first)])
  {
    NewIsInv(one, two, first);
    GamesStaySound(games, id, NewMatch(one, two, first));
  }

  lemma NotPlaying(w: World, g: Guid)
    requires StatusesAgree(w.roster, w.archive) && Matchmaking.CanPlay(w.roster, g)
    ensures !Playing(w.archive, g)
  {
  }

  // The roster after two players have entered a game.
  lemma EnteredRoster(r: Roster, one: Guid, two: Guid, id: GameId)
    requires Matchmaking.CanPlay(r, one) && Matchmaking.CanPlay(r, two)
    ensures var r1 := r[one := Entered(r[one], id)];
      var n := r1[two := Entered(r1[two], id)];
      && n.Keys == r.Keys && SameBindings(r, n)
      && forall g :: g in n ==> n[g] == if g == one || g == two then Entered(r[g], id) else r[g]
  {
  }

  lemma StartGameKeepsSound(w: World, one: Guid, two: Guid, t: Ticket)
    requires Sound(w) && Matchmaking.CanPlay(w.roster, one) && Matchmaking.CanPlay(w.roster, two)
    requires one !in w.queue && two !in w.queue && t.id !in w.archive.games
    ensures Sound(StartGame(w, one, two, t))
  {
    var n, m := StartGame(w, one, two, t), NewMatch(one, two, if t.firstStarts then one else two);
    NotPlaying(w, one);
    NotPlaying(w, two);
    EnteredRoster(w.roster, one, two, t.id);
    NewGameIsSound(w.archive.games, t.id, one, two, m.turn);
    IndexAfterStart(w.archive, t.id, m);
    StatusesAfterStart(w.roster, w.archive, t.id, m, n.roster);
    SessionsCarryOver(w.roster, n.roster, w.sessions, w.closed, w.bound, w.nextSession);
    QueueCarriesOver(w.roster, n.roster, w.queue);
    KnownInGame(w.roster, n.roster, w.archive.games, t.id, m);
  }

  // ----- Ending a game

  lemma StatusesAfterGameOver(r: Roster, a: Archive, id: GameId, m: Match, n: Roster)
    requires StatusesAgree(r, a) && IndexAgrees(a) && id in a.games && a.games[id].phase != Finished
    requires m.phase == Finished && m.one.guid == a.games[id].one.guid && m.two.guid == a.games[id].two.guid
    requires n.Keys == r.Keys
    requires forall g :: g in n ==> if IsPlayer(m, g) then n[g].status == Online && n[g].game == None else n[g] == r[g]
    ensures StatusesAgree(n, a.(games := a.games[id := m]))
  {
    var b := a.(games := a.games[id := m]);
    IndexAfterReplace(a, id, m);
    forall g | g in n
      ensures (n[g].status == InGame <==> Playing(b, g)) && n[g].game == if Playing(b, g) then Some(b.index[g]) else None
    {
      assert g in r;
    }
  }

  // What the notification does to the roster.
  lemma NotifiedRoster(r: Roster, m: Match)
    requires m.winner.Some? && IsPlayer(m, m.winner.value) && m.one.guid in r && m.two.guid in r
    ensures var n := Notified(r, m);
      && n.Keys == r.Keys
      && forall g :: g in n ==>
           n[g].session == r[g].session &&
           if IsPlayer(m, g) then n[g].status == Online && n[g].game == None else n[g] == r[g]
  {
  }

  lemma NotifiedKeepsLobby(w: World, m: Match, n: Roster)
    requires SessionsAgree(w.roster, w.sessions, w.closed, w.bound, w.nextSession) && QueueAgrees(w.roster, w.queue)
    requires n.Keys == w.roster.Keys
    requires forall g :: g in n ==>
      n[g].session == w.roster[g].session &&
      if IsPlayer(m, g) then n[g].status == Online && w.roster[g].status == InGame else n[g] == w.roster[g]
    ensures SessionsAgree(n, w.sessions, w.closed, w.bound, w.nextSession) && QueueAgrees(n, w.queue)
  {
    assert SameBindings(w.roster, n);
    SessionsCarryOver(w.roster, n, w.sessions, w.closed, w.bound, w.nextSession);
    QueueCarriesOver(w.roster, n, w.queue);
  }

  lemma GameOverLobby(w: World, m: Match)
    requires SessionsAgree(w.roster, w.sessions, w.closed, w.bound, w.nextSession) && QueueAgrees(w.roster, w.queue)
    requires m.winner.Some? && IsPlayer(m, m.winner.value)
    requires m.one.guid in w.roster && w.roster[m.one.guid].status == InGame
    requires m.two.guid in w.roster && w.roster[m.two.guid].status == InGame
    ensures SessionsAgree(Notified(w.roster, m), w.sessions, w.closed, w.bound, w.nextSession)
    ensures QueueAgrees(Notified(w.roster, m), w.queue)
  {
    NotifiedRoster(w.roster, m);
    NotifiedKeepsLobby(w, m, Notified(w.roster, m));
  }

  lemma GameOverGames(r: Roster, a: Archive, id: GameId, m: Match)
    requires StatusesAgree(r, a) && IndexAgrees(a) && PlayersKnown(r, a.games)
    requires id in a.games && a.games[id].phase != Finished
    requires m.phase == Finished && m.winner.Some? && IsPlayer(m, m.winner.value)
    requires m.one.guid == a.games[id].one.guid && m.two.guid == a.games[id].two.guid
    ensures var b := a.(games := a.games[id := m]);
      StatusesAgree(Notified(r, m), b) && IndexAgrees(b) && PlayersKnown(Notified(r, m), b.games)
  {
    NotifiedRoster(r, m);
    IndexAfterReplace(a, id, m);
    StatusesAfterGameOver(r, a, id, m, Notified(r, m));
    KnownInGame(r, Notified(r, m), a.games, id, m);
  }

  lemma BothInGame(w: World, id: GameId)
    requires Sound(w) && id in w.archive.games && w.archive.games[id].phase != Finished
    ensures var m := w.archive.games[id];
      && m.one.guid in w.roster && m.two.guid in w.roster
      && w.roster[m.one.guid].status == InGame && w.roster[m.two.guid].status == InGame
      && m.one.guid !in w.queue && m.two.guid !in w.queue
  {
    var m := w.archive.games[id];
    assert GameOf(w.archive, m.one.guid) == Some(id) && GameOf(w.archive, m.two.guid) == Some(id);
    assert Playing(w.archive, m.one.guid) && Playing(w.archive, m.two.guid);
  }

  lemma GameOverInvites(w: World, m: Match)
    requires InvitesAgree(w.roster, w.invites)
    ensures InvitesAgree(Notified(w.roster, m), w.invites)
  {
    assert w.roster.Keys <= Notified(w.roster, m).Keys;
  }

  lemma GameOverKeepsSound(w: World, id: GameId, m: Match)
    requires Sound(w) && id in w.archive.games && w.archive.games[id].phase != Finished
    requires GamesSound(w.archive.games[id := m])
    requires m.phase == Finished && m.winner.Some? && IsPlayer(m, m.winner.value)
    requires m.one.guid == w.archive.games[id].one.guid && m.two.guid == w.archive.games[id].two.guid
    ensures Sound(NotifyGameOver(SetGame(w, id, m), m))
  {
    BothInGame(w, id);
    GameOverLobby(w, m);
    GameOverInvites(w, m);
    GameOverGames(w.roster, w.archive, id, m);
  }
}
