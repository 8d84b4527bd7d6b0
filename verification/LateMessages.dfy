/** Messages of sessions that have been removed. A session reads on until its socket is closed, and the
    handler never asks whether the session is still registered; here is exactly what that breaks. */
module LateMessages {
  import opened Bytes
  import opened Ids
  import opened Options
  import opened Players
  import opened GameArchive
  import opened MatchState
  import opened Geometry
  import opened ServerState
  import opened ServerInvariant
  import Invites
  import Matchmaking
  import ServerSteps
  import opened Histories

  // ----- The condition

  // The account that an authorisation is about is new or not in use.
  ghost predicate AccountIsFree(r: Roster, nickname: seq<Byte>, guid: Option<Guid>, found: Guid) {
    if guid.Some? && guid.value != "" && guid.value in r then !IsOnline(r[guid.value])
    else Named(r, nickname) ==> found in r && !IsOnline(r[found])
  }

  // An authorisation that passes every refusal.
  ghost predicate Admitted(w: World, s: SessionId, nickname: Option<seq<Byte>>, guid: Option<Guid>, found: Guid)
    requires Speaks(w, s)
  {
    && PlayerOf(w, s).None?
    && nickname.Some? && nickname.value != [] && ValidNickname(nickname.value)
    && AccountIsFree(w.roster, nickname.value, guid, found)
  }

  // An invite that is stored: to somebody Online, with no active invite of the pair.
  ghost predicate Stored(w: World, g: Guid, target: Option<Guid>, now: int) {
    && target.Some? && target.value != "" && Matchmaking.CanPlay(w.roster, target.value)
    && !Invites.HasActive(w.invites, g, target.value, now)
  }

  // A late authorisation that is admitted, or a late invite of an Offline player that is stored.
  ghost predicate Stray(w: World, e: Event)
    requires Possible(w, e)
  {
    e.Message? && e.from in w.closed &&
    match e.request
    case Auth(nickname, guid, newGuid, found) => Admitted(w, e.from, nickname, guid, found)
    case Invite(target, newId, now) =>
      var g := PlayerOf(w, e.from);
      g.Some? && g.value in w.roster && w.roster[g.value].status == Offline && Stored(w, g.value, target, now)
    case _ => false
  }

  // ----- What each step does to bindings and invites

  ghost predicate SameConnections(w: World, n: World) {
    n.sessions == w.sessions && n.closed == w.closed && n.bound == w.bound
  }

  lemma {:induction false} CheckMatchmakingFrame(w: World, tickets: seq<Ticket>)
    requires EnoughTickets(w, tickets)
    ensures SameConnections(w, CheckMatchmaking(w, tickets)) && CheckMatchmaking(w, tickets).invites == w.invites
    decreases |tickets|
  {
    var (queue, pair) := Matchmaking.TryMatch(w.queue, w.roster);
    if pair.Some? {
      CheckMatchmakingFrame(StartGame(w.(queue := queue), pair.value.0, pair.value.1, tickets[0]), tickets[1..]);
    }
  }

  ghost predicate Fewer(n: Invites.Store, s: Invites.Store) {
    forall id :: id in n ==> id in s && n[id] == s[id]
  }

  lemma PlayFrame(w: World, g: Guid, reason: Reason, ships: Option<seq<Placement>>, coords: Option<Cell>)
    requires g in w.roster
    ensures SameConnections(w, EndGame(w, g, reason)) && EndGame(w, g, reason).invites == w.invites
    ensures SameConnections(w, HandlePlaceShips(w, g, ships)) && HandlePlaceShips(w, g, ships).invites == w.invites
    ensures SameConnections(w, HandleShoot(w, g, coords)) && HandleShoot(w, g, coords).invites == w.invites
  {
  }

  lemma ResponseFrame(w: World, g: Guid, id: Option<InviteId>, accepted: Option<bool>, t: Ticket, now: int)
    requires g in w.roster
    ensures var n := HandleInviteResponse(w, g, id, accepted, t, now); SameConnections(w, n) && Fewer(n.invites, w.invites)
  {
  }

  // Only an invite adds to the store.
  lemma AnswerFrame(w: World, g: Guid, request: Request)
    requires g in w.roster && (request.FindGame? ==> |w.queue| <= 2 * |request.tickets|)
    ensures var n := Answer(w, g, request);
      SameConnections(w, n) && (request.Invite? || Fewer(n.invites, w.invites))
  {
    match request
    case FindGame(tickets) =>
      if w.roster[g].status != InGame {
        CheckMatchmakingFrame(Queued(w, g), tickets);
      }
    case InviteResponse(id, accepted, ticket, now) => ResponseFrame(w, g, id, accepted, ticket, now);
    case PlaceShips(ships) => PlayFrame(w, g, Surrendered, ships, None);
    case ShootAt(coords) => PlayFrame(w, g, Surrendered, None, coords);
    case Surrender => PlayFrame(w, g, Surrendered, None, None);
    case _ =>
  }

  lemma InviteConnected(w: World, g: Guid, target: Option<Guid>, newId: InviteId, now: int)
    requires Agree(w) && g in w.roster && newId !in w.invites
    ensures var n := HandleInvite(w, g, target, newId, now);
      AllConnected(n.sessions, n.bound, n.invites) <==> !(w.roster[g].status == Offline && Stored(w, g, target, now))
  {
    var n := HandleInvite(w, g, target, newId, now);
    if Stored(w, g, target, now) {
      assert n.invites == w.invites[newId := Invites.Invite(newId, g, target.value, now)];
      assert target.value in w.bound;
      assert newId in n.invites && n.invites[newId].from == g;
      assert g in w.bound <==> w.roster[g].status != Offline;
    } else {
      assert n.invites == w.invites;
    }
  }

  // The player that an authorisation is about.
  ghost function Account(r: Roster, nickname: seq<Byte>, guid: Option<Guid>, newGuid: Guid, found: Guid): Guid {
    if guid.Some? && guid.value != "" && guid.value in r then guid.value
    else if !Named(r, nickname) then newGuid
    else found
  }

  lemma IdentifyFree(r: Roster, nickname: seq<Byte>, guid: Option<Guid>, newGuid: Guid, found: Guid)
    requires newGuid !in r
    ensures var who := Identify(r, nickname, guid, newGuid, found);
      && (who.Some? ==> who.value.0 == Account(r, nickname, guid, newGuid, found))
      && (AccountIsFree(r, nickname, guid, found) <==>
            who.Some? && who.value.0 in who.value.1 && !IsOnline(who.value.1[who.value.0]))
      && (who.Some? ==> forall g :: g in who.value.1 ==>
            who.value.1[g].session == if g in r then r[g].session else None)
  {
  }

  lemma LogInCases(w: World, s: SessionId, g: Guid)
    requires Speaks(w, s) && g in w.roster && g != "" && w.roster[g].session != Some(s)
    ensures var n := LogIn(w, s, g);
      && n.invites == w.invites
      && if IsOnline(w.roster[g]) then SameConnections(w, n)
         else n.sessions == SetPlayer(w, s, g).sessions && n.closed == SetPlayer(w, s, g).closed && n.bound == w.bound[g := s]
  {
  }

  // An authorisation is refused, perhaps with a rename, or its player is bound.
  lemma AuthCases(w: World, s: SessionId, nickname: Option<seq<Byte>>, guid: Option<Guid>, newGuid: Guid, found: Guid)
    requires Possible(w, Message(s, Auth(nickname, guid, newGuid, found))) && "" !in w.roster
    requires PlayerOf(w, s).None? ==> forall g :: g in w.roster ==> w.roster[g].session != Some(s)
    ensures var n := HandleAuth(w, s, nickname, guid, newGuid, found);
      && n.invites == w.invites
      && if Admitted(w, s, nickname, guid, found) then
           var g := Account(w.roster, nickname.value, guid, newGuid, found);
           var v := SetPlayer(w, s, g);
           n.sessions == v.sessions && n.closed == v.closed && n.bound == w.bound[g := s]
         else SameConnections(w, n)
  {
    if PlayerOf(w, s).None? && nickname.Some? {
      var who := Identify(w.roster, nickname.value, guid, newGuid, found);
      IdentifyFree(w.roster, nickname.value, guid, newGuid, found);
      if who.Some? && who.value.0 in who.value.1 {
        LogInCases(w.(roster := who.value.1), s, who.value.0);
      }
    }
  }

  // An account that is not in use is bound to no session, and a session without a player has nobody online.
  lemma FreeIsUnbound(w: World, s: SessionId, nickname: Option<seq<Byte>>, guid: Option<Guid>, newGuid: Guid, found: Guid)
    requires Sound(w) && Possible(w, Message(s, Auth(nickname, guid, newGuid, found)))
    ensures "" !in w.roster
    ensures PlayerOf(w, s).None? ==> forall g :: g in w.roster ==> w.roster[g].session != Some(s)
    ensures Admitted(w, s, nickname, guid, found) ==> Account(w.roster, nickname.value, guid, newGuid, found) !in w.bound
  {
    if PlayerOf(w, s).None? {
      forall g | g in w.roster ensures w.roster[g].session != Some(s) {
        ServerSteps.NotOnSilentSession(w, s, g);
      }
    }
  }

  lemma AuthConnected(w: World, s: SessionId, nickname: Option<seq<Byte>>, guid: Option<Guid>, newGuid: Guid, found: Guid)
    requires Agree(w) && Possible(w, Message(s, Auth(nickname, guid, newGuid, found)))
    ensures var n := HandleAuth(w, s, nickname, guid, newGuid, found);
      AllConnected(n.sessions, n.bound, n.invites) <==> !(s in w.closed && Admitted(w, s, nickname, guid, found))
  {
    FreeIsUnbound(w, s, nickname, guid, newGuid, found);
    AuthCases(w, s, nickname, guid, newGuid, found);
    if Admitted(w, s, nickname, guid, found) {
      ConnectedAfterBind(w, s, Account(w.roster, nickname.value, guid, newGuid, found));
    }
  }

  lemma ConnectedAfterBind(w: World, s: SessionId, g: Guid)
    requires Agree(w) && Speaks(w, s) && g !in w.bound
    ensures AllConnected(SetPlayer(w, s, g).sessions, w.bound[g := s], w.invites) <==> s !in w.closed
  {
    assert w.bound[g := s][g] == s;
    assert s in w.closed ==> s !in w.sessions;
  }

  lemma DropFrame(w: World, s: SessionId)
    requires s in w.sessions && w.sessions[s].Some? && w.sessions[s].value != ""
    ensures var n, g := HandleDrop(w, s), w.sessions[s].value;
      && n.sessions == w.sessions - {s} && n.closed == w.closed[s := Some(g)]
      && n.bound == w.bound - {g} && n.invites == Invites.RemoveFor(w.invites, g)
  {
  }

  lemma DropConnected(w: World, s: SessionId)
    requires Agree(w)
    ensures var n := HandleDrop(w, s); AllConnected(n.sessions, n.bound, n.invites)
  {
    if s in w.sessions {
      assert forall h :: h in w.bound && w.bound[h] == s ==> SpeaksFor(w.sessions, s, h);
      if w.sessions[s].Some? {
        DropFrame(w, s);
      }
    }
  }

  // ----- The exact condition

  // A step keeps the agreement if and only if it is not a stray message.
  lemma StepAgrees(w: World, e: Event)
    requires Agree(w) && Possible(w, e)
    ensures Agree(Next(w, e)) <==> !Stray(w, e)
  {
    ServerSteps.StepKeepsSound(w, e);
    StepConnected(w, e);
  }

  lemma StepConnected(w: World, e: Event)
    requires Agree(w) && Possible(w, e)
    ensures var n := Next(w, e); AllConnected(n.sessions, n.bound, n.invites) <==> !Stray(w, e)
  {
    match e
    case Connect =>
    case Drop(s) => DropConnected(w, s);
    case Message(s, request) =>
      if request.Auth? {
        AuthConnected(w, s, request.nickname, request.guid, request.newGuid, request.found);
      } else if PlayerOf(w, s).Some? && PlayerOf(w, s).value in w.roster {
        AnswerConnected(w, s, request);
      }
  }

  lemma AnswerConnected(w: World, s: SessionId, request: Request)
    requires Agree(w) && !request.Auth? && Possible(w, Message(s, request))
    requires PlayerOf(w, s).Some? && PlayerOf(w, s).value in w.roster
    ensures var n := Answer(w, PlayerOf(w, s).value, request);
      AllConnected(n.sessions, n.bound, n.invites) <==> !Stray(w, Message(s, request))
  {
    var g := PlayerOf(w, s).value;
    if request.Invite? {
      InviteConnected(w, g, request.target, request.newId, request.now);
      assert s in w.sessions ==> g in w.bound && w.roster[g].status != Offline;
    } else {
      AnswerFrame(w, g, request);
    }
  }

  ghost predicate Orderly(w: World, run: seq<Event>)
    requires LegalRun(w, run)
    decreases |run|
  {
    run == [] || (Orderly(w, run[..|run| - 1]) && !Stray(After(w, run[..|run| - 1]), run[|run| - 1]))
  }

  ghost predicate AgreesThroughout(w: World, run: seq<Event>)
    requires LegalRun(w, run)
    decreases |run|
  {
    Agree(After(w, run)) && (run == [] || AgreesThroughout(w, run[..|run| - 1]))
  }

  // The maps agree after every step of a run if and only if the run has no stray message.
  lemma {:induction false} AgreesUnlessStray(run: seq<Event>)
    requires LegalRun(EMPTY_WORLD, run)
    ensures AgreesThroughout(EMPTY_WORLD, run) <==> Orderly(EMPTY_WORLD, run)
    decreases |run|
  {
    if run != [] {
      var front := run[..|run| - 1];
      AgreesUnlessStray(front);
      if AgreesThroughout(EMPTY_WORLD, front) {
        AgreesAtTheEnd(front);
        StepAgrees(After(EMPTY_WORLD, front), run[|run| - 1]);
      }
    }
  }

  lemma AgreesAtTheEnd(run: seq<Event>)
    requires LegalRun(EMPTY_WORLD, run) && AgreesThroughout(EMPTY_WORLD, run)
    ensures Agree(After(EMPTY_WORLD, run))
  {
  }

  // ----- What a late authorisation leaves behind

  // Bound to a session that is gone.
  ghost predicate Stranded(w: World, g: Guid) {
    g in w.bound && SpeaksFor(w.closed, w.bound[g], g)
  }

  // Nothing that happens later frees a stranded player: they stay bound to the session that is gone.
  lemma StrandedStays(w: World, e: Event, g: Guid)
    requires Sound(w) && Possible(w, e) && Stranded(w, g)
    ensures Stranded(Next(w, e), g) && Next(w, e).bound[g] == w.bound[g]
  {
    match e
    case Connect =>
    case Drop(s) =>
      if s in w.sessions && w.sessions[s].Some? {
        DropFrame(w, s);
      }
    case Message(s, request) =>
      if request.Auth? {
        FreeIsUnbound(w, s, request.nickname, request.guid, request.newGuid, request.found);
        AuthCases(w, s, request.nickname, request.guid, request.newGuid, request.found);
      } else if PlayerOf(w, s).Some? && PlayerOf(w, s).value in w.roster {
        AnswerFrame(w, PlayerOf(w, s).value, request);
      }
  }

  lemma {:induction false} StrandedForever(w: World, run: seq<Event>, g: Guid)
    requires Sound(w) && LegalRun(w, run) && Stranded(w, g)
    ensures var n := After(w, run);
      Sound(n) && Stranded(n, g) && n.bound[g] == w.bound[g] && n.roster[g].status != Offline
    decreases |run|
  {
    if run != [] {
      var front, last := run[..|run| - 1], run[|run| - 1];
      StrandedForever(w, front, g);
      ServerSteps.StepKeepsSound(After(w, front), last);
      StrandedStays(After(w, front), last, g);
    }
  }

  // ----- Two runs

  // Somebody who plays no game loses the connection.
  lemma IdleDrop(w: World, s: SessionId, g: Guid)
    requires SpeaksFor(w.sessions, s, g) && g != "" && g in w.roster && GameOf(w.archive, g).None?
    ensures HandleDrop(w, s) ==
      w.(sessions := w.sessions - {s}, closed := w.closed[s := Some(g)], bound := w.bound - {g},
         queue := Matchmaking.Remove(w.queue, g), invites := Invites.RemoveFor(w.invites, g),
         roster := w.roster[g := Gone(w.roster[g])])
  {
  }

  // Connect, lose the connection, and authorise with the message that was on its way: the player is
  // Online on a session that is gone.
  const LATE_AUTH := [Connect, Drop(1), AuthOf(1, NAME_A, "a")]

  lemma LateAuthStrands()
    ensures LegalRun(EMPTY_WORLD, LATE_AUTH)
    ensures var w := After(EMPTY_WORLD, LATE_AUTH);
      && !Agree(w) && Stranded(w, "a") && w.sessions == map[]
      && "a" in w.roster && w.roster["a"].status == Online
  {
    var w1 := EMPTY_WORLD.(sessions := map[1 := None], nextSession := 2);
    OneMore([], EMPTY_WORLD, Connect, [Connect]);
    assert Next(EMPTY_WORLD, Connect) == w1;
    var w2 := EMPTY_WORLD.(closed := map[1 := None], nextSession := 2);
    OneMore([Connect], w1, Drop(1), [Connect, Drop(1)]);
    assert Next(w1, Drop(1)) == w2;
    NewcomerBound(w2, 1, NAME_A, "a");
    OneMore([Connect, Drop(1)], w2, AuthOf(1, NAME_A, "a"), LATE_AUTH);
  }

  // Two players authorise, the first loses the connection, and an invite that was on its way is
  // stored: its sender is Offline.
  const TWO_PLAYERS := [Connect, AuthOf(1, NAME_A, "a"), Connect, AuthOf(2, NAME_B, "b")]
  const LATE_INVITE := TWO_PLAYERS + [Drop(1)] + [Message(1, Invite(Some("b"), "i", 0))]

  const PLAYER_A := NamedPlayer(NAME_A, 1)
  const PLAYER_B := NamedPlayer(NAME_B, 2)

  const TWO_ONLINE :=
    Connections(map["a" := PLAYER_A, "b" := PLAYER_B], map[1 := Some("a"), 2 := Some("b")], map["a" := 1, "b" := 2], 3)

  lemma TwoPlayersAreOnline()
    ensures LegalRun(EMPTY_WORLD, TWO_PLAYERS)
    ensures After(EMPTY_WORLD, TWO_PLAYERS) == TWO_ONLINE
  {
    NewcomerConnects([], EMPTY_WORLD, NAME_A, "a", TWO_PLAYERS[..2]);
    var one := Connections(map["a" := PLAYER_A], map[1 := Some("a")], map["a" := 1], 2);
    NewcomerConnects(TWO_PLAYERS[..2], one, NAME_B, "b", TWO_PLAYERS);
  }

  // The first player is gone, and their session still knows them.
  const FIRST_GONE := World(map["a" := Gone(PLAYER_A), "b" := PLAYER_B], map[2 := Some("b")], map[1 := Some("a")],
                            map["b" := 2], 3, [], map[], Archive(map[], map[]))

  lemma DropOfFirst()
    ensures Next(TWO_ONLINE, Drop(1)) == FIRST_GONE
  {
    IdleDrop(TWO_ONLINE, 1, "a");
  }

  lemma FirstIsGone()
    ensures LegalRun(EMPTY_WORLD, TWO_PLAYERS + [Drop(1)]) && After(EMPTY_WORLD, TWO_PLAYERS + [Drop(1)]) == FIRST_GONE
  {
    TwoPlayersAreOnline();
    DropOfFirst();
    OneMore(TWO_PLAYERS, TWO_ONLINE, Drop(1), TWO_PLAYERS + [Drop(1)]);
  }

  lemma InviteOfFirst()
    ensures var late := Message(1, Invite(Some("b"), "i", 0));
      && Possible(FIRST_GONE, late)
      && Next(FIRST_GONE, late) == FIRST_GONE.(invites := map["i" := Invites.Invite("i", "a", "b", 0)])
  {
  }

  lemma LateInviteIsStored()
    ensures LegalRun(EMPTY_WORLD, LATE_INVITE)
    ensures var w := After(EMPTY_WORLD, LATE_INVITE);
      && !Agree(w) && "i" in w.invites && w.invites["i"].from == "a"
      && "a" in w.roster && w.roster["a"].status == Offline
  {
    FirstIsGone();
    InviteOfFirst();
    OneMore(TWO_PLAYERS + [Drop(1)], FIRST_GONE, Message(1, Invite(Some("b"), "i", 0)), LATE_INVITE);
  }
}
