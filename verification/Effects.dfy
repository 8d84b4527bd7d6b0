/** What each request achieves on the server, told by the statuses, grids, queue and invites before it. */
module Effects {
  import opened Bytes
  import opened Ids
  import opened Options
  import opened Geometry
  import opened GameRules
  import opened Players
  import opened GameArchive
  import opened MatchState
  import opened MatchEffects
  import opened ServerState
  import opened ServerInvariant
  import Invites
  import Matchmaking
  import Drain
  import LateMessages
  import ServerSteps

  // A session, registered or removed, on which a known player speaks.
  predicate Speaker(w: World, s: SessionId, g: Guid) {
    Speaks(w, s) && PlayerOf(w, s) == Some(g) && g in w.roster
  }

  // ----- Searching

  lemma {:induction false} AllReady(queue: seq<Guid>, r: Roster)
    requires forall g :: g in queue ==> Matchmaking.CanPlay(r, g)
    ensures Matchmaking.Ready(queue, r) == queue
    decreases |queue|
  {
    if queue != [] {
      AllReady(queue[1..], r);
      assert [queue[0]] + queue[1..] == queue;
    }
  }

  // Those who wait once a player has asked for a game: the player comes last, if they are Online and
  // do not wait already.
  function Line(w: World, g: Guid): seq<Guid>
    requires g in w.roster
  {
    if w.roster[g].status == Online && g !in w.queue then w.queue + [g] else w.queue
  }

  // The games of the tickets are those of the line's players two by two, and who is left over waits.
  ghost predicate Matched(a: Archive, line: seq<Guid>, tickets: seq<Ticket>, n: World) {
    var pairs := |line| / 2;
    && pairs <= |tickets|
    && n.queue == line[2 * pairs..]
    && n.archive.games.Keys == a.games.Keys + (set i | 0 <= i < pairs :: tickets[i].id)
    && (forall id :: id in a.games ==> n.archive.games[id] == a.games[id])
    && (forall i :: 0 <= i < pairs ==>
          tickets[i].id in n.archive.games && IsNewGame(n.archive.games[tickets[i].id], line[2 * i], line[2 * i + 1]))
  }

  predicate IsNewGame(m: Match, one: Guid, two: Guid) {
    m.one.guid == one && m.two.guid == two && m.phase == Placing && !m.one.ready && !m.two.ready && IsPlayer(m, m.turn)
  }

  lemma {:induction false} IdsAreTicketIds(tickets: seq<Ticket>)
    ensures Drain.IdsOf(tickets) == set i | 0 <= i < |tickets| :: tickets[i].id
    decreases |tickets|
  {
    if tickets != [] {
      IdsAreTicketIds(tickets[1..]);
      forall x ensures x in Drain.IdsOf(tickets) <==> x in set i | 0 <= i < |tickets| :: tickets[i].id {
        if x in Drain.IdsOf(tickets[1..]) {
          var i :| 0 <= i < |tickets[1..]| && tickets[1..][i].id == x;
          assert tickets[i + 1].id == x;
        }
        if i :| 0 < i < |tickets| && tickets[i].id == x {
          assert tickets[1..][i - 1].id == x;
        }
      }
    }
  }

  lemma FirstIds(tickets: seq<Ticket>, pairs: nat)
    requires pairs <= |tickets|
    ensures Drain.IdsOf(tickets[..pairs]) == set i | 0 <= i < pairs :: tickets[i].id
  {
    IdsAreTicketIds(tickets[..pairs]);
    assert forall i :: 0 <= i < pairs ==> tickets[..pairs][i] == tickets[i];
  }

  lemma LeftOver(line: seq<Guid>, k: nat, queue: seq<Guid>)
    requires k <= |line| && line[k..] <= queue && multiset(queue) + multiset(line[..k]) == multiset(line)
    ensures queue == line[k..]
  {
    assert |multiset(queue)| + |multiset(line[..k])| == |multiset(line)|;
  }

  lemma PairGames(w: World, tickets: seq<Ticket>, n: World, i: nat)
    requires Matchmaking.Ready(w.queue, w.roster) == w.queue && Drain.Drained(w, tickets, n) && i < |w.queue| / 2
    ensures tickets[i].id in n.archive.games && IsNewGame(n.archive.games[tickets[i].id], w.queue[2 * i], w.queue[2 * i + 1])
  {
    assert n.archive.games[tickets[i].id] == Drain.GameOfPair(w.queue, tickets[i], i);
  }

  lemma ReadyIsMatched(w: World, tickets: seq<Ticket>, n: World)
    requires Matchmaking.Ready(w.queue, w.roster) == w.queue && Drain.Drained(w, tickets, n)
    ensures Matched(w.archive, w.queue, tickets, n)
  {
    var pairs := |w.queue| / 2;
    LeftOver(w.queue, 2 * pairs, n.queue);
    FirstIds(tickets, pairs);
    forall i | 0 <= i < pairs
      ensures tickets[i].id in n.archive.games && IsNewGame(n.archive.games[tickets[i].id], w.queue[2 * i], w.queue[2 * i + 1])
    {
      PairGames(w, tickets, n, i);
    }
  }

  lemma DrainedIsMatched(w: World, tickets: seq<Ticket>, n: World)
    requires QueueAgrees(w.roster, w.queue) && Drain.Drained(w, tickets, n)
    ensures Matched(w.archive, w.queue, tickets, n)
  {
    AllReady(w.queue, w.roster);
    ReadyIsMatched(w, tickets, n);
  }

  lemma QueuedLine(w: World, g: Guid)
    requires QueueAgrees(w.roster, w.queue) && g in w.roster
    ensures Queued(w, g) == w.(queue := Line(w, g)) && QueueAgrees(w.roster, Line(w, g))
  {
  }

  lemma QueueMatches(w: World, g: Guid, tickets: seq<Ticket>)
    requires QueueAgrees(w.roster, w.queue) && g in w.roster
    requires FreshTickets(w.archive, tickets) && |w.queue| <= 2 * |tickets|
    ensures Matched(w.archive, Line(w, g), tickets, CheckMatchmaking(Queued(w, g), tickets))
  {
    var q := Queued(w, g);
    QueuedLine(w, g);
    Drain.CheckMatchmakingDrains(q, tickets);
    DrainedIsMatched(q, tickets, CheckMatchmaking(q, tickets));
  }

  // A search by anybody who is not in a game: the games that start are those of the waiting players,
  // in order, and then of the one who asks.
  lemma SearchMatches(w: World, s: SessionId, g: Guid, tickets: seq<Ticket>)
    requires Sound(w) && Speaker(w, s, g) && FreshTickets(w.archive, tickets) && |w.queue| <= 2 * |tickets|
    ensures var e := Message(s, FindGame(tickets));
      && Possible(w, e)
      && if w.roster[g].status == InGame then Next(w, e) == w else Matched(w.archive, Line(w, g), tickets, Next(w, e))
  {
    if w.roster[g].status != InGame {
      QueueMatches(w, g, tickets);
    }
  }

  lemma InLineWaitsOrPlays(a: Archive, line: seq<Guid>, tickets: seq<Ticket>, n: World, k: nat)
    requires Matched(a, line, tickets, n) && k < |line|
    ensures line[k] in n.queue || PlaysNewGame(n, tickets, line[k])
  {
    var pairs := |line| / 2;
    if k < 2 * pairs {
      assert IsNewGame(n.archive.games[tickets[k / 2].id], line[2 * (k / 2)], line[2 * (k / 2) + 1]);
    } else {
      assert line[2 * pairs..][k - 2 * pairs] == line[k];
    }
  }

  predicate PlaysNewGame(n: World, tickets: seq<Ticket>, g: Guid) {
    exists i :: 0 <= i < |tickets| && tickets[i].id in n.archive.games && IsPlayer(n.archive.games[tickets[i].id], g)
  }

  // Whoever is Online and searches waits afterwards, or plays the game of one of the tickets.
  lemma SearchQueuesOrPlays(w: World, s: SessionId, g: Guid, tickets: seq<Ticket>)
    requires Sound(w) && Speaker(w, s, g) && FreshTickets(w.archive, tickets) && |w.queue| <= 2 * |tickets|
    requires w.roster[g].status == Online
    ensures var e := Message(s, FindGame(tickets));
      Possible(w, e) && (g in Next(w, e).queue || PlaysNewGame(Next(w, e), tickets, g))
  {
    SearchMatches(w, s, g, tickets);
    var line := Line(w, g);
    var k :| 0 <= k < |line| && line[k] == g;
    InLineWaitsOrPlays(w.archive, line, tickets, Next(w, Message(s, FindGame(tickets))), k);
  }

  // Leaving the queue takes the player out of it, and nothing else happens.
  lemma CancelLeaves(w: World, s: SessionId, g: Guid)
    requires Sound(w) && Speaker(w, s, g)
    ensures var e := Message(s, CancelSearch);
      && Possible(w, e)
      && Next(w, e) == w.(queue := Next(w, e).queue)
      && (g !in w.queue ==> Next(w, e) == w)
      && forall i :: 0 <= i < |w.queue| && w.queue[i] == g ==> Next(w, e).queue == w.queue[..i] + w.queue[i + 1..]
  {
    if g !in w.queue {
      Matchmaking.RemoveOfAbsent(w.queue, g);
    }
    forall i | 0 <= i < |w.queue| && w.queue[i] == g
      ensures Matchmaking.Remove(w.queue, g) == w.queue[..i] + w.queue[i + 1..]
    {
      Matchmaking.RemoveTakesOut(w.queue, i);
    }
  }

  // ----- Invites

  // What can be got of the invites after one has been stored.
  predicate GotAfterInvite(s: Invites.Store, n: Invites.Store, i: Invites.Invite, id: InviteId, later: int) {
    Invites.Get(n, id, later) ==
    if id != i.id then Invites.Get(s, id, later) else if later - i.createdAt <= 30_000_000_000 then Some(i) else None
  }

  lemma StoredCanBeGot(s: Invites.Store, from: Guid, to: Guid, newId: InviteId, now: int)
    requires newId !in s
    ensures var n := Invites.Create(s, from, to, newId, now).0;
      if exists i :: i in Invites.SentBy(s, from, now) && i.to == to then n == s
      else forall id, later :: GotAfterInvite(s, n, Invites.Invite(newId, from, to, now), id, later)
  {
    Invites.ListsAreWhatCanBeGot(s, from, to, now, Invites.Invite(newId, from, to, now));
  }

  lemma InviteCases(w: World, s: SessionId, g: Guid, target: Option<Guid>, newId: InviteId, now: int)
    requires Speaker(w, s, g) && newId !in w.invites && "" !in w.roster
    ensures var e := Message(s, Invite(target, newId, now));
      && Possible(w, e)
      && Next(w, e) == if target.None? || !Matchmaking.CanPlay(w.roster, target.value) then w
                       else w.(invites := Invites.Create(w.invites, g, target.value, newId, now).0)
  {
  }

  // An invite to somebody Online can be got for 30 seconds, unless an invite of the pair can be got
  // already. Otherwise nothing happens.
  lemma InviteStores(w: World, s: SessionId, g: Guid, target: Option<Guid>, newId: InviteId, now: int)
    requires Sound(w) && Speaker(w, s, g) && newId !in w.invites
    ensures var e := Message(s, Invite(target, newId, now));
      && Possible(w, e)
      && var n := Next(w, e);
         && n == w.(invites := n.invites)
         && if target.Some? && Matchmaking.CanPlay(w.roster, target.value)
               && !exists i :: i in Invites.SentBy(w.invites, g, now) && i.to == target.value
            then forall id, later :: GotAfterInvite(w.invites, n.invites, Invites.Invite(newId, g, target.value, now), id, later)
            else n == w
  {
    InviteCases(w, s, g, target, newId, now);
    if target.Some? && Matchmaking.CanPlay(w.roster, target.value) {
      StoredCanBeGot(w.invites, g, target.value, newId, now);
    }
  }

  // An answer to nothing that can be got, or no answer, does nothing.
  lemma NoAnswer(w: World, s: SessionId, g: Guid, id: Option<InviteId>, accepted: Option<bool>, t: Ticket, now: int)
    requires Speaker(w, s, g) && t.id !in w.archive.games
    requires id.None? || accepted.None? || Invites.Get(w.invites, id.value, now).None?
    ensures var e := Message(s, InviteResponse(id, accepted, t, now)); Possible(w, e) && Next(w, e) == w
  {
  }

  // Declining, or accepting when one of the two is not Online, takes the invite away, and that is all.
  lemma DeclineTakesInvite(w: World, s: SessionId, g: Guid, id: InviteId, accepted: bool, t: Ticket, now: int)
    requires Speaker(w, s, g) && t.id !in w.archive.games && Invites.Get(w.invites, id, now).Some?
    requires accepted ==> !Matchmaking.CanPlay(w.roster, g)
                          || !Matchmaking.CanPlay(w.roster, Invites.Get(w.invites, id, now).value.from)
    ensures var e := Message(s, InviteResponse(Some(id), Some(accepted), t, now));
      && Possible(w, e)
      && Next(w, e) == w.(invites := Next(w, e).invites)
      && Next(w, e).invites.Keys == w.invites.Keys - {id}
      && forall other :: other in Next(w, e).invites ==> Next(w, e).invites[other] == w.invites[other]
  {
  }

  // A game of the two has started: both are in it and wait no more.
  ghost predicate GameStarted(w: World, one: Guid, two: Guid, id: GameId, n: World) {
    && n.archive.games.Keys == w.archive.games.Keys + {id} && IsNewGame(n.archive.games[id], one, two)
    && (forall other :: other in w.archive.games ==> n.archive.games[other] == w.archive.games[other])
    && (forall h :: h in n.queue <==> h in w.queue && h != one && h != two)
    && n.roster.Keys == w.roster.Keys
    && forall h :: h in w.roster ==>
         n.roster[h] == if h == one || h == two then w.roster[h].(status := InGame, game := Some(id)) else w.roster[h]
  }

  lemma StartingStarts(w: World, one: Guid, two: Guid, t: Ticket)
    requires Matchmaking.CanPlay(w.roster, one) && Matchmaking.CanPlay(w.roster, two) && t.id !in w.archive.games
    ensures GameStarted(w, one, two, t.id,
                        StartGame(w.(queue := Matchmaking.Remove(Matchmaking.Remove(w.queue, one), two)), one, two, t))
  {
    Matchmaking.RemoveMembers(w.queue, one);
    Matchmaking.RemoveMembers(Matchmaking.Remove(w.queue, one), two);
    EnteredRoster(w.roster, one, two, t.id);
  }

  // Accepting starts a game of the sender and the one who answers, and takes the invite away.
  lemma AcceptStarts(w: World, s: SessionId, g: Guid, id: InviteId, t: Ticket, now: int)
    requires Speaker(w, s, g) && t.id !in w.archive.games && Invites.Get(w.invites, id, now).Some?
    requires Matchmaking.CanPlay(w.roster, g) && Matchmaking.CanPlay(w.roster, Invites.Get(w.invites, id, now).value.from)
    ensures var e := Message(s, InviteResponse(Some(id), Some(true), t, now));
      && Possible(w, e)
      && Next(w, e).invites.Keys == w.invites.Keys - {id}
      && GameStarted(w, Invites.Get(w.invites, id, now).value.from, g, t.id, Next(w, e))
  {
    StartingStarts(w.(invites := w.invites - {id}), Invites.Get(w.invites, id, now).value.from, g, t);
  }

  // ----- Placing

  lemma LegalIsInWireRange(ships: seq<Placement>)
    requires LegalFleet(ships)
    ensures ExtractShips(Some(ships)) == Some(ships)
  {
    SizesAreLegal(ships);
  }

  // The only change is in the given game.
  ghost predicate OnlyGame(w: World, id: GameId, n: World) {
    && n == w.(archive := n.archive) && n.archive.index == w.archive.index
    && id in w.archive.games && n.archive.games.Keys == w.archive.games.Keys
    && forall other :: other in w.archive.games && other != id ==> n.archive.games[other] == w.archive.games[other]
  }

  // The game that the player is in, if it is still placing.
  predicate IsPlacing(w: World, g: Guid) {
    GameOf(w.archive, g).Some? && w.archive.games[GameOf(w.archive, g).value].phase == Placing
  }

  lemma FleetAndStart(m: Match, g: Guid, ships: seq<Placement>)
    requires MatchState.Inv(m) && m.phase == Placing && LegalFleet(ships) && IsPlayer(m, g)
    ensures FleetAndPhase(m, g, ships, PlaceAndStart(m, g, ships))
  {
    LegalFleetIsPlaced(m, g, ships);
  }

  // The fleet is placed, and the battle has started if and only if it was the second.
  predicate FleetAndPhase(m: Match, g: Guid, ships: seq<Placement>, k: Match) {
    && FleetIsPlaced(m, g, ships, k.(phase := Placing))
    && k.phase == if OtherSide(m, g).ready && m.one.guid != m.two.guid then Battle else Placing
  }

  lemma IndexNamesOwnGame(w: World, g: Guid)
    requires Sound(w) && GameOf(w.archive, g).Some?
    ensures var m := w.archive.games[GameOf(w.archive, g).value]; IsPlayer(m, g) && MatchState.Inv(m)
  {
  }

  // A legal fleet stands on the player's board afterwards, and with the second fleet the battle starts.
  lemma FleetIsTaken(w: World, s: SessionId, g: Guid, ships: seq<Placement>)
    requires Sound(w) && Speaker(w, s, g) && IsPlacing(w, g) && LegalFleet(ships)
    ensures var (e, id) := (Message(s, PlaceShips(Some(ships))), GameOf(w.archive, g).value);
      && Possible(w, e) && OnlyGame(w, id, Next(w, e))
      && FleetAndPhase(w.archive.games[id], g, ships, Next(w, e).archive.games[id])
  {
    IndexNamesOwnGame(w, g);
    FleetInGame(w, s, g, ships);
  }

  lemma FleetInGame(w: World, s: SessionId, g: Guid, ships: seq<Placement>)
    requires Speaker(w, s, g) && IsPlacing(w, g) && LegalFleet(ships)
    requires var m := w.archive.games[GameOf(w.archive, g).value]; IsPlayer(m, g) && MatchState.Inv(m)
    ensures var (e, id) := (Message(s, PlaceShips(Some(ships))), GameOf(w.archive, g).value);
      && Possible(w, e) && OnlyGame(w, id, Next(w, e))
      && FleetAndPhase(w.archive.games[id], g, ships, Next(w, e).archive.games[id])
  {
    LegalIsInWireRange(ships);
    FleetAndStart(w.archive.games[GameOf(w.archive, g).value], g, ships);
    ServerSteps.PlaceShipsCases(w, g, Some(ships));
  }

  // Nothing happens without a game that is placing, or with ships that are no legal fleet.
  lemma FleetIsRefused(w: World, s: SessionId, g: Guid, ships: Option<seq<Placement>>)
    requires Speaker(w, s, g)
    requires !IsPlacing(w, g) || ships.None? || !LegalFleet(ships.value)
    ensures var e := Message(s, PlaceShips(ships)); Possible(w, e) && Next(w, e) == w
  {
    if IsPlacing(w, g) && ships.Some? {
      var id := GameOf(w.archive, g).value;
      SameGame(w, id, w.archive.games[id]);
    }
  }

  // ----- The end of a game

  // What the end of a game writes into the roster: one win, one loss, and both players back online.
  ghost predicate ResultIsWritten(r: Roster, m: Match, n: Roster) {
    && n.Keys == r.Keys
    && forall h :: h in r ==> n[h] == AfterGame(r[h], m, h)
  }

  // A player of a game that is over, or anybody else. Who plays against themselves wins and loses.
  function AfterGame(p: Player, m: Match, h: Guid): Player {
    if !IsPlayer(m, h) then p
    else
      var win := if m.winner == Some(h) then 1 else 0;
      var loss := if m.winner != Some(h) || m.one.guid == m.two.guid then 1 else 0;
      p.(status := Online, game := None,
         stats := p.stats.(wins := p.stats.wins + win, losses := p.stats.losses + loss, played := p.stats.played + win + loss))
  }

  lemma NotificationWrites(r: Roster, m: Match)
    requires m.winner.Some? && IsPlayer(m, m.winner.value) && m.one.guid in r && m.two.guid in r
    ensures ResultIsWritten(r, m, Notified(r, m))
  {
  }

  // The player's unfinished game has ended for the reason given, and the other player has won it.
  ghost predicate GameIsLost(w: World, g: Guid, reason: Reason, n: World)
    requires Playing(w.archive, g)
  {
    var id := w.archive.index[g];
    && n.archive.index == w.archive.index && n.archive.games.Keys == w.archive.games.Keys
    && (forall other :: other in w.archive.games && other != id ==> n.archive.games[other] == w.archive.games[other])
    && var m, k := w.archive.games[id], n.archive.games[id];
       && IsPlayer(m, g)
       && k == m.(phase := Finished, reason := reason, winner := Some(OtherSide(m, g).guid))
  }

  lemma GiverUpLoses(m: Match, g: Guid, reason: Reason)
    requires m.phase != Finished && IsPlayer(m, g)
    ensures GiveUp(m, g, reason) == m.(phase := Finished, reason := reason, winner := Some(OtherSide(m, g).guid))
  {
  }

  lemma GiveUpIsLost(w: World, g: Guid, reason: Reason)
    requires Sound(w) && Playing(w.archive, g) && reason in {Surrendered, Disconnected}
    ensures var n := EndGame(w, g, reason);
      && GameIsLost(w, g, reason, n) && ResultIsWritten(w.roster, n.archive.games[w.archive.index[g]], n.roster)
      && n == w.(roster := n.roster, archive := n.archive)
  {
    IndexNamesOwnGame(w, g);
    LostInGame(w, g, reason);
  }

  lemma LostInArchive(w: World, g: Guid, reason: Reason, roster: Roster)
    requires Playing(w.archive, g) && IsPlayer(w.archive.games[w.archive.index[g]], g)
    ensures var id := w.archive.index[g];
      GameIsLost(w, g, reason, SetGame(w, id, GiveUp(w.archive.games[id], g, reason)).(roster := roster))
  {
    GiverUpLoses(w.archive.games[w.archive.index[g]], g, reason);
  }

  lemma LostInGame(w: World, g: Guid, reason: Reason)
    requires PlayersKnown(w.roster, w.archive.games) && Playing(w.archive, g) && IsPlayer(w.archive.games[w.archive.index[g]], g)
    ensures var n := EndGame(w, g, reason);
      && GameIsLost(w, g, reason, n) && ResultIsWritten(w.roster, n.archive.games[w.archive.index[g]], n.roster)
      && n == w.(roster := n.roster, archive := n.archive)
  {
    var m := w.archive.games[w.archive.index[g]];
    LostInArchive(w, g, reason, Notified(w.roster, GiveUp(m, g, reason)));
    NotificationWrites(w.roster, GiveUp(m, g, reason));
    ServerSteps.EndGameCases(w, g, reason);
  }

  lemma SurrenderEndsGame(w: World, s: SessionId, g: Guid)
    requires Speaker(w, s, g)
    ensures Possible(w, Message(s, Surrender)) && Next(w, Message(s, Surrender)) == EndGame(w, g, Surrendered)
  {
  }

  // Surrendering in a game that is not over loses it. Otherwise nothing happens.
  lemma SurrenderLoses(w: World, s: SessionId, g: Guid)
    requires Sound(w) && Speaker(w, s, g)
    ensures var e := Message(s, Surrender);
      && Possible(w, e)
      && var n := Next(w, e);
         if Playing(w.archive, g) then
           && GameIsLost(w, g, Surrendered, n)
           && ResultIsWritten(w.roster, n.archive.games[w.archive.index[g]], n.roster)
           && n == w.(roster := n.roster, archive := n.archive)
         else n == w
  {
    SurrenderEndsGame(w, s, g);
    if Playing(w.archive, g) {
      GiveUpIsLost(w, g, Surrendered);
    } else {
      ServerSteps.EndGameCases(w, g, Surrendered);
    }
  }

  // ----- Sessions

  // A connection is a new registered session without a player.
  lemma ConnectAdds(w: World)
    requires Sound(w)
    ensures Possible(w, Connect)
    ensures var (n, s) := (Next(w, Connect), w.nextSession);
      && !Speaks(w, s) && Speaks(n, s) && PlayerOf(n, s) == None && s in n.sessions
      && n == w.(sessions := n.sessions, nextSession := n.nextSession)
      && forall other :: Speaks(w, other) ==> Speaks(n, other) && PlayerOf(n, other) == PlayerOf(w, other)
  {
  }

  // A session that ends is registered no more, and speaks for whom it spoke before. Its player is
  // Offline, bound to nothing, waits for no game and stands in no invite.
  lemma DropFrees(w: World, s: SessionId, g: Guid)
    requires Sound(w) && SpeaksFor(w.sessions, s, g)
    ensures Possible(w, Drop(s))
    ensures var n := Next(w, Drop(s));
      && n.sessions == w.sessions - {s} && n.closed == w.closed[s := Some(g)] && n.bound == w.bound - {g}
      && g in n.roster && n.roster[g].status == Offline && n.roster[g].session == None && n.roster[g].game == None
      && g !in n.queue && (forall h :: h in w.queue && h != g ==> h in n.queue)
      && forall id, later :: Invites.Get(n.invites, id, later) == GotWithout(w.invites, g, id, later)
  {
    ServerSteps.DropCases(w, s, g);
    ServerSteps.EndGameFrame(ServerSteps.LeftLobby(w, g), g, Disconnected, w.sessions, w.closed, w.bound);
    Matchmaking.RemoveMembers(w.queue, g);
  }

  function WithoutSession(p: Player): Player {
    p.(status := Offline, session := None, game := None)
  }

  function GotWithout(s: Invites.Store, g: Guid, id: InviteId, later: int): Option<Invites.Invite> {
    match Invites.Get(s, id, later)
    case Some(i) => if i.from == g || i.to == g then None else Some(i)
    case None => None
  }

  // Who was in a game has lost it; the player is Offline, the others are as the game has left them.
  ghost predicate GameIsLeft(w: World, g: Guid, n: World)
    requires Playing(w.archive, g)
  {
    && GameIsLost(w, g, Disconnected, n)
    && n.roster.Keys == w.roster.Keys
    && var k := n.archive.games[w.archive.index[g]];
       forall h :: h in w.roster ==>
         n.roster[h] == if h == g then WithoutSession(AfterGame(w.roster[h], k, h)) else AfterGame(w.roster[h], k, h)
  }

  lemma LeavingLoses(w: World, g: Guid)
    requires PlayersKnown(w.roster, w.archive.games) && g in w.roster
    requires Playing(w.archive, g) && IsPlayer(w.archive.games[w.archive.index[g]], g)
    ensures var ended := EndGame(w, g, Disconnected);
      && g in ended.roster
      && GameIsLeft(w, g, ended.(roster := ended.roster[g := Gone(ended.roster[g])]))
  {
    LostInGame(w, g, Disconnected);
  }

  lemma NotPlayingLeaves(w: World, g: Guid)
    requires !Playing(w.archive, g)
    ensures EndGame(w, g, Disconnected) == w
  {
    ServerSteps.EndGameCases(w, g, Disconnected);
  }

  lemma DropLeaves(w: World, s: SessionId, g: Guid)
    requires SpeaksFor(w.sessions, s, g) && g != "" && g in w.roster && PlayersKnown(w.roster, w.archive.games)
    requires Playing(w.archive, g) ==> IsPlayer(w.archive.games[w.archive.index[g]], g)
    ensures var n := HandleDrop(w, s);
      if Playing(w.archive, g) then GameIsLeft(w, g, n)
      else n.archive == w.archive && n.roster == w.roster[g := WithoutSession(w.roster[g])]
  {
    ServerSteps.DropCases(w, s, g);
    if Playing(w.archive, g) {
      LeavingLoses(ServerSteps.LeftLobby(w, g), g);
    } else {
      NotPlayingLeaves(ServerSteps.LeftLobby(w, g), g);
    }
  }

  // A game that was not over is lost by disconnection.
  lemma DropLoses(w: World, s: SessionId, g: Guid)
    requires Sound(w) && SpeaksFor(w.sessions, s, g)
    ensures var n := Next(w, Drop(s));
      if Playing(w.archive, g) then GameIsLeft(w, g, n)
      else n.archive == w.archive && g in w.roster && n.roster == w.roster[g := WithoutSession(w.roster[g])]
  {
    if Playing(w.archive, g) {
      IndexNamesOwnGame(w, g);
    }
    DropLeaves(w, s, g);
  }

  // A session without a player just goes.
  lemma SilentDrop(w: World, s: SessionId)
    requires s !in w.sessions || w.sessions[s].None?
    ensures Possible(w, Drop(s))
    ensures Next(w, Drop(s)) == if s in w.sessions then w.(sessions := w.sessions - {s}, closed := w.closed[s := None]) else w
  {
  }

  // Without a player no request but an authorisation does anything.
  lemma SilentRequest(w: World, s: SessionId, request: Request)
    requires Possible(w, Message(s, request)) && PlayerOf(w, s).None? && !request.Auth?
    ensures Next(w, Message(s, request)) == w
  {
  }

  // ----- Authorising

  // The account that is asked for: that of the guid, else one with the nickname, else a new one.
  ghost predicate IsAccount(r: Roster, nickname: seq<Byte>, guid: Option<Guid>, newGuid: Guid, g: Guid) {
    if guid.Some? && guid.value in r then g == guid.value
    else if Named(r, nickname) then g in r && r[g].nickname == nickname
    else g == newGuid
  }

  // The account is Online on the session under the nickname; what else was on record of it still is.
  function LoggedIn(r: Roster, g: Guid, nickname: seq<Byte>, s: SessionId): Player {
    if g in r then r[g].(nickname := nickname, status := Online, session := Some(s))
    else Player(nickname, Online, None, Some(s), Stats(0, 0, 0, 0, 0))
  }

  // A session without a player that names a valid nickname and an account that is not in use gets the
  // account.
  lemma AuthLogsIn(w: World, s: SessionId, nickname: Option<seq<Byte>>, guid: Option<Guid>, newGuid: Guid, found: Guid)
    requires Sound(w) && Possible(w, Message(s, Auth(nickname, guid, newGuid, found)))
    requires LateMessages.Admitted(w, s, nickname, guid, found)
    ensures var (n, g) := (Next(w, Message(s, Auth(nickname, guid, newGuid, found))),
                           LateMessages.Account(w.roster, nickname.value, guid, newGuid, found));
      && IsAccount(w.roster, nickname.value, guid, newGuid, g)
      && (g in w.roster ==> w.roster[g].status == Offline)
      && n.roster == w.roster[g := LoggedIn(w.roster, g, nickname.value, s)]
      && n.bound == w.bound[g := s] && Speaks(n, s) && PlayerOf(n, s) == Some(g)
      && n == SetPlayer(w, s, g).(roster := n.roster, bound := n.bound)
  {
    var g := LateMessages.Account(w.roster, nickname.value, guid, newGuid, found);
    AccountLogsIn(w, s, nickname.value, guid, newGuid, found, g);
  }

  lemma AccountLogsIn(w: World, s: SessionId, nickname: seq<Byte>, guid: Option<Guid>, newGuid: Guid, found: Guid, g: Guid)
    requires Speaks(w, s) && PlayerOf(w, s).None? && newGuid !in w.roster && newGuid != "" && "" !in w.roster
    requires Named(w.roster, nickname) ==> found in w.roster && w.roster[found].nickname == nickname
    requires nickname != [] && ValidNickname(nickname) && LateMessages.AccountIsFree(w.roster, nickname, guid, found)
    requires g == LateMessages.Account(w.roster, nickname, guid, newGuid, found)
    ensures IsAccount(w.roster, nickname, guid, newGuid, g) && (g in w.roster ==> w.roster[g].status == Offline)
    ensures HandleAuth(w, s, Some(nickname), guid, newGuid, found) ==
      SetPlayer(w, s, g).(roster := w.roster[g := LoggedIn(w.roster, g, nickname, s)], bound := w.bound[g := s])
  {
    var who := Identify(w.roster, nickname, guid, newGuid, found);
    assert who.Some? && who.value.0 == g && g in who.value.1 && !IsOnline(who.value.1[g]);
    var n := who.value.1;
    assert n[g := n[g].(session := Some(s), status := Online)] == w.roster[g := LoggedIn(w.roster, g, nickname, s)];
  }

  // All other authorisations leave everything as it is, but for a known guid's new nickname.
  lemma AuthRefused(w: World, s: SessionId, nickname: Option<seq<Byte>>, guid: Option<Guid>, newGuid: Guid, found: Guid)
    requires Sound(w) && Possible(w, Message(s, Auth(nickname, guid, newGuid, found)))
    requires !LateMessages.Admitted(w, s, nickname, guid, found)
    ensures var n := Next(w, Message(s, Auth(nickname, guid, newGuid, found)));
      n == if PlayerOf(w, s).None? && nickname.Some? && nickname.value != [] && ValidNickname(nickname.value)
              && guid.Some? && guid.value in w.roster
           then w.(roster := w.roster[guid.value := w.roster[guid.value].(nickname := nickname.value)])
           else w
  {
    LateMessages.FreeIsUnbound(w, s, nickname, guid, newGuid, found);
    AccountRefused(w, s, nickname, guid, newGuid, found);
  }

  lemma AccountRefused(w: World, s: SessionId, nickname: Option<seq<Byte>>, guid: Option<Guid>, newGuid: Guid, found: Guid)
    requires Speaks(w, s) && newGuid !in w.roster && "" !in w.roster && !LateMessages.Admitted(w, s, nickname, guid, found)
    requires PlayerOf(w, s).None? ==> forall g :: g in w.roster ==> w.roster[g].session != Some(s)
    ensures HandleAuth(w, s, nickname, guid, newGuid, found) ==
      if PlayerOf(w, s).None? && nickname.Some? && nickname.value != [] && ValidNickname(nickname.value)
         && guid.Some? && guid.value in w.roster
      then w.(roster := w.roster[guid.value := w.roster[guid.value].(nickname := nickname.value)])
      else w
  {
  }

  // ----- Playing

  // The players of a game that is not over are in it.
  lemma PlayersAreInGame(w: World, id: GameId, g: Guid)
    requires Sound(w) && id in w.archive.games && w.archive.games[id].phase != Finished && IsPlayer(w.archive.games[id], g)
    ensures g in w.roster && w.roster[g].status == InGame && w.roster[g].game == Some(id)
  {
    assert GameOf(w.archive, g) == Some(id) && Playing(w.archive, g);
  }
}
