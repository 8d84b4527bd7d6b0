/** The whole server as a value: players, sessions, queue, invites and games, and every request
    handler as one atomic step on it. */
module ServerState {
  import opened Bytes
  import opened Ids
  import opened Options
  import opened Geometry
  import opened Players
  import opened GameArchive
  import opened Sessions
  import opened SeaState
  import opened MatchState
  import Invites
  import Matchmaking
  import Nickname

  datatype World = World(
    roster: Roster,
    // closed: sessions that are no longer registered, with the player that each of them still has.
    sessions: Connected, closed: Connected, bound: Bound, nextSession: SessionId,
    queue: seq<Guid>, invites: Invites.Store,
    archive: Archive)

  const EMPTY_WORLD := World(map[], map[], map[], map[], 1, [], map[], Archive(map[], map[]))

  // A fresh game id and the coin that chooses who starts.
  datatype Ticket = Ticket(id: GameId, firstStarts: bool)

  // ----- Sessions, registered or already removed

  // A session that has been removed can still deliver a message that was on its way.
  predicate Speaks(w: World, s: SessionId) {
    s in w.sessions || s in w.closed
  }

  function PlayerOf(w: World, s: SessionId): Option<Guid>
    requires Speaks(w, s)
  {
    if s in w.sessions then w.sessions[s] else w.closed[s]
  }

  function SetPlayer(w: World, s: SessionId, g: Guid): World {
    if s in w.sessions then w.(sessions := w.sessions[s := Some(g)]) else w.(closed := w.closed[s := Some(g)])
  }

  // ----- Pieces that several handlers share

  // Lobby and game manager together: the game is stored and both players are in it.
  function StartGame(w: World, one: Guid, two: Guid, t: Ticket): World
    requires one in w.roster && two in w.roster
  {
    var m := NewMatch(one, two, if t.firstStarts then one else two);
    var roster := w.roster[one := Entered(w.roster[one], t.id)];
    w.(archive := AddGame(w.archive, t.id, m), roster := roster[two := Entered(roster[two], t.id)])
  }

  function Rewarded(r: Roster, winner: Guid): Roster {
    if winner in r then r[winner := BackOnline(WithWin(r[winner]))] else r
  }

  function Consoled(r: Roster, loser: Guid): Roster {
    if loser in r then r[loser := BackOnline(WithLoss(r[loser]))] else r
  }

  // Statistics and statuses after a finished game.
  function Notified(r: Roster, m: Match): Roster {
    var winner := match m.winner case Some(g) => g case None => "";
    Consoled(Rewarded(r, winner), OpponentOf(m, winner))
  }

  function NotifyGameOver(w: World, m: Match): World {
    w.(roster := Notified(w.roster, m))
  }

  function SetGame(w: World, id: GameId, m: Match): World {
    w.(archive := w.archive.(games := w.archive.games[id := m]))
  }

  lemma SameGame(w: World, id: GameId, m: Match)
    requires id in w.archive.games && w.archive.games[id] == m
    ensures SetGame(w, id, m) == w
  {
    assert w.archive.games[id := m] == w.archive.games;
  }

  // There is a ticket for every two players in the queue.
  predicate EnoughTickets(w: World, tickets: seq<Ticket>) {
    |w.queue| <= 2 * |tickets| + 1
  }

  function CheckMatchmaking(w: World, tickets: seq<Ticket>): World
    requires EnoughTickets(w, tickets)
    decreases |tickets|
  {
    var (queue, pair) := Matchmaking.TryMatch(w.queue, w.roster);
    var next := w.(queue := queue);
    if pair.None? then next
    else CheckMatchmaking(StartGame(next, pair.value.0, pair.value.1, tickets[0]), tickets[1..])
  }

  // ----- The handlers

  ghost predicate ValidNickname(nickname: seq<Byte>) {
    exists cps :: Nickname.Nickname(nickname, cps)
  }

  // The player an authorisation is about, and the roster with a rename or a new player in it;
  // None when the nickname belongs to somebody who is online. found is the player that the search
  // by nickname comes upon first.
  ghost function Identify(r: Roster, nickname: seq<Byte>, guid: Option<Guid>, newGuid: Guid, found: Guid): Option<(Guid, Roster)> {
    if guid.Some? && guid.value != "" && guid.value in r then
      Some((guid.value, r[guid.value := r[guid.value].(nickname := nickname)]))
    else if !Named(r, nickname) then Some((newGuid, r[newGuid := NewPlayer(nickname)]))
    else if found in r && !IsOnline(r[found]) then Some((found, r))
    else None
  }

  // The session is given the player, unless they are online elsewhere.
  function LogIn(w: World, s: SessionId, g: Guid): World
    requires Speaks(w, s) && g in w.roster
  {
    if IsOnline(w.roster[g]) && w.roster[g].session != Some(s) then w
    else
      SetPlayer(w, s, g).(roster := w.roster[g := w.roster[g].(session := Some(s), status := Online)],
                          bound := if g == "" then w.bound else w.bound[g := s])
  }

  ghost function HandleAuth(w: World, s: SessionId, nickname: Option<seq<Byte>>, guid: Option<Guid>,
                            newGuid: Guid, found: Guid): World
    requires Speaks(w, s)
  {
    if PlayerOf(w, s).Some? || nickname.None? || nickname.value == [] || !ValidNickname(nickname.value) then w
    else
      var who := Identify(w.roster, nickname.value, guid, newGuid, found);
      if who.None? || who.value.0 !in who.value.1 then w
      else
        LogIn(w.(roster := who.value.1), s, who.value.0)
  }

  // The player joins the queue if they are Online.
  function Queued(w: World, g: Guid): World
    requires g in w.roster
  {
    if w.roster[g].status == Online then w.(queue := Matchmaking.Add(w.queue, g)) else w
  }

  function HandleFindGame(w: World, g: Guid, tickets: seq<Ticket>): World
    requires g in w.roster && |w.queue| <= 2 * |tickets|
  {
    if w.roster[g].status == InGame then w else CheckMatchmaking(Queued(w, g), tickets)
  }

  function HandleCancelSearch(w: World, g: Guid): World {
    w.(queue := Matchmaking.Remove(w.queue, g))
  }

  ghost function HandleInvite(w: World, g: Guid, target: Option<Guid>, newId: InviteId, now: int): World {
    if target.None? || target.value == "" || target.value !in w.roster || w.roster[target.value].status != Online then w
    else w.(invites := Invites.Create(w.invites, g, target.value, newId, now).0)
  }

  // Whoever answers an invite becomes its second player; the source does not compare them with the
  // addressee.
  function HandleInviteResponse(w: World, g: Guid, id: Option<InviteId>, accepted: Option<bool>, t: Ticket, now: int): World
    requires g in w.roster
  {
    if id.None? || accepted.None? || Invites.Get(w.invites, id.value, now).None? then w
    else
      var from := Invites.Get(w.invites, id.value, now).value.from;
      var gone := w.(invites := w.invites - {id.value});
      if !accepted.value || !Matchmaking.CanPlay(w.roster, from) || !Matchmaking.CanPlay(w.roster, g) then gone
      else
        StartGame(gone.(queue := Matchmaking.Remove(Matchmaking.Remove(w.queue, from), g)), from, g, t)
  }

  // The ranges that a decoded list of ships must keep.
  predicate InWireRange(p: Placement) {
    OnBoard(Cell(p.x, p.y)) && 1 <= p.size <= 4
  }

  function ExtractShips(ships: Option<seq<Placement>>): Option<seq<Placement>> {
    if ships.Some? && forall i :: 0 <= i < |ships.value| ==> InWireRange(ships.value[i]) then ships else None
  }

  ghost function HandlePlaceShips(w: World, g: Guid, ships: Option<seq<Placement>>): World {
    var id := GameOf(w.archive, g);
    if id.None? || w.archive.games[id.value].phase != Placing || ExtractShips(ships).None? then w
    else SetGame(w, id.value, PlaceAndStart(w.archive.games[id.value], g, ships.value))
  }

  // The battle starts with the second fleet. A refused fleet leaves the game as it is.
  ghost function PlaceAndStart(m: Match, g: Guid, ships: seq<Placement>): Match {
    var (p, r) := MatchState.PlaceShips(m, g, ships);
    if r == Returned(true) && p.one.ready && p.two.ready then StartBattle(p) else p
  }

  function ExtractCoordinates(coords: Option<Cell>): Option<Cell> {
    if coords.Some? && OnBoard(coords.value) then coords else None
  }

  // Statistics after a shot that led to m: of the shot if it was accepted, and of the end of the game.
  function Recorded(r: Roster, g: Guid, m: Match, result: ShotResult): Roster
    requires g in r
  {
    if !Accepted(result) then r
    else
      var counted := r[g := WithShot(r[g], result != ShotResult.Miss)];
      if m.phase == Finished then Notified(counted, m) else counted
  }

  ghost function HandleShoot(w: World, g: Guid, coords: Option<Cell>): World
    requires g in w.roster
  {
    var id := GameOf(w.archive, g);
    if id.None? || w.archive.games[id.value].phase != Battle || w.archive.games[id.value].turn != g
       || ExtractCoordinates(coords).None? then w
    else ShotIn(w, id.value, g, coords.value)
  }

  ghost function ShotIn(w: World, id: GameId, g: Guid, c: Cell): World
    requires g in w.roster && id in w.archive.games
  {
    var (m, info) := Shoot(w.archive.games[id], g, c.x, c.y);
    SetGame(w, id, m).(roster := Recorded(w.roster, g, m, info.result))
  }

  // Ends a game in progress, if there is one, in the opponent's favour.
  function Ended(r: Roster, a: Archive, g: Guid, reason: Reason): (Roster, Archive) {
    var id := GameOf(a, g);
    if id.None? || a.games[id.value].phase == Finished then (r, a)
    else
      var m := GiveUp(a.games[id.value], g, reason);
      (Notified(r, m), a.(games := a.games[id.value := m]))
  }

  function EndGame(w: World, g: Guid, reason: Reason): World {
    var (roster, archive) := Ended(w.roster, w.archive, g, reason);
    w.(roster := roster, archive := archive)
  }

  function HandleSurrender(w: World, g: Guid): World {
    EndGame(w, g, Surrendered)
  }

  function HandleConnect(w: World): World {
    w.(sessions := w.sessions[w.nextSession := None], nextSession := w.nextSession + 1)
  }

  // A session ends: its player, if any, leaves lobby and game and goes offline.
  function HandleDrop(w: World, s: SessionId): World {
    if s !in w.sessions then w
    else
      var player := w.sessions[s];
      var cut := w.(sessions := w.sessions - {s}, closed := w.closed[s := player]);
      if player.None? then cut
      else
        var g := player.value;
        var unbound := cut.(bound := w.bound - {g});
        if g == "" then unbound
        else
          var left := unbound.(queue := Matchmaking.Remove(w.queue, g), invites := Invites.RemoveFor(w.invites, g));
          var ended := EndGame(left, g, Disconnected);
          if g in ended.roster then ended.(roster := ended.roster[g := Gone(ended.roster[g])]) else ended
  }

  // ----- Steps and runs

  datatype Request =
    | Auth(nickname: Option<seq<Byte>>, guid: Option<Guid>, newGuid: Guid, found: Guid)
    | FindGame(tickets: seq<Ticket>)
    | CancelSearch
    | Invite(target: Option<Guid>, newId: InviteId, now: int)
    | InviteResponse(id: Option<InviteId>, accepted: Option<bool>, ticket: Ticket, time: int)
    | PlaceShips(ships: Option<seq<Placement>>)
    | ShootAt(coords: Option<Cell>)
    | Surrender

  datatype Event = Connect | Drop(session: SessionId) | Message(from: SessionId, request: Request)

  ghost predicate FreshTickets(a: Archive, tickets: seq<Ticket>) {
    && (forall i :: 0 <= i < |tickets| ==> tickets[i].id !in a.games)
    && (forall i, j :: 0 <= i < j < |tickets| ==> tickets[i].id != tickets[j].id)
  }

  // Generated names are new, the search by nickname finds somebody who has it, and there are as
  // many tickets as matchmaking can use. A message comes from a session that is or was registered.
  ghost predicate Possible(w: World, e: Event) {
    match e
    case Connect => true
    case Drop(s) => true
    case Message(s, request) =>
      Speaks(w, s) &&
      match request
      case Auth(nickname, guid, newGuid, found) =>
        && newGuid != "" && newGuid !in w.roster
        && (nickname.Some? && Named(w.roster, nickname.value) ==> found in w.roster && w.roster[found].nickname == nickname.value)
      case FindGame(tickets) => FreshTickets(w.archive, tickets) && |w.queue| <= 2 * |tickets|
      case Invite(target, newId, now) => newId !in w.invites
      case InviteResponse(id, accepted, ticket, now) => ticket.id !in w.archive.games
      case _ => true
  }

  // Messages of sessions without a player get an error, except authorisations.
  ghost function Next(w: World, e: Event): World
    requires Possible(w, e)
  {
    match e
    case Connect => HandleConnect(w)
    case Drop(s) => HandleDrop(w, s)
    case Message(s, request) =>
      if request.Auth? then
        HandleAuth(w, s, request.nickname, request.guid, request.newGuid, request.found)
      else if PlayerOf(w, s).None? || PlayerOf(w, s).value !in w.roster then w
      else Answer(w, PlayerOf(w, s).value, request)
  }

  ghost function Answer(w: World, g: Guid, request: Request): World
    requires g in w.roster && (request.FindGame? ==> |w.queue| <= 2 * |request.tickets|)
  {
    match request
    case FindGame(tickets) => HandleFindGame(w, g, tickets)
    case CancelSearch => HandleCancelSearch(w, g)
    case Invite(target, newId, now) => HandleInvite(w, g, target, newId, now)
    case InviteResponse(id, accepted, ticket, now) => HandleInviteResponse(w, g, id, accepted, ticket, now)
    case PlaceShips(ships) => HandlePlaceShips(w, g, ships)
    case ShootAt(coords) => HandleShoot(w, g, coords)
    case Surrender => HandleSurrender(w, g)
    case Auth(_, _, _, _) => w
  }

  ghost predicate LegalRun(w: World, run: seq<Event>)
    decreases |run|, 0
  {
    run == [] || (LegalRun(w, run[..|run| - 1]) && Possible(After(w, run[..|run| - 1]), run[|run| - 1]))
  }

  ghost function After(w: World, run: seq<Event>): World
    requires LegalRun(w, run)
    decreases |run|, 1
  {
    if run == [] then w else Next(After(w, run[..|run| - 1]), run[|run| - 1])
  }
}
