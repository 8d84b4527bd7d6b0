/** What the handlers do that a reader may not expect, each with the exact condition under which they
    do what is expected. */
module Surprises {
  import opened Bytes
  import opened Ids
  import opened Options
  import opened Players
  import opened MatchState
  import opened ServerState
  import opened ServerInvariant
  import Invites
  import Matchmaking
  import ServerSteps
  import RandomPlacer
  import MatchEffects
  import opened Histories

  // ----- A refused reconnection

  lemma RenameChanges(r: Roster, g: Guid, nickname: seq<Byte>)
    requires g in r
    ensures r[g := r[g].(nickname := nickname)] == r <==> r[g].nickname == nickname
  {
    var renamed := r[g].(nickname := nickname);
    assert r[g := renamed][g].nickname == nickname;
    if r[g].nickname == nickname {
      assert r[g := renamed] == r;
    }
  }

  // Somebody claims the guid of a player who is online, with a valid nickname. They are refused, and
  // nothing changes if and only if the nickname is the one that the player has.
  lemma RefusedReconnectRenames(w: World, s: SessionId, nickname: seq<Byte>, g: Guid, newGuid: Guid, found: Guid)
    requires Sound(w) && Speaks(w, s) && PlayerOf(w, s).None?
    requires nickname != [] && ValidNickname(nickname) && g in w.roster && IsOnline(w.roster[g])
    ensures var n := HandleAuth(w, s, Some(nickname), Some(g), newGuid, found);
      && n == w.(roster := w.roster[g := w.roster[g].(nickname := nickname)])
      && (n == w <==> w.roster[g].nickname == nickname)
  {
    ServerSteps.NotOnSilentSession(w, s, g);
    RenameChanges(w.roster, g, nickname);
  }

  // ----- Who plays after an invite is accepted

  // The game is between the two players of the invite if and only if the answer comes from the one
  // who was invited.
  lemma AcceptedByTheInvited(w: World, g: Guid, id: InviteId, t: Ticket, now: int)
    requires Invites.Active(w.invites, id, now) && t.id !in w.archive.games
    requires Matchmaking.CanPlay(w.roster, w.invites[id].from) && Matchmaking.CanPlay(w.roster, g)
    ensures var n := HandleInviteResponse(w, g, Some(id), Some(true), t, now);
      && t.id in n.archive.games
      && var m := n.archive.games[t.id];
         ({m.one.guid, m.two.guid} == {w.invites[id].from, w.invites[id].to} <==> g == w.invites[id].to)
  {
    var m := HandleInviteResponse(w, g, Some(id), Some(true), t, now).archive.games[t.id];
    assert m.one.guid == w.invites[id].from && m.two.guid == g;
    assert g in {m.one.guid, m.two.guid} && w.invites[id].to in {w.invites[id].from, w.invites[id].to};
  }

  // Three players authorise, and the first invites the second.
  const THREE_PLAYERS := [Connect, AuthOf(1, NAME_A, "a"), Connect, AuthOf(2, NAME_B, "b"), Connect, AuthOf(3, NAME_C, "c")]
  const INVITATION := THREE_PLAYERS + [Message(1, Invite(Some("b"), "i", 0))]

  const THREE_ONLINE :=
    Connections(map["a" := NamedPlayer(NAME_A, 1), "b" := NamedPlayer(NAME_B, 2), "c" := NamedPlayer(NAME_C, 3)],
                map[1 := Some("a"), 2 := Some("b"), 3 := Some("c")], map["a" := 1, "b" := 2, "c" := 3], 4)

  const INVITED := THREE_ONLINE.(invites := map["i" := Invites.Invite("i", "a", "b", 0)])

  lemma ThreePlayersAreOnline()
    ensures LegalRun(EMPTY_WORLD, THREE_PLAYERS)
    ensures After(EMPTY_WORLD, THREE_PLAYERS) == THREE_ONLINE
  {
    NewcomerConnects([], EMPTY_WORLD, NAME_A, "a", THREE_PLAYERS[..2]);
    var one := Connections(map["a" := NamedPlayer(NAME_A, 1)], map[1 := Some("a")], map["a" := 1], 2);
    NewcomerConnects(THREE_PLAYERS[..2], one, NAME_B, "b", THREE_PLAYERS[..4]);
    var two := Connections(map["a" := NamedPlayer(NAME_A, 1), "b" := NamedPlayer(NAME_B, 2)],
                           map[1 := Some("a"), 2 := Some("b")], map["a" := 1, "b" := 2], 3);
    NewcomerConnects(THREE_PLAYERS[..4], two, NAME_C, "c", THREE_PLAYERS);
  }

  lemma InvitedAgrees()
    ensures LegalRun(EMPTY_WORLD, INVITATION) && After(EMPTY_WORLD, INVITATION) == INVITED && Agree(INVITED)
  {
    ThreePlayersAreOnline();
    var invite := Message(1, Invite(Some("b"), "i", 0));
    OneMore(THREE_PLAYERS, THREE_ONLINE, invite, INVITATION);
    assert Next(THREE_ONLINE, invite) == INVITED;
    ServerSteps.RunIsSound(INVITATION);
  }

  // The third answers, and plays.
  const INTRUSION := INVITATION + [Message(3, InviteResponse(Some("i"), Some(true), Ticket("g", true), 0))]

  lemma StrangersAnswer()
    ensures var e := INTRUSION[|INVITATION|];
      && Possible(INVITED, e)
      && Next(INVITED, e).archive.games == map["g" := NewMatch("a", "c", "a")] && Next(INVITED, e).invites == map[]
  {
    assert INVITED.invites - {"i"} == map[];
  }

  lemma StrangerAccepts()
    ensures LegalRun(EMPTY_WORLD, INTRUSION)
    ensures var n := After(EMPTY_WORLD, INTRUSION);
      n.archive.games == map["g" := NewMatch("a", "c", "a")] && n.invites == map[]
  {
    InvitedAgrees();
    StrangersAnswer();
    OneMore(INVITATION, INVITED, INTRUSION[|INVITATION|], INTRUSION);
  }

  // ----- Games of a player against themselves

  // From an invite to oneself: never in battle.
  lemma SelfGameHasNoBattle(g: Guid, ops: seq<Op>)
    ensures Run(NewMatch(g, g, g), ops).phase != Battle
  {
    RunKeepsInv(g, g, g, ops);
  }

  lemma TwoPlayersReachBattle(one: Guid, two: Guid, first: Guid) returns (ops: seq<Op>)
    requires one != two && (first == one || first == two)
    ensures Run(NewMatch(one, two, first), ops).phase == Battle
  {
    var draws := RandomPlacer.CanAlwaysFinish([], 0);
    var start := NewMatch(one, two, first);
    ops := [RandomOp(one, draws), RandomOp(two, draws), StartOp];
    var m1 := PlaceRandomly(start, one, draws).0;
    var m2 := PlaceRandomly(m1, two, draws).0;
    MatchEffects.RunOnce(start, [], RandomOp(one, draws), [RandomOp(one, draws)]);
    MatchEffects.RunOnce(start, [RandomOp(one, draws)], RandomOp(two, draws), ops[..2]);
    MatchEffects.RunOnce(start, ops[..2], StartOp, ops);
    assert m2.one.ready && m2.two.ready && m2.phase == Placing;
  }

  // A game can reach the battle if and only if its players are two.
  lemma BattleNeedsTwo(one: Guid, two: Guid, first: Guid)
    requires first == one || first == two
    ensures (exists ops :: Run(NewMatch(one, two, first), ops).phase == Battle) <==> one != two
  {
    if one != two {
      var ops := TwoPlayersReachBattle(one, two, first);
    } else {
      forall ops ensures Run(NewMatch(one, two, first), ops).phase != Battle {
        SelfGameHasNoBattle(one, ops);
      }
    }
  }

  // ----- Who wins when somebody gives up

  // Whoever gives up and the winner are the two players if and only if the giver-up is a player. Else
  // the first player wins.
  lemma OpponentWins(m: Match, g: Guid, reason: Reason)
    requires m.phase != Finished
    ensures var n := GiveUp(m, g, reason);
      && n.winner.Some?
      && ({g, n.winner.value} == {m.one.guid, m.two.guid} <==> IsPlayer(m, g))
      && (!IsPlayer(m, g) ==> n.winner == Some(m.one.guid))
  {
    assert IsPlayer(m, g) <==> g in {m.one.guid, m.two.guid};
    assert g in {g, GiveUp(m, g, reason).winner.value};
  }

  lemma StrangerGivesUp()
    ensures GiveUp(NewMatch("a", "b", "a"), "c", Surrendered).winner == Some("a")
  {
  }

  // On the server only players give up: the game that ends is the player's own, and the other one wins.
  lemma GiverUpPlays(w: World, g: Guid, reason: Reason)
    requires Sound(w) && Playing(w.archive, g)
    ensures var id := w.archive.index[g];
      var m, n := w.archive.games[id], EndGame(w, g, reason).archive.games[id];
      && IsPlayer(m, g) && n.winner.Some? && {g, n.winner.value} == {m.one.guid, m.two.guid}
  {
    OpponentWins(w.archive.games[w.archive.index[g]], g, reason);
  }
}
