/** Building blocks of runs of the server on concrete inputs: players with valid names connect and
    authorise. */
module Histories {
  import opened Bytes
  import opened Ids
  import opened Options
  import opened Players
  import opened GameArchive
  import opened Sessions
  import opened ServerState
  import Nickname

  lemma OneMore(run: seq<Event>, before: World, e: Event, longer: seq<Event>)
    requires LegalRun(EMPTY_WORLD, run) && After(EMPTY_WORLD, run) == before && Possible(before, e)
    requires longer == run + [e]
    ensures LegalRun(EMPTY_WORLD, longer) && After(EMPTY_WORLD, longer) == Next(before, e)
  {
    assert longer[..|run|] == run;
  }

  const NAME_A: seq<Byte> := [0x61, 0x61, 0x61]
  const NAME_B: seq<Byte> := [0x62, 0x62, 0x62]
  const NAME_C: seq<Byte> := [0x63, 0x63, 0x63]

  predicate IsName(nickname: seq<Byte>) {
    nickname == NAME_A || nickname == NAME_B || nickname == NAME_C
  }

  lemma NamesAreValid(nickname: seq<Byte>)
    requires IsName(nickname)
    ensures ValidNickname(nickname)
  {
    var cps: seq<int> := [nickname[0], nickname[1], nickname[2]];
    Nickname.AllowedIsScalar(cps);
    assert Nickname.Nickname(nickname, cps);
  }

  function NamedPlayer(nickname: seq<Byte>, s: SessionId): Player {
    Player(nickname, Online, None, Some(s), NO_STATS)
  }

  function AuthOf(s: SessionId, nickname: seq<Byte>, g: Guid): Event {
    Message(s, Auth(Some(nickname), None, g, g))
  }

  // Somebody new authorises.
  lemma NewcomerBound(w: World, s: SessionId, nickname: seq<Byte>, g: Guid)
    requires Speaks(w, s) && PlayerOf(w, s).None? && g !in w.roster && g != ""
    requires IsName(nickname) && !Named(w.roster, nickname)
    ensures var e := AuthOf(s, nickname, g);
      && Possible(w, e)
      && Next(w, e) == SetPlayer(w, s, g).(roster := w.roster[g := NamedPlayer(nickname, s)], bound := w.bound[g := s])
  {
    NamesAreValid(nickname);
    var r := w.roster[g := NewPlayer(nickname)];
    assert r[g := r[g].(session := Some(s), status := Online)] == w.roster[g := NamedPlayer(nickname, s)];
  }

  // Players on registered sessions, and nothing else.
  function Connections(r: Roster, sessions: Connected, bound: Bound, next: SessionId): World {
    World(r, sessions, map[], bound, next, [], map[], Archive(map[], map[]))
  }

  // On a session that has just been registered.
  lemma NewcomerOnNewSession(w: World, nickname: seq<Byte>, g: Guid)
    requires g !in w.roster && g != "" && IsName(nickname) && !Named(w.roster, nickname)
    ensures var s, e := w.nextSession, AuthOf(w.nextSession, nickname, g);
      && Possible(HandleConnect(w), e)
      && Next(HandleConnect(w), e) ==
         w.(roster := w.roster[g := NamedPlayer(nickname, s)], sessions := w.sessions[s := Some(g)],
            bound := w.bound[g := s], nextSession := s + 1)
  {
    NewcomerBound(HandleConnect(w), w.nextSession, nickname, g);
    assert HandleConnect(w).sessions[w.nextSession := Some(g)] == w.sessions[w.nextSession := Some(g)];
  }

  // Somebody new connects and authorises.
  lemma NewcomerConnects(run: seq<Event>, w: World, nickname: seq<Byte>, g: Guid, longer: seq<Event>)
    requires LegalRun(EMPTY_WORLD, run) && After(EMPTY_WORLD, run) == w
    requires g !in w.roster && g != "" && IsName(nickname) && !Named(w.roster, nickname)
    requires longer == run + [Connect, AuthOf(w.nextSession, nickname, g)]
    ensures LegalRun(EMPTY_WORLD, longer)
    ensures var s := w.nextSession;
      After(EMPTY_WORLD, longer) ==
      w.(roster := w.roster[g := NamedPlayer(nickname, s)], sessions := w.sessions[s := Some(g)],
         bound := w.bound[g := s], nextSession := s + 1)
  {
    var s := w.nextSession;
    OneMore(run, w, Connect, run + [Connect]);
    NewcomerOnNewSession(w, nickname, g);
    assert longer == run + [Connect] + [AuthOf(s, nickname, g)];
    OneMore(run + [Connect], HandleConnect(w), AuthOf(s, nickname, g), longer);
  }
}
