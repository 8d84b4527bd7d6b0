/** The connected sessions and which player speaks on which. */
module Sessions {
  import opened Ids
  import opened Options

  // The player of each session, if it is authorised.
  type Connected = map<SessionId, Option<Guid>>
  type Bound = map<Guid, SessionId>

  class SessionManager {
    var sessions: Connected
    var bound: Bound
    var nextId: SessionId
    // Session objects that are no longer registered and live on in their pending completions.
    var closed: Connected

    constructor ()
      ensures sessions == map[] && bound == map[] && nextId == 1 && closed == map[]
    {
      sessions, bound, nextId, closed := map[], map[], 1, map[];
    }

    method AddSession() returns (id: SessionId)
      modifies this
      ensures id == old(nextId) && nextId == old(nextId) + 1
      ensures sessions == old(sessions)[id := None] && bound == old(bound) && closed == old(closed)
    {
      id := nextId;
      nextId := nextId + 1;
      sessions := sessions[id := None];
    }

    // The player to report as disconnected, if the session had one.
    method RemoveSession(id: SessionId) returns (player: Option<Guid>)
      modifies this
      ensures nextId == old(nextId)
      ensures player == if id in old(sessions) then old(sessions)[id] else None
      ensures sessions == old(sessions) - {id}
      ensures closed == if id in old(sessions) then old(closed)[id := player] else old(closed)
      ensures bound == if player.Some? then old(bound) - {player.value} else old(bound)
    {
      if id !in sessions {
        assert sessions - {id} == sessions;
        return None;
      }
      player := sessions[id];
      if player.Some? {
        bound := bound - {player.value};
      }
      sessions, closed := sessions - {id}, closed[id := player];
    }

    method BindPlayerToSession(g: Guid, id: SessionId)
      modifies this
      ensures sessions == old(sessions) && nextId == old(nextId) && closed == old(closed)
      ensures bound == if g == "" then old(bound) else old(bound)[g := id]
    {
      if g == "" {
        return;
      }
      bound := bound[g := id];
    }

    // The player of a session object.
    method GetPlayer(id: SessionId) returns (player: Option<Guid>)
      requires id in sessions || id in closed
      ensures player == if id in sessions then sessions[id] else closed[id]
    {
      player := if id in sessions then sessions[id] else closed[id];
    }

    method SetPlayer(id: SessionId, g: Guid)
      modifies this
      ensures sessions == if id in old(sessions) then old(sessions)[id := Some(g)] else old(sessions)
      ensures closed == if id in old(sessions) then old(closed) else old(closed)[id := Some(g)]
      ensures bound == old(bound) && nextId == old(nextId)
    {
      if id in sessions {
        sessions := sessions[id := Some(g)];
      } else {
        closed := closed[id := Some(g)];
      }
    }
  }
}
