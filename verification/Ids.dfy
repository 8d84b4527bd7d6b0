/** Names of players, games, invites and sessions. */
module Ids {
  type Guid = string
  type GameId = string
  type InviteId = string
  type SessionId = nat
}
