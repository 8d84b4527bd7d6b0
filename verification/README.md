# Sea Battle server: a verified model

The repository is a server for the game Sea Battle. Clients connect over TCP, send length-prefixed
messages, choose a nickname, find an opponent through a queue or an invite, place a fleet on a 10 by 10
board and shoot in turn. This project models that behaviour in Dafny and proves what it is meant to
guarantee, over every input and every run.

Each part has two layers. The code that works in place is a class with the source's own fields and
loops (`Board` with an array grid and ships with hit sets, `Game`, `Session`, the managers, the
handlers). Its methods are proved equal to functions on values (`Fire`, `Shoot`, `Place`, `Unpack`,
`TryMatch`, `Next`), and the theorems about runs are proved of those functions.

- **Board and fleet** (`Geometry`, `SeaState`, `BoardModel`). A board is a fleet and a set of attacked
  cells; the grid and the hit sets of the ships are two records of it that agree after every shot.
- **Rules and placing** (`GameRules`, `RandomPlacer`). The validator, the sequential placer and an
  order-free specification accept the same fleets. The random placer only returns legal fleets, and it
  is never stuck: in whatever position its loop is, some draw places the next ship.
- **The game** (`MatchState`, `MatchEffects`, `MatchRuns`, `GameModel`). What each operation achieves;
  the phases over whole runs; who may win; turns and misses; at most 199 accepted shots; the client that
  replays the answers sees the fog of war.
- **Nicknames** (`Nickname`). The byte scanner decides exactly the UTF-8 encodings (RFC 3629, section 3)
  of 3 to 15 permitted characters.
- **The wire** (`Framing`, `SessionWriter`). Framing round trips, the two-phase reader against repeated
  unpacking under any fragmentation, and the writer protocol under every interleaving of senders and
  completions, down to what the receiver gets.
- **Lobby** (`Invites`, `Matchmaking`, `Drain`, `Players`, `Sessions`, `GameArchive`).
- **The server** (`ServerState`, `ServerInvariant`, `ServerSteps`, `Effects`, `ShotLog`, `LateMessages`,
  `Surprises`, `Histories`, `Statistics`, `Records`, `MessageHandling`). Every request, connection and
  disconnection is one atomic step, and a session that has been removed can still deliver a message. What
  each of them achieves is told by the statuses, grids, queue and invites before it. The scattered maps
  are sound after every run, and in full agreement exactly as long as no late message of two kinds
  arrives. The statistics of all players add up to what all games show, each player's own record is what
  the games show of them, and every accepted shot of a run is counted once, for the one who fired it.

What is chosen outside is a parameter: random draws, the coin for the first turn, new identifiers
(assumed unused), the clock. A call of the random placer is given the draws it consumes; a call that
has not returned on them is `Running`.

## What the code does that a reader may not expect

- A message that was on its way when its session was removed is still served. A late authorisation
  leaves its player Online on a session that is gone, for good (`LateMessages.LateAuthStrands`,
  `LateMessages.StrandedForever`); a late invite stands in the store with an Offline sender
  (`LateMessages.LateInviteIsStored`). Nothing else breaks: `LateMessages.StepAgrees` is the exact
  condition, and statistics and records are not affected.
- Whoever answers an invite becomes the second player; nobody compares them with the addressee. When the
  game is between the invite's two players is `Surprises.AcceptedByTheInvited`, and
  `Surprises.StrangerAccepts` is an input where it is not. A player may even accept their own invite; a
  game can reach the battle if and only if its two players differ (`Surprises.BattleNeedsTwo`).
- A stranger's guid in `surrender` or `handleDisconnect` makes the first player win
  (`Surprises.OpponentWins`, `Surprises.StrangerGivesUp`). The server only passes guids of players
  (`Surprises.GiverUpPlays`).
- `handleAuth` renames a player who comes with a known guid before it finds out that the account is in
  use, so the new nickname stays after a refusal (`Surprises.RefusedReconnectRenames`).
- `removeGame` of an old game drops newer index entries of its players. Exactly when this loses an
  unfinished game is `GameArchive.RemovalKeepsCompleteness`, and a history that does lose one is
  `GameArchive.RemovalBreaksCompleteness`. No handler calls it.
- `declineInvite` and `cancelInvite` answer true for an expired invite that has not been cleaned up, and
  `getInviteCount` counts it; so their answers, unlike those of all other operations, depend on when the
  cleanup ran. The exact conditions are `Invites.DeclineSeesExpired`, `Invites.CancelSeesExpired` and
  `Invites.CountSeesExpired`, and `Invites.ExpiredIsSeen` is an input for all three.
- A write that starts after `close` can only fail. Exactly when the writer can still come to rest is
  `SessionWriter.RestIffNotClogged`; on an open session without a failed write it always can.
- `unpackMessage` cannot tell an oversized frame from an incomplete one; the reader of a session can, and
  closes (`Framing.ReaderAgreesWithUnpack`).

## Model

| member | source | states |
|---|---|---|
| BoardModel.Ship.constructor | server/src/game/Ship.cpp:5-14 | a new ship holds exactly its placement's cells and no hits |
| BoardModel.Ship.ContainsCell | server/src/game/Ship.cpp:26-33 | the loop over the cells finds exactly the covered cells |
| BoardModel.Ship.RecordHit | server/src/game/Ship.cpp:16-20 | a hit is recorded if and only if the ship covers the cell; cells stay |
| BoardModel.Ship.IsSunk | server/src/game/Ship.cpp:22-24 | comparing two cardinalities decides that every cell of the ship has been hit |
| BoardModel.Board.constructor | server/src/game/Board.cpp:8-10 | a new board is valid, without ships and shots |
| BoardModel.Board.Clear | server/src/game/Board.cpp:12-17 | after clearing: no ships, no shots, grid and ship list in agreement |
| BoardModel.Board.HasAdjacentShip | server/src/game/Board.cpp:23-34 | the nine-cell scan finds a ship cell if and only if one is within distance one on the board |
| BoardModel.Board.CanPlaceShip | server/src/game/Board.cpp:36-50 | on any board: the ship fits and no cell of it is near a Ship cell; on a board without shots that is: the ship fits and stays apart from every ship placed |
| BoardModel.Board.PlaceShip | server/src/game/Board.cpp:52-69 | joins the fleet if and only if it fits and touches no ship; a refusal changes nothing; the grid keeps agreeing with the fleet |
| BoardModel.Board.Shoot | server/src/game/Board.cpp:71-101 | grid, hit sets and answer become those of the value-level shot, for all coordinates; grid and hit sets agree again afterwards |
| BoardModel.Board.HitShipAt | server/src/game/Board.cpp:89-100 | the loop always finds the ship that was hit, so the return after it is never reached |
| BoardModel.Board.StrikeShip | server/src/game/Board.cpp:90-96 | recording the hit, and on a kill marking the surroundings, brings both records to the state after the shot |
| BoardModel.Board.MarkSurroundingAsMiss | server/src/game/Board.cpp:103-110 | of the cells around the ship exactly the empty ones become Miss, all others stay |
| BoardModel.Board.GetSurroundingCells | server/src/game/Board.cpp:112-132 | the cells collected are the board cells next to the ship that it does not cover |
| BoardModel.Board.AreAllShipsSunk | server/src/game/Board.cpp:134-141 | comparing hit counts per ship decides that there is a ship and every cell of every ship was attacked |
| BoardModel.Board.GetCell | server/src/game/Board.cpp:143-148 | what the grid shows at a cell is what fleet and attacked cells say, Empty off the board |
| BoardModel.Board.GetShipAt | server/src/game/Board.cpp:150-157 | the ship covering the cell if there is one, else null |
| BoardModel.Board.GetFogOfWar | server/src/game/Board.cpp:159-172 | lists exactly the attacked cells, each once, row by row, with the state that the grid shows |
| BoardModel.Board.TryOneShip | server/src/game/Board.cpp:204-222 | the attempts of one ship end with the first draw that can join the fleet, or after 1000 that cannot |
| BoardModel.Board.PlaceShipsRandomly | server/src/game/Board.cpp:187-230 | over any restarts, the board ends with the fleet of the value-level placer, without shots |
| Geometry.CellsCount | server/src/game/Ship.cpp:5-14 | a ship has as many distinct cells as its size |
| Geometry.AllCellsCount | common/include/Types.hpp:68 | the board has 100 cells |
| Geometry.ApartByCoordinates | server/src/game/Board.cpp:23-50 | two ships are apart if and only if a free column or a free row runs between their rectangles |
| Geometry.NearByCoordinates | server/src/game/GameRules.cpp:67-75 | the cells near a ship are those of its rectangle widened by one |
| SeaState.FireAnswers | server/src/game/Board.cpp:71-101 | the grid before the shot decides the answer: off the board, attacked already, open water, or a ship |
| SeaState.SurroundIsRing | server/src/game/Board.cpp:112-132 | the cells around a ship are the rest of its widened rectangle, as far as the board goes |
| SeaState.SurroundIsWater | server/src/game/Board.cpp:112-132 | under the no-touch rule no cell around a ship holds a ship |
| SeaState.FireKeepsWellFormed | server/src/game/Board.cpp:71-110 | every shot keeps the fleet and the no-touch rule, and attacks only board cells |
| SeaState.FireView | server/src/game/Board.cpp:71-110 | a shot changes the target cell and, on a kill, the water around the ship, nothing else; every answer matches the cell before and after |
| SeaState.FireHits | server/src/game/Board.cpp:89-98 | of all ship cells only the one shot at becomes attacked, also when surroundings are marked; the first ship found is the only one there |
| SeaState.KillIsLastCell | server/src/game/Board.cpp:89-97 | a shot answers Kill if and only if it turns the last Ship cell of a ship into Hit |
| SeaState.VictoryReadsTheGrid | server/src/game/Board.cpp:134-141 | for a non-empty fleet all ships are sunk if and only if no grid cell shows Ship |
| SeaState.OccupiedCount | server/src/game/Board.cpp:52-65 | a fleet that keeps the no-touch rule covers as many cells as its sizes add up to |
| SeaState.ShipCellsAreConserved | server/src/game/Board.cpp:71-110 | Ship cells and Hit cells together stay as many as the fleet's sizes add up to |
| SeaState.FireCounts | server/src/game/Board.cpp:71-101 | an accepted shot attacks at least one more cell, Hit and Kill add exactly one Hit cell, a refused shot changes nothing |
| SeaState.AttackedBound | server/src/game/Board.cpp:71-101 | at most 100 cells are attacked, at most 99 while a fleet is afloat |
| GameRules.CheckShipCounts | server/src/game/GameRules.cpp:22-30 | accepts exactly one ship of size 4, two of 3, three of 2 and four of 1 |
| GameRules.CheckBounds | server/src/game/GameRules.cpp:32-46 | accepts exactly when both ends of every ship are within the board |
| GameRules.CheckOverlapAndTouching | server/src/game/GameRules.cpp:48-79 | the forbidden-cells loop accepts exactly when no two ships overlap or touch, for ships of any size and anywhere |
| GameRules.ValidatePlacement | server/src/game/GameRules.cpp:81-99 | the verdict names the first rule broken, in the order total, counts, bounds, touching |
| GameRules.SizesAreLegal | server/src/game/GameRules.cpp:22-30 | ten ships with the right counts have no other sizes than 1 to 4 |
| GameRules.BoundsMeanFits | server/src/game/GameRules.cpp:32-46 | checking both ends of a ship checks every cell of it |
| GameRules.InTurnIsPairwise | server/src/game/Game.cpp:134-139 | placing ships one by one never fails if and only if all fit and no two touch |
| GameRules.ValidatorAgreesWithPlacer | server/src/game/GameRules.cpp:81-99 | for lists that pass the counts: validator, sequential placer and pairwise rule accept the same lists |
| GameRules.LegalNeverRefused | server/src/game/Game.cpp:134-139 | no ship of a validated list is refused in its turn |
| GameRules.NoTouchIsUnordered | server/src/game/GameRules.cpp:48-79 | the touching check depends on the ships only, not on their order |
| GameRules.SizeCountIsUnordered | server/src/game/GameRules.cpp:22-30 | nor do the counts |
| GameRules.JudgeIsUnordered | server/src/game/GameRules.cpp:81-99 | two lists that are permutations of each other get the same verdict |
| GameRules.VerdictNamesTheRule | server/src/game/GameRules.cpp:81-99 | each refusal names a rule that the list breaks, with the ship, the size or the pair that breaks it |
| RandomPlacer.RestartsAfterThousand | server/src/game/Board.cpp:206-228 | after a thousand draws that cannot place a ship, all ships are taken back and placing begins again |
| RandomPlacer.PlaceTried | server/src/game/Board.cpp:203-229 | the placer draw by draw is the nested loops ship by ship: first success moves on, 1000 failures restart |
| RandomPlacer.OnCourseCounts | server/src/game/Board.cpp:193-201 | a fleet built in the placer's order has, at every point, the size counts of that prefix of the order |
| RandomPlacer.PlacedIsLegal | server/src/game/Board.cpp:187-230 | for every stream of draws, over any restarts, a fleet that is returned passes the validator |
| RandomPlacer.BlockedCount | server/src/game/Board.cpp:36-50 | a placed ship blocks at most two of the slots in rows 0, 3, 6 and 9, at most one if both are single cells |
| RandomPlacer.FleetBlocks | server/src/game/Board.cpp:36-50 | the slots that a partial fleet blocks stay within its budget |
| RandomPlacer.NeverStuck | server/src/game/Board.cpp:203-222 | in every position of the loop some draw within the distributions' ranges places the next ship |
| RandomPlacer.CanAlwaysFinish | server/src/game/Board.cpp:203-229 | from every position there are draws, one a ship, that finish the fleet without a restart |
| MatchState.LegalIsAfloat | server/src/game/Game.cpp:126-142 | a validated fleet keeps the no-touch rule and is not sunk before a shot |
| MatchState.OnlyKillsSink | server/src/game/Game.cpp:190-200 | the last ship of a fleet goes down only with the answer Kill, so the victory test is in the right branch |
| MatchState.LegalFleetCells | common/include/Types.hpp:74-75 | a legal fleet covers 20 cells, and after any shots as many cells show Ship or Hit |
| MatchState.NewIsInv | server/src/game/Game.cpp:12-26 | a new game satisfies the invariant |
| MatchState.PlaceKeepsInv | server/src/game/Game.cpp:119-143 | placing, accepted or not, leaves a ready player with a complete legal fleet without shots |
| MatchState.RandomKeepsInv | server/src/game/Game.cpp:145-155 | so does random placing |
| MatchState.StartKeepsInv | server/src/game/Game.cpp:157-163 | the battle starts with two legal fleets |
| MatchState.ShootKeepsInv | server/src/game/Game.cpp:165-204 | a shot keeps the invariant; if it ends the game, the loser's board is sunk and the winner's is not |
| MatchState.GiveUpKeepsInv | server/src/game/Game.cpp:214-240 | surrender and disconnection give the game to one of its two players |
| MatchState.StepKeepsInv | server/src/game/Game.cpp:119-240 | every operation keeps the invariant of the game |
| MatchState.RunKeepsInv | server/src/game/Game.cpp:119-240 | so after every run: ready means a legal fleet; a winner exists if and only if the game is finished and is one of the players; all_ships_sunk means the loser's board is sunk and the winner's is not |
| MatchState.PhasesMoveForward | server/src/game/Game.cpp:119-240 | phases only move Placing, Battle, Finished; a finished game never changes again in winner, reason, turn or boards |
| MatchEffects.LegalFleetIsPlaced | server/src/game/Game.cpp:119-143 | while placing, a player's legal fleet stands on that player's board, the player is ready and nothing else changes; in every other case nothing changes at all |
| MatchEffects.RandomFleetIsPlaced | server/src/game/Game.cpp:145-155 | so for the random placer's fleet, which is legal |
| MatchEffects.BattleStarts | server/src/game/Game.cpp:157-163 | the battle starts if and only if the game is placing and both are ready; only the phase changes |
| MatchEffects.PlacingLeadsToBattle | server/src/game/Game.cpp:119-163 | two different players who place legal fleets and start are in battle with exactly these fleets, the chosen player to shoot |
| MatchEffects.RefusedShot | server/src/game/Game.cpp:172-184 | a shot is accepted if and only if the game is in battle, the shooter to move, and the cell on the board and not attacked; a refused one changes nothing |
| MatchEffects.AcceptedShot | server/src/game/Game.cpp:182-200 | an accepted shot marks its cell; open water passes the turn to the opponent, a ship keeps it; the shooter wins if and only if no Ship cell is left; the shooter's side stays |
| MatchEffects.ReportIsRight | server/src/game/Game.cpp:168-203 | the report names cell, answer and the player to shoot next, and a ship if and only if one was killed |
| MatchEffects.KilledCellsAreTheShip | server/src/game/Game.cpp:190-195 | the killed cells contain the one shot at, all show Hit, and the reported surroundings are exactly the board cells near them |
| MatchEffects.GivingUpEnds | server/src/game/Game.cpp:214-240 | surrender and disconnection end an unfinished game, each with its own reason, and change nothing but phase, winner and reason |
| MatchRuns.TurnsAlternate | server/src/game/Game.cpp:165-212 | after every run the starter is to shoot if and only if both have missed equally often, else the starter has missed once more |
| MatchRuns.MissParityIsTurn | server/src/game/Game.cpp:165-212 | miss counts differ by at most one, and the turn is the starter's if and only if their sum is even |
| MatchRuns.AcceptedWithinAttacked | server/src/game/Game.cpp:165-204 | in every run the accepted shots are no more than the attacked cells of both boards |
| MatchRuns.ShotBound | server/src/game/Game.cpp:165-204 | no run has more than 199 accepted shots |
| MatchRuns.MarkedIsFog | server/src/game/Board.cpp:71-132 | one answer applied to the fog of war gives the fog of war after the shot |
| MatchRuns.ReplayIsFog | server/src/game/Game.cpp:182-203 | in every run, a client that applies only the answers it is given holds exactly the fog of war of the opponent's board |
| MatchRuns.SurroundingReportsAreMisses | server/src/game/Game.cpp:190-195 | every cell reported as surrounding a killed ship shows Miss on the board |
| GameModel.Game.constructor | server/src/game/Game.cpp:12-26 | a new game, valid, with two separate empty boards and the coin's player to shoot |
| GameModel.Game.GetOpponentGuid | server/src/game/Game.cpp:62-69 | the opponent's guid, empty for a stranger |
| GameModel.Game.PlaceShips | server/src/game/Game.cpp:119-143 | the game becomes that of the value-level operation, including refusals and strangers; the other board is untouched |
| GameModel.Game.PutDown | server/src/game/Game.cpp:132-139 | a validated list always ends complete on the board; the failing branch is never taken |
| GameModel.Game.PlaceShipsRandomly | server/src/game/Game.cpp:145-155 | the player's board gets the random placer's fleet and the player is ready, only while placing |
| GameModel.Game.StartBattle | server/src/game/Game.cpp:157-163 | the battle starts if and only if the game is placing and both are ready |
| GameModel.Game.Shoot | server/src/game/Game.cpp:165-204 | board, turn, winner and the whole report are those of the value-level shot, on every input |
| GameModel.Game.SwitchTurn | server/src/game/Game.cpp:206-212 | the turn goes to the other player, nothing else changes |
| GameModel.Game.Surrender | server/src/game/Game.cpp:214-223 | the other player wins by surrender unless the game was over |
| GameModel.Game.HandleDisconnect | server/src/game/Game.cpp:225-234 | the other player wins by disconnection unless the game was over |
| GameModel.Game.FinishGame | server/src/game/Game.cpp:236-240 | sets phase, winner and reason, and nothing else |
| Nickname.PrefixFree | server/src/game/GameRules.cpp:115-136 | no UTF-8 encoding of one code point is the beginning of another's |
| Nickname.Remainder | server/src/game/GameRules.cpp:148-159 | what follows the encodings read so far encodes the code points still to come |
| Nickname.DecompositionIsUnique | server/src/game/GameRules.cpp:148-159 | a byte string is the encoding of at most one sequence of code points |
| Nickname.IsValidUtf8Cyrillic | server/src/game/GameRules.cpp:115-136 | consumes two bytes exactly if they encode a permitted Cyrillic letter; otherwise none starts there and the position stays |
| Nickname.IsValidNickname | server/src/game/GameRules.cpp:140-162 | accepts a byte string if and only if it is the UTF-8 encoding of 3 to 15 permitted characters |
| Nickname.EncodingIsUtf8 | server/src/game/GameRules.cpp:115-136 | the encoding is that of the table in section 3 of RFC 3629: shortest form, lead byte, continuation bytes of 6 bits |
| Nickname.AsciiNickname | server/src/game/GameRules.cpp:140-162 | a name in ASCII is accepted if and only if it is 3 to 15 letters, digits and underscores |
| Nickname.CyrillicBytes | server/src/game/GameRules.cpp:120-133 | the Cyrillic letters that are accepted are exactly the byte pairs D0 81, D0 90-BF, D1 80-8F and D1 91 |
| Framing.PackMessage | server/src/protocol/MessageParser.cpp:157-167 | the buffer is the 32-bit length in network order and then that many bytes of the message |
| Framing.UnpackMessage | server/src/protocol/MessageParser.cpp:169-193 | answer and bytes consumed, for every buffer: too short, oversized, incomplete, complete |
| Framing.NetworkRoundTrip | server/src/protocol/MessageParser.cpp:158-163 | reading the header gives back the length written |
| Framing.PackedLengthIsBigEndian | server/src/protocol/MessageParser.cpp:157-167 | the first four bytes of a packed message spell its length, most significant first; the message follows |
| Framing.UnpackReadsBigEndian | server/src/protocol/MessageParser.cpp:169-193 | what is unpacked and consumed is decided by that number and the limit of 1 MiB |
| Framing.HeaderReadsBigEndian | server/src/network/Session.cpp:40-49 | the length that the reader takes from a header is that number |
| Framing.RoundTrip | server/src/protocol/MessageParser.cpp:157-193 | a packed message with anything after it is unpacked to itself if and only if it is at most MAX_MESSAGE_SIZE long |
| Framing.IncompleteFrame | server/src/protocol/MessageParser.cpp:173-187 | no proper prefix of a frame is unpacked, and none consumes anything |
| Framing.ConsumedIsPacked | server/src/protocol/MessageParser.cpp:169-193 | the bytes consumed by a success are the packed form of what it returned |
| Framing.StreamRoundTrip | server/src/protocol/MessageParser.cpp:157-193 | repeated unpacking of any messages packed one after the other returns exactly them, and goes on with what follows |
| Framing.SessionReader.OnHeader | server/src/network/Session.cpp:40-49 | takes four bytes and waits for the body, or closes on an oversized length |
| Framing.SessionReader.OnBody | server/src/network/Session.cpp:53-73 | delivers the body as one message and waits for the next header |
| Framing.SessionReader.Receive | server/src/network/Session.cpp:28-73 | after each arrival everything that is complete has been delivered |
| Framing.ReaderAgreesWithUnpack | server/src/network/Session.cpp:28-73 | the header and body reader delivers what repeated unpacking returns, for every byte stream, and closes if and only if that stops at an oversized header |
| Framing.ChunksDoNotMatter | server/src/network/Session.cpp:28-73 | splitting the bytes in two arrivals at any point and in any state changes nothing |
| Framing.ArrivalsAreOneStream | server/src/network/Session.cpp:28-73 | any fragmentation is read like the whole stream at once |
| Framing.MessagesArrive | server/src/network/Session.cpp:28-73 | packed messages in any fragmentation are delivered exactly, with nothing pending |
| SessionWriter.Session.SendSection | server/src/network/Session.cpp:81-89 | the message joins log and queue, and the caller must write if and only if nobody was writing |
| SessionWriter.Session.WriteSection | server/src/network/Session.cpp:98-106 | takes the first frame, or gives up the writer role on an empty queue |
| SessionWriter.Session.Close | server/src/network/Session.cpp:119-128 | closes once: the answer tells whether this call did it |
| SessionWriter.Session.ClearSentMessages | server/src/network/Session.cpp:167-170 | empties the log and touches neither queue nor flag |
| SessionWriter.StartIsInv | server/src/network/Session.cpp:16-22 | a new session satisfies the writer invariant |
| SessionWriter.OneWriterKept | server/src/network/Session.cpp:75-117 | at most one write is outstanding; the flag is set if and only if exactly one party owns the writer role or a write failed; a non-empty queue implies the flag |
| SessionWriter.NothingLostKept | server/src/network/Session.cpp:75-117 | the frames of the accepted messages are those issued, the one held and those queued, in this order |
| SessionWriter.RunKeepsInv | server/src/network/Session.cpp:75-139 | all of this after every interleaving of any number of threads, completions, failures, closings and log clearings |
| SessionWriter.LogIsComplete | server/src/network/Session.cpp:81-84 | in runs that never clear it, the log holds all accepted messages in order |
| SessionWriter.OpenAccepts | server/src/network/Session.cpp:75-89 | on an open session whatever an idle thread sends is accepted as the last message |
| SessionWriter.ClosedIgnores | server/src/network/Session.cpp:76-77 | on a closed session a send does nothing |
| SessionWriter.ClosingCloses | server/src/network/Session.cpp:108-139 | closing and a failed write close the session; any write that is out may fail |
| SessionWriter.ClosedAcceptsNoMore | server/src/network/Session.cpp:75-89 | once closed and with no send under way, no run accepts anything more |
| SessionWriter.WriterHasStep | server/src/network/Session.cpp:94-117 | while the flag is set and the writer is not clogged (no write failed, and nothing is left to start or started too late on a closed session), some writer step is enabled and does part of the remaining work |
| SessionWriter.WriterDrains | server/src/network/Session.cpp:94-117 | from every reachable state that is not clogged, so from every one of an open session without a failed write, the writer alone empties the queue: no wakeup is lost |
| SessionWriter.CloggedForever | server/src/network/Session.cpp:108-139 | a clogged writer never comes to rest again, whatever happens |
| SessionWriter.RestIffNotClogged | server/src/network/Session.cpp:94-139 | the writer can come to rest if and only if it is not clogged |
| SessionWriter.AtRestAllIsIssued | server/src/network/Session.cpp:99-103 | when the flag is clear, every accepted message has been issued |
| SessionWriter.ReceiverGetsTheLog | server/src/network/Session.cpp:75-117 | at rest, a reader that gets the bytes issued in any fragmentation delivers the accepted messages exactly |
| Invites.InviteManager.CreateInvite | server/src/lobby/InviteManager.cpp:9-29 | refuses if and only if an unexpired invite for the same ordered pair exists, else stores exactly the new one |
| Invites.InviteManager.GetInvite | server/src/lobby/InviteManager.cpp:31-39 | the invite, if stored and not expired |
| Invites.InviteManager.AcceptInvite | server/src/lobby/InviteManager.cpp:41-59 | gives the pair of an unexpired invite and removes it, expired or not |
| Invites.InviteManager.DeclineInvite | server/src/lobby/InviteManager.cpp:61-70 | removes the invite and tells whether it was stored |
| Invites.InviteManager.CancelInvite | server/src/lobby/InviteManager.cpp:72-81 | removes the invite only for its sender |
| Invites.InviteManager.GetInvitesForPlayer | server/src/lobby/InviteManager.cpp:83-93 | the unexpired invites to the player |
| Invites.InviteManager.GetInvitesFromPlayer | server/src/lobby/InviteManager.cpp:95-105 | the unexpired invites by the player |
| Invites.InviteManager.RemoveInvitesForPlayer | server/src/lobby/InviteManager.cpp:107-117 | erasing while walking leaves exactly the invites that do not name the player |
| Invites.InviteManager.CleanupExpired | server/src/lobby/InviteManager.cpp:119-129 | erasing while walking leaves exactly the unexpired invites |
| Invites.InviteManager.HasActiveInvite | server/src/lobby/InviteManager.cpp:136-145 | the walk finds an unexpired invite of the pair if and only if there is one |
| Invites.ApplyAgrees | server/src/lobby/InviteManager.cpp:9-145 | stores that differ in expired invites only give the same answers and go on to differ in expired invites only |
| Invites.CleanupsAreInvisible | server/src/lobby/InviteManager.cpp:119-129 | with a monotone clock, cleanups anywhere in a run change no answer of get, accept, create, active test or lists |
| Invites.DeclineSeesExpired | server/src/lobby/InviteManager.cpp:61-70 | the answer of decline survives a cleanup if and only if the invite is not stored and expired |
| Invites.CancelSeesExpired | server/src/lobby/InviteManager.cpp:72-81 | the answer of cancel survives a cleanup if and only if it is not the sender's own expired invite that is still stored |
| Invites.CountSeesExpired | server/src/lobby/InviteManager.cpp:131-134 | the number of stored invites survives a cleanup if and only if none of them is expired |
| Invites.ExpiredIsSeen | server/src/lobby/InviteManager.cpp:61-81 | an expired invite that is declined, cancelled and counted before a cleanup and not after it |
| Invites.CreatedLives | server/src/lobby/InviteManager.cpp:9-29 | without an unexpired invite of the pair, the new one can be got for 30 seconds, and nothing else changes |
| Invites.SecondIsRefused | server/src/lobby/InviteManager.cpp:12-16 | as long as an invite can be got, a second one of the pair is refused |
| Invites.AcceptTakes | server/src/lobby/InviteManager.cpp:41-59 | accepting gives the pair of what can be got; nobody gets it afterwards, all others stay |
| Invites.DeclineTakes | server/src/lobby/InviteManager.cpp:61-70 | a declined invite cannot be got any more, all others can |
| Invites.CancelTakes | server/src/lobby/InviteManager.cpp:72-81 | only the sender's cancelling takes an invite away, and only that one |
| Invites.RemoveTakes | server/src/lobby/InviteManager.cpp:107-117 | no invite of a removed player can be got, sent or received; all others can |
| Invites.CleanupTakes | server/src/lobby/InviteManager.cpp:119-129 | after a cleanup exactly what can be got is stored |
| Invites.ListsAreWhatCanBeGot | server/src/lobby/InviteManager.cpp:83-145 | lists and active test speak of exactly the invites that can be got |
| Invites.OneActivePerPair | server/src/lobby/InviteManager.cpp:9-29 | in every run at most one unexpired invite exists for each ordered pair |
| Invites.NeverAcceptedAgain | server/src/lobby/InviteManager.cpp:41-59 | an id that is gone and not generated again is never accepted |
| Invites.StoredWasCreated | server/src/lobby/InviteManager.cpp:18-28 | every stored invite was stored at the beginning or created in the run |
| Invites.AcceptedOnce | server/src/lobby/InviteManager.cpp:41-59 | in a whole run from an empty store whose generated ids are new, each id is accepted at most once |
| Matchmaking.Matchmaker.AddPlayer | server/src/lobby/Matchmaker.cpp:9-27 | a player already queued stays where they are, a new one goes to the end |
| Matchmaking.Matchmaker.RemovePlayer | server/src/lobby/Matchmaker.cpp:29-38 | every entry of the player goes, the others keep their order |
| Matchmaking.Matchmaker.TakeFirst | server/src/lobby/Matchmaker.cpp:47-58 | the erasing loop takes the first players who are Online, and leaves the others in order |
| Matchmaking.Matchmaker.TryMatchPlayers | server/src/lobby/Matchmaker.cpp:40-69 | queue and answer are those of the value-level match |
| Matchmaking.MatchIsOfTheFirstTwo | server/src/lobby/Matchmaker.cpp:40-62 | a match exists if and only if two queued players are Online, is of the first two, and removes only them |
| Matchmaking.NoMatchKeepsTheQueue | server/src/lobby/Matchmaker.cpp:64-68 | a failed match keeps the members and moves at most the one Online player to the front |
| Matchmaking.TryMatchKeepsDistinct | server/src/lobby/Matchmaker.cpp:40-69 | nobody is in the queue twice afterwards, and the matched two are different and gone from it |
| Matchmaking.RemoveMembers | server/src/lobby/Matchmaker.cpp:29-38 | removal takes out exactly the one player and keeps entries distinct |
| Matchmaking.AddJoins | server/src/lobby/Matchmaker.cpp:9-27 | who does not wait yet is last in the queue afterwards; who does keeps their place |
| Matchmaking.RemoveTakesOut | server/src/lobby/Matchmaker.cpp:29-38 | removal takes out exactly the one place and keeps the order of the others |
| Drain.OneRound | server/src/lobby/Lobby.cpp:28-43 | one round starts a game of the first two Online players and leaves the other Online players in order |
| Drain.CheckMatchmakingDrains | server/src/network/MessageHandler.cpp:598-611 | from k Online players in the queue exactly k/2 games are created, of the Online players 2i and 2i+1 in queue order; k mod 2 of them stay, at the front |
| GameArchive.GameManager.CreateGame | server/src/game/GameManager.cpp:8-19 | stores the new game and indexes it under both players |
| GameArchive.GameManager.GetGameByPlayer | server/src/game/GameManager.cpp:39-49 | the stored game that the index names, if any |
| GameArchive.GameManager.RemoveGameById | server/src/game/GameManager.cpp:51-61 | drops the game and the entries of both its players, whatever they name |
| GameArchive.AddedIsFound | server/src/game/GameManager.cpp:8-19 | a stored game is found by both its players; everybody else finds what they found before |
| GameArchive.RemovedIsGone | server/src/game/GameManager.cpp:51-61 | a removed game is found by nobody, the other games stay stored |
| GameArchive.IndexStaysSound | server/src/game/GameManager.cpp:8-61 | over every sequence of creations and removals the index names only stored games in which the player takes part |
| GameArchive.RemovalKeepsCompleteness | server/src/game/GameManager.cpp:51-61 | a removal leaves every unfinished game indexed by its players if and only if its players are in no other unfinished game |
| GameArchive.RemovalBreaksCompleteness | server/src/game/GameManager.cpp:51-61 | a history in which removing a finished game hides an unfinished one |
| Players.PlayerManager.FindOrCreatePlayer | server/src/player/PlayerManager.cpp:41-57 | creates a player if and only if nobody has the nickname, else finds one who has it |
| Players.PlayerManager.SetPlayerOnline | server/src/player/PlayerManager.cpp:64-74 | a known player gets session and status |
| Players.PlayerManager.SetPlayerOffline | server/src/player/PlayerManager.cpp:76-84 | a known player loses session and current game and is Offline |
| Sessions.SessionManager.AddSession | server/src/network/SessionManager.cpp:8-16 | a new session gets the next number and has no player |
| Sessions.SessionManager.RemoveSession | server/src/network/SessionManager.cpp:24-41 | the session goes, and the binding of its player with it; the session object keeps its player |
| Sessions.SessionManager.BindPlayerToSession | server/src/network/SessionManager.cpp:69-75 | binds a non-empty guid, replacing an older binding |
| MessageHandling.Server.constructor | server/src/network/Server.cpp:15-27 | the server starts in the empty world |
| MessageHandling.Server.CreateGame | server/src/game/GameManager.cpp:8-28 | a new game is stored and indexed and both players are in it, as in the step |
| MessageHandling.Server.NotifyGameOver | server/src/network/MessageHandler.cpp:555-572 | winner and loser are found, counted and back online, as in the step |
| MessageHandling.Server.CountResult | server/src/player/PlayerStats.cpp:5-15 | one win for the winner and one loss for the loser, if they are known |
| MessageHandling.Server.RecordShot | server/src/network/MessageHandler.cpp:468-498 | a refused shot counts nothing; an accepted one counts as shot and perhaps hit, and ends the game if it was the last |
| MessageHandling.Server.CheckMatchmaking | server/src/network/MessageHandler.cpp:598-611 | the loop runs until no two queued players are Online, and is the step's recursion |
| MessageHandling.Server.HandleFindGame | server/src/network/MessageHandler.cpp:252-266 | refines its step |
| MessageHandling.Server.HandleCancelSearch | server/src/network/MessageHandler.cpp:268-273 | refines its step |
| MessageHandling.Server.HandleInvite | server/src/network/MessageHandler.cpp:275-317 | refines its step, with every refusal |
| MessageHandling.Server.HandleInviteResponse | server/src/network/MessageHandler.cpp:319-363 | refines its step, with every refusal |
| MessageHandling.Server.HandlePlaceShips | server/src/network/MessageHandler.cpp:401-439 | the handler does to the mutable game that the index names what the step does to the stored game; without a game nothing changes |
| MessageHandling.Server.HandleShoot | server/src/network/MessageHandler.cpp:441-499 | the handler does to the mutable game that the index names, and to the players, what the step does; without a game nothing changes |
| MessageHandling.Server.HandleSurrender | server/src/network/MessageHandler.cpp:501-518 | refines its step |
| MessageHandling.Server.EndGameOf | server/src/network/Server.cpp:120-126 | an unfinished game of the player is given up and its end notified, otherwise nothing changes |
| MessageHandling.Server.HandleConnect | server/src/network/SessionManager.cpp:8-16 | refines its step |
| MessageHandling.Server.HandleAuth | server/src/network/MessageHandler.cpp:87-158 | refines its step: renaming, finding, creating, every refusal |
| MessageHandling.Server.IdentifyPlayer | server/src/network/MessageHandler.cpp:110-135 | the player of an authorisation: known by guid and perhaps renamed, found by nickname if not online, or new |
| MessageHandling.Server.BindTo | server/src/network/MessageHandler.cpp:137-150 | session, player and binding are set together, on a registered or a removed session, unless the player is online elsewhere |
| MessageHandling.Server.OnPlayerDisconnect | server/src/network/Server.cpp:115-129 | queue, invites, game and status after a disconnection |
| MessageHandling.Server.HandleDrop | server/src/network/SessionManager.cpp:24-46 | refines its step |
| ServerInvariant.OneGameAtATime | server/src/game/GameManager.cpp:14-19 | when the maps agree, nobody is in two unfinished games |
| ServerInvariant.IndexAfterStart | server/src/game/GameManager.cpp:14-19 | a new game of two players who play nothing keeps the index complete and leaves all others where they were |
| ServerInvariant.IndexAfterReplace | server/src/game/GameManager.cpp:39-49 | a game that goes on or ends keeps the index; its players, and only they, stop playing when it ends |
| ServerInvariant.StartGameKeepsSound | server/src/game/GameManager.cpp:8-28 | starting a game of two Online players who are not queued keeps the maps sound |
| ServerInvariant.GameOverKeepsSound | server/src/network/MessageHandler.cpp:555-572 | so do the end of a game and its notification |
| ServerSteps.AuthKeepsSound | server/src/network/MessageHandler.cpp:87-158 | authorisation, also on a removed session, keeps the maps sound |
| ServerSteps.FindGameKeepsSound | server/src/network/MessageHandler.cpp:252-266 | so does a search, with all the games it starts |
| ServerSteps.CheckMatchmakingKeepsSound | server/src/network/MessageHandler.cpp:598-611 | so does the matchmaking loop |
| ServerSteps.CancelSearchKeepsSound | server/src/network/MessageHandler.cpp:268-273 | so does leaving the queue, after which the player is not in it |
| ServerSteps.InviteKeepsSound | server/src/network/MessageHandler.cpp:275-317 | so does an invite: it names known players only |
| ServerSteps.InviteResponseKeepsSound | server/src/network/MessageHandler.cpp:319-363 | so does an answer to an invite, whoever gives it |
| ServerSteps.PlaceShipsKeepsSound | server/src/network/MessageHandler.cpp:401-439 | so does placing ships |
| ServerSteps.ShootKeepsSound | server/src/network/MessageHandler.cpp:441-499 | so does a shot, also one that ends the game |
| ServerSteps.EndGameKeepsSound | server/src/network/MessageHandler.cpp:501-518 | so does giving up |
| ServerSteps.EndGameEndsPlaying | server/src/network/Server.cpp:120-126 | after giving up the player is in no unfinished game |
| ServerSteps.DropKeepsSound | server/src/network/Server.cpp:115-129 | so does the end of a session |
| ServerSteps.StepKeepsSound | server/src/network/MessageHandler.cpp:22-611 | every atomic step, a late message included, keeps the maps sound |
| ServerSteps.RunIsSound | server/src/network/MessageHandler.cpp:22-611 | after every run: Offline means bound to no session; a registered session with a player is the one they are bound to; InGame means the index names an unfinished game, which is the current game; every unfinished game is indexed by both players; queued players are distinct and Online; invites name known players; every game satisfies its own invariant |
| LateMessages.StepAgrees | server/src/network/Session.cpp:53-72 | where all players are bound to registered sessions and all invites name such players, a step keeps it so if and only if it is not a message of a removed session that is either an authorisation past every refusal, or an invite of an Offline sender to an Online target without an active invite of the pair |
| LateMessages.AgreesUnlessStray | server/src/network/MessageHandler.cpp:22-50 | the maps agree after every step of a run if and only if no step of it is such a message |
| LateMessages.AuthConnected | server/src/network/MessageHandler.cpp:87-150 | the exact condition for an authorisation |
| LateMessages.InviteConnected | server/src/network/MessageHandler.cpp:275-306 | the exact condition for an invite |
| LateMessages.LateAuthStrands | server/src/network/MessageHandler.cpp:147-150 | connect, lose the connection, authorise late: the player is Online on a session that is gone |
| LateMessages.LateInviteIsStored | server/src/lobby/InviteManager.cpp:18-28 | authorise, lose the connection, invite late: the stored invite has an Offline sender |
| LateMessages.StrandedForever | server/src/network/MessageHandler.cpp:137-143 | whatever happens afterwards, a player bound to a removed session stays bound to it and is never Offline again |
| Surprises.RefusedReconnectRenames | server/src/network/MessageHandler.cpp:114-143 | a claim to the account of an online player is refused; it leaves everything unchanged if and only if the nickname is the stored one, else it renames the player and nothing more |
| Surprises.AcceptedByTheInvited | server/src/network/MessageHandler.cpp:333-363 | the game of an accepted invite is between the invite's two players if and only if the answer comes from the one who was invited |
| Surprises.InvitedAgrees | server/src/network/MessageHandler.cpp:275-306 | a run from the start of the server in which three players connect and authorise and the first invites the second |
| Surprises.StrangerAccepts | server/src/network/MessageHandler.cpp:353-362 | that run goes on: the third player answers the invite and plays the first |
| Surprises.SelfGameHasNoBattle | server/src/game/Game.cpp:157-163 | a game of a player against themselves never reaches the battle |
| Surprises.BattleNeedsTwo | server/src/game/Game.cpp:145-163 | a game can reach the battle if and only if its two players differ |
| Surprises.OpponentWins | server/src/game/Game.cpp:214-234 | giver-up and winner are the two players if and only if the giver-up is a player; else the first player wins |
| Surprises.StrangerGivesUp | server/src/game/Game.cpp:221 | a stranger gives up and the first player wins |
| Surprises.GiverUpPlays | server/src/network/MessageHandler.cpp:501-518 | on the server whoever gives up is a player of the game that ends, and the other player wins it |
| Effects.SearchMatches | server/src/network/MessageHandler.cpp:252-266 | a search by anybody not in a game starts the games of the waiting players two by two, in order, then of the one who asks; who is left over waits; in a game nothing happens |
| Effects.SearchQueuesOrPlays | server/src/lobby/Lobby.cpp:10-14 | who is Online and searches waits afterwards, or plays a game of one of the new ids |
| Effects.CancelLeaves | server/src/network/MessageHandler.cpp:268-273 | the player's place in the queue is taken out, nothing else happens |
| Effects.InviteStores | server/src/network/MessageHandler.cpp:275-317 | an invite to somebody Online can be got for 30 seconds unless one of the pair can be got already; otherwise nothing happens |
| Effects.NoAnswer | server/src/network/MessageHandler.cpp:328-337 | an answer to no invite, or no answer, does nothing |
| Effects.DeclineTakesInvite | server/src/network/MessageHandler.cpp:339-351 | declining, or accepting when one of the two is not Online, takes the invite away and nothing more |
| Effects.AcceptStarts | server/src/network/MessageHandler.cpp:353-363 | accepting takes the invite away and starts a new game of the two, who are in it and wait no more; all others stay as they are |
| Effects.FleetIsTaken | server/src/network/MessageHandler.cpp:401-439 | a legal fleet stands on the player's board, and with the second fleet the battle starts; no other game and nothing else changes |
| Effects.FleetIsRefused | server/src/network/MessageHandler.cpp:406-426 | without a game that is placing or a legal fleet nothing happens |
| Effects.GiveUpIsLost | server/src/network/Server.cpp:120-126 | an unfinished game ends for the reason given, won by the other player; both are back online with one win and one loss on record |
| Effects.SurrenderLoses | server/src/network/MessageHandler.cpp:501-518 | surrendering loses the player's unfinished game; without one nothing happens |
| Effects.ConnectAdds | server/src/network/Server.cpp:78-93 | a connection is one more registered session, without a player |
| Effects.DropFrees | server/src/network/SessionManager.cpp:24-46 | after the end of a session its player is Offline, unbound, out of the queue and in no invite; everybody else's places and invites stay |
| Effects.DropLoses | server/src/network/Server.cpp:115-129 | an unfinished game is lost by disconnection, with its results on record; nobody else's record changes |
| Effects.SilentDrop | server/src/network/SessionManager.cpp:30-41 | a session without a player just goes |
| Effects.SilentRequest | server/src/network/MessageHandler.cpp:47-52 | without a player no request but an authorisation does anything |
| Effects.AuthLogsIn | server/src/network/MessageHandler.cpp:87-150 | an authorisation past every refusal makes the account of the guid, else of the nickname, else a new one, Online on the session under the nickname, with all else that was on record of it |
| Effects.AuthRefused | server/src/network/MessageHandler.cpp:87-143 | every other authorisation changes nothing but the nickname of a known guid |
| Effects.PlayersAreInGame | server/src/game/GameManager.cpp:21-25 | the players of a game that is not over have it as their current game and are InGame |
| ShotLog.ShotIsCounted | server/src/network/MessageHandler.cpp:441-499 | a shot counts one shot for the shooter, and a hit if and only if the cell showed Ship, exactly if it is accepted; the game goes on by it and a last shot puts the result on record; a refused shot changes nothing |
| ShotLog.StepCounts | server/src/network/MessageHandler.cpp:22-611 | no event changes anybody's record of shots but an accepted shot of that player, by one |
| ShotLog.ShotsAreCounted | server/src/player/PlayerStats.cpp:17-23 | after every run each player's shots fired and shots hit are the numbers of accepted shots, and of hits, that the player's messages have fired in it |
| Statistics.StepBalances | server/src/network/MessageHandler.cpp:87-611 | every atomic step keeps the players' totals equal to what the games show |
| Statistics.RunBalances | server/src/network/MessageHandler.cpp:478-572 | so they are equal after every run, late messages included |
| Statistics.GameOverBalances | server/src/network/MessageHandler.cpp:555-572 | the end of a game adds one win and one loss and one finished game |
| Statistics.ShotTally | server/src/game/Game.cpp:182-203 | a hit adds exactly one Hit cell to the game, an accepted shot at least one attacked cell, a refused shot nothing |
| Statistics.ShotInBalances | server/src/network/MessageHandler.cpp:466-498 | a shot, its record and the end of the game that it may bring keep the totals equal |
| Statistics.FinishedCount | server/src/game/Game.cpp:236-240 | the finished games that the sums count are the finished games in the archive |
| Statistics.ShotsWithin | server/src/game/Game.cpp:165-204 | all boards together show at most 199 attacked cells a game |
| Statistics.StatisticsAreConserved | server/src/player/PlayerStats.cpp:5-23 | after every run: wins = losses = finished games, each player's games = wins + losses, hits recorded = Hit cells on all boards, shots recorded at most 199 a game |
| Records.FireHitCells | server/src/game/Board.cpp:71-101 | Hit and Kill add exactly the cell shot at to the Hit cells, every other answer adds none |
| Records.ShotHits | server/src/network/MessageHandler.cpp:478-479 | an accepted hit shows on the shooter's record and on nobody else's |
| Records.ShotAttacks | server/src/network/MessageHandler.cpp:466-479 | an accepted shot attacks one more cell at least on the board that the shooter shoots at, and none on any other |
| Records.NotifiedStats | server/src/network/MessageHandler.cpp:555-572 | the winner, and nobody else, is credited with a win; the loser, and nobody else, with a loss |
| Records.GameOverRecords | server/src/network/MessageHandler.cpp:496-498 | after the notification the results of all players are those of the games, the new one included |
| Records.StrangerHasNoRecord | server/src/player/PlayerManager.cpp:52-56 | the games show nothing of a player who is created with an unused guid |
| Records.StepRecords | server/src/network/MessageHandler.cpp:87-611 | every atomic step keeps each player's record equal to what the games show of that player |
| Records.RunRecords | server/src/player/PlayerStats.cpp:5-23 | after every run, late messages included, each player's wins, losses and hits are the numbers of games they have won, games they have lost, and Hit cells on the boards they shoot at, and their shots fired are at most the attacked cells on those boards |

## Left out

- Sockets, threads, JSON, message building, broadcasting and logging; actions and payloads are taken as decoded, in the ranges that `extractShips` and `extractCoordinates` enforce.
- The lifetime of the buffer of an outstanding `async_write`: its bytes are those of the moment it was issued.
- Interleavings inside a handler: a handler is one atomic step. Messages come from sessions that are or were registered, since the server registers a session before it starts reading.
- BoardModel.Board.PlaceShip: demands a board without shots and a size of at least 0; `Game` clears the board before it places, and decoded sizes are 1 to 4.
- BoardModel.Board.GetSurroundingCells: the result is a set; the sorted order of the source's vector is not modelled.
- Invites.InviteManager.GetInvitesForPlayer: the result is a set; its order is that of a hash map in the source. The same holds for `GetInvitesFromPlayer`.
- Invites.InviteManager.CreateInvite: the walk over the store is the one of `HasActiveInvite`, which the source repeats.
- GameRules.CheckBounds: does not model 32-bit overflow of the ends, which the decoded ranges keep out of reach.
- MessageHandling.Server.HandlePlaceShips: the archive holds games as values, and the handler is given the one game object that the index names; the map from ids to shared objects is not modelled. The same holds for `HandleShoot`.
- MessageHandling.Server.CheckMatchmaking: ids and coins of the games to come are a list that is given beforehand and long enough for every two queued players; the loop never runs out of it.
- Players.PlayerManager.FindOrCreatePlayer: players are map entries under their guid, not shared objects; nickname uniqueness is not claimed, since a rename can break it.
- The methods of `Lobby` are part of the server's methods that call them; its second status test in `tryMatchPlayers` always holds in an atomic step.
- Weak pointers in the queue that expire: the player manager keeps every player alive.
- Spectators, friends, win rate and accuracy, lists for display, `getFullState`, `createPlayer`, `closeAll`, `unbindPlayer`: not modelled.
- `getPlayerBoard`, which hands out a mutable board and so bypasses every invariant.
- Time limits for turns and placing: the constants exist, but no code acts on them.
