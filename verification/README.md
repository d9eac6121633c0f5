# Multiplayer square: position relay, modelled in Dafny

The system is a toy multiplayer game. Each game client moves a local square
with the arrow keys. It publishes the square's position to a websocket relay
server. It applies the snapshots the server broadcasts to its registry of
known players. The server keeps one entry per connection, keyed by the
connection's remote port. After each accepted update it fans the whole
table out to every registered connection. On disconnect it tags the entry
`"player_disconnected"`, broadcasts that tombstone once to the remaining
connections, and deletes the entry. All of this holds as long as every
registered connection is still open. A socket left registered after its
handler has ended makes every later send fail (see "## Left out").

The project has four modules:

- `Wire` (wire.dfy): result types, JSON values, and received frames. A frame
  is either unparsable text, JSON that is not an object, or an object.
- `Game` (game.dfy) models game/main.py.
  - Class `Player` with `Move`.
  - Class `Client` for the module globals `LAST_POSITION`, `particles`,
    `local_player` and `all_players`. It has one publisher iteration
    (`SendTick`), the per-frame `move` calls of the main loop (`RunFrames`),
    and the snapshot merge (`ReceiveSnapshot`).
  - The specification functions `Moved`, `Walk` and `Merge`, and lemmas
    about them.
- `Server` (server.dfy) models game/server.py.
  - Step functions on a `Relay` record. The record holds the table, the set
    of connections, and a log of broadcasts. Each broadcast is recorded as
    (recipients, payload).
  - Class `RelayServer`. Its methods perform the steps of `handle_client`
    and `broadcast_positions` in the source's order. Each method is proved
    to reach the state the matching step function gives.
- `Protocol` (protocol.dfy) puts the client and the server together.

Behaviour of the code that the model keeps and proves:

- The client's registry is keyed by player name. The server id of a
  snapshot entry is ignored, and so is its tag, tombstones included.
- There is no self-echo suppression. A snapshot entry named `"test"`
  overwrites the local player's position. The local player is the same
  object as the registry entry under `"test"`.
- The server reads `"type"` from every message, but the client never sends
  it. `Protocol.PositionMessageRejected` shows that every client update
  raises `KeyError`.
- The `finally` block of `handle_client` then raises `KeyError` as well,
  because no entry exists for that port. The socket is never removed from
  `connected_clients` (`Protocol.ClientSessionLeaksSocket`).
- The publisher compares the position with `LAST_POSITION`. That is the
  position at the start of the last frame's `move`, not the last position
  sent.
- Player ids are remote ports. Two connections with the same port share one
  table entry. The connection set still tells them apart, because it holds
  socket objects (`Socket.conn` stands for the object's identity). Closing
  one of them never removes the other's socket
  (`Server.LeakedSocketSurvivesPortReuse`).
- A malformed message ends that connection's loop. The disconnect steps
  then run for that connection.

Coordinates are `real`. The source's constants (speed 5, size 50, screen
800×600, start (400, 300)) are whole numbers. Positions stay whole numbers
while they come only from the start position and `move`, so for them the
floating-point arithmetic is exact.

## Model

| member | source | states |
|---|---|---|
| `Game.Player.constructor` | game/main.py:57-63 | A new player has the given position and name. Size 50 and speed 5 are constant fields, so nothing can change them, `move` included. |
| `Game.Player.Move` | game/main.py:65-91 | The new position is `Moved(old position, keys)`: LEFT/UP first (clamped at 0), then RIGHT/DOWN (clamped at extent − size). `LAST_POSITION` becomes the entry position. Exactly one particle, spawned at (x + size/2, y + size), is appended iff the entry position differs from the previous `LAST_POSITION`; otherwise the particle list is unchanged. Name, size and speed are untouched. |
| `Game.SingleKeyMoves` | game/main.py:72-91 | With one key held, LEFT gives max(0, x − speed), RIGHT gives min(x + speed, 800 − size), UP and DOWN do the same on y against 600. The other coordinate is unchanged. |
| `Game.NoKeysNoMove` | game/main.py:72-91 | With no arrow key held, the position is unchanged. |
| `Game.MovedStaysOnScreen` | game/main.py:72-91 | If the square is on screen before a move (0 ≤ x ≤ 800 − size, 0 ≤ y ≤ 600 − size), it is on screen afterwards, for any key combination. |
| `Game.WalkStaysOnScreen` | game/main.py:156-167 | Starting on screen, the square stays on screen after any sequence of frames. |
| `Game.Client.constructor` | game/main.py:114-119 | Initial globals: `LAST_POSITION` = (0, 0), no particles, local player "test" at (400, 300), registry = {"test": local player}. |
| `Game.Client.RunFrames` | game/main.py:156-167 | After one `move` per frame, the local position is `Walk(start, frames)`. `LAST_POSITION` is the position before the last frame. The particle list only grows, by at most one per frame. |
| `Game.Client.SendTick` | game/main.py:124-128 | A publisher iteration sends iff (x, y) ≠ `LAST_POSITION`. What it sends is exactly {"name", "x", "y"} of the local player. |
| `Game.Client.ReceiveSnapshot` | game/main.py:137-145 | The registry positions become `Merge(old positions, snapshot)`. Existing names keep the same Player object, and new names get fresh objects. Every player stays filed under its own name. The local player, filed under "test", takes any echoed position. `LAST_POSITION` and particles are unchanged. |
| `Game.Client.ApplyEntry` | game/main.py:138-145 | One entry of a snapshot: the registry positions become the old ones with the entry's name mapped to its (x, y). An unknown name gets a fresh Player, a known one keeps its object, and every other name keeps its player. `LAST_POSITION` and particles are unchanged. |
| `Game.MergeKeys` | game/main.py:137-145 | After a merge, the keys are the old keys plus every name in the snapshot. No key is removed. |
| `Game.MergeLastEntryWins` | game/main.py:137-145 | A name in the snapshot ends at the x, y of the last entry bearing that name. |
| `Game.MergeLeavesOthers` | game/main.py:137-145 | A name absent from the snapshot keeps its presence or absence and its position. |
| `Game.MergeIgnoresIdAndTag` | game/main.py:137-145 | Two snapshots whose entries agree on name, x and y give the same merge, whatever their server ids and type tags. |
| `Server.DecodeEntry` | game/server.py:21-28 | Unparsable text raises a JSON error. A non-object raises a subscript error. An object is accepted iff it has x, y, name and type. Otherwise the KeyError names the first missing field in the order x, y, name, type. |
| `Server.FirstMissing` | game/server.py:23-28 | Gives nothing iff every listed field is present. Otherwise it gives a listed field that is absent. |
| `Server.FirstMissingIsFirst` | game/server.py:23-28 | The field `FirstMissing` gives is the earliest absent one in the listed order: every field listed before it is present. So the KeyError names the first of x, y, name, type that the message lacks. |
| `Server.DecodeEncode` | game/server.py:23-28 | An entry serialised as {x, y, name, type} is decoded back to itself. |
| `Server.DecodeReadsOnlyRequired` | game/server.py:23-28 | Two objects that agree on the four required fields decode alike. Extra fields are dropped. |
| `Server.AfterBroadcast` | game/server.py:41-46 | The table and connections are unchanged, and the log grows by at most one. Each connection receives the whole table once, sender included, iff the table and the connection set are both non-empty. No one else receives anything. |
| `Server.AfterMessage` | game/server.py:20-31 | A message that fails to decode changes nothing and sends nothing. An accepted one replaces exactly the sender's entry, keeps the connection set, and delivers the new whole table once to every connection. |
| `Server.AfterDisconnect` | game/server.py:34-39 | With no entry for the id: KeyError, nothing changes. With the entry present but the socket not registered: KeyError after tagging. Otherwise: the entry and socket are gone, other entries are unchanged, and only the other connections receive the table with this entry tagged "player_disconnected". |
| `Server.AfterMessagesFrame` | game/server.py:20-31 | The message loop never changes the connection set or any entry except the sender's. An entry once present stays, and an accepted first message creates it. |
| `Server.AcceptedMessagesLastWins` | game/server.py:20-31 | If every message is accepted, the sender's entry is the last message's. Other entries are as before. Each connection receives one broadcast per message. This holds while every registered socket is open. |
| `Server.SessionWithoutEntryLeaksSocket` | game/server.py:15-39 | A connection with no accepted message ends in KeyError at the tag step. The table and log are unchanged, and its socket stays registered. |
| `Server.SessionCleansUp` | game/server.py:15-39 | A new connection whose first message is accepted leaves the connection set as before, and its id is absent from the table afterwards. The session's outcome is the message loop's. This holds while every registered socket is open. |
| `Server.LeakedSocketSurvivesPortReuse` | game/server.py:17-39 | A registered socket stays registered through a whole session of any other connection, even one with the same remote port and so the same player id. |
| `Server.TwoPlayersJoin` | game/server.py:15-46 | Scenario: A joins and sends an entry, then B joins and sends one. A receives the one-entry table, then A and B both receive the two-entry table. |
| `Server.FirstOfTwoLeaves` | game/server.py:34-39 | Scenario: with A and B connected and both entries present, A's disconnect passes and leaves only B's entry and socket. B alone receives the table with A tagged "player_disconnected". |
| `Server.TwoPlayersOneLeaves` | game/server.py:15-46 | Scenario: A sends (10, 20), B sends (5, 5), A leaves. A receives both tables. B receives the two-entry table and then the tombstone of A. The table ends with only B, and the connection set with only B. |
| `Server.RelayServer.constructor` | game/server.py:5-9 | Starts with an empty table, no connections and no broadcasts. |
| `Server.RelayServer.Connect` | game/server.py:17-18 | Adds exactly that socket (set semantics). The table and log are unchanged. |
| `Server.RelayServer.BroadcastPositions` | game/server.py:41-46 | The state becomes `AfterBroadcast` of the old state. |
| `Server.RelayServer.HandleMessage` | game/server.py:20-31 | The state and outcome are `AfterMessage` of the old state. |
| `Server.RelayServer.HandleDisconnect` | game/server.py:34-39 | The state and outcome are `AfterDisconnect` of the old state, with the steps in the source's order: tag, remove the socket, broadcast, delete. |
| `Server.RelayServer.HandleClient` | game/server.py:15-39 | The loop over a connection's messages stops at the first one that raises. The final state and outcome are `AfterSession`: connect, message loop, then the `finally` steps, whose exception replaces the loop's. |
| `Protocol.PositionMessageRejected` | game/main.py:127 | The client's {"name", "x", "y"} payload always fails at the server with KeyError "type". |
| `Protocol.ClientSessionLeaksSocket` | game/server.py:19-39 | When no entry exists for its port, a whole session of this client, for any updates, ends in KeyError at disconnect. It leaves the table and log as they were and its socket registered. |

## Left out

- Rendering: `Player.draw`, the `center` property, the mouse-aim line (atan2/cos/sin), `screen.fill`, fonts, `display.flip` and `clock.tick`. These are presentation and floating-point trigonometry.
- Particle size, colour, velocity, `update`, drawing and lifetime filtering. They depend on `random` and float motion. A particle is kept only as its spawn point.
- Threads, the publisher's busy loop and `time.sleep`, `ws.send`, `ws.recv` and `websocket.connect`. Each loop iteration is one method, and no interleaving of the three client contexts is modelled.
- `json.dumps` and `json.loads`. Received frames arrive already classified, and a snapshot is a sequence of decoded entries. The server's table is a map, so the insertion order in which the client iterates a snapshot is not derived from the server's state.
- Game.Client.ReceiveSnapshot: entries are assumed to carry a string name and numeric x, y. A snapshot missing those fields, or holding non-numbers relayed by the server, would raise in the receive thread or later in drawing. That case is not modelled.
- Game.Client.RunFrames: states only that the particle list grows by at most one per frame, not which frames add one. The exact per-frame rule is in `Game.Player.Move`.
- Failed sends inside `asyncio.gather`. The model records every broadcast as sent to all its recipients. In the source, `client.send` raises `ConnectionClosed` for a connection that is closed. This is not occasional: a socket left registered (`Protocol.ClientSessionLeaksSocket`) belongs to a handler that has already ended, so its connection is closed. From then on every broadcast raises in whichever handler calls it.
- Server.AcceptedMessagesLastWins: holds only while every registered socket is open. With a leaked, closed socket registered, the broadcast after the first accepted message (game/server.py:31) raises `ConnectionClosed`. The `except` at game/server.py:32 catches it, and the sender's loop ends after that one message.
- Server.SessionCleansUp: holds only while every registered socket is open. With a leaked, closed socket registered, the broadcast in the `finally` block (game/server.py:38) raises. So `del all_players[player_id]` (game/server.py:39) never runs, and the tombstone stays in the table.
- Concurrent `handle_client` tasks. The per-step methods can be called in any order, but `HandleClient` models one connection handled alone.
- Floating-point rounding. An echoed snapshot entry named "test" can give the local player a non-integral coordinate. After that, `pos_x ± speed` rounds in the source (0.1 + 5 is not exactly 5.1), but not in the model's `real` arithmetic.
- `websockets.serve`, `asyncio.run`, the disconnect `print`, and the unused `path` argument.
- `EventsEnum.player_moved` is never produced by the server. It appears only as the tag of the scenario's well-formed messages.
