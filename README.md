# Chat relay server: session state machine

This project models the WebSocket back end of a small chat application
(`backend/server.js`). Clients connect, announce a username with a `join`
frame, receive the stored message history, and send `message` frames. The
server saves each message to its store and relays it to every open socket.
A heartbeat timer probes every connection and terminates the ones that did
not answer the previous probe.

The model has two layers.

- Specification modules, pure functions over a `ServerState` value:
  - `MessageStore`: the stored records and the history selection.
  - `Sessions`: the registry of connections, the outbound frames, connect, pong and unicast.
  - `Protocol`: the `message` handler with its join, message, no-op and error paths, and the broadcast.
  - `Heartbeat`: the timer tick.
  - `Lifecycle`: runs of many steps.
- `Backend.ChatServer`, a class whose fields are the log, the registry,
  the per-socket outbound queues, the clock and the next connection
  identity. Each method is one handler invocation or one tick. Its
  postcondition equates the new state with the specification function
  applied to the old state. The broadcast and the heartbeat are `while`
  loops over the registry, as the `forEach` loops over `wss.clients` are.

Modelling choices:

- A socket's outbound queue (`outbox`) records every frame the server hands to
  `ws.send` or `ws.ping`, in order.
- `terminate()` marks the session not open. The session stays in the
  registry.
- The outcome of the store call a frame makes is the parameter `storeOk`.
  For a join that call is `Message.find`; for a message it is `msg.save`.
- `new Date()` is the `clock` field. It only moves forward, through
  `AdvanceClock`.
- Every handler invocation and every tick is one atomic step.

The model follows the code in these places:

- A second `join` with a non-empty username overwrites the bound name and
  sends the history again. It is not ignored.
- The broadcast goes to every OPEN socket, bound or not, the sender included.
- A failed history query does not degrade to an empty history. The catch
  block sends the `Malformed data.` error frame. The username is already
  bound by then (line 53 runs before the query at line 56).
- A failed save, like a parse failure, gets the same `Malformed data.`
  error frame. Nothing is broadcast, because the broadcast comes after the
  save.
- Terminated sessions are not removed by the server code itself. The close
  handler is empty.

## Model

| member | source | states |
|---|---|---|
| `MessageStore.RecentHistory` | backend/server.js:55-64 | The history payload holds min(50, size of log) records, the newest ones in log order, and is in non-decreasing timestamp order whenever the log is |
| `MessageStore.AppendKeepsChronological` | backend/server.js:70-75 | Saving a record stamped with the current clock keeps the log in timestamp order |
| `Sessions.Start` | backend/server.js:34 | A started server has no clients and no frames sent, and is valid exactly when the existing log is in timestamp order, not newer than the clock and has non-empty names and bodies |
| `Sessions.Connect` | backend/server.js:41-43 | A new connection gets a fresh identity and starts alive, unbound and open; it is sent nothing; the log and every other session are unchanged; the invariant is kept |
| `Sessions.Pong` | backend/server.js:45 | A pong sets that session's alive flag and changes nothing else: no log change, no frame sent, other sessions untouched |
| `Sessions.AdvanceClock` | backend/server.js:73 | The server clock never goes back, and passing time changes nothing else |
| `Sessions.Unicast` | backend/server.js:61-64 | `ws.send` queues exactly one frame on exactly one socket and changes nothing else |
| `Protocol.Broadcast` | backend/server.js:84-88 | Every OPEN session, bound or not, sender included, gets the frame exactly once; every session that is not OPEN gets nothing |
| `Protocol.JoinSession` | backend/server.js:52-65 | A join binds the name, overwriting any earlier one. On a successful query it sends one `history` frame, to the joining session only. On a failed query it sends one error frame instead, with the name still bound. The log and the other sessions are unchanged |
| `Protocol.Post` | backend/server.js:69-88 | A saved message appends exactly one record carrying the session's bound name, the body and the server clock, then broadcasts that same name, body and stamp. A failed save appends nothing, broadcasts nothing and sends one error frame to the sender |
| `Protocol.Handle` | backend/server.js:47-92 | The state is unchanged exactly when the frame is another type, a nameless join, or an empty or unbound message. The log grows exactly for a saved message from a bound session. Only a join changes the registry. A parse or store failure sends exactly one error frame, to the sender only. Non-message frames reach no other session. The invariant is kept |
| `Heartbeat.TickSession` | backend/server.js:103-104 | A silent session is closed; a live one keeps its open state and loses its alive flag; the username is kept |
| `Heartbeat.Tick` | backend/server.js:101-107 | Every session not alive at the tick is terminated and not probed. Every alive session is reset to not alive, keeps its open state and is probed exactly once. The log and the usernames are unchanged |
| `Heartbeat.TickVisit` | backend/server.js:103-105 | One visit terminates a silent session or resets a live one and queues exactly one probe for it; every other session and queue, the log and the clock are unchanged |
| `Heartbeat.TickInOrder` | backend/server.js:102-106 | A `forEach` pass visiting the sessions in a given order leaves the log, the clock and every session not in that order unchanged |
| `Heartbeat.TickInOrderIsTickOnly` | backend/server.js:102-106 | Visiting distinct clients one after another in any order gives the partial tick over exactly those clients |
| `Heartbeat.TickOverAllClients` | backend/server.js:101-107 | A `forEach` pass over all clients in any enumeration order is the tick |
| `Heartbeat.TickOnlyOneMore` | backend/server.js:102-106 | One loop visit extends the partial tick by exactly the visited client |
| `Protocol.BroadcastTo` | backend/server.js:84-88 | After the broadcast loop has visited some clients, a queue has changed exactly when its session was visited and is OPEN, and then by exactly one frame |
| `Protocol.BroadcastToOneMore` | backend/server.js:84-88 | One loop visit of the broadcast sends to the visited client exactly when its socket is OPEN |
| `Lifecycle.Step` | backend/server.js:41-107 | Every event keeps the invariant, never drops a registered session and never reuses a connection identity; pongs and frames take effect only on open sessions, since a terminated socket runs no more handlers |
| `Lifecycle.Run` | backend/server.js:41-107 | Every run of events keeps the invariant and keeps every registered session registered |
| `Lifecycle.SilentStaysNotAlive` | backend/server.js:42-45 | Only a pong from a session revives it: through any run without one, a session that is not alive stays registered and not alive |
| `Lifecycle.SilentSessionEvictedBySecondTick` | backend/server.js:101-107 | A session that sends no pong between two consecutive ticks is terminated by the second tick and is not probed by it, whatever else happens in between |
| `Lifecycle.RunAppend` | backend/server.js:41-107 | Running two event sequences one after the other is running their concatenation |
| `Lifecycle.NoTickKeepsOpen` | backend/server.js:42-45 | Only the heartbeat closes a socket or clears its alive flag: through any run without a tick, an open session stays registered and open, and an alive one stays alive |
| `Lifecycle.FreshSessionSurvivesFirstTick` | backend/server.js:101-107 | A freshly connected session is still open and not alive after its first tick, whatever events come between the connect and that tick; with none, it has received only the probe |
| `Lifecycle.AnsweredProbeSurvives` | backend/server.js:101-107 | A live session that answers the probe at any point before the next tick, whatever other events come before or after the pong, is still open after that tick |
| `Lifecycle.JoinThenChat` | backend/server.js:47-92 | A client that joins and then chats receives the history, then its own message. The log gains one record with its name, body and the server time. Every other open session receives the message once, and closed sessions receive nothing |
| `Backend.ChatServer.constructor` | backend/server.js:34 | The server starts over the stored log with no clients |
| `Backend.ChatServer.Connect` | backend/server.js:41-43 | Registers a session under a fresh identity, as `Sessions.Connect` specifies, keeping the invariant |
| `Backend.ChatServer.Pong` | backend/server.js:45 | Sets the alive flag in place, as `Sessions.Pong` specifies |
| `Backend.ChatServer.AdvanceClock` | backend/server.js:73 | Moves the clock forward, as `Sessions.AdvanceClock` specifies |
| `Backend.ChatServer.Send` | backend/server.js:61-64 | Appends one frame to one socket's queue, as `Sessions.Unicast` specifies |
| `Backend.ChatServer.BroadcastFrame` | backend/server.js:84-88 | The loop over the registry leaves the queues equal to `Protocol.Broadcast` of the old queues and touches nothing else |
| `Backend.ChatServer.HandleFrame` | backend/server.js:47-92 | The handler's in-place updates give `Protocol.Handle` of the old state and keep the invariant |
| `Backend.ChatServer.HeartbeatTick` | backend/server.js:101-107 | The loop over the registry leaves the state equal to `Heartbeat.Tick` of the old state and keeps the invariant |

## Left out

- Express, HTTP, CORS, dotenv and `server.listen` (backend/server.js:1-8, 25-33, 109-113). These are process and network set-up.
- The MongoDB connection and the mongoose schema (backend/server.js:10-23). The store is an append-only sequence of records. A store failure is the `storeOk` parameter of the step that makes the store call.
- `MessageStore.RecentHistory`: takes the newest 50 records, as the comment at backend/server.js:55 says. The chained `.sort({timestamp: -1}).limit(50).sort({timestamp: 1})` depends on how mongoose merges sort keys. If the later sort key replaces the earlier one, the query returns the oldest 50 records instead. Either way the payload holds at most 50 records in ascending timestamp order, and that is what the model relies on.
- The database's own sort by timestamp is not modelled. The log is kept in timestamp order by the server clock, so log order is timestamp order.
- Concurrency. The interleaving of handlers across the `await`s at backend/server.js:56 and 75 is not modelled. Each handler invocation and each tick is one atomic step.
- The `setInterval` timer and its 30-second period. A tick is an explicit step.
- `ws` library internals:
  - `readyState` transitions other than the one `terminate()` causes;
  - a client closing its own socket;
  - the removal of closed clients from `wss.clients`;
  - what `ping` and `terminate` put on the wire.

  The `close` handler (backend/server.js:95-97) is empty, so the server code removes nothing.
- Exceptions thrown by `ws.send` during the broadcast. They are not modelled; a send to an OPEN socket is assumed to succeed.
- JSON details. An inbound frame is the `InFrame` datatype, with the empty string standing for a missing or falsy field. Truthy non-string usernames or bodies are not modelled. The extra fields mongoose adds to stored documents in a `history` payload are not modelled.
- Wall-clock time. `new Date()` is a natural number that never decreases. A real clock may step backwards.
- The React front end (frontend/src/App.js). It is presentation code.
