/** The connection registry of the chat server (`wss.clients` with the fields
    the server bolts onto each socket), the frames it sends, and the
    operations on one session: accepting a connection, a `pong`, a unicast. */
module Sessions {
  import opened MessageStore

  datatype Option<T> = None | Some(value: T)

  /** Identity of one accepted WebSocket connection. */
  type SessionId = nat

  /** Per-connection state: `ws.isAlive`, `ws.username` and whether the
      socket's `readyState` is OPEN. */
  datatype Session = Session(alive: bool, username: Option<string>, open: bool)

  /** Server-to-client frames, in the order the server hands them to a socket.
      `Ping` is the heartbeat's protocol-level probe. */
  datatype OutFrame =
    | History(messages: seq<Record>)
    | Chat(username: string, message: string, timestamp: nat)
    | Error(reason: string)
    | Ping

  /** The one error text the server ever sends. */
  const MalformedReply: string := "Malformed data."

  /** Everything the server process holds: the message log, the registry,
      what has been sent to each session, the time `new Date()` would read,
      and the next connection identity. */
  datatype ServerState = ServerState(
    store: seq<Record>,
    sessions: map<SessionId, Session>,
    outbox: map<SessionId, seq<OutFrame>>,
    clock: nat,
    nextId: SessionId)

  /** The invariant every reachable state keeps. */
  predicate Valid(s: ServerState) {
    && s.outbox.Keys == s.sessions.Keys
    && (forall id | id in s.sessions :: id < s.nextId)
    && (forall id | id in s.sessions :: s.sessions[id].username != Some(""))
    && Chronological(s.store)
    && (forall i | 0 <= i < |s.store| ::
          s.store[i].timestamp <= s.clock && s.store[i].username != "" && s.store[i].message != "")
  }

  /** The state of a freshly started server over an existing message log. */
  function Start(log: seq<Record>, now: nat): (s: ServerState)
    ensures s.store == log && s.clock == now && s.sessions == map[] && s.outbox == map[]
    ensures Valid(s) <==>
              Chronological(log) &&
              (forall i | 0 <= i < |log| :: log[i].timestamp <= now && log[i].username != "" && log[i].message != "")
  {
    ServerState(log, map[], map[], now, 0)
  }

  /** `wss.on('connection')`: a new session, alive and unbound, is registered
      under the identity `s.nextId`; nothing is sent and the log is untouched. */
  function Connect(s: ServerState): (r: ServerState)
    ensures r.nextId == s.nextId + 1
    ensures s.nextId in r.sessions && r.sessions[s.nextId] == Session(true, None, true)
    ensures s.nextId in r.outbox && r.outbox[s.nextId] == []
    ensures r.store == s.store && r.clock == s.clock
    ensures r.sessions.Keys == s.sessions.Keys + {s.nextId} && r.outbox.Keys == s.outbox.Keys + {s.nextId}
    ensures forall id | id in s.sessions && id != s.nextId :: r.sessions[id] == s.sessions[id]
    ensures forall id | id in s.outbox && id != s.nextId :: r.outbox[id] == s.outbox[id]
    ensures Valid(s) ==> s.nextId !in s.sessions && Valid(r)
  {
    s.(sessions := s.sessions[s.nextId := Session(true, None, true)],
       outbox := s.outbox[s.nextId := []],
       nextId := s.nextId + 1)
  }

  /** `ws.on('pong')`: the session is alive again; nothing else changes. */
  function Pong(s: ServerState, id: SessionId): (r: ServerState)
    requires id in s.sessions
    ensures r.sessions.Keys == s.sessions.Keys
    ensures r.sessions[id].alive
    ensures r.sessions[id].username == s.sessions[id].username && r.sessions[id].open == s.sessions[id].open
    ensures forall k | k in s.sessions && k != id :: r.sessions[k] == s.sessions[k]
    ensures r.store == s.store && r.outbox == s.outbox && r.clock == s.clock && r.nextId == s.nextId
    ensures Valid(s) ==> Valid(r)
  {
    s.(sessions := s.sessions[id := s.sessions[id].(alive := true)])
  }

  /** Time passes: later `new Date()` readings are at least as large. */
  function AdvanceClock(s: ServerState, dt: nat): (r: ServerState)
    ensures r.clock >= s.clock
    ensures r.store == s.store && r.sessions == s.sessions && r.outbox == s.outbox && r.nextId == s.nextId
    ensures Valid(s) ==> Valid(r)
  {
    s.(clock := s.clock + dt)
  }

  /** `ws.send(frame)` on one socket: exactly that frame is queued for that
      session and nothing else changes. */
  function Unicast(s: ServerState, id: SessionId, frame: OutFrame): (r: ServerState)
    requires id in s.outbox
    ensures r.outbox.Keys == s.outbox.Keys
    ensures r.outbox[id] == s.outbox[id] + [frame]
    ensures forall k | k in s.outbox && k != id :: r.outbox[k] == s.outbox[k]
    ensures r.store == s.store && r.sessions == s.sessions && r.clock == s.clock && r.nextId == s.nextId
    ensures Valid(s) ==> Valid(r)
  {
    s.(outbox := s.outbox[id := s.outbox[id] + [frame]])
  }
}
