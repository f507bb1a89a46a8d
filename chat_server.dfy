/** The WebSocket server process as it runs: the message log, the registry
    of connected clients with the fields set on each socket, and what has
    been sent on each socket. Each method is one handler invocation or one
    timer tick, run to completion; its effect is the corresponding step of
    the specification modules. */
module Backend {
  import opened MessageStore
  import opened Sessions
  import opened Protocol
  import opened Heartbeat

  class ChatServer {
    var store: seq<Record>
    var sessions: map<SessionId, Session>
    var outbox: map<SessionId, seq<OutFrame>>
    var clock: nat
    var nextId: SessionId

    /** The abstract value of the server. */
    function State(): ServerState
      reads this
    {
      ServerState(store, sessions, outbox, clock, nextId)
    }

    ghost predicate Valid()
      reads this
    {
      Sessions.Valid(State())
    }

    /** Server start over the log the database already holds; `now` is the
        clock reading at start. */
    constructor (log: seq<Record>, now: nat)
      requires Sessions.Valid(Start(log, now))
      ensures Valid() && State() == Start(log, now)
    {
      store, sessions, outbox, clock, nextId := log, map[], map[], now, 0;
    }

    /** `wss.on('connection')`: registers a new session and returns its
        identity. */
    method Connect() returns (id: SessionId)
      requires Valid()
      modifies this
      ensures Valid() && State() == Sessions.Connect(old(State()))
      ensures id == old(nextId) && id !in old(sessions) && id in sessions
    {
      id := nextId;
      sessions := sessions[id := Session(true, None, true)];
      outbox := outbox[id := []];
      nextId := nextId + 1;
    }

    /** `ws.on('pong')`. */
    method Pong(id: SessionId)
      requires Valid() && id in sessions
      modifies this
      ensures Valid() && State() == Sessions.Pong(old(State()), id)
    {
      sessions := sessions[id := sessions[id].(alive := true)];
    }

    /** The passing of time between steps. */
    method AdvanceClock(dt: nat)
      requires Valid()
      modifies this
      ensures Valid() && State() == Sessions.AdvanceClock(old(State()), dt)
    {
      clock := clock + dt;
    }

    /** `ws.send(frame)` on the socket of session `id`. */
    method Send(id: SessionId, frame: OutFrame)
      requires id in outbox
      modifies this
      ensures State() == Unicast(old(State()), id, frame)
    {
      outbox := outbox[id := outbox[id] + [frame]];
    }

    /** `wss.clients.forEach`: every client whose socket is OPEN is sent
        `frame`; the registry and the log are not touched. */
    method BroadcastFrame(frame: OutFrame)
      requires outbox.Keys == sessions.Keys
      modifies this
      ensures outbox == Broadcast(old(outbox), sessions, frame)
      ensures store == old(store) && sessions == old(sessions) && clock == old(clock) && nextId == old(nextId)
    {
      var pending := sessions.Keys;
      ghost var visited: set<SessionId> := {};
      BroadcastToNobody(outbox, sessions, frame);
      while pending != {}
        invariant pending !! visited && pending + visited == sessions.Keys
        invariant outbox == BroadcastTo(old(outbox), sessions, frame, visited)
        invariant store == old(store) && sessions == old(sessions) && clock == old(clock) && nextId == old(nextId)
        decreases pending
      {
        var client :| client in pending;
        BroadcastToOneMore(old(outbox), sessions, frame, visited, client);
        if sessions[client].open {
          outbox := outbox[client := outbox[client] + [frame]];
        }
        pending := pending - {client};
        visited := visited + {client};
      }
    }

    /** `ws.on('message')`: one inbound frame on session `id`; `storeOk`
        is the outcome of the store call the frame makes. */
    method HandleFrame(id: SessionId, frame: InFrame, storeOk: bool)
      requires Valid() && id in sessions
      modifies this
      ensures Valid() && State() == Handle(old(State()), id, frame, storeOk)
    {
      match frame
      case Join(name) =>
        if name != "" {
          sessions := sessions[id := sessions[id].(username := Some(name))];
          if storeOk {
            Send(id, History(RecentHistory(store)));
          } else {
            Send(id, Error(MalformedReply));
          }
        }
      case Msg(body) =>
        if sessions[id].username.Some? && body != "" {
          var name := sessions[id].username.value;
          if storeOk {
            store := store + [Record(name, body, clock)];
            BroadcastFrame(Chat(name, body, clock));
          } else {
            Send(id, Error(MalformedReply));
          }
        }
      case Other =>
      case Malformed =>
        Send(id, Error(MalformedReply));
    }

    /** The heartbeat timer callback: one pass over every client. */
    method HeartbeatTick()
      requires Valid()
      modifies this
      ensures Valid() && State() == Tick(old(State()))
    {
      var pending := sessions.Keys;
      ghost var visited: set<SessionId> := {};
      TickOnlyNothing(State());
      while pending != {}
        invariant pending !! visited && pending + visited == old(sessions).Keys
        invariant State() == TickOnly(old(State()), visited)
        decreases pending
      {
        var client :| client in pending;
        TickOnlyOneMore(old(State()), visited, client);
        if !sessions[client].alive {
          sessions := sessions[client := sessions[client].(open := false)];
        } else {
          sessions := sessions[client := sessions[client].(alive := false)];
          outbox := outbox[client := outbox[client] + [Ping]];
        }
        pending := pending - {client};
        visited := visited + {client};
      }
    }
  }
}
