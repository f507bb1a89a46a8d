/** The `ws.on('message')` handler: one inbound frame, taken as one atomic
    step (the awaits on the store are not interleaved with other handlers). */
module Protocol {
  import opened MessageStore
  import opened Sessions

  /** An inbound frame after `JSON.parse`. `Join` and `Msg` carry the
      `username` / `message` field, with the empty string standing for a
      missing or empty one; `Other` is any other `type`; `Malformed` is input
      on which parsing or reading `parsed.type` throws. */
  datatype InFrame = Join(username: string) | Msg(message: string) | Other | Malformed

  /** The broadcast loop, restricted to the clients in `visited`: each
      visited session whose socket is OPEN gets `frame`, every other
      session's queue is as it was. */
  function BroadcastTo(outbox: map<SessionId, seq<OutFrame>>, sessions: map<SessionId, Session>,
                       frame: OutFrame, visited: set<SessionId>): (r: map<SessionId, seq<OutFrame>>)
    ensures r.Keys == outbox.Keys
    ensures forall k | k in outbox :: r[k] == outbox[k] || r[k] == outbox[k] + [frame]
    ensures forall k | k in outbox :: r[k] != outbox[k] <==> k in visited && k in sessions && sessions[k].open
  {
    map k | k in outbox ::
      if k in visited && k in sessions && sessions[k].open then outbox[k] + [frame] else outbox[k]
  }

  /** Before the broadcast loop visits anyone, nothing has been sent. */
  lemma BroadcastToNobody(outbox: map<SessionId, seq<OutFrame>>, sessions: map<SessionId, Session>, frame: OutFrame)
    ensures BroadcastTo(outbox, sessions, frame, {}) == outbox
  {
  }

  /** One more visit of the broadcast loop: the visited client is sent the
      frame if its socket is OPEN. */
  lemma BroadcastToOneMore(outbox: map<SessionId, seq<OutFrame>>, sessions: map<SessionId, Session>,
                           frame: OutFrame, visited: set<SessionId>, c: SessionId)
    requires c !in visited && c in outbox && c in sessions
    ensures var b := BroadcastTo(outbox, sessions, frame, visited);
            BroadcastTo(outbox, sessions, frame, visited + {c}) ==
              if sessions[c].open then b[c := b[c] + [frame]] else b
  {
  }

  /** `wss.clients.forEach(... if OPEN then send ...)`: exactly the OPEN
      sessions, bound or not and the sender included, receive `frame` once. */
  function Broadcast(outbox: map<SessionId, seq<OutFrame>>, sessions: map<SessionId, Session>,
                     frame: OutFrame): (r: map<SessionId, seq<OutFrame>>)
    ensures r.Keys == outbox.Keys
    ensures forall k | k in outbox && k in sessions && sessions[k].open :: r[k] == outbox[k] + [frame]
    ensures forall k | k in outbox && !(k in sessions && sessions[k].open) :: r[k] == outbox[k]
  {
    BroadcastTo(outbox, sessions, frame, outbox.Keys)
  }

  /** Whether a frame reaches the `message` branch: a `message` frame with a
      non-empty body from a session that has a username. */
  predicate Posts(s: ServerState, id: SessionId, f: InFrame)
    requires id in s.sessions
  {
    f.Msg? && f.message != "" && s.sessions[id].username.Some?
  }

  /** Whether a frame reaches the `join` branch: a `join` with a non-empty
      username. */
  predicate Joins(f: InFrame) {
    f.Join? && f.username != ""
  }

  /** Whether a frame is dropped without any effect: any other type, a join
      without a username, a message without a body or from an unbound
      session. */
  predicate Ignored(s: ServerState, id: SessionId, f: InFrame)
    requires id in s.sessions
  {
    !Joins(f) && !Posts(s, id, f) && !f.Malformed?
  }

  /** The `join` branch. The username is bound (overwriting any earlier one)
      before the history query; if the query succeeds the newest records are
      sent to this session only, otherwise the catch block sends the error
      frame to it, still leaving the name bound. */
  function JoinSession(s: ServerState, id: SessionId, name: string, storeOk: bool): (r: ServerState)
    requires id in s.sessions && id in s.outbox && name != ""
    ensures r.sessions.Keys == s.sessions.Keys && r.outbox.Keys == s.outbox.Keys
    ensures r.sessions[id] == s.sessions[id].(username := Some(name))
    ensures forall k | k in s.sessions && k != id :: r.sessions[k] == s.sessions[k]
    ensures r.outbox[id] == s.outbox[id] + [if storeOk then History(RecentHistory(s.store)) else Error(MalformedReply)]
    ensures forall k | k in s.outbox && k != id :: r.outbox[k] == s.outbox[k]
    ensures r.store == s.store && r.clock == s.clock && r.nextId == s.nextId
    ensures Valid(s) ==> Valid(r)
  {
    var bound := s.(sessions := s.sessions[id := s.sessions[id].(username := Some(name))]);
    if storeOk then Unicast(bound, id, History(RecentHistory(s.store)))
    else Unicast(bound, id, Error(MalformedReply))
  }

  /** The `message` branch for a bound session: on a successful save the log
      gains one record stamped with the session's own name and the server
      clock, and the same name, body and stamp are broadcast; on a failed
      save only the error frame goes back to the sender. */
  function Post(s: ServerState, id: SessionId, body: string, storeOk: bool): (r: ServerState)
    requires id in s.sessions && id in s.outbox && s.sessions[id].username.Some? && body != ""
    ensures r.sessions == s.sessions && r.clock == s.clock && r.nextId == s.nextId
    ensures r.outbox.Keys == s.outbox.Keys
    ensures storeOk ==>
              && r.store == s.store + [Record(s.sessions[id].username.value, body, s.clock)]
              && r.outbox == Broadcast(s.outbox, s.sessions, Chat(s.sessions[id].username.value, body, s.clock))
    ensures !storeOk ==> r.store == s.store && r == Unicast(s, id, Error(MalformedReply))
    ensures Valid(s) ==> Valid(r)
  {
    var name := s.sessions[id].username.value;
    if storeOk then
      var saved := Record(name, body, s.clock);
      assert Valid(s) ==> Chronological(s.store + [saved]) by {
        if Valid(s) { AppendKeepsChronological(s.store, saved); }
      }
      s.(store := s.store + [saved], outbox := Broadcast(s.outbox, s.sessions, Chat(name, body, s.clock)))
    else
      Unicast(s, id, Error(MalformedReply))
  }

  /** One inbound frame on session `id`. `storeOk` is the outcome of the
      store call the frame makes (`Message.find` for a join, `msg.save` for a
      message); frames that make no store call ignore it. */
  function Handle(s: ServerState, id: SessionId, f: InFrame, storeOk: bool): (r: ServerState)
    requires id in s.sessions && id in s.outbox
    ensures r.sessions.Keys == s.sessions.Keys && r.outbox.Keys == s.outbox.Keys
    ensures r.clock == s.clock && r.nextId == s.nextId
    // nothing happens exactly for the ignored frames
    ensures r == s <==> Ignored(s, id, f)
    // the log grows, by one record, exactly for an accepted and saved message
    ensures |r.store| == |s.store| + 1 <==> Posts(s, id, f) && storeOk
    ensures |r.store| != |s.store| + 1 ==> r.store == s.store
    // only a join touches the registry, and only the joining session's name
    ensures r.sessions == if Joins(f) then s.sessions[id := s.sessions[id].(username := Some(f.username))]
                          else s.sessions
    // parse failures and store failures: one error frame, to the sender only
    ensures f.Malformed? || ((Joins(f) || Posts(s, id, f)) && !storeOk) ==>
              r.outbox == s.outbox[id := s.outbox[id] + [Error(MalformedReply)]]
    // a successful join: one history frame, to the sender only
    ensures Joins(f) && storeOk ==>
              r.outbox == s.outbox[id := s.outbox[id] + [History(RecentHistory(s.store))]]
    // frames other than an accepted message send nothing to other sessions
    ensures !(Posts(s, id, f) && storeOk) ==> forall k | k in s.outbox && k != id :: r.outbox[k] == s.outbox[k]
    ensures Valid(s) ==> Valid(r)
  {
    match f
    case Join(name) =>
      if name != "" then JoinSession(s, id, name, storeOk) else s
    case Msg(body) =>
      if s.sessions[id].username.Some? && body != "" then Post(s, id, body, storeOk) else s
    case Other => s
    case Malformed => Unicast(s, id, Error(MalformedReply))
  }
}
