/** Whole runs of the server: every handler invocation and every heartbeat
    tick is one atomic step, and a run is any sequence of them. The lemmas
    here state what holds across several steps: the invariant, eviction of
    a silent session, and the join-then-chat exchange. */
module Lifecycle {
  import opened MessageStore
  import opened Sessions
  import opened Protocol
  import opened Heartbeat

  /** One thing that can happen to the server. */
  datatype Event =
    | Accept                                              // a client connects
    | PongFrom(id: SessionId)                             // a probe is answered
    | FrameFrom(id: SessionId, frame: InFrame, storeOk: bool)  // a frame arrives
    | Interval                                            // the heartbeat timer fires
    | Elapse(dt: nat)                                     // time passes

  /** The effect of one event. Pongs and frames only arrive on open
      connections: once `terminate()` has closed a socket no handler of it
      runs again, so for a closed or unknown identity the event has no
      effect. */
  function Step(s: ServerState, e: Event): (r: ServerState)
    ensures r.nextId >= s.nextId
    ensures s.sessions.Keys <= r.sessions.Keys
    ensures Valid(s) ==> Valid(r)
    // a terminated or unknown socket runs no handler
    ensures (e.PongFrom? || e.FrameFrom?) && !(e.id in s.sessions && s.sessions[e.id].open) ==> r == s
  {
    match e
    case Accept => Connect(s)
    case PongFrom(id) => if id in s.sessions && s.sessions[id].open then Pong(s, id) else s
    case FrameFrom(id, f, ok) =>
      if id in s.sessions && id in s.outbox && s.sessions[id].open then Handle(s, id, f, ok) else s
    case Interval => Tick(s)
    case Elapse(dt) => AdvanceClock(s, dt)
  }

  /** The state after a sequence of events. */
  function Run(s: ServerState, events: seq<Event>): (r: ServerState)
    ensures Valid(s) ==> Valid(r)
    ensures s.sessions.Keys <= r.sessions.Keys
    decreases |events|
  {
    if events == [] then s else Run(Step(s, events[0]), events[1..])
  }

  /** Nothing but a pong revives a session: a session that is not alive
      stays registered and not alive through any run without a pong from it. */
  lemma {:induction false} SilentStaysNotAlive(s: ServerState, id: SessionId, events: seq<Event>)
    requires Valid(s) && id in s.sessions && !s.sessions[id].alive
    requires forall i | 0 <= i < |events| :: events[i] != PongFrom(id)
    ensures id in Run(s, events).sessions && !Run(s, events).sessions[id].alive
    decreases |events|
  {
    if events != [] {
      var s' := Step(s, events[0]);
      assert id in s'.sessions && !s'.sessions[id].alive by {
        match events[0]
        case Accept =>
          assert s.nextId != id;
        case PongFrom(other) =>
          assert other != id;
        case FrameFrom(_, _, _) =>
        case Interval =>
        case Elapse(_) =>
      }
      var rest := events[1..];
      assert forall i | 0 <= i < |rest| :: rest[i] != PongFrom(id) by {
        forall i | 0 <= i < |rest| ensures rest[i] != PongFrom(id) {
          assert rest[i] == events[i + 1];
        }
      }
      SilentStaysNotAlive(s', id, rest);
    }
  }

  /** A session that sends no pong between two consecutive ticks is
      terminated by the second tick, and that tick does not probe it. */
  lemma SilentSessionEvictedBySecondTick(s: ServerState, id: SessionId, between: seq<Event>)
    requires Valid(s) && id in s.sessions
    requires forall i | 0 <= i < |between| :: between[i] != PongFrom(id)
    ensures var before := Run(Tick(s), between);
            var after := Tick(before);
            && id in after.sessions && !after.sessions[id].open
            && id in before.outbox && after.outbox[id] == before.outbox[id]
  {
    var first := Tick(s);
    assert id in first.sessions && !first.sessions[id].alive;
    SilentStaysNotAlive(first, id, between);
  }

  /** Running two event sequences one after the other is running their
      concatenation. */
  lemma {:induction false} RunAppend(s: ServerState, first: seq<Event>, second: seq<Event>)
    ensures Run(s, first + second) == Run(Run(s, first), second)
    decreases |first|
  {
    if first == [] {
      assert first + second == second;
    } else {
      assert (first + second)[0] == first[0];
      assert (first + second)[1..] == first[1..] + second;
      RunAppend(Step(s, first[0]), first[1..], second);
    }
  }

  /** Only the heartbeat closes a socket or clears `isAlive`: through any run
      without a tick, an open session stays registered and open, and an
      alive one stays alive. */
  lemma {:induction false} NoTickKeepsOpen(s: ServerState, id: SessionId, events: seq<Event>)
    requires Valid(s) && id in s.sessions && s.sessions[id].open
    requires forall i | 0 <= i < |events| :: events[i] != Interval
    ensures var r := Run(s, events);
            && id in r.sessions && r.sessions[id].open
            && (s.sessions[id].alive ==> r.sessions[id].alive)
    decreases |events|
  {
    if events != [] {
      var s' := Step(s, events[0]);
      assert id in s'.sessions && s'.sessions[id].open && (s.sessions[id].alive ==> s'.sessions[id].alive) by {
        match events[0]
        case Accept =>
          assert s.nextId != id;
        case PongFrom(_) =>
        case FrameFrom(_, _, _) =>
        case Interval =>
          assert false;
        case Elapse(_) =>
      }
      var rest := events[1..];
      assert forall i | 0 <= i < |rest| :: rest[i] != Interval by {
        forall i | 0 <= i < |rest| ensures rest[i] != Interval {
          assert rest[i] == events[i + 1];
        }
      }
      NoTickKeepsOpen(s', id, rest);
    }
  }

  /** A freshly accepted session survives its first tick, whatever happens
      between the connection and that tick; with nothing in between, its only
      frame so far is the probe. */
  lemma FreshSessionSurvivesFirstTick(s: ServerState, between: seq<Event>)
    requires Valid(s)
    requires forall i | 0 <= i < |between| :: between[i] != Interval
    ensures var t := Tick(Run(Connect(s), between));
            && s.nextId in t.sessions && t.sessions[s.nextId].open && !t.sessions[s.nextId].alive
            && (between == [] ==> t.outbox[s.nextId] == [Ping])
  {
    var c := Connect(s);
    NoTickKeepsOpen(c, s.nextId, between);
  }

  /** A live session that answers the probe at any point before the next
      tick is still open after that tick, whatever else happens in between. */
  lemma AnsweredProbeSurvives(s: ServerState, id: SessionId, pre: seq<Event>, post: seq<Event>)
    requires Valid(s) && id in s.sessions && s.sessions[id].alive && s.sessions[id].open
    requires forall i | 0 <= i < |pre| :: pre[i] != Interval
    requires forall i | 0 <= i < |post| :: post[i] != Interval
    ensures var t := Tick(Run(Tick(s), pre + [PongFrom(id)] + post));
            && id in t.sessions && t.sessions[id].open && !t.sessions[id].alive
  {
    var first := Tick(s);
    NoTickKeepsOpen(first, id, pre);
    var beforePong := Run(first, pre);
    var afterPong := Step(beforePong, PongFrom(id));
    assert afterPong.sessions[id].alive && afterPong.sessions[id].open;
    NoTickKeepsOpen(afterPong, id, post);
    assert Run(beforePong, [PongFrom(id)]) == afterPong;
    calc {
      Run(first, pre + [PongFrom(id)] + post);
      { RunAppend(first, pre + [PongFrom(id)], post); }
      Run(Run(first, pre + [PongFrom(id)]), post);
      { RunAppend(first, pre, [PongFrom(id)]); }
      Run(afterPong, post);
    }
  }

  /** A client joins as `name` on a fresh connection and sends `body`: it
      receives the history first, then its own message back; the log gains
      one record with its name, body and the server time; every other open
      session receives the same message once. */
  lemma JoinThenChat(s: ServerState, name: string, body: string)
    requires Valid(s) && name != "" && body != ""
    ensures var id := s.nextId;
            var joined := Handle(Connect(s), id, Join(name), true);
            var posted := Handle(joined, id, Msg(body), true);
            && posted.store == s.store + [Record(name, body, s.clock)]
            && posted.outbox[id] == [History(RecentHistory(s.store)), Chat(name, body, s.clock)]
            && (forall k | k in s.sessions && s.sessions[k].open ::
                  posted.outbox[k] == s.outbox[k] + [Chat(name, body, s.clock)])
            && (forall k | k in s.sessions && !s.sessions[k].open :: posted.outbox[k] == s.outbox[k])
  {
  }
}
