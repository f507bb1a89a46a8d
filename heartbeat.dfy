/** The heartbeat `setInterval` callback: every session that did not answer
    the previous probe is terminated, every other one is marked not alive
    and probed again. */
module Heartbeat {
  import opened MessageStore
  import opened Sessions

  /** What one visit of the tick does to a session's own fields:
      `terminate()` closes a silent socket, a live one loses `isAlive`. */
  function TickSession(x: Session): (y: Session)
    ensures y.username == x.username
    ensures x.alive ==> !y.alive && y.open == x.open
    ensures !x.alive ==> !y.open && !y.alive
  {
    if x.alive then x.(alive := false) else x.(open := false)
  }

  /** The tick's loop after it has visited the sessions in `visited`, in any
      order: visited sessions are ticked, and those that were alive have one
      `Ping` queued; everything else is as before. */
  function TickOnly(s: ServerState, visited: set<SessionId>): (r: ServerState)
    ensures r.sessions.Keys == s.sessions.Keys && r.outbox.Keys == s.outbox.Keys
    ensures r.store == s.store && r.clock == s.clock && r.nextId == s.nextId
  {
    s.(sessions := map k | k in s.sessions ::
                     if k in visited then TickSession(s.sessions[k]) else s.sessions[k],
       outbox := map k | k in s.outbox ::
                   if k in visited && k in s.sessions && s.sessions[k].alive then s.outbox[k] + [Ping]
                   else s.outbox[k])
  }

  /** One heartbeat tick over the whole registry. */
  function Tick(s: ServerState): (r: ServerState)
    ensures r.sessions.Keys == s.sessions.Keys && r.outbox.Keys == s.outbox.Keys
    ensures r.store == s.store && r.clock == s.clock && r.nextId == s.nextId
    // a session that was not alive is terminated and not probed
    ensures forall k | k in s.sessions && !s.sessions[k].alive ::
              !r.sessions[k].open && !r.sessions[k].alive && (k in s.outbox ==> r.outbox[k] == s.outbox[k])
    // a session that was alive stays as open as it was, is reset and is probed once
    ensures forall k | k in s.sessions && s.sessions[k].alive ::
              r.sessions[k].open == s.sessions[k].open && !r.sessions[k].alive &&
              (k in s.outbox ==> r.outbox[k] == s.outbox[k] + [Ping])
    ensures forall k | k in s.sessions :: r.sessions[k].username == s.sessions[k].username
    ensures Valid(s) ==> Valid(r)
  {
    TickOnly(s, s.sessions.Keys)
  }

  /** One visit of the `forEach` body to session `k`: `terminate()` if it
      did not answer, otherwise reset `isAlive` and `ping()`. */
  function TickVisit(s: ServerState, k: SessionId): (r: ServerState)
    ensures r.sessions.Keys == s.sessions.Keys && r.outbox.Keys == s.outbox.Keys
    ensures r.store == s.store && r.clock == s.clock && r.nextId == s.nextId
    ensures k in s.sessions ==> r.sessions[k] == TickSession(s.sessions[k])
    ensures k in s.outbox ==>
              r.outbox[k] == if k in s.sessions && s.sessions[k].alive then s.outbox[k] + [Ping] else s.outbox[k]
    ensures forall j | j in s.sessions && j != k :: r.sessions[j] == s.sessions[j]
    ensures forall j | j in s.outbox && j != k :: r.outbox[j] == s.outbox[j]
  {
    if k !in s.sessions then s
    else if !s.sessions[k].alive then s.(sessions := s.sessions[k := s.sessions[k].(open := false)])
    else if k in s.outbox then
      s.(sessions := s.sessions[k := s.sessions[k].(alive := false)],
         outbox := s.outbox[k := s.outbox[k] + [Ping]])
    else s.(sessions := s.sessions[k := s.sessions[k].(alive := false)])
  }

  /** One more visit of the tick's loop, in the loop's own terms: the
      partial tick grows by one visit of the not yet visited client `c`. */
  lemma TickOnlyOneMore(s: ServerState, visited: set<SessionId>, c: SessionId)
    requires c !in visited
    ensures TickOnly(s, visited + {c}) == TickVisit(TickOnly(s, visited), c)
  {
  }

  /** The tick as `forEach` runs it: the sessions in `order`, one visit after
      another, the last one visited last. */
  function TickInOrder(s: ServerState, order: seq<SessionId>): (r: ServerState)
    ensures r.sessions.Keys == s.sessions.Keys && r.outbox.Keys == s.outbox.Keys
    ensures r.store == s.store && r.clock == s.clock && r.nextId == s.nextId
    ensures forall k | k in s.sessions && k !in order :: r.sessions[k] == s.sessions[k]
    ensures forall k | k in s.outbox && k !in order :: r.outbox[k] == s.outbox[k]
    decreases |order|
  {
    if order == [] then s else TickVisit(TickInOrder(s, order[..|order| - 1]), order[|order| - 1])
  }

  /** Before the loop has visited anything, nothing has changed. */
  lemma TickOnlyNothing(s: ServerState)
    ensures TickOnly(s, {}) == s
  {
  }

  /** The order `forEach` visits the clients in does not matter: visiting a
      list of distinct sessions one after another is the partial tick over
      those sessions. */
  lemma {:induction false} TickInOrderIsTickOnly(s: ServerState, order: seq<SessionId>)
    requires forall i, j | 0 <= i < j < |order| :: order[i] != order[j]
    ensures TickInOrder(s, order) == TickOnly(s, set k | k in order)
    decreases |order|
  {
    if order == [] {
      assert (set k | k in order) == {};
      TickOnlyNothing(s);
    } else {
      var init := order[..|order| - 1];
      var last := order[|order| - 1];
      var visited := set k | k in init;
      assert last !in visited by {
        forall i | 0 <= i < |init| ensures init[i] != last {
          assert init[i] == order[i];
        }
      }
      assert forall i, j | 0 <= i < j < |init| :: init[i] != init[j] by {
        forall i, j | 0 <= i < j < |init| ensures init[i] != init[j] {
          assert init[i] == order[i] && init[j] == order[j];
        }
      }
      var all := set k | k in order;
      assert all == visited + {last} by {
        assert order == init + [last];
      }
      calc {
        TickInOrder(s, order);
        TickVisit(TickInOrder(s, init), last);
        { TickInOrderIsTickOnly(s, init); }
        TickVisit(TickOnly(s, visited), last);
        { TickOnlyOneMore(s, visited, last); }
        TickOnly(s, visited + {last});
        TickOnly(s, all);
      }
    }
  }

  /** Hence a whole `forEach` pass over the registry, in whatever order the
      clients are enumerated, is the tick. */
  lemma TickOverAllClients(s: ServerState, order: seq<SessionId>)
    requires forall i, j | 0 <= i < j < |order| :: order[i] != order[j]
    requires forall k :: k in order <==> k in s.sessions
    ensures TickInOrder(s, order) == Tick(s)
  {
    var all := set k | k in order;
    assert all == s.sessions.Keys;
    calc {
      TickInOrder(s, order);
      { TickInOrderIsTickOnly(s, order); }
      TickOnly(s, all);
      TickOnly(s, s.sessions.Keys);
      Tick(s);
    }
  }
}
