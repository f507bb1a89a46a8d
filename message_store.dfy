/** The message log of the chat server: the records `msg.save()` appends and
    the history query that is sent to a client on `join`. The database itself
    is abstract: an append-only sequence of records in insertion order. */
module MessageStore {

  /** One stored chat message (the mongoose `Message` document). */
  datatype Record = Record(username: string, message: string, timestamp: nat)

  /** Number of records a `history` frame carries at most. */
  const HistoryLimit: nat := 50

  /** Timestamps never decrease along the log. */
  predicate Chronological(log: seq<Record>) {
    forall i, j | 0 <= i < j < |log| :: log[i].timestamp <= log[j].timestamp
  }

  /** Appending a record that is not older than anything in the log keeps
      the log chronological. */
  lemma AppendKeepsChronological(log: seq<Record>, r: Record)
    requires Chronological(log)
    requires forall i | 0 <= i < |log| :: log[i].timestamp <= r.timestamp
    ensures Chronological(log + [r])
  {
  }

  /** The records of a `history` frame: the newest `HistoryLimit` records,
      oldest first. */
  function RecentHistory(log: seq<Record>): (h: seq<Record>)
    ensures |h| <= HistoryLimit
    ensures |h| == if |log| < HistoryLimit then |log| else HistoryLimit
    ensures forall i | 0 <= i < |h| :: h[i] == log[|log| - |h| + i]
    ensures Chronological(log) ==> Chronological(h)
  {
    if |log| <= HistoryLimit then log else log[|log| - HistoryLimit..]
  }
}
