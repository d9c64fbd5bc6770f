/**
 * The in-app debug log: a first-in first-out queue of at most 100
 * entries, its contents published as a list after every change.
 */
module DebugLogger {

  datatype LogEntry = LogEntry(timestamp: int, tag: string, message: string)

  const MAX_LOG_ENTRIES: nat := 100

  /** How many entries the queue holds after logging onto `n` entries. */
  function CappedCount(n: nat): (c: nat)
    ensures c <= MAX_LOG_ENTRIES && c <= n + 1
    ensures c == n + 1 || c == MAX_LOG_ENTRIES
  {
    if n + 1 <= MAX_LOG_ENTRIES then n + 1 else MAX_LOG_ENTRIES
  }

  /**
   * The queue after logging `e`: the oldest entries are dropped until
   * there is room, then `e` goes at the end.
   */
  function Logged(queue: seq<LogEntry>, e: LogEntry): (r: seq<LogEntry>)
    ensures |r| == CappedCount(|queue|)
    ensures r[|r| - 1] == e
    ensures r[..|r| - 1] == queue[|queue| - (|r| - 1)..]
  {
    if |queue| < MAX_LOG_ENTRIES then queue + [e]
    else queue[|queue| - (MAX_LOG_ENTRIES - 1)..] + [e]
  }

  /** The queue after logging each of `entries` in turn onto an empty queue. */
  function LogOf(entries: seq<LogEntry>): (r: seq<LogEntry>)
    ensures |r| <= MAX_LOG_ENTRIES
  {
    if |entries| == 0 then [] else Logged(LogOf(entries[..|entries| - 1]), entries[|entries| - 1])
  }

  /** How many of `n` logged entries the queue keeps. */
  function KeptCount(n: nat): (c: nat)
    ensures c == n || c == MAX_LOG_ENTRIES < n
  {
    if n <= MAX_LOG_ENTRIES then n else MAX_LOG_ENTRIES
  }

  /** The queue always holds the most recent entries, as many as fit, oldest first. */
  lemma {:induction false} LogKeepsMostRecent(entries: seq<LogEntry>)
    ensures LogOf(entries) == entries[|entries| - KeptCount(|entries|)..]
  {
    if |entries| > 0 {
      var n := |entries| - 1;
      var front, e := entries[..n], entries[n];
      assert front + [e] == entries;
      LogKeepsMostRecent(front);
      LoggedOntoRecent(front, e);
    }
  }

  /** Logging onto the most recent entries of a history gives the most recent entries of the longer history. */
  lemma LoggedOntoRecent(history: seq<LogEntry>, e: LogEntry)
    ensures var h := history + [e];
            Logged(history[|history| - KeptCount(|history|)..], e) == h[|h| - KeptCount(|h|)..]
  {
    var q := history[|history| - KeptCount(|history|)..];
    var h := history + [e];
    var r := Logged(q, e);
    var k := |r| - 1;
    assert r[..k] == q[|q| - k..] == history[|history| - k..];
    assert r == r[..k] + [e];
    assert h[|h| - KeptCount(|h|)..] == history[|history| - k..] + [e];
  }

  /** `HLog`: the queue and the list published from it. */
  class Log {
    var logQueue: seq<LogEntry>
    var published: seq<LogEntry>

    ghost predicate Valid()
      reads this
    {
      |logQueue| <= MAX_LOG_ENTRIES && published == logQueue
    }

    constructor ()
      ensures Valid() && logQueue == []
    {
      logQueue := [];
      published := [];
    }

    /**
     * `d`: drops the oldest entries while the queue is full, appends the
     * new entry and publishes the queue. The time stamp is a parameter.
     */
    method D(timestamp: int, tag: string, message: string)
      modifies this
      ensures logQueue == Logged(old(logQueue), LogEntry(timestamp, tag, message))
      ensures published == logQueue
      ensures Valid()
    {
      var newEntry := LogEntry(timestamp, tag, message);
      ghost var start := logQueue;
      while |logQueue| >= MAX_LOG_ENTRIES
        invariant |logQueue| <= |start| && logQueue == start[|start| - |logQueue|..]
        invariant |start| >= MAX_LOG_ENTRIES ==> |logQueue| >= MAX_LOG_ENTRIES - 1
        invariant |start| < MAX_LOG_ENTRIES ==> logQueue == start
        decreases |logQueue|
      {
        logQueue := logQueue[1..];
      }
      assert logQueue == start[|start| - |logQueue|..];
      assert |start| >= MAX_LOG_ENTRIES ==> logQueue == start[|start| - (MAX_LOG_ENTRIES - 1)..];
      logQueue := logQueue + [newEntry];
      published := logQueue;
    }

    /** `clear`: empties the queue and the published list. */
    method Clear()
      modifies this
      ensures logQueue == [] && published == []
      ensures Valid()
    {
      logQueue := [];
      published := [];
    }
  }
}
