/**
 * The app logger's in-memory buffer (ios/AdhanApp/Utilities/AppLogger.swift):
 * every logged message is appended as an entry, the buffer keeps only the
 * newest 500, and feedback reports read the most recent entries back as text.
 * The buffer is updated in program order; the instant of logging and the
 * ISO 8601 rendering of an instant are inputs.
 */
module Logger {
  import opened Text

  const MaxBufferSize := 500

  /** The `OSLogType` raw values the logger distinguishes. */
  const Default := 0
  const Info := 1
  const Debug := 2
  const Error := 16
  const Fault := 17

  datatype LogEntry = LogEntry(timestamp: int, category: string, level: string, message: string)

  /** `levelString`: the label stored in an entry for each level. */
  function LevelName(level: int): string {
    if level == Debug then "DEBUG"
    else if level == Info then "INFO"
    else if level == Error then "ERROR"
    else if level == Fault then "FAULT"
    else "DEFAULT"
  }

  /** The four named levels have their own labels; every other level is "DEFAULT". */
  lemma LevelNames(level: int)
    ensures LevelName(Debug) == "DEBUG" && LevelName(Info) == "INFO"
    ensures LevelName(Error) == "ERROR" && LevelName(Fault) == "FAULT"
    ensures LevelName(level) == "DEFAULT" <==> level !in {Debug, Info, Error, Fault}
  {
  }

  /** `formattedString`, given how an instant is rendered. */
  function FormattedString(e: LogEntry, iso: int -> string): string {
    "[" + iso(e.timestamp) + "] [" + e.category + "] [" + e.level + "] " + e.message
  }

  /** The buffer after appending `e`: the oldest entries are dropped beyond 500. */
  function Appended(buffer: seq<LogEntry>, e: LogEntry): (r: seq<LogEntry>)
    ensures |r| <= MaxBufferSize
  {
    var grown := buffer + [e];
    if |grown| > MaxBufferSize then grown[|grown| - MaxBufferSize..] else grown
  }

  /**
   * The new entry is last, the others are the newest of the old ones in their
   * order, and below capacity the buffer grows by exactly that entry.
   */
  lemma AppendedKeepsNewest(buffer: seq<LogEntry>, e: LogEntry)
    ensures var r := Appended(buffer, e);
      && |r| >= 1 && r[|r| - 1] == e
      && r[..|r| - 1] == buffer[|buffer| - (|r| - 1)..]
      && (|buffer| < MaxBufferSize ==> r == buffer + [e])
      && (|buffer| >= MaxBufferSize ==> |r| == MaxBufferSize)
  {
    var r := Appended(buffer, e);
    var grown := buffer + [e];
    assert r == grown[|grown| - |r|..];
    assert r[..|r| - 1] == grown[|grown| - |r|..|grown| - 1];
  }

  /** The buffer after logging `entries` in order. */
  function LoggedAll(buffer: seq<LogEntry>, entries: seq<LogEntry>): seq<LogEntry>
    decreases |entries|
  {
    if entries == [] then buffer else LoggedAll(Appended(buffer, entries[0]), entries[1..])
  }

  /** The last `n` entries of `s` (all of them when there are fewer). */
  function Newest(s: seq<LogEntry>, n: nat): (r: seq<LogEntry>)
    ensures |r| == if |s| < n then |s| else n
  {
    if |s| <= n then s else s[|s| - n..]
  }

  /**
   * However many messages are logged, the buffer holds the newest 500 of
   * everything logged, in logging order: a first-in first-out window.
   */
  lemma {:induction false} LoggedAllIsWindow(buffer: seq<LogEntry>, entries: seq<LogEntry>)
    requires |buffer| <= MaxBufferSize
    ensures LoggedAll(buffer, entries) == Newest(buffer + entries, MaxBufferSize)
    decreases |entries|
  {
    if entries == [] {
      assert buffer + entries == buffer;
    } else {
      var next := Appended(buffer, entries[0]);
      LoggedAllIsWindow(next, entries[1..]);
      var all := buffer + entries;
      var grown := buffer + [entries[0]];
      assert next == Newest(grown, MaxBufferSize);
      assert all == grown + entries[1..];
      NewestOfNewest(grown, entries[1..], MaxBufferSize);
    }
  }

  /** Keeping the newest `n`, then appending, then keeping the newest `n` is keeping the newest `n` overall. */
  lemma NewestOfNewest(a: seq<LogEntry>, b: seq<LogEntry>, n: nat)
    ensures Newest(Newest(a, n) + b, n) == Newest(a + b, n)
  {
    if |a| > n {
      var k := |a| - n;
      assert (a + b)[k..] == a[k..] + b;
      var t := a[k..] + b;
      if |t| > n {
        assert (a + b)[|a + b| - n..] == t[|t| - n..];
      }
    }
  }

  /** `getRecentLogs(count:)`: the last `count` entries in their order. */
  function RecentLogs(buffer: seq<LogEntry>, count: nat): (r: seq<LogEntry>)
    ensures |r| == if count < |buffer| then count else |buffer|
    ensures r == buffer[|buffer| - |r|..]
  {
    Newest(buffer, count)
  }

  /** `exportLogsAsString(count:)`: the recent entries' strings, one per line. */
  function ExportLogs(buffer: seq<LogEntry>, count: nat, iso: int -> string): string {
    var recent := RecentLogs(buffer, count);
    Join(seq(|recent|, k requires 0 <= k < |recent| => FormattedString(recent[k], iso)), '\n')
  }

  /**
   * An empty buffer exports as the empty string; otherwise the export splits
   * back, line by line, into the recent entries' strings when no string
   * spans a line break.
   */
  lemma ExportSplitsIntoEntries(buffer: seq<LogEntry>, count: nat, iso: int -> string)
    ensures buffer == [] ==> ExportLogs(buffer, count, iso) == ""
    ensures var recent := RecentLogs(buffer, count);
      (recent != [] && forall k :: 0 <= k < |recent| ==> '\n' !in FormattedString(recent[k], iso)) ==>
        Split(ExportLogs(buffer, count, iso), '\n') == seq(|recent|, k requires 0 <= k < |recent| => FormattedString(recent[k], iso))
  {
    var recent := RecentLogs(buffer, count);
    var lines := seq(|recent|, k requires 0 <= k < |recent| => FormattedString(recent[k], iso));
    if recent != [] && forall k :: 0 <= k < |recent| ==> '\n' !in FormattedString(recent[k], iso) {
      SplitJoin(lines, '\n');
    }
  }

  /** The logger object and its buffer. */
  class AppLogger {
    var logBuffer: seq<LogEntry>

    ghost predicate Valid()
      reads this
    {
      |logBuffer| <= MaxBufferSize
    }

    constructor()
      ensures Valid() && logBuffer == []
    {
      logBuffer := [];
    }

    /** `log(_:category:level:)` at instant `now`: the entry appended, the oldest trimmed beyond 500. */
    method Log(message: string, category: string, level: int, now: int)
      modifies this
      ensures Valid()
      ensures logBuffer == Appended(old(logBuffer), LogEntry(now, category, LevelName(level), message))
    {
      var entry := LogEntry(now, category, LevelName(level), message);
      logBuffer := logBuffer + [entry];
      if |logBuffer| > MaxBufferSize {
        logBuffer := logBuffer[|logBuffer| - MaxBufferSize..];
      }
    }

    /** `clearBuffer()`: nothing left, so the count is 0. */
    method ClearBuffer()
      modifies this
      ensures Valid() && logBuffer == [] && BufferCount() == 0
    {
      logBuffer := [];
    }

    /** `bufferCount`. */
    function BufferCount(): (n: nat)
      reads this
      ensures Valid() ==> n <= MaxBufferSize
    {
      |logBuffer|
    }
  }
}
