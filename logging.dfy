/**
 * The in-memory log buffer of the logging service: entries are appended
 * and, once the buffer holds more than `MaxLogs` of them, the oldest one is
 * dropped. Timestamps, the user agent, the page URL and console output are
 * not part of an entry here; development mode is a constructor argument.
 */
module Logging {
  import opened Seqs
  import opened Records

  const MaxLogs: nat := 100

  /** `{ level, message, data }`; `data` is kept as an opaque payload. */
  datatype LogEntry = LogEntry(level: string, message: string, data: string)

  function LevelOf(e: LogEntry): string { e.level }

  /** The last `MaxLogs` entries of `history`, or all of them when there are fewer. */
  function Retained(history: seq<LogEntry>): (r: seq<LogEntry>)
    ensures |r| <= MaxLogs
    ensures |r| == if |history| < MaxLogs then |history| else MaxLogs
  {
    if |history| <= MaxLogs then history else history[|history| - MaxLogs..]
  }

  /**
   * One `log` step keeps the retained window: appending to the window of a
   * history and dropping the head on overflow gives the window of the longer
   * history.
   */
  lemma RetainedStep(history: seq<LogEntry>, entry: LogEntry)
    ensures var pushed := Retained(history) + [entry];
            Retained(history + [entry]) == if |pushed| > MaxLogs then pushed[1..] else pushed
  {
    var h := history + [entry];
    if |h| > MaxLogs {
      assert h[|h| - MaxLogs..] == (Retained(history) + [entry])[1..];
    }
  }

  /** `getLogs(level)`: a falsy level (none, or "") selects the whole buffer. */
  function SelectLogs(logs: seq<LogEntry>, level: Option<string>): (r: seq<LogEntry>)
  {
    if level.Some? && level.value != "" then Filter(logs, KeyIs(LevelOf, level.value)) else logs
  }

  /**
   * `getLogs` with a level returns exactly the entries of that level, in
   * buffer order, and without one the whole buffer.
   */
  lemma SelectLogsSpec(logs: seq<LogEntry>, level: Option<string>)
    ensures level.None? || level.value == "" ==> SelectLogs(logs, level) == logs
    ensures level.Some? && level.value != "" ==>
              && |SelectLogs(logs, level)| <= |logs|
              && (forall e | e in SelectLogs(logs, level) :: e in logs && e.level == level.value)
              && (forall e | e in logs && e.level == level.value :: e in SelectLogs(logs, level))
  {
    if level.Some? && level.value != "" {
      FilterMembers(logs, KeyIs(LevelOf, level.value));
    }
  }

  /** Selecting a level keeps the order of the buffer: it distributes over appends. */
  lemma SelectLogsAppend(logs: seq<LogEntry>, entry: LogEntry, level: string)
    requires level != ""
    ensures SelectLogs(logs + [entry], Some(level)) ==
              SelectLogs(logs, Some(level)) + (if entry.level == level then [entry] else [])
  {
    FilterConcat(logs, [entry], KeyIs(LevelOf, level));
    FilterSingleton(entry, KeyIs(LevelOf, level));
    var p := KeyIs(LevelOf, level);
    assert p(entry) == (LevelOf(entry) == level);
  }

  class Logger {
    const isDevelopment: bool
    var logs: seq<LogEntry>
    /** Every entry logged since construction or the last `ClearLogs`. */
    ghost var history: seq<LogEntry>

    ghost predicate Valid()
      reads this
    {
      logs == Retained(history)
    }

    constructor(isDevelopment: bool)
      ensures Valid()
      ensures this.isDevelopment == isDevelopment
      ensures logs == [] && history == []
    {
      this.isDevelopment := isDevelopment;
      logs := [];
      history := [];
    }

    /**
     * `log(level, message, data)`: appends one entry; when that makes the
     * buffer exceed `MaxLogs`, the oldest entry is dropped.
     */
    method Log(level: string, message: string, data: string)
      requires Valid()
      modifies this
      ensures Valid()
      ensures history == old(history) + [LogEntry(level, message, data)]
      ensures |logs| <= MaxLogs && logs[|logs| - 1] == LogEntry(level, message, data)
      ensures |old(logs)| < MaxLogs ==> logs == old(logs) + [LogEntry(level, message, data)]
      ensures |old(logs)| == MaxLogs ==> logs == old(logs)[1..] + [LogEntry(level, message, data)]
    {
      var entry := LogEntry(level, message, data);
      RetainedStep(history, entry);
      logs := logs + [entry];
      history := history + [entry];
      if |logs| > MaxLogs {
        logs := logs[1..];
      }
    }

    method Info(message: string, data: string)
      requires Valid()
      modifies this
      ensures Valid()
      ensures history == old(history) + [LogEntry("info", message, data)]
    {
      Log("info", message, data);
    }

    method Warn(message: string, data: string)
      requires Valid()
      modifies this
      ensures Valid()
      ensures history == old(history) + [LogEntry("warn", message, data)]
    {
      Log("warn", message, data);
    }

    method Error(message: string, data: string)
      requires Valid()
      modifies this
      ensures Valid()
      ensures history == old(history) + [LogEntry("error", message, data)]
    {
      Log("error", message, data);
    }

    /** `debug` records an entry only in development mode. */
    method Debug(message: string, data: string)
      requires Valid()
      modifies this
      ensures Valid()
      ensures isDevelopment ==> history == old(history) + [LogEntry("debug", message, data)]
      ensures !isDevelopment ==> logs == old(logs) && history == old(history)
    {
      if isDevelopment {
        Log("debug", message, data);
      }
    }

    function GetLogs(level: Option<string>): seq<LogEntry>
      reads this
    {
      SelectLogs(logs, level)
    }

    method ClearLogs()
      modifies this
      ensures Valid()
      ensures logs == [] && history == []
    {
      logs := [];
      history := [];
    }
  }
}
