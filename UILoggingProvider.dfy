/** The in-game log viewer's logging provider: one bounded FIFO buffer of log
    entries, shared by one logger per category. Timestamps are passed in by the
    caller, and the formatter's output is the `message` argument. */
module UILogging {
  import opened Seqs
  import Wrappers

  datatype LogLevel = Trace | Debug | Information | Warning | Error | Critical | None

  /** A `LogEntry`; the exception is represented by its text. */
  datatype LogEntry = LogEntry(timestamp: int, level: LogLevel, category: string, message: string,
                               exception: Wrappers.Option<string>)

  /** The provider's `_maxEntries`. */
  const MaxEntries: int := 10000

  /** The default `count` of `GetRecentLogs`. */
  const RecentLogsDefault: int := 1000

  /** `UILogger.IsEnabled`: every level except `None`. */
  predicate IsEnabled(level: LogLevel): (r: bool)
    ensures r <==> level in {Trace, Debug, Information, Warning, Error, Critical}
  {
    level != None
  }

  /** The shared `ConcurrentQueue<LogEntry>`, oldest entry first. */
  class LogBuffer {
    var entries: seq<LogEntry>

    constructor ()
      ensures entries == []
    {
      entries := [];
    }
  }

  class UILogger {
    const category: string
    const buffer: LogBuffer
    const maxEntries: int

    constructor (categoryName: string, logEntries: LogBuffer, max: int)
      ensures category == categoryName && buffer == logEntries && maxEntries == max
    {
      category, buffer, maxEntries := categoryName, logEntries, max;
    }

    /** `Log`: nothing for a disabled level; otherwise enqueue the entry at the
        back and dequeue from the front until at most `maxEntries` remain, so the
        buffer keeps the most recent entries. (With a negative bound the loop
        would never end; the provider always passes 10000.) */
    method Log(level: LogLevel, message: string, exception: Wrappers.Option<string>, now: int)
      requires 0 <= maxEntries
      modifies buffer
      ensures !IsEnabled(level) ==> buffer.entries == old(buffer.entries)
      ensures IsEnabled(level) ==>
        buffer.entries == TakeLast(old(buffer.entries) + [LogEntry(now, level, category, message, exception)], maxEntries)
      ensures IsEnabled(level) && maxEntries > 0 ==>
        buffer.entries[|buffer.entries| - 1] == LogEntry(now, level, category, message, exception)
      ensures IsEnabled(level) || |old(buffer.entries)| <= maxEntries ==> |buffer.entries| <= maxEntries
    {
      if !IsEnabled(level) {
        return;
      }
      var entry := LogEntry(now, level, category, message, exception);
      var queue := buffer.entries + [entry];
      ghost var all := queue;
      while |queue| > maxEntries
        invariant |queue| <= |all| && queue == all[|all| - |queue|..]
        invariant |queue| >= (if maxEntries < |all| then maxEntries else |all|)
      {
        queue := queue[1..];
      }
      assert queue == TakeLast(all, maxEntries);
      buffer.entries := queue;
    }
  }

  class UILoggingProvider {
    var loggers: map<string, UILogger>
    const logEntries: LogBuffer

    /** Every logger is registered under its own category, writes to the shared
        buffer and has the provider's bound. */
    ghost predicate Valid()
      reads this
    {
      forall name :: name in loggers ==>
        loggers[name].category == name && loggers[name].buffer == logEntries
        && loggers[name].maxEntries == MaxEntries
    }

    constructor ()
      ensures Valid() && loggers == map[] && fresh(logEntries) && logEntries.entries == []
    {
      loggers := map[];
      logEntries := new LogBuffer();
    }

    /** `CreateLogger`: the logger already registered for the category, or a new
        one on the shared buffer that is registered from then on. */
    method CreateLogger(categoryName: string) returns (logger: UILogger)
      requires Valid()
      modifies this`loggers
      ensures Valid()
      ensures categoryName in old(loggers) ==> logger == old(loggers)[categoryName] && loggers == old(loggers)
      ensures categoryName !in old(loggers) ==> fresh(logger) && loggers == old(loggers)[categoryName := logger]
      ensures logger.category == categoryName && logger.buffer == logEntries && logger.maxEntries == MaxEntries
    {
      if categoryName in loggers {
        logger := loggers[categoryName];
      } else {
        logger := new UILogger(categoryName, logEntries, MaxEntries);
        loggers := loggers[categoryName := logger];
      }
    }

    /** `GetLogEntries`: a snapshot of the buffer, oldest first. */
    method GetLogEntries() returns (r: seq<LogEntry>)
      ensures r == logEntries.entries
    {
      r := logEntries.entries;
    }

    /** `GetRecentLogs(count)`: the last `count` entries, or all when there are
        fewer, in insertion order. A caller that omits `count` passes
        `RecentLogsDefault`. */
    method GetRecentLogs(count: int) returns (r: seq<LogEntry>)
      ensures |r| == if count <= 0 then 0 else if count < |logEntries.entries| then count else |logEntries.entries|
      ensures forall i :: 0 <= i < |r| ==> r[i] == logEntries.entries[|logEntries.entries| - |r| + i]
    {
      var entries := logEntries.entries;
      if count <= 0 {
        r := [];
      } else if count < |entries| {
        r := entries[|entries| - count..];
      } else {
        r := entries;
      }
    }

    method ClearLogs()
      modifies logEntries
      ensures logEntries.entries == []
    {
      logEntries.entries := [];
    }

    method Dispose()
      modifies this`loggers, logEntries
      ensures loggers == map[] && logEntries.entries == []
    {
      loggers := map[];
      logEntries.entries := [];
    }
  }

  /** Two loggers handed out for the same category are one logger, and the
      entries of loggers for any two categories land in the same buffer, in the
      order they were logged, while a `None` entry is dropped. */
  method SharedBuffer(provider: UILoggingProvider, a: string, b: string, l1: LogLevel, l2: LogLevel,
                      m1: string, m2: string, now: int)
    requires provider.Valid() && |provider.logEntries.entries| + 2 <= MaxEntries
    requires IsEnabled(l1) && IsEnabled(l2)
    modifies provider, provider.logEntries
    ensures provider.Valid()
    ensures provider.logEntries.entries ==
      old(provider.logEntries.entries) + [LogEntry(now, l1, a, m1, Wrappers.None), LogEntry(now, l2, b, m2, Wrappers.None)]
  {
    var la := provider.CreateLogger(a);
    var lb := provider.CreateLogger(b);
    var la2 := provider.CreateLogger(a);
    assert la2 == la;
    ghost var start := provider.logEntries.entries;
    ghost var first := LogEntry(now, l1, a, m1, Wrappers.None);
    ghost var second := LogEntry(now, l2, b, m2, Wrappers.None);
    la.Log(l1, m1, Wrappers.None, now);
    assert provider.logEntries.entries == start + [first];
    lb.Log(l2, m2, Wrappers.None, now);
    assert provider.logEntries.entries == start + [first] + [second];
    la2.Log(None, m1, Wrappers.None, now);
    assert start + [first] + [second] == start + [first, second];
  }
}
