/**
 * The front-end logger (src/utils/logger.js): an in-memory list of entries
 * mirrored into one browser storage item. The clock and the storage item are
 * explicit: each call that logs takes its timestamp as a parameter, and the
 * storage item is the field `store`.
 */
module Logging {
  import opened Text

  /** The storage item `logger_<filename>`: absent, a stored list, or text that does not parse. */
  datatype SavedLogs = NoItem | Entries(entries: seq<string>) | Unreadable

  /** One log line: `[timestamp] [LEVEL] message`. */
  function Entry(timestamp: string, level: string, message: string): string {
    "[" + timestamp + "] [" + level + "] " + message
  }

  /** The marker a level filter searches for. */
  function Tag(level: string): string {
    "[" + level + "]"
  }

  /** An entry carries the tag of a level when the tag occurs anywhere in its text. */
  predicate Tagged(entry: string, level: string) {
    Contains(entry, Tag(level))
  }

  /** Every entry carries the tag of its own level. */
  lemma EntryTagged(timestamp: string, level: string, message: string)
    ensures Tagged(Entry(timestamp, level, message), level)
  {
    var e := Entry(timestamp, level, message);
    var i := |timestamp| + 3;
    assert e == "[" + timestamp + "] " + Tag(level) + " " + message;
    assert e[i..i + |Tag(level)|] == Tag(level);
    assert OccursAt(e, Tag(level), i);
  }

  // ---------------------------------------------------------------------------
  // Queries
  // ---------------------------------------------------------------------------

  /** `getAllLogs`: the entries joined with line breaks. */
  function AllLogs(logs: seq<string>): string {
    Join(logs, "\n")
  }

  /** Entries without line breaks come back one by one when the joined text is split at line breaks. */
  lemma AllLogsLines(logs: seq<string>)
    requires |logs| >= 1
    requires forall k :: 0 <= k < |logs| ==> '\n' !in logs[k]
    ensures Split(AllLogs(logs), '\n') == logs
  {
    SplitJoin(logs, '\n');
  }

  /** `getLogsByLevel`: the entries carrying the level's tag, in their order. */
  function LogsByLevel(logs: seq<string>, level: string): (r: seq<string>)
    ensures |r| <= |logs|
    ensures forall e :: e in r ==> e in logs && Tagged(e, level)
    decreases |logs|
  {
    if |logs| == 0 then []
    else
      var init := LogsByLevel(logs[..|logs| - 1], level);
      var last := logs[|logs| - 1];
      if Tagged(last, level) then init + [last] else init
  }

  /** No tagged entry is dropped by the level filter. */
  lemma {:induction false} LogsByLevelComplete(logs: seq<string>, level: string)
    ensures forall k :: 0 <= k < |logs| && Tagged(logs[k], level) ==> logs[k] in LogsByLevel(logs, level)
    decreases |logs|
  {
    if |logs| > 0 {
      var init := logs[..|logs| - 1];
      LogsByLevelComplete(init, level);
      forall k | 0 <= k < |logs| && Tagged(logs[k], level)
        ensures logs[k] in LogsByLevel(logs, level)
      {
        if k < |logs| - 1 {
          assert logs[k] == init[k];
        }
      }
    }
  }

  /** The level filter of a longer list is the filter of the shorter one and then the new entry, when tagged. */
  lemma {:induction false} LogsByLevelConcat(logs: seq<string>, more: seq<string>, level: string)
    ensures LogsByLevel(logs + more, level) == LogsByLevel(logs, level) + LogsByLevel(more, level)
    decreases |more|
  {
    if |more| == 0 {
      assert logs + more == logs;
    } else {
      var init := more[..|more| - 1];
      assert (logs + more)[..|logs + more| - 1] == logs + init;
      assert (logs + more)[|logs + more| - 1] == more[|more| - 1];
      LogsByLevelConcat(logs, init, level);
    }
  }

  /** `getStats`: the number of entries and the number per level. */
  datatype Stats = Stats(total: nat, info: nat, warn: nat, error: nat, debug: nat)

  /** The statistics of a list of entries; a level's count is the length of its filter. */
  function GetStats(logs: seq<string>): (s: Stats)
    ensures s.total == |logs|
    ensures s.info == |LogsByLevel(logs, "INFO")| && s.warn == |LogsByLevel(logs, "WARN")|
    ensures s.error == |LogsByLevel(logs, "ERROR")| && s.debug == |LogsByLevel(logs, "DEBUG")|
    ensures s.info <= s.total && s.warn <= s.total && s.error <= s.total && s.debug <= s.total
  {
    Stats(|logs|,
          |LogsByLevel(logs, "INFO")|, |LogsByLevel(logs, "WARN")|,
          |LogsByLevel(logs, "ERROR")|, |LogsByLevel(logs, "DEBUG")|)
  }

  /** The positions of the entries that carry a level's tag. */
  function TaggedAt(logs: seq<string>, level: string): set<nat> {
    set k: nat | k < |logs| && Tagged(logs[k], level)
  }

  /** A level's count is the number of positions whose entry carries its tag. */
  lemma {:induction false} LevelCountIsTaggedPositions(logs: seq<string>, level: string)
    ensures |LogsByLevel(logs, level)| == |TaggedAt(logs, level)|
    decreases |logs|
  {
    if |logs| > 0 {
      var init := logs[..|logs| - 1];
      var n := |logs| - 1;
      LevelCountIsTaggedPositions(init, level);
      var before := TaggedAt(init, level);
      assert forall k: nat | k < n :: logs[k] == init[k];
      if Tagged(logs[n], level) {
        assert TaggedAt(logs, level) == before + {n};
        assert n !in before;
      } else {
        assert TaggedAt(logs, level) == before;
      }
    }
  }

  /** The count of one of the four levels after one more entry: one more when the entry carries its tag. */
  function Bump(count: nat, entry: string, level: string): nat {
    if Tagged(entry, level) then count + 1 else count
  }

  /**
   * Logging one entry adds it to its own level's filter and one to the total;
   * each level's count rises by one exactly when the entry carries that level's tag.
   */
  lemma LoggedEntryCounted(logs: seq<string>, timestamp: string, level: string, message: string)
    ensures LogsByLevel(logs + [Entry(timestamp, level, message)], level) ==
              LogsByLevel(logs, level) + [Entry(timestamp, level, message)]
    ensures var before := GetStats(logs);
            var after := GetStats(logs + [Entry(timestamp, level, message)]);
            var e := Entry(timestamp, level, message);
            after.total == before.total + 1 &&
            after.info == Bump(before.info, e, "INFO") && after.warn == Bump(before.warn, e, "WARN") &&
            after.error == Bump(before.error, e, "ERROR") && after.debug == Bump(before.debug, e, "DEBUG")
    ensures level in ["INFO", "WARN", "ERROR", "DEBUG"] ==>
              LevelCount(GetStats(logs + [Entry(timestamp, level, message)]), level) ==
              LevelCount(GetStats(logs), level) + 1
  {
    var e := Entry(timestamp, level, message);
    EntryTagged(timestamp, level, message);
    var all := logs + [e];
    assert all[..|all| - 1] == logs;
    assert all[|all| - 1] == e;
  }

  /** The count `getStats` reports for one of the four levels. */
  function LevelCount(s: Stats, level: string): nat {
    match level
    case "INFO" => s.info
    case "WARN" => s.warn
    case "ERROR" => s.error
    case _ => s.debug
  }

  // ---------------------------------------------------------------------------
  // The logger
  // ---------------------------------------------------------------------------

  /** The entries `init` starts from: the stored list, or none. */
  function Loaded(saved: SavedLogs): seq<string> {
    if saved.Entries? then saved.entries else []
  }

  /** The logger: its file name, its entries, whether `init` has run, and the storage item. */
  class Logger {
    const filename: string
    var logs: seq<string>
    var isInitialized: bool
    /** The storage item `logger_<filename>`. */
    var store: SavedLogs

    /** `new Logger(filename)`, which runs `init` against the storage item `saved`. */
    constructor (filename: string, saved: SavedLogs, timestamp: string)
      ensures this.filename == filename && isInitialized
      ensures saved.Unreadable? ==> logs == [] && store == saved
      ensures !saved.Unreadable? ==>
                logs == Loaded(saved) + [Entry(timestamp, "INFO", "Logger initialized successfully")] &&
                store == Entries(logs)
    {
      this.filename := filename;
      logs := [];
      isInitialized := false;
      store := saved;
      new;
      Init(timestamp);
    }

    /**
     * `init`: load the stored entries (or none), mark the logger ready and log
     * one INFO line. When the stored text does not parse, the logger starts
     * empty and ready, without a line.
     */
    method Init(timestamp: string)
      modifies this
      ensures isInitialized
      ensures old(store).Unreadable? ==> logs == [] && store == old(store)
      ensures !old(store).Unreadable? ==>
                logs == Loaded(old(store)) + [Entry(timestamp, "INFO", "Logger initialized successfully")] &&
                store == Entries(logs)
    {
      if store.Unreadable? {
        logs := [];
        isInitialized := true;
      } else {
        logs := Loaded(store);
        isInitialized := true;
        Log("INFO", "Logger initialized successfully", timestamp);
      }
    }

    /** `log`: on a ready logger append one entry and store the list; otherwise do nothing. */
    method Log(level: string, message: string, timestamp: string)
      modifies this
      ensures isInitialized == old(isInitialized)
      ensures old(isInitialized) ==>
                logs == old(logs) + [Entry(timestamp, level, message)] && store == Entries(logs)
      ensures !old(isInitialized) ==> logs == old(logs) && store == old(store)
    {
      if !isInitialized {
        return;
      }
      logs := logs + [Entry(timestamp, level, message)];
      store := Entries(logs);
    }

    /** `info`: `log` at level INFO. */
    method Info(message: string, timestamp: string)
      modifies this
      ensures isInitialized == old(isInitialized)
      ensures old(isInitialized) ==>
                logs == old(logs) + [Entry(timestamp, "INFO", message)] && store == Entries(logs)
      ensures !old(isInitialized) ==> logs == old(logs) && store == old(store)
    {
      Log("INFO", message, timestamp);
    }

    /** `warn`: `log` at level WARN. */
    method Warn(message: string, timestamp: string)
      modifies this
      ensures isInitialized == old(isInitialized)
      ensures old(isInitialized) ==>
                logs == old(logs) + [Entry(timestamp, "WARN", message)] && store == Entries(logs)
      ensures !old(isInitialized) ==> logs == old(logs) && store == old(store)
    {
      Log("WARN", message, timestamp);
    }

    /** `error`: `log` at level ERROR. */
    method Error(message: string, timestamp: string)
      modifies this
      ensures isInitialized == old(isInitialized)
      ensures old(isInitialized) ==>
                logs == old(logs) + [Entry(timestamp, "ERROR", message)] && store == Entries(logs)
      ensures !old(isInitialized) ==> logs == old(logs) && store == old(store)
    {
      Log("ERROR", message, timestamp);
    }

    /** `debug`: `log` at level DEBUG. */
    method Debug(message: string, timestamp: string)
      modifies this
      ensures isInitialized == old(isInitialized)
      ensures old(isInitialized) ==>
                logs == old(logs) + [Entry(timestamp, "DEBUG", message)] && store == Entries(logs)
      ensures !old(isInitialized) ==> logs == old(logs) && store == old(store)
    {
      Log("DEBUG", message, timestamp);
    }

    /** `clearLogs`: drop every entry and the storage item, then log that the logs were cleared. */
    method ClearLogs(timestamp: string)
      modifies this
      ensures isInitialized == old(isInitialized)
      ensures old(isInitialized) ==>
                logs == [Entry(timestamp, "INFO", "Logs cleared")] && store == Entries(logs)
      ensures !old(isInitialized) ==> logs == [] && store == NoItem
    {
      logs := [];
      store := NoItem;
      Log("INFO", "Logs cleared", timestamp);
    }
  }
}
