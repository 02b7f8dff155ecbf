/** The level filter of src/Utils/Logger.php.  Writing to the log file and to
    STDERR is replaced by a `written` field that records each emitted
    (level, message) pair. */
module Logger {

  const Levels: map<string, nat> := map["debug" := 0, "info" := 1, "warning" := 2, "error" := 3]

  /** A level's rank; unknown levels rank as "info". */
  function Rank(level: string): (r: nat)
    ensures r <= 3
    ensures level !in Levels ==> r == 1
  {
    if level in Levels then Levels[level] else 1
  }

  /** shouldLog: the message's rank is at least the configured rank, so a
      'debug' setting lets everything through and an 'error' message always
      passes. */
  predicate ShouldLog(configured: string, level: string): (r: bool)
    ensures configured == "debug" ==> r
    ensures level == "error" ==> r
  {
    Rank(level) >= Rank(configured)
  }

  /** The level order is debug < info < warning < error, and an unknown level
      behaves as "info" on either side. */
  lemma ShouldLogOrder(configured: string, level: string)
    ensures ShouldLog("debug", level)
    ensures ShouldLog(configured, "error")
    ensures level !in Levels ==> (ShouldLog(configured, level) <==> ShouldLog(configured, "info"))
    ensures configured !in Levels ==> (ShouldLog(configured, level) <==> ShouldLog("info", level))
    ensures ShouldLog("info", level) <==> level != "debug"
  {
  }

  class Logger {
    var enabled: bool
    var level: string
    /** What `log` has written, oldest first. */
    var written: seq<(string, string)>

    /** The constructor reads `logging.enabled` (default true) and
        `logging.level` (default "info"); the caller passes the values found. */
    constructor (enabledSetting: bool, levelSetting: string)
      ensures enabled == enabledSetting && level == levelSetting && written == []
    {
      enabled := enabledSetting;
      level := levelSetting;
      written := [];
    }

    /** log: a disabled logger or a message below the configured rank writes
        nothing; otherwise one entry is appended. */
    method Log(messageLevel: string, message: string)
      modifies this
      ensures enabled == old(enabled) && level == old(level)
      ensures written == old(written) +
        (if enabled && ShouldLog(level, messageLevel) then [(messageLevel, message)] else [])
    {
      if !enabled {
        return;
      }
      if !ShouldLog(level, messageLevel) {
        return;
      }
      written := written + [(messageLevel, message)];
    }

    /** debug, info, warning and error: `log` at their own level. */
    method Debug(message: string)
      modifies this
      ensures enabled == old(enabled) && level == old(level)
      ensures written == old(written) + (if enabled && level == "debug" then [("debug", message)] else [])
    {
      Log("debug", message);
    }

    method Info(message: string)
      modifies this
      ensures enabled == old(enabled) && level == old(level)
      ensures written == old(written) + (if enabled && Rank(level) <= 1 then [("info", message)] else [])
    {
      Log("info", message);
    }

    method Warning(message: string)
      modifies this
      ensures enabled == old(enabled) && level == old(level)
      ensures written == old(written) + (if enabled && level != "error" then [("warning", message)] else [])
    {
      Log("warning", message);
    }

    method Error(message: string)
      modifies this
      ensures enabled == old(enabled) && level == old(level)
      ensures written == old(written) + (if enabled then [("error", message)] else [])
    {
      Log("error", message);
    }
  }
}
