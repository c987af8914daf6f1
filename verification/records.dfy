/**
 * The shared objects the fancy logger hands out: an spdlog logger record (its
 * name, its mutable level and pattern, and what it has passed on to the sink),
 * the process-wide delegating sink whose lock is installed once, and a counter
 * of how often a log statement's arguments were evaluated.
 */
module Records {
  import opened Levels
  import opened Messages

  /** A message together with the severity it was logged at. */
  datatype Entry = Entry(level: Level, message: Message)

  /**
   * One spdlog logger. Its identity never changes once created; only `level`,
   * `pattern` and `sent` (the entries forwarded to the sink) change in place.
   */
  class Logger {
    const name: string
    var level: Level
    var pattern: string
    var sent: seq<Entry>

    constructor (name: string, level: Level, pattern: string)
      ensures this.name == name && this.level == level && this.pattern == pattern
      ensures sent == []
    {
      this.name := name;
      this.level := level;
      this.pattern := pattern;
      sent := [];
    }

    /**
     * spdlog::logger::log: the entry reaches the sink only when its level
     * passes the logger's current level; the logger's settings do not change.
     */
    method Log(lv: Level, m: Message)
      modifies this
      ensures sent == old(sent) + (if ShouldLog(lv, level) then [Entry(lv, m)] else [])
      ensures level == old(level) && pattern == old(pattern)
    {
      if ShouldLog(lv, level) {
        sent := sent + [Entry(lv, m)];
      }
    }
  }

  /**
   * The side effects of evaluating a log statement's argument expressions,
   * counted: each evaluation of the argument list adds one.
   */
  class ArgEffects {
    var evaluations: nat

    constructor ()
      ensures evaluations == 0
    {
      evaluations := 0;
    }
  }

  /**
   * The delegating sink shared by every logger: whether a lock has been
   * established on it and whether it escapes control characters.
   */
  class Sink {
    var hasLock: bool
    var shouldEscape: bool

    constructor (hasLock: bool, shouldEscape: bool)
      ensures this.hasLock == hasLock && this.shouldEscape == shouldEscape
    {
      this.hasLock := hasLock;
      this.shouldEscape := shouldEscape;
    }
  }
}
