/**
 * spdlog's ordered severity enumeration (spdlog::level::level_enum) and the
 * level gate shared by Envoy's logging macros and by spdlog::logger itself.
 */
module Levels {

  /** A severity: trace = 0, debug = 1, info = 2, warn = 3, err = 4, critical = 5, off = 6. */
  newtype Level = x: int | 0 <= x < 7

  const Trace: Level := 0
  const Debug: Level := 1
  const Info: Level := 2
  const Warn: Level := 3
  const Err: Level := 4
  const Critical: Level := 5
  const Off: Level := 6

  /**
   * The level gate: a message at `msg` passes a logger whose current level is
   * `current` exactly when it is at least as severe.
   */
  predicate ShouldLog(msg: Level, current: Level)
    ensures ShouldLog(msg, current) <==> msg as int >= current as int
    ensures current == Trace ==> ShouldLog(msg, current)
  {
    msg >= current
  }

  /**
   * The level a freshly created fancy logger starts with: an explicit level
   * (any value above -1, cast to the enumeration) wins, otherwise the context
   * default is used.
   */
  function InitialLevel(explicit: int, default: Level): (lv: Level)
    requires explicit < 7
    ensures explicit > -1 <==> lv as int == explicit
    ensures explicit <= -1 ==> lv == default
  {
    if explicit > -1 then explicit as Level else default
  }

  /**
   * A logger at trace lets a trace check through; one at info stops it; a
   * logger at off stops everything below off.
   */
  lemma CheckLevelAtTraceAndInfo()
    ensures ShouldLog(Trace, Trace)
    ensures !ShouldLog(Trace, Info)
    ensures forall msg: Level :: msg < Off ==> !ShouldLog(msg, Off)
  {
  }
}
