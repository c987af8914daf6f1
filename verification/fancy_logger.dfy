/**
 * The fancy logger: a process-wide registry (FancyContext) from a caller-chosen
 * key, normally the source file name, to one shared, mutable logger record,
 * and the per-call-site slot that resolves that record once and then reuses it.
 * Every locked registry operation is one atomic method here.
 */
module Fancy {
  import opened Levels
  import opened Messages
  import opened Records

  /** `after` keeps every key of `before`, bound to the identical record. */
  ghost predicate Extends(before: map<string, Logger>, after: map<string, Logger>)
  {
    forall k | k in before :: k in after && after[k] == before[k]
  }

  /** A std::atomic<spdlog::logger*>: empty (null) or pointing at a record. */
  class Slot {
    var target: Logger?

    constructor ()
      ensures target == null
    {
      target := null;
    }
  }

  /**
   * The registry: the key-to-record map, the defaults a new record is built
   * from, and the shared sink.
   */
  class FancyContext {
    var loggers: map<string, Logger>
    var defaultLevel: Level
    var defaultFormat: string
    const sink: Sink

    /** Every record is registered under its own name, so distinct keys hold distinct records. */
    ghost predicate Valid()
      reads this
    {
      forall k | k in loggers :: loggers[k].name == k
    }

    /** The key-to-level listing of the registry. */
    ghost function LevelsView(): (view: map<string, Level>)
      reads this, loggers.Values
    {
      map k | k in loggers :: loggers[k].level
    }

    /** A slot used for `key` is either empty or holds the registry's record for `key`. */
    ghost predicate Caches(slot: Slot, key: string)
      reads this, slot
    {
      slot.target == null || (key in loggers && loggers[key] == slot.target)
    }

    constructor (sink: Sink, defaultLevel: Level, defaultFormat: string)
      ensures Valid() && loggers == map[]
      ensures this.sink == sink
      ensures this.defaultLevel == defaultLevel && this.defaultFormat == defaultFormat
    {
      loggers := map[];
      this.sink := sink;
      this.defaultLevel := defaultLevel;
      this.defaultFormat := defaultFormat;
    }

    /**
     * Installs the sink's lock, and turns escaping off, only when no lock is
     * present yet; a second call changes nothing.
     */
    method InitSink()
      modifies sink
      ensures sink.hasLock
      ensures old(sink.hasLock) ==> unchanged(sink)
      ensures !old(sink.hasLock) ==> !sink.shouldEscape
    {
      if !sink.hasLock {
        sink.hasLock := true;
        sink.shouldEscape := false;
      }
    }

    /**
     * Builds a record for `key` with the explicit `level` (when above -1) or
     * the default level, and the default format, sets the sink up once, and
     * inserts the record unless `key` is already present (map insert does not
     * overwrite). On a present key the record returned is owned by nobody:
     * it is not in the registry.
     */
    method CreateLogger(key: string, level: int) returns (r: Logger)
      requires Valid() && level < 7
      modifies this`loggers, sink
      ensures Valid()
      ensures fresh(r) && r.name == key && r.sent == []
      ensures r.level == InitialLevel(level, defaultLevel) && r.pattern == defaultFormat
      ensures loggers == if key in old(loggers) then old(loggers) else old(loggers)[key := r]
      ensures key in old(loggers) ==> r !in loggers.Values
      ensures sink.hasLock
      ensures old(sink.hasLock) ==> unchanged(sink)
      ensures !old(sink.hasLock) ==> !sink.shouldEscape
    {
      if !sink.hasLock {
        InitSink();
      }
      var lv := defaultLevel;
      if level > -1 {
        lv := level as Level;
      }
      r := new Logger(key, lv, defaultFormat);
      if key !in loggers {
        loggers := loggers[key := r];
      }
    }

    /**
     * Lookup-or-create under the lock, storing the result into `slot`: an
     * absent key gets exactly one new record built from the defaults; a present
     * key leaves the registry and the sink as they were.
     */
    method InitFancyLogger(key: string, slot: Slot)
      requires Valid()
      modifies this`loggers, sink, slot
      ensures Valid()
      ensures key in loggers && slot.target == loggers[key]
      ensures loggers == old(loggers)[key := loggers[key]]
      ensures Extends(old(loggers), loggers)
      ensures key in old(loggers) ==> slot.target == old(loggers)[key] && unchanged(sink)
      ensures key !in old(loggers) ==>
        && fresh(slot.target)
        && slot.target.level == defaultLevel && slot.target.pattern == defaultFormat
        && slot.target.sent == []
        && sink.hasLock
        && (old(sink.hasLock) ==> unchanged(sink))
        && (!old(sink.hasLock) ==> !sink.shouldEscape)
    {
      var target: Logger;
      if key !in loggers {
        target := CreateLogger(key, -1);
      } else {
        target := loggers[key];
      }
      slot.target := target;
    }

    /**
     * Sets the level of the record under `key`; reports false, and changes
     * nothing, when the key is unknown. No other record and no membership change.
     */
    method SetFancyLogger(key: string, lvl: Level) returns (found: bool)
      requires Valid()
      modifies loggers.Values
      ensures found <==> key in loggers
      ensures LevelsView() == if found then old(LevelsView())[key := lvl] else old(LevelsView())
      ensures forall k | k in loggers ::
        loggers[k].pattern == old(loggers[k].pattern) && loggers[k].sent == old(loggers[k].sent)
    {
      if key in loggers {
        var r := loggers[key];
        r.level := lvl;
        found := true;
      } else {
        found := false;
      }
    }
  }

  /** One FANCY_LOG statement: its key (FANCY_KEY, the file name) and its static slot. */
  class CallSite {
    const key: string
    const flogger: Slot

    constructor (key: string)
      ensures this.key == key && fresh(flogger) && flogger.target == null
    {
      this.key := key;
      flogger := new Slot();
    }

    /**
     * FANCY_LOG: on an empty slot, resolve it through the registry, then log
     * through the slot's record. A resolved slot is used as it is: the registry
     * and the sink are left alone and the slot keeps its record. No level check
     * precedes the call to the record, so the arguments are evaluated on every
     * execution, even when the record then drops the message.
     */
    method FancyLog(ctx: FancyContext, lv: Level, m: Message, effects: ArgEffects)
      requires ctx.Valid() && ctx.Caches(flogger, key)
      modifies ctx`loggers, ctx.sink, flogger, ctx.loggers.Values, effects
      ensures effects.evaluations == old(effects.evaluations) + 1
      ensures ctx.Valid() && ctx.Caches(flogger, key)
      ensures key in ctx.loggers && flogger.target == ctx.loggers[key]
      ensures ctx.loggers == old(ctx.loggers)[key := ctx.loggers[key]]
      ensures Extends(old(ctx.loggers), ctx.loggers)
      ensures old(flogger.target) != null ==>
        flogger.target == old(flogger.target) && ctx.loggers == old(ctx.loggers)
      ensures key in old(ctx.loggers) ==>
        && flogger.target == old(ctx.loggers)[key]
        && flogger.target.level == old(ctx.loggers[key].level)
        && flogger.target.pattern == old(ctx.loggers[key].pattern)
        && unchanged(ctx.sink)
      ensures key !in old(ctx.loggers) ==>
        && fresh(flogger.target)
        && flogger.target.level == ctx.defaultLevel
        && flogger.target.pattern == ctx.defaultFormat
        && ctx.sink.hasLock
        && (old(ctx.sink.hasLock) ==> unchanged(ctx.sink))
        && (!old(ctx.sink.hasLock) ==> !ctx.sink.shouldEscape)
      ensures flogger.target.sent ==
        (if key in old(ctx.loggers) then old(ctx.loggers[key].sent) else [])
        + (if ShouldLog(lv, flogger.target.level) then [Entry(lv, m)] else [])
      ensures forall k | k in old(ctx.loggers) && k != key :: unchanged(ctx.loggers[k])
    {
      var local := flogger.target;
      if local == null {
        ctx.InitFancyLogger(key, flogger);
        local := flogger.target;
      }
      effects.evaluations := effects.evaluations + 1;
      local.Log(lv, m);
    }
  }
}
