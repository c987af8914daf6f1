/**
 * The standard logging façade: the level-gated logging macro and when it
 * evaluates a statement's arguments, the registry of the fixed named loggers,
 * and the older FANCY_LOG call-site protocol.
 */
module StandardLogging {
  import opened Levels
  import opened Messages
  import Records
  import Fancy

  /** The names of the fixed loggers, in declaration order; a logger id is an index here. */
  const LoggerIds: seq<string> := [
    "admin", "aws", "assert", "backtrace", "cache_filter", "client", "config",
    "connection", "conn_handler", "decompression", "dubbo", "ext_authz", "rocketmq",
    "file", "filter", "forward_proxy", "grpc", "hc", "health_checker", "http", "http2",
    "hystrix", "init", "io", "jwt", "kafka", "lua", "main", "misc", "mongo", "quic",
    "quic_stream", "pool", "rbac", "redis", "router", "runtime", "stats", "secret",
    "tap", "testing", "thrift", "tracing", "upstream", "udp", "wasm"]

  /**
   * ENVOY_LOG_COMP_AND_LOG: the logger receives the message, and the arguments
   * are evaluated exactly once, when the level gate holds; otherwise nothing is
   * evaluated and nothing is logged.
   */
  method CompAndLog(logger: Records.Logger, lv: Level, m: Message, effects: Records.ArgEffects)
    modifies logger, effects
    ensures effects.evaluations ==
      old(effects.evaluations) + (if ShouldLog(lv, old(logger.level)) then 1 else 0)
    ensures logger.sent ==
      old(logger.sent) + (if ShouldLog(lv, old(logger.level)) then [Records.Entry(lv, m)] else [])
    ensures logger.level == old(logger.level) && logger.pattern == old(logger.pattern)
  {
    if ShouldLog(lv, logger.level) {
      effects.evaluations := effects.evaluations + 1;
      logger.Log(lv, m);
    }
  }

  /**
   * A warn message on a logger at info evaluates its argument `i++` once,
   * taking `i` from 1 to 2.
   */
  method EvaluateParams() returns (i: nat)
    ensures i == 2
  {
    var misc := new Records.Logger("misc", Info, "%v");
    var effects := new Records.ArgEffects();
    i := 1;
    CompAndLog(misc, Warn, Message("test message '{}'", [Num(i)]), effects);
    i := i + effects.evaluations;
  }

  /** An error message on a logger at critical leaves its argument `i++` unevaluated. */
  method DoNotEvaluateParams() returns (i: nat)
    ensures i == 1
  {
    var misc := new Records.Logger("misc", Critical, "%v");
    var effects := new Records.ArgEffects();
    i := 1;
    CompAndLog(misc, Err, Message("test message '{}'", [Num(i)]), effects);
    i := i + effects.evaluations;
  }

  /** The registry of the fixed named loggers, one per entry of LoggerIds. */
  class Registry {
    var loggers: seq<Records.Logger>

    ghost predicate Valid()
      reads this
    {
      && |loggers| == |LoggerIds|
      && forall i | 0 <= i < |loggers| :: loggers[i].name == LoggerIds[i]
    }

    constructor (level: Level, format: string)
      ensures Valid()
      ensures forall i | 0 <= i < |loggers| ::
        && fresh(loggers[i]) && loggers[i].level == level
        && loggers[i].pattern == format && loggers[i].sent == []
    {
      var all: seq<Records.Logger> := [];
      var i := 0;
      while i < |LoggerIds|
        invariant i <= |LoggerIds| && |all| == i
        invariant forall j | 0 <= j < i ::
          && all[j].name == LoggerIds[j] && fresh(all[j]) && all[j].level == level
          && all[j].pattern == format && all[j].sent == []
      {
        var l := new Records.Logger(LoggerIds[i], level, format);
        all := all + [l];
        i := i + 1;
      }
      loggers := all;
    }

    /** Registry::getLog: the logger of a fixed id. */
    method GetLog(id: nat) returns (r: Records.Logger)
      requires Valid() && id < |LoggerIds|
      ensures r.name == LoggerIds[id] && r in loggers
    {
      r := loggers[id];
    }

    /** Registry::logger: the logger with the given name, or null when no fixed logger has it. */
    method Logger(name: string) returns (r: Records.Logger?)
      requires Valid()
      ensures r == null <==> name !in LoggerIds
      ensures r != null ==> r.name == name && r in loggers
    {
      var i := 0;
      while i < |loggers| && loggers[i].name != name
        invariant i <= |loggers|
        invariant forall j | 0 <= j < i :: LoggerIds[j] != name
      {
        i := i + 1;
      }
      r := if i < |loggers| then loggers[i] else null;
    }
  }

  /** "upstream" finds the fixed logger named "upstream". */
  method UpstreamByName() returns (upstream: Records.Logger?)
    ensures upstream != null && upstream.name == "upstream"
  {
    var registry := new Registry(Info, "%v");
    assert LoggerIds[43] == "upstream";
    upstream := registry.Logger("upstream");
  }

  /**
   * The older FANCY_LOG: on an empty slot it resolves the slot through the
   * registry and logs through the freshly stored record; on a resolved slot it
   * logs through the cached record and leaves the registry alone. There is no
   * level check before the call to the record, so the arguments are evaluated
   * on every execution, whether or not the record then drops the message.
   */
  method LegacyFancyLog(ctx: Fancy.FancyContext, site: Fancy.CallSite, lv: Level, m: Message,
                        effects: Records.ArgEffects)
    requires ctx.Valid() && ctx.Caches(site.flogger, site.key)
    modifies ctx`loggers, ctx.sink, site.flogger, ctx.loggers.Values, effects
    ensures effects.evaluations == old(effects.evaluations) + 1
    ensures ctx.Valid() && ctx.Caches(site.flogger, site.key)
    ensures site.key in ctx.loggers && site.flogger.target == ctx.loggers[site.key]
    ensures ctx.loggers == old(ctx.loggers)[site.key := ctx.loggers[site.key]]
    ensures Fancy.Extends(old(ctx.loggers), ctx.loggers)
    ensures old(site.flogger.target) != null ==>
      site.flogger.target == old(site.flogger.target) && ctx.loggers == old(ctx.loggers)
    ensures site.key in old(ctx.loggers) ==>
      && site.flogger.target == old(ctx.loggers)[site.key]
      && site.flogger.target.level == old(ctx.loggers[site.key].level)
      && site.flogger.target.pattern == old(ctx.loggers[site.key].pattern)
      && unchanged(ctx.sink)
    ensures site.key !in old(ctx.loggers) ==>
      && fresh(site.flogger.target)
      && site.flogger.target.level == ctx.defaultLevel
      && site.flogger.target.pattern == ctx.defaultFormat
      && ctx.sink.hasLock
      && (old(ctx.sink.hasLock) ==> unchanged(ctx.sink))
      && (!old(ctx.sink.hasLock) ==> !ctx.sink.shouldEscape)
    ensures site.flogger.target.sent ==
      (if site.key in old(ctx.loggers) then old(ctx.loggers[site.key].sent) else [])
      + (if ShouldLog(lv, site.flogger.target.level) then [Records.Entry(lv, m)] else [])
    ensures forall k | k in old(ctx.loggers) && k != site.key :: unchanged(ctx.loggers[k])
  {
    var local := site.flogger.target;
    if local == null {
      ctx.InitFancyLogger(site.key, site.flogger);
      effects.evaluations := effects.evaluations + 1;
      site.flogger.target.Log(lv, m);
    } else {
      effects.evaluations := effects.evaluations + 1;
      local.Log(lv, m);
    }
  }
}
