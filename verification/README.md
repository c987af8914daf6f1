# Fancy logger registry, call-site cache and level gate

A Dafny model of Envoy's "fancy logger" and of the level-gated logging macros
beside it. The fancy logger maps a caller-chosen key (normally the source file
name, `FANCY_KEY`) to one shared, mutable spdlog logger record. Every
`FANCY_LOG` statement owns a static slot that starts empty, is resolved
through the registry on first use and is reused afterwards.

Modules, one file each:

- `levels.dfy` (`Levels`): spdlog's severities trace = 0 … off = 6 as a
  newtype, the gate "log iff message level ≥ logger level", and the initial
  level rule of a new record.
- `messages.dfy` (`Messages`): a message as a format string with `{}`
  placeholders plus its argument values. Also the `"[C{}] "` and
  `"[C{}][S{}] "` prefixes of the connection and stream macros. The same
  prefixes serve `FANCY_CONN_LOG`/`FANCY_STREAM_LOG` and
  `ENVOY_CONN_LOG_TO_LOGGER`/`ENVOY_STREAM_LOG_TO_LOGGER` (logger.h:345-357).
  Each prefix is proved to keep a message balanced (one argument per literal
  `{}` pair) exactly when the caller's message was. The count is of literal
  `{}` pairs only: fmt's `{{`/`}}` escapes and fields such as `{0}` or `{:x}`
  are not interpreted, so balance is not fmt's own arity check.
- `records.dfy` (`Records`): the spdlog logger record is a class. Its name is
  fixed; its level, pattern and the entries it has passed to the sink change
  in place. The shared delegating sink is a class holding its lock state.
  `ArgEffects` counts how often a statement's arguments were evaluated.
- `fancy_logger.dfy` (`Fancy`): `FancyContext` is a class. It holds the
  key-to-record `map`, the default level and format, and the sink. Its
  methods are `initSink`, `createLogger`, `initFancyLogger` and
  `setFancyLogger`, each lock-protected operation one atomic step. A
  `CallSite` is a `FANCY_LOG` statement with its key and its slot.
- `fancy_properties.dfy` (`FancyProperties`): properties over several
  operations. Lookups of one key converge. Sites in the same file share one
  record. A level change reaches sites that already resolved. One end-to-end
  scenario.
- `logger.dfy` (`StandardLogging`): `ENVOY_LOG_COMP_AND_LOG` with the
  evaluation of its arguments made observable. The registry of fixed named
  loggers (`ALL_LOGGER_IDS`) with `getLog` and `logger(name)`. The older
  `FANCY_LOG` of logger.h.

Modelling choices:

- The registry's invariants appear in method contracts. An operation only
  binds one key (`loggers == old(loggers)[key := …]`), and `Extends` says
  every key keeps its identical record, so nothing is removed or replaced.
  `Valid()` says each record is registered under its own name. So distinct
  keys hold distinct records, and changing one record's level changes no
  other.
- `Caches(slot, key)` holds when a slot is empty or holds the registry's
  record for its key. Every operation preserves it. A slot is never emptied
  again.
- `createLogger` inserts with `flat_hash_map::insert`, which does not
  overwrite: on a present key the map is unchanged and the record it returns
  is not in the registry. Its only caller, `initFancyLogger`, calls it only
  for an absent key.
- An unknown key in `setFancyLogger` returns `false` and creates nothing
  (fancy_logger.cc:74-82).
- `setFancyLogger` takes the registry lock as a reader, not as a writer; locks
  are not modelled.
- The sources have no operation that sets every record's level, and none that
  updates the records still at the default level when the default changes.
- `spdlog::logger::log` filters by the same gate as the macro, as the comment
  at logger.h:299-301 notes. `Records.Logger.Log` models that filter. So a
  `FANCY_LOG` below the record's level reaches no sink. Unlike
  `ENVOY_LOG_COMP_AND_LOG`, `FANCY_LOG` does not check the level before that
  call, so its arguments are evaluated even when the message is dropped;
  `ArgEffects` counts the evaluations for both.

## Model

| member | source | states |
|---|---|---|
| `Levels.InitialLevel` | source/common/common/fancy_logger.cc:51-54 | a new record's level is the explicit level exactly when that is above -1, otherwise the context default |
| `Levels.ShouldLog` | source/common/common/logger.h:297 | a message passes exactly when its spdlog level, as an integer, is at least the logger's current level; a logger at trace passes every level |
| `Levels.CheckLevelAtTraceAndInfo` | source/common/common/logger.h:310 | checking trace passes at logger level trace and fails at info; a logger at off stops every level below off |
| `Messages.ConnPrefixed` | source/common/common/fancy_logger.h:96-97 | the format gains the `"[C{}] "` prefix and the arguments gain the connection id in front; the result is balanced iff the caller's message was |
| `Messages.StreamPrefixed` | source/common/common/fancy_logger.h:102-104 | the format gains `"[C{}][S{}] "`; the arguments gain the connection id, or 0 without a connection, then the stream id; balance is kept both ways |
| `Records.Logger.Log` | source/common/common/logger.h:299-301 | the logger forwards the entry to its sink iff the gate holds, and its level and pattern stay as they were |
| `Fancy.FancyContext.constructor` | source/common/common/fancy_logger.cc:14-17 | the registry starts empty, with the given defaults and sink |
| `Fancy.FancyContext.InitSink` | source/common/common/fancy_logger.cc:35-43 | afterwards the sink has a lock; if it had one before, nothing changes; otherwise escaping is turned off |
| `Fancy.FancyContext.CreateLogger` | source/common/common/fancy_logger.cc:45-60 | returns a fresh record named by the key, with the explicit or default level and the default format; sets the sink up once; inserts it only if the key was absent, and on a present key the returned record is not registered |
| `Fancy.FancyContext.InitFancyLogger` | source/common/common/fancy_logger.cc:62-72 | the slot holds the registry's record for the key; an absent key gains exactly one fresh record built from the defaults; a present key leaves map and sink unchanged and yields its existing record; no key loses or changes its record |
| `Fancy.FancyContext.SetFancyLogger` | source/common/common/fancy_logger.cc:74-82 | returns true iff the key is present; the key-to-level listing changes only at that key, to the new level; otherwise nothing changes; patterns, output and membership are untouched |
| `Fancy.CallSite.constructor` | source/common/common/fancy_logger.h:83 | a call site starts with an empty slot |
| `Fancy.CallSite.FancyLog` | source/common/common/fancy_logger.h:81-91 | afterwards the slot holds the registry's record for the site's key; a resolved slot keeps its record and leaves the registry alone; the registry gains at most that key; the record logs the message iff the gate holds, but the arguments are evaluated once on every call, whatever the level; a found record keeps its level and pattern; a new record sets the sink up once; other records are unchanged |
| `FancyProperties.RepeatedInitConverges` | source/common/common/fancy_logger.cc:62-72 | two lookups of one key through any two slots give the same record, the registry gains at most one entry, and the sink is untouched when the key was present |
| `FancyProperties.SameKeySitesConverge` | source/common/common/fancy_logger.h:73-88 | two call sites in the same file end on the same record, the registry grows by at most one entry, and both statements evaluate their arguments |
| `FancyProperties.LevelChangeReachesResolvedSite` | source/common/common/fancy_logger.h:84-89 | after setting the level of a resolved site's key, the site keeps its record, which now carries the new level and gates the next message by it; that statement still evaluates its arguments once |
| `FancyProperties.EndToEnd` | source/common/common/fancy_logger.cc:62-82 | from an empty registry: log "hello" at info, set the file to err, log at info then at err. Only "hello" and "shown" are emitted, and the registry holds just that file |
| `FancyProperties.FancyEvaluatesDroppedParams` | source/common/common/fancy_logger.h:81-91 | a trace message with argument `i++` on a record at info is not emitted, yet `i` still ends at 2, since `FANCY_LOG` has no level check before the call |
| `FancyProperties.UnknownKeyIsNotCreated` | source/common/common/fancy_logger.cc:80-81 | setting the level of an unknown key reports not-found and adds no key |
| `StandardLogging.CompAndLog` | source/common/common/logger.h:297-308 | the arguments are evaluated exactly once and the message logged when the gate holds; otherwise nothing is evaluated or logged; the logger's level is unchanged |
| `StandardLogging.EvaluateParams` | test/common/common/log_macros_test.cc:48-59 | a warn message on an info logger evaluates `i++`, so `i` ends at 2 |
| `StandardLogging.DoNotEvaluateParams` | test/common/common/log_macros_test.cc:61-69 | an error message on a critical logger leaves `i` at 1 |
| `StandardLogging.Registry.constructor` | source/common/common/logger.h:28-79 | the fixed loggers are fresh, one per id in declaration order, each named by its id, with the given level and format and no output yet |
| `StandardLogging.Registry.GetLog` | source/common/common/logger.h:228-232 | the logger of an id is the registered one carrying that id's name |
| `StandardLogging.Registry.Logger` | source/common/common/logger.h:263 | null iff no fixed logger has the name; otherwise a registered logger with exactly that name |
| `StandardLogging.UpstreamByName` | test/common/common/log_macros_test.cc:124-127 | looking up "upstream" gives a logger named "upstream" |
| `StandardLogging.LegacyFancyLog` | source/common/common/logger.h:395-408 | on a miss it resolves the slot and logs through the freshly stored record; on a hit it logs through the cached record with the registry untouched; the same slot, registry, sink and record guarantees as `Fancy.CallSite.FancyLog`, including that no other record changes; the arguments are evaluated once on every call, with no level check first |

## Left out

- Concurrency and memory ordering are not modelled. This covers the registry mutex, the reader-versus-writer lock choice, the relaxed atomic loads and stores of a slot, and racing stores. Each locked operation is one atomic method step; two racing slot stores would store the same record.
- `getFancyLogEntry` and `FANCY_FLUSH_LOG` (fancy_logger.h:24, 109-110; logger.h:426-431) are left out: flushing is spdlog's, and the entry getter has no body here.
- `setDefaultFancyLevelFormat` and `listFancyLoggers` (fancy_logger.h:41, 47) are left out: they are declared without a body. So there is no set-all and no default-aware bulk update. `FancyContext.LevelsView` is the key-to-level listing used only in contracts.
- `Logger::Context`, `Registry::setLogLevel` and `Registry::setLogFormat` are left out: declared only. The context defaults are plain fields of `FancyContext`.
- spdlog internals are opaque: message rendering, pattern syntax, `flush_on(critical)`, sink delegates, the stderr sink and `escapeLogLine`. A pattern is a string copied from the defaults. `set_should_escape(false)` is recorded only as a sink flag.
- logger.cc is not part of this model, so the bodies of `Registry::logger` and `Registry::getLog` are not modelled from code. `Registry.Logger` is a linear search over the fixed loggers. `Registry.GetLog` indexes them by id.
- Fancy.FancyContext.CreateLogger: on a present key the source returns a raw pointer whose only owner is destroyed when the function returns, so the pointer dangles. The model returns a live record that is not in the registry and cannot express its destruction. No call reaches this path: the only caller checks that the key is absent first.
- StandardLogging.UpstreamByName: proves only the "upstream" half of log_macros_test.cc:124-127. The unknown-name half holds for every name through the contract of `Registry.Logger`; the instance "blah" is not proved separately.
- StandardLogging.LegacyFancyLog: resolves through `FancyContext.InitFancyLogger`. The body of the free function `initFancyLogger` it calls (logger.h:379) is not part of this model.
- The other free declarations of the older revision at logger.h:373-381 are left out. Examples are `setFancyLogger` returning void and `getSink`.
- The `Fancy.*` tests (log_macros_test.cc:150-193) are left out: they target another revision, with an epoch counter and a linked list. They also create a record for an unknown key, which the code does not do.
- The `Loggable` mixin, `ENVOY_LOGGER()`, `ENVOY_LOG_MISC` and the `do { } while (0)` statement shape are compile-time plumbing. The statement-shape test is log_macros_test.cc:71-97.
- Connection and stream ids are unbounded naturals here; the source uses 64-bit ids. Formatting never overflows them.
- Benchmarks (logger_perf_test.cc) and the pthread test (log_macros_test.cc:195-243) are left out.
