/**
 * Properties of the fancy logger that span several registry operations or
 * several call sites: convergence on one record per key, stability of a
 * resolved slot, and level changes reaching sites that already resolved.
 */
module FancyProperties {
  import opened Levels
  import opened Messages
  import opened Records
  import opened Fancy

  /**
   * Two lookups of one key, through any two slots, yield the same record; the
   * registry gains at most the one key, and the sink is untouched when the key
   * was already present.
   */
  method RepeatedInitConverges(ctx: FancyContext, key: string, s1: Slot, s2: Slot)
    requires ctx.Valid()
    modifies ctx`loggers, ctx.sink, s1, s2
    ensures ctx.Valid()
    ensures key in ctx.loggers && s1.target == s2.target == ctx.loggers[key]
    ensures ctx.loggers == old(ctx.loggers)[key := s1.target]
    ensures |ctx.loggers| <= |old(ctx.loggers)| + 1
    ensures key in old(ctx.loggers) ==> unchanged(ctx.sink)
  {
    ctx.InitFancyLogger(key, s1);
    ghost var afterFirst := ctx.loggers;
    ctx.InitFancyLogger(key, s2);
    assert ctx.loggers == afterFirst;
    UpdateGrowsByAtMostOne(old(ctx.loggers), key, s1.target);
  }

  /**
   * Two FANCY_LOG statements in the same file converge on one record, whichever
   * runs first, and the registry grows by at most that key.
   */
  method SameKeySitesConverge(ctx: FancyContext, a: CallSite, b: CallSite, lv: Level, m: Message,
                              effects: ArgEffects)
    requires ctx.Valid() && a.key == b.key && a.flogger != b.flogger
    requires ctx.Caches(a.flogger, a.key) && ctx.Caches(b.flogger, b.key)
    modifies ctx`loggers, ctx.sink, a.flogger, b.flogger, ctx.loggers.Values, effects
    ensures ctx.Valid()
    ensures a.flogger.target != null && a.flogger.target == b.flogger.target
    ensures a.key in ctx.loggers && a.flogger.target == ctx.loggers[a.key]
    ensures ctx.loggers == old(ctx.loggers)[a.key := a.flogger.target]
    ensures |ctx.loggers| <= |old(ctx.loggers)| + 1
    ensures effects.evaluations == old(effects.evaluations) + 2
  {
    a.FancyLog(ctx, lv, m, effects);
    assert ctx.Caches(b.flogger, b.key);
    ghost var afterA := ctx.loggers;
    b.FancyLog(ctx, lv, m, effects);
    assert ctx.loggers == afterA;
    UpdateGrowsByAtMostOne(old(ctx.loggers), a.key, a.flogger.target);
  }

  /** Binding one key grows a registry by at most one entry. */
  lemma UpdateGrowsByAtMostOne(before: map<string, Logger>, key: string, r: Logger)
    ensures |before[key := r]| <= |before| + 1
  {
  }

  /**
   * A slot caches the record, not its level: after the level of a resolved
   * site's key is set, the site's next statement is gated by the new level
   * without resolving again.
   */
  method LevelChangeReachesResolvedSite(ctx: FancyContext, site: CallSite, lvl: Level, lv: Level, m: Message,
                                        effects: ArgEffects)
    returns (found: bool)
    requires ctx.Valid() && site.flogger.target != null && ctx.Caches(site.flogger, site.key)
    modifies ctx`loggers, ctx.sink, site.flogger, ctx.loggers.Values, effects
    ensures found && ctx.Valid() && ctx.Caches(site.flogger, site.key)
    ensures site.flogger.target == old(site.flogger.target) && ctx.loggers == old(ctx.loggers)
    ensures site.flogger.target.level == lvl
    ensures effects.evaluations == old(effects.evaluations) + 1
    ensures site.flogger.target.sent ==
      old(site.flogger.target.sent) + (if ShouldLog(lv, lvl) then [Entry(lv, m)] else [])
  {
    found := ctx.SetFancyLogger(site.key, lvl);
    assert ctx.LevelsView()[site.key] == lvl;
    site.FancyLog(ctx, lv, m, effects);
  }

  /**
   * From an empty registry with default level info: one file logs "hello" at
   * info, its level is raised to err, an info message is then suppressed and
   * an err message shown. The registry holds exactly that one file.
   */
  method EndToEnd() returns (shown: seq<Entry>, registered: set<string>, found: bool)
    ensures registered == {"f.cc"} && found
    ensures shown == [Entry(Info, Message("hello", [])), Entry(Err, Message("shown", []))]
  {
    var sink := new Sink(false, true);
    var ctx := new FancyContext(sink, Info, "%v");
    var site := new CallSite("f.cc");
    var effects := new ArgEffects();
    site.FancyLog(ctx, Info, Message("hello", []), effects);
    var record := site.flogger.target;
    found := LevelChangeReachesResolvedSite(ctx, site, Err, Info, Message("suppressed", []), effects);
    site.FancyLog(ctx, Err, Message("shown", []), effects);
    shown := record.sent;
    registered := ctx.loggers.Keys;
  }

  /**
   * FANCY_LOG does not check the level before calling the record: a trace
   * message with argument `i++` on a record at info is dropped, yet `i` still
   * goes from 1 to 2.
   */
  method FancyEvaluatesDroppedParams() returns (i: nat, shown: seq<Entry>)
    ensures i == 2 && shown == []
  {
    var sink := new Sink(false, true);
    var ctx := new FancyContext(sink, Info, "%v");
    var site := new CallSite("f.cc");
    var effects := new ArgEffects();
    i := 1;
    site.FancyLog(ctx, Trace, Message("test message '{}'", [Num(i)]), effects);
    i := i + effects.evaluations;
    shown := site.flogger.target.sent;
  }

  /** Setting the level of a key nobody has logged under reports not-found and creates nothing. */
  method UnknownKeyIsNotCreated() returns (found: bool, registered: set<string>)
    ensures !found && registered == {"a.cc"}
  {
    var sink := new Sink(false, true);
    var ctx := new FancyContext(sink, Info, "%v");
    var slot := new Slot();
    ctx.InitFancyLogger("a.cc", slot);
    found := ctx.SetFancyLogger("missing", Info);
    registered := ctx.loggers.Keys;
  }
}
