/** Loggers, their appenders, the registry, and the listener that reconciles them with the `logs` setting. */
module LogRegistry {
  import opened Common
  import PatternGrammar
  import LogFormatter

  datatype Sink = FileSink(path: string) | StdoutSink

  datatype AppenderDefine = AppenderDefine(sink: Sink, level: nat, formatter: string)

  /** `LogDefine` without its name. */
  datatype LogDefine = LogDefine(level: nat, formatter: string, appenders: seq<AppenderDefine>)

  /** `std::set<LogDefine>`, which is ordered by name: one definition a name. */
  type Defines = map<string, LogDefine>

  /** `LogDefine::operator==`; the appenders are compared with themselves. */
  predicate Same(a: LogDefine, b: LogDefine) {
    a.level == b.level && a.formatter == b.formatter && a.appenders == a.appenders
  }

  // ----- what can be seen of loggers -----

  datatype AppenderView = AppenderView(sink: Sink, level: nat, own: bool, formatter: Option<string>)

  datatype LoggerView = LoggerView(level: nat, formatter: string, appenders: seq<AppenderView>)

  const DEBUG: nat := 1
  const DEFAULT_PATTERN := PatternGrammar.DEFAULT_PATTERN

  const NEW_LOGGER := LoggerView(DEBUG, DEFAULT_PATTERN, [])
  const ROOT_LOGGER :=
    LoggerView(DEBUG, DEFAULT_PATTERN, [AppenderView(StdoutSink, DEBUG, false, Some(DEFAULT_PATTERN))])

  /** Every appender without a formatter of its own has the logger's. */
  ghost predicate Inherits(l: LoggerView) {
    forall i :: 0 <= i < |l.appenders| && !l.appenders[i].own ==> l.appenders[i].formatter == Some(l.formatter)
  }

  ghost predicate AllInherit(view: map<string, LoggerView>) {
    forall n :: n in view ==> Inherits(view[n])
  }

  /** The registry's logger of this name, or the one it would create. */
  function LoggerIn(view: map<string, LoggerView>, name: string): LoggerView {
    if name in view then view[name] else NEW_LOGGER
  }

  predicate Usable(pattern: string) { pattern != "" && PatternGrammar.Accepted(pattern) }

  /** An appender as defined, under a logger with this formatter. */
  function Expected(a: AppenderDefine, formatter: string): AppenderView {
    if Usable(a.formatter) then AppenderView(a.sink, a.level, true, Some(a.formatter))
    else AppenderView(a.sink, a.level, false, Some(formatter))
  }

  function ExpectedAll(defs: seq<AppenderDefine>, formatter: string): (r: seq<AppenderView>)
    ensures |r| == |defs| && forall i :: 0 <= i < |defs| ==> r[i] == Expected(defs[i], formatter)
  {
    if defs == [] then [] else [Expected(defs[0], formatter)] + ExpectedAll(defs[1..], formatter)
  }

  /** A logger after its definition was applied. */
  function Configured(l: LoggerView, d: LogDefine): LoggerView {
    var formatter := if Usable(d.formatter) then d.formatter else l.formatter;
    LoggerView(d.level, formatter, ExpectedAll(d.appenders, formatter))
  }

  /** A logger whose definition is gone lets every event pass and, without appenders, hands it to the root logger. */
  function Emptied(l: LoggerView): LoggerView { l.(level := 0, appenders := []) }

  /** Definitions the listener acts on: new ones, and those that differ from the old one. */
  predicate Changed(name: string, before: Defines, after: Defines) {
    name in after && !(name in before && Same(after[name], before[name]))
  }

  predicate Dropped(name: string, before: Defines, after: Defines) {
    name in before && name !in after
  }

  /** The first loop, done for the names in `done`. */
  function Applied(view: map<string, LoggerView>, before: Defines, after: Defines, done: set<string>)
      : map<string, LoggerView>
  {
    map n | n in view.Keys + (set m | m in done && Changed(m, before, after)) ::
      if n in done && Changed(n, before, after) then Configured(LoggerIn(view, n), after[n]) else view[n]
  }

  /** The second loop. */
  function Pruned(view: map<string, LoggerView>, before: Defines, after: Defines, done: set<string>)
      : map<string, LoggerView>
  {
    map n | n in view.Keys + (set m | m in done && Dropped(m, before, after)) ::
      if n in done && Dropped(n, before, after) then Emptied(LoggerIn(view, n)) else view[n]
  }

  function Reloaded(view: map<string, LoggerView>, before: Defines, after: Defines): map<string, LoggerView> {
    Pruned(Applied(view, before, after, after.Keys), before, after, before.Keys)
  }

  // ----- the objects -----

  class LogAppender {
    const sink: Sink
    var level: nat
    var formatter: Option<string>
    var hasFormatter: bool

    ghost function View(): AppenderView
      reads this
    {
      AppenderView(sink, level, hasFormatter, formatter)
    }

    constructor (sink: Sink)
      ensures View() == AppenderView(sink, DEBUG, false, None)
    {
      this.sink, level, formatter, hasFormatter := sink, DEBUG, None, false;
    }

    method SetFormatter(val: Option<string>)
      modifies this
      ensures View() == old(View()).(own := val.Some?, formatter := val)
    {
      formatter := val;
      hasFormatter := formatter.Some?;
    }
  }

  class Logger {
    const name: string
    var level: nat
    var formatter: string
    var appenders: seq<LogAppender>

    ghost function View(): LoggerView
      reads this, appenders
    {
      LoggerView(level, formatter,
                 seq(|appenders|, i requires 0 <= i < |appenders| reads this, appenders => appenders[i].View()))
    }

    constructor (name: string)
      ensures this.name == name && appenders == [] && View() == NEW_LOGGER
    {
      this.name, level, formatter, appenders := name, DEBUG, DEFAULT_PATTERN, [];
    }

    /** The new formatter also goes to the appenders that have none of their own. */
    method SetFormatter(val: string)
      modifies this`formatter, appenders
      ensures formatter == val && appenders == old(appenders)
      ensures forall a :: a in appenders ==> a.hasFormatter == old(a.hasFormatter) && a.level == old(a.level)
      ensures forall a :: a in appenders ==> a.formatter == if old(a.hasFormatter) then old(a.formatter) else Some(val)
      ensures Inherits(View())
    {
      formatter := val;
      for i := 0 to |appenders|
        invariant formatter == val && appenders == old(appenders)
        invariant forall a :: a in appenders ==> a.hasFormatter == old(a.hasFormatter) && a.level == old(a.level)
        invariant forall a :: a in appenders[..i] ==>
                    a.formatter == if old(a.hasFormatter) then old(a.formatter) else Some(val)
        invariant forall a :: a in appenders && a !in appenders[..i] ==> a.formatter == old(a.formatter)
      {
        if !appenders[i].hasFormatter {
          appenders[i].formatter := Some(formatter);
        }
        assert appenders[..i + 1] == appenders[..i] + [appenders[i]];
      }
      assert appenders[..|appenders|] == appenders;
    }

    /** Takes a pattern; one with an error is refused and changes nothing. */
    method SetPattern(val: string)
      modifies this`formatter, appenders
      ensures appenders == old(appenders)
      ensures !PatternGrammar.Accepted(val) ==> View() == old(View())
      ensures PatternGrammar.Accepted(val) ==> formatter == val && Inherits(View())
      ensures forall a :: a in appenders ==> a.hasFormatter == old(a.hasFormatter) && a.level == old(a.level)
      ensures PatternGrammar.Accepted(val) ==>
                forall a :: a in appenders ==> a.formatter == if old(a.hasFormatter) then old(a.formatter) else Some(val)
    {
      var f := new LogFormatter.Formatter(val);
      if f.error {
        return;
      }
      SetFormatter(val);
    }

    method AddAppender(a: LogAppender)
      modifies this`appenders, a`formatter
      ensures appenders == old(appenders) + [a]
      ensures a.View() == if old(a.formatter).None? then old(a.View()).(formatter := Some(formatter)) else old(a.View())
    {
      if a.formatter.None? {
        a.formatter := Some(formatter);
      }
      appenders := appenders + [a];
    }

    method SetLevel(val: nat)
      modifies this`level
      ensures level == val && View() == old(View()).(level := val)
    {
      level := val;
    }

    method ClearAppenders()
      modifies this`appenders
      ensures appenders == [] && View() == old(View()).(appenders := [])
    {
      appenders := [];
    }

    /** Appenders as defined, one object each, in order. */
    method AddDefined(defs: seq<AppenderDefine>)
      requires appenders == []
      modifies this`appenders
      ensures fresh(set a | a in appenders)
      ensures View() == old(View()).(appenders := ExpectedAll(defs, formatter))
    {
      for i := 0 to |defs|
        invariant |appenders| == i && fresh(set a | a in appenders)
        invariant forall k :: 0 <= k < i ==> appenders[k].View() == Expected(defs[k], formatter)
      {
        var ap := MakeAppender(defs[i]);
        AddAppender(ap);
      }
    }

    /** The listener's work on one logger: level, formatter, then all appenders anew. */
    method Configure(d: LogDefine)
      modifies this, appenders
      ensures View() == Configured(old(View()), d)
      ensures fresh(set a | a in appenders)
    {
      SetLevel(d.level);
      if d.formatter != "" {
        SetPattern(d.formatter);
      }
      ClearAppenders();
      AddDefined(d.appenders);
    }
  }

  /** The appender object of a definition, before a logger takes it. */
  method MakeAppender(d: AppenderDefine) returns (ap: LogAppender)
    ensures fresh(ap) && ap.View() == Made(d)
  {
    ap := new LogAppender(d.sink);
    ap.level := d.level;
    if d.formatter != "" {
      var fmt := new LogFormatter.Formatter(d.formatter);
      if !fmt.error {
        ap.SetFormatter(Some(d.formatter));
      }
    }
  }

  function Made(d: AppenderDefine): AppenderView {
    if Usable(d.formatter) then AppenderView(d.sink, d.level, true, Some(d.formatter))
    else AppenderView(d.sink, d.level, false, None)
  }

  class LoggerManager {
    var loggers: map<string, Logger>

    /** The root logger alone, writing to the console. */
    constructor ()
      ensures Valid()
      ensures View() == map["root" := ROOT_LOGGER] && AllInherit(View())
    {
      var root := new Logger("root");
      var out := new LogAppender(StdoutSink);
      root.AddAppender(out);
      loggers := map["root" := root];
      new;
      assert loggers["root"].View() == ROOT_LOGGER;
    }

    ghost function Appenders(): set<LogAppender>
      reads this, loggers.Values
    {
      set n, a | n in loggers && a in loggers[n].appenders :: a
    }

    /** Names match, and no appender is shared between two loggers. */
    ghost predicate Valid()
      reads this, loggers.Values
    {
      && (forall n :: n in loggers ==> loggers[n].name == n)
      && (forall m, n, a :: m in loggers && n in loggers && m != n && a in loggers[m].appenders ==>
            a !in loggers[n].appenders)
    }

    ghost function View(): map<string, LoggerView>
      reads this, loggers.Values, Appenders()
    {
      map n | n in loggers :: ViewOf(n)
    }

    ghost function ViewOf(n: string): LoggerView
      requires n in loggers
      reads this, loggers.Values, Appenders()
    {
      var l := loggers[n];
      assert forall a :: a in l.appenders ==> a in Appenders();
      l.View()
    }

    /** Loggers and appenders are the old ones or new objects. */
    twostate predicate Grown()
      reads this, loggers.Values
    {
      fresh(loggers.Values - old(loggers.Values)) && fresh(Appenders() - old(Appenders()))
    }

    lemma Apart(name: string)
      requires Valid() && name in loggers
      ensures forall n :: n in loggers && n != name ==> loggers[n] != loggers[name]
      ensures forall n, a :: n in loggers && n != name && a in loggers[n].appenders ==> a !in loggers[name].appenders
    {
    }

    lemma ViewIs(name: string)
      requires name in loggers
      ensures name in View() && View()[name] == ViewOf(name) == loggers[name].View()
      ensures View().Keys == loggers.Keys
    {
    }

    twostate lemma OneApart(name: string)
      requires old(Valid()) && loggers == old(loggers) && name in loggers
      requires forall n :: n in loggers && n != name ==> loggers[n].appenders == old(loggers[n].appenders)
      requires fresh((set a | a in loggers[name].appenders) - old(set a | a in loggers[name].appenders))
      ensures Valid() && Grown()
    {
      forall n, a | n in loggers && n != name && a in loggers[name].appenders ensures a !in loggers[n].appenders {
        var mine := set b | b in loggers[name].appenders;
        assert a in mine;
      }
      forall a | a in Appenders() && a !in old(Appenders()) ensures fresh(a) {
        var n :| n in loggers && a in loggers[n].appenders;
        var mine := set b | b in loggers[name].appenders;
        assert n == name && a in mine;
      }
    }

    /** Work on one logger and its own appenders leaves the others as they were. */
    twostate lemma OnlyOne(name: string)
      requires loggers == old(loggers) && name in loggers
      requires forall n :: n in loggers && n != name ==> unchanged(loggers[n])
      requires forall n, a :: n in loggers && n != name && a in old(loggers[n].appenders) ==> unchanged(a)
      ensures View() == old(View())[name := ViewOf(name)]
    {
      forall n | n in loggers && n != name ensures ViewOf(n) == old(ViewOf(n)) {
        var l := loggers[n];
        forall i | 0 <= i < |l.appenders| ensures l.appenders[i].View() == old(l.appenders[i].View()) {
          assert l.appenders[i] in old(l.appenders);
        }
      }
    }

    /** A new logger joins the registry. */
    twostate lemma OneMore(name: string, new l: Logger)
      requires old(Valid()) && name !in old(loggers) && loggers == old(loggers)[name := l]
      requires fresh(l) && l.name == name && l.appenders == [] && l.View() == NEW_LOGGER
      requires forall n :: n in old(loggers) ==> unchanged(old(loggers[n]))
      requires forall n, a :: n in old(loggers) && a in old(loggers[n].appenders) ==> unchanged(a)
      ensures Valid() && Grown() && View() == old(View())[name := NEW_LOGGER]
    {
      forall n | n in old(loggers) ensures ViewOf(n) == old(ViewOf(n)) {
        var k := loggers[n];
        forall i | 0 <= i < |k.appenders| ensures k.appenders[i].View() == old(k.appenders[i].View()) {
          assert k == old(loggers[n]) && k.appenders[i] in old(loggers[n].appenders);
        }
      }
    }

    lemma ViewKeys()
      ensures View().Keys == loggers.Keys
    {
    }

    lemma Listed(name: string)
      requires name in loggers
      ensures forall a :: a in loggers[name].appenders ==> a in Appenders()
    {
    }

    /** Finds the logger, or creates it with the defaults. */
    method GetLogger(name: string) returns (logger: Logger)
      requires Valid()
      modifies this
      ensures Valid() && Grown()
      ensures name in loggers && logger == loggers[name]
      ensures name in old(loggers) ==> loggers == old(loggers)
      ensures name !in old(loggers) ==> logger.appenders == []
      ensures logger in old(loggers.Values) || fresh(logger)
      ensures forall a :: a in logger.appenders ==> a in old(Appenders())
      ensures View() == old(View())[name := LoggerIn(old(View()), name)]
      ensures name !in old(loggers) ==>
                logger.level == 1 && logger.formatter == DEFAULT_PATTERN && logger.View().appenders == []
      ensures AllInherit(old(View())) ==> AllInherit(View())
    {
      hide Valid, View, ViewOf;
      ViewKeys();
      if name in loggers {
        logger := loggers[name];
        Listed(name);
        ViewIs(name);
        return;
      }
      logger := new Logger(name);
      loggers := loggers[name := logger];
      OneMore(name, logger);
    }

    /** The listener's work on a registered logger. */
    method ConfigureAt(name: string, d: LogDefine)
      requires Valid() && name in loggers
      modifies loggers[name], loggers[name].appenders
      ensures Valid() && Grown()
      ensures View() == old(View())[name := Configured(old(View())[name], d)]
    {
      hide Valid, View, ViewOf, Configured;
      ViewIs(name);
      Apart(name);
      loggers[name].Configure(d);
      forall n, a | n in loggers && n != name && a in old(loggers[n].appenders) ensures unchanged(a) {
        assert a !in old(loggers[name].appenders);
      }
      OneApart(name);
      OnlyOne(name);
      ViewIs(name);
    }

    method EmptyAt(name: string)
      requires Valid() && name in loggers
      modifies loggers[name]
      ensures Valid() && Grown()
      ensures View() == old(View())[name := Emptied(old(View())[name])]
    {
      hide Valid, View, ViewOf;
      ViewIs(name);
      Apart(name);
      loggers[name].SetLevel(0);
      loggers[name].ClearAppenders();
      OneApart(name);
      OnlyOne(name);
      ViewIs(name);
    }

    method ConfigureLogger(name: string, d: LogDefine)
      requires Valid()
      modifies this, loggers.Values, Appenders()
      ensures Valid() && Grown()
      ensures View() == old(View())[name := Configured(LoggerIn(old(View()), name), d)]
    {
      hide Valid, View, Configured, LoggerIn;
      var logger := GetLogger(name);
      ConfigureAt(name, d);
    }

    method EmptyLogger(name: string)
      requires Valid()
      modifies this, loggers.Values, Appenders()
      ensures Valid() && Grown()
      ensures View() == old(View())[name := Emptied(LoggerIn(old(View()), name))]
    {
      hide Valid, View, Emptied, LoggerIn;
      var logger := GetLogger(name);
      EmptyAt(name);
    }

    /** The change listener of the `logs` setting; the order of the names does not matter. */
    method OnChange(before: Defines, after: Defines)
      requires Valid()
      modifies this, loggers.Values, Appenders()
      ensures Valid() && Grown()
      ensures View() == Reloaded(old(View()), before, after)
      ensures AllInherit(old(View())) ==> AllInherit(View())
    {
      hide Configured, Emptied, Same, Valid, View, Applied, Pruned, LoggerIn;
      ghost var start := View();
      var todo := after.Keys;
      AppliedNone(start, before, after);
      while todo != {}
        invariant todo <= after.Keys && Valid() && Grown()
        invariant View() == Applied(start, before, after, after.Keys - todo)
      {
        var n :| n in todo;
        AppliedOne(start, before, after, after.Keys - todo, n);
        assert after.Keys - (todo - {n}) == after.Keys - todo + {n};
        todo := todo - {n};
        if n !in before || !Same(after[n], before[n]) {
          ConfigureLogger(n, after[n]);
        }
      }
      assert after.Keys - {} == after.Keys;
      ghost var middle := View();
      todo := before.Keys;
      PrunedNone(middle, before, after);
      while todo != {}
        invariant todo <= before.Keys && Valid() && Grown()
        invariant View() == Pruned(middle, before, after, before.Keys - todo)
      {
        var n :| n in todo;
        PrunedOne(middle, before, after, before.Keys - todo, n);
        assert before.Keys - (todo - {n}) == before.Keys - todo + {n};
        todo := todo - {n};
        if n !in after {
          EmptyLogger(n);
        }
      }
      assert before.Keys - {} == before.Keys;
      if AllInherit(start) { ReloadInherits(start, before, after); }
    }
  }

  /** Reloading keeps it that appenders without a formatter of their own have their logger's. */
  lemma ReloadInherits(view: map<string, LoggerView>, before: Defines, after: Defines)
    requires AllInherit(view)
    ensures AllInherit(Reloaded(view, before, after))
  {
    hide Same;
    var middle := Applied(view, before, after, after.Keys);
    forall n | n in middle ensures Inherits(middle[n]) {
      if Changed(n, before, after) { ConfiguredInherits(LoggerIn(view, n), after[n]); }
    }
    hide Applied, Configured;
    var r := Pruned(middle, before, after, before.Keys);
    forall n | n in r ensures Inherits(r[n]) {
    }
  }

  lemma ConfiguredInherits(l: LoggerView, d: LogDefine)
    ensures Inherits(Configured(l, d))
  {
    hide Usable;
  }

  lemma AppliedNone(view: map<string, LoggerView>, before: Defines, after: Defines)
    ensures Applied(view, before, after, after.Keys - after.Keys) == view
  {
    hide Configured;
  }

  lemma PrunedNone(view: map<string, LoggerView>, before: Defines, after: Defines)
    ensures Pruned(view, before, after, before.Keys - before.Keys) == view
  {
  }

  lemma AppliedOne(view: map<string, LoggerView>, before: Defines, after: Defines, done: set<string>, n: string)
    requires n !in done && n in after
    ensures var was := Applied(view, before, after, done);
            Applied(view, before, after, done + {n}) ==
            if n !in before || !Same(after[n], before[n]) then
              was[n := Configured(LoggerIn(was, n), after[n])]
            else was
  {
    hide Configured, Same;
  }

  lemma PrunedOne(view: map<string, LoggerView>, before: Defines, after: Defines, done: set<string>, n: string)
    requires n !in done && n in before
    ensures var was := Pruned(view, before, after, done);
            Pruned(view, before, after, done + {n}) ==
            if n !in after then was[n := Emptied(LoggerIn(was, n))] else was
  {
    hide Emptied;
  }
}
