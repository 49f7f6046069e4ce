/** When a change of the `logs` setting leaves the loggers as the new definitions say. */
module LogReload {
  import opened Common
  import opened LogRegistry
  import P = PatternGrammar
  import CV = ConfigVariable
  import CT = ConfigTree
  import CR = ConfigRegistry

  type Registry = map<string, LoggerView>

  /** The logger is as its definition says; a definition without a usable formatter leaves that open. */
  ghost predicate Meets(l: LoggerView, d: LogDefine) {
    && l.level == d.level
    && (Usable(d.formatter) ==> l.formatter == d.formatter)
    && l.appenders == ExpectedAll(d.appenders, l.formatter)
  }

  ghost predicate Agree(view: Registry, defs: Defines) {
    forall n :: n in defs ==> n in view && Meets(view[n], defs[n])
  }

  // ----- appenders as a logger shows them -----

  /** What of a definition shows, whatever the logger's formatter is. */
  function Shown(a: AppenderDefine): (Sink, nat, Option<string>) {
    (a.sink, a.level, if Usable(a.formatter) then Some(a.formatter) else None)
  }

  ghost predicate ShownAlike(a: seq<AppenderDefine>, b: seq<AppenderDefine>) {
    |a| == |b| && forall i :: 0 <= i < |a| ==> Shown(a[i]) == Shown(b[i])
  }

  lemma ExpectedAlike(a: seq<AppenderDefine>, b: seq<AppenderDefine>, formatter: string)
    ensures ExpectedAll(a, formatter) == ExpectedAll(b, formatter) <==> ShownAlike(a, b)
  {
    hide Usable;
    var x, y := ExpectedAll(a, formatter), ExpectedAll(b, formatter);
    if ShownAlike(a, b) {
      forall i | 0 <= i < |x| ensures x[i] == y[i] {
        assert Shown(a[i]) == Shown(b[i]);
      }
    }
    if x == y {
      forall i | 0 <= i < |a| ensures Shown(a[i]) == Shown(b[i]) {
        assert x[i] == y[i] && x[i] == Expected(a[i], formatter) && y[i] == Expected(b[i], formatter);
      }
    }
  }

  // ----- one reload -----

  /** A definition kept with its level and formatter but with other appenders: the listener passes it by. */
  ghost predicate Hides(before: Defines, after: Defines, n: string) {
    n in before && n in after && Same(after[n], before[n]) && !ShownAlike(after[n].appenders, before[n].appenders)
  }

  lemma ReloadedAt(view: Registry, before: Defines, after: Defines, n: string)
    ensures var r := Reloaded(view, before, after);
            && (n in r <==> n in view || Changed(n, before, after) || Dropped(n, before, after))
            && (Changed(n, before, after) ==> r[n] == Configured(LoggerIn(view, n), after[n]))
            && (Dropped(n, before, after) ==> r[n] == Emptied(LoggerIn(view, n)))
            && (n in view && !Changed(n, before, after) && !Dropped(n, before, after) ==> r[n] == view[n])
  {
    hide Configured, Same, Emptied;
  }

  /**
   What a reload makes of a new definition, or of one with another level or
   formatter: the logger has its level, its formatter if that is a pattern
   without errors and else the one it had, and one appender for each defined one,
   in order: same sink and level, its own formatter if that is a pattern without
   errors and else the logger's.
   */
  lemma ReloadedLogger(view: Registry, before: Defines, after: Defines, n: string)
    requires n in after
    requires n !in before || before[n].level != after[n].level || before[n].formatter != after[n].formatter
    ensures n in Reloaded(view, before, after)
    ensures var l, d := Reloaded(view, before, after)[n], after[n];
            && l.level == d.level && |l.appenders| == |d.appenders|
            && l.formatter == (if d.formatter != "" && P.Accepted(d.formatter) then d.formatter
                               else if n in view then view[n].formatter else P.DEFAULT_PATTERN)
            && forall i :: 0 <= i < |d.appenders| ==>
                 var a, def := l.appenders[i], d.appenders[i];
                 && a.sink == def.sink && a.level == def.level
                 && (a.own <==> def.formatter != "" && P.Accepted(def.formatter))
                 && a.formatter == Some(if a.own then def.formatter else l.formatter)
  {
    hide P.Accepted;
    ReloadedAt(view, before, after, n);
  }

  /** A definition kept with its level and formatter leaves its logger alone. */
  lemma ReloadedKept(view: Registry, before: Defines, after: Defines, n: string)
    requires n in after && n in before && before[n].level == after[n].level && before[n].formatter == after[n].formatter
    ensures n in Reloaded(view, before, after) <==> n in view
    ensures n in view ==> Reloaded(view, before, after)[n] == view[n]
  {
    ReloadedAt(view, before, after, n);
  }

  lemma ConfiguredMeets(l: LoggerView, d: LogDefine)
    ensures Meets(Configured(l, d), d)
  {
  }

  /** From agreement with the old set, a reload agrees with the new one exactly when it passes no changed appenders by. */
  lemma ReloadAgrees(view: Registry, before: Defines, after: Defines)
    requires Agree(view, before)
    ensures Agree(Reloaded(view, before, after), after) <==> forall n :: !Hides(before, after, n)
  {
    hide Reloaded, Configured, Usable, ExpectedAll;
    var r := Reloaded(view, before, after);
    forall n | n in after ensures n in r && (Meets(r[n], after[n]) <==> !Hides(before, after, n)) {
      ReloadedAt(view, before, after, n);
      if Changed(n, before, after) {
        ConfiguredMeets(LoggerIn(view, n), after[n]);
      } else {
        assert Meets(view[n], before[n]);
        ExpectedAlike(after[n].appenders, before[n].appenders, view[n].formatter);
      }
    }
  }

  /** Loggers whose definition went away log at level 0 to no appender; all others stay; none is lost. */
  lemma ReloadElsewhere(view: Registry, before: Defines, after: Defines, n: string)
    requires n !in after
    ensures var r := Reloaded(view, before, after);
            && (n in before ==> n in r && r[n].level == 0 && r[n].appenders == [])
            && (n !in before ==> (n in r <==> n in view) && (n in view ==> r[n] == view[n]))
  {
    ReloadedAt(view, before, after, n);
  }

  // ----- many reloads -----

  /** The listener called once for each pair, in order. */
  function ReloadAll(view: Registry, pairs: seq<(Defines, Defines)>): Registry
    decreases |pairs|
  {
    if pairs == [] then view else ReloadAll(Reloaded(view, pairs[0].0, pairs[0].1), pairs[1..])
  }

  ghost predicate NothingHidden(pairs: seq<(Defines, Defines)>) {
    forall i, n :: 0 <= i < |pairs| ==> !Hides(pairs[i].0, pairs[i].1, n)
  }

  lemma {:induction false} ChainAgrees(view: Registry, pairs: seq<(Defines, Defines)>,
                                       first: Defines, last: Defines, k: CV.Kind<Defines>)
    requires CV.Chain(pairs, first, last, k) && Agree(view, first) && NothingHidden(pairs)
    ensures Agree(ReloadAll(view, pairs), last)
    decreases |pairs|
  {
    hide Agree, Reloaded, Hides;
    if pairs != [] {
      ReloadAgrees(view, pairs[0].0, pairs[0].1);
      assert forall i :: 0 <= i < |pairs[1..]| ==> pairs[1..][i] == pairs[i + 1];
      ChainAgrees(Reloaded(view, pairs[0].0, pairs[0].1), pairs[1..], pairs[0].1, last, k);
    }
  }

  // ----- exactly when a chain of reloads agrees with its last set -----

  /** Definitions that `==` takes for the same, name by name. */
  ghost predicate Matches(eff: Defines, defs: Defines) {
    eff.Keys == defs.Keys && forall n :: n in defs ==> Same(eff[n], defs[n])
  }

  /** For each name the definition the listener last acted on. */
  function Acted(eff: Defines, before: Defines, after: Defines): Defines {
    map n | n in after && (Changed(n, before, after) || n in eff) ::
      if Changed(n, before, after) then after[n] else eff[n]
  }

  function Effective(eff: Defines, pairs: seq<(Defines, Defines)>): Defines
    decreases |pairs|
  {
    if pairs == [] then eff else Effective(Acted(eff, pairs[0].0, pairs[0].1), pairs[1..])
  }

  /** The loggers always agree with the definitions last acted on. */
  lemma ActedAgrees(view: Registry, eff: Defines, before: Defines, after: Defines)
    requires Matches(eff, before) && Agree(view, eff)
    ensures Matches(Acted(eff, before, after), after)
    ensures Agree(Reloaded(view, before, after), Acted(eff, before, after))
  {
    hide Reloaded, Configured, Usable, ExpectedAll;
    var next := Acted(eff, before, after);
    forall n | n in next
      ensures n in Reloaded(view, before, after) && Meets(Reloaded(view, before, after)[n], next[n])
    {
      ReloadedAt(view, before, after, n);
      if Changed(n, before, after) {
        ConfiguredMeets(LoggerIn(view, n), after[n]);
      } else {
        assert Meets(view[n], eff[n]);
      }
    }
  }

  lemma MatchingAgree(view: Registry, eff: Defines, defs: Defines)
    requires Matches(eff, defs) && Agree(view, eff)
    ensures Agree(view, defs) <==> forall n :: n in defs ==> ShownAlike(eff[n].appenders, defs[n].appenders)
  {
    hide Usable, ExpectedAll, ShownAlike;
    forall n | n in defs
      ensures n in view && (Meets(view[n], defs[n]) <==> ShownAlike(eff[n].appenders, defs[n].appenders))
    {
      assert Meets(view[n], eff[n]);
      ExpectedAlike(eff[n].appenders, defs[n].appenders, view[n].formatter);
    }
  }

  lemma {:induction false} ChainEffective(view: Registry, eff: Defines, pairs: seq<(Defines, Defines)>,
                                          first: Defines, last: Defines, k: CV.Kind<Defines>)
    requires CV.Chain(pairs, first, last, k) && Matches(eff, first) && Agree(view, eff)
    ensures Matches(Effective(eff, pairs), last) && Agree(ReloadAll(view, pairs), Effective(eff, pairs))
    decreases |pairs|
  {
    hide Agree, Matches, Reloaded, Acted;
    if pairs != [] {
      var a, b := pairs[0].0, pairs[0].1;
      ActedAgrees(view, eff, a, b);
      ChainEffective(Reloaded(view, a, b), Acted(eff, a, b), pairs[1..], b, last, k);
    }
  }

  /** The `==` of the whole setting. */
  predicate SameSet(a: Defines, b: Defines) {
    a.Keys == b.Keys && forall n :: n in a ==> Same(a[n], b[n])
  }

  /**
   The `logs` variable with the listener on it, registered under `id`, through
   any operations that leave the listener on. If the loggers agreed with the
   value, they agree with the value the variable has now exactly when for each of
   its names the definition last acted on shows the same appenders; and that is
   so if no change on the way hid other appenders.
   */
  lemma LoggersFollowSetting(view: Registry, s: CV.VarState<Defines>, ops: seq<CV.Op<Defines>>,
                             k: CV.Kind<Defines>, id: nat)
    requires CV.Sound(s) && id in s.cbs && forall i :: 0 <= i < |ops| ==> !CV.Removes(ops[i], id)
    requires Agree(view, s.val)
    ensures var t := CV.Run(s, ops, k);
            var earlier, all := CV.Received(s.calls, id), CV.Received(t.calls, id);
            var eff := Effective(s.val, CV.Changes(s, ops, k));
            && earlier <= all && eff.Keys == t.val.Keys
            && (Agree(ReloadAll(view, all[|earlier|..]), t.val) <==>
                  forall n :: n in t.val ==> ShownAlike(eff[n].appenders, t.val[n].appenders))
            && (NothingHidden(CV.Changes(s, ops, k)) ==> Agree(ReloadAll(view, all[|earlier|..]), t.val))
  {
    hide Agree, CV.Changes, CV.Run, CV.Received, CV.Chain, Effective, ReloadAll, NothingHidden, ShownAlike;
    var changes, t := CV.Changes(s, ops, k), CV.Run(s, ops, k);
    CV.HearsEverything(s, ops, k, id);
    CV.ChangesChain(s, ops, k);
    var earlier := CV.Received(s.calls, id);
    assert (earlier + changes)[|earlier|..] == changes;
    ChainEffective(view, s.val, changes, s.val, t.val, k);
    MatchingAgree(ReloadAll(view, changes), Effective(s.val, changes), t.val);
    if NothingHidden(changes) { ChainAgrees(view, changes, s.val, t.val, k); }
  }

  // ----- formatters -----

  /** The formatter a chain leaves: that of the last definition acted on that sets a usable one, or else the first. */
  function Sticky(formatter: string, pairs: seq<(Defines, Defines)>, n: string): string
    decreases |pairs|
  {
    if pairs == [] then formatter
    else
      var (a, b) := pairs[0];
      Sticky(if Changed(n, a, b) && Usable(b[n].formatter) then b[n].formatter else formatter, pairs[1..], n)
  }

  /** A logger's formatter after any reloads; in particular dropping or clearing a definition does not undo it. */
  lemma {:induction false} FormatterSticks(view: Registry, pairs: seq<(Defines, Defines)>, n: string)
    ensures LoggerIn(ReloadAll(view, pairs), n).formatter == Sticky(LoggerIn(view, n).formatter, pairs, n)
    decreases |pairs|
  {
    hide Reloaded, Usable, LoggerIn;
    if pairs != [] {
      var (a, b) := pairs[0];
      OneSticks(view, a, b, n);
      FormatterSticks(Reloaded(view, a, b), pairs[1..], n);
    }
  }

  lemma OneSticks(view: Registry, before: Defines, after: Defines, n: string)
    ensures LoggerIn(Reloaded(view, before, after), n).formatter ==
            if Changed(n, before, after) && Usable(after[n].formatter) then after[n].formatter
            else LoggerIn(view, n).formatter
  {
    hide Reloaded, Usable, ExpectedAll;
    ReloadedAt(view, before, after, n);
  }

  /** The same level and appenders as defined, but for formatters the appenders inherit. */
  ghost predicate ShowAlike(a: LoggerView, b: LoggerView, d: LogDefine) {
    && a.level == b.level && |a.appenders| == |b.appenders| == |d.appenders|
    && (forall i :: 0 <= i < |a.appenders| ==>
          var x, y := a.appenders[i], b.appenders[i];
          x.(formatter := None) == y.(formatter := None) && (x.own ==> x == y))
    && (Usable(d.formatter) ==> a == b)
  }

  lemma MeetAlike(a: LoggerView, b: LoggerView, d: LogDefine)
    requires Meets(a, d) && Meets(b, d)
    ensures ShowAlike(a, b, d)
  {
    hide Usable;
  }

  /**
   Any chain of reloads from nothing, against loading its last set alone: a
   logger of that set ends up the same exactly when the definition last acted on
   shows the appenders of the last one, and the last one sets a usable formatter
   or the one that stuck is the one the logger would have had anyway. Levels
   always agree; so do the shown appenders if no change on the way was hidden.
   */
  lemma LastSetAlone(view: Registry, other: Registry, pairs: seq<(Defines, Defines)>, last: Defines,
                     k: CV.Kind<Defines>, n: string)
    requires CV.Chain(pairs, map[], last, k) && n in last
    ensures var a, b, eff := ReloadAll(view, pairs), Reloaded(other, map[], last), Effective(map[], pairs);
            && n in a && n in b && n in eff && a[n].level == b[n].level
            && (a[n] == b[n] <==>
                  ShownAlike(eff[n].appenders, last[n].appenders) &&
                  (Usable(last[n].formatter) ||
                   Sticky(LoggerIn(view, n).formatter, pairs, n) == LoggerIn(other, n).formatter))
            && (NothingHidden(pairs) ==> ShownAlike(eff[n].appenders, last[n].appenders))
            && (ShownAlike(eff[n].appenders, last[n].appenders) ==> ShowAlike(a[n], b[n], last[n]))
  {
    hide Usable, Reloaded, Hides, ExpectedAll, ShownAlike, Effective, NothingHidden, Sticky, CV.Chain, ReloadAll;
    var a, b, eff := ReloadAll(view, pairs), Reloaded(other, map[], last), Effective(map[], pairs);
    ChainEffective(view, map[], pairs, map[], last, k);
    if NothingHidden(pairs) {
      ChainAgrees(view, pairs, map[], last, k);
      MatchingAgree(a, eff, last);
    }
    FormatterSticks(view, pairs, n);
    ReloadedAt(other, map[], last, n);
    assert Meets(a[n], eff[n]) && Same(eff[n], last[n]) && b[n] == Configured(LoggerIn(other, n), last[n]);
    ExpectedAlike(eff[n].appenders, last[n].appenders, a[n].formatter);
    if ShownAlike(eff[n].appenders, last[n].appenders) {
      ConfiguredMeets(LoggerIn(other, n), last[n]);
      MeetAlike(a[n], b[n], last[n]);
    }
  }

  // ----- what goes wrong -----

  /**
   A set equal to the value under `==` is dropped: no listener hears of it, and
   the loggers agree with it exactly when it shows the same appenders; and
   running the listener would make no difference.
   */
  lemma EqualSetIsDropped(view: Registry, s: CV.VarState<Defines>, v: Defines, k: CV.Kind<Defines>)
    requires k.eq == SameSet && SameSet(v, s.val) && Agree(view, s.val)
    ensures CV.Step(s, CV.Set(v), k) == s && Reloaded(view, s.val, v) == view
    ensures Agree(view, v) <==> forall n :: n in v ==> ShownAlike(s.val[n].appenders, v[n].appenders)
  {
    hide Agree, ShownAlike;
    forall n ensures n in Reloaded(view, s.val, v) <==> n in view
             ensures n in view ==> Reloaded(view, s.val, v)[n] == view[n]
    {
      hide Reloaded;
      ReloadedAt(view, s.val, v, n);
    }
    MatchingAgree(view, s.val, v);
  }

  const CONSOLE := AppenderDefine(StdoutSink, 0, "")

  /** Such a set: the console appender of one logger is taken away, and stays. */
  lemma AppendersOnlyIsDropped(view: Registry, s: CV.VarState<Defines>, k: CV.Kind<Defines>)
    requires s.val == map["net" := LogDefine(2, "", [CONSOLE])] && k.eq == SameSet && Agree(view, s.val)
    ensures var v := map["net" := LogDefine(2, "", [])];
            && v != s.val && CV.Step(s, CV.Set(v), k) == s
            && !Agree(view, v) && !Agree(Reloaded(view, s.val, v), v)
  {
    var v := map["net" := LogDefine(2, "", [])];
    assert v["net"] != s.val["net"] && !ShownAlike(s.val["net"].appenders, v["net"].appenders);
    EqualSetIsDropped(view, s, v, k);
  }

  lemma MessageUsable()
    ensures Usable("%m")
  {
    var s := "%m";
    assert s[1..] == "m" && s[1 + 1..] == "";
    assert P.NameLen("m"[1..]) == 0;
    assert P.ScanDirective("m") == P.Closed("m", "", 1);
    assert P.Tokens(s, "") == [] + [P.Dir("m", "")] + P.Tokens("", "");
    assert P.Tokens(s, "") == [P.Dir("m", "")];
  }

  lemma EmptyUnusable()
    ensures !Usable("")
  {
  }

  /** A formatter that stuck: the last set alone would give the default, the chain keeps the message pattern. */
  lemma ClearedFormatterStays(view: Registry)
    ensures var a, b := map["net" := LogDefine(2, "%m", [])], map["net" := LogDefine(2, "", [])];
            var chained, alone := ReloadAll(view, [(map[], a), (a, b)]), Reloaded(map[], map[], b);
            "net" in chained && chained["net"].formatter == "%m" &&
            "net" in alone && alone["net"].formatter == DEFAULT_PATTERN
  {
    hide Reloaded, ExpectedAll, ReloadAll, Usable;
    MessageUsable();
    EmptyUnusable();
    var a, b := map["net" := LogDefine(2, "%m", [])], map["net" := LogDefine(2, "", [])];
    var r := Reloaded(view, map[], a);
    ReloadedAt(view, map[], a, "net");
    ReloadedAt(r, a, b, "net");
    ReloadedAt(map[], map[], b, "net");
    TwoReloads(view, map[], a, a, b);
  }

  lemma TwoReloads(view: Registry, a: Defines, b: Defines, c: Defines, d: Defines)
    ensures ReloadAll(view, [(a, b), (c, d)]) == Reloaded(Reloaded(view, a, b), c, d)
  {
    hide Reloaded;
    var r := Reloaded(view, a, b);
    assert [(a, b), (c, d)][1..] == [(c, d)] && [(c, d)][1..] == [];
    assert ReloadAll(r, [(c, d)]) == ReloadAll(Reloaded(r, c, d), []);
  }

  /** The `==` of the setting is still an equivalence, so after a load it holds the last good definitions up to it. */
  lemma SettingAfterLoad(s: CV.VarState<Defines>, root: CT.Node, emit: CT.Node -> string, k: CV.Kind<Defines>)
    requires k.eq == SameSet
    ensures SameSet(CR.Loaded(s, "logs", root, emit, k).val,
                    CR.LastGood(CR.Texts("logs", CT.Preorder("", root), emit), s.val, k))
  {
    CR.LoadedValue(s, "logs", root, emit, k);
  }
}
