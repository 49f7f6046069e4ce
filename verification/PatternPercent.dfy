/**
 The comment above `init` lists `%%` as a form of its own; the code takes only
 the first of the two characters as text and scans the second one again. Here
 is the language with `%%` as an escape, and exactly when the two agree.
 */
module PatternPercent {
  import opened Common
  import opened PatternGrammar
  import opened PatternLaws
  import opened PatternComposition

  /** `Tokens` with `%%` consumed as one percent sign. */
  function EscapedTokens(s: string, pending: string): seq<Token>
    decreases |s|
  {
    if s == "" then Flush(pending)
    else if s[0] != '%' then EscapedTokens(s[1..], pending + [s[0]])
    else if |s| > 1 && s[1] == '%' then EscapedTokens(s[2..], pending + ['%'])
    else
      match ScanDirective(s[1..])
      case Closed(name, arg, len) => Flush(pending) + ([Dir(name, arg)] + EscapedTokens(s[1 + len..], ""))
      case Open => [Bad] + EscapedTokens(s[1..], pending)
  }

  /** The scan meets a doubled percent sign (outside arguments). */
  predicate Doubled(s: string)
    decreases |s|
  {
    if s == "" then false
    else if s[0] != '%' then Doubled(s[1..])
    else if !AtDirective(s) then true
    else
      match ScanDirective(s[1..])
      case Closed(_, _, len) => Doubled(s[1 + len..])
      case Open => Doubled(s[1..])
  }

  lemma {:induction false} NoDoubleAgrees(s: string, pending: string)
    requires !Doubled(s)
    ensures EscapedTokens(s, pending) == Tokens(s, pending)
    decreases |s|
  {
    hide ScanDirective;
    if AtDirective(s) {
      DirectiveTokens(s, pending);
      match ScanDirective(s[1..])
      case Closed(_, _, len) => NoDoubleAgrees(s[1 + len..], "");
      case Open => NoDoubleAgrees(s[1..], pending);
    } else if s != "" {
      NoDoubleAgrees(s[1..], pending + [s[0]]);
    }
  }

  function Percents(n: nat): string { seq(n, _ => '%') }

  /** Length of the run of percent signs at the head. */
  function Run(s: string): (k: nat)
    ensures k <= |s| && (forall i :: 0 <= i < k ==> s[i] == '%') && (k < |s| ==> s[k] != '%')
  {
    if s == "" || s[0] != '%' then 0 else 1 + Run(s[1..])
  }

  /** The code, for any pattern: all but the last percent sign of a run are text, the last one starts a directive. */
  lemma {:induction false} RunInCode(s: string, pending: string)
    requires s != "" && s[0] == '%'
    ensures var k := Run(s);
            && k > 0 && AtDirective(s[k - 1..])
            && Tokens(s, pending) == Tokens(s[k - 1..], pending + Percents(k - 1))
    decreases |s|
  {
    hide Tokens, ScanDirective;
    var k := Run(s);
    if AtDirective(s) {
      assert k == 1 && s[0..] == s && pending + Percents(0) == pending;
    } else {
      TextStep(s, pending);
      assert Run(s[1..]) == k - 1 && s[1..][k - 2..] == s[k - 1..];
      assert pending + [s[0]] + Percents(k - 2) == pending + Percents(k - 1);
      RunInCode(s[1..], pending + [s[0]]);
    }
  }

  lemma EscapedPair(s: string, pending: string)
    requires Run(s) >= 2
    ensures Run(s[2..]) == Run(s) - 2
    ensures EscapedTokens(s, pending) == EscapedTokens(s[2..], pending + ['%'])
  {
    hide ScanDirective;
    assert s[1..][1..] == s[2..] && Run(s[1..]) == Run(s) - 1;
  }

  /** With the escape: pairs of percent signs are text; an odd one starts a directive. */
  lemma {:induction false} RunEscaped(s: string, pending: string)
    ensures var k := Run(s);
            EscapedTokens(s, pending) == EscapedTokens(s[k / 2 * 2..], pending + Percents(k / 2))
    decreases |s|
  {
    hide EscapedTokens, Run;
    var k := Run(s);
    if k < 2 {
      assert s[0..] == s && pending + Percents(0) == pending;
    } else {
      EscapedPair(s, pending);
      var h := (k - 2) / 2;
      assert h == k / 2 - 1 && s[2..][h * 2..] == s[k / 2 * 2..];
      assert pending + ['%'] + Percents(h) == pending + Percents(k / 2);
      RunEscaped(s[2..], pending + ['%']);
    }
  }

  /** A scanned directive under the escape, as `DirectiveTokens` for the code. */
  lemma EscapedDirective(s: string, pending: string)
    requires AtDirective(s)
    ensures match ScanDirective(s[1..])
            case Closed(name, arg, len) =>
              EscapedTokens(s, pending) == Flush(pending) + ([Dir(name, arg)] + EscapedTokens(s[1 + len..], ""))
            case Open => EscapedTokens(s, pending) == [Bad] + EscapedTokens(s[1..], pending)
  {
    hide ScanDirective;
  }

  // ----- the first token that is not an error -----

  function First(tokens: seq<Token>): Option<Token> {
    if tokens == [] then None else if tokens[0].Bad? then First(tokens[1..]) else Some(tokens[0])
  }

  lemma FirstAfterBad(tokens: seq<Token>)
    ensures First([Bad] + tokens) == First(tokens)
  {
    assert ([Bad] + tokens)[1..] == tokens;
  }

  ghost predicate StartsWith(tokens: seq<Token>, text: string) {
    First(tokens).Some? && First(tokens).value.Lit? && text <= First(tokens).value.text
  }

  lemma FlushStarts(pending: string, rest: seq<Token>)
    requires pending != ""
    ensures StartsWith(Flush(pending) + rest, pending) && First(Flush(pending) + rest) == Some(Lit(pending))
  {
    assert (Flush(pending) + rest)[0] == Lit(pending);
  }

  /** Pending text begins the first token that is not an error, in the code ... */
  lemma {:induction false} CodeStarts(s: string, pending: string)
    requires pending != ""
    ensures StartsWith(Tokens(s, pending), pending)
    decreases |s|
  {
    hide ScanDirective, Flush;
    if s == "" {
      FlushStarts(pending, []);
      assert Flush(pending) + [] == Flush(pending);
    } else if AtDirective(s) {
      hide First;
      DirectiveTokens(s, pending);
      match ScanDirective(s[1..])
      case Closed(name, arg, len) => FlushStarts(pending, [Dir(name, arg)] + Tokens(s[1 + len..], ""));
      case Open =>
        CodeStarts(s[1..], pending);
        FirstAfterBad(Tokens(s[1..], pending));
    } else {
      CodeStarts(s[1..], pending + [s[0]]);
      assert pending <= pending + [s[0]];
    }
  }

  /** ... and with the escape. */
  lemma {:induction false} EscapedStarts(s: string, pending: string)
    requires pending != ""
    ensures StartsWith(EscapedTokens(s, pending), pending)
    decreases |s|
  {
    hide ScanDirective, Flush;
    if s == "" {
      FlushStarts(pending, []);
      assert Flush(pending) + [] == Flush(pending);
    } else if s[0] != '%' {
      EscapedStarts(s[1..], pending + [s[0]]);
      assert pending <= pending + [s[0]];
    } else if AtDirective(s) {
      hide First;
      EscapedDirective(s, pending);
      match ScanDirective(s[1..])
      case Closed(name, arg, len) => FlushStarts(pending, [Dir(name, arg)] + EscapedTokens(s[1 + len..], ""));
      case Open =>
        EscapedStarts(s[1..], pending);
        FirstAfterBad(EscapedTokens(s[1..], pending));
    } else {
      EscapedStarts(s[2..], pending + ['%']);
      assert pending <= pending + ['%'];
    }
  }

  // ----- errors: behind an unclosed brace the code finds no fewer than the escape -----

  lemma {:induction false} EscapedSkips(s: string, n: nat, pending: string)
    requires n <= |s| && '%' !in s[..n]
    ensures EscapedTokens(s, pending) == EscapedTokens(s[n..], pending + s[..n])
    decreases n
  {
    if n == 0 {
      assert s[0..] == s && pending + s[..0] == pending;
    } else {
      assert s[0] == s[..n][0] && s[1..][n - 1..] == s[n..];
      assert forall c :: c in s[1..][..n - 1] ==> c in s[..n];
      assert pending + [s[0]] + s[1..][..n - 1] == pending + s[..n];
      EscapedSkips(s[1..], n - 1, pending + [s[0]]);
    }
  }

  lemma CodeSkips(s: string, n: nat, pending: string)
    requires n <= |s| && '%' !in s[..n]
    ensures Tokens(s, pending) == Tokens(s[n..], pending + s[..n])
  {
    hide Tokens;
    assert s[..n] + s[n..] == s;
    TextScans(s[..n], s[n..], pending);
  }

  lemma NameIsText(s: string)
    ensures NameLen(s) <= |s| && '%' !in s[..NameLen(s)]
  {
  }

  /** Where no brace closes, a directive is bare or unclosed. */
  lemma BareOrOpen(s: string)
    requires '}' !in s
    ensures ScanDirective(s).Closed? ==> ScanDirective(s).len == NameLen(s)
  {
  }

  lemma LossesOf(pending: string, d: Token, tokens: seq<Token>)
    requires d.Dir?
    ensures Losses(Flush(pending) + ([d] + tokens)) == Losses(tokens)
    ensures Losses([Bad] + tokens) == 1 + Losses(tokens)
  {
    CoverDirective(pending, "", [], d, tokens);
    CoverBad([], tokens);
  }

  lemma {:induction false} FewerErrors(s: string, a: string, b: string)
    requires '}' !in s
    ensures Losses(EscapedTokens(s, a)) <= Losses(Tokens(s, b))
    decreases |s|
  {
    hide Tokens, EscapedTokens, ScanDirective, Losses, NameLen;
    if s == "" {
      FewerAtEnd(a, b);
    } else if s[0] != '%' {
      TextStep(s, b);
      EscapedSkips(s, 1, a);
      FewerErrors(s[1..], a + s[..1], b + [s[0]]);
    } else if AtDirective(s) {
      FewerAtDirective(s, a, b);
      match ScanDirective(s[1..])
      case Closed(_, _, len) => FewerErrors(s[1 + len..], "", "");
      case Open => FewerErrors(s[1..], a, b);
    } else {
      EscapedPairStep(s, a);
      TextStep(s, b);
      var t := s[2..];
      assert s[1..][1..] == t;
      if AtDirective(s[1..]) {
        FewerAfterPair(s[1..], a + ['%'], b + ['%']);
        match ScanDirective(t)
        case Closed(_, _, len) => FewerErrors(t[len..], a + ['%'] + t[..len], "");
        case Open => FewerErrors(t, a + ['%'], b + ['%']);
      } else {
        TextStep(s[1..], b + ['%']);
        FewerErrors(t, a + ['%'], b + ['%'] + ['%']);
      }
    }
  }

  lemma FewerAtEnd(a: string, b: string)
    ensures Losses(EscapedTokens("", a)) == 0 == Losses(Tokens("", b))
  {
  }

  lemma EscapedPairStep(s: string, pending: string)
    requires s != "" && s[0] == '%' && !AtDirective(s)
    ensures |s| > 1 && s[1] == '%' && EscapedTokens(s, pending) == EscapedTokens(s[2..], pending + ['%'])
  {
    hide ScanDirective;
  }

  lemma FewerAtDirective(s: string, a: string, b: string)
    requires AtDirective(s)
    ensures var d := ScanDirective(s[1..]);
            d.Closed? ==>
              Losses(EscapedTokens(s, a)) == Losses(EscapedTokens(s[1 + d.len..], "")) &&
              Losses(Tokens(s, b)) == Losses(Tokens(s[1 + d.len..], ""))
    ensures ScanDirective(s[1..]).Open? ==>
              Losses(EscapedTokens(s, a)) == 1 + Losses(EscapedTokens(s[1..], a)) &&
              Losses(Tokens(s, b)) == 1 + Losses(Tokens(s[1..], b))
  {
    hide Tokens, EscapedTokens, ScanDirective, Losses;
    DirectiveTokens(s, b);
    EscapedDirective(s, a);
    match ScanDirective(s[1..])
    case Closed(name, arg, len) =>
      LossesOf(a, Dir(name, arg), EscapedTokens(s[1 + len..], ""));
      LossesOf(b, Dir(name, arg), Tokens(s[1 + len..], ""));
    case Open =>
      LossesOf(a, Dir("", ""), EscapedTokens(s[1..], a));
      LossesOf(b, Dir("", ""), Tokens(s[1..], b));
  }

  /** The second of two percent signs: a directive for the code, nothing for the escape, which reads its name as text. */
  lemma FewerAfterPair(s: string, a: string, b: string)
    requires AtDirective(s) && '}' !in s[1..]
    ensures var t, d := s[1..], ScanDirective(s[1..]);
            d.Closed? ==>
              EscapedTokens(t, a) == EscapedTokens(t[d.len..], a + t[..d.len]) &&
              Losses(Tokens(s, b)) == Losses(Tokens(t[d.len..], ""))
    ensures ScanDirective(s[1..]).Open? ==> Losses(Tokens(s, b)) == 1 + Losses(Tokens(s[1..], b))
  {
    hide Tokens, EscapedTokens, ScanDirective, Losses, NameLen;
    var t := s[1..];
    FewerAtDirective(s, a, b);
    BareOrOpen(t);
    NameIsText(t);
    match ScanDirective(t)
    case Closed(_, _, len) =>
      EscapedSkips(t, len, a);
      assert s[1 + len..] == t[len..];
    case Open =>
  }

  lemma OpenShape(s: string)
    requires ScanDirective(s).Open?
    ensures NameLen(s) < |s| && s[NameLen(s)] == '{' && '}' !in s[NameLen(s) + 1..]
  {
  }

  lemma OpenErrors(s: string, a: string, b: string)
    requires ScanDirective(s).Open?
    ensures Losses(EscapedTokens(s, a)) <= Losses(Tokens(s, b))
  {
    hide Tokens, EscapedTokens, ScanDirective, Losses, NameLen;
    OpenShape(s);
    NameIsText(s);
    var n := NameLen(s) + 1;
    assert s[..n] == s[..n - 1] + ['{'];
    EscapedSkips(s, n, a);
    CodeSkips(s, n, b);
    FewerErrors(s[n..], a + s[..n], b + s[..n]);
  }

  // ----- where the readings part -----

  /** Text with more percent signs before the same character begins differently. */
  lemma StartsDiffer(x: seq<Token>, y: seq<Token>, pending: string, i: nat, j: nat, c: char)
    requires i < j && c != '%'
    requires StartsWith(x, pending + Percents(i) + [c])
    requires StartsWith(y, pending + Percents(j))
    ensures x != y
  {
    var a, b := pending + Percents(i) + [c], pending + Percents(j);
    assert a[|pending| + i] == c && b[|pending| + i] == '%';
    assert First(x).value.text[|pending| + i] == c && First(y).value.text[|pending| + i] == '%';
  }

  /** Behind an even run `t` is text for the escape, and the name of directive `d` for the code. */
  lemma EvenRest(d: string, t: string, pending: string, i: nat, j: nat)
    requires AtDirective(d) && d[1..] == t && t != "" && t[0] != '%' && (i < j || i == j == 1)
    ensures EscapedTokens(t, pending + Percents(i)) != Tokens(d, pending + Percents(j))
  {
    hide Tokens, EscapedTokens, ScanDirective, First, Losses, Flush;
    var a, b := pending + Percents(j), pending + Percents(i);
    EscapedSkips(t, 1, b);
    assert b + t[..1] == b + [t[0]];
    EscapedStarts(t[1..], b + [t[0]]);
    DirectiveStarts(d, a);
    if i < j {
      StartsDiffer(EscapedTokens(t, b), Tokens(d, a), pending, i, j, t[0]);
    } else if ScanDirective(t).Closed? {
      assert First(Tokens(d, a)) == Some(Lit(a)) && |b + [t[0]]| > |a|;
    } else {
      OpenErrors(t, b, a);
      DirectiveTokens(d, a);
      LossesOf("", Dir("", ""), Tokens(t, a));
    }
  }

  lemma DirectiveStarts(d: string, a: string)
    requires AtDirective(d) && a != ""
    ensures StartsWith(Tokens(d, a), a)
    ensures ScanDirective(d[1..]).Closed? ==> First(Tokens(d, a)) == Some(Lit(a))
  {
    hide Tokens, ScanDirective, Flush, First;
    CodeStarts(d, a);
    DirectiveTokens(d, a);
    match ScanDirective(d[1..])
    case Closed(name, arg, len) => FlushStarts(a, [Dir(name, arg)] + Tokens(d[1 + len..], ""));
    case Open =>
  }

  lemma EvenRunDisagrees(s: string, pending: string)
    requires s != "" && s[0] == '%' && Run(s) >= 2 && Run(s) % 2 == 0
    ensures EscapedTokens(s, pending) != Tokens(s, pending)
  {
    hide Tokens, EscapedTokens, ScanDirective, Run, First, Losses, Flush;
    var k := Run(s);
    RunInCode(s, pending);
    RunEscaped(s, pending);
    var d, t := s[k - 1..], s[k..];
    assert d[1..] == t;
    if t == "" {
      LoneRun(d, pending + Percents(k - 1), pending + Percents(k / 2));
    } else {
      RunEnds(s);
      EvenRest(d, t, pending, k / 2, k - 1);
    }
  }

  lemma RunEnds(s: string)
    requires Run(s) < |s|
    ensures s[Run(s)] != '%'
  {
  }

  /** A pattern that ends in an even run: the code finds a directive without a name, the escape none at all. */
  lemma LoneRun(d: string, a: string, b: string)
    requires AtDirective(d) && d[1..] == "" && a != "" && b != ""
    ensures EscapedTokens("", b) != Tokens(d, a)
  {
    hide Tokens;
    DirectiveTokens(d, a);
    assert ScanDirective("") == Closed("", "", 0);
    assert |Tokens(d, a)| >= 2 && |EscapedTokens("", b)| == 1;
  }

  lemma OddRest(d: string, pending: string, i: nat, j: nat)
    requires AtDirective(d) && 0 < i < j
    ensures EscapedTokens(d, pending + Percents(i)) != Tokens(d, pending + Percents(j))
  {
    hide Tokens, EscapedTokens, ScanDirective, First, Flush;
    var a, b, t := pending + Percents(j), pending + Percents(i), d[1..];
    DirectiveStarts(d, a);
    EscapedDirective(d, b);
    match ScanDirective(t)
    case Closed(name, arg, len) =>
      FlushStarts(b, [Dir(name, arg)] + EscapedTokens(d[1 + len..], ""));
      assert |a| > |b|;
    case Open =>
      OpenShape(t);
      NameIsText(t);
      assert t[0] != '%' by { if NameLen(t) > 0 { assert t[0] in t[..NameLen(t)]; } }
      EscapedSkips(t, 1, b);
      assert b + t[..1] == b + [t[0]];
      EscapedStarts(t[1..], b + [t[0]]);
      FirstAfterBad(EscapedTokens(t, b));
      StartsDiffer(EscapedTokens(d, b), Tokens(d, a), pending, i, j, t[0]);
  }

  lemma OddRunDisagrees(s: string, pending: string)
    requires s != "" && s[0] == '%' && Run(s) >= 2 && Run(s) % 2 == 1
    ensures EscapedTokens(s, pending) != Tokens(s, pending)
  {
    hide Tokens, EscapedTokens, ScanDirective, Run;
    var k := Run(s);
    RunInCode(s, pending);
    RunEscaped(s, pending);
    assert k / 2 * 2 == k - 1;
    OddRest(s[k - 1..], pending, k / 2, k - 1);
  }

  lemma DoubledRun(s: string)
    requires s != "" && s[0] == '%' && !AtDirective(s)
    ensures Run(s) >= 2
  {
    assert s[1..][0] == '%';
  }

  lemma {:induction false} DoubleDisagrees(s: string, pending: string)
    requires Doubled(s)
    ensures EscapedTokens(s, pending) != Tokens(s, pending)
    decreases |s|
  {
    hide ScanDirective, Run;
    if s[0] != '%' {
      DoubleDisagrees(s[1..], pending + [s[0]]);
    } else if AtDirective(s) {
      DirectiveTokens(s, pending);
      EscapedDirective(s, pending);
      match ScanDirective(s[1..])
      case Closed(name, arg, len) =>
        DoubleDisagrees(s[1 + len..], "");
        DirectiveDiffers(pending, Dir(name, arg), EscapedTokens(s[1 + len..], ""),
                         Dir(name, arg), Tokens(s[1 + len..], ""));
      case Open =>
        DoubleDisagrees(s[1..], pending);
        BadDiffers(EscapedTokens(s[1..], pending), Tokens(s[1..], pending));
    } else {
      DoubledRun(s);
      if Run(s) % 2 == 0 { EvenRunDisagrees(s, pending); } else { OddRunDisagrees(s, pending); }
    }
  }

  lemma BadDiffers(x: seq<Token>, y: seq<Token>)
    requires x != y
    ensures [Bad] + x != [Bad] + y
  {
    assert ([Bad] + x)[1..] == x && ([Bad] + y)[1..] == y;
  }

  /**
   Any pattern, accepted or not, reads as documented exactly when the scan meets
   no doubled percent sign. So a pattern without errors under the documented
   reading is accepted with just that reading exactly under the same condition.
   */
  lemma PercentAsDocumented(p: string)
    ensures Tokens(p, "") == EscapedTokens(p, "") <==> !Doubled(p)
    ensures Clean(EscapedTokens(p, "")) ==>
              ((Accepted(p) && Tokens(p, "") == EscapedTokens(p, "")) <==> !Doubled(p))
  {
    if Doubled(p) {
      DoubleDisagrees(p, "");
    } else {
      NoDoubleAgrees(p, "");
    }
  }

  // ----- the shortest inputs -----

  /** `%%` alone: one percent sign as documented, an error in the code. */
  lemma PercentAloneRejected()
    ensures EscapedTokens("%%", "") == [Lit("%")] && Clean(EscapedTokens("%%", ""))
    ensures !Accepted("%%") && Doubled("%%")
  {
    hide Tokens, ScanDirective;
    var s := "%%";
    assert s[1..] == "%" && s[2..] == "" && "%"[1..] == "" && "" + ['%'] == "%";
    TextStep(s, "");
    LoneScan();
    DirectiveTokens("%", "%");
    assert Tokens(s, "")[1] == Dir("", "") && Faulty(Dir("", ""));
    EscapedPairStep(s, "");
    EscapedEnd("%");
  }

  lemma LoneScan()
    ensures ScanDirective("") == Closed("", "", 0)
  {
  }

  lemma EscapedEnd(pending: string)
    ensures EscapedTokens("", pending) == Flush(pending)
  {
  }

  lemma MessageScan()
    ensures ScanDirective("m") == Closed("m", "", 1)
  {
    assert NameLen("m"[1..]) == 0;
  }

  /** `%%m`: accepted, as a percent sign and the message; documented as the text `%m`. */
  lemma PercentMessageDiffers()
    ensures Tokens("%%m", "") == [Lit("%"), Dir("m", "")] && Accepted("%%m")
    ensures EscapedTokens("%%m", "") == [Lit("%m")]
  {
    hide Tokens, ScanDirective, EscapedTokens;
    var s := "%%m";
    assert s[1..] == "%m" && s[2..] == "m" && "%m"[1..] == "m" && "%m"[2..] == "" && "" + ['%'] == "%";
    TextStep(s, "");
    MessageScan();
    DirectiveTokens("%m", "%");
    EndStep("");
    EscapedPairStep(s, "");
    assert "m"[..1] == "m" && "m"[1..] == "" && "%" + "m" == "%m";
    EscapedSkips("m", 1, "%");
    EscapedEnd("%m");
  }
}
