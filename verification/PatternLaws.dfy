/** Printing tokens and parsing them again: the round trip, and which token lists accepted patterns have. */
module PatternLaws {
  import opened Common
  import opened PatternGrammar

  // ----- which token lists come from accepted patterns -----

  /** Percent signs stand in one run at the end. */
  ghost predicate PercentTail(text: string) {
    forall k, l :: 0 <= k < l < |text| && text[k] == '%' ==> text[l] == '%'
  }

  ghost predicate LitOk(text: string, followed: bool) {
    text != "" && if followed then PercentTail(text) else '%' !in text
  }

  /** No two texts in a row, percent signs only right before a directive, known names, arguments without a brace. */
  ghost predicate WellFormed(tokens: seq<Token>) {
    tokens == [] ||
    (WellFormed(tokens[1..]) &&
     match tokens[0]
     case Lit(text) => LitOk(text, |tokens| > 1) && (|tokens| > 1 ==> tokens[1].Dir?)
     case Dir(name, arg) => Known(name) && '}' !in arg
     case Bad => false)
  }

  function PrintOne(t: Token): string {
    match t
    case Lit(text) => text
    case Dir(name, arg) => "%" + name + "{" + arg + "}"
    case Bad => ""
  }

  /** Text raw, directives with braces. */
  function Print(tokens: seq<Token>): string {
    if tokens == [] then "" else PrintOne(tokens[0]) + Print(tokens[1..])
  }

  /** The text pending before `s`, in an accepted pattern. */
  ghost predicate PendingOk(pending: string, s: string) {
    PercentTail(pending) && ('%' in pending ==> pending[|pending| - 1] == '%' && s != "" && s[0] == '%')
  }

  lemma CleanTail(a: seq<Token>, b: seq<Token>)
    requires Clean(a + b)
    ensures Clean(a) && Clean(b)
  {
    forall i | 0 <= i < |a| ensures !Faulty(a[i]) { assert (a + b)[i] == a[i]; }
    forall i | 0 <= i < |b| ensures !Faulty(b[i]) { assert (a + b)[|a| + i] == b[i]; }
  }

  /** `s` starts with a directive, not with text. */
  predicate AtDirective(s: string) {
    s != "" && s[0] == '%' && !(|s| > 1 && s[1] == '%')
  }

  lemma DirectiveTokens(s: string, pending: string)
    requires AtDirective(s)
    ensures match ScanDirective(s[1..])
            case Closed(name, arg, len) =>
              Tokens(s, pending) == Flush(pending) + ([Dir(name, arg)] + Tokens(s[1 + len..], ""))
            case Open => Tokens(s, pending) == [Bad] + Tokens(s[1..], pending)
  {
    hide ScanDirective;
    match ScanDirective(s[1..])
    case Closed(name, arg, len) => Associate(Flush(pending), [Dir(name, arg)], Tokens(s[1 + len..], ""));
    case Open =>
  }

  lemma CleanParts(pending: string, d: Token, rest: seq<Token>)
    requires Clean(Flush(pending) + ([d] + rest))
    ensures !Faulty(d) && Clean(rest)
  {
    hide Clean, Flush, Faulty;
    CleanTail(Flush(pending), [d] + rest);
    CleanTail([d], rest);
    CleanOne(d);
  }

  lemma OpenIsFaulty(s: string, pending: string)
    requires AtDirective(s) && ScanDirective(s[1..]).Open?
    ensures !Clean(Tokens(s, pending))
  {
    hide Tokens, ScanDirective;
    DirectiveTokens(s, pending);
    assert Faulty(Tokens(s, pending)[0]);
  }

  /** In a clean scan every directive is closed and has a known one-letter name. */
  lemma CleanDirective(s: string, pending: string)
    requires AtDirective(s) && Clean(Tokens(s, pending))
    ensures ScanDirective(s[1..]).Closed? && Known(ScanDirective(s[1..]).name) && |s| > 1
    ensures var d := ScanDirective(s[1..]);
            && Tokens(s, pending) == Flush(pending) + ([Dir(d.name, d.arg)] + Tokens(s[1 + d.len..], ""))
            && Clean(Tokens(s[1 + d.len..], ""))
  {
    hide Tokens, Known, Clean, ScanDirective, Flush;
    if ScanDirective(s[1..]).Open? {
      OpenIsFaulty(s, pending);
    } else {
      DirectiveTokens(s, pending);
      NamedDirective(s[1..]);
      var d := ScanDirective(s[1..]);
      CleanParts(pending, Dir(d.name, d.arg), Tokens(s[1 + d.len..], ""));
    }
  }

  lemma CleanOne(t: Token)
    ensures Clean([t]) <==> !Faulty(t)
  {
    assert [t][0] == t;
  }

  lemma NamedDirective(s: string)
    ensures ScanDirective(s).Closed? && Known(ScanDirective(s).name) ==> s != ""
  {
  }

  lemma {:induction false} AcceptedWellFormed(s: string, pending: string)
    requires Clean(Tokens(s, pending)) && PendingOk(pending, s)
    ensures WellFormed(Tokens(s, pending))
    decreases |s|
  {
    if AtDirective(s) {
      CleanDirective(s, pending);
      var d := ScanDirective(s[1..]);
      var rest := Tokens(s[1 + d.len..], "");
      AcceptedWellFormed(s[1 + d.len..], "");
      assert ([Dir(d.name, d.arg)] + rest)[1..] == rest;
      assert WellFormed([Dir(d.name, d.arg)] + rest);
      if pending != "" {
        assert Tokens(s, pending)[1..] == [Dir(d.name, d.arg)] + rest;
      } else {
        assert Tokens(s, pending) == [Dir(d.name, d.arg)] + rest;
      }
    } else if s != "" {
      AcceptedWellFormed(s[1..], pending + [s[0]]);
    }
  }

  // ----- printing and parsing again -----

  /** A printed directive scans as itself, whatever follows. */
  lemma PrintedDirective(name: string, arg: string, rest: string)
    requires Known(name) && '}' !in arg
    ensures ScanDirective(name + "{" + arg + "}" + rest) == Closed(name, arg, |name| + |arg| + 2)
    ensures var s := "%" + name + "{" + arg + "}" + rest;
            AtDirective(s) && s[1..] == name + "{" + arg + "}" + rest && s[1 + |name| + |arg| + 2..] == rest
  {
    var t := name + "{" + arg + "}" + rest;
    var after := t[2..];
    assert after == arg + "}" + rest;
    assert t[0] == name[0] && t[1] == '{' && !NameChar('{');
    assert NameLen(t) == 1;
    assert after[|arg|] == '}' && forall k :: 0 <= k < |arg| ==> after[k] == arg[k];
    assert CloseAt(after) == |arg|;
    assert t[..1] == name && t[2..2 + |arg|] == arg;
    var s := "%" + name + "{" + arg + "}" + rest;
    assert s == "%" + t;
  }

  /** Text is taken over into the pending text up to the next directive. */
  lemma {:induction false} TextScans(text: string, rest: string, pending: string)
    requires PercentTail(text) && ('%' in text ==> AtDirective(rest))
    ensures Tokens(text + rest, pending) == Tokens(rest, pending + text)
    decreases |text|
  {
    if text == "" {
      assert text + rest == rest && pending + text == pending;
    } else {
      var s := text + rest;
      assert s[1..] == text[1..] + rest;
      assert text[0] == '%' && |text| == 1 ==> s[1] == rest[0];
      assert pending + [text[0]] + text[1..] == pending + text;
      TextScans(text[1..], rest, pending + [text[0]]);
    }
  }

  lemma FlushFirst(s: string, pending: string)
    requires AtDirective(s) && ScanDirective(s[1..]).Closed?
    ensures Tokens(s, pending) == Flush(pending) + Tokens(s, "")
  {
  }

  lemma PrintFirst(tokens: seq<Token>)
    requires tokens != []
    ensures Print(tokens) == PrintOne(tokens[0]) + Print(tokens[1..])
  {
    hide PrintOne;
  }

  lemma HeadAndTail<T>(a: seq<T>)
    requires a != []
    ensures a == [a[0]] + a[1..]
  {
  }

  lemma PrintText(text: string, rest: string, tokens: seq<Token>)
    requires LitOk(text, tokens != []) && (tokens != [] ==> AtDirective(rest) && ScanDirective(rest[1..]).Closed?)
    requires Tokens(rest, "") == tokens && (tokens == [] ==> rest == "")
    ensures Tokens(text + rest, "") == [Lit(text)] + tokens
  {
    hide Tokens, ScanDirective;
    TextScans(text, rest, "");
    assert "" + text == text;
    if tokens != [] {
      FlushFirst(rest, text);
    } else {
      EndTokens(text);
    }
  }

  lemma EndTokens(pending: string)
    ensures Tokens("", pending) == Flush(pending)
  {
  }

  lemma PrintDirective(name: string, arg: string, rest: string)
    requires Known(name) && '}' !in arg
    ensures var s := "%" + name + "{" + arg + "}" + rest;
            && AtDirective(s) && ScanDirective(s[1..]).Closed?
            && Tokens(s, "") == [Dir(name, arg)] + Tokens(rest, "")
  {
    hide Tokens, ScanDirective, Known;
    PrintedDirective(name, arg, rest);
    var s := "%" + name + "{" + arg + "}" + rest;
    DirectiveTokens(s, "");
    assert Flush("") == [];
  }

  /** Every well-formed token list is the parse of its printed form. */
  lemma {:induction false} PrintParses(tokens: seq<Token>)
    requires WellFormed(tokens)
    ensures Tokens(Print(tokens), "") == tokens
    ensures tokens != [] && tokens[0].Dir? ==>
              AtDirective(Print(tokens)) && ScanDirective(Print(tokens)[1..]).Closed?
    ensures tokens == [] ==> Print(tokens) == ""
  {
    hide Tokens, Print, ScanDirective, Known, AtDirective, LitOk;
    if tokens == [] {
      EndTokens("");
      PrintNothing();
    } else {
      var rest := Print(tokens[1..]);
      PrintParses(tokens[1..]);
      PrintFirst(tokens);
      HeadAndTail(tokens);
      match tokens[0]
      case Lit(text) =>
        PrintText(text, rest, tokens[1..]);
      case Dir(name, arg) =>
        PrintDirective(name, arg, rest);
    }
  }

  lemma PrintNothing()
    ensures Print([]) == ""
  {
  }

  lemma {:induction false} WellFormedClean(tokens: seq<Token>)
    requires WellFormed(tokens)
    ensures Clean(tokens)
  {
    if tokens != [] {
      WellFormedClean(tokens[1..]);
      forall i | 0 <= i < |tokens| ensures !Faulty(tokens[i]) {
        if i > 0 { assert tokens[i] == tokens[1..][i - 1]; }
      }
    }
  }

  /** Printing an accepted pattern's tokens and parsing again changes nothing, and raises no error. */
  lemma RoundTrip(p: string)
    requires Accepted(p)
    ensures Tokens(Print(Tokens(p, "")), "") == Tokens(p, "")
    ensures Accepted(Print(Tokens(p, "")))
  {
    AcceptedWellFormed(p, "");
    PrintParses(Tokens(p, ""));
  }

  /** The accepted patterns parse to the well-formed token lists, all of them and nothing else. */
  lemma LanguageOfPatterns(tokens: seq<Token>)
    ensures WellFormed(tokens) <==> exists p :: Accepted(p) && Tokens(p, "") == tokens
  {
    if WellFormed(tokens) {
      PrintParses(tokens);
      WellFormedClean(tokens);
      assert Accepted(Print(tokens));
    }
    forall p | Accepted(p) && Tokens(p, "") == tokens ensures WellFormed(tokens) {
      AcceptedWellFormed(p, "");
    }
  }
}
