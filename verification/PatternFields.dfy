/** What patterns render, written out in the fields of the event: each directive, text, errors, and the default pattern. */
module PatternFields {
  import opened Common
  import opened PatternGrammar
  import opened PatternLaws
  import opened PatternComposition

  predicate Letter(c: char) { 'a' <= c <= 'z' || 'A' <= c <= 'Z' }

  ghost predicate Letters(name: string) { forall i :: 0 <= i < |name| ==> Letter(name[i]) }

  // ----- one piece in front of a pattern -----

  lemma DirectiveInFront(s: string, name: string, arg: string, rest: string, e: LogEvent)
    requires Tokens(s, "") == [Dir(name, arg)] + Tokens(rest, "")
    ensures Format(s, e) == Render(DirectiveItem(name, arg), e) + Format(rest, e)
    ensures Accepted(s) <==> Known(name) && Accepted(rest)
  {
    hide Tokens, Render, DirectiveItem, Known, RenderAll, Items;
    var d, t := Dir(name, arg), Tokens(rest, "");
    RenderAppend([d], t, e);
    RenderSingle(d, e);
    CleanOne(d);
    if Clean([d] + t) { CleanTail([d], t); }
    if Clean([d]) && Clean(t) { CleanBoth([d], t); }
  }

  /** A directive with braces in front of any pattern; its name is any run of letters. */
  lemma BracedInFront(name: string, arg: string, rest: string, e: LogEvent)
    requires Letters(name) && '}' !in arg
    ensures var s := "%" + name + "{" + arg + "}" + rest;
            && Format(s, e) == Render(DirectiveItem(name, arg), e) + Format(rest, e)
            && (Accepted(s) <==> Known(name) && Accepted(rest))
  {
    hide Tokens, Render, DirectiveItem, Known, ScanDirective;
    var s := "%" + name + "{" + arg + "}" + rest;
    BracedScan(name, arg, rest);
    assert s[1..] == name + "{" + arg + "}" + rest && s[1 + (|name| + |arg| + 2)..] == rest;
    assert name != "" ==> s[1] == name[0];
    assert name == "" ==> s[1] == '{';
    DirectiveTokens(s, "");
    assert Flush("") + ([Dir(name, arg)] + Tokens(rest, "")) == [Dir(name, arg)] + Tokens(rest, "");
    DirectiveInFront(s, name, arg, rest, e);
  }

  lemma BracedScan(name: string, arg: string, rest: string)
    requires Letters(name) && '}' !in arg
    ensures ScanDirective(name + "{" + arg + "}" + rest) == Closed(name, arg, |name| + |arg| + 2)
  {
    var t := name + "{" + arg + "}" + rest;
    var n := |name|;
    assert forall k :: 0 <= k < n ==> t[k] == name[k];
    assert t[n] == '{' && NameLen(t) == n;
    var after := t[n + 1..];
    assert after == arg + "}" + rest;
    assert after[|arg|] == '}' && forall k :: 0 <= k < |arg| ==> after[k] == arg[k];
    assert CloseAt(after) == |arg|;
    assert t[..n] == name && t[n + 1..n + 1 + |arg|] == arg;
  }

  /** A directive without braces, where the name ends. */
  lemma BareInFront(c: char, rest: string, e: LogEvent)
    requires Letter(c) && (rest == "" || !(Letter(rest[0]) || rest[0] == '}' || rest[0] == '{'))
    ensures var s := "%" + [c] + rest;
            && Format(s, e) == Render(DirectiveItem([c], ""), e) + Format(rest, e)
            && (Accepted(s) <==> Known([c]) && Accepted(rest))
  {
    hide Tokens, Render, DirectiveItem, Known, ScanDirective;
    var s := "%" + [c] + rest;
    BareScan(c, rest);
    assert s[1..] == [c] + rest && s[1 + 1..] == rest;
    DirectiveTokens(s, "");
    assert Flush("") + ([Dir([c], "")] + Tokens(rest, "")) == [Dir([c], "")] + Tokens(rest, "");
    DirectiveInFront(s, [c], "", rest, e);
  }

  lemma BareScan(c: char, rest: string)
    requires Letter(c) && (rest == "" || !(Letter(rest[0]) || rest[0] == '}' || rest[0] == '{'))
    ensures ScanDirective([c] + rest) == Closed([c], "", 1)
  {
    var t := [c] + rest;
    assert t[1..] == rest && t[..1] == [c];
    assert NameLen(rest) == 0 && NameLen(t) == 1;
  }

  /** A character of text in front of an accepted pattern renders as itself. */
  lemma TextInFront(c: char, rest: string, e: LogEvent)
    requires c != '%' && Accepted(rest)
    ensures Accepted([c] + rest) && Format([c] + rest, e) == [c] + Format(rest, e)
  {
    hide Tokens, Clean, Merge, RenderAll, Items;
    var s := [c] + rest;
    assert s[1..] == rest && "" + [c] == [c] && [c] + "" == [c];
    TextStep(s, "");
    PendingMerges(rest, [c], "");
    CleanAnyPending(rest, "", [c]);
    RenderMerge([c], Tokens(rest, ""), e);
  }

  lemma EmptyPattern(e: LogEvent)
    ensures Accepted("") && Format("", e) == ""
  {
    EndStep("");
  }

  // ----- the twelve directives -----

  lemma AloneBraced(name: string, arg: string, e: LogEvent)
    requires Letters(name) && '}' !in arg
    ensures var s := "%" + name + "{" + arg + "}";
            && Format(s, e) == Render(DirectiveItem(name, arg), e) && (Accepted(s) <==> Known(name))
  {
    hide Render, DirectiveItem, Known, Format, Accepted;
    var s := "%" + name + "{" + arg + "}";
    assert s + "" == s;
    BracedInFront(name, arg, "", e);
    EmptyPattern(e);
    assert Render(DirectiveItem(name, arg), e) + "" == Render(DirectiveItem(name, arg), e);
  }

  lemma AloneBare(c: char, e: LogEvent)
    requires Letter(c)
    ensures Format("%" + [c], e) == Render(DirectiveItem([c], ""), e) && (Accepted("%" + [c]) <==> Known([c]))
  {
    hide Render, DirectiveItem, Known, Format, Accepted;
    assert "%" + [c] + "" == "%" + [c];
    BareInFront(c, "", e);
    EmptyPattern(e);
    assert Render(DirectiveItem([c], ""), e) + "" == Render(DirectiveItem([c], ""), e);
  }

  /** Exactly these names are accepted. */
  lemma AcceptedNames(name: string, arg: string)
    requires Letters(name) && '}' !in arg
    ensures Accepted("%" + name + "{" + arg + "}") <==>
            name in ["m", "p", "r", "c", "t", "n", "d", "f", "l", "T", "F", "N"]
  {
    AloneBraced(name, arg, Blank());
    if Known(name) { assert name == [name[0]]; }
    hide AtDirective;
    KnownNames(name);
  }

  lemma KnownNames(name: string)
    ensures Known(name) <==> name in ["m", "p", "r", "c", "t", "n", "d", "f", "l", "T", "F", "N"]
  {
    var names := ["m", "p", "r", "c", "t", "n", "d", "f", "l", "T", "F", "N"];
    if Known(name) {
      assert name == [name[0]];
      var i := match name[0]
               case 'm' => 0 case 'p' => 1 case 'r' => 2 case 'c' => 3 case 't' => 4 case 'n' => 5
               case 'd' => 6 case 'f' => 7 case 'l' => 8 case 'T' => 9 case 'F' => 10 case _ => 11;
      assert names[i] == name;
    }
  }

  /** Message, level, elapsed time, logger: with braces, whatever stands in them, or without. */
  lemma FirstFields(arg: string, e: LogEvent)
    requires '}' !in arg
    ensures Format("%m{" + arg + "}", e) == e.content && Format("%m", e) == e.content
    ensures Format("%p{" + arg + "}", e) == e.level && Format("%p", e) == e.level
    ensures Format("%r{" + arg + "}", e) == e.elapse && Format("%r", e) == e.elapse
    ensures Format("%c{" + arg + "}", e) == e.logger && Format("%c", e) == e.logger
  {
    hide Format, Accepted, Known;
    assert "%" + "m" == "%m" && "%" + "m" + "{" == "%m{" && "%" + "p" == "%p" && "%" + "p" + "{" == "%p{" && "%" + "r" == "%r" && "%" + "r" + "{" == "%r{" && "%" + "c" == "%c" && "%" + "c" + "{" == "%c{";
    Both('m', "m", arg, e);
    Both('p', "p", arg, e);
    Both('r', "r", arg, e);
    Both('c', "c", arg, e);
  }

  /** Thread, new line, time stamp, file: the time stamp in the format of its braces, or in the default one. */
  lemma NextFields(arg: string, e: LogEvent)
    requires '}' !in arg
    ensures Format("%t{" + arg + "}", e) == e.threadId && Format("%t", e) == e.threadId
    ensures Format("%n{" + arg + "}", e) == "\n" && Format("%n", e) == "\n"
    ensures Format("%d{" + arg + "}", e) == e.time(if arg == "" then "%Y-%m-%d %H:%M:%S" else arg)
    ensures Format("%d", e) == e.time("%Y-%m-%d %H:%M:%S")
    ensures Format("%f{" + arg + "}", e) == e.file && Format("%f", e) == e.file
  {
    hide Format, Accepted, Known;
    assert "%" + "t" == "%t" && "%" + "t" + "{" == "%t{" && "%" + "n" == "%n" && "%" + "n" + "{" == "%n{" && "%" + "d" == "%d" && "%" + "d" + "{" == "%d{" && "%" + "f" == "%f" && "%" + "f" + "{" == "%f{";
    Both('t', "t", arg, e);
    Both('n', "n", arg, e);
    Both('d', "d", arg, e);
    Both('f', "f", arg, e);
  }

  /** Line, tab, fiber, thread name. */
  lemma LastFields(arg: string, e: LogEvent)
    requires '}' !in arg
    ensures Format("%l{" + arg + "}", e) == e.line && Format("%l", e) == e.line
    ensures Format("%T{" + arg + "}", e) == "\t" && Format("%T", e) == "\t"
    ensures Format("%F{" + arg + "}", e) == e.fiberId && Format("%F", e) == e.fiberId
    ensures Format("%N{" + arg + "}", e) == e.threadName && Format("%N", e) == e.threadName
  {
    hide Format, Accepted, Known;
    assert "%" + "l" == "%l" && "%" + "l" + "{" == "%l{" && "%" + "T" == "%T" && "%" + "T" + "{" == "%T{" && "%" + "F" == "%F" && "%" + "F" + "{" == "%F{" && "%" + "N" == "%N" && "%" + "N" + "{" == "%N{";
    Both('l', "l", arg, e);
    Both('T', "T", arg, e);
    Both('F', "F", arg, e);
    Both('N', "N", arg, e);
  }

  lemma Both(c: char, name: string, arg: string, e: LogEvent)
    requires Letter(c) && name == [c] && '}' !in arg
    ensures Format("%" + name + "{" + arg + "}", e) == Render(DirectiveItem(name, arg), e)
    ensures Format("%" + name, e) == Render(DirectiveItem(name, ""), e)
  {
    hide Format, Accepted, Known, Render, DirectiveItem;
    AloneBraced(name, arg, e);
    AloneBare(c, e);
  }

  // ----- errors -----

  /** Any other name is an error and is shown as one. */
  lemma UnknownName(name: string, arg: string, e: LogEvent)
    requires Letters(name) && '}' !in arg && name !in ["m", "p", "r", "c", "t", "n", "d", "f", "l", "T", "F", "N"]
    ensures !Accepted("%" + name + "{" + arg + "}")
    ensures Format("%" + name + "{" + arg + "}", e) == "<<error_format %" + name + ">>"
  {
    hide Format, Accepted;
    AloneBraced(name, arg, e);
    KnownNames(name);
    OtherItem(name, arg, e);
  }

  lemma OtherItem(name: string, arg: string, e: LogEvent)
    requires !Known(name)
    ensures Render(DirectiveItem(name, arg), e) == "<<error_format %" + name + ">>"
  {
  }

  /** A name runs over letters and closing braces: two of them are never a known name. */
  lemma LongNameRejected(c: char, d: char, rest: string)
    requires Letter(c) && (Letter(d) || d == '}')
    ensures !Accepted("%" + [c, d] + rest)
  {
    hide Tokens, ScanDirective, Clean, Known;
    var s := "%" + [c, d] + rest;
    assert s[1..] == [c, d] + rest;
    LongNameScan(c, d, rest);
    if Clean(Tokens(s, "")) { CleanDirective(s, ""); }
  }

  lemma LongNameScan(c: char, d: char, rest: string)
    requires Letter(c) && (Letter(d) || d == '}')
    ensures ScanDirective([c, d] + rest).Closed? ==> !Known(ScanDirective([c, d] + rest).name)
  {
    var t := [c, d] + rest;
    assert t[1..][1..] == rest && t[1..][0] == d;
    assert NameLen(t) == 1 + NameLen(t[1..]) && NameLen(t[1..]) >= 1;
  }

  /** An unclosed brace is an error; what stood behind the percent sign is then text. */
  lemma Unclosed(name: string, arg: string, e: LogEvent)
    requires Letters(name) && '}' !in arg && '%' !in arg
    ensures !Accepted("%" + name + "{" + arg)
    ensures Format("%" + name + "{" + arg, e) == "<<pattern_error>>" + (name + "{" + arg)
  {
    hide Tokens, ScanDirective, RenderAll, Items, Clean;
    var text := name + "{" + arg;
    var s := "%" + text;
    assert s == "%" + name + "{" + arg && s[1..] == text;
    UnclosedScan(name, arg);
    assert s[1] == if name != "" then name[0] else '{';
    DirectiveTokens(s, "");
    assert '%' !in text by { NoPercent(name, arg); }
    TextScans(text, "", "");
    assert text + "" == text && "" + text == text;
    EndStep(text);
    RenderAppend([Bad], [Lit(text)], e);
    RenderOne(text, e);
    RenderSingle(Bad, e);
    BadUnclean([Lit(text)]);
  }

  lemma BadUnclean(rest: seq<Token>)
    ensures !Clean([Bad] + rest)
  {
    assert Faulty(([Bad] + rest)[0]);
  }

  lemma NoPercent(name: string, arg: string)
    requires Letters(name) && '%' !in arg
    ensures '%' !in name + "{" + arg
  {
  }

  lemma UnclosedScan(name: string, arg: string)
    requires Letters(name) && '}' !in arg
    ensures ScanDirective(name + "{" + arg) == Open
  {
    var t := name + "{" + arg;
    var n := |name|;
    assert forall k :: 0 <= k < n ==> t[k] == name[k];
    assert t[n] == '{' && NameLen(t) == n && t[n + 1..] == arg;
    assert CloseAt(arg) == |arg|;
  }

  // ----- the default pattern -----

  /** `rest` is accepted and renders `text`. */
  ghost predicate Says(p: string, e: LogEvent, text: string) { Accepted(p) && Format(p, e) == text }

  lemma ThenBare(c: char, rest: string, e: LogEvent, field: string, text: string)
    requires Letter(c) && Known([c]) && Says(rest, e, text) && Render(DirectiveItem([c], ""), e) == field
    requires rest == "" || rest[0] == '%' || rest[0] == '[' || rest[0] == ']' || rest[0] == ':'
    ensures Says("%" + [c] + rest, e, field + text)
  {
    hide Render, DirectiveItem, Known, Format, Accepted;
    BareInFront(c, rest, e);
  }

  lemma ThenText(c: char, rest: string, e: LogEvent, text: string)
    requires c != '%' && Says(rest, e, text)
    ensures Says([c] + rest, e, [c] + text)
  {
    hide Format, Accepted;
    TextInFront(c, rest, e);
  }

  lemma DefaultEnd(e: LogEvent)
    ensures Says("%f:%l%T%m%n", e, e.file + (":" + (e.line + ("\t" + (e.content + "\n")))))
  {
    hide Says, Format, Accepted;
    SaysNothing(e);
    ThenBare('n', "", e, "\n", "");
    assert "%" + ['n'] + "" == "%n" && "\n" + "" == "\n";
    ThenBare('m', "%n", e, e.content, "\n");
    assert "%" + ['m'] + "%n" == "%m%n";
    ThenBare('T', "%m%n", e, "\t", e.content + "\n");
    assert "%" + ['T'] + "%m%n" == "%T%m%n";
    ThenBare('l', "%T%m%n", e, e.line, "\t" + (e.content + "\n"));
    assert "%" + ['l'] + "%T%m%n" == "%l%T%m%n";
    ThenText(':', "%l%T%m%n", e, e.line + ("\t" + (e.content + "\n")));
    assert [':'] + "%l%T%m%n" == ":%l%T%m%n";
    ThenBare('f', ":%l%T%m%n", e, e.file, ":" + (e.line + ("\t" + (e.content + "\n"))));
    assert "%" + ['f'] + ":%l%T%m%n" == "%f:%l%T%m%n";
  }

  lemma SaysNothing(e: LogEvent)
    ensures Says("", e, "")
  {
    EmptyPattern(e);
  }

  lemma DefaultMiddle(e: LogEvent, rest: string, text: string)
    requires Says(rest, e, text) && rest != "" && rest[0] == '%'
    ensures Says("[%p]%T[%c]%T" + rest, e, "[" + (e.level + ("]" + ("\t" + ("[" + (e.logger + ("]" + ("\t" + text))))))))
  {
    hide Says, Format, Accepted;
    var t1 := "\t" + text;
    ThenBare('T', rest, e, "\t", text);
    ThenText(']', "%" + ['T'] + rest, e, t1);
    ThenBare('c', [']'] + ("%" + ['T'] + rest), e, e.logger, [']'] + t1);
    ThenText('[', "%" + ['c'] + ([']'] + ("%" + ['T'] + rest)), e, e.logger + ([']'] + t1));
    var p2, t2 := ['['] + ("%" + ['c'] + ([']'] + ("%" + ['T'] + rest))), ['['] + (e.logger + ([']'] + t1));
    ThenBare('T', p2, e, "\t", t2);
    ThenText(']', "%" + ['T'] + p2, e, "\t" + t2);
    ThenBare('p', [']'] + ("%" + ['T'] + p2), e, e.level, [']'] + ("\t" + t2));
    ThenText('[', "%" + ['p'] + ([']'] + ("%" + ['T'] + p2)), e, e.level + ([']'] + ("\t" + t2)));
    assert p2 == "[%c]%T" + rest;
    assert ['['] + ("%" + ['p'] + ([']'] + ("%" + ['T'] + p2))) == "[%p]%T" + p2 == "[%p]%T[%c]%T" + rest;
    assert t2 == "[" + (e.logger + ("]" + t1));
  }

  lemma DefaultFiber(e: LogEvent, rest: string, text: string)
    requires Says(rest, e, text) && rest != "" && rest[0] == '['
    ensures Says("%N%T%F%T" + rest, e, e.threadName + ("\t" + (e.fiberId + ("\t" + text))))
  {
    hide Says, Format, Accepted;
    var p1, t1 := "%" + ['T'] + rest, "\t" + text;
    ThenBare('T', rest, e, "\t", text);
    var p2, t2 := "%" + ['F'] + p1, e.fiberId + t1;
    ThenBare('F', p1, e, e.fiberId, t1);
    ThenBare('T', p2, e, "\t", t2);
    ThenBare('N', "%" + ['T'] + p2, e, e.threadName, "\t" + t2);
    assert p2 == "%F%T" + rest;
    assert "%" + ['N'] + ("%" + ['T'] + p2) == "%N%T" + p2 == "%N%T%F%T" + rest;
  }

  lemma DefaultFront(e: LogEvent, rest: string, text: string)
    requires Says(rest, e, text) && rest != "" && rest[0] == '['
    ensures Says("%T%t%T%N%T%F%T" + rest, e,
                 "\t" + (e.threadId + ("\t" + (e.threadName + ("\t" + (e.fiberId + ("\t" + text)))))))
  {
    hide Says, Format, Accepted;
    DefaultFiber(e, rest, text);
    var p4, t4 := "%N%T%F%T" + rest, e.threadName + ("\t" + (e.fiberId + ("\t" + text)));
    var p5, t5 := "%" + ['T'] + p4, "\t" + t4;
    ThenBare('T', p4, e, "\t", t4);
    var p6, t6 := "%" + ['t'] + p5, e.threadId + t5;
    ThenBare('t', p5, e, e.threadId, t5);
    ThenBare('T', p6, e, "\t", t6);
    assert p6 == "%t%T" + p4 == "%t%T%N%T%F%T" + rest;
    assert "%" + ['T'] + p6 == "%T%t%T%N%T%F%T" + rest;
  }

  lemma DefaultPieces()
    ensures DEFAULT_PATTERN ==
            "%d{" + ("%Y-%m-%d %H:%M:%S" + ("}" + ("%T%t%T%N%T%F%T" + ("[%p]%T[%c]%T" + "%f:%l%T%m%n"))))
  {
    TimePiece();
    var rest := "%T%t%T%N%T%F%T" + ("[%p]%T[%c]%T" + "%f:%l%T%m%n");
    Associate("%d{", "%Y-%m-%d %H:%M:%S" + "}", rest);
    Associate("%Y-%m-%d %H:%M:%S", "}", rest);
  }

  lemma TimePiece()
    ensures "%d{%Y-%m-%d %H:%M:%S}" == "%d{" + ("%Y-%m-%d %H:%M:%S" + "}")
  {
  }

  /** The default pattern is accepted and renders this line for every event. */
  lemma DefaultLine(e: LogEvent)
    ensures Accepted(DEFAULT_PATTERN)
    ensures Format(DEFAULT_PATTERN, e) ==
            e.time("%Y-%m-%d %H:%M:%S") + "\t" + e.threadId + "\t" + e.threadName + "\t" + e.fiberId + "\t" +
            "[" + e.level + "]" + "\t" + "[" + e.logger + "]" + "\t" + e.file + ":" + e.line + "\t" + e.content + "\n"
  {
    hide Format, Accepted, Says;
    var t1 := e.file + (":" + (e.line + ("\t" + (e.content + "\n"))));
    DefaultEnd(e);
    var t2 := "[" + (e.level + ("]" + ("\t" + ("[" + (e.logger + ("]" + ("\t" + t1)))))));
    DefaultMiddle(e, "%f:%l%T%m%n", t1);
    var p2 := "[%p]%T[%c]%T" + "%f:%l%T%m%n";
    var t3 := "\t" + (e.threadId + ("\t" + (e.threadName + ("\t" + (e.fiberId + ("\t" + t2))))));
    DefaultFront(e, p2, t2);
    DefaultPieces();
    TimeInFront("%Y-%m-%d %H:%M:%S", "%T%t%T%N%T%F%T" + p2, e, t3);
    Flatten(e.time("%Y-%m-%d %H:%M:%S"), e, t1, t2, t3);
  }

  lemma TimeInFront(format: string, rest: string, e: LogEvent, text: string)
    requires Says(rest, e, text) && format != "" && '}' !in format
    ensures Accepted("%d{" + (format + ("}" + rest)))
    ensures Format("%d{" + (format + ("}" + rest)), e) == e.time(format) + text
  {
    hide Format, Accepted;
    BracedInFront("d", format, rest, e);
    assert "%" + "d" + "{" + format + "}" + rest == "%d{" + (format + ("}" + rest));
  }

  lemma Flatten(time: string, e: LogEvent, t1: string, t2: string, t3: string)
    requires t1 == e.file + (":" + (e.line + ("\t" + (e.content + "\n"))))
    requires t2 == "[" + (e.level + ("]" + ("\t" + ("[" + (e.logger + ("]" + ("\t" + t1)))))))
    requires t3 == "\t" + (e.threadId + ("\t" + (e.threadName + ("\t" + (e.fiberId + ("\t" + t2))))))
    ensures time + t3 ==
            time + "\t" + e.threadId + "\t" + e.threadName + "\t" + e.fiberId + "\t" +
            "[" + e.level + "]" + "\t" + "[" + e.logger + "]" + "\t" + e.file + ":" + e.line + "\t" + e.content + "\n"
  {
  }
}
