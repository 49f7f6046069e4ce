/** Tokens tile the pattern; and exactly when two accepted patterns in a row render one after the other. */
module PatternComposition {
  import opened Common
  import opened PatternGrammar
  import opened PatternLaws

  // ----- tiling -----

  /** The stretch of the pattern behind each token. */
  function Spans(s: string, pending: string): seq<string>
    decreases |s|
  {
    if s == "" then if pending == "" then [] else [pending]
    else if !AtDirective(s) then Spans(s[1..], pending + [s[0]])
    else
      match ScanDirective(s[1..])
      case Closed(_, _, len) =>
        (if pending == "" then [] else [pending]) + (["%" + s[1..1 + len]] + Spans(s[1 + len..], ""))
      case Open => [""] + Spans(s[1..], pending)
  }

  function Flat(spans: seq<string>): string {
    if spans == [] then "" else spans[0] + Flat(spans[1..])
  }

  function Losses(tokens: seq<Token>): nat {
    if tokens == [] then 0 else (if tokens[0].Bad? then 1 else 0) + Losses(tokens[1..])
  }

  /** The token is what its stretch of the pattern says. */
  ghost predicate Reads(t: Token, span: string) {
    match t
    case Lit(text) => span == text
    case Dir(name, arg) => span == "%" + name + "{" + arg + "}" || (span == "%" + name && arg == "")
    case Bad => span == ""
  }

  lemma DirectiveSpan(s: string)
    ensures match ScanDirective(s)
            case Closed(name, arg, len) => Reads(Dir(name, arg), "%" + s[..len])
            case Open => true
  {
    var n := NameLen(s);
    if n < |s| && s[n] == '{' {
      var k := CloseAt(s[n + 1..]);
      if n + 1 + k < |s| {
        assert s[..n + k + 2] == s[..n] + "{" + s[n + 1..n + 1 + k] + "}";
      }
    }
  }

  lemma FlatAppend(a: seq<string>, b: seq<string>)
    ensures Flat(a + b) == Flat(a) + Flat(b)
  {
    if a == [] {
      assert a + b == b;
    } else {
      assert (a + b)[1..] == a[1..] + b;
      FlatAppend(a[1..], b);
    }
  }

  lemma LossesAppend(a: seq<Token>, b: seq<Token>)
    ensures Losses(a + b) == Losses(a) + Losses(b)
  {
    if a == [] {
      assert a + b == b;
    } else {
      assert (a + b)[1..] == a[1..] + b;
      LossesAppend(a[1..], b);
    }
  }

  lemma TextStep(s: string, pending: string)
    requires s != "" && !AtDirective(s)
    ensures Tokens(s, pending) == Tokens(s[1..], pending + [s[0]])
    ensures Spans(s, pending) == Spans(s[1..], pending + [s[0]])
  {
  }

  lemma EndStep(pending: string)
    ensures Tokens("", pending) == Flush(pending)
    ensures Spans("", pending) == if pending == "" then [] else [pending]
  {
  }

  lemma DirectiveStep(s: string, pending: string)
    requires AtDirective(s)
    ensures match ScanDirective(s[1..])
            case Closed(_, _, len) =>
              Spans(s, pending) ==
              (if pending == "" then [] else [pending]) + (["%" + s[1..1 + len]] + Spans(s[1 + len..], ""))
            case Open => Spans(s, pending) == [""] + Spans(s[1..], pending)
  {
    hide ScanDirective;
  }

  ghost predicate AllRead(tokens: seq<Token>, spans: seq<string>) {
    |spans| == |tokens| && forall k :: 0 <= k < |spans| ==> Reads(tokens[k], spans[k])
  }

  lemma ReadAppend(a: seq<Token>, b: seq<Token>, a': seq<string>, b': seq<string>)
    requires AllRead(a, a') && AllRead(b, b')
    ensures AllRead(a + b, a' + b')
  {
  }

  /** For any pattern: one span per token, and each token is what its span says. */
  lemma {:induction false} SpansRead(s: string, pending: string)
    ensures AllRead(Tokens(s, pending), Spans(s, pending))
    decreases |s|
  {
    hide Tokens, Spans, ScanDirective, AllRead;
    FlushRead(pending);
    if s == "" {
      EndStep(pending);
    } else if AtDirective(s) {
      DirectiveTokens(s, pending);
      DirectiveStep(s, pending);
      match ScanDirective(s[1..])
      case Closed(name, arg, len) =>
        SpansRead(s[1 + len..], "");
        assert s[1..][..len] == s[1..1 + len];
        DirectiveSpan(s[1..]);
        OneRead(Dir(name, arg), "%" + s[1..1 + len]);
        ReadAppend([Dir(name, arg)], Tokens(s[1 + len..], ""), ["%" + s[1..1 + len]], Spans(s[1 + len..], ""));
        ReadAppend(Flush(pending), [Dir(name, arg)] + Tokens(s[1 + len..], ""),
                   if pending == "" then [] else [pending], ["%" + s[1..1 + len]] + Spans(s[1 + len..], ""));
      case Open =>
        SpansRead(s[1..], pending);
        OneRead(Bad, "");
        ReadAppend([Bad], Tokens(s[1..], pending), [""], Spans(s[1..], pending));
    } else {
      TextStep(s, pending);
      SpansRead(s[1..], pending + [s[0]]);
    }
  }

  lemma FlushRead(pending: string)
    ensures AllRead(Flush(pending), if pending == "" then [] else [pending])
  {
  }

  lemma OneRead(t: Token, span: string)
    requires Reads(t, span)
    ensures AllRead([t], [span])
  {
  }

  lemma CoverEnd(pending: string)
    ensures Flat(if pending == "" then [] else [pending]) == pending && Losses(Flush(pending)) == 0
  {
  }

  lemma CoverDirective(pending: string, span: string, rest: seq<string>, d: Token, tokens: seq<Token>)
    requires d.Dir?
    ensures Flat((if pending == "" then [] else [pending]) + ([span] + rest)) == pending + (span + Flat(rest))
    ensures Losses(Flush(pending) + ([d] + tokens)) == Losses(tokens)
  {
    CoverEnd(pending);
    FlatAppend(if pending == "" then [] else [pending], [span] + rest);
    LossesAppend(Flush(pending), [d] + tokens);
    assert ([span] + rest)[1..] == rest && ([d] + tokens)[1..] == tokens;
  }

  lemma CoverBad(rest: seq<string>, tokens: seq<Token>)
    ensures Flat([""] + rest) == Flat(rest) && Losses([Bad] + tokens) == 1 + Losses(tokens)
  {
    assert ([""] + rest)[1..] == rest && ([Bad] + tokens)[1..] == tokens;
  }

  /** For any pattern: the spans have the pattern's length but for one character per unclosed directive. */
  lemma {:induction false} SpansCover(s: string, pending: string)
    ensures |Flat(Spans(s, pending))| + Losses(Tokens(s, pending)) == |pending| + |s|
    ensures Losses(Tokens(s, pending)) == 0 ==> Flat(Spans(s, pending)) == pending + s
    decreases |s|
  {
    hide Tokens, Spans, ScanDirective;
    CoverEnd(pending);
    hide Flat, Losses;
    if s == "" {
      EndStep(pending);
    } else if AtDirective(s) {
      DirectiveTokens(s, pending);
      DirectiveStep(s, pending);
      match ScanDirective(s[1..])
      case Closed(name, arg, len) =>
        CoverDirective(pending, "%" + s[1..1 + len], Spans(s[1 + len..], ""), Dir(name, arg), Tokens(s[1 + len..], ""));
        assert "%" + s[1..1 + len] + s[1 + len..] == s;
        SpansCover(s[1 + len..], "");
        assert "" + s[1 + len..] == s[1 + len..];
        Associate(pending, "%" + s[1..1 + len], s[1 + len..]);
      case Open =>
        CoverBad(Spans(s[1..], pending), Tokens(s[1..], pending));
        SpansCover(s[1..], pending);
    } else {
      TextStep(s, pending);
      assert pending + [s[0]] + s[1..] == pending + s;
      SpansCover(s[1..], pending + [s[0]]);
    }
  }

  lemma {:induction false} CleanLosesNothing(tokens: seq<Token>)
    requires Clean(tokens)
    ensures Losses(tokens) == 0
  {
    if tokens != [] {
      assert !Faulty(tokens[0]);
      assert tokens == [tokens[0]] + tokens[1..];
      CleanTail([tokens[0]], tokens[1..]);
      CleanLosesNothing(tokens[1..]);
    }
  }

  /** An accepted pattern is the concatenation of its tokens' spans, no character lost or repeated. */
  lemma TokensTile(p: string)
    requires Accepted(p)
    ensures Flat(Spans(p, "")) == p && |Spans(p, "")| == |Tokens(p, "")|
    ensures forall k :: 0 <= k < |Spans(p, "")| ==> Reads(Tokens(p, "")[k], Spans(p, "")[k])
  {
    SpansRead(p, "");
    SpansCover(p, "");
    CleanLosesNothing(Tokens(p, ""));
  }

  // ----- composition -----

  /** Text put in front of tokens. */
  function Merge(text: string, tokens: seq<Token>): seq<Token> {
    if text == "" then tokens
    else if tokens != [] && tokens[0].Lit? then [Lit(text + tokens[0].text)] + tokens[1..]
    else [Lit(text)] + tokens
  }

  /** Concatenation of token lists, adjoining texts run together. */
  function Join(a: seq<Token>, b: seq<Token>): seq<Token> {
    if a != [] && a[|a| - 1].Lit? then a[..|a| - 1] + Merge(a[|a| - 1].text, b) else a + b
  }

  /** The last directive of `s` has no braces and runs to the end of `s`. */
  predicate EndsBare(s: string)
    decreases |s|
  {
    if s == "" then false
    else if !AtDirective(s) then EndsBare(s[1..])
    else
      match ScanDirective(s[1..])
      case Closed(name, _, len) => if 1 + len == |s| then len == |name| else EndsBare(s[1 + len..])
      case Open => EndsBare(s[1..])
  }

  /** The directive that ends `p` would go on into `q`. */
  predicate Clash(p: string, q: string) {
    EndsBare(p) && q != "" && (NameChar(q[0]) || q[0] == '{')
  }

  /** Pending text of a clean scan ends up in front of its tokens. */
  lemma {:induction false} PendingMerges(s: string, a: string, b: string)
    requires Clean(Tokens(s, b))
    ensures Tokens(s, a + b) == Merge(a, Tokens(s, b))
    decreases |s|
  {
    hide Tokens, ScanDirective, Clean;
    if s == "" {
      EndStep(b);
      EndStep(a + b);
      MergeEnd(a, b);
    } else if AtDirective(s) {
      CleanDirective(s, b);
      DirectiveTokens(s, a + b);
      var d := ScanDirective(s[1..]);
      MergeFlush(a, b, [Dir(d.name, d.arg)] + Tokens(s[1 + d.len..], ""));
    } else {
      TextStep(s, b);
      TextStep(s, a + b);
      assert a + b + [s[0]] == a + (b + [s[0]]);
      PendingMerges(s[1..], a, b + [s[0]]);
    }
  }

  lemma MergeEnd(a: string, b: string)
    ensures Merge(a, Flush(b)) == Flush(a + b)
  {
    assert a == "" ==> a + b == b;
    assert b == "" ==> a + b == a;
  }

  lemma CleanBoth(a: seq<Token>, b: seq<Token>)
    requires Clean(a) && Clean(b)
    ensures Clean(a + b)
  {
  }

  lemma MergeFlush(a: string, b: string, rest: seq<Token>)
    requires rest != [] && !rest[0].Lit?
    ensures Merge(a, Flush(b) + rest) == Flush(a + b) + rest
  {
    assert a == "" ==> a + b == b;
    if b == "" {
      assert Flush(b) + rest == rest && a + b == a;
    } else {
      assert (Flush(b) + rest)[1..] == rest;
    }
  }

  lemma {:induction false} CleanAnyPending(s: string, a: string, b: string)
    requires Clean(Tokens(s, a))
    ensures Clean(Tokens(s, b))
    decreases |s|
  {
    hide Tokens, ScanDirective;
    if s == "" {
      EndStep(b);
    } else if AtDirective(s) {
      CleanDirective(s, a);
      DirectiveTokens(s, b);
      var d := ScanDirective(s[1..]);
      CleanOne(Dir(d.name, d.arg));
      CleanBoth([Dir(d.name, d.arg)], Tokens(s[1 + d.len..], ""));
      CleanBoth(Flush(b), [Dir(d.name, d.arg)] + Tokens(s[1 + d.len..], ""));
    } else {
      TextStep(s, a);
      TextStep(s, b);
      CleanAnyPending(s[1..], a + [s[0]], b + [s[0]]);
    }
  }

  lemma JoinBehind(a: seq<Token>, b: seq<Token>, c: seq<Token>)
    requires b != []
    ensures Join(a + b, c) == a + Join(b, c)
  {
    hide Merge;
    var last := b[|b| - 1];
    assert (a + b)[|a + b| - 1] == last && (a + b)[..|a + b| - 1] == a + b[..|b| - 1];
    if last.Lit? {
      Associate(a, b[..|b| - 1], Merge(last.text, c));
    } else {
      Associate(a, b, c);
    }
  }

  lemma NameExtends(s: string, q: string)
    requires NameLen(s) < |s| || q == "" || !NameChar(q[0])
    ensures NameLen(s + q) == NameLen(s)
  {
    var n, t := NameLen(s), s + q;
    assert forall k :: 0 <= k < |s| ==> t[k] == s[k];
    assert n == |s| && q != "" ==> t[n] == q[0];
  }

  lemma CloseExtends(s: string, q: string)
    requires CloseAt(s) < |s|
    ensures CloseAt(s + q) == CloseAt(s)
  {
    assert forall k :: 0 <= k < |s| ==> (s + q)[k] == s[k];
  }

  /** What follows a directive does not reach back into it unless it runs bare to the end. */
  lemma ScanExtends(s: string, q: string)
    requires ScanDirective(s).Closed?
    requires var d := ScanDirective(s);
             d.len < |s| || d.len != |d.name| || q == "" || !(NameChar(q[0]) || q[0] == '{')
    ensures ScanDirective(s + q) == ScanDirective(s)
  {
    hide NameLen, CloseAt;
    var n, t := NameLen(s), s + q;
    NameExtends(s, q);
    if n < |s| && s[n] == '{' {
      var after := s[n + 1..];
      assert t[n] == s[n] && t[n + 1..] == after + q && t[..n] == s[..n];
      CloseExtends(after, q);
      var k := CloseAt(after);
      assert t[n + 1..n + 1 + k] == s[n + 1..n + 1 + k];
    }
  }

  /** Without a clash a pattern and what follows it scan independently. */
  lemma {:induction false} Composes(s: string, pending: string, q: string)
    requires Clean(Tokens(s, pending)) && Clean(Tokens(q, "")) && !Clash(s, q)
    ensures Tokens(s + q, pending) == Join(Tokens(s, pending), Tokens(q, ""))
    decreases |s|
  {
    hide Tokens, ScanDirective, Join, Clean, Known, Merge;
    var t := Tokens(q, "");
    if s == "" {
      EndStep(pending);
      PendingMerges(q, pending, "");
      JoinFlush(pending, t);
      assert s + q == q && pending + "" == pending;
    } else if AtDirective(s) {
      CleanDirective(s, pending);
      var d := ScanDirective(s[1..]);
      var head, rest := Flush(pending) + [Dir(d.name, d.arg)], s[1 + d.len..];
      assert (s + q)[1..] == s[1..] + q && (s + q)[1 + d.len..] == rest + q && AtDirective(s + q);
      ScanExtends(s[1..], q);
      DirectiveTokens(s + q, pending);
      Composes(rest, "", q);
      JoinAfter(Flush(pending), Dir(d.name, d.arg), Tokens(rest, ""), t);
    } else {
      LongerText(s, q, pending);
      assert (s + q)[1..] == s[1..] + q;
      TextStep(s, pending);
      Composes(s[1..], pending + [s[0]], q);
    }
  }

  lemma JoinFlush(pending: string, t: seq<Token>)
    ensures Join(Flush(pending), t) == Merge(pending, t)
  {
  }

  lemma JoinAfter(a: seq<Token>, d: Token, b: seq<Token>, c: seq<Token>)
    requires d.Dir?
    ensures Join(a + ([d] + b), c) == a + ([d] + Join(b, c))
  {
    if b == [] {
      assert a + ([d] + b) == a + [d];
      assert Join(b, c) == c;
      Associate(a, [d], c);
    } else {
      Associate(a, [d], b);
      JoinBehind(a + [d], b, c);
      Associate(a, [d], Join(b, c));
    }
  }

  /** Text stays text when more follows, if the scan so far is clean. */
  lemma LongerText(s: string, q: string, pending: string)
    requires s != "" && !AtDirective(s)
    ensures (s + q)[0] == s[0] && !AtDirective(s + q)
    ensures Tokens(s + q, pending) == Tokens((s + q)[1..], pending + [s[0]])
  {
    assert |s| > 1 ==> (s + q)[1] == s[1];
  }

  // ----- the clash -----

  lemma MergeDiffers(text: string, tokens: seq<Token>)
    requires text != ""
    ensures Merge(text, tokens) != tokens
  {
    if tokens != [] && tokens[0].Lit? {
      assert Merge(text, tokens)[0] == Lit(text + tokens[0].text);
      assert |text + tokens[0].text| > |tokens[0].text|;
    }
  }

  /** A name that runs on is not a known one. */
  lemma LongName(s: string, q: string)
    requires s != "" && NameLen(s) == |s| && q != "" && NameChar(q[0])
    ensures NameLen(s + q) > 1
    ensures ScanDirective(s + q).Closed? ==> !Known(ScanDirective(s + q).name)
  {
    assert forall k :: 0 <= k < |s| ==> (s + q)[k] == s[k];
    assert (s + q)[|s|] == q[0];
  }

  lemma ScanBrace(t: string, n: nat)
    requires NameLen(t) == n < |t| && t[n] == '{' && ScanDirective(t).Closed?
    ensures CloseAt(t[n + 1..]) < |t[n + 1..]|
    ensures ScanDirective(t) == Closed(t[..n], t[n + 1..][..CloseAt(t[n + 1..])], n + CloseAt(t[n + 1..]) + 2)
  {
    hide NameLen, CloseAt;
    var k := CloseAt(t[n + 1..]);
    assert n + 1 + k < |t| ==> t[n + 1..][..k] == t[n + 1..n + 1 + k];
  }

  /** A bare directive followed by a brace takes an argument. */
  lemma BraceTaken(s: string, q: string)
    requires NameLen(s) == |s| && q != "" && q[0] == '{' && ScanDirective(s + q).Closed?
    ensures CloseAt(q[1..]) < |q[1..]|
    ensures ScanDirective(s + q) == Closed(s, q[1..][..CloseAt(q[1..])], |s| + CloseAt(q[1..]) + 2)
  {
    hide NameLen, CloseAt, ScanDirective;
    assert !NameChar('{');
    NameExtends(s, q);
    var t := s + q;
    assert t[|s|] == q[0];
    ScanBrace(t, |s|);
    assert t[|s| + 1..] == q[1..];
    assert t[..|s|] == s;
  }

  /** `s` is one directive without braces. */
  ghost predicate BareDirective(s: string) {
    AtDirective(s) && NameLen(s[1..]) == |s[1..]| && ScanDirective(s[1..]) == Closed(s[1..], "", |s| - 1)
  }

  lemma BareTokens(s: string, pending: string, t: seq<Token>)
    requires BareDirective(s)
    ensures Join(Tokens(s, pending), t) == Flush(pending) + ([Dir(s[1..], "")] + t)
  {
    hide Tokens, Join, Merge, ScanDirective;
    DirectiveTokens(s, pending);
    EndStep("");
    assert s[1 + (|s| - 1)..] == "";
    JoinAfter(Flush(pending), Dir(s[1..], ""), [], t);
    JoinFlush("", t);
    assert Flush("") == [] && Merge("", t) == t by { MergeNothing(t); }
  }

  lemma MergeNothing(t: seq<Token>)
    ensures Merge("", t) == t
  {
  }

  /** Where a bare directive meets text that continues it, the tokens go wrong. */
  lemma BareClashes(s: string, pending: string, q: string)
    requires BareDirective(s) && s[1..] != "" && Known(s[1..]) && Clean(Tokens(q, ""))
    requires q != "" && (NameChar(q[0]) || q[0] == '{')
    ensures Tokens(s + q, pending) != Flush(pending) + ([Dir(s[1..], "")] + Tokens(q, ""))
  {
    hide Tokens, NameLen, CloseAt, Clean, Known, ScanDirective;
    var name, t := s[1..], Tokens(q, "");
    assert (s + q)[1..] == name + q && AtDirective(s + q);
    DirectiveTokens(s + q, pending);
    match ScanDirective(name + q)
    case Open => FirstDiffers(pending, name, "", t, [Bad] + Tokens((s + q)[1..], pending));
    case Closed(name', arg', len) =>
      assert name' == name && arg' == "" ==> t != Tokens((s + q)[1 + len..], "") by {
        if NameChar(q[0]) { LongName(name, q); } else if arg' == "" { BraceClashes(name, q); }
        if name' == name && arg' == "" { assert (s + q)[1 + len..] == (name + q)[len..]; }
      }
      DirectiveDiffers(pending, Dir(name, ""), t, Dir(name', arg'), Tokens((s + q)[1 + len..], ""));
  }

  lemma BraceClashes(name: string, q: string)
    requires NameLen(name) == |name| && q != "" && q[0] == '{' && Clean(Tokens(q, ""))
    requires ScanDirective(name + q).Closed? && ScanDirective(name + q).arg == ""
    ensures Tokens(q, "") != Tokens((name + q)[ScanDirective(name + q).len..], "")
  {
    hide Tokens, NameLen, CloseAt, Clean, ScanDirective;
    BraceTaken(name, q);
    var k := CloseAt(q[1..]);
    CloseFound(q[1..]);
    assert k == 0 by { assert |q[1..][..k]| == k; }
    assert q == "{}" + q[2..];
    assert (name + q)[|name| + 2..] == q[2..];
    EmptyBraces(q, q[2..]);
  }

  lemma CloseFound(s: string)
    ensures CloseAt(s) < |s| ==> s[CloseAt(s)] == '}'
  {
  }

  lemma FirstDiffers(pending: string, name: string, arg: string, t: seq<Token>, bad: seq<Token>)
    requires bad != [] && bad[0] == Bad
    ensures Flush(pending) + ([Dir(name, arg)] + t) != bad
  {
  }

  lemma DirectiveDiffers(pending: string, d: Token, t: seq<Token>, d': Token, t': seq<Token>)
    requires d != d' || t != t'
    ensures Flush(pending) + ([d] + t) != Flush(pending) + ([d'] + t')
  {
    var n := |Flush(pending)|;
    var a, b := Flush(pending) + ([d] + t), Flush(pending) + ([d'] + t');
    assert a[n] == d && b[n] == d' && a[n + 1..] == t && b[n + 1..] == t';
  }

  /** Swallowing an empty pair of braces is noticed. */
  lemma EmptyBraces(q: string, rest: string)
    requires q == "{}" + rest && Clean(Tokens(q, ""))
    ensures Tokens(q, "") != Tokens(rest, "")
  {
    hide Tokens, Clean;
    assert q[1..] == "}" + rest && q[1..][1..] == rest;
    TextStep(q, "");
    TextStep(q[1..], ['{']);
    assert [] + [q[0]] == "{" && ['{'] + ['}'] == "{}";
    CleanAnyPending(rest, "{}", "");
    PendingMerges(rest, "{}", "");
    assert "{}" + "" == "{}";
    MergeDiffers("{}", Tokens(rest, ""));
  }

  lemma {:induction false} Clashes(s: string, pending: string, q: string)
    requires Clean(Tokens(s, pending)) && Clean(Tokens(q, "")) && Clash(s, q)
    ensures Tokens(s + q, pending) != Join(Tokens(s, pending), Tokens(q, ""))
    decreases |s|
  {
    hide Tokens, ScanDirective, Join, Clean;
    if AtDirective(s) {
      CleanDirective(s, pending);
      var d := ScanDirective(s[1..]);
      var rest := s[1 + d.len..];
      if rest == "" {
        BareIsBare(s);
        BareTokens(s, pending, Tokens(q, ""));
        BareClashes(s, pending, q);
      } else {
        assert (s + q)[1..] == s[1..] + q && (s + q)[1 + d.len..] == rest + q && AtDirective(s + q);
        ScanExtends(s[1..], q);
        DirectiveTokens(s + q, pending);
        Clashes(rest, "", q);
        JoinAfter(Flush(pending), Dir(d.name, d.arg), Tokens(rest, ""), Tokens(q, ""));
        DirectiveDiffers(pending, Dir(d.name, d.arg), Tokens(rest + q, ""),
                         Dir(d.name, d.arg), Join(Tokens(rest, ""), Tokens(q, "")));
      }
    } else {
      LongerText(s, q, pending);
      assert (s + q)[1..] == s[1..] + q;
      TextStep(s, pending);
      Clashes(s[1..], pending + [s[0]], q);
    }
  }

  lemma BareIsBare(s: string)
    requires AtDirective(s) && ScanDirective(s[1..]).Closed? && 1 + ScanDirective(s[1..]).len == |s| && EndsBare(s)
    ensures BareDirective(s) && ScanDirective(s[1..]).name == s[1..]
  {
  }

  /**
   Two accepted patterns in a row have the tokens of the first followed by the
   tokens of the second exactly when no directive runs on across the seam.
   */
  lemma TokensCompose(p: string, q: string)
    requires Accepted(p) && Accepted(q)
    ensures Tokens(p + q, "") == Join(Tokens(p, ""), Tokens(q, "")) <==> !Clash(p, q)
  {
    if Clash(p, q) {
      Clashes(p, "", q);
    } else {
      Composes(p, "", q);
    }
  }

  // ----- formatting -----

  /** `LogFormatter::format` of an accepted pattern. */
  function Format(p: string, e: LogEvent): string {
    RenderAll(Items(Tokens(p, "")), e)
  }

  lemma RenderAppend(a: seq<Token>, b: seq<Token>, e: LogEvent)
    ensures RenderAll(Items(a + b), e) == RenderAll(Items(a), e) + RenderAll(Items(b), e)
  {
    hide DirectiveItem, Render;
    if a == [] {
      assert a + b == b;
    } else {
      assert (a + b)[0] == a[0] && (a + b)[1..] == a[1..] + b;
      RenderAppend(a[1..], b, e);
    }
  }

  lemma RenderMerge(text: string, b: seq<Token>, e: LogEvent)
    ensures RenderAll(Items(Merge(text, b)), e) == text + RenderAll(Items(b), e)
  {
    hide RenderAll, Items;
    if text != "" {
      RenderAppend([Lit(text)], b, e);
      RenderOne(text, e);
      if b != [] && b[0].Lit? {
        RenderOne(b[0].text, e);
        RenderOne(text + b[0].text, e);
        RenderAppend([Lit(text + b[0].text)], b[1..], e);
        RenderAppend([b[0]], b[1..], e);
        assert [b[0]] + b[1..] == b;
      }
    }
  }

  lemma RenderOne(text: string, e: LogEvent)
    ensures RenderAll(Items([Lit(text)]), e) == text
  {
    assert RenderAll([Text(text)], e) == text + "";
    assert Items([Lit(text)]) == [Text(text)];
  }

  lemma RenderLast(front: seq<Token>, text: string, a: seq<Token>, e: LogEvent)
    requires a == front + [Lit(text)]
    ensures RenderAll(Items(a), e) == RenderAll(Items(front), e) + text
  {
    hide RenderAll, Items;
    RenderAppend(front, [Lit(text)], e);
    RenderOne(text, e);
  }

  lemma RenderJoin(a: seq<Token>, b: seq<Token>, e: LogEvent)
    ensures RenderAll(Items(Join(a, b)), e) == RenderAll(Items(a), e) + RenderAll(Items(b), e)
  {
    hide DirectiveItem, Render, RenderAll, Items, Merge;
    if a != [] && a[|a| - 1].Lit? {
      var front, text := a[..|a| - 1], a[|a| - 1].text;
      RenderAppend(front, Merge(text, b), e);
      RenderMerge(text, b, e);
      RenderLast(front, text, a, e);
      Associate(RenderAll(Items(front), e), text, RenderAll(Items(b), e));
    } else {
      RenderAppend(a, b, e);
    }
  }

  lemma JoinClean(a: seq<Token>, b: seq<Token>)
    requires Clean(a) && Clean(b)
    ensures Clean(Join(a, b))
  {
  }

  /** Without a clash the two patterns in a row are accepted and render every event as one after the other. */
  lemma FormattingComposes(p: string, q: string, e: LogEvent)
    requires Accepted(p) && Accepted(q) && !Clash(p, q)
    ensures Accepted(p + q) && Format(p + q, e) == Format(p, e) + Format(q, e)
  {
    TokensCompose(p, q);
    JoinClean(Tokens(p, ""), Tokens(q, ""));
    RenderJoin(Tokens(p, ""), Tokens(q, ""), e);
  }

  // ----- with a clash it renders less -----

  lemma RenderParts(pending: string, d: Token, rest: seq<Token>, e: LogEvent)
    ensures RenderAll(Items(Flush(pending) + ([d] + rest)), e) ==
            pending + (Render(ItemOf(d), e) + RenderAll(Items(rest), e))
  {
    hide RenderAll, Items, Render, ItemOf;
    RenderAppend(Flush(pending), [d] + rest, e);
    RenderAppend([d], rest, e);
    RenderSingle(d, e);
    RenderFlush(pending, e);
  }

  lemma RenderSingle(d: Token, e: LogEvent)
    ensures RenderAll(Items([d]), e) == Render(ItemOf(d), e)
  {
    hide Render, ItemOf;
    assert Items([d]) == [ItemOf(d)];
    assert RenderAll([ItemOf(d)], e) == Render(ItemOf(d), e) + "";
  }

  lemma RenderFlush(pending: string, e: LogEvent)
    ensures RenderAll(Items(Flush(pending)), e) == pending
  {
    if pending != "" { RenderOne(pending, e); }
  }

  /** Where the first closing brace stands, if `s` starts with a directive that has a known name. */
  lemma DirectiveCloses(s: string)
    requires AtDirective(s) && ScanDirective(s[1..]).Closed? && Known(ScanDirective(s[1..]).name)
    ensures var d := ScanDirective(s[1..]);
            || (d.len == 1 && |s| > 1 && CloseAt(s) == 2 + CloseAt(s[2..]))
            || CloseAt(s) == d.len < |s|
  {
    hide NameLen;
    var t := s[1..];
    var n := NameLen(t);
    NameSays(t);
    assert n == 1 && t[0] != '}' && t[1..] == s[2..];
    assert CloseAt(s) == 1 + CloseAt(t) == 2 + CloseAt(s[2..]);
    if n < |t| && t[n] == '{' {
      assert s[2..][1..] == t[n + 1..];
      assert CloseAt(s[2..]) == 1 + CloseAt(t[n + 1..]);
    }
  }

  lemma NameSays(t: string)
    requires ScanDirective(t).Closed? && Known(ScanDirective(t).name)
    ensures NameLen(t) == 1 <= |t| && IsAlpha(t[0])
    ensures ScanDirective(t).name == t[..1]
  {
    assert t[..NameLen(t)][0] == t[0];
  }

  /** A clean scan renders at least its pending text and whatever stands behind the first closing brace. */
  lemma {:induction false} RendersBehindBrace(s: string, pending: string, e: LogEvent)
    requires Clean(Tokens(s, pending)) && CloseAt(s) < |s|
    ensures |RenderAll(Items(Tokens(s, pending)), e)| >=
            |pending| + |RenderAll(Items(Tokens(s[CloseAt(s) + 1..], "")), e)|
    decreases |s|
  {
    hide Tokens, ScanDirective, RenderAll, Items, Clean, Known, CloseAt, Render, ItemOf;
    CloseStep(s);
    if AtDirective(s) {
      CleanDirective(s, pending);
      DirectiveCloses(s);
      var d := ScanDirective(s[1..]);
      RendersDirective(s, pending, e);
      if CloseAt(s) != d.len {
        Drops(s, 2, CloseAt(s[2..]) + 1);
        RendersBehindBrace(s[2..], "", e);
      }
    } else {
      TextStep(s, pending);
      var longer := pending + [s[0]];
      if s[0] == '}' {
        CleanAnyPending(s[1..], longer, "");
        PendingMerges(s[1..], longer, "");
        assert longer + "" == longer;
        RenderMerge(longer, Tokens(s[1..], ""), e);
      } else {
        Drops(s, 1, CloseAt(s[1..]) + 1);
        RendersBehindBrace(s[1..], longer, e);
      }
    }
  }

  lemma RendersDirective(s: string, pending: string, e: LogEvent)
    requires AtDirective(s) && ScanDirective(s[1..]).Closed?
    ensures |RenderAll(Items(Tokens(s, pending)), e)| >=
            |pending| + |RenderAll(Items(Tokens(s[1 + ScanDirective(s[1..]).len..], "")), e)|
  {
    hide Tokens, ScanDirective, RenderAll, Items, Render, ItemOf;
    DirectiveTokens(s, pending);
    var d := ScanDirective(s[1..]);
    RenderParts(pending, Dir(d.name, d.arg), Tokens(s[1 + d.len..], ""), e);
  }

  lemma Drops(s: string, i: nat, j: nat)
    requires i + j <= |s|
    ensures s[i..][j..] == s[i + j..]
  {
  }

  lemma CloseStep(s: string)
    requires CloseAt(s) < |s|
    ensures s[0] == '}' ==> CloseAt(s) == 0
    ensures s[0] != '}' ==> CloseAt(s) == 1 + CloseAt(s[1..])
  {
  }

  /** An event whose time stamp reads the same in every format. */
  ghost predicate Timeless(e: LogEvent) { forall f, g :: e.time(f) == e.time(g) }

  lemma ArgumentIrrelevant(name: string, arg: string, e: LogEvent)
    requires Known(name) && Timeless(e)
    ensures Render(DirectiveItem(name, arg), e) == Render(DirectiveItem(name, ""), e)
  {
  }

  lemma NameRunsOn(s: string, pending: string, q: string)
    requires BareDirective(s) && s[1..] != "" && q != "" && NameChar(q[0])
    ensures !Clean(Tokens(s + q, pending))
  {
    hide Tokens, NameLen, Known, ScanDirective, Clean;
    assert (s + q)[1..] == s[1..] + q && AtDirective(s + q);
    LongName(s[1..], q);
    if Clean(Tokens(s + q, pending)) { CleanDirective(s + q, pending); }
  }

  lemma BareRendersLess(s: string, pending: string, q: string, e: LogEvent)
    requires BareDirective(s) && s[1..] != "" && Known(s[1..]) && Clean(Tokens(q, "")) && Timeless(e)
    requires q != "" && q[0] == '{' && Clean(Tokens(s + q, pending))
    ensures |RenderAll(Items(Tokens(s + q, pending)), e)| <
            |RenderAll(Items(Tokens(s, pending)), e)| + |RenderAll(Items(Tokens(q, "")), e)|
  {
    hide Tokens, NameLen, CloseAt, Known, ScanDirective, Clean, RenderAll, Items, Render, DirectiveItem;
    var name, after := s[1..], q[1..];
    assert (s + q)[1..] == name + q && AtDirective(s + q);
    CleanDirective(s + q, pending);
    BraceTaken(name, q);
    var k := CloseAt(after);
    var arg, rest := after[..k], after[k + 1..];
    assert (s + q)[1 + (|name| + k + 2)..] == rest;
    RenderParts(pending, Dir(name, arg), Tokens(rest, ""), e);
    DirectiveTokens(s, pending);
    EndStep("");
    assert s[1 + (|s| - 1)..] == "";
    RenderParts(pending, Dir(name, ""), [], e);
    ArgumentIrrelevant(name, arg, e);
    TextStep(q, "");
    assert "" + [q[0]] == "{";
    RendersBehindBrace(after, "{", e);
  }

  lemma {:induction false} ClashRendersLess(s: string, pending: string, q: string, e: LogEvent)
    requires Clean(Tokens(s, pending)) && Clean(Tokens(q, "")) && Clash(s, q) && Timeless(e)
    requires Clean(Tokens(s + q, pending))
    ensures |RenderAll(Items(Tokens(s + q, pending)), e)| <
            |RenderAll(Items(Tokens(s, pending)), e)| + |RenderAll(Items(Tokens(q, "")), e)|
    decreases |s|
  {
    hide Tokens, ScanDirective, Clean, RenderAll, Items, Render, ItemOf, Known, Timeless;
    if AtDirective(s) {
      CleanDirective(s, pending);
      var d := ScanDirective(s[1..]);
      var rest := s[1 + d.len..];
      if rest == "" {
        BareIsBare(s);
        if NameChar(q[0]) { NameRunsOn(s, pending, q); } else { BareRendersLess(s, pending, q, e); }
      } else {
        assert (s + q)[1..] == s[1..] + q && (s + q)[1 + d.len..] == rest + q && AtDirective(s + q);
        ScanExtends(s[1..], q);
        CleanDirective(s + q, pending);
        RenderParts(pending, Dir(d.name, d.arg), Tokens(rest + q, ""), e);
        RenderParts(pending, Dir(d.name, d.arg), Tokens(rest, ""), e);
        ClashRendersLess(rest, "", q, e);
      }
    } else {
      LongerText(s, q, pending);
      assert (s + q)[1..] == s[1..] + q;
      TextStep(s, pending);
      ClashRendersLess(s[1..], pending + [s[0]], q, e);
    }
  }

  /**
   Two accepted patterns in a row are accepted and render every event as one
   after the other exactly when no directive runs on across the seam. With such
   a clash, if the whole is accepted at all, every event whose time stamp does
   not depend on the format renders shorter.
   */
  lemma ComposesExactly(p: string, q: string)
    requires Accepted(p) && Accepted(q)
    ensures !Clash(p, q) <==> Accepted(p + q) && forall e :: Format(p + q, e) == Format(p, e) + Format(q, e)
    ensures Clash(p, q) && Accepted(p + q) ==>
              forall e :: Timeless(e) ==> |Format(p + q, e)| < |Format(p, e)| + |Format(q, e)|
  {
    hide Clash, Accepted, Format;
    if !Clash(p, q) {
      forall e ensures Accepted(p + q) && Format(p + q, e) == Format(p, e) + Format(q, e) {
        FormattingComposes(p, q, e);
      }
      FormattingComposes(p, q, Blank());
    } else if Accepted(p + q) {
      forall e | Timeless(e) ensures |Format(p + q, e)| < |Format(p, e)| + |Format(q, e)| {
        ClashFormat(p, q, e);
      }
      assert Format(p + q, Blank()) != Format(p, Blank()) + Format(q, Blank()) by { BlankTimeless(); }
    }
  }

  lemma ClashFormat(p: string, q: string, e: LogEvent)
    requires Accepted(p) && Accepted(q) && Accepted(p + q) && Clash(p, q) && Timeless(e)
    ensures |Format(p + q, e)| < |Format(p, e)| + |Format(q, e)|
  {
    ClashRendersLess(p, "", q, e);
  }

  function Blank(): LogEvent { LogEvent("", "", "", "", "", _ => "", "", "", "", "") }

  lemma BlankTimeless()
    ensures Timeless(Blank())
  {
  }
}
