/** `LogFormatter::init` with its index loops, refining the pattern grammar. */
module LogFormatter {
  import opened Common
  import opened PatternGrammar

  class Formatter {
    const pattern: string
    var items: seq<Item>
    var error: bool

    constructor (pattern: string)
      ensures this.pattern == pattern
      ensures items == Items(Tokens(pattern, "")) && error == !Accepted(pattern)
    {
      this.pattern := pattern;
      items, error := [], false;
      new;
      Init();
    }

    /**
     The inner scanner, from the `%` at index `i`: `n` ends up behind the
     directive, `status` is 1 exactly when its brace is never closed.
     */
    method ScanAt(i: nat) returns (n: nat, str: string, fmt: string, status: int)
      requires i < |pattern| && pattern[i] == '%'
      ensures i < n <= |pattern| && (status == 0 || status == 1)
      ensures status == 0 ==> ScanDirective(pattern[i + 1..]) == Closed(str, fmt, n - i - 1)
      ensures status == 1 ==> ScanDirective(pattern[i + 1..]) == Open && fmt == ""
    {
      hide ScanDirective, NameLen, CloseAt, NamePart, ArgPart;
      n, str, fmt, status := i + 1, "", "", 0;
      var begin := 0;
      ghost var s := pattern[i + 1..];
      PartsGrow(s, 0, 0);
      while n < |pattern|
        invariant i < n <= |pattern| && (status == 0 || status == 1) && fmt == ""
        invariant status == 0 ==> NamePart(s, n - i - 1) && str == if n == |pattern| then s else ""
        invariant status == 1 ==> i < begin < n && ArgPart(s, begin - i - 1, n - i - 1)
        invariant status == 1 && n < |pattern| ==> str == s[..begin - i - 1]
      {
        assert pattern[n] == s[n - i - 1];
        PartsGrow(s, n - i - 1, begin - i - 1);
        if status == 0 && !IsAlpha(pattern[n]) && pattern[n] != '{' && pattern[n] != '}' {
          str := pattern[i + 1..n];
          NameEnds(s, n - i - 1);
          return;
        }
        if status == 0 {
          if pattern[n] == '{' {
            str := pattern[i + 1..n];
            status := 1;
            begin := n;
            n := n + 1;
            continue;
          }
        } else if status == 1 {
          if pattern[n] == '}' {
            fmt := pattern[begin + 1..n];
            status := 0;
            ArgEnds(s, begin - i - 1, n - i - 1);
            SliceAt(pattern, i + 1, begin - i, n - i - 1);
            n := n + 1;
            return;
          }
        }
        n := n + 1;
        if n == |pattern| {
          if str == "" {
            str := pattern[i + 1..];
          }
        }
      }
      if status == 0 {
        NameEnds(s, n - i - 1);
      } else {
        ArgEnds(s, begin - i - 1, n - i - 1);
      }
    }

    /** The outer loop of `init`: the pattern as tuples, the pending text in `nstr`. */
    method Scan() returns (vec: seq<(string, string, int)>, ghost done: seq<Token>)
      requires !error
      modifies this`error
      ensures done == Tokens(pattern, "") && vec == Vec(done) && error == (Bad in done)
    {
      hide Tokens, Vec, Flush, ScanDirective;
      var nstr, i := "", 0;
      vec, done := [], [];
      StartScan(pattern);
      while i < |pattern|
        invariant 0 <= i <= |pattern|
        invariant done + Tokens(pattern[i..], nstr) == Tokens(pattern, "")
        invariant vec == Vec(done) && error == (Bad in done)
        decreases |pattern| - i
      {
        if pattern[i] != '%' {
          TextStep(pattern, i, nstr);
          nstr := nstr + [pattern[i]];
          i := i + 1;
          continue;
        }
        if i + 1 < |pattern| {
          if pattern[i + 1] == '%' {
            TextStep(pattern, i, nstr);
            nstr := nstr + "%";
            i := i + 1;
            continue;
          }
        }
        var n, str, fmt, status := ScanAt(i);
        if status == 0 {
          ClosedStep(pattern, i, n, str, fmt, nstr, done);
          VecFlush(done, nstr);
          done := done + Flush(nstr);
          if nstr != "" {
            vec := vec + [(nstr, "", 0)];
            nstr := "";
          }
          VecPush(done, Dir(str, fmt));
          vec := vec + [(str, fmt, 1)];
          done := done + [Dir(str, fmt)];
          i := n - 1;
        } else if status == 1 {
          OpenStep(pattern, i, nstr, done);
          error := true;
          VecPush(done, Bad);
          vec := vec + [("<<pattern_error>>", fmt, 0)];
          done := done + [Bad];
        }
        i := i + 1;
      }
      LastStep(pattern, nstr);
      VecFlush(done, nstr);
      done := done + Flush(nstr);
      if nstr != "" {
        vec := vec + [(nstr, "", 0)];
      }
    }

    /** The second loop of `init`: a format item for every tuple. */
    method Build(vec: seq<(string, string, int)>, ghost tokens: seq<Token>)
      requires items == [] && vec == Vec(tokens) && error == (Bad in tokens)
      modifies this`items, this`error
      ensures items == Items(tokens) && error == !Clean(tokens)
    {
      hide DirectiveItem, Known, Vec, Items;
      VecOf(tokens);
      var i := 0;
      while i < |vec|
        invariant 0 <= i <= |vec| && |items| == i
        invariant forall k :: 0 <= k < i ==> items[k] == ItemOf(tokens[k])
        invariant error == (Bad in tokens || exists k :: 0 <= k < i && Faulty(tokens[k]))
      {
        if vec[i].2 == 0 {
          items := items + [Text(vec[i].0)];
        } else if Known(vec[i].0) {
          items := items + [DirectiveItem(vec[i].0, vec[i].1)];
        } else {
          assert Faulty(tokens[i]);
          UnknownItem(vec[i].0, vec[i].1);
          items := items + [Text("<<error_format %" + vec[i].0 + ">>")];
          error := true;
        }
        i := i + 1;
      }
      AllItems(tokens, items);
    }

    /** `format`: every item writes its part, in order. */
    method Format(e: LogEvent) returns (text: string)
      ensures text == RenderAll(items, e)
    {
      hide Render, RenderAll;
      text := "";
      for i := 0 to |items|
        invariant text + RenderAll(items[i..], e) == RenderAll(items, e)
      {
        RenderNext(items, i, e);
        Associate(text, Render(items[i], e), RenderAll(items[i + 1..], e));
        text := text + Render(items[i], e);
      }
      RenderNothing(e);
      assert items[|items|..] == [] && text + "" == text;
    }

    method Init()
      requires items == [] && !error
      modifies this
      ensures items == Items(Tokens(pattern, "")) && error == !Accepted(pattern)
    {
      ghost var tokens;
      var vec;
      vec, tokens := Scan();
      Build(vec, tokens);
    }
  }

  /** The tuple `init` keeps for a token. */
  function Triple(t: Token): (string, string, int) {
    match t
    case Lit(text) => (text, "", 0)
    case Dir(name, arg) => (name, arg, 1)
    case Bad => ("<<pattern_error>>", "", 0)
  }

  function Vec(tokens: seq<Token>): (vec: seq<(string, string, int)>)
    ensures |vec| == |tokens| && forall i :: 0 <= i < |tokens| ==> vec[i] == Triple(tokens[i])
  {
    if tokens == [] then [] else [Triple(tokens[0])] + Vec(tokens[1..])
  }

  lemma VecOf(tokens: seq<Token>)
    ensures |Vec(tokens)| == |tokens| && forall i :: 0 <= i < |tokens| ==> Vec(tokens)[i] == Triple(tokens[i])
  {
  }

  lemma VecPush(tokens: seq<Token>, t: Token)
    ensures Vec(tokens + [t]) == Vec(tokens) + [Triple(t)]
  {
    VecOf(tokens);
    VecOf(tokens + [t]);
  }

  lemma VecFlush(tokens: seq<Token>, pending: string)
    ensures Vec(tokens + Flush(pending)) == if pending == "" then Vec(tokens) else Vec(tokens) + [(pending, "", 0)]
    ensures Bad in tokens + Flush(pending) <==> Bad in tokens
  {
    hide Vec;
    if pending == "" {
      assert tokens + Flush(pending) == tokens;
    } else {
      VecPush(tokens, Lit(pending));
    }
  }

  lemma StartScan(p: string)
    ensures Vec([]) == [] && [] + Tokens(p[0..], "") == Tokens(p, "")
  {
    assert p[0..] == p;
  }

  lemma AllItems(tokens: seq<Token>, items: seq<Item>)
    requires |items| == |tokens| && forall k :: 0 <= k < |items| ==> items[k] == ItemOf(tokens[k])
    ensures items == Items(tokens)
  {
    hide ItemOf;
  }

  lemma UnknownItem(name: string, arg: string)
    requires !Known(name)
    ensures DirectiveItem(name, arg) == Text("<<error_format %" + name + ">>")
  {
  }

  // ----- one step of the grammar, by index -----

  lemma RenderNext(items: seq<Item>, i: nat, e: LogEvent)
    requires i < |items|
    ensures RenderAll(items[i..], e) == Render(items[i], e) + RenderAll(items[i + 1..], e)
  {
    hide Render;
    assert items[i..][1..] == items[i + 1..];
  }

  lemma RenderNothing(e: LogEvent)
    ensures RenderAll([], e) == ""
  {
  }

  lemma SliceAt(p: string, i: nat, a: nat, b: nat)
    requires i <= |p| && a <= b <= |p| - i
    ensures p[i..][a..b] == p[i + a..i + b]
  {
  }

  lemma TextStep(p: string, i: nat, pending: string)
    requires i < |p| && (p[i] != '%' || (i + 1 < |p| && p[i + 1] == '%'))
    ensures Tokens(p[i..], pending) == Tokens(p[i + 1..], pending + [p[i]])
  {
    hide ScanDirective;
    assert p[i..][1..] == p[i + 1..];
  }

  lemma ClosedStep(p: string, i: nat, n: nat, name: string, arg: string, pending: string, done: seq<Token>)
    requires i < n <= |p| && p[i] == '%' && !(i + 1 < |p| && p[i + 1] == '%')
    requires ScanDirective(p[i + 1..]) == Closed(name, arg, n - i - 1)
    ensures done + Tokens(p[i..], pending) == done + Flush(pending) + [Dir(name, arg)] + Tokens(p[n..], "")
  {
    hide ScanDirective, Flush;
    assert p[i..][1..] == p[i + 1..] && p[i..][n - i..] == p[n..];
    var rest := Tokens(p[n..], "");
    assert Tokens(p[i..], pending) == Flush(pending) + [Dir(name, arg)] + rest;
    Associate(done, Flush(pending), [Dir(name, arg)] + rest);
    Associate(Flush(pending), [Dir(name, arg)], rest);
    Associate(done + Flush(pending), [Dir(name, arg)], rest);
  }

  lemma OpenStep(p: string, i: nat, pending: string, done: seq<Token>)
    requires i < |p| && p[i] == '%' && !(i + 1 < |p| && p[i + 1] == '%')
    requires ScanDirective(p[i + 1..]) == Open
    ensures done + Tokens(p[i..], pending) == done + [Bad] + Tokens(p[i + 1..], pending)
  {
    hide ScanDirective;
    assert p[i..][1..] == p[i + 1..];
    assert Tokens(p[i..], pending) == [Bad] + Tokens(p[i + 1..], pending);
    Associate(done, [Bad], Tokens(p[i + 1..], pending));
  }

  lemma LastStep(p: string, pending: string)
    ensures Tokens(p[|p|..], pending) == Flush(pending)
  {
  }

  ghost predicate NamePart(s: string, n: int) {
    0 <= n <= |s| && forall k :: 0 <= k < n ==> NameChar(s[k])
  }

  /** A name, a brace at `b`, and no closing brace from there up to `e`. */
  ghost predicate ArgPart(s: string, b: int, e: int) {
    NamePart(s, b) && b < e <= |s| && s[b] == '{' && forall k :: b < k < e ==> s[k] != '}'
  }

  /** One more character of a name or an argument. */
  lemma PartsGrow(s: string, n: int, b: int)
    ensures NamePart(s, 0)
    ensures NamePart(s, n) && n < |s| && NameChar(s[n]) ==> NamePart(s, n + 1)
    ensures NamePart(s, n) && n < |s| && s[n] == '{' ==> ArgPart(s, n, n + 1)
    ensures ArgPart(s, b, n) && n < |s| && s[n] != '}' ==> ArgPart(s, b, n + 1)
  {
  }

  /** A name ended by another character or by the pattern. */
  lemma NameEnds(s: string, n: nat)
    requires NamePart(s, n) && (n < |s| ==> !NameChar(s[n]) && s[n] != '{')
    ensures ScanDirective(s) == Closed(s[..n], "", n)
  {
  }

  lemma ArgEnds(s: string, b: nat, e: nat)
    requires ArgPart(s, b, e)
    ensures e == |s| ==> ScanDirective(s) == Open
    ensures e < |s| && s[e] == '}' ==> ScanDirective(s) == Closed(s[..b], s[b + 1..e], e + 1)
  {
    assert NameLen(s) == b;
    var t := s[b + 1..];
    assert forall k :: 0 <= k < e - b - 1 ==> t[k] == s[b + 1 + k];
    assert e < |s| ==> t[e - b - 1] == s[e];
  }
}
