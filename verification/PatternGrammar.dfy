/**
 The log pattern language, as a grammar over the rest of the pattern: text,
 directives `%name` and `%name{arg}`, longest names first.
 */
module PatternGrammar {

  datatype Token = Lit(text: string) | Dir(name: string, arg: string) | Bad

  predicate IsAlpha(c: char) { 'a' <= c <= 'z' || 'A' <= c <= 'Z' }

  /** The characters a directive's name runs over; a stray closing brace is one of them. */
  predicate NameChar(c: char) { IsAlpha(c) || c == '}' }

  /** Length of the longest name at the head of `s`. */
  function NameLen(s: string): (n: nat)
    ensures n <= |s| && (forall k :: 0 <= k < n ==> NameChar(s[k])) && (n < |s| ==> !NameChar(s[n]))
  {
    if s == "" || !NameChar(s[0]) then 0 else 1 + NameLen(s[1..])
  }

  /** Index of the first closing brace, or the length. */
  function CloseAt(s: string): (n: nat)
    ensures n <= |s| && (forall k :: 0 <= k < n ==> s[k] != '}') && (n < |s| ==> s[n] == '}')
  {
    if s == "" || s[0] == '}' then 0 else 1 + CloseAt(s[1..])
  }

  datatype Directive = Closed(name: string, arg: string, len: nat) | Open

  /** The directive whose `%` stands right before `s`; `len` is how much of `s` belongs to it. */
  function ScanDirective(s: string): (d: Directive)
    ensures d.Closed? ==> d.len <= |s|
  {
    var n := NameLen(s);
    if n < |s| && s[n] == '{' then
      var k := CloseAt(s[n + 1..]);
      if n + 1 + k < |s| then Closed(s[..n], s[n + 1..n + 1 + k], n + k + 2) else Open
    else Closed(s[..n], "", n)
  }

  function Flush(pending: string): seq<Token> {
    if pending == "" then [] else [Lit(pending)]
  }

  /**
   The tokens of `s` behind the text `pending`. Of `%%` only the first character
   is text; and an unclosed directive leaves the pending text pending.
   */
  function Tokens(s: string, pending: string): seq<Token>
    decreases |s|
  {
    if s == "" then Flush(pending)
    else if s[0] != '%' || (|s| > 1 && s[1] == '%') then Tokens(s[1..], pending + [s[0]])
    else
      match ScanDirective(s[1..])
      case Closed(name, arg, len) => Flush(pending) + [Dir(name, arg)] + Tokens(s[1 + len..], "")
      case Open => [Bad] + Tokens(s[1..], pending)
  }

  predicate Known(name: string) {
    |name| == 1 && name[0] in {'m', 'p', 'r', 'c', 't', 'n', 'd', 'f', 'l', 'T', 'F', 'N'}
  }

  predicate Faulty(t: Token) { t.Bad? || (t.Dir? && !Known(t.name)) }

  predicate Clean(tokens: seq<Token>) {
    forall i :: 0 <= i < |tokens| ==> !Faulty(tokens[i])
  }

  predicate Accepted(p: string) { Clean(Tokens(p, "")) }

  // ----- what the tokens stand for (log.cc:62-183, 278-308) -----

  datatype Item =
    | Text(text: string) | Message | Level | Elapse | LoggerName | ThreadId | NewLine
    | DateTime(format: string) | File | Line | Tab | FiberId | ThreadName

  /** A logger's formatter until it is given another one. */
  const DEFAULT_PATTERN :=
    "%d{%Y-%m-%d %H:%M:%S}" + ("%T%t%T%N%T%F%T" + ("[%p]%T[%c]%T" + "%f:%l%T%m%n"))

  const DEFAULT_TIME := "%Y-%m-%d %H:%M:%S"

  function DirectiveItem(name: string, arg: string): Item {
    match name
    case "m" => Message
    case "p" => Level
    case "r" => Elapse
    case "c" => LoggerName
    case "t" => ThreadId
    case "n" => NewLine
    case "d" => DateTime(if arg == "" then DEFAULT_TIME else arg)
    case "f" => File
    case "l" => Line
    case "T" => Tab
    case "F" => FiberId
    case "N" => ThreadName
    case _ => Text("<<error_format %" + name + ">>")
  }

  function ItemOf(t: Token): Item {
    match t
    case Lit(text) => Text(text)
    case Dir(name, arg) => DirectiveItem(name, arg)
    case Bad => Text("<<pattern_error>>")
  }

  function Items(tokens: seq<Token>): (items: seq<Item>)
    ensures |items| == |tokens| && forall i :: 0 <= i < |tokens| ==> items[i] == ItemOf(tokens[i])
  {
    if tokens == [] then [] else [ItemOf(tokens[0])] + Items(tokens[1..])
  }

  /** What one log event offers to the items; `time` renders its time stamp in a format. */
  datatype LogEvent = LogEvent(content: string, level: string, elapse: string, logger: string, threadId: string,
                               time: string -> string, file: string, line: string, fiberId: string, threadName: string)

  function Render(item: Item, e: LogEvent): string {
    match item
    case Text(text) => text
    case Message => e.content
    case Level => e.level
    case Elapse => e.elapse
    case LoggerName => e.logger
    case ThreadId => e.threadId
    case NewLine => "\n"
    case DateTime(format) => e.time(format)
    case File => e.file
    case Line => e.line
    case Tab => "\t"
    case FiberId => e.fiberId
    case ThreadName => e.threadName
  }

  function RenderAll(items: seq<Item>, e: LogEvent): string {
    if items == [] then "" else Render(items[0], e) + RenderAll(items[1..], e)
  }
}
