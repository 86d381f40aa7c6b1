/**
  A printer for query expressions, and the proof that the lexer and the parser
  undo it. It writes parentheses only where precedence needs them, and field
  keys and regular expressions as escaped string literals.
 */
module QueryPrinter {
  import opened Model
  import opened QueryLexer
  import opened QueryParser
  import Text
  import Q = Query

  // ---- Tokens of an expression ----

  function Brackets(path: seq<string>): seq<Token> {
    if path == [] then [] else [LBrack, Str(path[0]), RBrack] + Brackets(path[1..])
  }

  function FieldTokens(f: Q.FieldRef): seq<Token> {
    match f.kind
    case Envelope => [Ident(f.name)]
    case Label => [Ident("label")] + Brackets([f.name])
    case Annotation => [Ident("annotation")] + Brackets([f.name])
    case Body => [Ident("body")] + Brackets(f.path)
  }

  function LiteralToken(lib: Q.Library, op: Q.Op, lit: Q.Value, re: string): Token {
    if op.Re? || op.Nre? then Str(re)
    else
      match lit
      case Str(s) => Str(s)
      case Num(n) => Number(lib.formatFloat(n))
      case Bool(b) => Bool(b)
      case Null => Str("")
  }

  /** 0 for an or, 1 for an and, 2 for a not, 3 for what needs no parentheses. */
  function Level(n: Q.Node): nat {
    match n
    case Or(_, _) => 0
    case And(_, _) => 1
    case Not(_) => 2
    case _ => 3
  }

  function Bare(lib: Q.Library, n: Q.Node): seq<Token>
    decreases n, 0
  {
    match n
    case MatchAll => []
    case Or(l, r) => Print(lib, l, 0) + [OrKw] + Print(lib, r, 1)
    case And(l, r) => Print(lib, l, 1) + [AndKw] + Print(lib, r, 2)
    case Not(x) => [NotKw] + Print(lib, x, 2)
    case Exists(f) => FieldTokens(f)
    case Cmp(f, op, lit, re) => FieldTokens(f) + [Compare(op), LiteralToken(lib, op, lit, re)]
  }

  /** The tokens of n where at least level `prec` is expected. */
  function Print(lib: Q.Library, n: Q.Node, prec: nat): seq<Token>
    decreases n, 1
  {
    if Level(n) < prec then [LParen] + Bare(lib, n) + [RParen] else Bare(lib, n)
  }

  // ---- Source text ----

  function Escape(s: string): string {
    if s == [] then [] else EscapeChar(s[0]) + Escape(s[1..])
  }

  function EscapeChar(c: char): string {
    if c == '"' || c == '\\' then ['\\', c] else [c]
  }

  function OpText(op: Q.Op): string {
    match op
    case Eq => "="
    case Ne => "!="
    case Re => "=~"
    case Nre => "!~"
    case Lt => "<"
    case Le => "<="
    case Gt => ">"
    case Ge => ">="
    case Contains => ":"
  }

  function TokenText(t: Token): string {
    match t
    case Ident(text) => text
    case Str(text) => "\"" + Escape(text) + "\""
    case Number(text) => text
    case Bool(b) => if b then "true" else "false"
    case Regex(text) => "/" + text + "/"
    case AndKw => "and"
    case OrKw => "or"
    case NotKw => "not"
    case LParen => "("
    case RParen => ")"
    case Dot => "."
    case LBrack => "["
    case RBrack => "]"
    case Compare(op) => OpText(op)
    case EOF => ""
    case Bad => ""
  }

  function Render(ts: seq<Token>): string {
    if ts == [] then "" else TokenText(ts[0]) + " " + Render(ts[1..])
  }

  /** The source of an expression. */
  function Source(lib: Q.Library, n: Q.Node): string {
    Render(Print(lib, n, 0))
  }

  // ---- What the parser can make ----

  predicate IsName(s: string) {
    && s != [] && IsIdentStart(s[0])
    && (forall i :: 0 <= i < |s| ==> IsIdentPart(s[i]))
    && Word(s) == Ident(s)
  }

  predicate IsNumber(s: string) {
    s != [] && IsNumberStart(s[0]) && forall i :: 0 <= i < |s| ==> IsNumberPart(s[i])
  }

  /** The number's text is a number token that reads back as the number. */
  predicate PrintsBack(lib: Q.Library, n: Q.Float) {
    IsNumber(lib.formatFloat(n)) && lib.parseFloat(lib.formatFloat(n)) == Some(n)
  }

  predicate FieldOk(f: Q.FieldRef) {
    match f.kind
    case Envelope => IsName(f.name) && "_" <= f.name && f.path == []
    case Label => f.path == []
    case Annotation => f.path == []
    case Body => f.name == "" && f.path != []
  }

  predicate LiteralOk(lib: Q.Library, op: Q.Op, lit: Q.Value, re: string) {
    if op.Re? || op.Nre? then lit.Null? && lib.compiles(re)
    else
      && re == "" && !lit.Null?
      && (op.Contains? ==> lit.Str?)
      && (lit.Num? ==> PrintsBack(lib, lit.n))
  }

  predicate NodeOk(lib: Q.Library, n: Q.Node) {
    match n
    case MatchAll => false
    case Or(l, r) => NodeOk(lib, l) && NodeOk(lib, r)
    case And(l, r) => NodeOk(lib, l) && NodeOk(lib, r)
    case Not(x) => NodeOk(lib, x)
    case Exists(f) => FieldOk(f)
    case Cmp(f, op, lit, re) => FieldOk(f) && LiteralOk(lib, op, lit, re)
  }

  /** Every tree the parser can make of some source. */
  predicate Writable(lib: Q.Library, n: Q.Node) {
    n.MatchAll? || NodeOk(lib, n)
  }

  // ---- Lexing undoes rendering ----

  predicate Plain(t: Token) {
    match t
    case Ident(text) => IsName(text)
    case Number(text) => IsNumber(text)
    case Regex(_) => false
    case EOF => false
    case Bad => false
    case _ => true
  }

  lemma ScanOne(c: char, tail: string)
    requires tail != []
    ensures ScanString(EscapeChar(c) + tail, '"') == Prefixed([c], ScanString(tail, '"'))
  {
    var all := EscapeChar(c) + tail;
    assert all[|EscapeChar(c)|..] == tail;
  }

  lemma {:induction false} ScanEscaped(s: string, rest: string)
    ensures ScanString(Escape(s) + "\"" + rest, '"') == Closed(s, rest)
  {
    hide ScanString;
    if s == [] {
      ScanEnd(rest);
      assert Escape(s) + "\"" + rest == "\"" + rest;
    } else {
      var tail := Escape(s[1..]) + "\"" + rest;
      ScanEscaped(s[1..], rest);
      ScanOne(s[0], tail);
      assert Escape(s) + "\"" + rest == EscapeChar(s[0]) + tail;
      assert s == [s[0]] + s[1..];
    }
  }

  lemma ScanEnd(rest: string)
    ensures ScanString("\"" + rest, '"') == Closed([], rest)
  {
    assert ("\"" + rest)[1..] == rest;
  }

  lemma {:induction false} NumberSpan(s: string, rest: string)
    requires forall i :: 0 <= i < |s| ==> IsNumberPart(s[i])
    requires rest != [] && !IsNumberPart(rest[0])
    ensures NumberLen(s + rest) == |s|
  {
    if s == [] {
      assert s + rest == rest;
    } else {
      NumberSpan(s[1..], rest);
      assert (s + rest)[1..] == s[1..] + rest;
    }
  }

  lemma {:induction false} IdentSpan(s: string, rest: string)
    requires forall i :: 0 <= i < |s| ==> IsIdentPart(s[i])
    requires rest != [] && !IsIdentPart(rest[0])
    ensures IdentLen(s + rest) == |s|
  {
    if s == [] {
      assert s + rest == rest;
    } else {
      IdentSpan(s[1..], rest);
      assert (s + rest)[1..] == s[1..] + rest;
    }
  }

  lemma WordBack(s: string, rest: string)
    requires s != [] && IsIdentStart(s[0]) && forall i :: 0 <= i < |s| ==> IsIdentPart(s[i])
    requires rest != [] && rest[0] == ' '
    ensures TokenAt(s + rest) == Lexed(Word(s), rest)
  {
    IdentSpan(s, rest);
    assert (s + rest)[..|s|] == s && (s + rest)[|s|..] == rest;
    assert (s + rest)[0] == s[0];
  }

  lemma Keywords()
    ensures Word("and") == AndKw && Word("or") == OrKw && Word("not") == NotKw
    ensures Word("true") == Bool(true) && Word("false") == Bool(false)
  {
    assert ToLower("and") == "and" && ToLower("or") == "or" && ToLower("not") == "not";
    assert ToLower("true") == "true" && ToLower("false") == "false";
  }

  lemma NumberBack(s: string, rest: string)
    requires IsNumber(s) && rest != [] && rest[0] == ' '
    ensures TokenAt(s + rest) == Lexed(Number(s), rest)
  {
    NumberSpan(s, rest);
    assert (s + rest)[..|s|] == s && (s + rest)[|s|..] == rest;
    assert (s + rest)[0] == s[0];
  }

  lemma StringBack(s: string, rest: string)
    ensures TokenAt("\"" + Escape(s) + "\"" + rest) == Lexed(Str(s), rest)
  {
    var all := "\"" + Escape(s) + "\"" + rest;
    ScanEscaped(s, rest);
    assert all[1..] == Escape(s) + "\"" + rest;
    assert all[0] == '"';
  }

  /** A regular expression in which every slash is escaped. */
  predicate SlashFree(t: string) {
    if t == [] then true
    else if t[0] == '\\' then |t| > 1 && SlashFree(t[2..])
    else t[0] != '/' && SlashFree(t[1..])
  }

  lemma ScanRegexOne(unit: string, tail: string)
    requires tail != []
    requires (|unit| == 2 && unit[0] == '\\') || (|unit| == 1 && unit[0] != '\\' && unit[0] != '/')
    ensures ScanRegex(unit + tail) == Prefixed(unit, ScanRegex(tail))
  {
    hide Prefixed;
    var all := unit + tail;
    assert all[|unit|..] == tail && all[0] == unit[0];
    if |unit| == 2 {
      assert [all[0], all[1]] == unit;
    } else {
      assert [all[0]] == unit;
    }
  }

  lemma ScanRegexEnd(rest: string)
    ensures ScanRegex("/" + rest) == Closed([], rest)
  {
    assert ("/" + rest)[1..] == rest;
  }

  lemma {:induction false} ScanRegexBack(t: string, rest: string)
    requires SlashFree(t)
    ensures ScanRegex(t + "/" + rest) == Closed(t, rest)
    decreases |t|
  {
    hide ScanRegex;
    if t == [] {
      ScanRegexEnd(rest);
      assert t + "/" + rest == "/" + rest;
    } else {
      var n := if t[0] == '\\' then 2 else 1;
      ScanRegexBack(t[n..], rest);
      ScanRegexOne(t[..n], t[n..] + "/" + rest);
      assert t + "/" + rest == t[..n] + (t[n..] + "/" + rest);
      assert t == t[..n] + t[n..];
    }
  }

  /** A regular expression literal is taken verbatim, escapes and all. */
  lemma RegexBack(t: string, rest: string)
    requires SlashFree(t)
    ensures TokenAt("/" + t + "/" + rest) == Lexed(Regex(t), rest)
  {
    hide ScanRegex, StringAt, NumberLen, IdentLen, Word, SlashFree, Peek, IsNumberStart, IsIdentStart;
    var all := "/" + t + "/" + rest;
    ScanRegexBack(t, rest);
    assert all[0] == '/' && all[1..] == t + "/" + rest;
  }

  lemma CompareBack(op: Q.Op, rest: string)
    requires rest != [] && rest[0] == ' '
    ensures TokenAt(OpText(op) + rest) == Lexed(Compare(op), rest)
  {
    hide StringAt, RegexAt, NumberLen, IdentLen, Word, IsNumberStart, IsIdentStart;
    var text := OpText(op);
    var all := text + rest;
    assert all[|text|..] == rest && all[0] == text[0];
    assert Peek(all, 1) == if |text| == 2 then text[1] else ' ';
  }

  lemma MarkBack(t: Token, rest: string)
    requires t.LParen? || t.RParen? || t.Dot? || t.LBrack? || t.RBrack? || t.Compare?
    requires rest != [] && rest[0] == ' '
    ensures TokenAt(TokenText(t) + rest) == Lexed(t, rest)
  {
    hide StringAt, RegexAt, NumberLen, IdentLen, Word, Escape, IsNumberStart, IsIdentStart, OpText;
    var all := TokenText(t) + rest;
    if t.Compare? {
      CompareBack(t.op, rest);
    } else {
      assert |TokenText(t)| == 1 && all[0] == TokenText(t)[0] && all[1..] == rest;
    }
  }

  /** One token's text lexes as that token. */
  lemma TokenBack(t: Token, rest: string)
    requires Plain(t) && rest != [] && rest[0] == ' '
    ensures TokenAt(TokenText(t) + rest) == Lexed(t, rest)
  {
    hide TokenAt, Word, Escape;
    Keywords();
    match t
    case Ident(text) => WordBack(text, rest);
    case Str(text) => StringBack(text, rest);
    case Number(text) => NumberBack(text, rest);
    case Bool(b) => WordBack(TokenText(t), rest);
    case AndKw => WordBack("and", rest);
    case OrKw => WordBack("or", rest);
    case NotKw => WordBack("not", rest);
    case _ => MarkBack(t, rest);
  }

  lemma InkFirst(t: Token, rest: string)
    requires Plain(t)
    ensures TokenText(t) != [] && Text.AfterSpace(TokenText(t) + rest) == TokenText(t) + rest
  {
    var all := TokenText(t) + rest;
    assert all[0] == TokenText(t)[0];
  }

  lemma SpaceSkipped(s: string)
    ensures Tokens(" " + s) == Tokens(s)
  {
    assert (" " + s)[1..] == s;
  }

  predicate AllPlain(ts: seq<Token>) {
    forall i :: 0 <= i < |ts| ==> Plain(ts[i])
  }

  lemma PlainIsProper(t: Token)
    requires Plain(t)
    ensures !t.EOF? && !t.Bad?
  {
  }

  lemma NothingLexed()
    ensures Tokens("") == []
  {
    assert Text.AfterSpace("") == "";
  }

  lemma TokensFrom(s: string, t: Token, rest: string)
    requires NextToken(s) == Lexed(t, rest) && !t.EOF? && !t.Bad?
    ensures Tokens(s) == [t] + Tokens(rest)
  {
  }

  /** The lexer undoes rendering. */
  lemma {:induction false} LexUndoesRender(ts: seq<Token>)
    requires AllPlain(ts)
    ensures Tokens(Render(ts)) == ts
  {
    hide TokenAt, TokenText, Plain, Tokens;
    if ts == [] {
      NothingLexed();
    } else {
      var rest := " " + Render(ts[1..]);
      LexUndoesRender(ts[1..]);
      TokenBack(ts[0], rest);
      InkFirst(ts[0], rest);
      SpaceSkipped(Render(ts[1..]));
      PlainIsProper(ts[0]);
      TokensFrom(TokenText(ts[0]) + rest, ts[0], rest);
      assert Render(ts) == TokenText(ts[0]) + rest;
      assert ts == [ts[0]] + ts[1..];
    }
  }
}
