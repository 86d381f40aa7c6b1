/**
  The query lexer (internal/query/lexer.go). A source is a string of bytes, one
  char each, that is ASCII outside string and regex literals.
 */
module QueryLexer {
  import opened Text
  import Q = Query

  /** Bad stands for a lexing error. */
  datatype Token =
    | EOF
    | Ident(text: string)
    | Str(text: string)
    | Number(text: string)
    | Bool(b: bool)
    | Regex(text: string)
    | AndKw
    | OrKw
    | NotKw
    | LParen
    | RParen
    | Dot
    | LBrack
    | RBrack
    | Compare(op: Q.Op)
    | Bad

  // ---- Characters ----

  predicate IsDigit(c: char) {
    '0' <= c <= '9'
  }

  predicate IsLetter(c: char) {
    'a' <= c <= 'z' || 'A' <= c <= 'Z'
  }

  predicate IsIdentStart(c: char) {
    c == '_' || IsLetter(c)
  }

  predicate IsIdentPart(c: char) {
    c == '_' || IsLetter(c) || IsDigit(c)
  }

  predicate IsNumberStart(c: char) {
    c == '-' || c == '+' || IsDigit(c)
  }

  predicate IsNumberPart(c: char) {
    IsDigit(c) || c == '.' || c == 'e' || c == 'E' || c == '-' || c == '+'
  }

  function LowerChar(c: char): char {
    if 'A' <= c <= 'Z' then (c as int + 32) as char else c
  }

  function ToLower(s: string): string {
    seq(|s|, i requires 0 <= i < |s| => LowerChar(s[i]))
  }

  function Unescaped(c: char): char {
    if c == 'n' then '\n' else if c == 't' then '\t' else c
  }

  // ---- Literals and words ----

  /** The text of a literal whose opening mark is consumed, and what follows. */
  datatype Scan = Unclosed | Closed(text: string, rest: string)

  function Prefixed(text: string, scan: Scan): Scan {
    if scan.Closed? then scan.(text := text + scan.text) else Unclosed
  }

  function ScanString(s: string, quote: char): (r: Scan)
    ensures r.Closed? ==> |r.rest| < |s|
  {
    if s == [] then Unclosed
    else if s[0] == '\\' && |s| > 1 then Prefixed([Unescaped(s[1])], ScanString(s[2..], quote))
    else if s[0] == quote then Closed([], s[1..])
    else Prefixed([s[0]], ScanString(s[1..], quote))
  }

  function ScanRegex(s: string): (r: Scan)
    ensures r.Closed? ==> |r.rest| < |s|
  {
    if s == [] then Unclosed
    else if s[0] == '\\' && |s| > 1 then Prefixed([s[0], s[1]], ScanRegex(s[2..]))
    else if s[0] == '/' then Closed([], s[1..])
    else Prefixed([s[0]], ScanRegex(s[1..]))
  }

  lemma PrefixedTwice(a: string, b: string, scan: Scan)
    ensures Prefixed(a, Prefixed(b, scan)) == Prefixed(a + b, scan)
  {
    if scan.Closed? {
      assert a + (b + scan.text) == a + b + scan.text;
    }
  }

  lemma NoPrefix(scan: Scan)
    ensures Prefixed("", scan) == scan
  {
    if scan.Closed? {
      assert "" + scan.text == scan.text;
    }
  }

  lemma PrefixedClosed(text: string, rest: string)
    ensures Prefixed(text, Closed([], rest)) == Closed(text, rest)
  {
    assert text + [] == text;
  }

  lemma PrefixedUnclosed(text: string)
    ensures Prefixed(text, Unclosed) == Unclosed
  {
  }

  lemma ScanStringAt(src: string, pos: nat, quote: char)
    requires pos <= |src|
    ensures ScanString(src[pos..], quote)
         == if pos == |src| then Unclosed
            else if src[pos] == '\\' && pos + 1 < |src| then
              Prefixed([Unescaped(src[pos + 1])], ScanString(src[pos + 2..], quote))
            else if src[pos] == quote then Closed([], src[pos + 1..])
            else Prefixed([src[pos]], ScanString(src[pos + 1..], quote))
  {
  }

  lemma ScanRegexAt(src: string, pos: nat)
    requires pos <= |src|
    ensures ScanRegex(src[pos..])
         == if pos == |src| then Unclosed
            else if src[pos] == '\\' && pos + 1 < |src| then
              Prefixed([src[pos], src[pos + 1]], ScanRegex(src[pos + 2..]))
            else if src[pos] == '/' then Closed([], src[pos + 1..])
            else Prefixed([src[pos]], ScanRegex(src[pos + 1..]))
  {
  }

  function NumberLen(s: string): (n: nat)
    ensures n <= |s| && (s != [] && IsNumberPart(s[0]) ==> n > 0)
    ensures forall i :: 0 <= i < n ==> IsNumberPart(s[i])
  {
    if s != [] && IsNumberPart(s[0]) then 1 + NumberLen(s[1..]) else 0
  }

  function IdentLen(s: string): (n: nat)
    ensures n <= |s| && (s != [] && IsIdentPart(s[0]) ==> n > 0)
    ensures forall i :: 0 <= i < n ==> IsIdentPart(s[i])
  {
    if s != [] && IsIdentPart(s[0]) then 1 + IdentLen(s[1..]) else 0
  }

  /** An identifier, unless it is a keyword in any case. */
  function Word(text: string): Token {
    var lower := ToLower(text);
    if lower == "and" then AndKw
    else if lower == "or" then OrKw
    else if lower == "not" then NotKw
    else if lower == "true" then Bool(true)
    else if lower == "false" then Bool(false)
    else Ident(text)
  }

  // ---- Tokens ----

  datatype Lexed = Lexed(tok: Token, rest: string)

  function Peek(s: string, n: nat): char {
    if n < |s| then s[n] else '\0'
  }

  /** The token at the start of a text that does not start with a space. */
  function TokenAt(s: string): (l: Lexed)
    ensures l.tok.EOF? <==> s == []
    ensures !l.tok.EOF? && !l.tok.Bad? ==> |l.rest| < |s|
  {
    if s == [] then Lexed(EOF, s)
    else
      var c := s[0];
      if c == '(' then Lexed(LParen, s[1..])
      else if c == ')' then Lexed(RParen, s[1..])
      else if c == '.' then Lexed(Dot, s[1..])
      else if c == '[' then Lexed(LBrack, s[1..])
      else if c == ']' then Lexed(RBrack, s[1..])
      else if c == '"' || c == '\'' then StringAt(s)
      else if c == '/' then RegexAt(s)
      else if c == '=' then (if Peek(s, 1) == '~' then Lexed(Compare(Q.Re), s[2..]) else Lexed(Compare(Q.Eq), s[1..]))
      else if c == '!' then
        (if Peek(s, 1) == '=' then Lexed(Compare(Q.Ne), s[2..])
         else if Peek(s, 1) == '~' then Lexed(Compare(Q.Nre), s[2..])
         else Lexed(Bad, s))
      else if c == '<' then (if Peek(s, 1) == '=' then Lexed(Compare(Q.Le), s[2..]) else Lexed(Compare(Q.Lt), s[1..]))
      else if c == '>' then (if Peek(s, 1) == '=' then Lexed(Compare(Q.Ge), s[2..]) else Lexed(Compare(Q.Gt), s[1..]))
      else if c == ':' then Lexed(Compare(Q.Contains), s[1..])
      else if IsNumberStart(c) then Lexed(Number(s[..NumberLen(s)]), s[NumberLen(s)..])
      else if IsIdentStart(c) then Lexed(Word(s[..IdentLen(s)]), s[IdentLen(s)..])
      else Lexed(Bad, s)
  }

  function StringAt(s: string): (l: Lexed)
    requires s != []
    ensures !l.tok.EOF? && (!l.tok.Bad? ==> |l.rest| < |s|)
  {
    match ScanString(s[1..], s[0])
    case Unclosed => Lexed(Bad, s)
    case Closed(text, rest) => Lexed(Str(text), rest)
  }

  function RegexAt(s: string): (l: Lexed)
    requires s != []
    ensures !l.tok.EOF? && (!l.tok.Bad? ==> |l.rest| < |s|)
  {
    match ScanRegex(s[1..])
    case Unclosed => Lexed(Bad, s)
    case Closed(text, rest) => Lexed(Regex(text), rest)
  }

  function NextToken(src: string): Lexed {
    TokenAt(AfterSpace(src))
  }

  /** All tokens up to the end of the source or the first error. */
  function Tokens(src: string): seq<Token>
    decreases |src|
  {
    var l := NextToken(src);
    if l.tok.EOF? then []
    else if l.tok.Bad? then [Bad]
    else [l.tok] + Tokens(l.rest)
  }

  // ---- The lexer ----

  class Lexer {
    const src: string
    var pos: nat

    ghost predicate Valid()
      reads this
    {
      pos <= |src|
    }

    ghost function Rest(): string
      requires Valid()
      reads this
    {
      src[pos..]
    }

    constructor (src: string)
      ensures Valid() && this.src == src && Rest() == src
    {
      this.src, pos := src, 0;
    }

    /** The next token, or Bad. */
    method Next() returns (t: Token)
      requires Valid()
      modifies this
      ensures Valid() && t == NextToken(old(Rest())).tok
      ensures !t.Bad? ==> Rest() == NextToken(old(Rest())).rest
    {
      SkipSpace();
      if pos >= |src| {
        return EOF;
      }
      var c := src[pos];
      match c {
        case '(' => t := Take(LParen, 1);
        case ')' => t := Take(RParen, 1);
        case '.' => t := Take(Dot, 1);
        case '[' => t := Take(LBrack, 1);
        case ']' => t := Take(RBrack, 1);
        case '"' => t := LexString(c);
        case '\'' => t := LexString(c);
        case '/' => t := LexRegex();
        case '=' =>
          if PeekAt(1) == '~' { t := Take(Compare(Q.Re), 2); } else { t := Take(Compare(Q.Eq), 1); }
        case '!' =>
          if PeekAt(1) == '=' {
            t := Take(Compare(Q.Ne), 2);
          } else if PeekAt(1) == '~' {
            t := Take(Compare(Q.Nre), 2);
          } else {
            t := Bad;
          }
        case '<' =>
          if PeekAt(1) == '=' { t := Take(Compare(Q.Le), 2); } else { t := Take(Compare(Q.Lt), 1); }
        case '>' =>
          if PeekAt(1) == '=' { t := Take(Compare(Q.Ge), 2); } else { t := Take(Compare(Q.Gt), 1); }
        case ':' => t := Take(Compare(Q.Contains), 1);
        case _ =>
          if IsNumberStart(c) {
            t := LexNumber();
          } else if IsIdentStart(c) {
            t := LexIdent();
          } else {
            t := Bad;
          }
      }
    }

    function PeekAt(n: nat): char
      requires Valid()
      reads this
      ensures PeekAt(n) == Peek(Rest(), n)
    {
      if pos + n < |src| then src[pos + n] else '\0'
    }

    method Take(tok: Token, n: nat) returns (t: Token)
      requires Valid() && pos + n <= |src|
      modifies this
      ensures Valid() && t == tok && Rest() == old(Rest())[n..]
    {
      pos := pos + n;
      t := tok;
    }

    method SkipSpace()
      requires Valid()
      modifies this
      ensures Valid() && Rest() == AfterSpace(old(Rest()))
    {
      while pos < |src| && IsSpace(src[pos])
        invariant Valid() && AfterSpace(Rest()) == AfterSpace(old(Rest()))
      {
        assert src[pos..][1..] == src[pos + 1..];
        pos := pos + 1;
      }
    }

    method LexString(quote: char) returns (t: Token)
      requires Valid() && pos < |src| && src[pos] == quote
      modifies this
      ensures Valid() && t == StringAt(old(Rest())).tok
      ensures !t.Bad? ==> Rest() == StringAt(old(Rest())).rest
    {
      hide ScanString, Prefixed, Unescaped;
      assert Rest()[1..] == src[pos + 1..];
      ghost var body := src[pos + 1..];
      pos := pos + 1;
      var sb := "";
      NoPrefix(ScanString(body, quote));
      while pos < |src|
        invariant Valid() && ScanString(body, quote) == Prefixed(sb, ScanString(src[pos..], quote))
        decreases |src| - pos
      {
        var c := src[pos];
        ScanStringAt(src, pos, quote);
        if c == '\\' && pos + 1 < |src| {
          PrefixedTwice(sb, [Unescaped(src[pos + 1])], ScanString(src[pos + 2..], quote));
          sb := sb + [Unescaped(src[pos + 1])];
          pos := pos + 2;
          continue;
        }
        if c == quote {
          pos := pos + 1;
          PrefixedClosed(sb, Rest());
          return Str(sb);
        }
        PrefixedTwice(sb, [c], ScanString(src[pos + 1..], quote));
        sb := sb + [c];
        pos := pos + 1;
      }
      ScanStringAt(src, pos, quote);
      PrefixedUnclosed(sb);
      t := Bad;
    }

    method LexRegex() returns (t: Token)
      requires Valid() && pos < |src|
      modifies this
      ensures Valid() && t == RegexAt(old(Rest())).tok
      ensures !t.Bad? ==> Rest() == RegexAt(old(Rest())).rest
    {
      hide ScanRegex, Prefixed, Unescaped;
      assert Rest()[1..] == src[pos + 1..];
      ghost var body := src[pos + 1..];
      pos := pos + 1;
      var sb := "";
      NoPrefix(ScanRegex(body));
      while pos < |src|
        invariant Valid() && ScanRegex(body) == Prefixed(sb, ScanRegex(src[pos..]))
        decreases |src| - pos
      {
        var c := src[pos];
        ScanRegexAt(src, pos);
        if c == '\\' && pos + 1 < |src| {
          PrefixedTwice(sb, [c, src[pos + 1]], ScanRegex(src[pos + 2..]));
          sb := sb + [c, src[pos + 1]];
          pos := pos + 2;
          continue;
        }
        if c == '/' {
          pos := pos + 1;
          PrefixedClosed(sb, Rest());
          return Regex(sb);
        }
        PrefixedTwice(sb, [c], ScanRegex(src[pos + 1..]));
        sb := sb + [c];
        pos := pos + 1;
      }
      ScanRegexAt(src, pos);
      PrefixedUnclosed(sb);
      t := Bad;
    }

    method LexNumber() returns (t: Token)
      requires Valid() && pos < |src| && IsNumberStart(src[pos])
      modifies this
      ensures Valid() && var n := NumberLen(old(Rest())); t == Number(old(Rest())[..n]) && Rest() == old(Rest())[n..]
    {
      hide IsDigit;
      ghost var start := Rest();
      var from := pos;
      if src[pos] == '-' || src[pos] == '+' {
        assert start[1..] == src[pos + 1..];
        pos := pos + 1;
      }
      while pos < |src| && IsNumberPart(src[pos])
        invariant Valid() && from <= pos && NumberLen(start) == pos - from + NumberLen(Rest())
      {
        assert Rest()[1..] == src[pos + 1..];
        pos := pos + 1;
      }
      t := Number(src[from..pos]);
      assert start[..pos - from] == src[from..pos];
    }

    method LexIdent() returns (t: Token)
      requires Valid() && pos < |src| && IsIdentStart(src[pos])
      modifies this
      ensures Valid() && var n := IdentLen(old(Rest())); t == Word(old(Rest())[..n]) && Rest() == old(Rest())[n..]
    {
      hide IsDigit, IsLetter, Word, IsIdentPart, IsIdentStart;
      ghost var start := Rest();
      var from := pos;
      while pos < |src| && IsIdentPart(src[pos])
        invariant Valid() && from <= pos && IdentLen(start) == pos - from + IdentLen(Rest())
      {
        assert Rest()[1..] == src[pos + 1..];
        pos := pos + 1;
      }
      t := Word(src[from..pos]);
      assert start[..pos - from] == src[from..pos];
    }
  }
}
