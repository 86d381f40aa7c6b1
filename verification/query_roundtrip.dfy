/**
  Parsing undoes printing, and the printer covers exactly the expressions the
  parser can make.
 */
module QueryRoundTrip {
  import opened Model
  import opened QueryLexer
  import opened QueryParser
  import opened QueryPrinter
  import Text
  import Q = Query

  // ---- Printed tokens are plain ----

  lemma {:induction false} BracketsPlain(path: seq<string>)
    ensures AllPlain(Brackets(path))
  {
    if path != [] {
      BracketsPlain(path[1..]);
    }
  }

  lemma FieldWords()
    ensures IsName("label") && IsName("annotation") && IsName("body")
    ensures !("_" <= "label") && !("_" <= "annotation") && !("_" <= "body")
  {
    assert ToLower("label") == "label" && ToLower("annotation") == "annotation" && ToLower("body") == "body";
    assert "label"[0] == 'l' && "annotation"[0] == 'a' && "body"[0] == 'b';
  }

  lemma FieldPlain(f: Q.FieldRef)
    requires FieldOk(f)
    ensures AllPlain(FieldTokens(f)) && FieldTokens(f) != [] && FieldTokens(f)[0].Ident?
  {
    FieldWords();
    BracketsPlain([f.name]);
    BracketsPlain(f.path);
  }

  lemma PlainConcat(a: seq<Token>, b: seq<Token>)
    requires AllPlain(a) && AllPlain(b)
    ensures AllPlain(a + b)
  {
  }

  lemma {:induction false} BarePlain(lib: Q.Library, n: Q.Node)
    requires NodeOk(lib, n)
    ensures AllPlain(Bare(lib, n)) && Bare(lib, n) != []
    ensures Starts(Bare(lib, n)[0])
    decreases n, 0
  {
    hide FieldTokens, FieldOk, IsName, IsNumber;
    match n
    case Or(l, r) => PrintPlain(lib, l, 0); PrintPlain(lib, r, 1);
    case And(l, r) => PrintPlain(lib, l, 1); PrintPlain(lib, r, 2);
    case Not(x) => PrintPlain(lib, x, 2);
    case Exists(f) => FieldPlain(f);
    case Cmp(f, op, lit, re) =>
      FieldPlain(f);
      PlainConcat(FieldTokens(f), [Compare(op), LiteralToken(lib, op, lit, re)]);
  }

  /** The tokens an expression can start with. */
  predicate Starts(t: Token) {
    t.LParen? || t.NotKw? || t.Ident?
  }

  lemma {:induction false} PrintPlain(lib: Q.Library, n: Q.Node, prec: nat)
    requires NodeOk(lib, n)
    ensures AllPlain(Print(lib, n, prec)) && Print(lib, n, prec) != []
    ensures Starts(Print(lib, n, prec)[0])
    decreases n, 1
  {
    BarePlain(lib, n);
  }

  // ---- Parsing undoes printing ----

  /** What may follow a printed operand. */
  predicate Follows(ts: seq<Token>) {
    Cur(ts).EOF? || Cur(ts).RParen? || Cur(ts).OrKw? || Cur(ts).AndKw?
  }

  lemma AdvancePast(t: Token, ts: seq<Token>)
    requires !Cur(ts).Bad?
    ensures Advance([t] + ts) == Some(ts) && Cur([t] + ts) == t
  {
    assert ([t] + ts)[1..] == ts;
  }

  lemma OneBracket(parts: seq<string>, key: string, tail: seq<Token>)
    requires parts != [] && !Cur(tail).Bad?
    ensures FieldTail(parts, [LBrack] + ([Str(key)] + ([RBrack] + tail))) == FieldTail(parts + [key], tail)
  {
    AdvancePast(RBrack, tail);
    AdvancePast(Str(key), [RBrack] + tail);
    AdvancePast(LBrack, [Str(key)] + ([RBrack] + tail));
  }

  lemma NoBrackets(parts: seq<string>, rest: seq<Token>)
    requires parts != [] && !Cur(rest).Dot? && !Cur(rest).LBrack?
    ensures FieldTail(parts, rest) == Done(Classify(parts), rest)
  {
  }

  /** A path in brackets, one key at a time, in front of something that is no error. */
  lemma BracketsStep(path: seq<string>, rest: seq<Token>)
    requires !Cur(rest).Bad?
    ensures !Cur(Brackets(path) + rest).Bad?
    ensures path == [] ==> Brackets(path) + rest == rest
    ensures path != [] ==>
      Brackets(path) + rest == [LBrack] + ([Str(path[0])] + ([RBrack] + (Brackets(path[1..]) + rest)))
  {
    hide Brackets;
    BracketsHead(path);
    if path == [] {
      assert [] + rest == rest;
    } else {
      Regroup([LBrack, Str(path[0]), RBrack], Brackets(path[1..]), rest);
      var more := Brackets(path[1..]) + rest;
      assert [LBrack, Str(path[0]), RBrack] + more == [LBrack] + ([Str(path[0])] + ([RBrack] + more));
    }
  }

  lemma BracketsHead(path: seq<string>)
    ensures Brackets(path) == if path == [] then [] else [LBrack, Str(path[0]), RBrack] + Brackets(path[1..])
  {
  }

  lemma Regroup(a: seq<Token>, b: seq<Token>, c: seq<Token>)
    ensures a + b + c == a + (b + c)
  {
  }

  lemma {:induction false} BracketsBack(parts: seq<string>, path: seq<string>, rest: seq<Token>)
    requires parts != [] && !Cur(rest).Dot? && !Cur(rest).LBrack? && !Cur(rest).Bad?
    ensures FieldTail(parts, Brackets(path) + rest) == Done(Classify(parts + path), rest)
    decreases |path|
  {
    hide FieldTail, Classify, Brackets, Cur;
    BracketsStep(path, rest);
    if path == [] {
      NoBrackets(parts, rest);
      assert parts + path == parts;
    } else {
      BracketsBack(parts + [path[0]], path[1..], rest);
      BracketsStep(path[1..], rest);
      OneBracket(parts, path[0], Brackets(path[1..]) + rest);
      assert parts + path == parts + [path[0]] + path[1..];
    }
  }

  function Dotted(names: seq<string>): seq<Token> {
    if names == [] then [] else [Dot, Ident(names[0])] + Dotted(names[1..])
  }

  lemma DottedStep(names: seq<string>, rest: seq<Token>)
    requires !Cur(rest).Bad?
    ensures !Cur(Dotted(names) + rest).Bad?
    ensures names == [] ==> Dotted(names) + rest == rest
    ensures names != [] ==> Dotted(names) + rest == [Dot] + ([Ident(names[0])] + (Dotted(names[1..]) + rest))
  {
    if names == [] {
      assert Dotted(names) + rest == rest;
    } else {
      Regroup([Dot, Ident(names[0])], Dotted(names[1..]), rest);
      var more := Dotted(names[1..]) + rest;
      assert [Dot, Ident(names[0])] + more == [Dot] + ([Ident(names[0])] + more);
    }
  }

  /** A dotted path gives the same field as the bracketed one. */
  lemma {:induction false} DottedBack(parts: seq<string>, names: seq<string>, rest: seq<Token>)
    requires parts != [] && !Cur(rest).Dot? && !Cur(rest).LBrack? && !Cur(rest).Bad?
    ensures FieldTail(parts, Dotted(names) + rest) == FieldTail(parts, Brackets(names) + rest)
    decreases |names|
  {
    hide FieldTail, Classify, Brackets, Dotted, Cur;
    DottedStep(names, rest);
    BracketsStep(names, rest);
    if names != [] {
      DottedBack(parts + [names[0]], names[1..], rest);
      DottedStep(names[1..], rest);
      BracketsStep(names[1..], rest);
      OneDot(parts, names[0], Dotted(names[1..]) + rest);
      OneBracket(parts, names[0], Brackets(names[1..]) + rest);
    }
  }

  lemma OneDot(parts: seq<string>, name: string, tail: seq<Token>)
    requires parts != [] && !Cur(tail).Bad?
    ensures FieldTail(parts, [Dot] + ([Ident(name)] + tail)) == FieldTail(parts + [name], tail)
  {
    AdvancePast(Ident(name), tail);
    AdvancePast(Dot, [Ident(name)] + tail);
  }

  lemma FieldParts(f: Q.FieldRef)
    requires FieldOk(f)
    ensures FieldTokens(f) == [Ident(HeadWord(f))] + Brackets(PathAfter(f))
    ensures Classify([HeadWord(f)] + PathAfter(f)) == f
  {
    hide Brackets;
    ClassifyBack(f);
    BracketsHead([]);
  }

  lemma FieldBack(f: Q.FieldRef, rest: seq<Token>)
    requires FieldOk(f) && !Cur(rest).Dot? && !Cur(rest).LBrack? && !Cur(rest).Bad?
    ensures var ts := FieldTokens(f) + rest; Cur(ts).Ident? && Field(ts) == Done(f, rest)
  {
    hide FieldTokens, FieldTail, Classify, HeadWord, PathAfter, FieldOk, Advance;
    FieldParts(f);
    var head, path := HeadWord(f), PathAfter(f);
    var tail := Brackets(path) + rest;
    assert FieldTokens(f) + rest == [Ident(head)] + tail;
    assert !Cur(tail).Bad?;
    AdvancePast(Ident(head), tail);
    BracketsBack([head], path, rest);
  }

  /** The printed field: a word and the path in brackets. */
  function HeadWord(f: Q.FieldRef): string {
    match f.kind case Envelope => f.name case Label => "label" case Annotation => "annotation" case Body => "body"
  }

  function PathAfter(f: Q.FieldRef): seq<string> {
    match f.kind case Envelope => [] case Label => [f.name] case Annotation => [f.name] case Body => f.path
  }

  lemma ClassifyBack(f: Q.FieldRef)
    requires FieldOk(f)
    ensures Classify([HeadWord(f)] + PathAfter(f)) == f
  {
    FieldWords();
    assert (["body"] + f.path)[1..] == f.path;
    assert ["label", f.name][1..] == [f.name] && ["annotation", f.name][1..] == [f.name];
  }

  lemma LiteralBack(lib: Q.Library, f: Q.FieldRef, op: Q.Op, lit: Q.Value, re: string)
    requires LiteralOk(lib, op, lit, re)
    ensures CompareTo(lib, f, op, LiteralToken(lib, op, lit, re)) == Some(Q.Cmp(f, op, lit, re))
  {
  }

  lemma AtomBack(lib: Q.Library, n: Q.Node, rest: seq<Token>)
    requires NodeOk(lib, n) && (n.Exists? || n.Cmp?) && Follows(rest)
    ensures Primary(lib, Bare(lib, n) + rest) == Done(n, rest)
  {
    match n
    case Exists(f) => FieldBack(f, rest);
    case Cmp(f, op, lit, re) =>
      var t := LiteralToken(lib, op, lit, re);
      var tail := [Compare(op)] + ([t] + rest);
      assert Bare(lib, n) + rest == FieldTokens(f) + tail;
      FieldBack(f, tail);
      AdvancePast(t, rest);
      AdvancePast(Compare(op), [t] + rest);
      LiteralBack(lib, f, op, lit, re);
  }

  /** A parenthesised expression parses as the expression. */
  lemma {:induction false} ParenBack(lib: Q.Library, n: Q.Node, rest: seq<Token>)
    requires NodeOk(lib, n) && Follows(rest) && (n.Or? || n.And?)
    ensures Primary(lib, [LParen] + Bare(lib, n) + [RParen] + rest) == Done(n, rest)
    decreases n, if n.Or? then 1 else 2
  {
    var close := [RParen] + rest;
    OrBack(lib, n, close);
    BarePlain(lib, n);
    var inner := Bare(lib, n) + close;
    assert inner[0] == Bare(lib, n)[0];
    assert [LParen] + Bare(lib, n) + [RParen] + rest == [LParen] + inner;
    AdvancePast(LParen, inner);
    AdvancePast(RParen, rest);
  }

  lemma {:induction false} NotBack(lib: Q.Library, n: Q.Node, rest: seq<Token>)
    requires NodeOk(lib, n) && Follows(rest)
    ensures NotExpr(lib, Print(lib, n, 2) + rest) == Done(n, rest)
    decreases n, if n.Or? then 2 else if n.And? then 3 else 0
  {
    hide AndExpr, OrExpr, Primary, FieldOk, LiteralOk, LiteralToken, FieldTokens;
    if n.Or? || n.And? {
      ParenBack(lib, n, rest);
      assert Cur(Print(lib, n, 2) + rest) == LParen;
    } else if n.Not? {
      NotBack(lib, n.x, rest);
      PrintPlain(lib, n.x, 2);
      var inner := Print(lib, n.x, 2) + rest;
      assert inner[0] == Print(lib, n.x, 2)[0];
      assert Print(lib, n, 2) + rest == [NotKw] + inner;
      AdvancePast(NotKw, inner);
    } else {
      AtomBack(lib, n, rest);
      BarePlain(lib, n);
      AtomStart(lib, n, rest);
    }
  }

  lemma AtomStart(lib: Q.Library, n: Q.Node, rest: seq<Token>)
    requires NodeOk(lib, n) && (n.Exists? || n.Cmp?)
    ensures Print(lib, n, 2) == Bare(lib, n) && Cur(Bare(lib, n) + rest).Ident?
  {
  }

  /** And binds tighter than or, looser than not, and associates to the left. */
  lemma {:induction false} AndBack(lib: Q.Library, n: Q.Node, rest: seq<Token>)
    requires NodeOk(lib, n) && Follows(rest)
    ensures AndExpr(lib, Print(lib, n, 1) + rest) == AndTail(lib, n, rest)
    decreases n, if n.Or? then 3 else if n.And? then 0 else 1
  {
    hide NotExpr, OrExpr, FieldOk, LiteralOk, LiteralToken, FieldTokens;
    if n.And? {
      var after := Print(lib, n.r, 2) + rest;
      PrintPlain(lib, n.r, 2);
      assert after[0] == Print(lib, n.r, 2)[0];
      AndBack(lib, n.l, [AndKw] + after);
      NotBack(lib, n.r, rest);
      AdvancePast(AndKw, after);
      assert Print(lib, n, 1) + rest == Print(lib, n.l, 1) + ([AndKw] + after);
    } else {
      NotBack(lib, n, rest);
      assert Print(lib, n, 1) == Print(lib, n, 2);
    }
  }

  /** Or binds loosest and associates to the left. */
  lemma {:induction false} OrBack(lib: Q.Library, n: Q.Node, rest: seq<Token>)
    requires NodeOk(lib, n) && Follows(rest) && !Cur(rest).AndKw?
    ensures OrExpr(lib, Bare(lib, n) + rest) == OrTail(lib, n, rest)
    decreases n, if n.Or? then 0 else if n.And? then 1 else 2
  {
    hide AndExpr, NotExpr, FieldOk, LiteralOk, LiteralToken, FieldTokens;
    if n.Or? {
      var after := Print(lib, n.r, 1) + rest;
      PrintPlain(lib, n.r, 1);
      assert after[0] == Print(lib, n.r, 1)[0];
      OrBack(lib, n.l, [OrKw] + after);
      AndBack(lib, n.r, rest);
      AdvancePast(OrKw, after);
      assert Print(lib, n.l, 0) == Bare(lib, n.l);
      assert Bare(lib, n) + rest == Bare(lib, n.l) + ([OrKw] + after);
    } else {
      AndBack(lib, n, rest);
      assert Print(lib, n, 1) == Bare(lib, n);
    }
  }

  /** Unparenthesised operands group by precedence, then to the left. */
  lemma Grouping(lib: Q.Library, a: Q.Node, b: Q.Node, c: Q.Node)
    requires NodeOk(lib, a) && NodeOk(lib, b) && NodeOk(lib, c)
    requires Level(a) == 3 && Level(b) == 3 && Level(c) == 3
    ensures var x, y, z := Bare(lib, a), Bare(lib, b), Bare(lib, c);
      && OrExpr(lib, [NotKw] + x + [AndKw] + y + [OrKw] + z) == Done(Q.Or(Q.And(Q.Not(a), b), c), [])
      && OrExpr(lib, x + [OrKw] + (y + [AndKw] + z)) == Done(Q.Or(a, Q.And(b, c)), [])
      && OrExpr(lib, x + [OrKw] + y + [OrKw] + z) == Done(Q.Or(Q.Or(a, b), c), [])
      && OrExpr(lib, x + [AndKw] + y + [AndKw] + z) == Done(Q.And(Q.And(a, b), c), [])
  {
    hide OrExpr, Bare;
    NotTokens(lib, a);
    AndTokens(lib, Q.Not(a), b);
    OrTokens(lib, Q.And(Q.Not(a), b), c);
    WholeBack(lib, Q.Or(Q.And(Q.Not(a), b), c));
    AndTokens(lib, b, c);
    OrTokens(lib, a, Q.And(b, c));
    WholeBack(lib, Q.Or(a, Q.And(b, c)));
    OrTokens(lib, a, b);
    OrTokens(lib, Q.Or(a, b), c);
    WholeBack(lib, Q.Or(Q.Or(a, b), c));
    AndTokens(lib, a, b);
    AndTokens(lib, Q.And(a, b), c);
    WholeBack(lib, Q.And(Q.And(a, b), c));
  }

  lemma NotTokens(lib: Q.Library, x: Q.Node)
    requires Level(x) >= 2
    ensures Bare(lib, Q.Not(x)) == [NotKw] + Bare(lib, x)
  {
  }

  lemma AndTokens(lib: Q.Library, l: Q.Node, r: Q.Node)
    requires Level(l) >= 1 && Level(r) >= 2
    ensures Bare(lib, Q.And(l, r)) == Bare(lib, l) + [AndKw] + Bare(lib, r)
  {
  }

  lemma OrTokens(lib: Q.Library, l: Q.Node, r: Q.Node)
    requires Level(r) >= 1
    ensures Bare(lib, Q.Or(l, r)) == Bare(lib, l) + [OrKw] + Bare(lib, r)
  {
  }

  lemma WholeBack(lib: Q.Library, n: Q.Node)
    requires NodeOk(lib, n)
    ensures OrExpr(lib, Bare(lib, n)) == Done(n, [])
  {
    OrBack(lib, n, []);
    assert Bare(lib, n) + [] == Bare(lib, n);
  }

  lemma NotBlank(src: string)
    requires Tokens(src) != []
    ensures Text.TrimSpace(src) != ""
  {
    Text.BlankIff(src);
  }

  /** Printing and parsing again gives back the same tree. */
  lemma ParseUndoesPrint(lib: Q.Library, n: Q.Node)
    requires Writable(lib, n)
    ensures Parse(lib, Source(lib, n)) == Some(n)
  {
    if n.MatchAll? {
      assert Source(lib, n) == "";
    } else {
      var ts := Bare(lib, n);
      BarePlain(lib, n);
      LexUndoesRender(ts);
      NotBlank(Source(lib, n));
      OrBack(lib, n, []);
      assert ts + [] == ts;
    }
  }

  // ---- The parser makes nothing else ----

  /** What the lexer guarantees of its tokens. */
  predicate Lexical(t: Token) {
    (t.Ident? ==> IsName(t.text)) && (t.Number? ==> IsNumber(t.text))
  }

  predicate AllLexical(ts: seq<Token>) {
    forall i :: 0 <= i < |ts| ==> Lexical(ts[i])
  }

  lemma TokenLexical(s: string)
    ensures Lexical(TokenAt(s).tok)
  {
    if s != [] && IsNumberStart(s[0]) {
      assert IsNumberPart(s[0]);
    }
  }

  lemma {:induction false} TokensLexical(src: string)
    ensures AllLexical(Tokens(src))
    decreases |src|
  {
    var l := NextToken(src);
    TokenLexical(Text.AfterSpace(src));
    if !l.tok.EOF? && !l.tok.Bad? {
      TokensLexical(l.rest);
    }
  }

  /** Every number token that is a float prints and reads back as that float. */
  ghost predicate NumbersReadBack(lib: Q.Library) {
    forall text: string :: IsNumber(text) && lib.parseFloat(text).Some? ==> PrintsBack(lib, lib.parseFloat(text).value)
  }

  lemma {:induction false} FieldTailMakes(parts: seq<string>, ts: seq<Token>)
    requires parts != [] && IsName(parts[0]) && AllLexical(ts)
    ensures var p := FieldTail(parts, ts); p.Done? ==> FieldOk(p.value) && AllLexical(p.rest)
    decreases |ts|
  {
    hide IsName, ToLower;
    match Cur(ts)
    case Dot =>
      if Advance(ts).Some? && Cur(Advance(ts).value).Ident? {
        var a := Advance(ts).value;
        if Advance(a).Some? {
          FieldTailMakes(parts + [a[0].text], Advance(a).value);
        }
      }
    case LBrack =>
      if Advance(ts).Some? && Cur(Advance(ts).value).Str? {
        var a := Advance(ts).value;
        if Advance(a).Some? && Cur(Advance(a).value).RBrack? {
          var b := Advance(a).value;
          if Advance(b).Some? {
            FieldTailMakes(parts + [a[0].text], Advance(b).value);
          }
        }
      }
    case _ =>
  }

  lemma CompareMakes(lib: Q.Library, field: Q.FieldRef, op: Q.Op, t: Token)
    requires NumbersReadBack(lib) && FieldOk(field) && Lexical(t)
    ensures var n := CompareTo(lib, field, op, t); n.Some? ==> NodeOk(lib, n.value)
  {
  }

  lemma {:induction false} TestMakes(lib: Q.Library, field: Q.FieldRef, ts: seq<Token>)
    requires NumbersReadBack(lib) && FieldOk(field) && AllLexical(ts)
    ensures var p := Test(lib, field, ts); p.Done? ==> NodeOk(lib, p.value) && AllLexical(p.rest)
  {
    if Cur(ts).Compare? && Advance(ts).Some? {
      var b := Advance(ts).value;
      CompareMakes(lib, field, ts[0].op, Cur(b));
    }
  }

  lemma {:induction false} PrimaryMakes(lib: Q.Library, ts: seq<Token>)
    requires NumbersReadBack(lib) && AllLexical(ts)
    ensures var p := Primary(lib, ts); p.Done? ==> NodeOk(lib, p.value) && AllLexical(p.rest)
    decreases |ts|, 1
  {
    if Cur(ts).LParen? {
      if Advance(ts).Some? {
        OrMakes(lib, Advance(ts).value);
      }
    } else if Cur(ts).Ident? && Advance(ts).Some? {
      FieldTailMakes([ts[0].text], Advance(ts).value);
      if Field(ts).Done? {
        TestMakes(lib, Field(ts).value, Field(ts).rest);
      }
    }
  }

  lemma {:induction false} NotMakes(lib: Q.Library, ts: seq<Token>)
    requires NumbersReadBack(lib) && AllLexical(ts)
    ensures var p := NotExpr(lib, ts); p.Done? ==> NodeOk(lib, p.value) && AllLexical(p.rest)
    decreases |ts|, 2
  {
    if !Cur(ts).NotKw? {
      PrimaryMakes(lib, ts);
    } else if Advance(ts).Some? {
      NotMakes(lib, Advance(ts).value);
    }
  }

  lemma {:induction false} AndMakes(lib: Q.Library, ts: seq<Token>)
    requires NumbersReadBack(lib) && AllLexical(ts)
    ensures var p := AndExpr(lib, ts); p.Done? ==> NodeOk(lib, p.value) && AllLexical(p.rest)
    decreases |ts|, 3
  {
    NotMakes(lib, ts);
    if NotExpr(lib, ts).Done? {
      AndTailMakes(lib, NotExpr(lib, ts).value, NotExpr(lib, ts).rest);
    }
  }

  lemma {:induction false} AndTailMakes(lib: Q.Library, left: Q.Node, ts: seq<Token>)
    requires NumbersReadBack(lib) && NodeOk(lib, left) && AllLexical(ts)
    ensures var p := AndTail(lib, left, ts); p.Done? ==> NodeOk(lib, p.value) && AllLexical(p.rest)
    decreases |ts|, 0
  {
    if Cur(ts).AndKw? && Advance(ts).Some? {
      var a := Advance(ts).value;
      NotMakes(lib, a);
      if NotExpr(lib, a).Done? {
        AndTailMakes(lib, Q.And(left, NotExpr(lib, a).value), NotExpr(lib, a).rest);
      }
    }
  }

  lemma {:induction false} OrMakes(lib: Q.Library, ts: seq<Token>)
    requires NumbersReadBack(lib) && AllLexical(ts)
    ensures var p := OrExpr(lib, ts); p.Done? ==> NodeOk(lib, p.value) && AllLexical(p.rest)
    decreases |ts|, 4
  {
    AndMakes(lib, ts);
    if AndExpr(lib, ts).Done? {
      OrTailMakes(lib, AndExpr(lib, ts).value, AndExpr(lib, ts).rest);
    }
  }

  lemma {:induction false} OrTailMakes(lib: Q.Library, left: Q.Node, ts: seq<Token>)
    requires NumbersReadBack(lib) && NodeOk(lib, left) && AllLexical(ts)
    ensures var p := OrTail(lib, left, ts); p.Done? ==> NodeOk(lib, p.value) && AllLexical(p.rest)
    decreases |ts|, 0
  {
    if Cur(ts).OrKw? && Advance(ts).Some? {
      var a := Advance(ts).value;
      AndMakes(lib, a);
      if AndExpr(lib, a).Done? {
        OrTailMakes(lib, Q.Or(left, AndExpr(lib, a).value), AndExpr(lib, a).rest);
      }
    }
  }

  /** An expression is the parse of some source exactly when it is writable. */
  lemma WritableIff(lib: Q.Library, n: Q.Node)
    requires NumbersReadBack(lib)
    ensures (exists src: string :: Parse(lib, src) == Some(n)) <==> Writable(lib, n)
  {
    if Writable(lib, n) {
      ParseUndoesPrint(lib, n);
    }
    forall src: string | Parse(lib, src) == Some(n) ensures Writable(lib, n) {
      TokensLexical(src);
      OrMakes(lib, Tokens(src));
    }
  }

  /** So every accepted source has a printed form with the same meaning. */
  lemma AcceptedPrintsBack(lib: Q.Library, src: string)
    requires NumbersReadBack(lib) && Parse(lib, src).Some?
    ensures Parse(lib, Source(lib, Parse(lib, src).value)) == Parse(lib, src)
  {
    WritableIff(lib, Parse(lib, src).value);
    ParseUndoesPrint(lib, Parse(lib, src).value);
  }
}
