/**
  The query parser (internal/query/parser.go): what it makes of a token list,
  and the recursive-descent parser that computes it.
 */
module QueryParser {
  import opened Model
  import opened QueryLexer
  import Text
  import Q = Query

  /** A parsed thing and the tokens after it. */
  datatype Parsed<T> = Fail | Done(value: T, rest: seq<Token>)

  function Cur(ts: seq<Token>): Token {
    if ts == [] then EOF else ts[0]
  }

  /** The tokens after the current one; a lexing error ends the parse. At the
      end of the source there is always one more end. */
  function Advance(ts: seq<Token>): (r: Option<seq<Token>>)
    ensures r.Some? && ts != [] ==> |r.value| < |ts|
    ensures r.Some? ==> |r.value| <= |ts| && !Cur(r.value).Bad?
  {
    var rest := if ts == [] then [] else ts[1..];
    if Cur(rest).Bad? then None else Some(rest)
  }

  // ---- Fields ----

  function Join(parts: seq<string>): string {
    if parts == [] then ""
    else if |parts| == 1 then parts[0]
    else parts[0] + "." + Join(parts[1..])
  }

  function Classify(parts: seq<string>): Q.FieldRef
    requires parts != []
  {
    var head := parts[0];
    if "_" <= head then Q.FieldRef(Q.Envelope, head, [])
    else if head == "label" && |parts| >= 2 then Q.FieldRef(Q.Label, Join(parts[1..]), [])
    else if head == "annotation" && |parts| >= 2 then Q.FieldRef(Q.Annotation, Join(parts[1..]), [])
    else if head == "body" && |parts| >= 2 then Q.FieldRef(Q.Body, "", parts[1..])
    else Q.FieldRef(Q.Body, "", parts)
  }

  /** ("." IDENT | "[" STRING "]")* after the parts read so far. */
  function FieldTail(parts: seq<string>, ts: seq<Token>): (p: Parsed<Q.FieldRef>)
    requires parts != []
    ensures p.Done? ==> |p.rest| <= |ts|
    decreases |ts|
  {
    match Cur(ts)
    case Dot =>
      (match Advance(ts)
       case None => Fail
       case Some(a) =>
         if !Cur(a).Ident? then Fail
         else
           match Advance(a)
           case None => Fail
           case Some(b) => FieldTail(parts + [a[0].text], b))
    case LBrack =>
      (match Advance(ts)
       case None => Fail
       case Some(a) =>
         if !Cur(a).Str? then Fail
         else
           match Advance(a)
           case None => Fail
           case Some(b) =>
             if !Cur(b).RBrack? then Fail
             else
               match Advance(b)
               case None => Fail
               case Some(d) => FieldTail(parts + [a[0].text], d))
    case _ => Done(Classify(parts), ts)
  }

  function Field(ts: seq<Token>): (p: Parsed<Q.FieldRef>)
    requires Cur(ts).Ident?
    ensures p.Done? ==> |p.rest| < |ts|
  {
    match Advance(ts)
    case None => Fail
    case Some(rest) => FieldTail([ts[0].text], rest)
  }

  // ---- Comparisons ----

  function LiteralValue(lib: Q.Library, t: Token): Option<Q.Value> {
    match t
    case Str(s) => Some(Q.Str(s))
    case Number(text) =>
      (match lib.parseFloat(text)
       case Some(n) => Some(Q.Num(n))
       case None => None)
    case Bool(b) => Some(Q.Bool(b))
    case _ => None
  }

  /** The node for a field, an operator and the token after it. */
  function CompareTo(lib: Q.Library, field: Q.FieldRef, op: Q.Op, lit: Token): Option<Q.Node> {
    if op.Re? || op.Nre? then
      if (lit.Regex? || lit.Str?) && lib.compiles(lit.text) then Some(Q.Cmp(field, op, Q.Null, lit.text)) else None
    else
      match LiteralValue(lib, lit)
      case None => None
      case Some(v) =>
        Some(Q.Cmp(field, op, if op.Contains? && !v.Str? then Q.Str(Q.Render(lib, v)) else v, ""))
  }

  function Comparison(lib: Q.Library, field: Q.FieldRef, op: Q.Op, ts: seq<Token>): (p: Parsed<Q.Node>)
    ensures p.Done? ==> |p.rest| <= |ts|
  {
    match Advance(ts)
    case None => Fail
    case Some(rest) =>
      match CompareTo(lib, field, op, Cur(ts))
      case None => Fail
      case Some(n) => Done(n, rest)
  }

  // ---- Expressions ----

  function OrExpr(lib: Q.Library, ts: seq<Token>): (p: Parsed<Q.Node>)
    ensures p.Done? ==> |p.rest| < |ts|
    decreases |ts|, 4
  {
    match AndExpr(lib, ts)
    case Fail => Fail
    case Done(left, rest) => OrTail(lib, left, rest)
  }

  function OrTail(lib: Q.Library, left: Q.Node, ts: seq<Token>): (p: Parsed<Q.Node>)
    ensures p.Done? ==> |p.rest| <= |ts|
    decreases |ts|, 0
  {
    if !Cur(ts).OrKw? then Done(left, ts)
    else
      match Advance(ts)
      case None => Fail
      case Some(a) =>
        match AndExpr(lib, a)
        case Fail => Fail
        case Done(right, rest) => OrTail(lib, Q.Or(left, right), rest)
  }

  function AndExpr(lib: Q.Library, ts: seq<Token>): (p: Parsed<Q.Node>)
    ensures p.Done? ==> |p.rest| < |ts|
    decreases |ts|, 3
  {
    match NotExpr(lib, ts)
    case Fail => Fail
    case Done(left, rest) => AndTail(lib, left, rest)
  }

  function AndTail(lib: Q.Library, left: Q.Node, ts: seq<Token>): (p: Parsed<Q.Node>)
    ensures p.Done? ==> |p.rest| <= |ts|
    decreases |ts|, 0
  {
    if !Cur(ts).AndKw? then Done(left, ts)
    else
      match Advance(ts)
      case None => Fail
      case Some(a) =>
        match NotExpr(lib, a)
        case Fail => Fail
        case Done(right, rest) => AndTail(lib, Q.And(left, right), rest)
  }

  function NotExpr(lib: Q.Library, ts: seq<Token>): (p: Parsed<Q.Node>)
    ensures p.Done? ==> |p.rest| < |ts|
    decreases |ts|, 2
  {
    if !Cur(ts).NotKw? then Primary(lib, ts)
    else
      match Advance(ts)
      case None => Fail
      case Some(a) =>
        match NotExpr(lib, a)
        case Fail => Fail
        case Done(x, rest) => Done(Q.Not(x), rest)
  }

  function Primary(lib: Q.Library, ts: seq<Token>): (p: Parsed<Q.Node>)
    ensures p.Done? ==> |p.rest| < |ts|
    decreases |ts|, 1
  {
    if Cur(ts).LParen? then
      match Advance(ts)
      case None => Fail
      case Some(a) =>
        match OrExpr(lib, a)
        case Fail => Fail
        case Done(n, b) =>
          if !Cur(b).RParen? then Fail
          else
            match Advance(b)
            case None => Fail
            case Some(rest) => Done(n, rest)
    else if !Cur(ts).Ident? then Fail
    else
      match Field(ts)
      case Fail => Fail
      case Done(field, a) => Test(lib, field, a)
  }

  /** A field followed by an operator is a comparison, else a test of presence. */
  function Test(lib: Q.Library, field: Q.FieldRef, ts: seq<Token>): (p: Parsed<Q.Node>)
    ensures p.Done? ==> |p.rest| <= |ts|
  {
    if !Cur(ts).Compare? then Done(Q.Exists(field), ts)
    else
      match Advance(ts)
      case None => Fail
      case Some(b) => Comparison(lib, field, ts[0].op, b)
  }

  /** Parse: what a query source means. */
  function Parse(lib: Q.Library, src: string): Option<Q.Node> {
    if Text.TrimSpace(src) == "" then Some(Q.MatchAll)
    else
      var ts := Tokens(src);
      if Cur(ts).Bad? then None
      else
        match OrExpr(lib, ts)
        case Fail => None
        case Done(n, rest) => if Cur(rest).EOF? then Some(n) else None
  }

  // ---- The parser ----

  class Parser {
    const lib: Q.Library
    const lex: Lexer
    var cur: Token

    ghost predicate Valid()
      reads this, lex
    {
      lex.Valid() && !cur.Bad? && (cur.EOF? ==> Tokens(lex.Rest()) == [])
    }

    /** The tokens from the current one on. */
    ghost function Ahead(): (ts: seq<Token>)
      requires Valid()
      reads this, lex
      ensures Cur(ts) == cur
    {
      if cur.EOF? then [] else [cur] + Tokens(lex.Rest())
    }

    /** What a parse method promises: it agrees with the specification. */
    ghost predicate Agrees<T(!new)>(p: Parsed<T>, n: Option<T>)
      reads this, lex
    {
      match n
      case None => p.Fail?
      case Some(v) => Valid() && p == Done(v, Ahead())
    }

    constructor (lib: Q.Library, src: string)
      ensures fresh(lex) && lex.Valid() && lex.Rest() == src && this.lib == lib && cur == EOF
    {
      this.lib, cur := lib, EOF;
      lex := new Lexer(src);
    }

    /** The first token. */
    method Start() returns (ok: bool)
      requires lex.Valid()
      modifies this`cur, lex
      ensures ok <==> !Cur(Tokens(old(lex.Rest()))).Bad?
      ensures ok ==> Valid() && Ahead() == Tokens(old(lex.Rest()))
    {
      var t := lex.Next();
      if t.Bad? {
        return false;
      }
      cur := t;
      ok := true;
      if t.EOF? {
        NothingAfterEnd(old(lex.Rest()));
      }
    }

    method Next() returns (ok: bool)
      requires Valid()
      modifies this`cur, lex
      ensures ok <==> Advance(old(Ahead())).Some?
      ensures ok ==> Valid() && Advance(old(Ahead())) == Some(Ahead())
    {
      ghost var ahead := Ahead();
      assert cur.EOF? ==> Tokens(lex.Rest()) == [];
      assert !cur.EOF? ==> ahead[1..] == Tokens(lex.Rest());
      ok := Start();
    }

    method ParseOr() returns (n: Option<Q.Node>)
      requires Valid()
      modifies this`cur, lex
      ensures Agrees(OrExpr(lib, old(Ahead())), n)
      decreases |Ahead()|, 4
    {
      n := ParseAnd();
      if n.None? {
        return;
      }
      while cur.OrKw?
        invariant n.Some? && Valid() && |Ahead()| < |old(Ahead())|
        invariant OrExpr(lib, old(Ahead())) == OrTail(lib, n.value, Ahead())
        decreases |Ahead()|
      {
        var ok := Next();
        if !ok {
          return None;
        }
        var right := ParseAnd();
        if right.None? {
          return None;
        }
        n := Some(Q.Or(n.value, right.value));
      }
    }

    method ParseAnd() returns (n: Option<Q.Node>)
      requires Valid()
      modifies this`cur, lex
      ensures Agrees(AndExpr(lib, old(Ahead())), n)
      decreases |Ahead()|, 3
    {
      n := ParseNot();
      if n.None? {
        return;
      }
      while cur.AndKw?
        invariant n.Some? && Valid() && |Ahead()| < |old(Ahead())|
        invariant AndExpr(lib, old(Ahead())) == AndTail(lib, n.value, Ahead())
        decreases |Ahead()|
      {
        var ok := Next();
        if !ok {
          return None;
        }
        var right := ParseNot();
        if right.None? {
          return None;
        }
        n := Some(Q.And(n.value, right.value));
      }
    }

    method ParseNot() returns (n: Option<Q.Node>)
      requires Valid()
      modifies this`cur, lex
      ensures Agrees(NotExpr(lib, old(Ahead())), n)
      decreases |Ahead()|, 2
    {
      if cur.NotKw? {
        var ok := Next();
        if !ok {
          return None;
        }
        var x := ParseNot();
        if x.None? {
          return None;
        }
        return Some(Q.Not(x.value));
      }
      n := ParsePrimary();
    }

    method ParsePrimary() returns (n: Option<Q.Node>)
      requires Valid()
      modifies this`cur, lex
      ensures Agrees(Primary(lib, old(Ahead())), n)
      decreases |Ahead()|, 1
    {
      if cur.LParen? {
        var ok := Next();
        if !ok {
          return None;
        }
        n := ParseOr();
        if n.None? || !cur.RParen? {
          return None;
        }
        ok := Next();
        if !ok {
          return None;
        }
        return;
      }
      if !cur.Ident? {
        return None;
      }
      var field := ParseField();
      if field.None? {
        return None;
      }
      if !cur.Compare? {
        return Some(Q.Exists(field.value));
      }
      var op := cur.op;
      var ok := Next();
      if !ok {
        return None;
      }
      n := ParseComparison(field.value, op);
    }

    method ParseField() returns (f: Option<Q.FieldRef>)
      requires Valid() && cur.Ident?
      modifies this`cur, lex
      ensures Agrees(Field(old(Ahead())), f)
    {
      var parts := [cur.text];
      var ok := Next();
      if !ok {
        return None;
      }
      while cur.Dot? || cur.LBrack?
        invariant Valid() && parts != []
        invariant Field(old(Ahead())) == FieldTail(parts, Ahead())
        decreases |Ahead()|
      {
        var part := ParsePart();
        if part.None? {
          return None;
        }
        parts := parts + [part.value];
      }
      f := Some(Classify(parts));
    }

    /** One "." IDENT or "[" STRING "]". */
    method ParsePart() returns (part: Option<string>)
      requires Valid() && (cur.Dot? || cur.LBrack?)
      modifies this`cur, lex
      ensures part.None? ==> forall parts: seq<string> :: parts != [] ==> FieldTail(parts, old(Ahead())).Fail?
      ensures part.Some? ==> Valid() && |Ahead()| < |old(Ahead())|
      ensures part.Some? ==> forall parts: seq<string> :: parts != [] ==>
        FieldTail(parts, old(Ahead())) == FieldTail(parts + [part.value], Ahead())
    {
      hide NextToken, Tokens, Classify;
      var bracket := cur.LBrack?;
      var ok := Next();
      if !ok || !(if bracket then cur.Str? else cur.Ident?) {
        return None;
      }
      var text := cur.text;
      ok := Next();
      if !ok {
        return None;
      }
      if bracket {
        if !cur.RBrack? {
          return None;
        }
        ok := Next();
        if !ok {
          return None;
        }
      }
      part := Some(text);
    }

    method ParseComparison(field: Q.FieldRef, op: Q.Op) returns (n: Option<Q.Node>)
      requires Valid()
      modifies this`cur, lex
      ensures Agrees(Comparison(lib, field, op, old(Ahead())), n)
    {
      var lit := cur;
      var ok := Next();
      if !ok {
        return None;
      }
      n := CompareTo(lib, field, op, lit);
    }
  }

  lemma NothingAfterEnd(src: string)
    requires NextToken(src).tok.EOF?
    ensures Tokens(src) == [] && Tokens(NextToken(src).rest) == []
  {
  }

  method ParseQuery(lib: Q.Library, src: string) returns (n: Option<Q.Node>)
    ensures n == Parse(lib, src)
  {
    if Text.TrimSpace(src) == "" {
      return Some(Q.MatchAll);
    }
    var p := new Parser(lib, src);
    var ok := p.Start();
    if !ok {
      return None;
    }
    n := p.ParseOr();
    if n.Some? && !p.cur.EOF? {
      return None;
    }
  }
}
