/**
  The query language's meaning: field resolution, comparison and Match
  (internal/query/ast.go, internal/query/value.go), and the equality predicates
  a query requires, by which segments are pruned (internal/query/prune.go).
 */
module Query {
  import opened Model
  import Text
  import Wire

  /** A float64: a real number but for rounding, or a special value. */
  datatype Float = NaN | NegInf | Finite(r: real) | PosInf

  datatype Value = Null | Str(s: string) | Num(n: Float) | Bool(b: bool)

  datatype FieldKind = Envelope | Label | Annotation | Body

  datatype FieldRef = FieldRef(kind: FieldKind, name: string, path: seq<string>)

  datatype Op = Eq | Ne | Re | Nre | Lt | Le | Gt | Ge | Contains

  /** An expression; `re` is the source of the regular expression of a Cmp. */
  datatype Node =
    | MatchAll
    | And(l: Node, r: Node)
    | Or(l: Node, r: Node)
    | Not(x: Node)
    | Exists(field: FieldRef)
    | Cmp(field: FieldRef, op: Op, lit: Value, re: string)

  /** What the language takes from libraries: float syntax, regular expressions,
      and JSON. `field` looks a key up in an object, `scalar` decodes a leaf. */
  datatype Library = Library(
    parseFloat: string -> Option<Float>,
    formatFloat: Float -> string,
    compiles: string -> bool,
    matchString: (string, string) -> bool,
    field: (string, string) -> Option<string>,
    scalar: string -> Option<Value>)

  // ---- Values ----

  function Render(lib: Library, v: Value): string {
    match v
    case Str(s) => s
    case Num(n) => lib.formatFloat(n)
    case Bool(b) => if b then "true" else "false"
    case Null => ""
  }

  function Numeric(lib: Library, v: Value): Option<Float> {
    match v
    case Num(n) => Some(n)
    case Str(s) => lib.parseFloat(Text.TrimSpace(s))
    case _ => None
  }

  function NonEmpty(s: string): Option<Value> {
    if s != "" then Some(Str(s)) else None
  }

  function ResolveEnvelope(r: Record, name: string): Option<Value> {
    if name == "_namespace" then NonEmpty(r.namespace)
    else if name == "_pod" then NonEmpty(r.pod)
    else if name == "_container" then NonEmpty(r.container)
    else if name == "_node" then NonEmpty(r.node)
    else if name == "_image" then NonEmpty(r.image)
    else if name == "_stream" then NonEmpty(r.stream)
    else if name == "_message" then Some(Str(r.message))
    else if name == "_ts" then (if r.timestamp != ZERO_TIME then Some(Num(Finite(Wire.Signed64(Wire.Unsigned64(r.timestamp)) as real))) else None)
    else None
  }

  /** Walks the rest of a path from a raw JSON value. */
  function Walk(lib: Library, raw: string, path: seq<string>): Option<Value>
    decreases |path|
  {
    if path == [] then lib.scalar(raw)
    else
      match lib.field(raw, path[0])
      case None => None
      case Some(inner) => Walk(lib, inner, path[1..])
  }

  function ResolveBody(lib: Library, r: Record, path: seq<string>): Option<Value> {
    if path == [] || path[0] !in r.body then None else Walk(lib, r.body[path[0]], path[1..])
  }

  function Resolve(lib: Library, f: FieldRef, r: Record): Option<Value> {
    match f.kind
    case Envelope => ResolveEnvelope(r, f.name)
    case Label => if f.name in r.labels then Some(Str(r.labels[f.name])) else None
    case Annotation => if f.name in r.annotations then Some(Str(r.annotations[f.name])) else None
    case Body => ResolveBody(lib, r, f.path)
  }

  // ---- Comparison ----

  /** Equality of floats: NaN equals nothing, itself included. */
  predicate FloatEq(a: Float, b: Float) {
    !a.NaN? && a == b
  }

  predicate FloatLess(a: Float, b: Float) {
    match (a, b)
    case (Finite(x), Finite(y)) => x < y
    case (NegInf, Finite(_)) => true
    case (NegInf, PosInf) => true
    case (Finite(_), PosInf) => true
    case _ => false
  }

  /** The literal's type drives coercion. */
  predicate CmpEq(lib: Library, v: Value, lit: Value) {
    match lit
    case Num(n) => var f := Numeric(lib, v); f.Some? && FloatEq(f.value, n)
    case Bool(b) =>
      (match v
       case Bool(vb) => vb == b
       case Str(s) => s == (if b then "true" else "false")
       case _ => false)
    case Str(s) => Render(lib, v) == s
    case Null => Render(lib, v) == ""
  }

  predicate LexLess(a: string, b: string) {
    Wire.Less(Wire.Codes(a), Wire.Codes(b))
  }

  predicate CmpOrder(lib: Library, v: Value, lit: Value, op: Op) {
    if lit.Num? then
      match Numeric(lib, v)
      case None => false
      case Some(n) =>
        (match op
         case Lt => FloatLess(n, lit.n)
         case Le => FloatLess(n, lit.n) || FloatEq(n, lit.n)
         case Gt => FloatLess(lit.n, n)
         case Ge => FloatLess(lit.n, n) || FloatEq(n, lit.n)
         case _ => false)
    else
      var a, b := Render(lib, v), if lit.Str? then lit.s else "";
      match op
      case Lt => LexLess(a, b)
      case Le => !LexLess(b, a)
      case Gt => LexLess(b, a)
      case Ge => !LexLess(a, b)
      case _ => false
  }

  predicate ContainsStr(haystack: string, needle: string) {
    needle <= haystack || (haystack != [] && ContainsStr(haystack[1..], needle))
  }

  predicate MatchCmp(lib: Library, v: Option<Value>, op: Op, lit: Value, re: string) {
    match v
    case None => op.Ne? || op.Nre?
    case Some(v) =>
      match op
      case Eq => CmpEq(lib, v, lit)
      case Ne => !CmpEq(lib, v, lit)
      case Re => lib.matchString(re, Render(lib, v))
      case Nre => !lib.matchString(re, Render(lib, v))
      case Contains => ContainsStr(Render(lib, v), if lit.Str? then lit.s else "")
      case _ => CmpOrder(lib, v, lit, op)
  }

  predicate Match(lib: Library, n: Node, r: Record) {
    match n
    case MatchAll => true
    case And(a, b) => Match(lib, a, r) && Match(lib, b, r)
    case Or(a, b) => Match(lib, a, r) || Match(lib, b, r)
    case Not(x) => !Match(lib, x, r)
    case Exists(f) =>
      (match Resolve(lib, f, r)
       case None => false
       case Some(Str(s)) => s != ""
       case Some(Null) => false
       case Some(_) => true)
    case Cmp(f, op, lit, re) => MatchCmp(lib, Resolve(lib, f, r), op, lit, re)
  }

  /** Against a string, or as floats other than NaN. */
  predicate Comparable(lib: Library, v: Value, lit: Value) {
    lit.Str? || (lit.Num? && !lit.n.NaN? && Numeric(lib, v).Some? && !Numeric(lib, v).value.NaN?)
  }

  /** At most one of <, = and > holds, and one does exactly when the two can be
      compared; <= and >= are what they say. */
  lemma OrderLaws(lib: Library, v: Value, lit: Value)
    requires lit.Str? || lit.Num?
    ensures var lt, eq, gt := CmpOrder(lib, v, lit, Lt), CmpEq(lib, v, lit), CmpOrder(lib, v, lit, Gt);
      && !(lt && eq) && !(lt && gt) && !(eq && gt)
      && (lt || eq || gt <==> Comparable(lib, v, lit))
      && (CmpOrder(lib, v, lit, Le) <==> lt || eq)
      && (CmpOrder(lib, v, lit, Ge) <==> gt || eq)
  {
    if lit.Str? {
      var a, b := Wire.Codes(Render(lib, v)), Wire.Codes(lit.s);
      Wire.LessTotal(a, b);
      if a == b { Wire.CodesInjective(Render(lib, v), lit.s); }
    }
  }

  // ---- Required predicates ----

  datatype Predicate = Predicate(field: string, value: string)

  function Union(a: seq<Predicate>, b: seq<Predicate>): seq<Predicate> {
    if b == [] then a
    else
      var out := Union(a, b[..|b| - 1]);
      if b[|b| - 1] in out then out else out + [b[|b| - 1]]
  }

  function Intersect(a: seq<Predicate>, b: seq<Predicate>): seq<Predicate> {
    if a == [] then []
    else Intersect(a[..|a| - 1], b) + (if a[|a| - 1] in b then [a[|a| - 1]] else [])
  }

  function Required(n: Node): seq<Predicate> {
    match n
    case And(a, b) => Union(Required(a), Required(b))
    case Or(a, b) => Intersect(Required(a), Required(b))
    case Cmp(f, op, lit, _) =>
      if op.Eq? && f.kind.Envelope? && lit.Str? then [Predicate(f.name, lit.s)] else []
    case _ => []
  }

  method HasPred(preds: seq<Predicate>, p: Predicate) returns (found: bool)
    ensures found <==> p in preds
  {
    for i := 0 to |preds|
      invariant p !in preds[..i]
    {
      if preds[i] == p {
        return true;
      }
    }
    found := false;
  }

  method UnionOf(a: seq<Predicate>, b: seq<Predicate>) returns (out: seq<Predicate>)
    ensures out == Union(a, b)
  {
    out := a;
    for i := 0 to |b|
      invariant out == Union(a, b[..i])
    {
      assert b[..i + 1][..i] == b[..i];
      var has := HasPred(out, b[i]);
      if !has {
        out := out + [b[i]];
      }
    }
    assert b[..|b|] == b;
  }

  method IntersectOf(a: seq<Predicate>, b: seq<Predicate>) returns (out: seq<Predicate>)
    ensures out == Intersect(a, b)
  {
    out := [];
    for i := 0 to |a|
      invariant out == Intersect(a[..i], b)
    {
      assert a[..i + 1][..i] == a[..i];
      var has := HasPred(b, a[i]);
      if has {
        out := out + [a[i]];
      }
    }
    assert a[..|a|] == a;
  }

  method RequiredOf(n: Node) returns (out: seq<Predicate>)
    ensures out == Required(n)
    decreases n
  {
    match n {
      case And(l, r) =>
        var a := RequiredOf(l);
        var b := RequiredOf(r);
        out := UnionOf(a, b);
      case Or(l, r) =>
        var a := RequiredOf(l);
        var b := RequiredOf(r);
        out := IntersectOf(a, b);
      case Cmp(f, op, lit, _) =>
        if op.Eq? && f.kind.Envelope? && lit.Str? {
          return [Predicate(f.name, lit.s)];
        }
        out := [];
      case _ => out := [];
    }
  }

  lemma {:induction false} UnionMembers(a: seq<Predicate>, b: seq<Predicate>)
    ensures forall p :: p in Union(a, b) <==> p in a || p in b
  {
    if b == [] {
    } else {
      UnionMembers(a, b[..|b| - 1]);
      assert b == b[..|b| - 1] + [b[|b| - 1]];
    }
  }

  lemma {:induction false} IntersectMembers(a: seq<Predicate>, b: seq<Predicate>)
    ensures forall p :: p in Intersect(a, b) <==> p in a && p in b
  {
    if a == [] {
    } else {
      IntersectMembers(a[..|a| - 1], b);
      assert a == a[..|a| - 1] + [a[|a| - 1]];
    }
  }

  /** The envelope field is present and renders as the value. */
  predicate Holds(lib: Library, p: Predicate, r: Record) {
    match ResolveEnvelope(r, p.field)
    case None => false
    case Some(v) => Render(lib, v) == p.value
  }

  /** Whatever matches satisfies every required predicate, through any nesting. */
  lemma {:induction false} RequiredIsNecessary(lib: Library, n: Node, r: Record, p: Predicate)
    requires Match(lib, n, r) && p in Required(n)
    ensures Holds(lib, p, r)
  {
    match n
    case And(a, b) =>
      UnionMembers(Required(a), Required(b));
      if p in Required(a) { RequiredIsNecessary(lib, a, r, p); } else { RequiredIsNecessary(lib, b, r, p); }
    case Or(a, b) =>
      IntersectMembers(Required(a), Required(b));
      if Match(lib, a, r) { RequiredIsNecessary(lib, a, r, p); } else { RequiredIsNecessary(lib, b, r, p); }
    case _ =>
  }

  // ---- Segment pruning ----

  /** The summary list a predicate is looked up in. */
  function SummaryOf(m: SegmentMeta, field: string): Option<seq<string>> {
    if field == "_namespace" then Some(m.namespaces)
    else if field == "_pod" then Some(m.pods)
    else if field == "_node" then Some(m.nodes)
    else if field == "_container" then Some(m.containers)
    else None
  }

  predicate Prunes(m: SegmentMeta, p: Predicate) {
    match SummaryOf(m, p.field)
    case None => false
    case Some(values) => |values| > 0 && p.value !in values
  }

  predicate SegmentMatches(m: SegmentMeta, expr: Node) {
    forall p :: p in Required(expr) ==> !Prunes(m, p)
  }

  method MatchesSegment(m: SegmentMeta, expr: Node) returns (keep: bool)
    ensures keep == SegmentMatches(m, expr)
  {
    var ps := RequiredOf(expr);
    for i := 0 to |ps|
      invariant forall p :: p in ps[..i] ==> !Prunes(m, p)
    {
      if Prunes(m, ps[i]) {
        return false;
      }
    }
    keep := true;
  }

  /** The summary lists every non-empty source attribute of r, as the segment
      writer leaves it. */
  predicate Summarises(m: SegmentMeta, r: Record) {
    && (r.namespace != "" ==> r.namespace in m.namespaces)
    && (r.pod != "" ==> r.pod in m.pods)
    && (r.node != "" ==> r.node in m.nodes)
    && (r.container != "" ==> r.container in m.containers)
  }

  /** A segment with a matching record is never pruned. */
  lemma PruningIsSound(lib: Library, m: SegmentMeta, expr: Node, r: Record)
    requires Summarises(m, r) && Match(lib, expr, r)
    ensures SegmentMatches(m, expr)
  {
    forall p | p in Required(expr) ensures !Prunes(m, p) {
      RequiredIsNecessary(lib, expr, r, p);
    }
  }
}
