/** Big-endian words, two's complement wrapping, and the order of byte strings. */
module Wire {
  type byte = b: int | 0 <= b < 256

  const TWO_31: int := 0x8000_0000
  const TWO_32: int := 0x1_0000_0000
  const TWO_63: int := 0x8000_0000_0000_0000
  const TWO_64: int := 0x1_0000_0000_0000_0000

  type word32 = n: int | 0 <= n < TWO_32

  // ---- Wrapping conversions ----

  function Unsigned64(x: int): (u: int)
    ensures 0 <= u < TWO_64
  {
    x % TWO_64
  }

  function Unsigned32(x: int): word32 {
    x % TWO_32
  }

  function Signed64(u: int): int {
    var w := Unsigned64(u);
    if w < TWO_63 then w else w - TWO_64
  }

  function Signed32(u: int): int {
    var w := Unsigned32(u);
    if w < TWO_31 then w else w - TWO_32
  }

  predicate InInt64(x: int) {
    -TWO_63 <= x < TWO_63
  }

  /** A value survives the trip through a 64-bit word exactly when it fits. */
  lemma WrapIff(x: int)
    ensures Signed64(Unsigned64(x)) == x <==> InInt64(x)
  {
  }

  // ---- Big-endian words ----

  function Pow256(n: nat): nat {
    if n == 0 then 1 else 256 * Pow256(n - 1)
  }

  function BigEndian(v: nat, n: nat): (s: seq<byte>)
    ensures |s| == n
  {
    if n == 0 then [] else BigEndian(v / 256, n - 1) + [v % 256]
  }

  function Word(s: seq<byte>): nat {
    if s == [] then 0 else 256 * Word(s[..|s| - 1]) + s[|s| - 1]
  }

  lemma {:induction false} WordOfBigEndian(v: nat, n: nat)
    requires v < Pow256(n)
    ensures Word(BigEndian(v, n)) == v
  {
    if n == 0 {
    } else {
      assert v / 256 < Pow256(n - 1);
      WordOfBigEndian(v / 256, n - 1);
      var s := BigEndian(v, n);
      assert s[..|s| - 1] == BigEndian(v / 256, n - 1);
    }
  }

  lemma Word64(v: int)
    ensures Word(BigEndian(Unsigned64(v), 8)) == Unsigned64(v)
  {
    assert Pow256(4) == TWO_32;
    assert Pow256(8) == TWO_64;
    WordOfBigEndian(Unsigned64(v), 8);
  }

  lemma Word32(v: int)
    ensures Word(BigEndian(Unsigned32(v), 4)) == Unsigned32(v)
  {
    assert Pow256(4) == TWO_32;
    WordOfBigEndian(Unsigned32(v), 4);
  }

  /** PutUint64 and its kin: writes v at a[off..off + n]. */
  method PutWord(a: array<byte>, off: nat, v: nat, n: nat)
    requires off + n <= a.Length
    modifies a
    ensures a[..off + n] == old(a[..off]) + BigEndian(v, n)
    ensures a[off + n..] == old(a[off + n..])
  {
    var word := BigEndian(v, n);
    for i := 0 to n
      invariant a[..off + i] == old(a[..off]) + word[..i]
      invariant a[off + n..] == old(a[off + n..])
    {
      a[off + i] := word[i];
      assert a[..off + i + 1] == a[..off + i] + [word[i]];
    }
    assert word[..n] == word;
  }

  // ---- Byte order ----

  /** Lexicographic order, as bytes.Compare, strings and bbolt keys have it. */
  predicate Less(a: seq<int>, b: seq<int>) {
    if a == [] then b != []
    else if b == [] then false
    else a[0] < b[0] || (a[0] == b[0] && Less(a[1..], b[1..]))
  }

  function Codes(s: string): (cs: seq<int>)
    ensures |cs| == |s|
  {
    seq(|s|, i requires 0 <= i < |s| => s[i] as int)
  }

  lemma CodesInjective(s: string, t: string)
    requires Codes(s) == Codes(t)
    ensures s == t
  {
    forall i | 0 <= i < |s| ensures s[i] == t[i] {
      assert Codes(s)[i] == Codes(t)[i];
    }
  }

  lemma {:induction false} LessTotal(a: seq<int>, b: seq<int>)
    ensures Less(a, b) || a == b || Less(b, a)
    ensures !(Less(a, b) && Less(b, a)) && !Less(a, a)
  {
    if a != [] {
      LessTotal(a[1..], a[1..]);
      if b != [] {
        LessTotal(a[1..], b[1..]);
        assert a == [a[0]] + a[1..] && b == [b[0]] + b[1..];
      }
    }
  }

  lemma {:induction false} LessTransitive(a: seq<int>, b: seq<int>, c: seq<int>)
    requires Less(a, b) && Less(b, c)
    ensures Less(a, c)
  {
    if a != [] && a[0] == b[0] == c[0] {
      LessTransitive(a[1..], b[1..], c[1..]);
    }
  }

  /** Equal-length prefixes decide first. */
  lemma {:induction false} LessAppend(x: seq<int>, y: seq<int>, u: seq<int>, v: seq<int>)
    requires |x| == |y|
    ensures Less(x + u, y + v) <==> Less(x, y) || (x == y && Less(u, v))
  {
    if x == [] {
      assert x + u == u && y + v == v;
    } else {
      LessAppend(x[1..], y[1..], u, v);
      assert (x + u)[1..] == x[1..] + u && (y + v)[1..] == y[1..] + v;
      assert x == [x[0]] + x[1..] && y == [y[0]] + y[1..];
    }
  }

  /** The byte order of big-endian words is the numeric order. */
  lemma {:induction false} BigEndianOrder(a: nat, b: nat, n: nat)
    requires a < Pow256(n) && b < Pow256(n)
    ensures Less(BigEndian(a, n), BigEndian(b, n)) <==> a < b
    ensures BigEndian(a, n) == BigEndian(b, n) <==> a == b
  {
    if n == 0 {
    } else {
      BigEndianOrder(a / 256, b / 256, n - 1);
      LessAppend(BigEndian(a / 256, n - 1), BigEndian(b / 256, n - 1), [a % 256], [b % 256]);
      WordOfBigEndian(a, n);
      WordOfBigEndian(b, n);
    }
  }
}
