/** S3 keys of segments (internal/store/store.go): segKeyFor and its inverse. */
module SegmentKeys {
  import opened Model

  /** `dateOf` is the UTC date of an instant as year/month/day. */
  datatype Config = Config(managerID: string, dateOf: Time -> string) {
    function Date(t: Time): string { dateOf(t) }
    function SegPrefix(): string { "segments/" + managerID + "/" }
    function SnapPrefix(): string { "catalog/" + managerID + "/" }
  }

  const META_SUFFIX := ".meta"
  const SEG_SUFFIX := ".seg"

  function Digits(n: nat): string {
    (if n < 10 then "" else Digits(n / 10)) + ["0123456789"[n % 10]]
  }

  function Decimal(n: int): string {
    if n < 0 then "-" + Digits(-n) else Digits(n)
  }

  /** Milliseconds, rounded down. */
  function UnixMilli(t: Time): int {
    t / 1_000_000
  }

  /** Everything of a segment's key up to its id. */
  function KeyHead(cfg: Config, m: SegmentMeta): string {
    cfg.SegPrefix() + cfg.Date(m.minTS) + "/" + Decimal(UnixMilli(m.minTS)) + "-" + Decimal(UnixMilli(m.maxTS)) + "-"
  }

  function SegKeyFor(cfg: Config, m: SegmentMeta): string {
    KeyHead(cfg, m) + m.id + SEG_SUFFIX
  }

  // ---- Taking keys apart ----

  /** What follows the last c, or everything. */
  function AfterLast(s: string, c: char): string {
    if s == [] || s[|s| - 1] == c then [] else AfterLast(s[..|s| - 1], c) + [s[|s| - 1]]
  }

  function DropSlashes(s: string): string {
    if s != [] && s[|s| - 1] == '/' then DropSlashes(s[..|s| - 1]) else s
  }

  /** filepath.Base */
  function Base(path: string): string {
    if path == "" then "."
    else
      var s := DropSlashes(path);
      if s == "" then "/" else AfterLast(s, '/')
  }

  predicate HasSuffix(s: string, suffix: string) {
    |suffix| <= |s| && s[|s| - |suffix|..] == suffix
  }

  function TrimSuffix(s: string, suffix: string): string {
    if HasSuffix(s, suffix) then s[..|s| - |suffix|] else s
  }

  function IdFromSegKey(segKey: string): string {
    var base := TrimSuffix(Base(segKey), SEG_SUFFIX);
    if '-' in base then AfterLast(base, '-') else ""
  }

  // ---- The two are inverse ----

  predicate CleanId(id: string) {
    '-' !in id && '/' !in id
  }

  lemma {:induction false} AfterLastMembers(s: string, c: char)
    ensures c !in AfterLast(s, c)
    ensures forall x :: x in AfterLast(s, c) ==> x in s
  {
    if s != [] && s[|s| - 1] != c {
      AfterLastMembers(s[..|s| - 1], c);
      assert s == s[..|s| - 1] + [s[|s| - 1]];
    }
  }

  lemma {:induction false} AfterLastTail(a: string, b: string, c: char)
    requires c !in b
    ensures AfterLast(a + b, c) == AfterLast(a, c) + b
  {
    if b == [] {
      assert a + b == a && AfterLast(a, c) + b == AfterLast(a, c);
    } else {
      var front, last := b[..|b| - 1], b[|b| - 1];
      assert b == front + [last] && last in b;
      AfterLastTail(a, front, c);
      assert (a + b)[..|a + b| - 1] == a + front;
      assert AfterLast(a, c) + front + [last] == AfterLast(a, c) + b;
    }
  }

  /** An id read from a key never has a dash or a slash. */
  lemma ReadIdIsClean(segKey: string)
    ensures CleanId(IdFromSegKey(segKey))
  {
    var base := TrimSuffix(Base(segKey), SEG_SUFFIX);
    if '-' in base {
      AfterLastMembers(base, '-');
      if DropSlashes(segKey) != "" {
        AfterLastMembers(DropSlashes(segKey), '/');
      }
    }
  }

  lemma SegmentBase(head: string, id: string)
    requires '/' !in id
    ensures TrimSuffix(Base(head + "-" + id + SEG_SUFFIX), SEG_SUFFIX) == AfterLast(head, '/') + "-" + id
  {
    hide AfterLast;
    var tail := "-" + id + SEG_SUFFIX;
    var key := head + tail;
    assert head + "-" + id + SEG_SUFFIX == key;
    assert key[|key| - 1] == 'g';
    AfterLastTail(head, tail, '/');
    var base := AfterLast(head, '/') + tail;
    assert base == AfterLast(head, '/') + "-" + id + SEG_SUFFIX;
    assert base[|base| - 4..] == SEG_SUFFIX;
  }

  /** The id comes back from the key exactly when it has no dash and no slash. */
  lemma KeyGivesIdIff(cfg: Config, m: SegmentMeta)
    ensures IdFromSegKey(SegKeyFor(cfg, m)) == m.id <==> CleanId(m.id)
  {
    ReadIdIsClean(SegKeyFor(cfg, m));
    if CleanId(m.id) {
      var head :=
        cfg.SegPrefix() + cfg.Date(m.minTS) + "/" + Decimal(UnixMilli(m.minTS)) + "-" + Decimal(UnixMilli(m.maxTS));
      assert SegKeyFor(cfg, m) == head + "-" + m.id + SEG_SUFFIX;
      SegmentBase(head, m.id);
      var base := AfterLast(head, '/') + "-" + m.id;
      assert '-' in base by { assert base[|AfterLast(head, '/')|] == '-'; }
      AfterLastTail(AfterLast(head, '/') + "-", m.id, '-');
    }
  }

  lemma KeyStarts(cfg: Config, m: SegmentMeta)
    ensures cfg.SegPrefix() <= SegKeyFor(cfg, m) && |SegKeyFor(cfg, m)| > 4
    ensures SegKeyFor(cfg, m)[|SegKeyFor(cfg, m)| - 1] == 'g'
  {
  }

  lemma KeyShape(cfg: Config, m: SegmentMeta)
    ensures cfg.SegPrefix() <= SegKeyFor(cfg, m) + META_SUFFIX
    ensures HasSuffix(SegKeyFor(cfg, m) + META_SUFFIX, META_SUFFIX)
    ensures TrimSuffix(SegKeyFor(cfg, m) + META_SUFFIX, META_SUFFIX) == SegKeyFor(cfg, m)
    ensures !HasSuffix(SegKeyFor(cfg, m), META_SUFFIX)
  {
    hide KeyHead, SegKeyFor;
    KeyStarts(cfg, m);
    var key := SegKeyFor(cfg, m);
    var full := key + META_SUFFIX;
    assert full[|full| - 5..] == META_SUFFIX && full[..|full| - 5] == key;
    assert key[|key| - 5..][4] == key[|key| - 1] && META_SUFFIX[4] == 'a';
  }
}
