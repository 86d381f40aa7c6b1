/** White space, for ASCII text. */
module Text {
  predicate IsSpace(c: char) {
    c == ' ' || '\t' <= c <= '\r'
  }

  function AfterSpace(s: string): (r: string)
    ensures |r| <= |s|
    ensures r != [] ==> !IsSpace(r[0])
  {
    if s != [] && IsSpace(s[0]) then AfterSpace(s[1..]) else s
  }

  function BeforeSpace(s: string): string {
    if s != [] && IsSpace(s[|s| - 1]) then BeforeSpace(s[..|s| - 1]) else s
  }

  function TrimSpace(s: string): string {
    BeforeSpace(AfterSpace(s))
  }

  lemma {:induction false} KeepsInk(s: string)
    requires s != [] && !IsSpace(s[0])
    ensures BeforeSpace(s) != []
  {
    if IsSpace(s[|s| - 1]) {
      assert |s| > 1;
      KeepsInk(s[..|s| - 1]);
    }
  }

  lemma BlankIff(s: string)
    ensures TrimSpace(s) == "" <==> AfterSpace(s) == ""
  {
    if AfterSpace(s) != "" {
      KeepsInk(AfterSpace(s));
    }
  }
}
