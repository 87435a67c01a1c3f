/**
  White-space trimming as the Go library defines it: the characters with the
  Unicode White_Space property are removed from both ends.
 */
module Text {

  predicate IsSpace(c: char) {
    || '\t' <= c <= '\r' || c == ' '
    || c == '\U{0085}' || c == '\U{00A0}' || c == '\U{1680}'
    || '\U{2000}' <= c <= '\U{200A}'
    || c == '\U{2028}' || c == '\U{2029}' || c == '\U{202F}' || c == '\U{205F}' || c == '\U{3000}'
  }

  predicate AllSpace(s: string) {
    forall i | 0 <= i < |s| :: IsSpace(s[i])
  }

  /** No white space at either end. */
  predicate Trimmed(s: string) {
    s == [] || (!IsSpace(s[0]) && !IsSpace(s[|s| - 1]))
  }

  function TrimLeft(s: string): string {
    if s == [] || !IsSpace(s[0]) then s else TrimLeft(s[1..])
  }

  function TrimRight(s: string): string {
    if s == [] || !IsSpace(s[|s| - 1]) then s else TrimRight(s[..|s| - 1])
  }

  function TrimSpace(s: string): string {
    TrimRight(TrimLeft(s))
  }

  /** Only white space is cut off on the left, and all of it. */
  lemma {:induction false} TrimLeftCuts(s: string)
    ensures var r := TrimLeft(s);
            && |r| <= |s| && r == s[|s| - |r|..]
            && AllSpace(s[..|s| - |r|])
            && (r != [] ==> !IsSpace(r[0]))
  {
    if s == [] || !IsSpace(s[0]) {
    } else {
      TrimLeftCuts(s[1..]);
      var r := TrimLeft(s);
      assert s[..|s| - |r|] == [s[0]] + s[1..][..|s| - 1 - |r|];
    }
  }

  lemma {:induction false} TrimRightCuts(s: string)
    ensures var r := TrimRight(s);
            && |r| <= |s| && r == s[..|r|]
            && AllSpace(s[|r|..])
            && (r != [] ==> !IsSpace(r[|r| - 1]))
  {
    if s == [] || !IsSpace(s[|s| - 1]) {
    } else {
      TrimRightCuts(s[..|s| - 1]);
      var r := TrimRight(s);
      assert s[|r|..] == s[..|s| - 1][|r|..] + [s[|s| - 1]];
    }
  }

  /** Trimming keeps a middle part and cuts white space only. */
  lemma {:induction false} TrimSpaceCuts(s: string)
    ensures Trimmed(TrimSpace(s))
    ensures exists l, r :: s == l + TrimSpace(s) + r && AllSpace(l) && AllSpace(r)
  {
    TrimLeftCuts(s);
    TrimRightCuts(TrimLeft(s));
    var t, m := TrimLeft(s), TrimSpace(s);
    assert s == s[..|s| - |t|] + m + t[|m|..];
  }

  /** Trimming leaves nothing exactly when there is nothing but white space. */
  lemma {:induction false} BlankTrims(s: string)
    ensures TrimSpace(s) == "" <==> AllSpace(s)
  {
    TrimLeftCuts(s);
    TrimRightCuts(TrimLeft(s));
  }

  lemma {:induction false} TrimOfTrimmed(s: string)
    requires Trimmed(s)
    ensures TrimSpace(s) == s
  {
  }
}
