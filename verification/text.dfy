/** Python's `str.strip()` with no argument, over Unicode code points.
    The bot stores the full name, the tax number and the e-mail address
    stripped of surrounding white space. */
module Text {

  /** Python's `str.isspace()` for one code point: the characters whose
      bidirectional class is WS, B or S, or whose general category is Zs. */
  predicate IsSpace(c: char) {
    || ('\t' <= c <= '\r')
    || ('\U{1C}' <= c <= '\U{1F}')
    || c == ' '
    || c == '\U{85}'
    || c == '\U{A0}'
    || c == '\U{1680}'
    || ('\U{2000}' <= c <= '\U{200A}')
    || c == '\U{2028}'
    || c == '\U{2029}'
    || c == '\U{202F}'
    || c == '\U{205F}'
    || c == '\U{3000}'
  }

  ghost predicate AllSpace(s: string) {
    forall k :: 0 <= k < |s| ==> IsSpace(s[k])
  }

  /** Neither starts nor ends with white space. */
  predicate IsStripped(s: string) {
    |s| == 0 || (!IsSpace(s[0]) && !IsSpace(s[|s| - 1]))
  }

  /** `r` is `s[i..j]`, everything outside `i..j` is white space, and `r`
      itself has no white space at either end. */
  ghost predicate StripsAt(r: string, s: string, i: int, j: int) {
    && 0 <= i <= j <= |s|
    && r == s[i..j]
    && AllSpace(s[..i])
    && AllSpace(s[j..])
    && IsStripped(r)
  }

  /** Reference definition of stripping, independent of how it is computed. */
  ghost predicate IsStripOf(r: string, s: string) {
    exists i, j :: StripsAt(r, s, i, j)
  }

  /** `str.lstrip()`: drops the leading white space. */
  function TrimStart(s: string): (r: string)
    ensures |r| <= |s|
    ensures |r| > 0 ==> !IsSpace(r[0])
    decreases |s|
  {
    if |s| > 0 && IsSpace(s[0]) then TrimStart(s[1..]) else s
  }

  /** `str.rstrip()`: drops the trailing white space. */
  function TrimEnd(s: string): (r: string)
    ensures |r| <= |s|
    ensures |r| > 0 ==> !IsSpace(r[|r| - 1])
    decreases |s|
  {
    if |s| > 0 && IsSpace(s[|s| - 1]) then TrimEnd(s[..|s| - 1]) else s
  }

  /** What `TrimStart` drops is a white-space prefix. */
  lemma {:induction false} TrimStartDropsPrefix(s: string)
    ensures var r := TrimStart(s);
      r == s[|s| - |r|..] && AllSpace(s[..|s| - |r|])
    decreases |s|
  {
    if |s| > 0 && IsSpace(s[0]) {
      TrimStartDropsPrefix(s[1..]);
      var r := TrimStart(s[1..]);
      assert s[..|s| - |r|] == [s[0]] + s[1..][..|s| - 1 - |r|];
    }
  }

  /** What `TrimEnd` drops is a white-space suffix, and the rest is a prefix of `s`. */
  lemma {:induction false} TrimEndDropsSuffix(s: string)
    ensures var r := TrimEnd(s);
      r == s[..|r|] && AllSpace(s[|r|..])
    decreases |s|
  {
    if |s| > 0 && IsSpace(s[|s| - 1]) {
      TrimEndDropsSuffix(s[..|s| - 1]);
      var r := TrimEnd(s[..|s| - 1]);
      assert s[|r|..] == s[..|s| - 1][|r|..] + [s[|s| - 1]];
    }
  }

  /** `str.strip()`. */
  function Strip(s: string): (r: string)
    ensures IsStripped(r)
    ensures |r| <= |s|
  {
    var t := TrimStart(s);
    TrimEndDropsSuffix(t);
    TrimEnd(t)
  }

  /** `Strip` meets the reference definition. */
  lemma StripMeetsReference(s: string)
    ensures IsStripOf(Strip(s), s)
  {
    var t := TrimStart(s);
    var r := TrimEnd(t);
    var i := |s| - |t|;
    TrimStartDropsPrefix(s);
    TrimEndDropsSuffix(t);
    assert s[i..i + |r|] == t[..|r|];
    assert s[i + |r|..] == t[|r|..];
    assert StripsAt(r, s, i, i + |r|);
  }

  /** Where a non-empty strip of `s` starts and ends: at the first and the
      last character of `s` that is not white space. */
  lemma StripBounds(r: string, s: string, i: int, j: int)
    requires StripsAt(r, s, i, j)
    ensures |r| > 0 ==> i < j && !IsSpace(s[i]) && !IsSpace(s[j - 1])
    ensures forall k :: 0 <= k < i ==> IsSpace(s[k])
    ensures forall k :: j <= k < |s| ==> IsSpace(s[k])
  {
    forall k | 0 <= k < i
      ensures IsSpace(s[k])
    {
      assert s[..i][k] == s[k];
    }
    forall k | j <= k < |s|
      ensures IsSpace(s[k])
    {
      assert s[j..][k - j] == s[k];
    }
  }

  /** There is only one way to strip a string: the reference definition
      determines the result. */
  lemma {:induction false} StripOfUnique(r1: string, r2: string, s: string, i1: int, j1: int, i2: int, j2: int)
    requires StripsAt(r1, s, i1, j1)
    requires StripsAt(r2, s, i2, j2)
    ensures r1 == r2
  {
    StripBounds(r1, s, i1, j1);
    StripBounds(r2, s, i2, j2);
  }

  /** `Strip` computes exactly the reference definition. */
  lemma StripIsTheStripOf(r: string, s: string)
    requires IsStripOf(r, s)
    ensures r == Strip(s)
  {
    var i1, j1 :| StripsAt(r, s, i1, j1);
    StripMeetsReference(s);
    var i2, j2 :| StripsAt(Strip(s), s, i2, j2);
    StripOfUnique(r, Strip(s), s, i1, j1, i2, j2);
  }

  /** A string with no white space at either end is left as it is. */
  lemma StripFixesStripped(s: string)
    requires IsStripped(s)
    ensures Strip(s) == s
  {
    assert s[..0] == [] && s[|s|..] == [];
    assert StripsAt(s, s, 0, |s|);
    StripIsTheStripOf(s, s);
  }

  /** Stripping twice is stripping once. */
  lemma StripIdempotent(s: string)
    ensures Strip(Strip(s)) == Strip(s)
  {
    StripFixesStripped(Strip(s));
  }
}
