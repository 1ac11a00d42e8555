/**
 * The string operations the views call: `toLowerCase`/`toUpperCase`
 * (ASCII letters only), `trim` (the script engine's whitespace set),
 * `includes` and the decimal rendering of a number in a template string.
 */
module Text {

  predicate IsUpperAscii(c: char)
  {
    'A' <= c <= 'Z'
  }

  predicate IsLowerAscii(c: char)
  {
    'a' <= c <= 'z'
  }

  function LowerChar(c: char): (r: char)
    ensures !IsUpperAscii(r)
    ensures !IsUpperAscii(c) ==> r == c
  {
    if IsUpperAscii(c) then (c as int + 32) as char else c
  }

  function UpperChar(c: char): (r: char)
    ensures !IsLowerAscii(r)
    ensures !IsLowerAscii(c) ==> r == c
  {
    if IsLowerAscii(c) then (c as int - 32) as char else c
  }

  function Lower(s: string): (r: string)
    ensures |r| == |s|
    ensures forall i :: 0 <= i < |s| ==> r[i] == LowerChar(s[i])
  {
    seq(|s|, i requires 0 <= i < |s| => LowerChar(s[i]))
  }

  function Upper(s: string): (r: string)
    ensures |r| == |s|
    ensures forall i :: 0 <= i < |s| ==> r[i] == UpperChar(s[i])
  {
    seq(|s|, i requires 0 <= i < |s| => UpperChar(s[i]))
  }

  /** No ASCII capital letter occurs in `s`. */
  predicate HasNoCapitals(s: string)
  {
    forall i :: 0 <= i < |s| ==> !IsUpperAscii(s[i])
  }

  /** Upper-casing then lower-casing restores a string with no capitals. */
  lemma LowerUpper(s: string)
    requires HasNoCapitals(s)
    ensures Lower(Upper(s)) == s
  {
    forall i | 0 <= i < |s|
      ensures Lower(Upper(s))[i] == s[i]
    {
      var c := s[i];
      if IsLowerAscii(c) {
        assert UpperChar(c) as int == c as int - 32;
      }
    }
  }

  /** `s.includes(t)`: `t` occurs in `s` as a contiguous block. */
  predicate Contains(s: string, t: string)
  {
    exists i :: 0 <= i <= |s| && OccursAt(s, t, i)
  }

  /** `t` occurs in `s` starting at index `i`. */
  predicate OccursAt(s: string, t: string, i: int)
  {
    0 <= i && i + |t| <= |s| && s[i..i + |t|] == t
  }

  lemma ContainsEmpty(s: string)
    ensures Contains(s, "")
  {
    assert OccursAt(s, "", 0);
  }

  lemma ContainsTransitive(a: string, b: string, c: string)
    requires Contains(a, b) && Contains(b, c)
    ensures Contains(a, c)
  {
    var i :| 0 <= i <= |a| && OccursAt(a, b, i);
    var j :| 0 <= j <= |b| && OccursAt(b, c, j);
    forall k | 0 <= k < |c|
      ensures a[i + j + k] == c[k]
    {
      assert c[k] == b[j + k] == a[i..i + |b|][j + k];
    }
    assert a[i + j..i + j + |c|] == c;
    assert OccursAt(a, c, i + j);
  }

  /** Lower-casing both sides keeps an occurrence. */
  lemma LowerContains(s: string, t: string)
    requires Contains(s, t)
    ensures Contains(Lower(s), Lower(t))
  {
    var i :| 0 <= i <= |s| && OccursAt(s, t, i);
    assert Lower(s)[i..i + |t|] == Lower(t);
    assert OccursAt(Lower(s), Lower(t), i);
  }

  /** The characters `String.prototype.trim` strips: white space and line terminators. */
  predicate IsJsSpace(c: char)
  {
    c == '\t' || c == '\n' || c == '\U{000B}' || c == '\U{000C}' || c == '\r' || c == ' '
    || c == '\U{00A0}' || c == '\U{1680}' || ('\U{2000}' <= c <= '\U{200A}')
    || c == '\U{2028}' || c == '\U{2029}' || c == '\U{202F}' || c == '\U{205F}'
    || c == '\U{3000}' || c == '\U{FEFF}'
  }

  predicate AllSpace(s: string)
  {
    forall i :: 0 <= i < |s| ==> IsJsSpace(s[i])
  }

  /** Every character of `s` from index `i` up to `j` is white space. */
  predicate SpaceBetween(s: string, i: int, j: int)
    requires 0 <= i <= j <= |s|
  {
    forall n :: i <= n < j ==> IsJsSpace(s[n])
  }

  function TrimStart(s: string): (r: string)
    ensures |r| <= |s| && r == s[|s| - |r|..]
    ensures SpaceBetween(s, 0, |s| - |r|)
    ensures r != "" ==> !IsJsSpace(r[0])
  {
    if |s| > 0 && IsJsSpace(s[0]) then TrimStart(s[1..]) else s
  }

  function TrimEnd(s: string): (r: string)
    ensures |r| <= |s| && r == s[..|r|]
    ensures SpaceBetween(s, |r|, |s|)
    ensures r != "" ==> !IsJsSpace(r[|r| - 1])
  {
    if |s| > 0 && IsJsSpace(s[|s| - 1]) then TrimEnd(s[..|s| - 1]) else s
  }

  /**
   * `r` is `s` with its first `k` characters and everything after the next
   * `|r|` stripped, all of them white space.
   */
  predicate MiddleOf(s: string, k: int, r: string)
  {
    0 <= k && k + |r| <= |s|
    && SpaceBetween(s, 0, k) && r == s[k..k + |r|] && SpaceBetween(s, k + |r|, |s|)
  }

  /**
   * `s.trim()`: the middle of `s` between a white-space prefix and a
   * white-space suffix, neither starting nor ending with white space, so
   * both strips are as long as they can be.
   */
  function Trim(s: string): (r: string)
    ensures |r| <= |s|
    ensures MiddleOf(s, |s| - |TrimStart(s)|, r)
    ensures r != "" ==> !IsJsSpace(r[0]) && !IsJsSpace(r[|r| - 1])
  {
    var a := TrimStart(s);
    StripShape(s, a, TrimEnd(a));
    TrimEnd(a)
  }

  /**
   * A leading strip `a` of `s` followed by a trailing strip `r` of `a`
   * leaves `r` in the middle of `s`.
   */
  lemma StripShape(s: string, a: string, r: string)
    requires |a| <= |s| && a == s[|s| - |a|..] && SpaceBetween(s, 0, |s| - |a|)
    requires a != "" ==> !IsJsSpace(a[0])
    requires |r| <= |a| && r == a[..|r|] && SpaceBetween(a, |r|, |a|)
    ensures MiddleOf(s, |s| - |a|, r)
    ensures r != "" ==> !IsJsSpace(r[0])
  {
    var k := |s| - |a|;
    assert r != "" ==> r[0] == a[0];
    assert r == s[k..k + |r|];
    forall n | k + |r| <= n < |s| ensures IsJsSpace(s[n]) {
      assert s[n] == a[n - k];
    }
  }

  /** `s.trim()` is empty exactly when `s` is all white space. */
  lemma TrimEmpty(s: string)
    ensures Trim(s) == "" <==> AllSpace(s)
  {
    var r := Trim(s);
    var k := |s| - |TrimStart(s)|;
    if r != "" {
      assert r[0] == s[k];
    }
  }

  function DigitChar(d: int): char
    requires 0 <= d < 10
  {
    "0123456789"[d]
  }

  /** The decimal digits of `n`, without leading zeros. */
  function NatToString(n: nat): (r: string)
    ensures |r| > 0
    decreases n
  {
    if n < 10 then [DigitChar(n)] else NatToString(n / 10) + [DigitChar(n % 10)]
  }

  /** A number as a template string renders an integer. */
  function IntToString(n: int): string
  {
    if n < 0 then "-" + NatToString(-n) else NatToString(n)
  }
}
