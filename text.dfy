/** Strings as the JavaScript runtime sees them: the white-space class used by `\s`
    and `String.prototype.trim`, prefix and substring tests, and the decimal
    rendering a template literal gives an integer. */
module Text {

  /** The characters that `\s` matches and that `trim` removes (ECMAScript
      WhiteSpace and LineTerminator). */
  predicate IsWhiteSpace(c: char) {
    || c == '\t' || c == '\n' || c == '\U{000B}' || c == '\U{000C}' || c == '\r'
    || c == ' ' || c == '\U{00A0}' || c == '\U{1680}'
    || ('\U{2000}' <= c <= '\U{200A}')
    || c == '\U{2028}' || c == '\U{2029}' || c == '\U{202F}' || c == '\U{205F}'
    || c == '\U{3000}' || c == '\U{FEFF}'
  }

  predicate AllWhiteSpace(s: string) {
    forall i :: 0 <= i < |s| ==> IsWhiteSpace(s[i])
  }

  /** The ASCII digits that `\d` matches. */
  predicate IsDigit(c: char) {
    '0' <= c <= '9'
  }

  predicate AllDigits(s: string) {
    forall i :: 0 <= i < |s| ==> IsDigit(s[i])
  }

  /** The index of the first character at or after `i` that is not white space
      (`|s|` if there is none). */
  function SkipWhiteSpace(s: string, i: nat): (k: nat)
    requires i <= |s|
    ensures i <= k <= |s|
    ensures forall q :: i <= q < k ==> IsWhiteSpace(s[q])
    ensures k == |s| || !IsWhiteSpace(s[k])
    decreases |s| - i
  {
    if i < |s| && IsWhiteSpace(s[i]) then SkipWhiteSpace(s, i + 1) else i
  }

  /** The index just past the last character before `j` that is not white space
      (`0` if there is none). */
  function BackOverWhiteSpace(s: string, j: nat): (k: nat)
    requires j <= |s|
    ensures k <= j
    ensures forall q :: k <= q < j ==> IsWhiteSpace(s[q])
    ensures k == 0 || !IsWhiteSpace(s[k - 1])
  {
    if j > 0 && IsWhiteSpace(s[j - 1]) then BackOverWhiteSpace(s, j - 1) else j
  }

  /** Leading white space removed: a suffix of `s`. */
  function TrimStart(s: string): (r: string)
    ensures |r| <= |s| && r == s[|s| - |r|..]
  {
    s[SkipWhiteSpace(s, 0)..]
  }

  /** Trailing white space removed: a prefix of `s`. */
  function TrimEnd(s: string): (r: string)
    ensures |r| <= |s| && r == s[..|r|]
  {
    s[..BackOverWhiteSpace(s, |s|)]
  }

  /** `String.prototype.trim`. */
  function Trim(s: string): string {
    TrimEnd(TrimStart(s))
  }

  /** `!s.trim()`: the string is empty once trimmed. */
  predicate IsBlank(s: string) {
    Trim(s) == ""
  }

  /** What `TrimStart` drops is white space, and what it keeps does not start with
      white space. */
  lemma TrimStartSpec(s: string)
    ensures AllWhiteSpace(s[..|s| - |TrimStart(s)|])
    ensures TrimStart(s) == [] || !IsWhiteSpace(TrimStart(s)[0])
  {
    var k := SkipWhiteSpace(s, 0);
    assert |s| - |TrimStart(s)| == k;
    assert forall q :: 0 <= q < k ==> s[..k][q] == s[q];
  }

  /** What `TrimEnd` drops is white space, and what it keeps does not end with white
      space. */
  lemma TrimEndSpec(s: string)
    ensures AllWhiteSpace(s[|TrimEnd(s)|..])
    ensures TrimEnd(s) == [] || !IsWhiteSpace(TrimEnd(s)[|TrimEnd(s)| - 1])
  {
    var k := BackOverWhiteSpace(s, |s|);
    assert |TrimEnd(s)| == k;
    assert forall q :: 0 <= q < |s| - k ==> s[k..][q] == s[k + q];
  }

  /** The string neither starts nor ends with white space. */
  predicate NoEdgeSpace(s: string) {
    s == [] || (!IsWhiteSpace(s[0]) && !IsWhiteSpace(s[|s| - 1]))
  }

  /** A trimmed string neither starts nor ends with white space. */
  lemma TrimEdges(s: string)
    ensures NoEdgeSpace(Trim(s))
  {
    var u := TrimStart(s);
    TrimStartSpec(s);
    TrimEndSpec(u);
    var t := TrimEnd(u);
    assert t != [] ==> t[0] == u[0];
  }

  /** A string is blank exactly when every one of its characters is white space. */
  lemma BlankIffAllWhiteSpace(s: string)
    ensures IsBlank(s) <==> AllWhiteSpace(s)
  {
    var k := SkipWhiteSpace(s, 0);
    var t := s[k..];
    if k < |s| {
      var m := BackOverWhiteSpace(t, |t|);
      assert t[0] == s[k];
      assert m > 0;
    }
  }

  /** Any way of writing `s` as white space, a core that neither starts nor ends
      with white space, and white space again, gives `Trim(s)` as that core. */
  lemma TrimIsCore(s: string, a: nat, b: nat)
    requires a <= b <= |s|
    requires AllWhiteSpace(s[..a]) && AllWhiteSpace(s[b..])
    requires a == b || (!IsWhiteSpace(s[a]) && !IsWhiteSpace(s[b - 1]))
    ensures Trim(s) == s[a..b]
  {
    TrimSlice(s, 0, a, b, |s|) by {
      forall q | 0 <= q < a ensures IsWhiteSpace(s[q]) {
        assert s[..a][q] == s[q];
      }
      forall q | b <= q < |s| ensures IsWhiteSpace(s[q]) {
        assert s[b..][q - b] == s[q];
      }
    }
    assert s[0..|s|] == s;
  }

  /** `SkipWhiteSpace` stops at the first character that is not white space. */
  lemma SkipAt(s: string, i: nat, a: nat)
    requires i <= a <= |s|
    requires forall q :: i <= q < a ==> IsWhiteSpace(s[q])
    requires a == |s| || !IsWhiteSpace(s[a])
    ensures SkipWhiteSpace(s, i) == a
  {
  }

  /** `BackOverWhiteSpace` stops after the last character that is not white space. */
  lemma BackAt(s: string, j: nat, b: nat)
    requires b <= j <= |s|
    requires forall q :: b <= q < j ==> IsWhiteSpace(s[q])
    requires b == 0 || !IsWhiteSpace(s[b - 1])
    ensures BackOverWhiteSpace(s, j) == b
  {
  }

  /** `TrimIsCore` for a slice `s[lo..hi]` whose core is `s[a..b]`. */
  lemma TrimSlice(s: string, lo: nat, a: nat, b: nat, hi: nat)
    requires lo <= a <= b <= hi <= |s|
    requires forall q :: lo <= q < a ==> IsWhiteSpace(s[q])
    requires forall q :: b <= q < hi ==> IsWhiteSpace(s[q])
    requires a == b || (!IsWhiteSpace(s[a]) && !IsWhiteSpace(s[b - 1]))
    ensures Trim(s[lo..hi]) == s[a..b]
  {
    if a == b {
      TrimBlankSlice(s, lo, a, hi);
    } else {
      TrimCoreSlice(s, lo, a, b, hi);
    }
  }

  lemma TrimBlankSlice(s: string, lo: nat, a: nat, hi: nat)
    requires lo <= a <= hi <= |s|
    requires forall q :: lo <= q < a ==> IsWhiteSpace(s[q])
    requires forall q :: a <= q < hi ==> IsWhiteSpace(s[q])
    ensures Trim(s[lo..hi]) == []
  {
    var t := s[lo..hi];
    forall q | 0 <= q < |t| ensures IsWhiteSpace(t[q]) {
      assert t[q] == s[lo + q];
    }
    SkipAt(t, 0, |t|);
  }

  lemma TrimCoreSlice(s: string, lo: nat, a: nat, b: nat, hi: nat)
    requires lo <= a < b <= hi <= |s|
    requires forall q :: lo <= q < a ==> IsWhiteSpace(s[q])
    requires forall q :: b <= q < hi ==> IsWhiteSpace(s[q])
    requires !IsWhiteSpace(s[a]) && !IsWhiteSpace(s[b - 1])
    ensures Trim(s[lo..hi]) == s[a..b]
  {
    TrimStartSlice(s, lo, a, hi);
    TrimEndSlice(s, lo, a, b, hi);
    SliceOfSlice(s, lo, hi, a, b);
  }

  lemma TrimStartSlice(s: string, lo: nat, a: nat, hi: nat)
    requires lo <= a < hi <= |s|
    requires forall q :: lo <= q < a ==> IsWhiteSpace(s[q])
    requires !IsWhiteSpace(s[a])
    ensures TrimStart(s[lo..hi]) == s[lo..hi][a - lo..]
  {
    var t := s[lo..hi];
    forall q | 0 <= q < a - lo ensures IsWhiteSpace(t[q]) {
      assert t[q] == s[lo + q];
    }
    assert t[a - lo] == s[a];
    SkipAt(t, 0, a - lo);
  }

  lemma TrimEndSlice(s: string, lo: nat, a: nat, b: nat, hi: nat)
    requires lo <= a < b <= hi <= |s|
    requires forall q :: b <= q < hi ==> IsWhiteSpace(s[q])
    requires !IsWhiteSpace(s[b - 1])
    ensures TrimEnd(s[lo..hi][a - lo..]) == s[lo..hi][a - lo..][..b - a]
  {
    var u := s[lo..hi][a - lo..];
    forall q | b - a <= q < |u| ensures IsWhiteSpace(u[q]) {
      assert u[q] == s[a + q];
    }
    assert u[b - a - 1] == s[b - 1];
    BackAt(u, |u|, b - a);
  }

  lemma SliceOfSlice<T>(s: seq<T>, lo: nat, hi: nat, a: nat, b: nat)
    requires lo <= a <= b <= hi <= |s|
    ensures s[lo..hi][a - lo..][..b - a] == s[a..b]
  {
    var u, v := s[lo..hi][a - lo..][..b - a], s[a..b];
    forall q | 0 <= q < |u| ensures u[q] == v[q] {
      assert u[q] == s[a + q];
    }
  }

  predicate StartsWith(s: string, prefix: string) {
    |prefix| <= |s| && s[..|prefix|] == prefix
  }

  /** `String.prototype.includes`: `sub` occurs somewhere in `s`. */
  predicate Contains(s: string, sub: string)
    decreases |s|
  {
    StartsWith(s, sub) || (s != [] && Contains(s[1..], sub))
  }

  predicate OccursAt(s: string, sub: string, i: int) {
    0 <= i && i + |sub| <= |s| && s[i..i + |sub|] == sub
  }

  /** `Contains` agrees with the positional definition of an occurrence. */
  lemma {:induction false} ContainsAt(s: string, sub: string)
    ensures Contains(s, sub) <==> exists i :: OccursAt(s, sub, i)
  {
    if s != [] {
      ContainsAt(s[1..], sub);
      if StartsWith(s, sub) {
        assert OccursAt(s, sub, 0);
      }
      if Contains(s[1..], sub) {
        var i :| OccursAt(s[1..], sub, i);
        assert s[i + 1..i + 1 + |sub|] == s[1..][i..i + |sub|];
        assert OccursAt(s, sub, i + 1);
      }
      if i :| OccursAt(s, sub, i) {
        if i > 0 {
          assert s[1..][i - 1..i - 1 + |sub|] == s[i..i + |sub|];
          assert OccursAt(s[1..], sub, i - 1);
        } else {
          assert StartsWith(s, sub);
        }
      }
    } else if sub == [] {
      assert OccursAt(s, sub, 0);
    }
  }

  function DigitChar(d: nat): (c: char)
    requires d < 10
    ensures IsDigit(c)
  {
    "0123456789"[d]
  }

  function DigitValue(c: char): (d: nat)
    requires IsDigit(c)
    ensures d < 10
  {
    (c as int - '0' as int) as nat
  }

  /** The decimal digits of `n`, most significant first, with no leading zero:
      what `${n}` renders for a non-negative integer. */
  function NatToString(n: nat): (s: string)
    ensures s != [] && AllDigits(s)
    ensures s[0] == '0' ==> n == 0
  {
    if n < 10 then [DigitChar(n)] else NatToString(n / 10) + [DigitChar(n % 10)]
  }

  /** The value of a string of decimal digits. */
  function DecimalValue(s: string): nat
    requires AllDigits(s)
  {
    if s == [] then 0 else DecimalValue(s[..|s| - 1]) * 10 + DigitValue(s[|s| - 1])
  }

  /** Reading back the rendering of `n` gives `n`. */
  lemma {:induction false} DecimalRoundTrip(n: nat)
    ensures DecimalValue(NatToString(n)) == n
  {
    var s := NatToString(n);
    if n >= 10 {
      DecimalRoundTrip(n / 10);
      assert s[..|s| - 1] == NatToString(n / 10);
    }
  }

  lemma NatToStringInjective(a: nat, b: nat)
    requires NatToString(a) == NatToString(b)
    ensures a == b
  {
    DecimalRoundTrip(a);
    DecimalRoundTrip(b);
  }

  /** `${i}` for any integer: a minus sign before the digits of a negative one. */
  function IntToString(i: int): (s: string)
    ensures s != []
    ensures s[0] == '-' <==> i < 0
  {
    if i < 0 then "-" + NatToString(-i) else NatToString(i)
  }

  /** Distinct integers render as distinct strings. */
  lemma IntToStringInjective(a: int, b: int)
    requires IntToString(a) == IntToString(b)
    ensures a == b
  {
    var s := IntToString(a);
    assert (a < 0) == (b < 0) by { assert s[0] == IntToString(b)[0]; }
    if a < 0 {
      assert NatToString(-a) == s[1..] == NatToString(-b);
      NatToStringInjective(-a, -b);
    } else {
      NatToStringInjective(a, b);
    }
  }
}
