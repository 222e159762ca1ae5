/** The handful of Python string operations the document-resolution code relies
    on: `lower()`/`upper()`, the substring test `p in s`, slicing `s[:n]`,
    `s[n:]`, `s[-2:]`, `startswith`, `replace`, `strip`, `str(int)` and `int(str)`.
    Case mapping and whitespace are ASCII only. */
module Text {
  import opened Wrappers

  // ---------------------------------------------------------------------------
  // Case mapping

  function LowerChar(c: char): char {
    if 'A' <= c <= 'Z' then (c as int - 'A' as int + 'a' as int) as char else c
  }

  function UpperChar(c: char): char {
    if 'a' <= c <= 'z' then (c as int - 'a' as int + 'A' as int) as char else c
  }

  /** `s.lower()` */
  function Lower(s: string): (r: string)
    ensures |r| == |s|
    ensures forall i :: 0 <= i < |s| ==> r[i] == LowerChar(s[i])
  {
    if s == [] then [] else [LowerChar(s[0])] + Lower(s[1..])
  }

  /** `s.upper()` */
  function Upper(s: string): (r: string)
    ensures |r| == |s|
    ensures forall i :: 0 <= i < |s| ==> r[i] == UpperChar(s[i])
  {
    if s == [] then [] else [UpperChar(s[0])] + Upper(s[1..])
  }

  lemma LowerAppend(a: string, b: string)
    ensures Lower(a + b) == Lower(a) + Lower(b)
  {
    var l, r := Lower(a + b), Lower(a) + Lower(b);
    forall i | 0 <= i < |l|
      ensures l[i] == r[i]
    {
      if i < |a| {
        assert (a + b)[i] == a[i];
      } else {
        assert (a + b)[i] == b[i - |a|];
      }
    }
  }

  // ---------------------------------------------------------------------------
  // Substrings

  /** `p` occurs in `s` starting at index `i`. */
  predicate MatchAt(s: string, p: string, i: nat) {
    i + |p| <= |s| && s[i..i + |p|] == p
  }

  /** Python's `p in s` for strings; the empty pattern occurs everywhere. */
  predicate Contains(s: string, p: string) {
    exists i | 0 <= i <= |s| :: MatchAt(s, p, i)
  }

  lemma ContainsAt(s: string, p: string, i: nat)
    requires MatchAt(s, p, i)
    ensures Contains(s, p)
  {
  }

  lemma NotContainsLonger(s: string, p: string)
    requires |p| > |s|
    ensures !Contains(s, p)
  {
  }

  /** A pattern that occurs in `s` still occurs when text is added around `s`. */
  lemma ContainsInfix(a: string, s: string, b: string, p: string)
    requires Contains(s, p)
    ensures Contains(a + s + b, p)
  {
    var i :| 0 <= i <= |s| && MatchAt(s, p, i);
    assert (a + s + b)[|a| + i..|a| + i + |p|] == s[i..i + |p|];
    ContainsAt(a + s + b, p, |a| + i);
  }

  /** Every prefix of a pattern that occurs in `s` occurs in `s` too. */
  lemma ContainsPrefixOfPattern(s: string, p: string, k: nat)
    requires Contains(s, p) && k <= |p|
    ensures Contains(s, p[..k])
  {
    var i :| 0 <= i <= |s| && MatchAt(s, p, i);
    assert s[i..i + k] == p[..k];
    ContainsAt(s, p[..k], i);
  }

  /** Every suffix of a pattern that occurs in `s` occurs in `s` too. */
  lemma ContainsSuffixOfPattern(s: string, p: string, k: nat)
    requires Contains(s, p) && k <= |p|
    ensures Contains(s, p[k..])
  {
    var i :| 0 <= i <= |s| && MatchAt(s, p, i);
    assert s[i + k..i + |p|] == p[k..];
    ContainsAt(s, p[k..], i + k);
  }

  /** Both halves of a pattern that occurs in `s` occur in `s`. */
  lemma ContainsConcatParts(s: string, a: string, b: string)
    requires Contains(s, a + b)
    ensures Contains(s, a) && Contains(s, b)
  {
    ContainsPrefixOfPattern(s, a + b, |a|);
    ContainsSuffixOfPattern(s, a + b, |a|);
    assert (a + b)[..|a|] == a && (a + b)[|a|..] == b;
  }

  /** A pattern with a character that `s` lacks does not occur in `s`. */
  lemma NotContainsMissingChar(s: string, p: string, c: char)
    requires c in p && c !in s
    ensures !Contains(s, p)
  {
    var k :| 0 <= k < |p| && p[k] == c;
    forall i | 0 <= i <= |s|
      ensures !MatchAt(s, p, i)
    {
      if i + |p| <= |s| {
        assert s[i..i + |p|][k] == s[i + k];
      }
    }
  }

  /** Lower-casing the text keeps every occurrence of a pattern, lower-cased. */
  lemma ContainsLower(s: string, p: string)
    requires Contains(s, p)
    ensures Contains(Lower(s), Lower(p))
  {
    var i :| 0 <= i <= |s| && MatchAt(s, p, i);
    assert Lower(s)[i..i + |p|] == Lower(p);
    ContainsAt(Lower(s), Lower(p), i);
  }

  /** `Lower(s)` holds `c` only where `s` holds `c` or, for a lower-case
      letter, its capital. */
  lemma NotInLower(s: string, c: char)
    requires c !in s && ('a' <= c <= 'z' ==> UpperChar(c) !in s)
    ensures c !in Lower(s)
  {
    forall i | 0 <= i < |s|
      ensures Lower(s)[i] != c
    {
      assert s[i] != c;
      if 'a' <= c <= 'z' {
        assert s[i] != UpperChar(c);
      }
    }
  }

  // ---------------------------------------------------------------------------
  // Slicing

  /** `s[:n]` for n >= 0 */
  function Take(s: string, n: nat): (r: string)
    ensures |r| == if n < |s| then n else |s|
    ensures r <= s
  {
    if n < |s| then s[..n] else s
  }

  /** `s[n:]` for n >= 0 */
  function Drop(s: string, n: nat): (r: string)
    ensures |r| == if n < |s| then |s| - n else 0
    ensures n <= |s| ==> s == s[..n] + r
  {
    if n < |s| then s[n..] else []
  }

  /** `s[-2:]` */
  function LastTwo(s: string): (r: string)
    ensures |r| == if |s| < 2 then |s| else 2
    ensures |s| >= 2 ==> s == s[..|s| - 2] + r
  {
    if |s| < 2 then s else s[|s| - 2..]
  }

  /** `s.startswith(p)` */
  predicate StartsWith(s: string, p: string) {
    |p| <= |s| && s[..|p|] == p
  }

  /** `s.replace(pat, rep)` for a non-empty `pat`: occurrences are replaced
      left to right without overlapping. */
  function Replace(s: string, pat: string, rep: string): (r: string)
    requires pat != []
    decreases |s|
  {
    if |s| < |pat| then s
    else if s[..|pat|] == pat then rep + Replace(s[|pat|..], pat, rep)
    else [s[0]] + Replace(s[1..], pat, rep)
  }

  /** Replacing a pattern that does not occur changes nothing. */
  lemma {:induction false} ReplaceAbsent(s: string, pat: string, rep: string)
    requires pat != [] && !Contains(s, pat)
    ensures Replace(s, pat, rep) == s
    decreases |s|
  {
    if |s| >= |pat| {
      assert s[..|pat|] != pat by { if s[..|pat|] == pat { ContainsAt(s, pat, 0); } }
      assert !Contains(s[1..], pat) by {
        if Contains(s[1..], pat) {
          var i :| 0 <= i <= |s[1..]| && MatchAt(s[1..], pat, i);
          assert s[i + 1..i + 1 + |pat|] == s[1..][i..i + |pat|];
          ContainsAt(s, pat, i + 1);
        }
      }
      ReplaceAbsent(s[1..], pat, rep);
    }
  }

  // ---------------------------------------------------------------------------
  // Whitespace

  /** The characters for which Python's `str.isspace()` holds: those that
      `str.strip()` removes and regex `\s` matches. */
  predicate IsSpace(c: char) {
    || '\t' <= c <= '\r' || '\U{1C}' <= c <= ' '
    || c == '\U{85}' || c == '\U{A0}' || c == '\U{1680}'
    || '\U{2000}' <= c <= '\U{200A}' || c == '\U{2028}' || c == '\U{2029}'
    || c == '\U{202F}' || c == '\U{205F}' || c == '\U{3000}'
  }

  /** The first position at or after `k` that is not whitespace. */
  function SkipSpace(q: string, k: nat): (j: nat)
    requires k <= |q|
    ensures k <= j <= |q| && (j < |q| ==> !IsSpace(q[j]))
    ensures forall m :: k <= m < j ==> IsSpace(q[m])
    decreases |q| - k
  {
    if k < |q| && IsSpace(q[k]) then SkipSpace(q, k + 1) else k
  }

  /** The end of `s[lo..j]` once its trailing whitespace is dropped. */
  function TrimEnd(s: string, lo: nat, j: nat): (e: nat)
    requires lo <= j <= |s|
    ensures lo <= e <= j && (lo < e ==> !IsSpace(s[e - 1]))
    ensures forall m :: e <= m < j ==> IsSpace(s[m])
  {
    if lo < j && IsSpace(s[j - 1]) then TrimEnd(s, lo, j - 1) else j
  }

  /** `s.strip()`: the slice of `s` between its leading and its trailing
      whitespace. */
  function Strip(s: string): (r: string)
    ensures var i := SkipSpace(s, 0);
      i + |r| <= |s| && r == s[i..i + |r|]
      && (forall k :: 0 <= k < i ==> IsSpace(s[k]))
      && (forall k :: i + |r| <= k < |s| ==> IsSpace(s[k]))
    ensures r != [] ==> !IsSpace(r[0]) && !IsSpace(r[|r| - 1])
  {
    var i := SkipSpace(s, 0);
    s[i..TrimEnd(s, i, |s|)]
  }

  /** A string that neither starts nor ends with whitespace is its own strip. */
  lemma StripUnspaced(s: string)
    requires s != [] ==> !IsSpace(s[0]) && !IsSpace(s[|s| - 1])
    ensures Strip(s) == s
  {
    assert SkipSpace(s, 0) == 0 && TrimEnd(s, 0, |s|) == |s|;
  }

  // ---------------------------------------------------------------------------
  // Decimal numerals

  predicate IsDigit(c: char) {
    '0' <= c <= '9'
  }

  predicate AllDigits(s: string) {
    forall i :: 0 <= i < |s| ==> IsDigit(s[i])
  }

  function DigitChar(d: nat): (c: char)
    requires d < 10
    ensures IsDigit(c)
  {
    ('0' as int + d) as char
  }

  function DigitValue(c: char): (d: nat)
    requires IsDigit(c)
    ensures d < 10 && DigitChar(d) == c
  {
    c as int - '0' as int
  }

  /** `str(n)` for a natural number: no leading zeros. */
  function NatToString(n: nat): (r: string)
    ensures r != [] && AllDigits(r)
    ensures |r| > 1 ==> r[0] != '0'
  {
    if n < 10 then [DigitChar(n)] else NatToString(n / 10) + [DigitChar(n % 10)]
  }

  /** `str(i)` */
  function IntToString(i: int): string {
    if i < 0 then "-" + NatToString(-i) else NatToString(i)
  }

  /** `str(i)` ends in the units digit. */
  lemma IntToStringEndsInDigit(i: int)
    ensures IntToString(i) != [] && IsDigit(IntToString(i)[|IntToString(i)| - 1])
  {
    if i < 0 {
      assert IntToString(i)[|IntToString(i)| - 1] == NatToString(-i)[|NatToString(-i)| - 1];
    }
  }

  /** The value of a non-empty string of decimal digits. */
  function DigitsValue(s: string): (n: nat)
    requires s != [] && AllDigits(s)
  {
    if |s| == 1 then DigitValue(s[0])
    else DigitsValue(s[..|s| - 1]) * 10 + DigitValue(s[|s| - 1])
  }

  /** Reading back what `str` writes gives the number again. */
  lemma {:induction false} DigitsValueOfNatToString(n: nat)
    ensures DigitsValue(NatToString(n)) == n
  {
    if n >= 10 {
      var s := NatToString(n);
      assert s[..|s| - 1] == NatToString(n / 10);
      DigitsValueOfNatToString(n / 10);
    }
  }

  /** The last character of `str(n)` is the units digit. */
  lemma LastDigitOfNatToString(n: nat)
    ensures NatToString(n)[|NatToString(n)| - 1] == DigitChar(n % 10)
  {
  }

  lemma TwoDigitSplit(n: nat)
    ensures n % 100 == (n / 10 % 10) * 10 + n % 10
  {
    var a := n / 10;
    assert n == 10 * a + n % 10;
    assert a == 10 * (a / 10) + a % 10;
    assert n == 100 * (a / 10) + (10 * (a % 10) + n % 10);
  }

  /** `str(n)[-2:]` spells `n % 100` (one digit when n < 10). */
  lemma LastTwoOfNatToString(n: nat)
    ensures AllDigits(LastTwo(NatToString(n)))
    ensures DigitsValue(LastTwo(NatToString(n))) == n % 100
  {
    var s := NatToString(n);
    if n >= 10 {
      var front := NatToString(n / 10);
      assert s == front + [DigitChar(n % 10)];
      LastDigitOfNatToString(n / 10);
      var l := LastTwo(s);
      assert l == [DigitChar(n / 10 % 10), DigitChar(n % 10)];
      assert l[..1] == [DigitChar(n / 10 % 10)];
      assert DigitsValue(l) == (n / 10 % 10) * 10 + n % 10;
      TwoDigitSplit(n);
    }
  }

  /** `int(s)` for the strings Python accepts without underscores: optional
      surrounding whitespace, an optional sign, then at least one ASCII digit.
      `None` stands for the `ValueError` Python raises otherwise. */
  function ParseInt(s: string): (r: Option<int>)
    ensures r.Some? ==> Strip(s) != []
  {
    var t := Strip(s);
    if t == [] then None
    else if t[0] == '-' || t[0] == '+' then
      var digits := t[1..];
      if digits != [] && AllDigits(digits) then
        var v: int := DigitsValue(digits);
        Some(if t[0] == '-' then -v else v)
      else None
    else if AllDigits(t) then Some(DigitsValue(t))
    else None
  }
}
