/**
 * The few Python string operations the core relies on, restricted to what the
 * model needs: str.strip() (with Python's full whitespace set), str.upper() and
 * str.isalpha() on ASCII letters, str.isdigit() on ASCII digits, and decimal
 * rendering of integers as str(n) produces it.
 */
module Text {
  import opened Wrappers

  /** The characters for which Python's str.isspace() holds; str.strip() removes exactly these. */
  predicate IsSpace(c: char) {
    ('\t' <= c <= '\r') || ('\U{1C}' <= c <= '\U{1F}') || c == ' ' || c == '\U{85}' || c == '\U{A0}'
    || c == '\U{1680}' || ('\U{2000}' <= c <= '\U{200A}') || c == '\U{2028}' || c == '\U{2029}'
    || c == '\U{202F}' || c == '\U{205F}' || c == '\U{3000}'
  }

  predicate IsLetter(c: char) { 'A' <= c <= 'Z' || 'a' <= c <= 'z' }

  predicate IsDigit(c: char) { '0' <= c <= '9' }

  predicate AllSpace(s: string) { forall k :: 0 <= k < |s| ==> IsSpace(s[k]) }

  predicate AllLetters(s: string) { forall k :: 0 <= k < |s| ==> IsLetter(s[k]) }

  predicate AllUpper(s: string) { forall k :: 0 <= k < |s| ==> 'A' <= s[k] <= 'Z' }

  /** str.isdigit() on ASCII: non-empty and every character a digit. */
  predicate IsDigits(s: string) { |s| > 0 && forall k :: 0 <= k < |s| ==> IsDigit(s[k]) }

  // ---------------------------------------------------------------- strip

  /** s[i..j] is what strip leaves: everything outside it is whitespace and its ends are not. */
  predicate StripSlice(s: string, i: int, j: int) {
    && 0 <= i <= j <= |s|
    && AllSpace(s[..i]) && AllSpace(s[j..])
    && (i < j ==> !IsSpace(s[i]) && !IsSpace(s[j - 1]))
  }

  /** The index of the first non-whitespace character (|s| if there is none). */
  function LeftEnd(s: string, i: nat := 0): (l: nat)
    requires i <= |s| && AllSpace(s[..i])
    ensures i <= l <= |s| && AllSpace(s[..l]) && (l < |s| ==> !IsSpace(s[l]))
    decreases |s| - i
  {
    if i < |s| && IsSpace(s[i]) then
      assert s[..i + 1] == s[..i] + [s[i]];
      LeftEnd(s, i + 1)
    else i
  }

  /** One past the last non-whitespace character at or after l (l if there is none). */
  function RightEnd(s: string, l: nat, j: nat): (r: nat)
    requires l <= j <= |s| && AllSpace(s[j..])
    ensures l <= r <= j && AllSpace(s[r..]) && (l < r ==> !IsSpace(s[r - 1]))
    decreases j
  {
    if l < j && IsSpace(s[j - 1]) then
      assert s[j - 1..] == [s[j - 1]] + s[j..];
      RightEnd(s, l, j - 1)
    else j
  }

  /** Python's s.strip(). */
  function Strip(s: string): (r: string)
    ensures exists i, j :: StripSlice(s, i, j) && r == s[i..j]
  {
    var i := LeftEnd(s);
    var j := RightEnd(s, i, |s|);
    assert StripSlice(s, i, j);
    s[i..j]
  }

  /** If a string is a word padded with whitespace, strip returns the word. */
  lemma StripPadded(pre: string, w: string, post: string)
    requires AllSpace(pre) && AllSpace(post)
    requires w != [] && !IsSpace(w[0]) && !IsSpace(w[|w| - 1])
    ensures Strip(pre + w + post) == w
  {
    var s := pre + w + post;
    assert s[..|pre|] == pre && s[|pre| + |w|..] == post && s[|pre|..|pre| + |w|] == w;
    StripSliceUnique(s, |pre|, |pre| + |w|);
  }

  /** There is only one way to cut a string into whitespace, a trimmed non-empty middle and whitespace. */
  lemma StripSliceUnique(s: string, i: int, j: int)
    requires StripSlice(s, i, j) && i < j
    ensures Strip(s) == s[i..j]
  {
    var a, b :| StripSlice(s, a, b) && Strip(s) == s[a..b];
    assert StripSlice(s, a, b);
    if a != i || b != j {
      assert false;
    }
  }

  // ---------------------------------------------------------------- upper

  /** str.upper() on one character, ASCII letters only. */
  function UpperChar(c: char): char { if 'a' <= c <= 'z' then (c as int - 32) as char else c }

  function Upper(s: string): (r: string)
    ensures |r| == |s|
    ensures forall k :: 0 <= k < |s| ==> r[k] == UpperChar(s[k])
  {
    if s == [] then [] else [UpperChar(s[0])] + Upper(s[1..])
  }

  // ---------------------------------------------------------------- decimals

  function DigitChar(d: int): char
    requires 0 <= d < 10
  {
    ('0' as int + d) as char
  }

  function DigitValue(c: char): int
    requires IsDigit(c)
  {
    c as int - '0' as int
  }

  /** str(n) for a natural number. */
  function NatToString(n: nat): (r: string)
    ensures IsDigits(r)
    decreases n
  {
    if n < 10 then [DigitChar(n)] else NatToString(n / 10) + [DigitChar(n % 10)]
  }

  /** str(n) for any integer: a minus sign before the digits of a negative number. */
  function IntToString(n: int): (r: string)
    ensures r != [] && (IsDigit(r[0]) || r[0] == '-')
  {
    if n < 0 then "-" + NatToString(-n) else NatToString(n)
  }

  /** int(s) for an optional minus sign followed by ASCII digits; None where int() raises. */
  function ParseInt(s: string): Option<int> {
    if s != [] && s[0] == '-' then
      (if IsDigits(s[1..]) then Some(0 - DigitsValue(s[1..])) else None)
    else if IsDigits(s) then Some(DigitsValue(s) as int)
    else None
  }

  /** int(str(n)) == n for every integer. */
  lemma ParseIntToString(n: int)
    ensures ParseInt(IntToString(n)) == Some(n)
  {
    if n < 0 {
      assert IntToString(n)[1..] == NatToString(-n);
      NatToStringValue(-n);
    } else {
      NatToStringValue(n);
    }
  }

  /** int(s) for a string of ASCII digits. */
  function DigitsValue(s: string): (v: nat)
    requires forall k :: 0 <= k < |s| ==> IsDigit(s[k])
  {
    if s == [] then 0 else DigitsValue(s[..|s| - 1]) * 10 + DigitValue(s[|s| - 1])
  }

  lemma {:induction false} DigitsValueAppend(a: string, b: string)
    requires forall k :: 0 <= k < |a| ==> IsDigit(a[k])
    requires forall k :: 0 <= k < |b| ==> IsDigit(b[k])
    ensures DigitsValue(a + b) == DigitsValue(a) * Pow10(|b|) + DigitsValue(b)
    decreases |b|
  {
    if b == [] {
      assert a + b == a;
    } else {
      var b' := b[..|b| - 1];
      assert (a + b)[..|a + b| - 1] == a + b';
      DigitsValueAppend(a, b');
    }
  }

  function Pow10(k: nat): nat { if k == 0 then 1 else 10 * Pow10(k - 1) }

  lemma {:induction false} DigitsValueBound(s: string)
    requires forall k :: 0 <= k < |s| ==> IsDigit(s[k])
    ensures DigitsValue(s) < Pow10(|s|)
    decreases |s|
  {
    if s != [] {
      DigitsValueBound(s[..|s| - 1]);
    }
  }

  /** int(str(n)) == n. */
  lemma {:induction false} NatToStringValue(n: nat)
    ensures DigitsValue(NatToString(n)) == n
    decreases n
  {
    if n >= 10 {
      var s := NatToString(n);
      assert s[..|s| - 1] == NatToString(n / 10);
      NatToStringValue(n / 10);
    }
  }

  /** str(n) is never zero-padded: it starts with a non-zero digit unless n is 0. */
  lemma {:induction false} NatToStringNoLeadingZero(n: nat)
    ensures NatToString(n)[0] == '0' <==> n == 0
    decreases n
  {
    if n >= 10 {
      NatToStringNoLeadingZero(n / 10);
    }
  }

  // ---------------------------------------------------------------- affixes

  /** s without the prefix p, when s starts with p. */
  function DropPrefix(p: string, s: string): (r: Option<string>)
    ensures r.Some? ==> s == p + r.value {
    if |p| <= |s| && s[..|p|] == p then Some(s[|p|..]) else None
  }

  /** s without the suffix p, when s ends with p. */
  function DropSuffix(p: string, s: string): (r: Option<string>)
    ensures r.Some? ==> s == r.value + p {
    if |p| <= |s| && s[|s| - |p|..] == p then Some(s[..|s| - |p|]) else None
  }

  lemma DropPrefixConcat(p: string, s: string)
    ensures DropPrefix(p, p + s) == Some(s)
  {
    assert (p + s)[..|p|] == p && (p + s)[|p|..] == s;
  }

  lemma DropSuffixConcat(p: string, s: string)
    ensures DropSuffix(p, s + p) == Some(s)
  {
    assert (s + p)[|s|..] == p && (s + p)[..|s|] == s;
  }
}
