/**
 * The pieces of Python's string handling and integer conversion that the core
 * relies on: `str.isspace`, `str.strip`, slicing from a column, `int(...)` on a
 * decimal numeral and `str(int)`.
 */
module PyText {
  import opened Wrappers

  /** `str.isspace` for one character (the characters `split()` and `strip()` treat as whitespace). */
  predicate IsSpace(c: char) {
    c == ' ' || ('\t' <= c <= '\r') || ('\U{1c}' <= c <= '\U{1f}') || c == '\U{85}' || c == '\U{a0}'
    || c == '\U{1680}' || ('\U{2000}' <= c <= '\U{200a}') || c == '\U{2028}' || c == '\U{2029}'
    || c == '\U{202f}' || c == '\U{205f}' || c == '\U{3000}'
  }

  /** `not s.strip()`: the string is empty or holds only whitespace. */
  predicate IsBlank(s: string) {
    forall i :: 0 <= i < |s| ==> IsSpace(s[i])
  }

  /** The slice `s[n:]` for a non-negative `n`; past the end it is empty, as in Python. */
  function Drop(s: string, n: nat): (r: string)
    ensures n <= |s| ==> s == s[..n] + r
    ensures n >= |s| ==> r == []
  {
    if n <= |s| then s[n..] else []
  }

  /** `s.lstrip()`. */
  function StripLeft(s: string): (r: string)
    ensures |r| <= |s| && r == s[|s| - |r|..]
    ensures IsBlank(s[..|s| - |r|])
    ensures r == [] || !IsSpace(r[0])
  {
    if s != [] && IsSpace(s[0]) then StripLeft(s[1..]) else s
  }

  /** `s.rstrip()`. */
  function StripRight(s: string): (r: string)
    ensures |r| <= |s| && r == s[..|r|]
    ensures IsBlank(s[|r|..])
    ensures r == [] || !IsSpace(r[|r| - 1])
  {
    if s != [] && IsSpace(s[|s| - 1]) then StripRight(s[..|s| - 1]) else s
  }

  /** `s.strip()`. */
  function Strip(s: string): string {
    StripRight(StripLeft(s))
  }

  /** `not s.strip()` holds exactly for the blank strings. */
  lemma StripEmptyIffBlank(s: string)
    ensures Strip(s) == [] <==> IsBlank(s)
  {
    var left := StripLeft(s);
    if left == [] {
      assert s[..|s|] == s;
    } else {
      assert !IsSpace(s[|s| - |left|]);
      assert StripRight(left) != [] by {
        assert left[0..] == left;
      }
    }
  }

  /** The first index at or after `i` that is not whitespace, or `|s|`. */
  function SkipSpace(s: string, i: nat): (j: nat)
    requires i <= |s|
    ensures i <= j <= |s| && (j == |s| || !IsSpace(s[j]))
    ensures forall k :: i <= k < j ==> IsSpace(s[k])
    decreases |s| - i
  {
    if i < |s| && IsSpace(s[i]) then SkipSpace(s, i + 1) else i
  }

  /** The first whitespace index at or after `i`, or `|s|`. */
  function SkipWord(s: string, i: nat): (j: nat)
    requires i <= |s|
    ensures i <= j <= |s| && (j == |s| || IsSpace(s[j]))
    ensures forall k :: i <= k < j ==> !IsSpace(s[k])
    decreases |s| - i
  {
    if i < |s| && !IsSpace(s[i]) then SkipWord(s, i + 1) else i
  }

  /**
   * `s.split(None, 1)`: no part for a blank string; otherwise the first word,
   * followed, when anything but whitespace comes after it, by the rest with its
   * leading whitespace removed (trailing whitespace is kept).
   */
  function SplitOnce(s: string): (r: seq<string>)
    ensures |r| <= 2
    ensures r == [] <==> IsBlank(s)
    ensures forall k :: 0 <= k < |r| ==> r[k] != []
    ensures |r| >= 1 ==> forall k :: 0 <= k < |r[0]| ==> !IsSpace(r[0][k])
    ensures |r| == 2 ==> !IsSpace(r[1][0])
  {
    var i := SkipSpace(s, 0);
    if i == |s| then []
    else
      var j := SkipWord(s, i);
      var k := SkipSpace(s, j);
      if k == |s| then [s[i..j]] else [s[i..j], s[k..]]
  }

  /**
   * The parts put back together give the string: leading whitespace, the
   * word, a separator of whitespace, and the rest; the separator is non-empty
   * when there is a rest, so the word is the whole first word.
   */
  lemma SplitOnceParts(s: string)
    ensures var r := SplitOnce(s);
      |r| >= 1 ==> exists lead: string, gap: string ::
        && IsBlank(lead) && IsBlank(gap)
        && s == lead + r[0] + gap + (if |r| == 2 then r[1] else [])
        && (|r| == 2 ==> gap != [])
  {
    var r := SplitOnce(s);
    var i := SkipSpace(s, 0);
    if i < |s| {
      var j := SkipWord(s, i);
      var k := SkipSpace(s, j);
      assert IsBlank(s[..i]);
      assert IsBlank(s[j..k]);
      if k == |s| {
        assert s == s[..i] + r[0] + s[j..k] + [];
      } else {
        assert s == s[..i] + r[0] + s[j..k] + r[1];
      }
    }
  }

  /** `SkipSpace` stops at the first non-whitespace index. */
  lemma SkipSpaceIs(s: string, i: nat, j: nat)
    requires i <= j <= |s| && (j == |s| || !IsSpace(s[j]))
    requires forall k :: i <= k < j ==> IsSpace(s[k])
    ensures SkipSpace(s, i) == j
  {
  }

  /** `SkipWord` stops at the first whitespace index. */
  lemma SkipWordIs(s: string, i: nat, j: nat)
    requires i <= j <= |s| && (j == |s| || IsSpace(s[j]))
    requires forall k :: i <= k < j ==> !IsSpace(s[k])
    ensures SkipWord(s, i) == j
  {
  }

  /**
   * The converse of `SplitOnceParts`: leading whitespace, a word, whitespace
   * and a rest that starts with a non-space character split into the word and
   * the rest; with nothing after the whitespace, into the word alone.
   */
  lemma SplitOnceOf(lead: string, word: string, gap: string, rest: string)
    requires IsBlank(lead) && IsBlank(gap)
    requires word != [] && forall k :: 0 <= k < |word| ==> !IsSpace(word[k])
    requires rest != [] ==> gap != [] && !IsSpace(rest[0])
    ensures SplitOnce(lead + word + gap + rest) == if rest == [] then [word] else [word, rest]
  {
    var s := lead + word + gap + rest;
    var i := |lead|;
    var j := i + |word|;
    var k := j + |gap|;
    SkipSpaceIs(s, 0, i);
    SkipWordIs(s, i, j);
    SkipSpaceIs(s, j, k);
    assert s[i..j] == word;
    assert s[k..] == rest;
  }

  predicate IsDigit(c: char) {
    '0' <= c <= '9'
  }

  /** A non-empty string of ASCII decimal digits. */
  predicate IsNumeral(s: string) {
    |s| > 0 && forall i :: 0 <= i < |s| ==> IsDigit(s[i])
  }

  /** The value of a string of decimal digits, leading zeros allowed. */
  function DecimalValue(s: string): nat
    requires forall i :: 0 <= i < |s| ==> IsDigit(s[i])
  {
    if s == [] then 0
    else
      assert IsDigit(s[|s| - 1]);
      DecimalValue(s[..|s| - 1]) * 10 + (s[|s| - 1] as int - '0' as int)
  }

  function DigitChar(d: nat): (c: char)
    requires d < 10
    ensures IsDigit(c) && c as int - '0' as int == d
  {
    '0' + d as char
  }

  /** `str(n)` for a natural number. */
  function NatToString(n: nat): (s: string)
    ensures IsNumeral(s)
  {
    if n < 10 then [DigitChar(n)] else NatToString(n / 10) + [DigitChar(n % 10)]
  }

  /** `str(i)` for any int. */
  function IntToString(i: int): string {
    if i < 0 then "-" + NatToString(-i) else NatToString(i)
  }

  /** `int(s)` on a decimal literal: surrounding whitespace is stripped and one sign is allowed; anything else is `None` (Python raises `ValueError`). */
  function ParseInt(s: string): (r: Option<int>)
    ensures r.Some? ==> Strip(s) != []
  {
    var t := Strip(s);
    if t == [] then None
    else if (t[0] == '-' || t[0] == '+') && IsNumeral(t[1..]) then
      var magnitude: int := DecimalValue(t[1..]);
      Some(if t[0] == '-' then -magnitude else magnitude)
    else if IsNumeral(t) then Some(DecimalValue(t))
    else None
  }

  /** Reading back what `str` wrote gives the number again. */
  lemma {:induction false} DecimalRoundTrip(n: nat)
    ensures DecimalValue(NatToString(n)) == n
  {
    if n >= 10 {
      var s := NatToString(n);
      assert s[..|s| - 1] == NatToString(n / 10);
      DecimalRoundTrip(n / 10);
    }
  }

  /** A string that neither starts nor ends with whitespace is its own `strip()`. */
  lemma StripUnchanged(s: string)
    requires s != [] && !IsSpace(s[0]) && !IsSpace(s[|s| - 1])
    ensures Strip(s) == s
  {
    assert StripLeft(s) == s;
  }

  /** `int` reads a plain numeral as its decimal value. */
  lemma ParseIntOfNumeral(s: string)
    requires IsNumeral(s)
    ensures ParseInt(s) == Some(DecimalValue(s))
  {
    StripUnchanged(s);
  }

  /** `int(str(i)) == i` for every int. */
  lemma ParseIntRoundTrip(i: int)
    ensures ParseInt(IntToString(i)) == Some(i)
  {
    var s := IntToString(i);
    if i < 0 {
      var digits := NatToString(-i);
      assert s == "-" + digits && s[1..] == digits;
      StripUnchanged(s);
      DecimalRoundTrip(-i);
    } else {
      StripUnchanged(s);
      DecimalRoundTrip(i);
    }
  }
}
