/** The few string operations of Python the handlers rely on, restricted to ASCII:
    str.strip(), str.lower(), str.isalpha() and the decimal rendering of an int. */
module Text {

  /** str.isspace() on ASCII: space, \t \n \v \f \r and the separators 0x1C-0x1F. */
  predicate IsSpace(c: char) {
    var n := c as int;
    n == 32 || 9 <= n <= 13 || 28 <= n <= 31
  }

  ghost predicate AllSpace(s: string) {
    forall k :: 0 <= k < |s| ==> IsSpace(s[k])
  }

  /** s.lstrip(): a suffix of s that does not start with whitespace. */
  function StripLeading(s: string): (r: string)
  {
    if |s| > 0 && IsSpace(s[0]) then StripLeading(s[1..]) else s
  }

  /** s.rstrip(): a prefix of s that does not end with whitespace. */
  function StripTrailing(s: string): (r: string)
  {
    if |s| > 0 && IsSpace(s[|s| - 1]) then StripTrailing(s[..|s| - 1]) else s
  }

  /** Python's s.strip() with no argument: a slice of s that neither starts nor
      ends with whitespace. */
  function Strip(s: string): (r: string)
    ensures |r| <= |s|
    ensures r != [] ==> !IsSpace(r[0]) && !IsSpace(r[|r| - 1])
  {
    StripKeepsNoEdgeSpace(s);
    StripTrailing(StripLeading(s))
  }

  lemma {:induction false} StripLeadingCut(s: string) returns (i: nat)
    ensures i <= |s| && StripLeading(s) == s[i..]
    ensures AllSpace(s[..i])
    ensures i < |s| ==> !IsSpace(s[i])
  {
    if |s| > 0 && IsSpace(s[0]) {
      var i' := StripLeadingCut(s[1..]);
      i := i' + 1;
      assert s[1..][i'..] == s[i..];
      assert s[..i] == [s[0]] + s[1..][..i'];
    } else {
      i := 0;
    }
  }

  lemma {:induction false} StripTrailingCut(s: string) returns (j: nat)
    ensures j <= |s| && StripTrailing(s) == s[..j]
    ensures AllSpace(s[j..])
    ensures 0 < j ==> !IsSpace(s[j - 1])
  {
    if |s| > 0 && IsSpace(s[|s| - 1]) {
      var t := s[..|s| - 1];
      j := StripTrailingCut(t);
      assert t[..j] == s[..j];
      assert s[j..] == t[j..] + [s[|s| - 1]];
    } else {
      j := |s|;
    }
  }

  lemma StripKeepsNoEdgeSpace(s: string)
    ensures var r := StripTrailing(StripLeading(s));
      |r| <= |s| && (r != [] ==> !IsSpace(r[0]) && !IsSpace(r[|r| - 1]))
  {
    var i := StripLeadingCut(s);
    var t := s[i..];
    var j := StripTrailingCut(t);
    var r := StripTrailing(StripLeading(s));
    if r != [] {
      assert r[0] == s[i];
      assert r[|r| - 1] == t[j - 1];
    }
  }

  /** strip() removes exactly a whitespace prefix and a whitespace suffix. */
  lemma StripIsTrimmedSlice(s: string)
    ensures exists i, j :: 0 <= i <= j <= |s| && Strip(s) == s[i..j] && AllSpace(s[..i]) && AllSpace(s[j..])
  {
    var i := StripLeadingCut(s);
    var t := s[i..];
    var j := StripTrailingCut(t);
    assert Strip(s) == s[i..i + j];
    assert s[i + j..] == t[j..];
  }

  /** A string strips to "" exactly when it is all whitespace (or empty). */
  lemma StripEmptyIffBlank(s: string)
    ensures Strip(s) == [] <==> AllSpace(s)
  {
    var i := StripLeadingCut(s);
    var t := s[i..];
    var j := StripTrailingCut(t);
    if Strip(s) == [] {
      assert j == 0;
      assert i == |s|;
      assert s[..i] == s;
    } else {
      assert !IsSpace(s[i]);
    }
  }

  predicate IsAsciiLetter(c: char) {
    'A' <= c <= 'Z' || 'a' <= c <= 'z'
  }

  /** str.isalpha(): non-empty and every character a letter (ASCII letters only here). */
  predicate IsAlpha(s: string) {
    |s| > 0 && forall k :: 0 <= k < |s| ==> IsAsciiLetter(s[k])
  }

  function LowerChar(c: char): char {
    if 'A' <= c <= 'Z' then (c as int + 32) as char else c
  }

  /** str.lower() on ASCII. */
  function Lower(s: string): (r: string)
    ensures |r| == |s|
    ensures forall k :: 0 <= k < |s| ==> !('A' <= r[k] <= 'Z')
    ensures forall k :: 0 <= k < |s| ==> (IsAsciiLetter(r[k]) <==> IsAsciiLetter(s[k]))
    ensures forall k :: 0 <= k < |s| ==> LowerChar(r[k]) == LowerChar(s[k])
  {
    seq(|s|, k requires 0 <= k < |s| => LowerChar(s[k]))
  }

  predicate IsDigit(c: char) {
    '0' <= c <= '9'
  }

  predicate AllDigits(s: string) {
    forall k :: 0 <= k < |s| ==> IsDigit(s[k])
  }

  function DigitValue(c: char): (n: nat)
    requires IsDigit(c)
    ensures n < 10
  {
    c as int - '0' as int
  }

  function DigitChar(n: nat): (c: char)
    requires n < 10
    ensures IsDigit(c) && DigitValue(c) == n
  {
    ('0' as int + n) as char
  }

  lemma DigitCharOfValue(c: char)
    requires IsDigit(c)
    ensures DigitChar(DigitValue(c)) == c
  {
  }

  /** Python's str(n) for a non-negative int: decimal digits, no leading zero. */
  function Decimal(n: nat): (r: string)
    ensures |r| > 0 && AllDigits(r)
    ensures |r| > 1 ==> r[0] != '0'
    decreases n
  {
    if n < 10 then [DigitChar(n)] else Decimal(n / 10) + [DigitChar(n % 10)]
  }

  /** The value of a string of decimal digits: the inverse of Decimal. */
  function DecimalValue(s: string): nat
    requires AllDigits(s)
  {
    if s == [] then 0 else 10 * DecimalValue(s[..|s| - 1]) + DigitValue(s[|s| - 1])
  }

  lemma {:induction false} DecimalRoundTrip(n: nat)
    ensures DecimalValue(Decimal(n)) == n
    decreases n
  {
    if n >= 10 {
      DecimalRoundTrip(n / 10);
      var s := Decimal(n);
      assert s[..|s| - 1] == Decimal(n / 10);
    }
  }
}
