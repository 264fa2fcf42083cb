/** validate_and_convert_date: datetime.strptime(s, "%Y-%m-%d") followed by
    strftime("%Y-%m-%dT00:00:00.000Z").

    strptime matches the format with a regular expression built from one piece
    per directive: %Y is exactly four digits, %m is 1[0-2]|0[1-9]|[1-9] and %d is
    3[01]|[12]\d|0[1-9]|[1-9]| [1-9]. Within a directive the first alternative
    that matches is taken; text left after the match is refused ("unconverted
    data remains"); the date must then exist (datetime's years run 1..9999). */
module Dates {
  import opened Wrappers
  import opened Text
  import opened Errors

  datatype Date = Date(year: nat, month: nat, day: nat)

  predicate IsLeapYear(y: nat) {
    y % 4 == 0 && (y % 100 != 0 || y % 400 == 0)
  }

  function DaysInMonth(y: nat, m: nat): (n: nat)
    requires 1 <= m <= 12
    ensures 28 <= n <= 31
    ensures n == 29 <==> m == 2 && IsLeapYear(y)
  {
    if m == 2 then (if IsLeapYear(y) then 29 else 28)
    else if m == 4 || m == 6 || m == 9 || m == 11 then 30
    else 31
  }

  /** A calendar date datetime accepts. */
  predicate ValidDate(dt: Date) {
    1 <= dt.year <= 9999 && 1 <= dt.month <= 12 && 1 <= dt.day <= DaysInMonth(dt.year, dt.month)
  }

  predicate IsNonZeroDigit(c: char) {
    '1' <= c <= '9'
  }

  function TwoDigitValue(a: char, b: char): (n: nat)
    requires IsDigit(a) && IsDigit(b)
    ensures n < 100
  {
    10 * DigitValue(a) + DigitValue(b)
  }

  /** The %m piece: (month, characters consumed) of the first alternative that matches. */
  function MonthPrefix(t: string): (r: Option<(nat, nat)>)
    ensures r.Some? ==> 1 <= r.value.0 <= 12 && 1 <= r.value.1 <= 2 && r.value.1 <= |t|
  {
    if |t| >= 2 && t[0] == '1' && '0' <= t[1] <= '2' then Some((10 + DigitValue(t[1]), 2))
    else if |t| >= 2 && t[0] == '0' && IsNonZeroDigit(t[1]) then Some((DigitValue(t[1]), 2))
    else if |t| >= 1 && IsNonZeroDigit(t[0]) then Some((DigitValue(t[0]), 1))
    else None
  }

  /** The %d piece: (day, characters consumed) of the first alternative that matches. */
  function DayPrefix(t: string): (r: Option<(nat, nat)>)
    ensures r.Some? ==> 1 <= r.value.0 <= 31 && 1 <= r.value.1 <= 2 && r.value.1 <= |t|
  {
    if |t| >= 2 && t[0] == '3' && (t[1] == '0' || t[1] == '1') then Some((30 + DigitValue(t[1]), 2))
    else if |t| >= 2 && (t[0] == '1' || t[0] == '2') && IsDigit(t[1]) then Some((TwoDigitValue(t[0], t[1]), 2))
    else if |t| >= 2 && t[0] == '0' && IsNonZeroDigit(t[1]) then Some((DigitValue(t[1]), 2))
    else if |t| >= 1 && IsNonZeroDigit(t[0]) then Some((DigitValue(t[0]), 1))
    else if |t| >= 2 && t[0] == ' ' && IsNonZeroDigit(t[1]) then Some((DigitValue(t[1]), 2))
    else None
  }

  /** strptime(s, "%Y-%m-%d"). The month piece is always followed by '-', which
      no month alternative contains, so taking its first matching alternative
      and then requiring '-' is what the backtracking matcher does. */
  function ParseDate(s: string): (r: Option<Date>)
    ensures r.Some? ==> ValidDate(r.value)
  {
    if |s| < 5 || !IsDigit(s[0]) || !IsDigit(s[1]) || !IsDigit(s[2]) || !IsDigit(s[3]) || s[4] != '-' then None
    else
      var year := 100 * TwoDigitValue(s[0], s[1]) + TwoDigitValue(s[2], s[3]);
      var rest := s[5..];
      match MonthPrefix(rest)
      case None => None
      case Some((month, n)) =>
        if n == |rest| || rest[n] != '-' then None
        else
          var tail := rest[n + 1..];
          match DayPrefix(tail)
          case None => None
          case Some((day, k)) =>
            if k != |tail| then None
            else if ValidDate(Date(year, month, day)) then Some(Date(year, month, day))
            else None
  }

  function Pad2(n: nat): (r: string)
    requires n < 100
    ensures |r| == 2 && AllDigits(r)
  {
    [DigitChar(n / 10), DigitChar(n % 10)]
  }

  function Pad4(n: nat): (r: string)
    requires n < 10000
    ensures |r| == 4 && AllDigits(r)
  {
    Pad2(n / 100) + Pad2(n % 100)
  }

  /** The YYYY-MM-DD rendering, every field zero-padded. */
  function FormatDate(dt: Date): (r: string)
    requires ValidDate(dt)
    ensures |r| == 10 && r[4] == '-' && r[7] == '-'
  {
    Pad4(dt.year) + "-" + Pad2(dt.month) + "-" + Pad2(dt.day)
  }

  const MidnightSuffix := "T00:00:00.000Z"

  function IsoMidnight(dt: Date): string
    requires ValidDate(dt)
  {
    FormatDate(dt) + MidnightSuffix
  }

  /** validate_and_convert_date. */
  function ValidateAndConvertDate(s: string): (r: Result<string, Error>)
    ensures r.Failure? ==> r.error == InvalidDate(s)
    ensures r.Success? ==> |r.value| == 24 && r.value[10..] == MidnightSuffix
  {
    match ParseDate(s)
    case Some(dt) => Success(IsoMidnight(dt))
    case None => Failure(InvalidDate(s))
  }

  // ---------------------------------------------------------------------------
  // An independent description of what strptime accepts: the spellings of a date.

  function MonthSpellings(m: nat): seq<string>
    requires 1 <= m <= 12
  {
    if m < 10 then [Pad2(m), [DigitChar(m)]] else [Pad2(m)]
  }

  function DaySpellings(d: nat): seq<string>
    requires 1 <= d <= 31
  {
    if d < 10 then [Pad2(d), [DigitChar(d)], [' ', DigitChar(d)]] else [Pad2(d)]
  }

  function Spelling(dt: Date, i: nat, j: nat): string
    requires ValidDate(dt) && i < |MonthSpellings(dt.month)| && j < |DaySpellings(dt.day)|
  {
    Pad4(dt.year) + "-" + MonthSpellings(dt.month)[i] + "-" + DaySpellings(dt.day)[j]
  }

  /** s writes the valid date dt as four-digit year, month and day, with the
      month and day optionally unpadded and a single-digit day optionally
      space-padded. */
  ghost predicate SpellsDate(s: string, dt: Date) {
    ValidDate(dt) &&
    exists i: nat, j: nat | i < |MonthSpellings(dt.month)| && j < |DaySpellings(dt.day)| :: s == Spelling(dt, i, j)
  }

  lemma TwoDigitOfPad2(n: nat)
    requires n < 100
    ensures TwoDigitValue(Pad2(n)[0], Pad2(n)[1]) == n
  {
  }

  lemma Pad2OfTwoDigit(a: char, b: char)
    requires IsDigit(a) && IsDigit(b)
    ensures Pad2(TwoDigitValue(a, b)) == [a, b]
  {
    DigitCharOfValue(a);
    DigitCharOfValue(b);
  }

  lemma MonthPrefixOfSpelling(m: nat, i: nat, tail: string)
    requires 1 <= m <= 12 && i < |MonthSpellings(m)|
    requires |tail| > 0 && tail[0] == '-'
    ensures MonthPrefix(MonthSpellings(m)[i] + tail) == Some((m, |MonthSpellings(m)[i]|))
  {
  }

  lemma DayPrefixOfSpelling(d: nat, j: nat)
    requires 1 <= d <= 31 && j < |DaySpellings(d)|
    ensures DayPrefix(DaySpellings(d)[j]) == Some((d, |DaySpellings(d)[j]|))
  {
  }

  lemma MonthPrefixSpelled(t: string) returns (i: nat)
    requires MonthPrefix(t).Some?
    ensures var (m, n) := MonthPrefix(t).value;
      i < |MonthSpellings(m)| && MonthSpellings(m)[i] == t[..n]
  {
    var (m, n) := MonthPrefix(t).value;
    if n == 2 {
      i := 0;
      DigitCharOfValue(t[1]);
    } else {
      i := 1;
      DigitCharOfValue(t[0]);
    }
  }

  lemma DayPrefixSpelled(t: string) returns (j: nat)
    requires DayPrefix(t).Some? && DayPrefix(t).value.1 == |t|
    ensures j < |DaySpellings(DayPrefix(t).value.0)| && DaySpellings(DayPrefix(t).value.0)[j] == t
  {
    var (d, k) := DayPrefix(t).value;
    if k == 1 {
      j := 1;
      DigitCharOfValue(t[0]);
    } else if t[0] == ' ' {
      j := 2;
      DigitCharOfValue(t[1]);
    } else if t[0] == '0' {
      j := 0;
      DigitCharOfValue(t[1]);
    } else {
      j := 0;
      Pad2OfTwoDigit(t[0], t[1]);
    }
  }

  /** Every spelling of a valid date parses back to that date. */
  lemma SpellingParses(dt: Date, i: nat, j: nat)
    requires ValidDate(dt) && i < |MonthSpellings(dt.month)| && j < |DaySpellings(dt.day)|
    ensures ParseDate(Spelling(dt, i, j)) == Some(dt)
  {
    var s := Spelling(dt, i, j);
    var y := Pad4(dt.year);
    var ms := MonthSpellings(dt.month)[i];
    var ds := DaySpellings(dt.day)[j];
    assert s[..4] == y;
    assert s[4] == '-';
    TwoDigitOfPad2(dt.year / 100);
    TwoDigitOfPad2(dt.year % 100);
    assert 100 * TwoDigitValue(s[0], s[1]) + TwoDigitValue(s[2], s[3]) == dt.year;
    var rest := s[5..];
    assert rest == ms + ("-" + ds);
    MonthPrefixOfSpelling(dt.month, i, "-" + ds);
    assert rest[|ms|] == '-';
    assert rest[|ms| + 1..] == ds;
    DayPrefixOfSpelling(dt.day, j);
  }

  lemma SpellingConverts(dt: Date, i: nat, j: nat)
    requires ValidDate(dt) && i < |MonthSpellings(dt.month)| && j < |DaySpellings(dt.day)|
    ensures ValidateAndConvertDate(Spelling(dt, i, j)) == Success(IsoMidnight(dt))
  {
    SpellingParses(dt, i, j);
  }

  /** Whatever parses is a spelling of the date it parses to. */
  lemma ParsedIsSpelling(s: string)
    requires ParseDate(s).Some?
    ensures SpellsDate(s, ParseDate(s).value)
  {
    var dt := ParseDate(s).value;
    var rest := s[5..];
    var (m, n) := MonthPrefix(rest).value;
    var tail := rest[n + 1..];
    var i := MonthPrefixSpelled(rest);
    var j := DayPrefixSpelled(tail);
    Pad2OfTwoDigit(s[0], s[1]);
    Pad2OfTwoDigit(s[2], s[3]);
    assert dt.year / 100 == TwoDigitValue(s[0], s[1]);
    assert dt.year % 100 == TwoDigitValue(s[2], s[3]);
    assert Pad4(dt.year) == s[..4];
    assert rest == rest[..n] + "-" + tail;
    assert s == s[..4] + "-" + rest;
    assert s == Spelling(dt, i, j);
  }

  /** strptime's accept set: s parses to dt exactly when s spells the valid date dt. */
  lemma ParseDateIff(s: string, dt: Date)
    ensures ParseDate(s) == Some(dt) <==> SpellsDate(s, dt)
  {
    if ParseDate(s) == Some(dt) {
      ParsedIsSpelling(s);
    }
    if SpellsDate(s, dt) {
      var i: nat, j: nat :| i < |MonthSpellings(dt.month)| && j < |DaySpellings(dt.day)| && s == Spelling(dt, i, j);
      SpellingParses(dt, i, j);
    }
  }

  /** The padded rendering of a valid date is accepted and denotes that date. */
  lemma FormatDateParses(dt: Date)
    requires ValidDate(dt)
    ensures ParseDate(FormatDate(dt)) == Some(dt)
  {
    SpellingParses(dt, 0, 0);
  }

  /** The converter accepts s with result the midnight timestamp of dt exactly when s spells dt. */
  lemma ConvertDateAccepts(s: string, dt: Date)
    requires ValidDate(dt)
    ensures ValidateAndConvertDate(s) == Success(IsoMidnight(dt)) <==> SpellsDate(s, dt)
  {
    ParseDateIff(s, dt);
    if ValidateAndConvertDate(s) == Success(IsoMidnight(dt)) {
      var dt' := ParseDate(s).value;
      assert FormatDate(dt') == IsoMidnight(dt)[..10] == FormatDate(dt);
      FormatDateParses(dt);
      FormatDateParses(dt');
    }
  }

  /** The converter fails, quoting the input, exactly when s spells no valid date. */
  lemma ConvertDateRejects(s: string)
    ensures ValidateAndConvertDate(s) == Failure(InvalidDate(s)) <==> forall dt :: !SpellsDate(s, dt)
  {
    if ParseDate(s).Some? {
      ParsedIsSpelling(s);
    } else {
      forall dt ensures !SpellsDate(s, dt) {
        ParseDateIff(s, dt);
      }
    }
  }

  /** A canonical input (ten characters, no space before the day) is echoed as the
      output's date part; any other accepted input is not. */
  lemma CanonicalInputReappears(s: string)
    requires ValidateAndConvertDate(s).Success?
    ensures ValidateAndConvertDate(s).value[..10] == s <==> |s| == 10 && s[8] != ' '
  {
    var dt := ParseDate(s).value;
    ParsedIsSpelling(s);
    var i: nat, j: nat :| i < |MonthSpellings(dt.month)| && j < |DaySpellings(dt.day)| && s == Spelling(dt, i, j);
    var ms := MonthSpellings(dt.month)[i];
    var ds := DaySpellings(dt.day)[j];
    if |s| == 10 && s[8] != ' ' {
      assert |ms| + |ds| == 4;
      assert |ms| == 2 && |ds| == 2;
      assert i == 0;
      assert s[8] == ds[0];
      assert j == 0;
      assert s == FormatDate(dt);
    }
  }

  lemma AcceptCanonical()
    ensures ValidateAndConvertDate("2024-01-15") == Success("2024-01-15T00:00:00.000Z")
  {
    var dt := Date(2024, 1, 15);
    assert Pad4(2024) == "2024" && Pad2(1) == "01" && Pad2(15) == "15";
    assert IsoMidnight(dt) == "2024-01-15" + MidnightSuffix == "2024-01-15T00:00:00.000Z";
    assert Spelling(dt, 0, 0) == "2024-01-15";
    SpellingConverts(dt, 0, 0);
  }

  lemma AcceptJanFirst()
    ensures ValidateAndConvertDate("2024-01-01") == Success("2024-01-01T00:00:00.000Z")
  {
    var dt := Date(2024, 1, 1);
    assert Pad4(2024) == "2024" && Pad2(1) == "01";
    assert IsoMidnight(dt) == "2024-01-01" + MidnightSuffix == "2024-01-01T00:00:00.000Z";
    assert Spelling(dt, 0, 0) == "2024-01-01";
    SpellingConverts(dt, 0, 0);
  }

  lemma AcceptLeapDay()
    ensures ValidateAndConvertDate("2024-02-29") == Success("2024-02-29T00:00:00.000Z")
  {
    var dt := Date(2024, 2, 29);
    assert IsLeapYear(2024) && ValidDate(dt);
    assert Pad4(2024) == "2024" && Pad2(2) == "02" && Pad2(29) == "29";
    assert IsoMidnight(dt) == "2024-02-29" + MidnightSuffix == "2024-02-29T00:00:00.000Z";
    assert Spelling(dt, 0, 0) == "2024-02-29";
    SpellingConverts(dt, 0, 0);
  }

  lemma AcceptUnpadded()
    ensures ValidateAndConvertDate("2024-1-5") == Success("2024-01-05T00:00:00.000Z")
  {
    var dt := Date(2024, 1, 5);
    assert Pad4(2024) == "2024" && Pad2(1) == "01" && Pad2(5) == "05";
    assert IsoMidnight(dt) == "2024-01-05" + MidnightSuffix == "2024-01-05T00:00:00.000Z";
    assert Spelling(dt, 1, 1) == "2024-1-5";
    SpellingConverts(dt, 1, 1);
  }

  lemma AcceptSpacePadded()
    ensures ValidateAndConvertDate("2024-01- 5") == Success("2024-01-05T00:00:00.000Z")
  {
    var dt := Date(2024, 1, 5);
    assert Pad4(2024) == "2024" && Pad2(1) == "01" && Pad2(5) == "05";
    assert IsoMidnight(dt) == "2024-01-05" + MidnightSuffix == "2024-01-05T00:00:00.000Z";
    assert Spelling(dt, 0, 2) == "2024-01- 5";
    SpellingConverts(dt, 0, 2);
  }

  lemma RejectFeb29()
    ensures ValidateAndConvertDate("2023-02-29") == Failure(InvalidDate("2023-02-29"))
  {
  }

  lemma RejectSep()
    ensures ValidateAndConvertDate("2024/01/15").Failure?
  {
  }

  lemma RejectTrailing()
    ensures ValidateAndConvertDate("2024-01-15x").Failure?
  {
  }

  lemma RejectMonth13()
    ensures ValidateAndConvertDate("2024-13-01").Failure?
  {
  }

  lemma RejectApril31()
    ensures ValidateAndConvertDate("2024-04-31").Failure?
  {
  }

  lemma RejectDay35()
    ensures ValidateAndConvertDate("2024-01-35").Failure?
  {
  }

  lemma RejectCenturyLeapDay()
    ensures ValidateAndConvertDate("1900-02-29").Failure?
  {
  }

  lemma RejectYearZero()
    ensures ValidateAndConvertDate("0000-01-01").Failure?
  {
  }
}
