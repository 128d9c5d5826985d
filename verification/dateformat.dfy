/** `datetime.strptime(text, "%d.%m.%Y")` as the birth-date handler uses it
    to decide whether a reply is a date. CPython turns the format into a
    regular expression (one alternation per directive), requires the match
    to consume the whole text, and then builds a `datetime.date`, which
    rejects year 0 and days past the end of the month. Every failure is a
    `ValueError`, modelled here as a `Failure` value. */
module DateFormat {
  import opened Wrappers
  import opened Calendar

  datatype Date = Date(year: int, month: int, day: int)

  /** The reason `strptime` raises `ValueError`. */
  datatype DateError =
    | NoMatch          // the text does not match the format's regular expression
    | UnconvertedData  // the match stops before the end of the text
    | YearOutOfRange   // year 0000
    | DayOutOfRange    // a day past the end of its month

  predicate IsDigit(c: char) {
    '0' <= c <= '9'
  }

  function DigitValue(c: char): (n: int)
    requires IsDigit(c)
    ensures 0 <= n <= 9
  {
    c as int - '0' as int
  }

  /** The alternatives of `%d`: `3[01]`, `[12]\d`, `0[1-9]`, `[1-9]` and
      `' '[1-9]` (a single-digit day after one space). */
  predicate IsDayToken(t: string) {
    || (|t| == 1 && '1' <= t[0] <= '9')
    || (|t| == 2 && t[0] == '0' && '1' <= t[1] <= '9')
    || (|t| == 2 && (t[0] == '1' || t[0] == '2') && IsDigit(t[1]))
    || (|t| == 2 && t[0] == '3' && (t[1] == '0' || t[1] == '1'))
    || (|t| == 2 && t[0] == ' ' && '1' <= t[1] <= '9')
  }

  /** The alternatives of `%m`: `1[0-2]`, `0[1-9]` and `[1-9]`. */
  predicate IsMonthToken(t: string) {
    || (|t| == 1 && '1' <= t[0] <= '9')
    || (|t| == 2 && t[0] == '0' && '1' <= t[1] <= '9')
    || (|t| == 2 && t[0] == '1' && '0' <= t[1] <= '2')
  }

  /** `%Y`: exactly four digits. */
  predicate IsYearToken(t: string) {
    |t| == 4 && IsDigit(t[0]) && IsDigit(t[1]) && IsDigit(t[2]) && IsDigit(t[3])
  }

  /** `int()` of a day or month token; the leading space of `' '[1-9]` adds nothing. */
  function FieldValue(t: string): (n: int)
    requires IsDayToken(t) || IsMonthToken(t)
    ensures IsDayToken(t) ==> 1 <= n <= 31
    ensures IsMonthToken(t) ==> 1 <= n <= 12
  {
    if |t| == 1 then DigitValue(t[0])
    else (if t[0] == ' ' then 0 else DigitValue(t[0])) * 10 + DigitValue(t[1])
  }

  /** `int()` of a year token. */
  function YearValue(t: string): (n: int)
    requires IsYearToken(t)
    ensures 0 <= n <= MaxYear
  {
    DigitValue(t[0]) * 1000 + DigitValue(t[1]) * 100 + DigitValue(t[2]) * 10 + DigitValue(t[3])
  }

  /** The first `'.'` of `s` at or after position `from`. */
  function FindDot(s: string, from: nat): (r: Option<nat>)
    requires from <= |s|
    ensures r.Some? ==> from <= r.value < |s| && s[r.value] == '.'
    ensures r.Some? ==> forall k :: from <= k < r.value ==> s[k] != '.'
    ensures r.None? ==> forall k :: from <= k < |s| ==> s[k] != '.'
    decreases |s| - from
  {
    if from == |s| then None
    else if s[from] == '.' then Some(from)
    else FindDot(s, from + 1)
  }

  /** `s` reads as day token, dot, month token, dot, year token, with the
      dots at positions `i` and `j` and nothing after the year. This is the
      format's regular expression matched against the whole text. */
  predicate SplitsAt(s: string, i: int, j: int) {
    && 0 <= i < j < |s|
    && s[i] == '.'
    && s[j] == '.'
    && IsDayToken(s[..i])
    && IsMonthToken(s[i + 1..j])
    && IsYearToken(s[j + 1..])
  }

  /** The date the tokens of a split name. */
  function DateAt(s: string, i: int, j: int): Date
    requires SplitsAt(s, i, j)
  {
    Date(YearValue(s[j + 1..]), FieldValue(s[i + 1..j]), FieldValue(s[..i]))
  }

  /** `s` spells the date `d` in the format `%d.%m.%Y`. */
  ghost predicate Spells(s: string, d: Date) {
    exists i, j :: SplitsAt(s, i, j) && d == DateAt(s, i, j)
  }

  predicate IsValid(d: Date) {
    IsValidDate(d.year, d.month, d.day)
  }

  /** `datetime.strptime(s, "%d.%m.%Y")`: the date, or why it is rejected. */
  function ParseDate(s: string): (r: Result<Date, DateError>)
    ensures r.Success? ==> IsValid(r.value) && Spells(s, r.value)
  {
    match FindDot(s, 0)
    case None => Failure(NoMatch)
    case Some(i) =>
      match FindDot(s, i + 1)
      case None => Failure(NoMatch)
      case Some(j) =>
        var day, month, rest := s[..i], s[i + 1..j], s[j + 1..];
        if !IsDayToken(day) || !IsMonthToken(month) || |rest| < 4 || !IsYearToken(rest[..4]) then
          Failure(NoMatch)
        else if |rest| > 4 then
          Failure(UnconvertedData)
        else
          assert rest[..4] == rest;
          var d := DateAt(s, i, j);
          if d.year < MinYear then Failure(YearOutOfRange)
          else if d.day > DaysInMonth(d.year, d.month) then Failure(DayOutOfRange)
          else Success(d)
  }

  /** The check the birth-date handler performs: `strptime` does not raise. */
  predicate IsValidBirthdate(s: string) {
    ParseDate(s).Success?
  }

  /** Day and month tokens contain no dot, so a split is found by looking
      for the first two dots. */
  lemma SplitIsFirstDots(s: string, i: int, j: int)
    requires SplitsAt(s, i, j)
    ensures FindDot(s, 0) == Some(i)
    ensures FindDot(s, i + 1) == Some(j)
  {
    forall k | 0 <= k < i
      ensures s[k] != '.'
    {
      assert s[..i][k] == s[k];
    }
    forall k | i + 1 <= k < j
      ensures s[k] != '.'
    {
      assert s[i + 1..j][k - i - 1] == s[k];
    }
  }

  /** Every text that spells a real date is accepted, as that date. */
  lemma {:induction false} ParseDateComplete(s: string, d: Date)
    requires Spells(s, d) && IsValid(d)
    ensures ParseDate(s) == Success(d)
  {
    var i, j :| SplitsAt(s, i, j) && d == DateAt(s, i, j);
    SplitIsFirstDots(s, i, j);
    assert s[j + 1..][..4] == s[j + 1..];
  }

  /** Acceptance of a birth date, stated without the parser: the text is
      `day.month.year` in the format's tokens and names a real date. */
  lemma BirthdateAcceptance(s: string)
    ensures IsValidBirthdate(s) <==> exists d :: Spells(s, d) && IsValid(d)
  {
    if d :| Spells(s, d) && IsValid(d) {
      ParseDateComplete(s, d);
    }
  }

  function Digit(n: int): (c: char)
    requires 0 <= n <= 9
    ensures IsDigit(c) && DigitValue(c) == n
  {
    ('0' as int + n) as char
  }

  /** The zero-padded form `DD.MM.YYYY` the bot asks for. */
  function FormatDate(d: Date): (s: string)
    requires IsValid(d)
    ensures |s| == 10 && s[2] == '.' && s[5] == '.'
  {
    var y1 := d.year / 10;
    var y2 := y1 / 10;
    var y3 := y2 / 10;
    [Digit(d.day / 10), Digit(d.day % 10), '.',
     Digit(d.month / 10), Digit(d.month % 10), '.',
     Digit(y3), Digit(y2 % 10), Digit(y1 % 10), Digit(d.year % 10)]
  }

  /** Every real date, written zero-padded, is accepted as itself. */
  lemma FormatThenParse(d: Date)
    requires IsValid(d)
    ensures ParseDate(FormatDate(d)) == Success(d)
  {
    var s := FormatDate(d);
    assert s[..2] == [s[0], s[1]];
    assert s[3..5] == [s[3], s[4]];
    assert s[6..] == [s[6], s[7], s[8], s[9]];
    assert SplitsAt(s, 2, 5);
    assert DateAt(s, 2, 5) == d;
    ParseDateComplete(s, d);
  }

  /** A text of the right shape is rejected only on calendar grounds:
      year 0000, or a day past the end of its month. */
  lemma ParseSplit(s: string, i: int, j: int)
    requires SplitsAt(s, i, j)
    ensures var d := DateAt(s, i, j);
      ParseDate(s) == if d.year < MinYear then Failure(YearOutOfRange)
                      else if d.day > DaysInMonth(d.year, d.month) then Failure(DayOutOfRange)
                      else Success(d)
  {
    SplitIsFirstDots(s, i, j);
    assert s[j + 1..][..4] == s[j + 1..];
  }

  /** A leap day of a year divisible by 400 is accepted. */
  lemma LeapCenturyExample()
    ensures ParseDate("29.02.2000") == Success(Date(2000, 2, 29))
  {
    ParseSplit("29.02.2000", 2, 5);
  }

  /** A century not divisible by 400 has no leap day. */
  lemma CommonCenturyExample()
    ensures ParseDate("29.02.1900") == Failure(DayOutOfRange)
  {
    ParseSplit("29.02.1900", 2, 5);
  }

  /** April has no 31st. */
  lemma ShortMonthExample()
    ensures ParseDate("31.04.2001") == Failure(DayOutOfRange)
  {
    ParseSplit("31.04.2001", 2, 5);
  }

  /** Year 0000 matches the format but is not a `datetime` year. */
  lemma YearZeroExample()
    ensures ParseDate("01.01.0000") == Failure(YearOutOfRange)
  {
    ParseSplit("01.01.0000", 2, 5);
  }

  /** Single-digit day and month are accepted. */
  lemma SingleDigitExample()
    ensures ParseDate("1.1.2000") == Success(Date(2000, 1, 1))
  {
    ParseSplit("1.1.2000", 1, 3);
  }

  /** A single-digit day after one space is accepted. */
  lemma SpacedDayExample()
    ensures ParseDate(" 5.03.1990") == Success(Date(1990, 3, 5))
  {
    ParseSplit(" 5.03.1990", 2, 5);
  }

  /** Dashes are not the separator. */
  lemma DashExample()
    ensures ParseDate("31-12-2000") == Failure(NoMatch)
  {
    var s := "31-12-2000";
    assert forall k :: 0 <= k < |s| ==> s[k] != '.';
  }

  /** Day 00 is not a `%d` token. */
  lemma ZeroDayExample()
    ensures ParseDate("00.01.2000") == Failure(NoMatch)
  {
    var s := "00.01.2000";
    assert s[0] != '.' && s[1] != '.' && s[2] == '.';
    assert FindDot(s, 0) == Some(2);
  }

  /** Month 13 is not a `%m` token. */
  lemma ThirteenthMonthExample()
    ensures ParseDate("1.13.2000") == Failure(NoMatch)
  {
    var s := "1.13.2000";
    assert s[0] != '.' && s[1] == '.' && s[2] != '.' && s[3] != '.' && s[4] == '.';
    assert FindDot(s, 0) == Some(1);
    assert FindDot(s, 2) == Some(4);
  }

  /** A two-digit year does not match `%Y`. */
  lemma ShortYearExample()
    ensures ParseDate("1.1.99") == Failure(NoMatch)
  {
    var s := "1.1.99";
    assert s[0] != '.' && s[1] == '.' && s[2] != '.' && s[3] == '.';
    assert FindDot(s, 0) == Some(1);
    assert FindDot(s, 2) == Some(3);
  }

  /** A fifth year digit is left unconverted. */
  lemma TrailingDigitExample()
    ensures ParseDate("01.01.20001") == Failure(UnconvertedData)
  {
    var s := "01.01.20001";
    assert s[0] != '.' && s[1] != '.' && s[2] == '.' && s[3] != '.' && s[4] != '.' && s[5] == '.';
    assert FindDot(s, 0) == Some(2);
    assert FindDot(s, 3) == Some(5);
  }
}
