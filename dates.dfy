/**
 * Calendar dates as the add flow reads and writes them with the pattern
 * "yyyy-MM-dd", and the fallback to today's date when a date does not parse.
 */
module Dates {
  import opened Wrappers
  import opened Text

  datatype Date = Date(year: int, month: int, day: int)

  /** Leap years of the proleptic Gregorian calendar. */
  predicate IsLeapYear(y: int) {
    y % 4 == 0 && (y % 100 != 0 || y % 400 == 0)
  }

  function DaysInMonth(y: int, m: int): (n: int)
    requires 1 <= m <= 12
    ensures 28 <= n <= 31
    ensures n == 29 <==> m == 2 && IsLeapYear(y)
  {
    if m == 2 then (if IsLeapYear(y) then 29 else 28)
    else if m == 4 || m == 6 || m == 9 || m == 11 then 30
    else 31
  }

  predicate ValidDate(d: Date) {
    1 <= d.month <= 12 && 1 <= d.day <= DaysInMonth(d.year, d.month)
  }

  /** Dates whose year the pattern writes with exactly four digits. */
  predicate IsFourDigitDate(d: Date) {
    ValidDate(d) && 1 <= d.year <= 9999
  }

  /**
   * Whether s has the shape dddd-dd-dd, ASCII digits only: what the pattern
   * "yyyy-MM-dd" reads (MM and dd take exactly two digits).
   */
  predicate IsIsoShape(s: string) {
    |s| == 10 && s[4] == '-' && s[7] == '-'
    && AllDigits(s[..4]) && AllDigits(s[5..7]) && AllDigits(s[8..])
  }

  /**
   * LocalDate.parse(s, ofPattern("yyyy-MM-dd")). The year of era must be at
   * least 1, the month 1 to 12 and the day of month 1 to 31; the default
   * SMART resolver then lowers a day past the end of the month to the
   * month's last day (2023-02-30 reads as 2023-02-28). Anything else is a
   * parse error, None here.
   */
  function ParseIsoDate(s: string): (r: Option<Date>)
    ensures r.Some? ==> IsIsoShape(s) && IsFourDigitDate(r.value)
    ensures r.Some? ==> r.value.year == DigitsValue(s[..4]) && r.value.month == DigitsValue(s[5..7])
    ensures r.Some? ==> r.value.day <= DigitsValue(s[8..])
  {
    if !IsIsoShape(s) then None
    else
      var y, m, d := DigitsValue(s[..4]), DigitsValue(s[5..7]), DigitsValue(s[8..]);
      if 1 <= y && 1 <= m <= 12 && 1 <= d <= 31 then
        var last := DaysInMonth(y, m);
        Some(Date(y, m, if d <= last then d else last))
      else None
  }

  /** LocalDate.format(ofPattern("yyyy-MM-dd")) for dates with a four-digit year. */
  function FormatIsoDate(d: Date): (s: string)
    requires IsFourDigitDate(d)
    ensures IsIsoShape(s)
  {
    PadDigits(d.year, 4) + "-" + PadDigits(d.month, 2) + "-" + PadDigits(d.day, 2)
  }

  lemma FormatFields(d: Date)
    requires IsFourDigitDate(d)
    ensures var s := FormatIsoDate(d);
      s[..4] == PadDigits(d.year, 4) && s[5..7] == PadDigits(d.month, 2) && s[8..] == PadDigits(d.day, 2)
  {
    var s := FormatIsoDate(d);
    assert s[..4] == PadDigits(d.year, 4);
    assert s[5..7] == PadDigits(d.month, 2);
    assert s[8..] == PadDigits(d.day, 2);
  }

  /** Parsing a formatted date gives the date back. */
  lemma ParseFormatRoundTrip(d: Date)
    requires IsFourDigitDate(d)
    ensures ParseIsoDate(FormatIsoDate(d)) == Some(d)
  {
    FormatFields(d);
    assert Pow10(4) == 10000 && Pow10(2) == 100;
    PadDigitsRoundTrip(d.year, 4);
    PadDigitsRoundTrip(d.month, 2);
    PadDigitsRoundTrip(d.day, 2);
  }

  /** Year and month of a parsed date print back as they were written. */
  lemma FormatParsedPrefix(s: string)
    requires ParseIsoDate(s).Some?
    ensures FormatIsoDate(ParseIsoDate(s).value)[..8] == s[..8]
  {
    var d := ParseIsoDate(s).value;
    var f := FormatIsoDate(d);
    FormatFields(d);
    DigitsRoundTrip(s[..4]);
    DigitsRoundTrip(s[5..7]);
    assert f[..4] == s[..4] && f[5..7] == s[5..7];
    assert f[4] == s[4] && f[7] == s[7];
    forall i | 0 <= i < 8 ensures f[i] == s[i] {
      if i < 4 {
        assert f[i] == f[..4][i] && s[i] == s[..4][i];
      } else if 5 <= i < 7 {
        assert f[i] == f[5..7][i - 5] && s[i] == s[5..7][i - 5];
      }
    }
  }

  /**
   * Formatting a parsed date reproduces the text except for the day field,
   * which differs exactly when the resolver clamped the day.
   */
  lemma FormatParsed(s: string)
    requires ParseIsoDate(s).Some?
    ensures var d := ParseIsoDate(s).value;
      FormatIsoDate(d) == s[..8] + PadDigits(d.day, 2)
      && (FormatIsoDate(d) == s <==> d.day == DigitsValue(s[8..]))
  {
    var d := ParseIsoDate(s).value;
    var f := FormatIsoDate(d);
    FormatParsedPrefix(s);
    FormatFields(d);
    assert f == f[..8] + f[8..];
    assert s == s[..8] + s[8..];
    if d.day == DigitsValue(s[8..]) {
      DigitsRoundTrip(s[8..]);
    }
    if f == s {
      assert Pow10(2) == 100;
      PadDigitsRoundTrip(d.day, 2);
    }
  }

  /**
   * The Expense constructor's date: the parsed date, or today when the
   * text does not parse.
   */
  function ResolveDate(dateStr: string, today: Date): (r: Date)
  {
    match ParseIsoDate(dateStr)
    case Some(d) => d
    case None => today
  }

  /** A blank date input is replaced by today's formatted date, which resolves to today. */
  lemma BlankDateResolvesToToday(today: Date)
    requires IsFourDigitDate(today)
    ensures ResolveDate(FormatIsoDate(today), today) == today
  {
    ParseFormatRoundTrip(today);
  }

  /** Resolution never fails: the record gets a valid date either way. */
  lemma ResolveDateValid(dateStr: string, today: Date)
    requires IsFourDigitDate(today)
    ensures IsFourDigitDate(ResolveDate(dateStr, today))
    ensures ParseIsoDate(dateStr).Some? ==> ResolveDate(dateStr, today) == ParseIsoDate(dateStr).value
    ensures ParseIsoDate(dateStr).None? ==> ResolveDate(dateStr, today) == today
  {
  }

  lemma Year2024()
    ensures AllDigits("2024") && DigitsValue("2024") == 2024
    ensures AllDigits("2023") && DigitsValue("2023") == 2023
  {
    assert "2" + "0" == "20" && "20" + "2" == "202" && "202" + "4" == "2024" && "202" + "3" == "2023";
    DigitsValueAppend("2", "0");
    DigitsValueAppend("20", "2");
    DigitsValueAppend("202", "4");
    DigitsValueAppend("202", "3");
  }

  /** A well-formed date reads as written. */
  lemma ParseWellFormedExample()
    ensures ParseIsoDate("2024-01-15") == Some(Date(2024, 1, 15))
  {
    var s := "2024-01-15";
    assert s[..4] == "2024" && s[5..7] == "01" && s[8..] == "15";
    Year2024();
    assert DigitsValue("01") == 1 && DigitsValue("15") == 15;
  }

  /** A day past the end of February is lowered to its last day. */
  lemma ParseClampedExample()
    ensures ParseIsoDate("2023-02-30") == Some(Date(2023, 2, 28))
  {
    var s := "2023-02-30";
    assert s[..4] == "2023" && s[5..7] == "02" && s[8..] == "30";
    Year2024();
    assert DigitsValue("02") == 2 && DigitsValue("30") == 30;
  }

  /** Month 13 does not parse, so such an expense is dated today. */
  lemma ParseRejectedExample(today: Date)
    ensures ParseIsoDate("2024-13-45") == None
    ensures ResolveDate("2024-13-45", today) == today
  {
    var s := "2024-13-45";
    assert s[5..7] == "13";
    assert DigitsValue("13") == 13;
  }
}
