/** Calendar dates as the pipeline handles them: validated by
    `pd.to_datetime`, written with strftime `%d/%m/%Y`, read back with the same
    format as the sort key, and reduced to `%m-%Y` for the subtitle. */
module Dates {
  import opened Results
  import opened Strings

  datatype Date = Date(day: nat, month: nat, year: nat)

  predicate IsLeapYear(year: nat) {
    year % 4 == 0 && (year % 100 != 0 || year % 400 == 0)
  }

  function DaysInMonth(month: nat, year: nat): (days: nat)
    requires 1 <= month <= 12
    ensures 28 <= days <= 31
    ensures days == 29 <==> month == 2 && IsLeapYear(year)
  {
    if month == 2 then (if IsLeapYear(year) then 29 else 28)
    else if month == 4 || month == 6 || month == 9 || month == 11 then 30
    else 31
  }

  /** A real Gregorian date whose year `%Y` writes with four digits. */
  predicate ValidDate(d: Date) {
    1000 <= d.year <= 9999 && 1 <= d.month <= 12 && 1 <= d.day <= DaysInMonth(d.month, d.year)
  }

  /** Calendar order: by year, then month, then day. */
  predicate DateLe(a: Date, b: Date) {
    a.year < b.year
    || (a.year == b.year && (a.month < b.month || (a.month == b.month && a.day <= b.day)))
  }

  /** strftime("%d/%m/%Y"). */
  function FormatDate(d: Date): (s: string)
    requires ValidDate(d)
    ensures |s| == 10 && s[2] == '/' && s[5] == '/'
    ensures AllDigits(s[..2]) && AllDigits(s[3..5]) && AllDigits(s[6..])
  {
    var s := PadDigits(d.day, 2) + "/" + PadDigits(d.month, 2) + "/" + PadDigits(d.year, 4);
    assert s[..2] == PadDigits(d.day, 2) && s[3..5] == PadDigits(d.month, 2) && s[6..] == PadDigits(d.year, 4);
    s
  }

  /** pd.to_datetime(s, format="%d/%m/%Y") on one value: None where pandas
      raises, because the text does not have the shape or names no real date. */
  function ParseDate(s: string): (r: Option<Date>)
    ensures r.Some? ==> ValidDate(r.value)
  {
    if |s| == 10 && s[2] == '/' && s[5] == '/'
       && AllDigits(s[..2]) && AllDigits(s[3..5]) && AllDigits(s[6..])
    then
      var d := Date(ParseNat(s[..2]), ParseNat(s[3..5]), ParseNat(s[6..]));
      if ValidDate(d) then Some(d) else None
    else None
  }

  /** Re-parsing the text written for a date gives the date back, so the sort
      key computed from the `Fecha` text is the date that text was made from. */
  lemma ParseFormatDate(d: Date)
    requires ValidDate(d)
    ensures ParseDate(FormatDate(d)) == Some(d)
  {
    var s := FormatDate(d);
    assert s[..2] == PadDigits(d.day, 2);
    assert s[3..5] == PadDigits(d.month, 2);
    assert s[6..] == PadDigits(d.year, 4);
    ParsePadDigits(d.day, 2);
    ParsePadDigits(d.month, 2);
    ParsePadDigits(d.year, 4);
  }

  /** Conversely, every text the parser accepts is exactly the text written
      for the date it denotes. */
  lemma FormatParseDate(s: string)
    requires ParseDate(s).Some?
    ensures FormatDate(ParseDate(s).value) == s
  {
    var d := ParseDate(s).value;
    PadParseDigits(s[..2]);
    PadParseDigits(s[3..5]);
    PadParseDigits(s[6..]);
    assert s == s[..2] + "/" + s[3..5] + "/" + s[6..];
    assert FormatDate(d) == PadDigits(d.day, 2) + "/" + PadDigits(d.month, 2) + "/" + PadDigits(d.year, 4);
  }

  /** Writing dates loses nothing: different dates give different texts. */
  lemma FormatDateInjective(a: Date, b: Date)
    requires ValidDate(a) && ValidDate(b)
    ensures FormatDate(a) == FormatDate(b) <==> a == b
  {
    ParseFormatDate(a);
    ParseFormatDate(b);
  }

  /** strftime("%m-%Y"): the period label. */
  function FormatPeriod(d: Date): (s: string)
    requires ValidDate(d)
    ensures |s| == 7 && s[2] == '-'
  {
    PadDigits(d.month, 2) + "-" + PadDigits(d.year, 4)
  }

  /** The label repeats the month and year fields of the date's `Fecha` text. */
  lemma PeriodOfFormattedDate(d: Date)
    requires ValidDate(d)
    ensures FormatPeriod(d) == FormatDate(d)[3..5] + "-" + FormatDate(d)[6..]
  {
    var s := FormatDate(d);
    assert s[3..5] == PadDigits(d.month, 2);
    assert s[6..] == PadDigits(d.year, 4);
  }

  /** Two dates have the same label exactly when they fall in the same month. */
  lemma SamePeriod(a: Date, b: Date)
    requires ValidDate(a) && ValidDate(b)
    ensures FormatPeriod(a) == FormatPeriod(b) <==> a.month == b.month && a.year == b.year
  {
    var s, t := FormatPeriod(a), FormatPeriod(b);
    assert s[..2] == PadDigits(a.month, 2) && s[3..] == PadDigits(a.year, 4);
    assert t[..2] == PadDigits(b.month, 2) && t[3..] == PadDigits(b.year, 4);
    ParsePadDigits(a.month, 2);
    ParsePadDigits(b.month, 2);
    ParsePadDigits(a.year, 4);
    ParsePadDigits(b.year, 4);
  }

  /** Ordering the `DD/MM/YYYY` texts as strings would not order the dates:
      28/02/2024 comes before 01/03/2024 in the calendar and after it as text.
      Hence the sort key must be the re-parsed date. */
  lemma TextOrderIsNotCalendarOrder()
    ensures exists a: Date, b: Date :: ValidDate(a) && ValidDate(b) && DateLe(a, b) && a != b
                                       && TextBefore(FormatDate(b), FormatDate(a))
  {
    var a, b := Date(28, 2, 2024), Date(1, 3, 2024);
    assert FormatDate(a)[0] == '2';
    assert FormatDate(b)[0] == '0';
    assert TextBefore(FormatDate(b), FormatDate(a));
  }
}
