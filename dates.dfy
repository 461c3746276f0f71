/**
 * `DateUtils` and `IsValidDate` (utils.go): Go's `time.Parse` with the
 * layout "02/01/2006" (two-digit day, two-digit month, four-digit year,
 * validated against the Gregorian calendar) and `Time.Format` with the
 * layouts "2006-01-02" and "02/01/2006".
 */
module Dates {
  import opened Wrappers
  import opened Strings

  /** A `time.Time` reduced to its calendar date. */
  datatype Date = Date(year: int, month: int, day: int)

  /** The three ways `time.Parse("02/01/2006", s)` fails, in the order it detects them. */
  datatype DateError = Malformed | MonthOutOfRange | DayOutOfRange

  predicate IsLeapYear(y: int) {
    y % 4 == 0 && (y % 100 != 0 || y % 400 == 0)
  }

  function DaysIn(month: int, year: int): (n: int)
    requires 1 <= month <= 12
    ensures 28 <= n <= 31
  {
    if month == 2 then (if IsLeapYear(year) then 29 else 28)
    else if month == 4 || month == 6 || month == 9 || month == 11 then 30
    else 31
  }

  /** What every `time.Time` satisfies: a real day of the Gregorian calendar. */
  predicate IsCalendarDate(d: Date) {
    1 <= d.month <= 12 && 1 <= d.day <= DaysIn(d.month, d.year)
  }

  /** The text shape "DD/MM/YYYY", ten characters of digits and slashes. */
  predicate IsBRShape(s: string) {
    |s| == 10 && s[2] == '/' && s[5] == '/'
    && AllDigits(s[..2]) && AllDigits(s[3..5]) && AllDigits(s[6..])
  }

  /** The date a "DD/MM/YYYY" text names, before any range check. */
  function FieldsOf(s: string): Date
    requires IsBRShape(s)
  {
    Date(ParseDigits(s[6..]), ParseDigits(s[3..5]), ParseDigits(s[..2]))
  }

  /** `ParseDateBR`, lines 143-145: `time.Parse("02/01/2006", s)`. */
  function ParseDateBR(s: string): (r: Result<Date, DateError>)
    ensures r.Ok? <==> IsBRShape(s) && IsCalendarDate(FieldsOf(s))
    ensures r.Ok? ==> r.value == FieldsOf(s) && 0 <= r.value.year <= 9999
  {
    if |s| < 2 || !IsDigit(s[0]) || !IsDigit(s[1]) then Err(Malformed)
    else if |s| < 3 || s[2] != '/' then Err(Malformed)
    else if |s| < 5 || !IsDigit(s[3]) || !IsDigit(s[4]) then Err(Malformed)
    else
      var month := ParseDigits(s[3..5]);
      if month < 1 || month > 12 then Err(MonthOutOfRange)
      else if |s| < 6 || s[5] != '/' then Err(Malformed)
      else if |s| != 10 || !AllDigits(s[6..]) then Err(Malformed)
      else
        var day, year := ParseDigits(s[..2]), ParseDigits(s[6..]);
        ParseDigitsBelow(s[6..]);
        assert Pow10(4) == 10000;
        if day < 1 || day > DaysIn(month, year) then Err(DayOutOfRange)
        else Ok(Date(year, month, day))
  }

  /** Go's `appendInt(b, n, 4)` for a year: zero-padded to four digits, signed when negative. */
  function YearText(y: int): string {
    var u: nat := if y < 0 then -y else y;
    (if y < 0 then "-" else "") + (if u < 10000 then FixedWidth(u, 4) else NatToString(u))
  }

  /** `FormatDateSQL`, lines 158-160: `Format("2006-01-02")`. */
  function FormatDateSQL(d: Date): (r: string)
    requires IsCalendarDate(d)
    ensures 0 <= d.year <= 9999 ==>
      |r| == 10 && r[4] == '-' && r[7] == '-'
      && AllDigits(r[..4]) && AllDigits(r[5..7]) && AllDigits(r[8..])
  {
    YearText(d.year) + "-" + FixedWidth(d.month, 2) + "-" + FixedWidth(d.day, 2)
  }

  /** `FormatDateBR`, lines 148-150: `Format("02/01/2006")`. */
  function FormatDateBR(d: Date): (r: string)
    requires IsCalendarDate(d)
    ensures 0 <= d.year <= 9999 ==> IsBRShape(r)
  {
    FixedWidth(d.day, 2) + "/" + FixedWidth(d.month, 2) + "/" + YearText(d.year)
  }

  /** `ConvertDateBRToSQL`, lines 163-169. */
  function ConvertDateBRToSQL(s: string): (r: Result<string, DateError>)
    ensures r.Ok? <==> ParseDateBR(s).Ok?
    ensures r.Ok? ==> |r.value| == 10 && r.value[4] == '-' && r.value[7] == '-'
  {
    match ParseDateBR(s)
    case Ok(d) => Ok(FormatDateSQL(d))
    case Err(e) => Err(e)
  }

  /** `IsValidDate`, lines 304-307. */
  function IsValidDate(s: string): (ok: bool)
    ensures ok <==> ConvertDateBRToSQL(s).Ok?
    ensures ok <==> IsBRShape(s) && IsCalendarDate(FieldsOf(s))
  {
    ParseDateBR(s).Ok?
  }

  lemma YearTextOfDigits(w: string)
    requires |w| == 4 && AllDigits(w)
    ensures YearText(ParseDigits(w)) == w
  {
    ParseDigitsBelow(w);
    assert Pow10(4) == 10000;
    FixedWidthParse(w);
  }

  /** Converting a date moves the year, month and day text of the input, unchanged, into ISO order. */
  lemma {:induction false} ConvertIsReordering(s: string)
    requires ConvertDateBRToSQL(s).Ok?
    ensures ConvertDateBRToSQL(s).value == s[6..10] + "-" + s[3..5] + "-" + s[0..2]
  {
    assert s[6..] == s[6..10];
    YearTextOfDigits(s[6..]);
    FixedWidthParse(s[3..5]);
    FixedWidthParse(s[..2]);
  }

  /** Formatting a parsed date gives the text back. */
  lemma {:induction false} FormatParsedBR(s: string)
    requires ParseDateBR(s).Ok?
    ensures FormatDateBR(ParseDateBR(s).value) == s
  {
    YearTextOfDigits(s[6..]);
    FixedWidthParse(s[3..5]);
    FixedWidthParse(s[..2]);
    assert s == s[..2] + "/" + s[3..5] + "/" + s[6..];
  }

  /** Parsing a formatted date gives the date back, for the years "2006" can print in four digits. */
  lemma {:induction false} ParseFormattedBR(d: Date)
    requires IsCalendarDate(d) && 0 <= d.year <= 9999
    ensures ParseDateBR(FormatDateBR(d)) == Ok(d)
  {
    var s := FormatDateBR(d);
    assert s[..2] == FixedWidth(d.day, 2) && s[3..5] == FixedWidth(d.month, 2);
    assert s[6..] == FixedWidth(d.year, 4);
    assert Pow10(2) == 100 && Pow10(4) == 10000;
    ParseFixedWidth(d.day, 2);
    ParseFixedWidth(d.month, 2);
    ParseFixedWidth(d.year, 4);
  }

  /** Impossible calendar dates fail instead of wrapping into the next month or year. */
  lemma NoWrapAround(s: string)
    requires IsBRShape(s) && !IsCalendarDate(FieldsOf(s))
    ensures ParseDateBR(s).Err? && ConvertDateBRToSQL(s).Err? && !IsValidDate(s)
  {
  }

  /**
   * The outcome of parsing a well-shaped "DD/MM/YYYY" text: the month is
   * range-checked first, the day against that month's length last.
   */
  lemma {:induction false} ParseOfFields(s: string, dd: string, mm: string, yyyy: string)
    requires |dd| == 2 && |mm| == 2 && |yyyy| == 4
    requires AllDigits(dd) && AllDigits(mm) && AllDigits(yyyy)
    requires s == dd + "/" + mm + "/" + yyyy
    ensures var day, month, year := ParseDigits(dd), ParseDigits(mm), ParseDigits(yyyy);
      ParseDateBR(s) ==
        if month < 1 || month > 12 then Err(MonthOutOfRange)
        else if day < 1 || day > DaysIn(month, year) then Err(DayOutOfRange)
        else Ok(Date(year, month, day))
    ensures ParseDateBR(s).Ok? ==> ConvertDateBRToSQL(s) == Ok(yyyy + "-" + mm + "-" + dd)
  {
    assert s[..2] == dd && s[3..5] == mm && s[6..] == yyyy && s[6..10] == yyyy && s[0..2] == dd;
    assert IsBRShape(s);
    if ParseDateBR(s).Ok? {
      ConvertIsReordering(s);
    }
  }

  lemma ParseOfExample(s: string)
    requires s == "15/12/2024"
    ensures ParseDateBR(s) == Ok(Date(2024, 12, 15))
  {
    ParseTwoDigits("15");
    ParseTwoDigits("12");
    ParseFourDigits("2024");
    assert ParseDigits("15") == 15 && ParseDigits("12") == 12 && ParseDigits("2024") == 2024;
    assert DaysIn(12, 2024) == 31;
    ParseOfFields(s, "15", "12", "2024");
  }

  /** The date used by the conversion test: "15/12/2024" becomes "2024-12-15". */
  lemma ExampleConvert(s: string)
    requires s == "15/12/2024"
    ensures ParseDateBR(s) == Ok(Date(2024, 12, 15))
    ensures ConvertDateBRToSQL(s) == Ok("2024-12-15")
  {
    ParseOfExample(s);
    ConvertIsReordering(s);
    assert s[6..10] == "2024" && s[3..5] == "12" && s[0..2] == "15";
    IsoExampleText();
  }

  lemma IsoExampleText()
    ensures "2024" + "-" + "12" + "-" + "15" == "2024-12-15"
  {
  }

  /** The invalid date of the validation test: month 13 is rejected before the day is looked at. */
  lemma ExampleInvalid(s: string)
    requires s == "32/13/2024"
    ensures ParseDateBR(s) == Err(MonthOutOfRange)
    ensures !IsValidDate(s)
  {
    ParseTwoDigits("13");
    ParseOfFields(s, "32", "13", "2024");
  }

  /** 29 February exists in a leap year... */
  lemma ExampleLeapDay(s: string)
    requires s == "29/02/2024"
    ensures ParseDateBR(s) == Ok(Date(2024, 2, 29))
  {
    ParseTwoDigits("29");
    ParseTwoDigits("02");
    ParseFourDigits("2024");
    assert ParseDigits("29") == 29 && ParseDigits("02") == 2 && ParseDigits("2024") == 2024;
    assert DaysIn(2, 2024) == 29;
    ParseOfFields(s, "29", "02", "2024");
  }

  /** ...and is rejected, not rolled over to 1 March, in a common year. */
  lemma ExampleCommonYear(s: string)
    requires s == "29/02/2023"
    ensures ParseDateBR(s) == Err(DayOutOfRange)
  {
    ParseTwoDigits("29");
    ParseTwoDigits("02");
    ParseFourDigits("2023");
    assert ParseDigits("29") == 29 && ParseDigits("02") == 2 && ParseDigits("2023") == 2023;
    assert DaysIn(2, 2023) == 28;
    ParseOfFields(s, "29", "02", "2023");
  }

  /** The layout demands two-digit days: "1/12/2024" is malformed. */
  lemma ExampleOneDigitDay()
    ensures ParseDateBR("1/12/2024") == Err(Malformed)
  {
  }
}
