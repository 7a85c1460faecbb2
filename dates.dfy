/**
  The two calendar helpers of gather_utils.py: `month_bounds` and
  `convert_date_slash_to_dash`. Calendar rules are the proleptic Gregorian
  ones of Python's `datetime` and `calendar` modules (years 1 to 9999).
 */
module Dates {
  import opened Common

  /** `calendar.isleap(year)` */
  predicate IsLeap(year: int)
  {
    year % 4 == 0 && (year % 100 != 0 || year % 400 == 0)
  }

  /** The day count `calendar.monthrange(year, month)[1]`. */
  function DaysInMonth(year: int, month: int): (d: nat)
    requires 1 <= month <= 12
    ensures 28 <= d <= 31
  {
    if month == 2 then (if IsLeap(year) then 29 else 28)
    else if month == 4 || month == 6 || month == 9 || month == 11 then 30
    else 31
  }

  /** `str(n).zfill(2)` */
  function Pad2(n: nat): (s: string)
    requires n < 100
    ensures |s| == 2 && AllDigits(s) && DigitsValue(s) == n
  {
    NatToStringRoundTrip(n);
    ZFill2Value(NatToString(n));
    ZFill2(NatToString(n))
  }

  /**
    `month_bounds(year, month)`: the zero-padded first and last day of the
    month, or the ValueError `date(year, month, 1)` raises.
   */
  function MonthBounds(year: int, month: int): (r: Result<(string, string)>)
    ensures r.Ok? <==> 1 <= year <= 9999 && 1 <= month <= 12
    ensures r.Err? ==> r.error.ValueError?
    ensures r.Ok? ==> r.value.0 == "01"
    ensures r.Ok? ==> |r.value.1| == 2 && AllDigits(r.value.1)
                      && DigitsValue(r.value.1) == DaysInMonth(year, month)
  {
    if !(1 <= year <= 9999) then Err(ValueError("year " + IntToString(year) + " is out of range"))
    else if !(1 <= month <= 12) then Err(ValueError("month must be in 1..12"))
    else Ok((Pad2(1), Pad2(DaysInMonth(year, month))))
  }

  /** February of a leap year ends on the 29th, of any other year on the 28th. */
  lemma FebruaryBounds(year: int)
    requires 1 <= year <= 9999
    ensures MonthBounds(year, 2) == Ok(("01", if IsLeap(year) then "29" else "28"))
  {
    assert Pad2(1) == "01";
    assert Pad2(29) == "29";
    assert Pad2(28) == "28";
  }

  /** The month lengths add up to the length of the year. */
  lemma YearLength(year: int)
    ensures (DaysInMonth(year, 1) + DaysInMonth(year, 2) + DaysInMonth(year, 3) + DaysInMonth(year, 4)
             + DaysInMonth(year, 5) + DaysInMonth(year, 6) + DaysInMonth(year, 7) + DaysInMonth(year, 8)
             + DaysInMonth(year, 9) + DaysInMonth(year, 10) + DaysInMonth(year, 11) + DaysInMonth(year, 12))
            == if IsLeap(year) then 366 else 365
  {
  }

  // ---------------------------------------------------------------------
  // convert_date_slash_to_dash
  // ---------------------------------------------------------------------

  /** The day field `%d`: `3[01]|[12]\d|0[1-9]|[1-9]| [1-9]`. */
  function DayField(t: string): (d: Option<nat>)
    ensures d.Some? ==> 1 <= d.value <= 31
  {
    if |t| == 1 && '1' <= t[0] <= '9' then Some(DigitVal(t[0]))
    else if |t| == 2 && t[0] == ' ' && '1' <= t[1] <= '9' then Some(DigitVal(t[1]))
    else if |t| == 2 && AllDigits(t) && 1 <= 10 * DigitVal(t[0]) + DigitVal(t[1]) <= 31 then
      Some(10 * DigitVal(t[0]) + DigitVal(t[1]))
    else None
  }

  /** The month field `%m`: `1[0-2]|0[1-9]|[1-9]`. */
  function MonthField(t: string): (m: Option<nat>)
    ensures m.Some? ==> 1 <= m.value <= 12
  {
    if |t| == 1 && '1' <= t[0] <= '9' then Some(DigitVal(t[0]))
    else if |t| == 2 && AllDigits(t) && 1 <= 10 * DigitVal(t[0]) + DigitVal(t[1]) <= 12 then
      Some(10 * DigitVal(t[0]) + DigitVal(t[1]))
    else None
  }

  /** The value of four ASCII digits. */
  function Value4(t: string): int
    requires |t| == 4
  {
    1000 * DigitVal(t[0]) + 100 * DigitVal(t[1]) + 10 * DigitVal(t[2]) + DigitVal(t[3])
  }

  /** The year field `%Y`: exactly four digits. */
  function YearField(t: string): (y: Option<nat>)
    ensures y.Some? ==> y.value <= 9999
  {
    if |t| == 4 && AllDigits(t) then Some(Value4(t)) else None
  }

  /** `%Y` when printing: the year with four digits. */
  function Year4(y: nat): (s: string)
    requires y <= 9999
    ensures |s| == 4 && AllDigits(s) && Value4(s) == y
  {
    var r1 := y % 1000;
    var r2 := r1 % 100;
    [DigitChar(y / 1000), DigitChar(r1 / 100), DigitChar(r2 / 10), DigitChar(r2 % 10)]
  }

  /** `%b` in the C locale, upper-cased. */
  function MonthAbbrUpper(m: nat): (s: string)
    requires 1 <= m <= 12
    ensures |s| == 3 && forall i :: 0 <= i < 3 ==> 'A' <= s[i] <= 'Z'
  {
    ["JAN", "FEB", "MAR", "APR", "MAY", "JUN", "JUL", "AUG", "SEP", "OCT", "NOV", "DEC"][m - 1]
  }

  /** A calendar date `datetime` accepts. */
  predicate ValidDate(day: int, month: int, year: int)
  {
    1 <= year <= 9999 && 1 <= month <= 12 && 1 <= day <= DaysInMonth(year, month)
  }

  /**
    The fields the pattern of `strptime(s, "%d/%m/%Y")` reads when it
    matches all of `s`: a day 1 to 31, a month 1 to 12 and a year 0 to 9999,
    not yet checked against the calendar.
   */
  function SlashFields(s: string): (r: Option<(nat, nat, nat)>)
    ensures r.Some? ==> 1 <= r.value.0 <= 31 && 1 <= r.value.1 <= 12 && r.value.2 <= 9999
  {
    var parts := SplitOn(s, '/');
    if |parts| != 3 then None
    else
      match (DayField(parts[0]), MonthField(parts[1]), YearField(parts[2]))
      case (Some(d), Some(m), Some(y)) => Some((d, m, y))
      case _ => None
  }

  /**
    `datetime.strptime(s, "%d/%m/%Y")`: the (day, month, year) it reads, or
    None where it raises ValueError.
   */
  function ParseSlashDate(s: string): (r: Option<(nat, nat, nat)>)
    ensures r.Some? ==> ValidDate(r.value.0, r.value.1, r.value.2)
    ensures r.Some? <==> SlashFields(s).Some? && ValidDate(SlashFields(s).value.0, SlashFields(s).value.1,
                                                             SlashFields(s).value.2)
  {
    match SlashFields(s)
    case Some((d, m, y)) => if ValidDate(d, m, y) then Some((d, m, y)) else None
    case None => None
  }

  /** The message of the ValueError `strptime` raises when `s` does not match its pattern. */
  function NoMatchMessage(s: string): string
  {
    "time data " + Repr(s) + " does not match format '%d/%m/%Y'"
  }

  /**
    The message of the ValueError `date(year, month, day)` raises for
    fields the pattern read: the year is checked before the day, and the
    pattern already bounds the month.
   */
  function CalendarMessage(day: nat, month: nat, year: nat): string
  {
    if year < 1 then "year " + IntToString(year) + " is out of range" else "day is out of range for month"
  }

  /**
    `convert_date_slash_to_dash(s)`: "DD/MM/YYYY" to "DD-MON-YYYY" with an
    upper-case English month abbreviation, or ValueError.
   */
  function ConvertDateSlashToDash(s: string): Result<string>
  {
    match SlashFields(s)
    case None => Err(ValueError(NoMatchMessage(s)))
    case Some((d, m, y)) =>
      if ValidDate(d, m, y) then Ok(Pad2(d) + "-" + MonthAbbrUpper(m) + "-" + Year4(y))
      else Err(ValueError(CalendarMessage(d, m, y)))
  }

  /**
    The conversion succeeds exactly on the dates `ParseSlashDate` accepts,
    and then spells that date; every failure is a ValueError, the
    pattern-mismatch one exactly when the text is not DD/MM/YYYY.
   */
  lemma ConvertMeaning(s: string)
    ensures ConvertDateSlashToDash(s).Ok? <==> ParseSlashDate(s).Some?
    ensures ConvertDateSlashToDash(s).Err? ==> ConvertDateSlashToDash(s).error.ValueError?
    ensures ConvertDateSlashToDash(s).Ok? ==>
              var (d, m, y) := ParseSlashDate(s).value;
              ConvertDateSlashToDash(s).value == Pad2(d) + "-" + MonthAbbrUpper(m) + "-" + Year4(y)
    ensures ConvertDateSlashToDash(s) == Err(ValueError(NoMatchMessage(s))) <==> SlashFields(s).None?
  {
  }

  /** A message for bad fields is never the pattern-mismatch message. */
  lemma CalendarMessageIsNotNoMatch(day: nat, month: nat, year: nat, s: string)
    ensures CalendarMessage(day, month, year) != NoMatchMessage(s)
  {
    var c := CalendarMessage(day, month, year);
    assert c[0] != 't' by {
      if year < 1 { assert c[0] == 'y'; } else { assert c[0] == 'd'; }
    }
  }

  /** The output has the fixed shape DD-MON-YYYY and no lower-case letter. */
  lemma ConvertedShape(s: string)
    requires ConvertDateSlashToDash(s).Ok?
    ensures var out := ConvertDateSlashToDash(s).value;
            |out| == 11 && out[2] == '-' && out[6] == '-'
            && forall i :: 0 <= i < |out| ==> !('a' <= out[i] <= 'z')
  {
  }

  /** A date written with two slashes splits into its three fields. */
  lemma SplitDate(dd: string, mm: string, yy: string)
    requires '/' !in dd && '/' !in mm && '/' !in yy
    ensures SplitOn(dd + "/" + mm + "/" + yy, '/') == [dd, mm, yy]
  {
    SplitOnFirst(dd, '/', mm + "/" + yy);
    SplitOnFirst(mm, '/', yy);
    SplitOnNone(yy, '/');
    assert dd + "/" + mm + "/" + yy == dd + ['/'] + (mm + ['/'] + yy);
  }

  /**
    Round trip: the canonical "DD/MM/YYYY" text of any valid date is read
    back as that date and rewritten with the month's abbreviation.
   */
  lemma ConvertCanonical(day: nat, month: nat, year: nat)
    requires ValidDate(day, month, year)
    ensures ParseSlashDate(Pad2(day) + "/" + Pad2(month) + "/" + Year4(year)) == Some((day, month, year))
    ensures ConvertDateSlashToDash(Pad2(day) + "/" + Pad2(month) + "/" + Year4(year))
            == Ok(Pad2(day) + "-" + MonthAbbrUpper(month) + "-" + Year4(year))
  {
    var dd, mm, yy := Pad2(day), Pad2(month), Year4(year);
    assert '/' !in dd && '/' !in mm && '/' !in yy;
    SplitDate(dd, mm, yy);
    FieldsOfCanonical(day, month, year);
  }

  /** Each canonical field is read back as the number it was written from. */
  lemma FieldsOfCanonical(day: nat, month: nat, year: nat)
    requires ValidDate(day, month, year)
    ensures DayField(Pad2(day)) == Some(day)
    ensures MonthField(Pad2(month)) == Some(month)
    ensures YearField(Year4(year)) == Some(year)
  {
    DigitsValueTwo(Pad2(day));
    DigitsValueTwo(Pad2(month));
  }

  /**
    Fields that match the pattern but name no calendar date give the
    calendar's message, not the pattern's.
   */
  lemma ConvertBadFields(dd: string, mm: string, yy: string, day: nat, month: nat, year: nat)
    requires '/' !in dd && '/' !in mm && '/' !in yy
    requires DayField(dd) == Some(day) && MonthField(mm) == Some(month) && YearField(yy) == Some(year)
    requires !ValidDate(day, month, year)
    ensures ConvertDateSlashToDash(dd + "/" + mm + "/" + yy) == Err(ValueError(CalendarMessage(day, month, year)))
  {
    SplitDate(dd, mm, yy);
  }

  /** The 31st of a 30-day month is refused by the calendar. */
  lemma ConvertRejectsDayBeyondMonth()
    ensures ConvertDateSlashToDash("31/04/2025") == Err(ValueError("day is out of range for month"))
  {
    assert DayField("31") == Some(31);
    assert MonthField("04") == Some(4);
    assert YearField("2025") == Some(2025);
    ConvertBadFields("31", "04", "2025", 31, 4, 2025);
    assert "31" + "/" + "04" + "/" + "2025" == "31/04/2025";
  }

  /** The 29th of February is refused outside leap years. */
  lemma ConvertRejectsLeapDayOfCommonYear()
    ensures ConvertDateSlashToDash("29/02/2023") == Err(ValueError("day is out of range for month"))
  {
    assert DayField("29") == Some(29);
    assert MonthField("02") == Some(2);
    assert YearField("2023") == Some(2023);
    assert !IsLeap(2023);
    ConvertBadFields("29", "02", "2023", 29, 2, 2023);
    assert "29" + "/" + "02" + "/" + "2023" == "29/02/2023";
  }

  /** Year 0 matches the pattern but is refused by the calendar, the year before the day. */
  lemma ConvertRejectsYearZero()
    ensures ConvertDateSlashToDash("31/04/0000") == Err(ValueError("year 0 is out of range"))
  {
    assert DayField("31") == Some(31);
    assert MonthField("04") == Some(4);
    assert YearField("0000") == Some(0);
    ConvertBadFields("31", "04", "0000", 31, 4, 0);
    assert "31" + "/" + "04" + "/" + "0000" == "31/04/0000";
    YearZeroMessage();
  }

  /** The calendar's message for year 0. */
  lemma YearZeroMessage()
    ensures CalendarMessage(31, 4, 0) == "year 0 is out of range"
  {
    assert IntToString(0) == ['0'];
  }

  /** The pieces the leap-day example is printed from. */
  lemma LeapDayPieces()
    ensures Pad2(29) == "29" && Pad2(2) == "02" && Year4(2024) == "2024" && MonthAbbrUpper(2) == "FEB"
  {
    Pad2Small(29);
    Pad2Small(2);
    assert Year4(2024) == [DigitChar(2), DigitChar(0), DigitChar(2), DigitChar(4)];
  }

  /** `str(n).zfill(2)` spelled out digit by digit. */
  lemma Pad2Small(n: nat)
    requires n < 100
    ensures Pad2(n) == [DigitChar(n / 10), DigitChar(n % 10)]
  {
    var s := Pad2(n);
    DigitsValueTwo(s);
  }

  /** The 29th of February of a leap year is kept. */
  lemma ConvertLeapDay()
    ensures ConvertDateSlashToDash("29/02/2024") == Ok("29-FEB-2024")
  {
    LeapDayTexts();
    ConvertCanonical(29, 2, 2024);
  }

  /** The leap-day example's input and output, assembled from their pieces. */
  lemma LeapDayTexts()
    ensures Pad2(29) + "/" + Pad2(2) + "/" + Year4(2024) == "29/02/2024"
    ensures Pad2(29) + "-" + MonthAbbrUpper(2) + "-" + Year4(2024) == "29-FEB-2024"
  {
    LeapDayPieces();
    assert "29" + "/" + "02" + "/" + "2024" == "29/02/2024";
  }
}
