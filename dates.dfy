/** Calendar dates as Python's `datetime.date` sees them, the two renderings
    of `format_date`, the timestamp written to the sheet and the
    `strptime(…, "%d/%m/%Y")` parse the report applies to sheet cells. */
module Dates {
  import opened Outcomes
  import opened Text

  datatype Date = Date(year: nat, month: nat, day: nat)

  predicate IsLeap(y: int) { y % 4 == 0 && (y % 100 != 0 || y % 400 == 0) }

  function DaysInMonth(y: int, m: int): (r: int)
    requires 1 <= m <= 12
    ensures 28 <= r <= 31
  {
    if m == 2 then (if IsLeap(y) then 29 else 28)
    else if m == 4 || m == 6 || m == 9 || m == 11 then 30
    else 31
  }

  function DaysInYear(y: int): int { if IsLeap(y) then 366 else 365 }

  /** The dates `datetime.date` can represent. */
  predicate ValidDate(d: Date)
  {
    1 <= d.year <= 9999 && 1 <= d.month <= 12 && 1 <= d.day <= DaysInMonth(d.year, d.month)
  }

  /** `a <= b` on dates: by year, then month, then day. */
  predicate DateLe(a: Date, b: Date)
  {
    a.year < b.year || (a.year == b.year && (a.month < b.month || (a.month == b.month && a.day <= b.day)))
  }

  // ---------------------------------------------------------------------
  // Day numbers
  // ---------------------------------------------------------------------

  /** Days in the years before year `y`, counted from year 1. */
  function DaysBeforeYear(y: int): (r: int)
    requires y >= 1
    ensures r >= 0
  {
    if y == 1 then 0 else DaysBeforeYear(y - 1) + DaysInYear(y - 1)
  }

  /** Days in the months of year `y` before month `m`. */
  function DaysBeforeMonth(y: int, m: int): (r: int)
    requires 1 <= m <= 12
    ensures r >= 0
  {
    if m == 1 then 0 else DaysBeforeMonth(y, m - 1) + DaysInMonth(y, m - 1)
  }

  /** `date.toordinal()`: 0001-01-01 is day 1. */
  function Ordinal(d: Date): int
    requires ValidDate(d)
  {
    DaysBeforeYear(d.year) + DaysBeforeMonth(d.year, d.month) + d.day
  }

  /** `date.weekday()`: 0 is Monday and 6 is Sunday; 0001-01-01 was a Monday. */
  function Weekday(d: Date): (w: int)
    requires ValidDate(d)
    ensures 0 <= w < 7
  {
    (Ordinal(d) + 6) % 7
  }

  /** The year count agrees with the closed form Python's `datetime` uses,
      `365 * (y - 1) + (y - 1) // 4 - (y - 1) // 100 + (y - 1) // 400`. */
  lemma {:induction false} DaysBeforeYearClosedForm(y: int)
    requires y >= 1
    ensures DaysBeforeYear(y) == 365 * (y - 1) + (y - 1) / 4 - (y - 1) / 100 + (y - 1) / 400
  {
    if y > 1 {
      DaysBeforeYearClosedForm(y - 1);
      var x := y - 1;
      DivStep4(x);
      DivStep100(x);
      DivStep400(x);
      DivisorsOf400(x);
    }
  }

  lemma DivisorsOf400(x: int)
    ensures x % 400 == 0 ==> x % 100 == 0
    ensures x % 100 == 0 ==> x % 4 == 0
  {
    if x % 400 == 0 {
      MultipleOf400(x);
    }
    if x % 100 == 0 {
      MultipleOf100(x);
    }
  }

  lemma MultipleOf400(x: int)
    requires x % 400 == 0
    ensures x % 100 == 0
  {
    var q := x / 400;
    assert x == 100 * (4 * q);
  }

  lemma MultipleOf100(x: int)
    requires x % 100 == 0
    ensures x % 4 == 0
  {
    var q := x / 100;
    assert x == 4 * (25 * q);
  }

  lemma DivStep4(x: int)
    ensures x / 4 == (x - 1) / 4 + (if x % 4 == 0 then 1 else 0)
  {
  }

  lemma DivStep100(x: int)
    ensures x / 100 == (x - 1) / 100 + (if x % 100 == 0 then 1 else 0)
  {
  }

  lemma DivStep400(x: int)
    ensures x / 400 == (x - 1) / 400 + (if x % 400 == 0 then 1 else 0)
  {
  }

  lemma DaysBeforeMonthTotal(y: int)
    ensures DaysBeforeMonth(y, 12) + DaysInMonth(y, 12) == DaysInYear(y)
  {
    var feb := DaysInMonth(y, 2);
    assert DaysBeforeMonth(y, 2) == 31;
    assert DaysBeforeMonth(y, 3) == 31 + feb;
    assert DaysBeforeMonth(y, 4) == 62 + feb;
    assert DaysBeforeMonth(y, 5) == 92 + feb;
    assert DaysBeforeMonth(y, 6) == 123 + feb;
    assert DaysBeforeMonth(y, 7) == 153 + feb;
    assert DaysBeforeMonth(y, 8) == 184 + feb;
    assert DaysBeforeMonth(y, 9) == 215 + feb;
    assert DaysBeforeMonth(y, 10) == 245 + feb;
    assert DaysBeforeMonth(y, 11) == 276 + feb;
    assert DaysBeforeMonth(y, 12) == 306 + feb;
  }

  lemma {:induction false} DaysBeforeMonthGrows(y: int, m1: int, m2: int)
    requires 1 <= m1 < m2 <= 12
    ensures DaysBeforeMonth(y, m1) + DaysInMonth(y, m1) <= DaysBeforeMonth(y, m2)
    decreases m2
  {
    if m1 < m2 - 1 {
      DaysBeforeMonthGrows(y, m1, m2 - 1);
    }
  }

  lemma DaysBeforeMonthBound(y: int, m: int)
    requires 1 <= m <= 12
    ensures DaysBeforeMonth(y, m) + DaysInMonth(y, m) <= DaysInYear(y)
  {
    DaysBeforeMonthTotal(y);
    if m < 12 {
      DaysBeforeMonthGrows(y, m, 12);
    }
  }

  lemma {:induction false} DaysBeforeYearGrows(y1: int, y2: int)
    requires 1 <= y1 < y2
    ensures DaysBeforeYear(y1) + DaysInYear(y1) <= DaysBeforeYear(y2)
    decreases y2
  {
    if y1 < y2 - 1 {
      DaysBeforeYearGrows(y1, y2 - 1);
    }
  }

  /** A date strictly before another has a smaller day number. */
  lemma OrdinalIncreasing(a: Date, b: Date)
    requires ValidDate(a) && ValidDate(b) && DateLe(a, b) && a != b
    ensures Ordinal(a) < Ordinal(b)
  {
    if a.year < b.year {
      DaysBeforeMonthBound(a.year, a.month);
      DaysBeforeYearGrows(a.year, b.year);
    } else if a.month < b.month {
      DaysBeforeMonthGrows(a.year, a.month, b.month);
    }
  }

  /** Comparing dates is comparing day numbers. */
  lemma DateLeOrdinal(a: Date, b: Date)
    requires ValidDate(a) && ValidDate(b)
    ensures DateLe(a, b) <==> Ordinal(a) <= Ordinal(b)
    ensures a == b <==> Ordinal(a) == Ordinal(b)
  {
    if a != b {
      if DateLe(a, b) {
        OrdinalIncreasing(a, b);
      } else {
        OrdinalIncreasing(b, a);
      }
    }
  }

  // ---------------------------------------------------------------------
  // Date arithmetic
  // ---------------------------------------------------------------------

  /** `d - timedelta(days=1)`; `None` where Python raises OverflowError. */
  function PrevDay(d: Date): (r: Option<Date>)
    requires ValidDate(d)
    ensures r.Some? <==> d != Date(1, 1, 1)
    ensures r.Some? ==> ValidDate(r.value) && DateLe(r.value, d) && r.value != d
  {
    if d.day > 1 then Some(Date(d.year, d.month, d.day - 1))
    else if d.month > 1 then Some(Date(d.year, d.month - 1, DaysInMonth(d.year, d.month - 1)))
    else if d.year > 1 then Some(Date(d.year - 1, 12, 31))
    else None
  }

  /** The previous day is the day numbered one less. */
  lemma PrevDayOrdinal(d: Date)
    requires ValidDate(d) && d != Date(1, 1, 1)
    ensures Ordinal(PrevDay(d).value) == Ordinal(d) - 1
  {
    if d.day == 1 && d.month == 1 {
      NewYearOrdinal(d.year);
    } else if d.day == 1 {
      MonthStartOrdinal(d.year, d.month);
    }
  }

  lemma NewYearOrdinal(y: nat)
    requires 2 <= y <= 9999
    ensures Ordinal(Date(y, 1, 1)) == Ordinal(Date(y - 1, 12, 31)) + 1
  {
    DaysBeforeMonthTotal(y - 1);
  }

  lemma MonthStartOrdinal(y: nat, m: nat)
    requires 1 <= y <= 9999 && 2 <= m <= 12
    ensures Ordinal(Date(y, m, 1)) == Ordinal(Date(y, m - 1, DaysInMonth(y, m - 1))) + 1
  {
  }

  /** `d - timedelta(days=n)`; `None` where Python raises OverflowError. */
  function DaysBefore(d: Date, n: nat): (r: Option<Date>)
    requires ValidDate(d)
    ensures r.Some? ==> ValidDate(r.value) && DateLe(r.value, d)
    decreases n
  {
    if n == 0 then Some(d)
    else
      match PrevDay(d)
      case None => None
      case Some(p) => DaysBefore(p, n - 1)
  }

  /** Going back `n` days is possible exactly when the result would be day 1
      or later, and it lands on the day numbered `n` less. */
  lemma {:induction false} DaysBeforeOrdinal(d: Date, n: nat)
    requires ValidDate(d)
    ensures DaysBefore(d, n).Some? <==> n < Ordinal(d)
    ensures DaysBefore(d, n).Some? ==> Ordinal(DaysBefore(d, n).value) == Ordinal(d) - n
    decreases n
  {
    if n > 0 {
      if d == Date(1, 1, 1) {
        assert Ordinal(d) == 1;
      } else {
        var p := PrevDay(d).value;
        assert DaysBefore(d, n) == DaysBefore(p, n - 1);
        PrevDayOrdinal(d);
        DaysBeforeOrdinal(p, n - 1);
      }
    }
  }

  /** The report's week window `today - 6 days <= x <= today` holds exactly
      for the seven days ending today. */
  lemma WeekWindow(today: Date, x: Date)
    requires ValidDate(today) && ValidDate(x) && DaysBefore(today, 6).Some?
    ensures (DateLe(DaysBefore(today, 6).value, x) && DateLe(x, today))
        <==> Ordinal(today) - 6 <= Ordinal(x) <= Ordinal(today)
  {
    DaysBeforeOrdinal(today, 6);
    DateLeOrdinal(DaysBefore(today, 6).value, x);
    DateLeOrdinal(x, today);
  }

  /** 0001-01-01 was a Monday, and each day's weekday follows the previous
      day's. */
  lemma WeekdayFirstDay()
    ensures Weekday(Date(1, 1, 1)) == 0
  {
  }

  lemma WeekdaySuccession(d: Date)
    requires ValidDate(d) && d != Date(1, 1, 1)
    ensures Weekday(d) == (Weekday(PrevDay(d).value) + 1) % 7
  {
    var p := Ordinal(PrevDay(d).value);
    PrevDayOrdinal(d);
    assert Weekday(d) == (p + 7) % 7;
    assert Weekday(PrevDay(d).value) == (p + 6) % 7;
    ModSevenStep(p + 6);
  }

  lemma ModSevenStep(x: int)
    ensures (x % 7 + 1) % 7 == (x + 1) % 7
  {
  }

  /** 14 October 2026 is a Wednesday. */
  lemma WeekdayExample()
    ensures Weekday(Date(2026, 10, 14)) == 2
  {
    DaysBeforeYearClosedForm(2026);
    assert DaysBeforeYear(2026) == 739616;
    assert DaysInMonth(2026, 2) == 28;
    DaysBeforeMonthTotal(2026);
    assert DaysBeforeMonth(2026, 10) == 273;
    assert Ordinal(Date(2026, 10, 14)) == 739903;
  }

  /** `d.replace(day=1)` */
  function MonthStart(d: Date): (r: Date)
    requires ValidDate(d)
    ensures ValidDate(r) && DateLe(r, d)
    ensures r.year == d.year && r.month == d.month
  {
    Date(d.year, d.month, 1)
  }

  /** The month window `month start <= x <= today` holds exactly for the
      days of today's month up to today. */
  lemma MonthWindow(today: Date, x: Date)
    requires ValidDate(today) && ValidDate(x)
    ensures (DateLe(MonthStart(today), x) && DateLe(x, today))
        <==> (x.year == today.year && x.month == today.month && x.day <= today.day)
  {
  }

  // ---------------------------------------------------------------------
  // Rendering
  // ---------------------------------------------------------------------

  /** `format_date(d, "dd/MM/yyyy")`, i.e. `strftime("%d/%m/%Y")`. */
  function FormatShort(d: Date): (r: string)
  {
    PadNat(d.day, 2) + "/" + PadNat(d.month, 2) + "/" + PadNat(d.year, 4)
  }

  const DayNames: seq<string> := ["Senin", "Selasa", "Rabu", "Kamis", "Jumat", "Sabtu", "Minggu"]

  const MonthNames: seq<string> :=
    ["", "Januari", "Februari", "Maret", "April", "Mei", "Juni", "Juli",
     "Agustus", "September", "Oktober", "November", "Desember"]

  /** `format_date(d, "EEEE, dd MMMM yyyy")`: Indonesian weekday and month
      names, and the day and year without padding. */
  function FormatLong(d: Date): (r: string)
    requires ValidDate(d)
  {
    DayNames[Weekday(d)] + ", " + NatToString(d.day) + " " + MonthNames[d.month] + " " + NatToString(d.year)
  }

  /** The `dd/MM/yyyy` text of a date is ten characters: a two-digit day,
      a slash, a two-digit month, a slash and a four-digit year. */
  lemma FormatShortShape(d: Date)
    requires ValidDate(d)
    ensures var r := FormatShort(d);
      && |r| == 10 && r[2] == '/' && r[5] == '/'
      && DigitsValue(r[..2]) == d.day && DigitsValue(r[3..5]) == d.month && DigitsValue(r[6..]) == d.year
  {
    assert Pow10(2) == 100 && Pow10(4) == 10000;
    NatToStringBound(d.day, 2);
    NatToStringBound(d.month, 2);
    NatToStringBound(d.year, 4);
    PadNatValue(d.day, 2);
    PadNatValue(d.month, 2);
    PadNatValue(d.year, 4);
    var r := FormatShort(d);
    assert r[..2] == PadNat(d.day, 2);
    assert r[3..5] == PadNat(d.month, 2);
    assert r[6..] == PadNat(d.year, 4);
  }

  /** The report header for 14 October 2026. */
  lemma FormatLongExample()
    ensures FormatLong(Date(2026, 10, 14)) == "Rabu, 14 Oktober 2026"
  {
    ExampleDateValid();
    WeekdayExample();
    WednesdayInOctober(Date(2026, 10, 14));
  }

  lemma WednesdayInOctober(d: Date)
    requires ValidDate(d) && Weekday(d) == 2 && d.day == 14 && d.month == 10 && d.year == 2026
    ensures FormatLong(d) == "Rabu, 14 Oktober 2026"
  {
    FourteenText();
    YearText();
    NamesExample();
    LongTextExample();
  }

  lemma LongTextExample()
    ensures "Rabu" + ", " + "14" + " " + "Oktober" + " " + "2026" == "Rabu, 14 Oktober 2026"
  {
  }

  lemma ExampleDateValid()
    ensures ValidDate(Date(2026, 10, 14))
  {
  }

  lemma NamesExample()
    ensures DayNames[2] == "Rabu" && MonthNames[10] == "Oktober"
  {
  }

  lemma FourteenText()
    ensures NatToString(14) == "14"
  {
    assert NatToString(1) == [DigitChar(1)];
  }

  lemma YearText()
    ensures NatToString(2026) == "2026"
  {
    assert NatToString(2) == "2";
    assert NatToString(20) == "20";
    assert NatToString(202) == "202";
  }

  /** `calendar.month_name`, the English names the monthly title uses. */
  const EnglishMonthNames: seq<string> :=
    ["", "January", "February", "March", "April", "May", "June", "July",
     "August", "September", "October", "November", "December"]

  /** The clock reading of one incoming message: the local date and time,
      and `int(datetime.now().timestamp())`. */
  datatype Instant = Instant(date: Date, hour: int, minute: int, second: int, epoch: int)

  predicate ValidInstant(t: Instant)
  {
    ValidDate(t.date) && 0 <= t.hour < 24 && 0 <= t.minute < 60 && 0 <= t.second < 60
  }

  /** `strftime("%d/%m/%Y %H:%M:%S")`, the TANGGAL INPUT column. */
  function FormatTimestamp(t: Instant): (r: string)
    requires ValidInstant(t)
    ensures StartsWith(r, FormatShort(t.date))
  {
    FormatShort(t.date) + " " + PadNat(t.hour, 2) + ":" + PadNat(t.minute, 2) + ":" + PadNat(t.second, 2)
  }

  // ---------------------------------------------------------------------
  // strptime(s, "%d/%m/%Y")
  // ---------------------------------------------------------------------

  /** The `%d` field, `3[01]|[12]\d|0[1-9]|[1-9]| [1-9]`, as the whole text
      before the first `/`: no alternative can be followed by anything but
      the `/`. */
  function DayField(t: string): (r: Option<int>)
    ensures r.Some? ==> 1 <= r.value <= 31
  {
    if |t| == 2 && IsDigit(t[1])
       && ((t[0] == '3' && t[1] <= '1') || t[0] == '1' || t[0] == '2' || (t[0] == '0' && t[1] != '0'))
    then Some(10 * DigitValue(t[0]) + DigitValue(t[1]))
    else if |t| == 1 && '1' <= t[0] <= '9' then Some(DigitValue(t[0]))
    else if |t| == 2 && t[0] == ' ' && '1' <= t[1] <= '9' then Some(DigitValue(t[1]))
    else None
  }

  /** The `%m` field, `1[0-2]|0[1-9]|[1-9]`, as the whole text between the
      two slashes. */
  function MonthField(t: string): (r: Option<int>)
    ensures r.Some? ==> 1 <= r.value <= 12
  {
    if |t| == 2 && ((t[0] == '1' && '0' <= t[1] <= '2') || (t[0] == '0' && '1' <= t[1] <= '9'))
    then Some(10 * DigitValue(t[0]) + DigitValue(t[1]))
    else if |t| == 1 && '1' <= t[0] <= '9' then Some(DigitValue(t[0]))
    else None
  }

  /** The `%Y` field, exactly four digits, which must end the text (anything
      after it is "unconverted data"). */
  function YearField(t: string): (r: Option<int>)
  {
    if |t| == 4 && AllDigits(t) then Some(DigitsValue(t)) else None
  }

  /** `datetime.strptime(s, "%d/%m/%Y").date()`: `None` where Python raises
      ValueError (text that does not match, or no such day, e.g. 30/02 or
      year 0). */
  function ParseShortDate(s: string): (r: Option<Date>)
    ensures r.Some? ==> ValidDate(r.value)
  {
    var parts := Split(s, '/');
    if |parts| != 3 then None
    else
      match (DayField(parts[0]), MonthField(parts[1]), YearField(parts[2]))
      case (Some(day), Some(month), Some(year)) =>
        if ValidDate(Date(year, month, day)) then Some(Date(year, month, day)) else None
      case _ => None
  }

  /** `PadNat(n, 2)` for a two-digit number: its tens digit, then its units. */
  lemma PadTwoDigits(n: nat)
    requires n < 100
    ensures PadNat(n, 2) == [DigitChar(n / 10), DigitChar(n % 10)]
  {
    if n < 10 {
      assert NatToString(n) == [DigitChar(n)];
      assert Zeros(1) == "0" == [DigitChar(0)];
    } else {
      assert NatToString(n / 10) == [DigitChar(n / 10)];
      assert NatToString(n) == [DigitChar(n / 10), DigitChar(n % 10)];
    }
  }

  lemma DayFieldOfPadded(n: nat)
    requires 1 <= n <= 31
    ensures DayField(PadNat(n, 2)) == Some(n)
  {
    PadTwoDigits(n);
  }

  lemma MonthFieldOfPadded(n: nat)
    requires 1 <= n <= 12
    ensures MonthField(PadNat(n, 2)) == Some(n)
  {
    PadTwoDigits(n);
  }

  lemma YearFieldOfPadded(n: nat)
    requires n <= 9999
    ensures YearField(PadNat(n, 4)) == Some(n)
  {
    assert Pow10(4) == 10000;
    NatToStringBound(n, 4);
    PadNatValue(n, 4);
  }

  /** strptime reads back what strftime wrote: parsing the `dd/MM/yyyy`
      rendering of a date gives that date. Field values that only fail the
      calendar check, such as 30/02 or year 0, are refused. */
  lemma ParseFormatShort(d: Date)
    requires 1 <= d.day <= 31 && 1 <= d.month <= 12 && d.year <= 9999
    ensures ParseShortDate(FormatShort(d)) == if ValidDate(d) then Some(d) else None
  {
    SplitFormatShort(d);
    DayFieldOfPadded(d.day);
    MonthFieldOfPadded(d.month);
    YearFieldOfPadded(d.year);
  }

  lemma SplitFormatShort(d: Date)
    ensures Split(FormatShort(d), '/') == [PadNat(d.day, 2), PadNat(d.month, 2), PadNat(d.year, 4)]
  {
    var a, b, c := PadNat(d.day, 2), PadNat(d.month, 2), PadNat(d.year, 4);
    assert '/' !in a && '/' !in b && '/' !in c;
    assert FormatShort(d) == a + ['/'] + (b + ['/'] + c);
    SplitCons(a, '/', b + ['/'] + c);
    SplitCons(b, '/', c);
    SplitNoSeparator(c, '/');
  }

  /** The `%d` field also takes an unpadded or space-padded day, and `%m`
      an unpadded month. */
  lemma FieldsUnpadded(n: nat)
    requires 1 <= n <= 9
    ensures DayField([DigitChar(n)]) == Some(n)
    ensures DayField([' ', DigitChar(n)]) == Some(n)
    ensures MonthField([DigitChar(n)]) == Some(n)
  {
  }
}
