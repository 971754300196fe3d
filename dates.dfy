/** Calendar days of the proleptic Gregorian calendar, the `YYYY-MM-DD` full-date of
    section 5.6 of RFC 3339, and the parts of the JavaScript `Date` object the
    components use: `new Date(year, monthIndex, day)` with its overflow rules,
    `setDate`, `setMonth`, `setFullYear` and `toISOString().split('T')[0]`.
    Local time is read at a zero offset from UTC. */
module CivilDate {
  import opened Wrappers
  import opened Strings

  datatype Date = Date(year: int, month: int, day: int)

  /** The leap-year rule of Appendix C of RFC 3339. */
  predicate IsLeapYear(y: int)
  {
    y % 4 == 0 && (y % 100 != 0 || y % 400 == 0)
  }

  function DaysInMonth(y: int, m: int): (n: int)
    requires 1 <= m <= 12
    ensures 28 <= n <= 31
  {
    if m == 2 then (if IsLeapYear(y) then 29 else 28)
    else if m == 4 || m == 6 || m == 9 || m == 11 then 30
    else 31
  }

  predicate Valid(d: Date)
  {
    1 <= d.month <= 12 && 1 <= d.day <= DaysInMonth(d.year, d.month)
  }

  /** Chronological order of calendar days. */
  predicate Before(a: Date, b: Date)
  {
    a.year < b.year
    || (a.year == b.year && (a.month < b.month || (a.month == b.month && a.day < b.day)))
  }

  /** The day after `d`: the next valid day, with nothing in between. */
  function NextDay(d: Date): (r: Date)
    requires Valid(d)
    ensures Valid(r) && Before(d, r)
  {
    if d.day < DaysInMonth(d.year, d.month) then Date(d.year, d.month, d.day + 1)
    else if d.month < 12 then Date(d.year, d.month + 1, 1)
    else Date(d.year + 1, 1, 1)
  }

  /** The day before `d`: the previous valid day, with nothing in between. */
  function PrevDay(d: Date): (r: Date)
    requires Valid(d)
    ensures Valid(r) && Before(r, d)
  {
    if d.day > 1 then Date(d.year, d.month, d.day - 1)
    else if d.month > 1 then Date(d.year, d.month - 1, DaysInMonth(d.year, d.month - 1))
    else Date(d.year - 1, 12, 31)
  }

  /** No valid day lies strictly between a day and the day after it. */
  lemma NextDayAdjacent(d: Date, x: Date)
    requires Valid(d) && Valid(x)
    ensures Before(d, x) ==> !Before(x, NextDay(d))
    ensures Before(x, d) ==> !Before(PrevDay(d), x)
  {
  }

  lemma NextPrevInverse(d: Date)
    requires Valid(d)
    ensures PrevDay(NextDay(d)) == d && NextDay(PrevDay(d)) == d
  {
  }

  /** `d` moved by `n` days, forwards or backwards: `setDate(getDate() + n)`. */
  function AddDays(d: Date, n: int): (r: Date)
    requires Valid(d)
    ensures Valid(r)
    decreases if n < 0 then -n else n
  {
    if n == 0 then d
    else if n > 0 then AddDays(NextDay(d), n - 1)
    else AddDays(PrevDay(d), n + 1)
  }

  /** One more day of offset is one more step forwards. */
  lemma {:induction false} AddDaysNext(d: Date, n: int)
    requires Valid(d)
    ensures AddDays(d, n + 1) == NextDay(AddDays(d, n))
    decreases if n < 0 then -n else n
  {
    if n > 0 {
      AddDaysNext(NextDay(d), n - 1);
    } else if n < -1 {
      AddDaysNext(PrevDay(d), n + 1);
    } else if n == -1 {
      NextPrevInverse(d);
    }
  }

  /** Moving by `a` days and then by `b` days is moving by `a + b` days. */
  lemma {:induction false} AddDaysAdd(d: Date, a: int, b: int)
    requires Valid(d)
    ensures AddDays(AddDays(d, a), b) == AddDays(d, a + b)
    decreases if b < 0 then -b else b
  {
    var x := AddDays(d, a);
    if b > 0 {
      AddDaysAdd(d, a, b - 1);
      AddDaysNext(x, b - 1);
      AddDaysNext(d, a + b - 1);
      assert AddDays(x, b) == NextDay(AddDays(d, a + b - 1));
    } else if b < 0 {
      AddDaysAdd(d, a, b + 1);
      AddDaysNext(x, b);
      AddDaysNext(d, a + b);
      NextPrevInverse(AddDays(x, b));
      NextPrevInverse(AddDays(d, a + b));
      assert AddDays(x, b) == PrevDay(AddDays(x, b + 1));
      assert AddDays(d, a + b) == PrevDay(AddDays(d, a + b + 1));
    }
  }

  /** Moving forwards a positive number of days lands strictly later, backwards strictly
      earlier. */
  lemma {:induction false} AddDaysOrder(d: Date, n: int)
    requires Valid(d)
    ensures n > 0 ==> Before(d, AddDays(d, n))
    ensures n < 0 ==> Before(AddDays(d, n), d)
    decreases if n < 0 then -n else n
  {
    if n > 1 {
      AddDaysOrder(NextDay(d), n - 1);
    } else if n < -1 {
      AddDaysOrder(PrevDay(d), n + 1);
    }
  }

  /** Inside one month, moving forwards adds to the day of the month. */
  lemma {:induction false} AddDaysInMonth(d: Date, n: nat)
    requires Valid(d) && d.day + n <= DaysInMonth(d.year, d.month)
    ensures AddDays(d, n) == Date(d.year, d.month, d.day + n)
    decreases n
  {
    if n > 0 {
      AddDaysInMonth(NextDay(d), n - 1);
    }
  }

  /** The date `new Date(year, monthIndex, day)` stands for, with `year` taken as a full
      year: the month index rolls over into the year, then `day - 1` days are added to
      the first of that month (so day 0 is the last day of the month before). */
  function MakeDay(year: int, monthIndex: int, day: int): (r: Date)
    ensures Valid(r)
  {
    AddDays(Date(year + monthIndex / 12, monthIndex % 12 + 1, 1), day - 1)
  }

  /** `new Date(year, monthIndex, day)`: a year from 0 to 99 is read as 1900 to 1999. */
  function JsNewDate(year: int, monthIndex: int, day: int): (r: Date)
    ensures Valid(r)
    ensures !(0 <= year <= 99) ==> r == MakeDay(year, monthIndex, day)
  {
    MakeDay(if 0 <= year <= 99 then 1900 + year else year, monthIndex, day)
  }

  /** The month index a date is in, counted from month 0 of year 0. */
  function MonthNumber(d: Date): int
  {
    d.year * 12 + d.month - 1
  }

  /** A month index within the year needs no roll-over into the year. */
  lemma MakeDayInYear(year: int, month: int, day: int)
    requires 1 <= month <= 12
    ensures MakeDay(year, month - 1, day) == AddDays(Date(year, month, 1), day - 1)
  {
    assert (month - 1) / 12 == 0 && (month - 1) % 12 + 1 == month;
  }

  /** Shifting the day field of a valid date by `n` moves the date by `n` days. */
  lemma MakeDayShift(d: Date, n: int)
    requires Valid(d)
    ensures MakeDay(d.year, d.month - 1, d.day + n) == AddDays(d, n)
  {
    var first := Date(d.year, d.month, 1);
    var k: nat := d.day - 1;
    MakeDayInYear(d.year, d.month, d.day + n);
    assert AddDays(first, k) == d by {
      AddDaysInMonth(first, k);
    }
    AddDaysAdd(first, k, n);
  }

  /** The fields of a valid date rebuild that date. */
  lemma MakeDayOfDate(d: Date)
    requires Valid(d)
    ensures MakeDay(d.year, d.month - 1, d.day) == d
  {
    AddDaysInMonth(Date(d.year, d.month, 1), d.day - 1);
  }

  /** Day 1 of a month index is the first of the month it rolls over to. */
  lemma MakeDayFirst(year: int, monthIndex: int)
    ensures MakeDay(year, monthIndex, 1).day == 1
    ensures MonthNumber(MakeDay(year, monthIndex, 1)) == year * 12 + monthIndex
  {
  }

  /** Day 0 of the month after is the last day of a month: the day count of the month. */
  lemma MakeDayZero(year: int, monthIndex: int)
    ensures var first := MakeDay(year, monthIndex, 1);
      MakeDay(year, monthIndex + 1, 0) == Date(first.year, first.month, DaysInMonth(first.year, first.month))
  {
    var first := MakeDay(year, monthIndex, 1);
    var next := Date(year + (monthIndex + 1) / 12, (monthIndex + 1) % 12 + 1, 1);
    if monthIndex % 12 == 11 {
      assert (monthIndex + 1) / 12 == monthIndex / 12 + 1 && (monthIndex + 1) % 12 == 0;
    } else {
      assert (monthIndex + 1) / 12 == monthIndex / 12 && (monthIndex + 1) % 12 == monthIndex % 12 + 1;
    }
    assert AddDays(next, -1) == AddDays(PrevDay(next), 0);
    assert first == Date(year + monthIndex / 12, monthIndex % 12 + 1, 1);
  }

  function Abs(n: int): nat
  {
    if n < 0 then -n else n
  }

  /** The date part of `toISOString()`: four digits of year from 0000 to 9999, otherwise
      a sign and six digits. */
  function Format(d: Date): (s: string)
    requires Valid(d)
  {
    (if 0 <= d.year <= 9999 then Pad(d.year, 4)
     else (if d.year < 0 then "-" else "+") + Pad(Abs(d.year), 6))
    + "-" + Pad(d.month, 2) + "-" + Pad(d.day, 2)
  }

  /** The shape `YYYY-MM-DD`: ten characters, digits apart from the two hyphens. */
  predicate IsFullDateShape(s: string)
  {
    |s| == 10 && s[4] == '-' && s[7] == '-'
    && AllDigits(s[..4]) && AllDigits(s[5..7]) && AllDigits(s[8..])
  }

  /** The year, month and day fields of a string of the full-date shape. */
  function Fields(s: string): Date
    requires IsFullDateShape(s)
  {
    Date(DigitsValue(s[..4]), DigitsValue(s[5..7]), DigitsValue(s[8..]))
  }

  /** The date of `new Date(s + 'T00:00:00')`: a full-date with an existing day, or
      nothing (an invalid `Date`). */
  function Parse(s: string): (r: Option<Date>)
    ensures r.Some? ==> Valid(r.value) && 0 <= r.value.year <= 9999
  {
    if IsFullDateShape(s) && Valid(Fields(s)) then Some(Fields(s)) else None
  }

  /** `parseLocalDate`: the text split at every hyphen, the first three pieces read
      with `Number` and handed to `new Date(year, month - 1, day)`, so that out-of-range
      fields roll over; a missing or non-numeric piece gives an invalid `Date`. */
  function ParseLocalDate(s: string): (r: Option<Date>)
    ensures r.Some? ==> Valid(r.value)
    ensures var p := Split(s, '-');
            r.Some? <==> |p| >= 3 && NumberValue(p[0]).Some? && NumberValue(p[1]).Some? && NumberValue(p[2]).Some?
  {
    var p := Split(s, '-');
    if |p| < 3 then None
    else
      match (NumberValue(p[0]), NumberValue(p[1]), NumberValue(p[2]))
      case (Some(year), Some(month), Some(day)) => Some(JsNewDate(year, month - 1, day))
      case _ => None
  }

  /** A full-date splits into its three fields. */
  lemma SplitFullDate(s: string)
    requires IsFullDateShape(s)
    ensures Split(s, '-') == [s[..4], s[5..7], s[8..]]
  {
    var a, b, c := s[..4], s[5..7], s[8..];
    assert '-' !in a && '-' !in b && '-' !in c;
    assert s == a + [s[4]] + (b + [s[7]] + c);
    assert Join([b, c], '-') == b + ['-'] + c by { assert [b, c][1..] == [c]; }
    assert Join([a, b, c], '-') == a + ['-'] + Join([b, c], '-') by { assert [a, b, c][1..] == [b, c]; }
    SplitJoin([a, b, c], '-');
  }

  lemma SplitShortDate()
    ensures Split("2024-8-1", '-') == ["2024", "8", "1"]
  {
    var parts := ["2024", "8", "1"];
    assert Join(["8", "1"], '-') == "8-1" by { assert ["8", "1"][1..] == ["1"]; }
    assert Join(parts, '-') == "2024-8-1" by { assert parts[1..] == ["8", "1"]; }
    SplitJoin(parts, '-');
  }

  lemma ShortDateFields()
    ensures NumberValue("2024") == Some(2024)
    ensures NumberValue("8") == Some(8)
    ensures NumberValue("1") == Some(1)
  {
    assert AllDigits("2024") && AllDigits("8") && AllDigits("1");
    assert DigitsValue("2024") == 2024 by {
      assert "2024"[..3] == "202" && "202"[..2] == "20" && "20"[..1] == "2" && "2"[..0] == "";
    }
    assert DigitsValue("8") == 8 by { assert "8"[..0] == ""; }
    assert DigitsValue("1") == 1 by { assert "1"[..0] == ""; }
  }

  /** Shorter fields read as well: "2024-8-1" is 1 August 2024. */
  lemma ParseLocalDateShortFields()
    ensures ParseLocalDate("2024-8-1") == Some(Date(2024, 8, 1))
  {
    SplitShortDate();
    ShortDateFields();
    assert ParseLocalDate("2024-8-1") == Some(JsNewDate(2024, 7, 1));
    MakeDayInYear(2024, 8, 1);
  }

  /** A date with no day field gives no date. */
  lemma ParseLocalDateMissingDay()
    ensures ParseLocalDate("2024-08") == None
  {
    var parts := ["2024", "08"];
    assert Join(parts, '-') == "2024-08" by { assert parts[1..] == ["08"]; }
    SplitJoin(parts, '-');
  }

  lemma FormatShape(d: Date)
    requires Valid(d) && 0 <= d.year <= 9999
    ensures var s := Format(d);
      IsFullDateShape(s) && s[..4] == Pad(d.year, 4) && s[5..7] == Pad(d.month, 2) && s[8..] == Pad(d.day, 2)
  {
    var s := Format(d);
    assert s == Pad(d.year, 4) + "-" + Pad(d.month, 2) + "-" + Pad(d.day, 2);
    assert s[..4] == Pad(d.year, 4);
    assert s[5..7] == Pad(d.month, 2);
    assert s[8..] == Pad(d.day, 2);
  }

  /** Reading a formatted date gives the date back. */
  lemma ParseFormat(d: Date)
    requires Valid(d) && 0 <= d.year <= 9999
    ensures Parse(Format(d)) == Some(d)
  {
    FormatShape(d);
    DigitsValuePad(d.year, 4);
    DigitsValuePad(d.month, 2);
    DigitsValuePad(d.day, 2);
  }

  /** A string that reads as a date is that date's formatted form. */
  lemma FormatParse(s: string)
    requires Parse(s).Some?
    ensures Format(Parse(s).value) == s
  {
    var d := Parse(s).value;
    PadDigitsValue(s[..4]);
    PadDigitsValue(s[5..7]);
    PadDigitsValue(s[8..]);
    assert s == s[..4] + "-" + s[5..7] + "-" + s[8..];
  }

  /** Formatting is one-to-one on the four-digit years. */
  lemma FormatInjective(a: Date, b: Date)
    requires Valid(a) && 0 <= a.year <= 9999 && Valid(b) && 0 <= b.year <= 9999
    ensures Format(a) == Format(b) <==> a == b
  {
    ParseFormat(a);
    ParseFormat(b);
  }

  /** A hyphen in front changes no comparison. */
  lemma DashOrder(s: string, t: string)
    ensures StrLess("-" + s, "-" + t) <==> StrLess(s, t)
  {
    StrLessConcat("-", s, "-", t);
    StrLessIrreflexive("-");
  }

  /** Strings that start with padded numbers of one width compare by those numbers
      first, and by the rest only when the numbers are equal. */
  lemma PaddedFieldOrder(x: nat, y: nat, w: nat, s: string, t: string)
    requires x < Pow10(w) && y < Pow10(w)
    ensures StrLess(Pad(x, w) + s, Pad(y, w) + t) <==> x < y || (x == y && StrLess(s, t))
  {
    StrLessConcat(Pad(x, w), s, Pad(y, w), t);
    PadLess(x, y, w);
    PadInjective(x, y, w);
  }

  /** The `-MM-DD` part of a formatted date. */
  function MonthDayPart(d: Date): string
    requires Valid(d)
  {
    "-" + (Pad(d.month, 2) + ("-" + Pad(d.day, 2)))
  }

  /** The `-MM-DD` parts compare as month and day do. */
  lemma MonthDayPartOrder(a: Date, b: Date)
    requires Valid(a) && Valid(b)
    ensures StrLess(MonthDayPart(a), MonthDayPart(b)) <==> a.month < b.month || (a.month == b.month && a.day < b.day)
  {
    assert Pow10(2) == 100;
    DashOrder(Pad(a.month, 2) + ("-" + Pad(a.day, 2)), Pad(b.month, 2) + ("-" + Pad(b.day, 2)));
    PaddedFieldOrder(a.month, b.month, 2, "-" + Pad(a.day, 2), "-" + Pad(b.day, 2));
    DashOrder(Pad(a.day, 2), Pad(b.day, 2));
    PadLess(a.day, b.day, 2);
  }

  /** A four-digit-year date is its padded year followed by its `-MM-DD` part. */
  lemma FormatParts(d: Date)
    requires Valid(d) && 0 <= d.year <= 9999
    ensures Format(d) == Pad(d.year, 4) + MonthDayPart(d)
  {
    var y, m, dd := Pad(d.year, 4), Pad(d.month, 2), Pad(d.day, 2);
    assert y + "-" + m + "-" + dd == y + ("-" + (m + ("-" + dd)));
  }

  /** For four-digit years the string order of full-dates is their chronological order
      (section 5.1 of RFC 3339). */
  lemma FormatOrder(a: Date, b: Date)
    requires Valid(a) && 0 <= a.year <= 9999 && Valid(b) && 0 <= b.year <= 9999
    ensures StrLess(Format(a), Format(b)) <==> Before(a, b)
  {
    FormatParts(a);
    FormatParts(b);
    assert Pow10(4) == 10000;
    PaddedFieldOrder(a.year, b.year, 4, MonthDayPart(a), MonthDayPart(b));
    MonthDayPartOrder(a, b);
  }

  /** A date with a time of day, in seconds after midnight, compared as `Date` objects
      are. */
  datatype Moment = Moment(date: Date, second: int)

  function Midnight(d: Date): Moment
  {
    Moment(d, 0)
  }

  /** The `23:59:59` the components give to the last day of a period. */
  function EndOfDay(d: Date): Moment
  {
    Moment(d, 23 * 3600 + 59 * 60 + 59)
  }

  predicate MomentLe(a: Moment, b: Moment)
  {
    Before(a.date, b.date) || (a.date == b.date && a.second <= b.second)
  }

  /** Month numbers order months: an earlier month number is an earlier date, and an
      earlier date is never in a later month. */
  lemma MonthNumberOrder(a: Date, b: Date)
    requires Valid(a) && Valid(b)
    ensures MonthNumber(a) < MonthNumber(b) ==> Before(a, b)
    ensures Before(a, b) ==> MonthNumber(a) <= MonthNumber(b)
    ensures MonthNumber(a) == MonthNumber(b) <==> a.year == b.year && a.month == b.month
  {
    if a.year < b.year {
      assert (b.year - a.year) * 12 >= 12;
    } else if a.year > b.year {
      assert (a.year - b.year) * 12 >= 12;
    }
  }

  /** A date lies from the first day of month `lo` to the last day of month `hi` exactly
      when its month lies from `lo` to `hi`. */
  lemma MonthRange(x: Date, lo: Date, hi: Date)
    requires Valid(x) && Valid(lo) && Valid(hi)
    requires lo.day == 1 && hi.day == DaysInMonth(hi.year, hi.month)
    ensures !Before(x, lo) <==> MonthNumber(lo) <= MonthNumber(x)
    ensures !Before(hi, x) <==> MonthNumber(x) <= MonthNumber(hi)
  {
    MonthNumberOrder(x, lo);
    MonthNumberOrder(lo, x);
    MonthNumberOrder(x, hi);
    MonthNumberOrder(hi, x);
  }

  /** For a well-formed date string with a year from 100 on, the rolling-over local parse
      and the strict parse give the same date. */
  lemma ParseLocalDateAgrees(s: string)
    requires Parse(s).Some? && Parse(s).value.year >= 100
    ensures ParseLocalDate(s) == Parse(s)
  {
    SplitFullDate(s);
    MakeDayOfDate(Parse(s).value);
  }

  /** Midnight of `x` is no later than the end of day `y` exactly when `x` is not after
      `y`; midnight of `x` is at least midnight of `y` exactly when `x` is not before
      `y`. */
  lemma MomentDays(x: Date, y: Date)
    ensures MomentLe(Midnight(x), EndOfDay(y)) <==> !Before(y, x)
    ensures MomentLe(Midnight(y), Midnight(x)) <==> !Before(x, y)
    ensures MomentLe(EndOfDay(y), Midnight(x)) <==> Before(y, x)
  {
  }

  /** A number that orders valid dates as `getTime()` orders their midnights. */
  function DayKey(d: Date): int
  {
    (d.year * 13 + d.month) * 32 + d.day
  }

  lemma DayKeyOrder(a: Date, b: Date)
    requires Valid(a) && Valid(b)
    ensures Before(a, b) <==> DayKey(a) < DayKey(b)
    ensures a == b <==> DayKey(a) == DayKey(b)
  {
    if a.year < b.year {
      assert DayKey(a) < (a.year * 13 + 13) * 32;
      assert (a.year * 13 + 13) * 32 <= (b.year * 13) * 32;
    } else if a.year > b.year {
      assert DayKey(b) < (b.year * 13 + 13) * 32;
      assert (b.year * 13 + 13) * 32 <= (a.year * 13) * 32;
    }
  }
}
