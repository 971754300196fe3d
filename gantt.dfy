/** The Gantt chart (`components/GanttChart.tsx`): one month at a time, the jobs whose
    start-to-delivery span overlaps it, each drawn as a bar clipped to the month, and a
    marker on today's column. */
module Gantt {
  import opened Wrappers
  import opened CivilDate
  import opened Types

  /** `getDaysInMonth(year, month)`: day 0 of the month after, with `month` counted
      from 0. */
  function GetDaysInMonth(year: int, month: int): (n: int)
    ensures 28 <= n <= 31
  {
    MakeDayZero(if 0 <= year <= 99 then 1900 + year else year, month);
    JsNewDate(year, month + 1, 0).day
  }

  /** From year 100 on the day count is the Gregorian one of RFC 3339, Appendix C. */
  lemma GetDaysInMonthGregorian(year: int, month: int)
    requires year >= 100 && 0 <= month <= 11
    ensures GetDaysInMonth(year, month) == DaysInMonth(year, month + 1)
  {
    MakeDayZero(year, month);
    MakeDayFirst(year, month);
  }

  /** The first day of the shown month, at midnight. */
  function MonthStart(year: int, month: int): Moment
  {
    Midnight(JsNewDate(year, month, 1))
  }

  /** The last second of the shown month. */
  function MonthEnd(year: int, month: int): Moment
  {
    EndOfDay(JsNewDate(year, month, GetDaysInMonth(year, month)))
  }

  /** `visibleJobs`: both dates are set, both read as dates, the job starts by the end of
      the month and is delivered by its start or later. */
  predicate Visible(job: Job, year: int, month: int)
  {
    && job.startDate != "" && job.deliveryDate != ""
    && ParseLocalDate(job.startDate).Some? && ParseLocalDate(job.deliveryDate).Some?
    && MomentLe(Midnight(ParseLocalDate(job.startDate).value), MonthEnd(year, month))
    && MomentLe(MonthStart(year, month), Midnight(ParseLocalDate(job.deliveryDate).value))
  }

  function VisibleJobs(jobs: seq<Job>, year: int, month: int): (r: seq<Job>)
    ensures forall j :: j in r <==> j in jobs && Visible(j, year, month)
  {
    Seqs.Filter(jobs, (j: Job) => Visible(j, year, month))
  }

  /** `startDayInMonth`: day 1 when the job starts on or before the month start, else the
      start day. */
  function BarStart(job: Job, year: int, month: int): int
    requires Visible(job, year, month)
  {
    var s := ParseLocalDate(job.startDate).value;
    if MomentLe(Midnight(s), MonthStart(year, month)) then 1 else s.day
  }

  /** `endDayInMonth`: the last day when delivery is at or after the month end, else the
      delivery day. */
  function BarEnd(job: Job, year: int, month: int): int
    requires Visible(job, year, month)
  {
    var e := ParseLocalDate(job.deliveryDate).value;
    if MomentLe(MonthEnd(year, month), Midnight(e)) then GetDaysInMonth(year, month) else e.day
  }

  /** `duration`; the bar is drawn only when it is positive. */
  function BarDuration(job: Job, year: int, month: int): int
    requires Visible(job, year, month)
  {
    BarEnd(job, year, month) - BarStart(job, year, month) + 1
  }

  /** `gridColumnStart`: the column after the name column. */
  function BarColumn(job: Job, year: int, month: int): int
    requires Visible(job, year, month)
  {
    BarStart(job, year, month) + 1
  }

  /** The visible-job test is interval overlap: for a job whose dates both read, it holds
      exactly when the job starts no later than the month's last day and is delivered no
      earlier than its first. */
  lemma VisibleIsOverlap(job: Job, year: int, month: int)
    requires year >= 100 && 0 <= month <= 11
    requires job.startDate != "" && job.deliveryDate != ""
    requires ParseLocalDate(job.startDate).Some? && ParseLocalDate(job.deliveryDate).Some?
    ensures var s, e := ParseLocalDate(job.startDate).value, ParseLocalDate(job.deliveryDate).value;
            Visible(job, year, month) <==>
              !Before(Date(year, month + 1, DaysInMonth(year, month + 1)), s) && !Before(e, Date(year, month + 1, 1))
  {
    var s, e := ParseLocalDate(job.startDate).value, ParseLocalDate(job.deliveryDate).value;
    ShownMonth(year, month);
    MomentDays(s, JsNewDate(year, month, GetDaysInMonth(year, month)));
    MomentDays(e, JsNewDate(year, month, 1));
  }

  /** From year 100 on the shown month's first and last days are day 1 and day
      `DaysInMonth` of calendar month `month + 1`. */
  lemma ShownMonth(year: int, month: int)
    requires year >= 100 && 0 <= month <= 11
    ensures JsNewDate(year, month, 1) == Date(year, month + 1, 1)
    ensures JsNewDate(year, month, GetDaysInMonth(year, month)) == Date(year, month + 1, DaysInMonth(year, month + 1))
  {
    GetDaysInMonthGregorian(year, month);
    MakeDayOfDate(Date(year, month + 1, 1));
    MakeDayOfDate(Date(year, month + 1, DaysInMonth(year, month + 1)));
  }

  /** The bar of a visible job covers exactly the days of the month that lie from its
      start date to its delivery date. */
  lemma BarCoversJobDays(job: Job, year: int, month: int, k: int)
    requires year >= 100 && 0 <= month <= 11 && Visible(job, year, month)
    requires 1 <= k <= DaysInMonth(year, month + 1)
    ensures var s, e := ParseLocalDate(job.startDate).value, ParseLocalDate(job.deliveryDate).value;
            var d := Date(year, month + 1, k);
            BarStart(job, year, month) <= k <= BarEnd(job, year, month) <==> !Before(d, s) && !Before(e, d)
  {
    var s, e := ParseLocalDate(job.startDate).value, ParseLocalDate(job.deliveryDate).value;
    var first, last := Date(year, month + 1, 1), Date(year, month + 1, DaysInMonth(year, month + 1));
    var d := Date(year, month + 1, k);
    ShownMonth(year, month);
    MomentDays(s, first);
    MomentDays(s, last);
    MomentDays(e, first);
    MomentDays(e, last);
    MonthRange(s, first, last);
    MonthRange(e, first, last);
    MonthNumberOrder(s, d);
    MonthNumberOrder(e, d);
    GetDaysInMonthGregorian(year, month);
  }

  /** A visible job's bar is drawn exactly when it is delivered no earlier than it
      starts. */
  lemma BarDrawnIffOrdered(job: Job, year: int, month: int)
    requires year >= 100 && 0 <= month <= 11 && Visible(job, year, month)
    ensures var s, e := ParseLocalDate(job.startDate).value, ParseLocalDate(job.deliveryDate).value;
            BarDuration(job, year, month) > 0 <==> !Before(e, s)
    ensures 1 <= BarStart(job, year, month) && BarEnd(job, year, month) <= DaysInMonth(year, month + 1)
  {
    var s, e := ParseLocalDate(job.startDate).value, ParseLocalDate(job.deliveryDate).value;
    var first, last := Date(year, month + 1, 1), Date(year, month + 1, DaysInMonth(year, month + 1));
    ShownMonth(year, month);
    GetDaysInMonthGregorian(year, month);
    MomentDays(s, first);
    MomentDays(s, last);
    MomentDays(e, first);
    MomentDays(e, last);
    MonthRange(s, first, last);
    MonthRange(e, first, last);
    MonthNumberOrder(s, e);
    MonthNumberOrder(e, s);
  }

  /** `showTodayMarker`. */
  predicate ShowTodayMarker(today: Date, year: int, month: int)
  {
    today.year == year && today.month == month + 1
  }

  /** `todayPosition`: today's day in the shown month, or -1. */
  function TodayPosition(today: Date, year: int, month: int): (r: int)
    requires Valid(today)
    ensures ShowTodayMarker(today, year, month) ==> r == today.day && 1 <= r <= DaysInMonth(year, month + 1)
    ensures !ShowTodayMarker(today, year, month) ==> r == -1
  {
    if ShowTodayMarker(today, year, month) then today.day else -1
  }

  /** The month shown and its navigation. */
  class GanttView {
    var currentDate: Date

    predicate Valid()
      reads this
    {
      CivilDate.Valid(currentDate)
    }

    constructor (today: Date)
      requires CivilDate.Valid(today)
      ensures Valid() && currentDate == today
    {
      currentDate := today;
    }

    /** The shown year and 0-based month. */
    function Year(): int
      reads this
    {
      currentDate.year
    }

    function Month(): int
      reads this
    {
      currentDate.month - 1
    }

    /** `handleSetMonth`: day 1 of the month `offset` months away. */
    method SetMonth(offset: int)
      modifies this
      requires Valid()
      ensures Valid()
      ensures currentDate == JsNewDate(old(currentDate).year, old(currentDate).month - 1 + offset, 1)
    {
      currentDate := JsNewDate(currentDate.year, currentDate.month - 1 + offset, 1);
    }

    /** `handleThisMonth`. */
    method ThisMonth(today: Date)
      modifies this
      requires CivilDate.Valid(today)
      ensures Valid() && currentDate == today
    {
      currentDate := today;
    }
  }

  /** From year 100 on, month navigation lands on day 1 of the month `offset` months
      away, rolling over the year. */
  lemma SetMonthMoves(d: Date, offset: int)
    requires Valid(d) && d.year >= 100
    ensures var r := JsNewDate(d.year, d.month - 1 + offset, 1);
            r.day == 1 && MonthNumber(r) == MonthNumber(d) + offset
  {
    MakeDayFirst(d.year, d.month - 1 + offset);
  }

  /** Going a month forward and then back returns to day 1 of the month shown. */
  lemma SetMonthBackAndForth(d: Date)
    requires Valid(d) && d.year >= 101
    ensures var next := JsNewDate(d.year, d.month, 1);
            JsNewDate(next.year, next.month - 2, 1) == Date(d.year, d.month, 1)
  {
    var next := JsNewDate(d.year, d.month, 1);
    MakeDayFirst(d.year, d.month);
    assert next.year >= 101;
    MakeDayFirst(next.year, next.month - 2);
    var back := JsNewDate(next.year, next.month - 2, 1);
    MonthNumberOrder(back, Date(d.year, d.month, 1));
  }
}
