/** The report page (`components/ReportPage.tsx`): the period shown (a fiscal year, a
    month or a day), the shipped jobs delivered in it, their totals and per-client and
    per-plating-type sales, the twelve-month chart of the year view, and the navigation
    between periods. */
module Report {
  import opened Wrappers
  import opened Seqs
  import opened Strings
  import opened CivilDate
  import opened Types

  datatype ReportViewMode = YearView | MonthView | DayView

  /** `getFiscalYear`: a fiscal year ending with month `endMonth` (1 to 12) is named by
      the calendar year it starts in. */
  function FiscalYear(d: Date, endMonth: int): int
  {
    if d.month > endMonth then d.year else d.year - 1
  }

  /** A number as `String(n)` writes it. */
  function IntString(n: int): (r: string)
    ensures |r| > 0
  {
    if n < 0 then "-" + Decimal(-n) else Decimal(n)
  }

  /** The first and last instants of a period, and its heading. */
  datatype Period = Period(start: Moment, end: Moment, heading: string)

  /** The period bounds by view mode: the fiscal year from the first of the month after
      the settlement month to the end of the settlement month a year later; the calendar
      month; or the day. The day heading is the ISO date of the current date. */
  function PeriodOf(mode: ReportViewMode, current: Date, settlementMonth: int): Period
    requires Valid(current)
  {
    match mode
    case YearView =>
      var fy := FiscalYear(current, settlementMonth);
      Period(Midnight(JsNewDate(fy, settlementMonth, 1)), EndOfDay(JsNewDate(fy + 1, settlementMonth, 0)),
             IntString(fy) + "年度")
    case MonthView =>
      Period(Midnight(JsNewDate(current.year, current.month - 1, 1)),
             EndOfDay(JsNewDate(current.year, current.month, 0)),
             IntString(current.year) + "年 " + Decimal(current.month) + "月")
    case DayView =>
      var d := JsNewDate(current.year, current.month - 1, current.day);
      Period(Midnight(d), EndOfDay(d), Format(current))
  }

  /** `deliveryDate >= periodStart && deliveryDate <= periodEnd` for a delivery date
      taken at local midnight. */
  predicate InPeriod(p: Period, d: Date)
  {
    MomentLe(p.start, Midnight(d)) && MomentLe(Midnight(d), p.end)
  }

  /** The year view runs from month `fy * 12 + settlementMonth` to eleven months later,
      first day to last. */
  lemma YearPeriodBounds(fy: int, settlementMonth: int)
    requires 1 <= settlementMonth <= 12 && fy >= 100
    ensures var start := JsNewDate(fy, settlementMonth, 1);
            start.day == 1 && MonthNumber(start) == fy * 12 + settlementMonth
    ensures var end := JsNewDate(fy + 1, settlementMonth, 0);
            end.day == DaysInMonth(end.year, end.month) && MonthNumber(end) == fy * 12 + settlementMonth + 11
  {
    MakeDayFirst(fy, settlementMonth);
    MakeDayZero(fy + 1, settlementMonth - 1);
    MakeDayFirst(fy + 1, settlementMonth - 1);
  }

  /** A date is in the year view's period exactly when it is in the same fiscal year as
      the current date. */
  lemma YearPeriodIsFiscalYear(current: Date, x: Date, settlementMonth: int)
    requires Valid(current) && Valid(x) && 1 <= settlementMonth <= 12 && current.year >= 101
    ensures InPeriod(PeriodOf(YearView, current, settlementMonth), x)
            <==> FiscalYear(x, settlementMonth) == FiscalYear(current, settlementMonth)
  {
    var fy := FiscalYear(current, settlementMonth);
    var start, end := JsNewDate(fy, settlementMonth, 1), JsNewDate(fy + 1, settlementMonth, 0);
    YearPeriodBounds(fy, settlementMonth);
    MomentDays(x, start);
    MomentDays(x, end);
    MonthRange(x, start, end);
  }

  /** A date is in the month view's period exactly when it is in the current month. */
  lemma MonthPeriodIsMonth(current: Date, x: Date)
    requires Valid(current) && Valid(x) && current.year >= 100
    ensures InPeriod(PeriodOf(MonthView, current, 0), x)
            <==> x.year == current.year && x.month == current.month
  {
    var start, end := JsNewDate(current.year, current.month - 1, 1), JsNewDate(current.year, current.month, 0);
    MakeDayFirst(current.year, current.month - 1);
    MakeDayZero(current.year, current.month - 1);
    MomentDays(x, start);
    MomentDays(x, end);
    MonthRange(x, start, end);
    MonthNumberOrder(x, current);
  }

  /** A date is in the day view's period exactly when it is the current date. */
  lemma DayPeriodIsDay(current: Date, x: Date)
    requires Valid(current) && Valid(x) && current.year >= 100
    ensures InPeriod(PeriodOf(DayView, current, 0), x) <==> x == current
  {
    MakeDayOfDate(current);
    MomentDays(x, current);
  }

  /** `shippedJobs`. */
  function ShippedJobs(jobs: seq<Job>): (r: seq<Job>)
    ensures forall j :: j in r <==> j in jobs && j.status == Shipped.Label()
  {
    Filter(jobs, (j: Job) => j.status == Shipped.Label())
  }

  /** A job counts for a period when its delivery date reads as a date in it; a date that
      does not read is an invalid date, and every comparison with it is false. */
  predicate Counted(p: Period, job: Job)
  {
    var d := ParseLocalDate(job.deliveryDate);
    d.Some? && InPeriod(p, d.value)
  }

  /** `filteredJobs`: the shipped jobs delivered in the period, in list order. */
  function ReportJobs(jobs: seq<Job>, p: Period): (r: seq<Job>)
    ensures forall j :: j in r <==> j in jobs && j.status == Shipped.Label() && Counted(p, j)
    ensures |r| <= |jobs|
  {
    Filter(ShippedJobs(jobs), (j: Job) => Counted(p, j))
  }

  /** In the month view a shipped job with a well-formed delivery date counts exactly
      when it is delivered in the current month. */
  lemma MonthReportJobs(jobs: seq<Job>, current: Date, job: Job)
    requires Valid(current) && current.year >= 100
    requires Parse(job.deliveryDate).Some? && Parse(job.deliveryDate).value.year >= 100
    ensures job in ReportJobs(jobs, PeriodOf(MonthView, current, 0)) <==>
              job in jobs && job.status == Shipped.Label()
              && Parse(job.deliveryDate).value.year == current.year
              && Parse(job.deliveryDate).value.month == current.month
  {
    ParseLocalDateAgrees(job.deliveryDate);
    MonthPeriodIsMonth(current, Parse(job.deliveryDate).value);
  }

  function Price(j: Job): int { j.price }
  function CostOf(j: Job): int { j.cost }
  function Profit(j: Job): int { j.price - j.cost }

  datatype ReportTotals = ReportTotals(totalSales: int, totalProfit: int, totalJobs: int)

  /** The totals of `reportData`: profit is sales minus cost, which is also the sum of
      the jobs' profits. */
  function Totals(filtered: seq<Job>): (r: ReportTotals)
    ensures r.totalSales == SumBy(filtered, Price)
    ensures r.totalProfit == SumBy(filtered, Profit)
    ensures r.totalJobs == |filtered|
  {
    var sales := SumBy(filtered, Price);
    var cost := SumBy(filtered, CostOf);
    SumByDifference(filtered, Price, CostOf, Profit);
    ReportTotals(sales, sales - cost, |filtered|)
  }

  /** The name a client id is reported under. */
  function ClientName(clients: seq<ClientMaster>, id: string): string
  {
    NameOr(ClientNames(clients), id, "不明な顧客")
  }

  /** The name a plating type id is reported under. */
  function PlatingTypeName(platingTypes: seq<PlatingTypeMaster>, id: string): string
  {
    NameOr(PlatingTypeNames(platingTypes), id, "不明なめっき種")
  }

  /** A job's price when it is reported under `key`, else 0. */
  function PriceUnder(nameOf: Job -> string, key: string): Job -> int
  {
    (j: Job) => if nameOf(j) == key then j.price else 0
  }

  predicate DistinctKeys(groups: seq<(string, int)>)
  {
    forall a, b :: 0 <= a < b < |groups| ==> groups[a].0 != groups[b].0
  }

  function Amount(e: (string, int)): int { e.1 }

  lemma {:induction false} SumByUpdate<T>(s: seq<T>, k: int, x: T, f: T -> int)
    requires 0 <= k < |s|
    ensures SumBy(s[k := x], f) == SumBy(s, f) - f(s[k]) + f(x)
  {
    var t := s[k := x];
    if k < |s| - 1 {
      assert t[..|t| - 1] == s[..|s| - 1][k := x];
      SumByUpdate(s[..|s| - 1], k, x, f);
    } else {
      assert t[..|t| - 1] == s[..|s| - 1];
    }
  }

  /** One step of the `reduce` behind `salesByClient` and `salesByPlatingType`:
      `acc[name] = (acc[name] || 0) + price`, a new name going last. */
  function AddSale(groups: seq<(string, int)>, name: string, price: int): (r: seq<(string, int)>)
    ensures |r| == |groups| || |r| == |groups| + 1
  {
    var k := FindIndex(groups, (e: (string, int)) => e.0 == name);
    if k == -1 then groups + [(name, price)] else groups[k := (name, groups[k].1 + price)]
  }

  /** `groups` has an entry for `name`. */
  predicate KeyIn(groups: seq<(string, int)>, name: string)
  {
    exists k :: 0 <= k < |groups| && groups[k].0 == name
  }

  /** Some job of `done` is reported under `name`. */
  predicate HasName(done: seq<Job>, nameOf: Job -> string, name: string)
  {
    exists j :: j in done && nameOf(j) == name
  }

  /** The groups the `reduce` has built after the jobs `done`. */
  function Grouped(done: seq<Job>, nameOf: Job -> string): seq<(string, int)>
  {
    if |done| == 0 then []
    else
      var last := done[|done| - 1];
      AddSale(Grouped(done[..|done| - 1], nameOf), nameOf(last), last.price)
  }

  lemma AddSaleKeys(groups: seq<(string, int)>, name: string, price: int)
    requires DistinctKeys(groups)
    ensures var r := AddSale(groups, name, price);
            && DistinctKeys(r)
            && (forall n :: KeyIn(r, n) <==> KeyIn(groups, n) || n == name)
            && (forall k :: 0 <= k < |r| && r[k].0 != name ==> k < |groups| && r[k] == groups[k])
            && (forall k :: 0 <= k < |r| && r[k].0 == name ==>
                  if KeyIn(groups, name) then k < |groups| && groups[k].0 == name && r[k].1 == groups[k].1 + price
                  else r[k].1 == price)
  {
    var k := FindIndex(groups, (e: (string, int)) => e.0 == name);
    var r := AddSale(groups, name, price);
    if k == -1 {
      assert r[|groups|].0 == name;
      assert !KeyIn(groups, name);
      forall n | KeyIn(groups, n) ensures KeyIn(r, n) {
        var i :| 0 <= i < |groups| && groups[i].0 == n;
        assert r[i].0 == n;
      }
    } else {
      assert r[k].0 == name;
      forall n | KeyIn(groups, n) ensures KeyIn(r, n) {
        var i :| 0 <= i < |groups| && groups[i].0 == n;
        assert r[i].0 == n;
      }
    }
  }

  lemma HasNameSnoc(done: seq<Job>, nameOf: Job -> string, job: Job)
    ensures forall n :: HasName(done + [job], nameOf, n) <==> HasName(done, nameOf, n) || n == nameOf(job)
  {
    forall n ensures HasName(done + [job], nameOf, n) <==> HasName(done, nameOf, n) || n == nameOf(job) {
      if HasName(done, nameOf, n) {
        var j :| j in done && nameOf(j) == n;
        assert j in done + [job];
      }
      if n == nameOf(job) {
        assert job in done + [job];
      }
    }
  }

  /** Every job's name has an entry, every entry names a job, and no name has two. */
  lemma {:induction false} GroupedKeys(done: seq<Job>, nameOf: Job -> string)
    ensures DistinctKeys(Grouped(done, nameOf))
    ensures forall n :: KeyIn(Grouped(done, nameOf), n) <==> HasName(done, nameOf, n)
  {
    if |done| > 0 {
      var init, last := done[..|done| - 1], done[|done| - 1];
      GroupedKeys(init, nameOf);
      AddSaleKeys(Grouped(init, nameOf), nameOf(last), last.price);
      HasNameSnoc(init, nameOf, last);
      assert done == init + [last];
    }
  }

  /** Each entry holds the prices of the jobs reported under its name. */
  lemma {:induction false} GroupedAmounts(done: seq<Job>, nameOf: Job -> string)
    ensures forall k :: 0 <= k < |Grouped(done, nameOf)| ==>
              Grouped(done, nameOf)[k].1 == SumBy(done, PriceUnder(nameOf, Grouped(done, nameOf)[k].0))
  {
    if |done| > 0 {
      var init, last := done[..|done| - 1], done[|done| - 1];
      var g0 := Grouped(init, nameOf);
      var g := Grouped(done, nameOf);
      GroupedAmounts(init, nameOf);
      assert forall i :: 0 <= i < |g0| ==> g0[i].1 == SumBy(init, PriceUnder(nameOf, g0[i].0));
      GroupedKeys(init, nameOf);
      AddSaleKeys(g0, nameOf(last), last.price);
      forall k | 0 <= k < |g| ensures g[k].1 == SumBy(done, PriceUnder(nameOf, g[k].0)) {
        var key := g[k].0;
        assert g == AddSale(g0, nameOf(last), last.price);
        assert SumBy(done, PriceUnder(nameOf, key)) == SumBy(init, PriceUnder(nameOf, key)) + PriceUnder(nameOf, key)(last);
        if key != nameOf(last) {
          assert g[k] == g0[k] && k < |g0|;
          assert PriceUnder(nameOf, key)(last) == 0;
          assert g0[k].1 == SumBy(init, PriceUnder(nameOf, key));
        } else if KeyIn(g0, key) {
          assert g0[k].0 == key && g[k].1 == g0[k].1 + last.price;
          assert PriceUnder(nameOf, key)(last) == last.price;
          assert g0[k].1 == SumBy(init, PriceUnder(nameOf, key));
        } else {
          assert !HasName(init, nameOf, key);
          NeverUnder(init, nameOf, key);
          assert g[k].1 == last.price;
        }
      }
    }
  }

  lemma AddSaleTotal(groups: seq<(string, int)>, name: string, price: int)
    ensures SumBy(AddSale(groups, name, price), Amount) == SumBy(groups, Amount) + price
  {
    var k := FindIndex(groups, (e: (string, int)) => e.0 == name);
    if k == -1 {
      assert (groups + [(name, price)])[..|groups|] == groups;
    } else {
      SumByUpdate(groups, k, (name, groups[k].1 + price), Amount);
    }
  }

  /** Together the entries hold every job's price once. */
  lemma {:induction false} GroupedTotal(done: seq<Job>, nameOf: Job -> string)
    ensures SumBy(Grouped(done, nameOf), Amount) == SumBy(done, Price)
  {
    if |done| > 0 {
      var init, last := done[..|done| - 1], done[|done| - 1];
      GroupedTotal(init, nameOf);
      AddSaleTotal(Grouped(init, nameOf), nameOf(last), last.price);
    }
  }

  /** The `reduce` behind `salesByClient` and `salesByPlatingType`. */
  method SalesBy(filtered: seq<Job>, nameOf: Job -> string) returns (groups: seq<(string, int)>)
    ensures groups == Grouped(filtered, nameOf)
  {
    groups := [];
    var i := 0;
    while i < |filtered|
      invariant 0 <= i <= |filtered|
      invariant groups == Grouped(filtered[..i], nameOf)
    {
      assert filtered[..i + 1][..i] == filtered[..i];
      groups := AddSale(groups, nameOf(filtered[i]), filtered[i].price);
      i := i + 1;
    }
    assert filtered[..i] == filtered;
  }

  lemma {:induction false} NeverUnder(s: seq<Job>, nameOf: Job -> string, key: string)
    requires forall j :: j in s ==> nameOf(j) != key
    ensures SumBy(s, PriceUnder(nameOf, key)) == 0
  {
    if |s| > 0 {
      assert forall j :: j in s[..|s| - 1] ==> j in s;
      NeverUnder(s[..|s| - 1], nameOf, key);
    }
  }

  /** The order the report lists the entries in: highest sales first. */
  function Ranked(groups: seq<(string, int)>): (r: seq<(string, int)>)
    ensures SortedDesc(r, Amount) && multiset(r) == multiset(groups)
  {
    SortDesc(groups, Amount)
  }

  /** The twelve months of the year chart: month index `settlementMonth + i + offset`
      of the fiscal year, for `i` from 0 to 11. */
  function ChartMonths(fy: int, settlementMonth: int, offset: int): (r: seq<Date>)
    ensures |r| == 12
    ensures forall i :: 0 <= i < 12 ==> r[i] == JsNewDate(fy, settlementMonth + i + offset, 1)
  {
    seq(12, i => JsNewDate(fy, settlementMonth + i + offset, 1))
  }

  /** The chart months as written: `new Date(fiscalYear, settlementMonth + i + 1, 1)`. */
  function ChartMonthsAsWritten(fy: int, settlementMonth: int): seq<Date>
  {
    ChartMonths(fy, settlementMonth, 1)
  }

  /** The chart months of the fiscal year itself, from the month the period starts in. */
  function ChartMonthsCorrected(fy: int, settlementMonth: int): seq<Date>
  {
    ChartMonths(fy, settlementMonth, 0)
  }

  /** `${year}-${String(month + 1).padStart(2, '0')}`. */
  function MonthKey(d: Date): string
    requires Valid(d)
  {
    IntString(d.year) + "-" + Pad(d.month, 2)
  }

  /** `deliveryDate.substring(0, 7)`. */
  function MonthPrefix(s: string): string
  {
    if |s| <= 7 then s else s[..7]
  }

  /** A bucket per chart month, keyed by its month key, starting at 0. */
  function EmptyBuckets(months: seq<Date>): (r: seq<(string, int)>)
    requires forall d :: d in months ==> Valid(d)
    ensures |r| == |months|
    ensures forall i :: 0 <= i < |r| ==> r[i] == (MonthKey(months[i]), 0)
  {
    seq(|months|, i requires 0 <= i < |months| => (MonthKey(months[i]), 0))
  }

  /** One step of the `forEach`: the price goes to the bucket keyed by the job's month
      prefix, if there is one. */
  function AddToBucket(buckets: seq<(string, int)>, job: Job): (r: seq<(string, int)>)
    ensures |r| == |buckets|
    ensures forall i :: 0 <= i < |r| ==> r[i].0 == buckets[i].0
  {
    var k := FindIndex(buckets, (e: (string, int)) => e.0 == MonthPrefix(job.deliveryDate));
    if k == -1 then buckets else buckets[k := (buckets[k].0, buckets[k].1 + job.price)]
  }

  /** The buckets after the jobs `done`. */
  function Bucketed(buckets: seq<(string, int)>, done: seq<Job>): (r: seq<(string, int)>)
    ensures |r| == |buckets|
    ensures forall i :: 0 <= i < |r| ==> r[i].0 == buckets[i].0
  {
    if |done| == 0 then buckets else AddToBucket(Bucketed(buckets, done[..|done| - 1]), done[|done| - 1])
  }

  /** The `forEach` filling the chart buckets. */
  method FillBuckets(buckets: seq<(string, int)>, filtered: seq<Job>) returns (r: seq<(string, int)>)
    ensures r == Bucketed(buckets, filtered)
  {
    r := buckets;
    var i := 0;
    while i < |filtered|
      invariant 0 <= i <= |filtered|
      invariant r == Bucketed(buckets, filtered[..i])
    {
      assert filtered[..i + 1][..i] == filtered[..i];
      r := AddToBucket(r, filtered[i]);
      i := i + 1;
    }
    assert filtered[..i] == filtered;
  }

  /** A job's price when its month prefix names a bucket, else 0. */
  function PriceIfBucketed(buckets: seq<(string, int)>): Job -> int
  {
    (j: Job) => if KeyIn(buckets, MonthPrefix(j.deliveryDate)) then j.price else 0
  }

  lemma AddToBucketTotal(buckets: seq<(string, int)>, job: Job)
    ensures SumBy(AddToBucket(buckets, job), Amount) == SumBy(buckets, Amount) + PriceIfBucketed(buckets)(job)
  {
    var key := MonthPrefix(job.deliveryDate);
    var k := FindIndex(buckets, (e: (string, int)) => e.0 == key);
    if k == -1 {
      assert !KeyIn(buckets, key);
    } else {
      assert KeyIn(buckets, key);
      SumByUpdate(buckets, k, (buckets[k].0, buckets[k].1 + job.price), Amount);
    }
  }

  lemma SameKeys(a: seq<(string, int)>, b: seq<(string, int)>)
    requires |a| == |b| && forall i :: 0 <= i < |a| ==> a[i].0 == b[i].0
    ensures forall n :: KeyIn(a, n) <==> KeyIn(b, n)
  {
    forall n ensures KeyIn(a, n) <==> KeyIn(b, n) {
      if KeyIn(a, n) {
        var i :| 0 <= i < |a| && a[i].0 == n;
        assert b[i].0 == n;
      }
      if KeyIn(b, n) {
        var i :| 0 <= i < |b| && b[i].0 == n;
        assert a[i].0 == n;
      }
    }
  }

  /** The buckets gain exactly the prices of the jobs whose month prefix names one. */
  lemma {:induction false} BucketedTotal(buckets: seq<(string, int)>, done: seq<Job>)
    ensures SumBy(Bucketed(buckets, done), Amount) == SumBy(buckets, Amount) + SumBy(done, PriceIfBucketed(buckets))
  {
    if |done| > 0 {
      var init, last := done[..|done| - 1], done[|done| - 1];
      var b := Bucketed(buckets, init);
      BucketedTotal(buckets, init);
      AddToBucketTotal(b, last);
      SameKeys(b, buckets);
      assert PriceIfBucketed(b)(last) == PriceIfBucketed(buckets)(last);
    }
  }

  lemma {:induction false} SumByZero(s: seq<(string, int)>)
    requires forall i :: 0 <= i < |s| ==> s[i].1 == 0
    ensures SumBy(s, Amount) == 0
  {
    if |s| > 0 {
      SumByZero(s[..|s| - 1]);
    }
  }

  /** Two functions that agree on every element have the same sum. */
  lemma {:induction false} SumBySame(s: seq<Job>, f: Job -> int, g: Job -> int)
    requires forall j :: j in s ==> f(j) == g(j)
    ensures SumBy(s, f) == SumBy(s, g)
  {
    if |s| > 0 {
      assert forall j :: j in s[..|s| - 1] ==> j in s;
      SumBySame(s[..|s| - 1], f, g);
    }
  }

  /** The year chart as written: buckets from the month after the period start. */
  method ChartAsWritten(fy: int, settlementMonth: int, filtered: seq<Job>) returns (r: seq<(string, int)>)
    ensures r == Bucketed(EmptyBuckets(ChartMonthsAsWritten(fy, settlementMonth)), filtered)
  {
    r := FillBuckets(EmptyBuckets(ChartMonthsAsWritten(fy, settlementMonth)), filtered);
  }

  /** The year chart with the buckets of the fiscal year's own months. */
  method Chart(fy: int, settlementMonth: int, filtered: seq<Job>) returns (r: seq<(string, int)>)
    ensures r == Bucketed(EmptyBuckets(ChartMonthsCorrected(fy, settlementMonth)), filtered)
  {
    r := FillBuckets(EmptyBuckets(ChartMonthsCorrected(fy, settlementMonth)), filtered);
  }

  /** For four-digit years the month key is the first seven characters of the ISO date. */
  lemma MonthKeyIsPrefix(s: string)
    requires Parse(s).Some? && 1000 <= Parse(s).value.year
    ensures MonthPrefix(s) == MonthKey(Parse(s).value)
  {
    var d := Parse(s).value;
    FormatParse(s);
    FormatShape(d);
    assert Pow10(3) == 1000 && Pow10(4) == 10000;
    DecimalIsPad(d.year, 4);
    assert s[..7] == s[..4] + [s[4]] + s[5..7];
  }

  /** For four-digit years month keys name months one to one. */
  lemma MonthKeyInjective(a: Date, b: Date)
    requires Valid(a) && Valid(b) && 1000 <= a.year <= 9999 && 1000 <= b.year <= 9999
    ensures MonthKey(a) == MonthKey(b) <==> a.year == b.year && a.month == b.month
  {
    assert Pow10(3) == 1000 && Pow10(4) == 10000 && Pow10(2) == 100;
    DecimalIsPad(a.year, 4);
    DecimalIsPad(b.year, 4);
    if MonthKey(a) == MonthKey(b) {
      assert MonthKey(a)[..4] == Pad(a.year, 4) && MonthKey(b)[..4] == Pad(b.year, 4);
      assert MonthKey(a)[5..] == Pad(a.month, 2) && MonthKey(b)[5..] == Pad(b.month, 2);
      PadInjective(a.year, b.year, 4);
      PadInjective(a.month, b.month, 2);
    }
  }

  /** Chart month `i` is month number `fy * 12 + settlementMonth + i + offset`. */
  lemma ChartMonthNumbers(fy: int, settlementMonth: int, offset: int)
    requires fy >= 100
    ensures forall i :: 0 <= i < 12 ==>
              MonthNumber(ChartMonths(fy, settlementMonth, offset)[i]) == fy * 12 + settlementMonth + i + offset
  {
    forall i | 0 <= i < 12
      ensures MonthNumber(ChartMonths(fy, settlementMonth, offset)[i]) == fy * 12 + settlementMonth + i + offset
    {
      MakeDayFirst(fy, settlementMonth + i + offset);
    }
  }

  /** A delivery date is empty or a well-formed date from year 1000 on. */
  predicate WellFormedDelivery(job: Job)
  {
    job.deliveryDate == "" || (Parse(job.deliveryDate).Some? && Parse(job.deliveryDate).value.year >= 1000)
  }

  /** A job counted in the year view is delivered in one of the twelve months of the
      fiscal year. */
  lemma CountedMonthInFiscalYear(current: Date, settlementMonth: int, job: Job)
    requires Valid(current) && 1 <= settlementMonth <= 12 && 1001 <= current.year <= 9997
    requires WellFormedDelivery(job) && Counted(PeriodOf(YearView, current, settlementMonth), job)
    ensures Parse(job.deliveryDate).Some?
    ensures var fy := FiscalYear(current, settlementMonth);
            var m := MonthNumber(Parse(job.deliveryDate).value);
            fy * 12 + settlementMonth <= m < fy * 12 + settlementMonth + 12
  {
    var fy := FiscalYear(current, settlementMonth);
    var s := job.deliveryDate;
    assert !IsFullDateShape("");
    var x := Parse(s).value;
    ParseLocalDateAgrees(s);
    var start, end := JsNewDate(fy, settlementMonth, 1), JsNewDate(fy + 1, settlementMonth, 0);
    YearPeriodBounds(fy, settlementMonth);
    MomentDays(x, start);
    MomentDays(x, end);
    MonthRange(x, start, end);
  }

  /** A job counted in the year view is delivered in one of the fiscal year's months, so
      its month prefix names one of the corrected chart's buckets. */
  lemma CountedJobIsBucketed(current: Date, settlementMonth: int, job: Job)
    requires Valid(current) && 1 <= settlementMonth <= 12 && 1001 <= current.year <= 9997
    requires WellFormedDelivery(job) && Counted(PeriodOf(YearView, current, settlementMonth), job)
    ensures var fy := FiscalYear(current, settlementMonth);
            KeyIn(EmptyBuckets(ChartMonthsCorrected(fy, settlementMonth)), MonthPrefix(job.deliveryDate))
  {
    var fy := FiscalYear(current, settlementMonth);
    var s := job.deliveryDate;
    CountedMonthInFiscalYear(current, settlementMonth, job);
    var x := Parse(s).value;
    var i := MonthNumber(x) - fy * 12 - settlementMonth;
    var months := ChartMonthsCorrected(fy, settlementMonth);
    ChartMonthNumbers(fy, settlementMonth, 0);
    MonthNumberOrder(months[i], x);
    MonthKeyIsPrefix(s);
    var buckets := EmptyBuckets(months);
    assert buckets[i].0 == MonthKey(months[i]) == MonthKey(x);
  }

  /** With the fiscal year's own months the chart accounts for every sale of the year
      view: its buckets add up to the total sales. */
  lemma ChartSumsToTotalSales(jobs: seq<Job>, current: Date, settlementMonth: int)
    requires Valid(current) && 1 <= settlementMonth <= 12 && 1001 <= current.year <= 9997
    requires forall j :: j in jobs ==> WellFormedDelivery(j)
    ensures var filtered := ReportJobs(jobs, PeriodOf(YearView, current, settlementMonth));
            var fy := FiscalYear(current, settlementMonth);
            SumBy(Bucketed(EmptyBuckets(ChartMonthsCorrected(fy, settlementMonth)), filtered), Amount)
            == Totals(filtered).totalSales
  {
    var filtered := ReportJobs(jobs, PeriodOf(YearView, current, settlementMonth));
    var fy := FiscalYear(current, settlementMonth);
    var buckets := EmptyBuckets(ChartMonthsCorrected(fy, settlementMonth));
    BucketedTotal(buckets, filtered);
    SumByZero(buckets);
    forall j | j in filtered ensures PriceIfBucketed(buckets)(j) == Price(j) {
      CountedJobIsBucketed(current, settlementMonth, j);
    }
    SumBySame(filtered, PriceIfBucketed(buckets), Price);
  }

  /** As written, no chart bucket is keyed by the first month of the fiscal year. */
  lemma FirstMonthHasNoBucket(fy: int, settlementMonth: int, d: Date)
    requires 1 <= settlementMonth <= 12 && 1000 <= fy <= 9997
    requires Valid(d) && MonthNumber(d) == fy * 12 + settlementMonth
    ensures !KeyIn(EmptyBuckets(ChartMonthsAsWritten(fy, settlementMonth)), MonthKey(d))
  {
    var months := ChartMonthsAsWritten(fy, settlementMonth);
    var buckets := EmptyBuckets(months);
    ChartMonthNumbers(fy, settlementMonth, 1);
    assert fy <= d.year <= fy + 1;
    forall i | 0 <= i < 12 ensures buckets[i].0 != MonthKey(d) {
      assert fy <= months[i].year <= fy + 2;
      MonthNumberOrder(months[i], d);
      MonthKeyInjective(months[i], d);
    }
  }

  /** The first day of the year view's period is in it. */
  lemma PeriodStartCounted(current: Date, settlementMonth: int)
    requires Valid(current) && 1 <= settlementMonth <= 12 && 1001 <= current.year <= 9997
    ensures var fy := FiscalYear(current, settlementMonth);
            var start := JsNewDate(fy, settlementMonth, 1);
            && 1000 <= start.year <= 9999 && MonthNumber(start) == fy * 12 + settlementMonth
            && InPeriod(PeriodOf(YearView, current, settlementMonth), start)
  {
    var fy := FiscalYear(current, settlementMonth);
    var start, end := JsNewDate(fy, settlementMonth, 1), JsNewDate(fy + 1, settlementMonth, 0);
    YearPeriodBounds(fy, settlementMonth);
    MomentDays(start, start);
    MomentDays(start, end);
    MonthRange(start, start, end);
  }

  /** A shipped job delivered on the first day of the year view's period is reported. */
  lemma PeriodStartJobReported(current: Date, settlementMonth: int, job: Job)
    requires Valid(current) && 1 <= settlementMonth <= 12 && 1001 <= current.year <= 9997
    requires job.status == Shipped.Label()
    requires job.deliveryDate == Format(JsNewDate(FiscalYear(current, settlementMonth), settlementMonth, 1))
    ensures ReportJobs([job], PeriodOf(YearView, current, settlementMonth)) == [job]
  {
    var p := PeriodOf(YearView, current, settlementMonth);
    var start := JsNewDate(FiscalYear(current, settlementMonth), settlementMonth, 1);
    PeriodStartCounted(current, settlementMonth);
    ParseFormat(start);
    ParseLocalDateAgrees(job.deliveryDate);
    assert Counted(p, job);
    assert Filter([job], (j: Job) => j.status == Shipped.Label()) == [job];
  }

  /** As written, a job delivered on the first day of the fiscal year lands in no bucket. */
  lemma PeriodStartJobPriceUnbucketed(fy: int, settlementMonth: int, job: Job)
    requires 1 <= settlementMonth <= 12 && 1000 <= fy <= 9997
    requires job.deliveryDate == Format(JsNewDate(fy, settlementMonth, 1))
    ensures PriceIfBucketed(EmptyBuckets(ChartMonthsAsWritten(fy, settlementMonth)))(job) == 0
  {
    var start := JsNewDate(fy, settlementMonth, 1);
    MakeDayFirst(fy, settlementMonth);
    ParseFormat(start);
    MonthKeyIsPrefix(job.deliveryDate);
    FirstMonthHasNoBucket(fy, settlementMonth, start);
  }

  lemma PeriodStartJobUnbucketed(fy: int, settlementMonth: int, job: Job)
    requires 1 <= settlementMonth <= 12 && 1000 <= fy <= 9997
    requires job.deliveryDate == Format(JsNewDate(fy, settlementMonth, 1))
    ensures SumBy(Bucketed(EmptyBuckets(ChartMonthsAsWritten(fy, settlementMonth)), [job]), Amount) == 0
  {
    var buckets := EmptyBuckets(ChartMonthsAsWritten(fy, settlementMonth));
    PeriodStartJobPriceUnbucketed(fy, settlementMonth, job);
    BucketedTotal(buckets, [job]);
    SumByZero(buckets);
    assert SumBy([job], PriceIfBucketed(buckets)) == 0;
  }

  /** As written, the chart has no bucket for the first month of the fiscal year: a
      shipped job delivered on the first day of the period is counted in the totals but
      in no bucket. */
  lemma ChartAsWrittenDropsFirstMonth(current: Date, settlementMonth: int, job: Job)
    requires Valid(current) && 1 <= settlementMonth <= 12 && 1001 <= current.year <= 9997
    requires job.status == Shipped.Label()
    requires job.deliveryDate == Format(JsNewDate(FiscalYear(current, settlementMonth), settlementMonth, 1))
    ensures ReportJobs([job], PeriodOf(YearView, current, settlementMonth)) == [job]
    ensures Totals([job]).totalSales == job.price
    ensures SumBy(Bucketed(EmptyBuckets(ChartMonthsAsWritten(FiscalYear(current, settlementMonth), settlementMonth)),
                           [job]), Amount) == 0
  {
    PeriodStartJobReported(current, settlementMonth, job);
    PeriodStartJobUnbucketed(FiscalYear(current, settlementMonth), settlementMonth, job);
    assert SumBy([job], Price) == job.price;
  }

  function Maximum(s: seq<int>): (r: int)
    requires |s| > 0
    ensures forall i :: 0 <= i < |s| ==> s[i] <= r
    ensures exists i :: 0 <= i < |s| && s[i] == r
  {
    if |s| == 1 then s[0]
    else
      var m := Maximum(s[..|s| - 1]);
      assert forall i :: 0 <= i < |s| - 1 ==> s[..|s| - 1][i] == s[i];
      if s[|s| - 1] > m then s[|s| - 1] else m
  }

  /** `maxSales`: the largest bucket, or 1 when no bucket is positive, so that bar heights
      never divide by zero and never exceed the full height. */
  function ChartMax(amounts: seq<int>): (r: int)
    ensures r >= 1
    ensures forall i :: 0 <= i < |amounts| ==> amounts[i] <= r
    ensures r == 1 || exists i :: 0 <= i < |amounts| && amounts[i] == r
  {
    if |amounts| == 0 then 1
    else
      var m := Maximum(amounts);
      if m > 0 then m else 1
  }

  /** `handleDateNavigate`: `setFullYear`, `setMonth` or `setDate` shifted by `amount`,
      each rolling over out-of-range days as the date constructor does. */
  function Navigated(mode: ReportViewMode, d: Date, amount: int): (r: Date)
    ensures Valid(r)
  {
    match mode
    case YearView => MakeDay(d.year + amount, d.month - 1, d.day)
    case MonthView => MakeDay(d.year, d.month - 1 + amount, d.day)
    case DayView => MakeDay(d.year, d.month - 1, d.day + amount)
  }

  lemma NavigatedDayView(d: Date, amount: int)
    ensures Navigated(DayView, d, amount) == MakeDay(d.year, d.month - 1, d.day + amount)
  {
  }

  /** In the day view navigation is moving by whole days. */
  lemma NavigateDayIsAddDays(d: Date, amount: int)
    requires Valid(d)
    ensures Navigated(DayView, d, amount) == AddDays(d, amount)
  {
    NavigatedDayView(d, amount);
    MakeDayShift(d, amount);
  }

  /** In the day view navigation moves by whole days, and moving back undoes it. */
  lemma NavigateDays(d: Date, amount: int)
    requires Valid(d)
    ensures Navigated(DayView, d, amount) == AddDays(d, amount)
    ensures Navigated(DayView, Navigated(DayView, d, amount), -amount) == d
  {
    NavigateDayIsAddDays(d, amount);
    NavigateDayIsAddDays(AddDays(d, amount), -amount);
    AddDaysAdd(d, amount, -amount);
  }

  /** In the month view a day up to the 28th keeps its day and moves `amount` months. */
  lemma NavigateMonths(d: Date, amount: int)
    requires Valid(d) && d.day <= 28
    ensures var r := Navigated(MonthView, d, amount);
            r.day == d.day && MonthNumber(r) == MonthNumber(d) + amount
  {
    var mi := d.month - 1 + amount;
    var first := Date(d.year + mi / 12, mi % 12 + 1, 1);
    AddDaysInMonth(first, d.day - 1);
  }

  /** In the year view a date other than 29 February keeps its month and day. */
  lemma NavigateYears(d: Date, amount: int)
    requires Valid(d) && !(d.month == 2 && d.day == 29)
    ensures Navigated(YearView, d, amount) == Date(d.year + amount, d.month, d.day)
  {
    var first := Date(d.year + amount, d.month, 1);
    assert (d.month - 1) / 12 == 0 && (d.month - 1) % 12 + 1 == d.month;
    AddDaysInMonth(first, d.day - 1);
  }

  /** The view mode and current date of the report page. */
  class ReportView {
    var viewMode: ReportViewMode
    var currentDate: Date

    predicate Valid()
      reads this
    {
      CivilDate.Valid(currentDate)
    }

    /** The page opens on the day view of today. */
    constructor (today: Date)
      requires CivilDate.Valid(today)
      ensures Valid() && viewMode == DayView && currentDate == today
    {
      viewMode := DayView;
      currentDate := today;
    }

    /** The period the page reports on. */
    function CurrentPeriod(settlementMonth: int): Period
      reads this
      requires Valid()
    {
      PeriodOf(viewMode, currentDate, settlementMonth)
    }

    method SetViewMode(m: ReportViewMode)
      modifies this
      requires Valid()
      ensures Valid() && viewMode == m && currentDate == old(currentDate)
    {
      viewMode := m;
    }

    /** `handleDateNavigate`. */
    method Navigate(amount: int)
      modifies this
      requires Valid()
      ensures Valid()
      ensures currentDate == Navigated(old(viewMode), old(currentDate), amount)
      ensures viewMode == old(viewMode)
    {
      currentDate := Navigated(viewMode, currentDate, amount);
    }
  }
}
