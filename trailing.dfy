/** The six-bucket trend of the dashboards and of `/api/cashflow-trend`: for
    i = 5 down to 0 the handlers take `now - timedelta(days=30*i)` and sum
    the rows in `[first of its month, first of the following month)`.
    Stepping by 30 days can land twice in one month and skip another. */
module Trailing {
  import opened Text
  import opened Calendar
  import opened Transactions

  /** Python's `datetime` arithmetic stays in range for every sample: the
      earliest one is not before year 1, and no sample lies in December 9999
      (whose following month would be year 10000). */
  predicate SeriesDefined(now: Day) {
    MinusDays(now, 150).year >= 1 && !(now.year == 9999 && now.month == 12)
  }

  lemma SampleInRange(now: Day, i: nat)
    requires SeriesDefined(now) && i <= 5
    ensures WellFormed(MinusDays(now, 30 * i))
    ensures WellFormed(FirstOfMonth(MinusDays(now, 30 * i)))
    ensures WellFormed(FirstOfNextMonth(MinusDays(now, 30 * i)))
  {
    MinusDaysMonotone(now, 30 * i, 150);
    MinusDaysMonotone(now, 0, 30 * i);
  }

  /** `month_date = now - timedelta(days=30*i)`. */
  function Sample(now: Day, i: nat): Day
    requires SeriesDefined(now) && i <= 5
  {
    SampleInRange(now, i);
    MinusDays(now, 30 * i)
  }

  /** `month_date.replace(day=1).strftime('%Y-%m-%d')`. */
  function WindowStart(now: Day, i: nat): string
    requires SeriesDefined(now) && i <= 5
  {
    SampleInRange(now, i);
    Iso(FirstOfMonth(Sample(now, i)))
  }

  /** `next_month.strftime('%Y-%m-%d')`. */
  function WindowEnd(now: Day, i: nat): string
    requires SeriesDefined(now) && i <= 5
  {
    SampleInRange(now, i);
    Iso(FirstOfNextMonth(Sample(now, i)))
  }

  /** `SELECT COALESCE(SUM(jumlah), 0) ... WHERE tipe = ? AND tanggal >= ?
      AND tanggal < ?`, comparing TEXT. */
  function WindowSum(rows: seq<Transaction>, start: string, end: string, tipe: string): int {
    if rows == [] then 0
    else
      var t := rows[|rows| - 1];
      WindowSum(rows[..|rows| - 1], start, end, tipe)
        + (if t.tipe == tipe && LexLe(start, Iso(t.tanggal)) && LexLt(Iso(t.tanggal), end) then t.jumlah else 0)
  }

  /** The calendar-month total: rows of `tipe` dated in month `m` of year `y`. */
  function MonthSum(rows: seq<Transaction>, y: int, m: int, tipe: string): int {
    if rows == [] then 0
    else
      var t := rows[|rows| - 1];
      MonthSum(rows[..|rows| - 1], y, m, tipe)
        + (if t.tipe == tipe && t.tanggal.year == y && t.tanggal.month == m then t.jumlah else 0)
  }

  /** The number of rows dated in month `m` of year `y`. */
  function MonthCount(rows: seq<Transaction>, y: int, m: int): nat {
    if rows == [] then 0
    else
      var t := rows[|rows| - 1];
      MonthCount(rows[..|rows| - 1], y, m) + (if t.tanggal.year == y && t.tanggal.month == m then 1 else 0)
  }

  /** One chart entry: the sampled date (whose month names the label), and
      the income, expense and profit of its window. */
  datatype Bucket = Bucket(month: Day, revenue: int, expense: int, profit: int)

  /** Bucket k is the calendar month of `now - 30*(5-k)` days: its income,
      its expense and the difference. */
  ghost predicate IsTrend(rows: seq<Transaction>, now: Day, buckets: seq<Bucket>)
    requires SeriesDefined(now)
  {
    && |buckets| == 6
    && forall k :: 0 <= k < 6 ==>
      && buckets[k].month == Sample(now, 5 - k)
      && buckets[k].revenue == MonthSum(rows, Sample(now, 5 - k).year, Sample(now, 5 - k).month, Pendapatan)
      && buckets[k].expense == MonthSum(rows, Sample(now, 5 - k).year, Sample(now, 5 - k).month, Pengeluaran)
      && buckets[k].profit == buckets[k].revenue - buckets[k].expense
  }

  /** Lines 150-175 (and 493-516, 751-775). */
  method TrailingSeries(rows: seq<Transaction>, now: Day) returns (buckets: seq<Bucket>)
    requires SeriesDefined(now)
    ensures IsTrend(rows, now, buckets)
  {
    buckets := [];
    var i := 5;
    while i >= 0
      invariant -1 <= i <= 5
      invariant |buckets| == 5 - i
      invariant forall k :: 0 <= k < |buckets| ==>
        && buckets[k].month == Sample(now, 5 - k)
        && buckets[k].revenue == MonthSum(rows, Sample(now, 5 - k).year, Sample(now, 5 - k).month, Pendapatan)
        && buckets[k].expense == MonthSum(rows, Sample(now, 5 - k).year, Sample(now, 5 - k).month, Pengeluaran)
        && buckets[k].profit == buckets[k].revenue - buckets[k].expense
    {
      SampleInRange(now, i);
      var monthDate: Day := MinusDays(now, 30 * i);
      var monthStart := Iso(FirstOfMonth(monthDate));
      var nextMonth: Date;
      if monthDate.month == 12 {
        nextMonth := Date(monthDate.year + 1, 1, 1);
      } else {
        nextMonth := Date(monthDate.year, monthDate.month + 1, 1);
      }
      var monthEnd := Iso(nextMonth);
      var revenue := WindowSum(rows, monthStart, monthEnd, Pendapatan);
      var expense := WindowSum(rows, monthStart, monthEnd, Pengeluaran);
      WindowIsCalendarMonth(rows, now, i, Pendapatan);
      WindowIsCalendarMonth(rows, now, i, Pengeluaran);
      buckets := buckets + [Bucket(monthDate, revenue, expense, revenue - expense)];
      i := i - 1;
    }
  }

  // ---------------------------------------------------------------------------
  // Lemmas

  /** The half-open TEXT window holds exactly the rows of the sample's
      calendar month. */
  lemma {:induction false} WindowSumIsMonthSum(rows: seq<Transaction>, d: Day, tipe: string)
    requires WellFormed(FirstOfNextMonth(d))
    ensures WindowSum(rows, Iso(FirstOfMonth(d)), Iso(FirstOfNextMonth(d)), tipe) == MonthSum(rows, d.year, d.month, tipe)
  {
    if rows != [] {
      var t := rows[|rows| - 1];
      WindowSumIsMonthSum(rows[..|rows| - 1], d, tipe);
      IsoLeIsAtOrBefore(FirstOfMonth(d), t.tanggal);
      IsoLtIsBefore(t.tanggal, FirstOfNextMonth(d));
      MonthWindow(d, t.tanggal);
    }
  }

  lemma WindowIsCalendarMonth(rows: seq<Transaction>, now: Day, i: nat, tipe: string)
    requires SeriesDefined(now) && i <= 5
    ensures WindowSum(rows, WindowStart(now, i), WindowEnd(now, i), tipe)
      == MonthSum(rows, Sample(now, i).year, Sample(now, i).month, tipe)
  {
    SampleInRange(now, i);
    WindowSumIsMonthSum(rows, Sample(now, i), tipe);
  }

  /** The buckets run forward in time: each sampled month is the same as or
      later than the previous one, by at most two months. */
  lemma SamplesAdvance(now: Day, i: nat)
    requires SeriesDefined(now) && 1 <= i <= 5
    ensures MonthIndex(Sample(now, i)) <= MonthIndex(Sample(now, i - 1)) <= MonthIndex(Sample(now, i)) + 2
  {
    var d := Sample(now, i - 1);
    assert AtOrBefore(Sample(now, i), d) by {
      MinusDaysMonotone(now, 30 * (i - 1), 30 * i);
    }
    assert Sample(now, i) == MinusDays(d, 30) by {
      MinusDaysSplit(now, 30 * (i - 1), 30);
    }
    MinusDaysMonthBound(d, 30);
  }

  /** On 31 March the buckets for i = 1 and i = 0 are both March. */
  lemma MarchTheThirtyFirst()
    ensures SeriesDefined(Date(2025, 3, 31))
    ensures Sample(Date(2025, 3, 31), 1) == Date(2025, 3, 1)
    ensures WindowStart(Date(2025, 3, 31), 1) == WindowStart(Date(2025, 3, 31), 0)
  {
    var now := Date(2025, 3, 31);
    MinusDaysYearBound(now, 150);
    assert MinusDays(now, 30) == Date(2025, 3, 1);
  }

  /** On 1 March no bucket is February: the sample for i = 1 is 30 January. */
  lemma MarchTheFirst()
    ensures SeriesDefined(Date(2025, 3, 1))
    ensures Sample(Date(2025, 3, 1), 1) == Date(2025, 1, 30)
    ensures forall i :: 0 <= i <= 5 ==> Sample(Date(2025, 3, 1), i).month != 2
  {
    var now := Date(2025, 3, 1);
    MinusDaysYearBound(now, 150);
    assert PrevMonthEnd(now) == Date(2025, 2, 28);
    assert MinusDays(Date(2025, 2, 28), 29) == MinusDays(Date(2025, 1, 31), 1);
    assert MinusDays(now, 30) == Date(2025, 1, 30);
    forall i | 1 <= i <= 5 ensures Sample(now, i).month != 2 {
      MinusDaysMonotone(now, 30, 30 * i);
      MinusDaysYearBound(now, 30 * i);
    }
  }
}
