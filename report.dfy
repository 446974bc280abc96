/** The report page (`laporan_cashflow`): totals over the selected rows, a
    chart with one bucket per day of the chosen month or one per month of the
    year, and the expense sum of each category. */
module Report {
  import opened Wrappers
  import opened Text
  import opened Calendar
  import opened Transactions
  import opened Filters
  import opened Breakdown

  function Sum(xs: seq<int>): int {
    if xs == [] then 0 else Sum(xs[..|xs| - 1]) + xs[|xs| - 1]
  }

  /** `f"{year}-{int(month):02d}-{day:02d}"`, with `year` as given. */
  function DayKey(year: string, month: int, day: int): string {
    year + ("-" + (Format02(month) + ("-" + Format02(day))))
  }

  /** The sum of `jumlah` over rows of `tipe` whose `tanggal` text is `key`. */
  function OnDate(rows: seq<Transaction>, key: string, tipe: string): int {
    if rows == [] then 0
    else
      var t := rows[|rows| - 1];
      OnDate(rows[..|rows| - 1], key, tipe) + (if Iso(t.tanggal) == key && t.tipe == tipe then t.jumlah else 0)
  }

  /** The sum of `jumlah` over rows of `tipe` whose month field
      (`int(t['tanggal'].split('-')[1])`) is `m`. */
  function InMonth(rows: seq<Transaction>, m: int, tipe: string): int {
    if rows == [] then 0
    else
      var t := rows[|rows| - 1];
      InMonth(rows[..|rows| - 1], m, tipe) + (if t.tanggal.month == m && t.tipe == tipe then t.jumlah else 0)
  }

  /** `s[:3]`. */
  function Take3(s: string): (r: string)
    ensures |r| == if |s| < 3 then |s| else 3
    ensures r == s[..|r|]
  {
    if |s| <= 3 then s else s[..3]
  }

  /** A chart: labels with the income and the expense of each bucket. */
  datatype Series = Series(labels: seq<string>, revenue: seq<int>, expense: seq<int>)

  /** Lines 406-417: one bucket per day of the month, `calendar.monthrange`
      giving the number of days. */
  method DailySeries(rows: seq<Transaction>, year: string, month: int) returns (s: Series)
    requires 1 <= month <= 12
    requires year != "" && AllDigits(year)
    ensures |s.labels| == |s.revenue| == |s.expense| == DaysInMonth(DigitsValue(year), month)
    ensures forall k :: 0 <= k < |s.labels| ==>
      && s.labels[k] == IntToString(k + 1)
      && s.revenue[k] == OnDate(rows, DayKey(year, month, k + 1), Pendapatan)
      && s.expense[k] == OnDate(rows, DayKey(year, month, k + 1), Pengeluaran)
  {
    var numDays := DaysInMonth(DigitsValue(year), month);
    var labels: seq<string>, revenue: seq<int>, expense: seq<int> := [], [], [];
    var day := 1;
    while day <= numDays
      invariant 1 <= day <= numDays + 1
      invariant |labels| == |revenue| == |expense| == day - 1
      invariant forall k :: 0 <= k < day - 1 ==>
        && labels[k] == IntToString(k + 1)
        && revenue[k] == OnDate(rows, DayKey(year, month, k + 1), Pendapatan)
        && expense[k] == OnDate(rows, DayKey(year, month, k + 1), Pengeluaran)
    {
      var dateStr := DayKey(year, month, day);
      labels := labels + [IntToString(day)];
      revenue := revenue + [OnDate(rows, dateStr, Pendapatan)];
      expense := expense + [OnDate(rows, dateStr, Pengeluaran)];
      day := day + 1;
    }
    s := Series(labels, revenue, expense);
  }

  /** Lines 418-429: twelve buckets keyed by the month field, labelled with
      the first three letters of `calendar.month_name[m]` (`monthName`, a
      13-entry table whose entry 0 is unused). */
  method MonthlySeries(rows: seq<Transaction>, monthName: seq<string>) returns (s: Series)
    requires |monthName| == 13
    ensures |s.labels| == |s.revenue| == |s.expense| == 12
    ensures forall k :: 0 <= k < 12 ==>
      && s.labels[k] == Take3(monthName[k + 1])
      && s.revenue[k] == InMonth(rows, k + 1, Pendapatan)
      && s.expense[k] == InMonth(rows, k + 1, Pengeluaran)
  {
    var labels: seq<string>, revenue: seq<int>, expense: seq<int> := [], [], [];
    var m := 1;
    while m < 13
      invariant 1 <= m <= 13
      invariant |labels| == |revenue| == |expense| == m - 1
      invariant forall k :: 0 <= k < m - 1 ==>
        && labels[k] == Take3(monthName[k + 1])
        && revenue[k] == InMonth(rows, k + 1, Pendapatan)
        && expense[k] == InMonth(rows, k + 1, Pengeluaran)
    {
      labels := labels + [Take3(monthName[m])];
      revenue := revenue + [InMonth(rows, m, Pendapatan)];
      expense := expense + [InMonth(rows, m, Pengeluaran)];
      m := m + 1;
    }
    s := Series(labels, revenue, expense);
  }

  /** Lines 432-438: `defaultdict(float)` summing expenses by category; keys
      in first-occurrence order. */
  method ReportCategories(rows: seq<Transaction>) returns (labels: seq<string>, data: seq<int>)
    ensures labels == Categories(rows)
    ensures |data| == |labels|
    ensures forall k :: 0 <= k < |data| ==> data[k] == CatTotal(rows, labels[k])
  {
    var categories: map<string, int> := map[];
    labels := [];
    var i := 0;
    while i < |rows|
      invariant 0 <= i <= |rows|
      invariant labels == Categories(rows[..i])
      invariant forall c :: c in categories <==> c in labels
      invariant forall c :: c in categories ==> categories[c] == CatTotal(rows[..i], c)
    {
      var t := rows[i];
      assert rows[..i + 1] == rows[..i] + [t];
      CategoriesStep(rows[..i], t);
      ghost var before := categories;
      if t.tipe == Pengeluaran {
        if t.kategori !in categories {
          CategoriesMembership(rows[..i], t.kategori);
          categories := categories[t.kategori := 0];
          labels := labels + [t.kategori];
        }
        categories := categories[t.kategori := categories[t.kategori] + t.jumlah];
      }
      forall c | c in categories ensures categories[c] == CatTotal(rows[..i] + [t], c) {
        CatTotalStep(rows[..i], t, c);
      }
      i := i + 1;
    }
    assert rows[..|rows|] == rows;
    data := [];
    var k := 0;
    while k < |labels|
      invariant 0 <= k <= |labels|
      invariant |data| == k
      invariant forall j :: 0 <= j < k ==> data[j] == CatTotal(rows, labels[j])
    {
      data := data + [categories[labels[k]]];
      k := k + 1;
    }
  }

  lemma CatTotalStep(rows: seq<Transaction>, t: Transaction, c: string)
    ensures CatTotal(rows + [t], c) == CatTotal(rows, c) + (if ExpenseIn(t, c) then t.jumlah else 0)
  {
    assert (rows + [t])[..|rows|] == rows;
  }

  // ---------------------------------------------------------------------------
  // The buckets add up to the totals

  /** The income or expense of days 1..n. */
  function DaysTotal(rows: seq<Transaction>, year: string, month: int, tipe: string, n: nat): int {
    if n == 0 then 0 else DaysTotal(rows, year, month, tipe, n - 1) + OnDate(rows, DayKey(year, month, n), tipe)
  }

  /** The income or expense of months 1..n. */
  function MonthsTotal(rows: seq<Transaction>, tipe: string, n: nat): int {
    if n == 0 then 0 else MonthsTotal(rows, tipe, n - 1) + InMonth(rows, n, tipe)
  }

  /** In a year spelled with four digits, a stored date has the text of day
      `d` of its own month exactly when it is day `d`. */
  lemma DayKeyMatches(t: Day, year: string, d: int)
    requires year == Pad(t.year, 4) && 0 <= d < 100
    ensures Iso(t) == DayKey(year, t.month, d) <==> t.day == d
  {
    Format02Small(t.month);
    Format02Small(d);
    var tail := "-" + Pad(t.day, 2);
    var tail' := "-" + Pad(d, 2);
    ConcatEq("-", Pad(t.day, 2), "-", Pad(d, 2));
    ConcatEq(Pad(t.month, 2), tail, Pad(t.month, 2), tail');
    ConcatEq("-", Pad(t.month, 2) + tail, "-", Pad(t.month, 2) + tail');
    ConcatEq(year, "-" + (Pad(t.month, 2) + tail), year, "-" + (Pad(t.month, 2) + tail'));
    PadInjective(t.day, d, 2);
  }

  lemma OnDateStep(rows: seq<Transaction>, t: Transaction, key: string, tipe: string)
    ensures OnDate(rows + [t], key, tipe) == OnDate(rows, key, tipe) + (if Iso(t.tanggal) == key && t.tipe == tipe then t.jumlah else 0)
  {
    assert (rows + [t])[..|rows|] == rows;
  }

  lemma InMonthStep(rows: seq<Transaction>, t: Transaction, m: int, tipe: string)
    ensures InMonth(rows + [t], m, tipe) == InMonth(rows, m, tipe) + (if t.tanggal.month == m && t.tipe == tipe then t.jumlah else 0)
  {
    assert (rows + [t])[..|rows|] == rows;
  }

  /** One more row adds its amount to exactly one of days 1..n, when its day
      is among them. */
  lemma {:induction false} DaysTotalStep(rows: seq<Transaction>, t: Transaction, year: string, tipe: string, n: nat)
    requires year == Pad(t.tanggal.year, 4) && n < 100
    ensures DaysTotal(rows + [t], year, t.tanggal.month, tipe, n) ==
      DaysTotal(rows, year, t.tanggal.month, tipe, n) + (if t.tipe == tipe && t.tanggal.day <= n then t.jumlah else 0)
  {
    if n > 0 {
      var d := t.tanggal.day;
      var x := if t.tipe == tipe then t.jumlah else 0;
      var month := t.tanggal.month;
      assert DaysTotal(rows + [t], year, month, tipe, n - 1) == DaysTotal(rows, year, month, tipe, n - 1) + (if d <= n - 1 then x else 0) by {
        DaysTotalStep(rows, t, year, tipe, n - 1);
      }
      assert OnDate(rows + [t], DayKey(year, month, n), tipe) == OnDate(rows, DayKey(year, month, n), tipe) + (if d == n then x else 0) by {
        OnDateStep(rows, t, DayKey(year, month, n), tipe);
        DayKeyMatches(t.tanggal, year, n);
      }
    }
  }

  lemma {:induction false} MonthsTotalStep(rows: seq<Transaction>, t: Transaction, tipe: string, n: nat)
    ensures MonthsTotal(rows + [t], tipe, n) ==
      MonthsTotal(rows, tipe, n) + (if t.tipe == tipe && t.tanggal.month <= n then t.jumlah else 0)
  {
    if n > 0 {
      var m := t.tanggal.month;
      var x := if t.tipe == tipe then t.jumlah else 0;
      assert MonthsTotal(rows + [t], tipe, n - 1) == MonthsTotal(rows, tipe, n - 1) + (if m <= n - 1 then x else 0) by {
        MonthsTotalStep(rows, t, tipe, n - 1);
      }
      assert InMonth(rows + [t], n, tipe) == InMonth(rows, n, tipe) + (if m == n then x else 0) by {
        InMonthStep(rows, t, n, tipe);
      }
    }
  }

  lemma {:induction false} DaysTotalOfNoRows(year: string, month: int, tipe: string, n: nat)
    ensures DaysTotal([], year, month, tipe, n) == 0
  {
    if n > 0 { DaysTotalOfNoRows(year, month, tipe, n - 1); }
  }

  lemma {:induction false} MonthsTotalOfNoRows(tipe: string, n: nat)
    ensures MonthsTotal([], tipe, n) == 0
  {
    if n > 0 { MonthsTotalOfNoRows(tipe, n - 1); }
  }

  /** When every row lies in the given month of the year spelled `year`, the
      day buckets together hold every row: their sum is the total. */
  lemma {:induction false} DaysTotalIsTotal(rows: seq<Transaction>, year: string, month: int, tipe: string)
    requires 1 <= month <= 12 && AllDigits(year)
    requires forall t :: t in rows ==> year == Pad(t.tanggal.year, 4) && t.tanggal.month == month
    ensures DaysTotal(rows, year, month, tipe, DaysInMonth(DigitsValue(year), month)) == SumOfTipe(rows, tipe)
  {
    var n := DaysInMonth(DigitsValue(year), month);
    if rows == [] {
      DaysTotalOfNoRows(year, month, tipe, n);
    } else {
      var p := rows[..|rows| - 1];
      var t := rows[|rows| - 1];
      assert rows == p + [t];
      assert forall u :: u in p ==> u in rows;
      DaysTotalIsTotal(p, year, month, tipe);
      DigitsValuePad(t.tanggal.year, 4);
      DaysTotalStep(p, t, year, tipe, n);
    }
  }

  /** Every row has a month from 1 to 12, so the twelve month buckets
      together hold every row. */
  lemma {:induction false} MonthsTotalIsTotal(rows: seq<Transaction>, tipe: string)
    ensures MonthsTotal(rows, tipe, 12) == SumOfTipe(rows, tipe)
  {
    if rows == [] {
      MonthsTotalOfNoRows(tipe, 12);
    } else {
      var p := rows[..|rows| - 1];
      var t := rows[|rows| - 1];
      assert rows == p + [t];
      MonthsTotalIsTotal(p, tipe);
      MonthsTotalStep(p, t, tipe, 12);
    }
  }

  lemma {:induction false} SumOfDays(xs: seq<int>, rows: seq<Transaction>, year: string, month: int, tipe: string)
    requires forall k :: 0 <= k < |xs| ==> xs[k] == OnDate(rows, DayKey(year, month, k + 1), tipe)
    ensures Sum(xs) == DaysTotal(rows, year, month, tipe, |xs|)
  {
    if xs != [] {
      SumOfDays(xs[..|xs| - 1], rows, year, month, tipe);
    }
  }

  lemma {:induction false} SumOfMonths(xs: seq<int>, rows: seq<Transaction>, tipe: string)
    requires forall k :: 0 <= k < |xs| ==> xs[k] == InMonth(rows, k + 1, tipe)
    ensures Sum(xs) == MonthsTotal(rows, tipe, |xs|)
  {
    if xs != [] {
      SumOfMonths(xs[..|xs| - 1], rows, tipe);
    }
  }

  lemma {:induction false} SumOfCategories(data: seq<int>, rows: seq<Transaction>, cs: seq<string>)
    requires |data| == |cs|
    requires forall k :: 0 <= k < |data| ==> data[k] == CatTotal(rows, cs[k])
    ensures Sum(data) == SumHarga(Entries(rows, cs))
  {
    if data != [] {
      SumOfCategories(data[..|data| - 1], rows, cs[..|cs| - 1]);
      EntriesAt(rows, cs, |cs| - 1);
      var es := Entries(rows, cs);
      assert es[..|es| - 1] == Entries(rows, cs[..|cs| - 1]);
    }
  }

  /** The category sums of the report add up to its expense total. */
  lemma CategorySumsAreExpense(rows: seq<Transaction>, data: seq<int>)
    requires |data| == |Categories(rows)|
    requires forall k :: 0 <= k < |data| ==> data[k] == CatTotal(rows, Categories(rows)[k])
    ensures Sum(data) == TotalPengeluaran(rows)
  {
    SumOfCategories(data, rows, Categories(rows));
    BreakdownTotals(rows);
  }

  // ---------------------------------------------------------------------------
  // The handler

  datatype ReportView = ReportView(
    transactions: seq<Transaction>,
    totalRevenue: int,
    totalExpense: int,
    chart: Series,
    categoryLabels: seq<string>,
    categoryData: seq<int>,
    selectedBulan: int,
    selectedTahun: int)

  /** `ORDER BY tanggal DESC`: ties come in an order SQLite does not fix. */
  predicate DateDescending(rows: seq<Transaction>) {
    forall i :: 0 < i < |rows| ==> AtOrBefore(rows[i].tanggal, rows[i - 1].tanggal)
  }

  /** A selected row has the month and the year the filter names. */
  lemma SelectedRowsInMonth(table: seq<Transaction>, f: CashflowFilter, m: int, t: Transaction)
    requires f.month == Some(m) && f.year != "" && t in Select(table, f)
    ensures f.year == Pad(t.tanggal.year, 4) && t.tanggal.month == m
  {
    Pad2MatchesFormat02(t.tanggal.month, m);
  }

  /** Lines 372-457. `fetched` is the result of the query: the selected rows
      in an order SQLite chooses among dates that tie. The handler raises
      (`int('')`, `calendar.monthrange`, `int(year)`) outside the requires. */
  method LaporanCashflow(table: seq<Transaction>, args: ReportArgs, now: Day, monthName: seq<string>, fetched: seq<Transaction>)
    returns (v: ReportView)
    requires |monthName| == 13
    requires multiset(fetched) == multiset(Select(table, ReportFilter(args, now)))
    requires DateDescending(fetched)
    requires args.year.Some? && args.year.value != "" ==> AllDigits(args.year.value)
    requires args.month.Some? ==> 1 <= args.month.value <= 12 && ReportYear(args, now) != ""
    ensures v.transactions == fetched
    ensures v.totalRevenue == TotalPendapatan(Select(table, ReportFilter(args, now)))
    ensures v.totalExpense == TotalPengeluaran(Select(table, ReportFilter(args, now)))
    ensures args.month.Some? ==>
      |v.chart.labels| == |v.chart.revenue| == DaysInMonth(DigitsValue(ReportYear(args, now)), args.month.value)
    ensures args.month.Some? ==>
      && |v.chart.expense| == |v.chart.labels|
      && forall k :: 0 <= k < |v.chart.labels| ==>
        && v.chart.labels[k] == IntToString(k + 1)
        && v.chart.revenue[k] == OnDate(fetched, DayKey(ReportYear(args, now), args.month.value, k + 1), Pendapatan)
        && v.chart.expense[k] == OnDate(fetched, DayKey(ReportYear(args, now), args.month.value, k + 1), Pengeluaran)
    ensures args.month.None? ==> |v.chart.labels| == |v.chart.revenue| == |v.chart.expense| == 12
    ensures args.month.None? ==> forall k :: 0 <= k < 12 ==>
      && v.chart.labels[k] == Take3(monthName[k + 1])
      && v.chart.revenue[k] == InMonth(fetched, k + 1, Pendapatan)
      && v.chart.expense[k] == InMonth(fetched, k + 1, Pengeluaran)
    ensures Sum(v.chart.revenue) == v.totalRevenue && Sum(v.chart.expense) == v.totalExpense
    ensures v.categoryLabels == Categories(fetched)
    ensures |v.categoryData| == |v.categoryLabels|
    ensures forall k :: 0 <= k < |v.categoryData| ==> v.categoryData[k] == CatTotal(fetched, v.categoryLabels[k])
    ensures Sum(v.categoryData) == v.totalExpense
    ensures v.selectedBulan == if args.month.Some? then args.month.value else now.month
    ensures v.selectedTahun == if ReportYear(args, now) != "" then DigitsValue(ReportYear(args, now)) else now.year
  {
    var f := ReportFilter(args, now);
    var year := ReportYear(args, now);
    if args.year.None? {
      assert year == Decimal(now.year);
    }
    assert year != "" ==> AllDigits(year);
    SumOfTipePermutation(fetched, Select(table, f), Pendapatan);
    SumOfTipePermutation(fetched, Select(table, f), Pengeluaran);
    var totalRevenue := TotalPendapatan(fetched);
    var totalExpense := TotalPengeluaran(fetched);
    var chart;
    if args.month.Some? {
      var m := args.month.value;
      chart := DailySeries(fetched, year, m);
      forall t | t in fetched ensures year == Pad(t.tanggal.year, 4) && t.tanggal.month == m {
        assert t in multiset(Select(table, f));
        SelectedRowsInMonth(table, f, m, t);
      }
      DaysTotalIsTotal(fetched, year, m, Pendapatan);
      DaysTotalIsTotal(fetched, year, m, Pengeluaran);
      SumOfDays(chart.revenue, fetched, year, m, Pendapatan);
      SumOfDays(chart.expense, fetched, year, m, Pengeluaran);
    } else {
      chart := MonthlySeries(fetched, monthName);
      MonthsTotalIsTotal(fetched, Pendapatan);
      MonthsTotalIsTotal(fetched, Pengeluaran);
      SumOfMonths(chart.revenue, fetched, Pendapatan);
      SumOfMonths(chart.expense, fetched, Pengeluaran);
    }
    var labels, data := ReportCategories(fetched);
    CategorySumsAreExpense(fetched, data);
    var bulan := if args.month.Some? then args.month.value else now.month;
    var tahun := if year != "" then DigitsValue(year) else now.year;
    v := ReportView(fetched, totalRevenue, totalExpense, chart, labels, data, bulan, tahun);
  }
}
