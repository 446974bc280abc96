/** The cash-flow page (`cashflow_index`, lines 211-307): the filtered rows
    newest first, their totals, the category breakdown, and the figures of
    the current calendar month. */
module Cashflow {
  import opened Wrappers
  import opened Text
  import opened Calendar
  import opened Transactions
  import opened Filters
  import opened Ordering
  import opened Breakdown
  import opened Trailing

  /** `WHERE strftime('%m', tanggal) = ? AND strftime('%Y', tanggal) = ?`
      with `now.strftime('%m')` and `now.strftime('%Y')`. */
  function CurrentMonthFilter(now: Day): CashflowFilter {
    CashflowFilter("", "", Some(now.month), Pad(now.year, 4))
  }

  /** The current-month rows are the rows of `now`'s calendar month. */
  lemma CurrentMonthIsCalendarMonth(now: Day, t: Transaction)
    ensures Matches(CurrentMonthFilter(now), t) <==> t.tanggal.year == now.year && t.tanggal.month == now.month
  {
    var c := CalendarFilter(None, None, Some(now.month), Some(now.year));
    assert Encode(c) == CurrentMonthFilter(now);
    MatchesIsCalendarTest(c, t);
  }

  lemma {:induction false} CurrentMonthFigures(table: seq<Transaction>, now: Day, tipe: string)
    ensures SumOfTipe(Select(table, CurrentMonthFilter(now)), tipe) == MonthSum(table, now.year, now.month, tipe)
    ensures |Select(table, CurrentMonthFilter(now))| == MonthCount(table, now.year, now.month)
  {
    if table != [] {
      var p := table[..|table| - 1];
      var t := table[|table| - 1];
      CurrentMonthFigures(p, now, tipe);
      CurrentMonthIsCalendarMonth(now, t);
      var s := Select(p, CurrentMonthFilter(now));
      if Matches(CurrentMonthFilter(now), t) {
        assert (s + [t])[..|s|] == s;
      } else {
        assert Select(table, CurrentMonthFilter(now)) == s;
      }
    }
  }

  datatype CashflowView = CashflowView(
    transactions: seq<Transaction>,
    totalPendapatan: int,
    totalPengeluaran: int,
    categoryBreakdown: seq<CategorySummary>,
    monthlyRevenue: int,
    monthlyExpense: int,
    monthlyTransactionsCount: nat)

  /** The handler after `login_required`, following the evident intent of
      the quantity code (a `dict.get` on the row). */
  method CashflowIndex(table: seq<Transaction>, f: CashflowFilter, now: Day) returns (v: CashflowView)
    ensures v.transactions == Query(table, f)
    ensures v.totalPendapatan == TotalPendapatan(Select(table, f))
    ensures v.totalPengeluaran == TotalPengeluaran(Select(table, f))
    ensures v.categoryBreakdown == BreakdownOf(Query(table, f))
    ensures SumHarga(v.categoryBreakdown) == v.totalPengeluaran
    ensures v.monthlyRevenue == MonthSum(table, now.year, now.month, Pendapatan)
    ensures v.monthlyExpense == MonthSum(table, now.year, now.month, Pengeluaran)
    ensures v.monthlyTransactionsCount == MonthCount(table, now.year, now.month)
  {
    var clauses, params := BuildCashflowQuery(f);
    var transactions := Query(table, f);
    QueryTotals(table, f);
    var totalPendapatan := TotalPendapatan(transactions);
    var totalPengeluaran := TotalPengeluaran(transactions);
    var breakdown := CategoryBreakdown(transactions);
    BreakdownTotals(transactions);
    var monthly := Select(table, CurrentMonthFilter(now));
    CurrentMonthFigures(table, now, Pendapatan);
    CurrentMonthFigures(table, now, Pengeluaran);
    v := CashflowView(transactions, totalPendapatan, totalPengeluaran, breakdown,
                      TotalPendapatan(monthly), TotalPengeluaran(monthly), |monthly|);
  }

  // ---------------------------------------------------------------------------
  // The worked example: one sale and one purchase of staples in March 2024

  const Sale: Transaction := Transaction(1, Date(2024, 3, 1), Pendapatan, "Penjualan", "", 100000, None, 1)
  const Staples: Transaction := Transaction(2, Date(2024, 3, 2), Pengeluaran, "Bahan Pokok", "", 30000, None, 1)

  const NoFilter: CashflowFilter := CashflowFilter("", "", None, "")

  /** Income 100000, expense 30000, net 70000, margin 70, and one category
      with one item and no quantity. */
  lemma WorkedExample()
    ensures TotalPendapatan(Select([Sale, Staples], NoFilter)) == 100000
    ensures TotalPengeluaran(Select([Sale, Staples], NoFilter)) == 30000
    ensures NetProfit(100000, 30000) == 70000
    ensures ProfitMargin(100000, 30000) == 70.0
    ensures BreakdownOf([Staples, Sale]) == [CategorySummary("Bahan Pokok", 30000, 1, "-")]
  {
    var rows := [Sale, Staples];
    assert Matches(NoFilter, Sale) && Matches(NoFilter, Staples);
    assert rows[..1] == [Sale];
    assert Select([Sale], NoFilter) == [Sale];
    assert Select(rows, NoFilter) == rows;
    assert [Sale][..0] == [];
    assert SumOfTipe([Sale], Pendapatan) == 100000 && SumOfTipe([Sale], Pengeluaran) == 0;
    assert SumOfTipe(rows, Pendapatan) == 100000 && SumOfTipe(rows, Pengeluaran) == 30000;
    var listed := [Staples, Sale];
    assert listed[..1] == [Staples];
    assert [Staples][..0] == [];
    assert CatTotal([Staples], "Bahan Pokok") == 30000 && CatCount([Staples], "Bahan Pokok") == 1;
    assert CatTotal(listed, "Bahan Pokok") == 30000 && CatCount(listed, "Bahan Pokok") == 1;
    assert Categories([Staples]) == ["Bahan Pokok"];
    assert Categories(listed) == ["Bahan Pokok"];
    assert Segments([Staples], "Bahan Pokok") == [];
    assert Segments(listed, "Bahan Pokok") == [];
    assert ["Bahan Pokok"][..0] == [];
    assert Entries(listed, ["Bahan Pokok"]) == [SummaryOf(listed, "Bahan Pokok")];
  }

  /** The rows show as listed above: the purchase (the later date) first. */
  lemma WorkedExampleOrder()
    ensures Query([Sale, Staples], NoFilter) == [Staples, Sale]
  {
    var rows := [Sale, Staples];
    assert rows[..1] == [Sale];
    assert Select([Sale], NoFilter) == [Sale];
    assert Select(rows, NoFilter) == rows;
    assert SortNewest([Sale]) == [Sale];
    assert ListedFirst(Staples, Sale);
  }

  /** The code as written raises on the worked example: its only expense row
      is "Bahan Pokok", so line 260 reaches `sqlite3.Row.get`. */
  lemma WorkedExampleRaisesAsWritten()
    ensures BreakdownAsWritten(Query([Sale, Staples], NoFilter)).None?
  {
    WorkedExampleOrder();
    assert ReachesRowGet([Staples, Sale][0]);
  }
}
