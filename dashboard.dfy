/** The admin and view-only dashboards and the JSON endpoints beside them
    (app.py lines 111-209, 459-547, 706-826). All of them read "this month"
    as `tanggal >= <first of the current month>`, so rows dated after the
    current month count as well. */
module Dashboard {
  import opened Wrappers
  import opened Text
  import opened Calendar
  import opened Transactions
  import opened Ordering
  import opened Breakdown
  import opened Report
  import opened Trailing
  import opened Auth

  // ---------------------------------------------------------------------------
  // "This month"

  /** `now.replace(day=1).strftime('%Y-%m-%d')`. */
  function MonthStart(now: Day): string {
    Iso(FirstOfMonth(now))
  }

  /** `WHERE tanggal >= ?`, comparing TEXT. */
  function Since(rows: seq<Transaction>, start: string): (r: seq<Transaction>)
    ensures forall t :: t in r <==> t in rows && LexLe(start, Iso(t.tanggal))
  {
    if rows == [] then []
    else
      var t := rows[|rows| - 1];
      Since(rows[..|rows| - 1], start) + (if LexLe(start, Iso(t.tanggal)) then [t] else [])
  }

  /** The rows dated on or after `d` in the calendar. */
  function OnOrAfter(rows: seq<Transaction>, d: Date): (r: seq<Transaction>)
    ensures forall t :: t in r <==> t in rows && AtOrBefore(d, t.tanggal)
  {
    if rows == [] then []
    else
      var t := rows[|rows| - 1];
      OnOrAfter(rows[..|rows| - 1], d) + (if AtOrBefore(d, t.tanggal) then [t] else [])
  }

  /** The TEXT comparison selects exactly the rows on or after the day. */
  lemma {:induction false} SinceIsOnOrAfter(rows: seq<Transaction>, d: Day)
    ensures Since(rows, Iso(d)) == OnOrAfter(rows, d)
  {
    if rows != [] {
      SinceIsOnOrAfter(rows[..|rows| - 1], d);
      IsoLeIsAtOrBefore(d, rows[|rows| - 1].tanggal);
    }
  }

  /** The month-to-date figures are the calendar month's figures plus those
      of every row dated after it. */
  lemma {:induction false} MonthToDateSplit(rows: seq<Transaction>, now: Day, tipe: string)
    ensures SumOfTipe(OnOrAfter(rows, FirstOfMonth(now)), tipe)
      == MonthSum(rows, now.year, now.month, tipe) + SumOfTipe(OnOrAfter(rows, FirstOfNextMonth(now)), tipe)
    ensures |OnOrAfter(rows, FirstOfMonth(now))|
      == MonthCount(rows, now.year, now.month) + |OnOrAfter(rows, FirstOfNextMonth(now))|
  {
    if rows != [] {
      var p := rows[..|rows| - 1];
      var t := rows[|rows| - 1];
      MonthToDateSplit(p, now, tipe);
      var inMonth := t.tanggal.year == now.year && t.tanggal.month == now.month;
      var later := AtOrBefore(FirstOfNextMonth(now), t.tanggal);
      MonthWindow(now, t.tanggal);
      assert AtOrBefore(FirstOfMonth(now), t.tanggal) <==> inMonth || later;
      assert !(inMonth && later);
      var ea := if AtOrBefore(FirstOfMonth(now), t.tanggal) then [t] else [];
      var eb := if later then [t] else [];
      assert OnOrAfter(rows, FirstOfMonth(now)) == OnOrAfter(p, FirstOfMonth(now)) + ea;
      assert OnOrAfter(rows, FirstOfNextMonth(now)) == OnOrAfter(p, FirstOfNextMonth(now)) + eb;
      assert [t][..0] == [];
      SumOfTipeAppend(OnOrAfter(p, FirstOfMonth(now)), ea, tipe);
      SumOfTipeAppend(OnOrAfter(p, FirstOfNextMonth(now)), eb, tipe);
    }
  }

  /** A row dated next month counts as "this month" on the dashboards. */
  lemma FutureRowCounts(now: Day, t: Transaction)
    requires t.tanggal == FirstOfNextMonth(now) && t.tipe == Pendapatan
    ensures MonthSum([t], now.year, now.month, Pendapatan) == 0
    ensures SumOfTipe(OnOrAfter([t], FirstOfMonth(now)), Pendapatan) == t.jumlah
  {
    assert [t][..0] == [];
  }

  datatype MonthFigures = MonthFigures(totalRevenue: int, totalExpense: int, totalTransactions: nat)

  /** The three `SELECT ... WHERE ... tanggal >= ?` figures. */
  function Figures(table: seq<Transaction>, now: Day): (f: MonthFigures)
    ensures f.totalRevenue == TotalPendapatan(OnOrAfter(table, FirstOfMonth(now)))
    ensures f.totalExpense == TotalPengeluaran(OnOrAfter(table, FirstOfMonth(now)))
    ensures f.totalTransactions == |OnOrAfter(table, FirstOfMonth(now))|
  {
    var since := Since(table, MonthStart(now));
    SinceIsOnOrAfter(table, FirstOfMonth(now));
    MonthFigures(TotalPendapatan(since), TotalPengeluaran(since), |since|)
  }

  // ---------------------------------------------------------------------------
  // Expense groups (`GROUP BY kategori`)

  datatype Group = Group(kategori: string, total: int)

  /** `SELECT kategori, COALESCE(SUM(jumlah), 0) ... WHERE tipe =
      'pengeluaran' ... GROUP BY kategori`, one group per category in order
      of first occurrence. */
  function ExpenseGroups(rows: seq<Transaction>): seq<Group> {
    var cs := Categories(rows);
    seq(|cs|, k requires 0 <= k < |cs| => Group(cs[k], CatTotal(rows, cs[k])))
  }

  function Labels(gs: seq<Group>): (r: seq<string>)
    ensures |r| == |gs|
  {
    if gs == [] then [] else [gs[0].kategori] + Labels(gs[1..])
  }

  function Totals(gs: seq<Group>): (r: seq<int>)
    ensures |r| == |gs|
  {
    if gs == [] then [] else [gs[0].total] + Totals(gs[1..])
  }

  lemma {:induction false} LabelsAt(gs: seq<Group>, k: int)
    requires 0 <= k < |gs|
    ensures Labels(gs)[k] == gs[k].kategori && Totals(gs)[k] == gs[k].total
  {
    if k > 0 {
      LabelsAt(gs[1..], k - 1);
    }
  }

  /** One group per expense category, distinct, each with its category's
      total, together summing to the expense total. */
  lemma ExpenseGroupsMeaning(rows: seq<Transaction>)
    ensures |ExpenseGroups(rows)| == |Categories(rows)|
    ensures forall j, k :: 0 <= j < k < |ExpenseGroups(rows)| ==>
      ExpenseGroups(rows)[j].kategori != ExpenseGroups(rows)[k].kategori
    ensures forall k :: 0 <= k < |ExpenseGroups(rows)| ==>
      CatCount(rows, ExpenseGroups(rows)[k].kategori) > 0
      && ExpenseGroups(rows)[k].total == CatTotal(rows, ExpenseGroups(rows)[k].kategori)
    ensures forall c :: CatCount(rows, c) > 0 ==> c in Labels(ExpenseGroups(rows))
    ensures Sum(Totals(ExpenseGroups(rows))) == TotalPengeluaran(rows)
  {
    var gs := ExpenseGroups(rows);
    var cs := Categories(rows);
    CategoriesDistinct(rows);
    forall k | 0 <= k < |gs| ensures CatCount(rows, gs[k].kategori) > 0 {
      CategoriesMembership(rows, cs[k]);
    }
    forall c | CatCount(rows, c) > 0 ensures c in Labels(gs) {
      CategoriesMembership(rows, c);
      var k :| 0 <= k < |cs| && cs[k] == c;
      LabelsAt(gs, k);
    }
    forall k | 0 <= k < |gs| ensures Totals(gs)[k] == CatTotal(rows, cs[k]) {
      LabelsAt(gs, k);
    }
    CategorySumsAreExpense(rows, Totals(gs));
  }

  // ---------------------------------------------------------------------------
  // `ORDER BY total DESC` for the distribution endpoint

  predicate ByTotal(gs: seq<Group>) {
    forall i :: 0 < i < |gs| ==> gs[i - 1].total >= gs[i].total
  }

  /** Putting a group in front keeps the order when its total is at least
      the old first one's. */
  lemma ByTotalCons(g: Group, gs: seq<Group>)
    requires ByTotal(gs) && (gs != [] ==> g.total >= gs[0].total)
    ensures ByTotal([g] + gs)
  {
    var r := [g] + gs;
    forall i | 0 < i < |r| ensures r[i - 1].total >= r[i].total {
      if i > 1 {
        assert r[i - 1] == gs[i - 2] && r[i] == gs[i - 1];
      }
    }
  }

  function InsertByTotal(g: Group, gs: seq<Group>): (r: seq<Group>)
    requires ByTotal(gs)
    ensures ByTotal(r)
    ensures multiset(r) == multiset(gs) + multiset{g}
    ensures r[0] == g || (gs != [] && r[0] == gs[0])
  {
    if gs == [] then [g]
    else if g.total >= gs[0].total then
      ByTotalCons(g, gs);
      [g] + gs
    else
      var tail := gs[1..];
      assert ByTotal(tail) by {
        forall i | 0 < i < |tail| ensures tail[i - 1].total >= tail[i].total {
          assert tail[i - 1] == gs[i] && tail[i] == gs[i + 1];
        }
      }
      var rest := InsertByTotal(g, tail);
      assert gs == [gs[0]] + tail;
      ByTotalCons(gs[0], rest);
      [gs[0]] + rest
  }

  /** The groups, largest total first (insertion sort; equal totals keep
      their order). */
  function SortByTotal(gs: seq<Group>): (r: seq<Group>)
    ensures ByTotal(r)
    ensures multiset(r) == multiset(gs)
  {
    if gs == [] then []
    else
      assert gs == [gs[0]] + gs[1..];
      InsertByTotal(gs[0], SortByTotal(gs[1..]))
  }

  /** The sorted groups are the month's categories, as many as there are. */
  lemma SortedGroupsCover(rows: seq<Transaction>)
    ensures |SortByTotal(ExpenseGroups(rows))| == |Categories(rows)|
    ensures forall c :: c in Labels(SortByTotal(ExpenseGroups(rows))) <==> c in Categories(rows)
  {
    var gs := ExpenseGroups(rows);
    var cs := Categories(rows);
    var sorted := SortByTotal(gs);
    assert |sorted| == |multiset(sorted)| == |multiset(gs)| == |gs|;
    forall c | c in Labels(sorted) ensures c in cs {
      var k :| 0 <= k < |sorted| && Labels(sorted)[k] == c;
      LabelsAt(sorted, k);
      assert sorted[k] in multiset(gs);
    }
    forall c | c in cs ensures c in Labels(sorted) {
      var j :| 0 <= j < |cs| && cs[j] == c;
      assert gs[j] in multiset(sorted);
      var k :| 0 <= k < |sorted| && sorted[k] == gs[j];
      LabelsAt(sorted, k);
    }
  }

  /** Each sorted group carries its category's total, largest first. */
  lemma SortedGroupsTotals(rows: seq<Transaction>)
    ensures forall k :: 0 <= k < |SortByTotal(ExpenseGroups(rows))| ==>
      SortByTotal(ExpenseGroups(rows))[k].total == CatTotal(rows, Labels(SortByTotal(ExpenseGroups(rows)))[k])
    ensures forall j, k :: 0 <= j < k < |SortByTotal(ExpenseGroups(rows))| ==>
      SortByTotal(ExpenseGroups(rows))[j].total >= SortByTotal(ExpenseGroups(rows))[k].total
  {
    var gs := ExpenseGroups(rows);
    var sorted := SortByTotal(gs);
    forall k | 0 <= k < |sorted| ensures sorted[k].total == CatTotal(rows, Labels(sorted)[k]) {
      LabelsAt(sorted, k);
      assert sorted[k] in multiset(gs);
    }
    forall j, k | 0 <= j < k < |sorted| ensures sorted[j].total >= sorted[k].total {
      ByTotalPairwise(sorted, j, k);
    }
  }

  function AsReals(gs: seq<Group>): (r: seq<real>)
    ensures |r| == |gs|
    ensures forall k :: 0 <= k < |gs| ==> r[k] == gs[k].total as real
  {
    seq(|gs|, k requires 0 <= k < |gs| => gs[k].total as real)
  }

  datatype Distribution = Distribution(labels: seq<string>, data: seq<real>)

  /** The sample answer sent when the month has no expense group. */
  const Fallback: Distribution :=
    Distribution(["Bahan Pokok", "Barang", "Pengeluaran lain_lain"], [90.9, 5.3, 3.8])

  /** `/api/expense-distribution` after `login_required`: the expense totals
      of the month to date, largest first, or the fallback sample when
      there are none. The two cannot be confused: real totals are whole
      numbers. */
  function ExpenseDistribution(table: seq<Transaction>, now: Day): (d: Distribution)
    ensures d == Fallback <==> forall t :: t in OnOrAfter(table, FirstOfMonth(now)) ==> !IsExpense(t)
    ensures d != Fallback ==>
      var since := OnOrAfter(table, FirstOfMonth(now));
      && |d.labels| == |Categories(since)|
      && (forall c :: c in d.labels <==> c in Categories(since))
      && |d.data| == |d.labels|
      && (forall k :: 0 <= k < |d.data| ==> d.data[k] == CatTotal(since, d.labels[k]) as real)
      && (forall j, k :: 0 <= j < k < |d.data| ==> d.data[j] >= d.data[k])
  {
    var since := Since(table, MonthStart(now));
    SinceIsOnOrAfter(table, FirstOfMonth(now));
    var sorted := SortByTotal(ExpenseGroups(since));
    NoGroupIffNoExpense(since);
    SortedGroupsCover(since);
    SortedGroupsTotals(since);
    if sorted == [] then Fallback
    else
      RealsAreNotFallback(sorted);
      Distribution(Labels(sorted), AsReals(sorted))
  }

  lemma NoGroupIffNoExpense(rows: seq<Transaction>)
    ensures SortByTotal(ExpenseGroups(rows)) == [] <==> forall t :: t in rows ==> !IsExpense(t)
  {
    CategoriesEmpty(rows);
    ExpenseGroupsMeaning(rows);
    assert |SortByTotal(ExpenseGroups(rows))| == |multiset(ExpenseGroups(rows))|;
  }

  /** No total of whole numbers reads as the fallback's 90.9. */
  lemma RealsAreNotFallback(gs: seq<Group>)
    requires gs != []
    ensures Distribution(Labels(gs), AsReals(gs)) != Fallback
  {
    assert AsReals(gs)[0] == gs[0].total as real;
    assert AsReals(gs)[0] != 90.9;
  }

  lemma {:induction false} ByTotalPairwise(gs: seq<Group>, i: int, j: int)
    requires ByTotal(gs) && 0 <= i < j < |gs|
    ensures gs[i].total >= gs[j].total
    decreases j - i
  {
    if i + 1 < j {
      ByTotalPairwise(gs, i + 1, j);
    }
  }

  // ---------------------------------------------------------------------------
  // Recent rows (`ORDER BY tanggal DESC, id DESC LIMIT 10`)

  function Recent(table: seq<Transaction>): (r: seq<Transaction>)
    ensures |r| == if |table| < 10 then |table| else 10
    ensures Newest(r)
    ensures multiset(r) <= multiset(table)
  {
    var s := SortNewest(table);
    assert |s| == |multiset(s)| == |multiset(table)| == |table|;
    var n := if |s| < 10 then |s| else 10;
    assert s == s[..n] + s[n..];
    assert multiset(s) == multiset(s[..n]) + multiset(s[n..]);
    s[..n]
  }

  /** Every shown row may be listed before every row left out. */
  lemma RecentAreNewest(table: seq<Transaction>, i: int, t: Transaction)
    requires 0 <= i < |Recent(table)|
    requires t in multiset(table) - multiset(Recent(table))
    ensures ListedFirst(Recent(table)[i], t)
  {
    var s := SortNewest(table);
    var n := |Recent(table)|;
    assert s == s[..n] + s[n..];
    assert t in multiset(s[n..]);
    var j :| 0 <= j < |s[n..]| && s[n..][j] == t;
    NewestPairwise(s, i, n + j);
  }

  // ---------------------------------------------------------------------------
  // The pages

  /** A handler either redirects (with the flashed notice, if any) or
      renders its view. */
  datatype Reply<V> = Redirect(notice: Option<Notice>, target: Page) | Render(view: V)

  /** The parts both dashboards show. */
  datatype Overview = Overview(
    totalRevenue: int,
    totalExpense: int,
    recent: seq<Transaction>,
    trend: seq<Bucket>,
    categoryLabels: seq<string>,
    categoryData: seq<int>,
    netProfit: int,
    totalUsers: nat)

  ghost predicate IsOverview(table: seq<Transaction>, users: seq<StoredUser>, now: Day, o: Overview)
    requires SeriesDefined(now)
  {
    var since := OnOrAfter(table, FirstOfMonth(now));
    && o.totalRevenue == TotalPendapatan(since)
    && o.totalExpense == TotalPengeluaran(since)
    && o.recent == Recent(table)
    && IsTrend(table, now, o.trend)
    && o.categoryLabels == Categories(since)
    && |o.categoryData| == |o.categoryLabels|
    && (forall k :: 0 <= k < |o.categoryData| ==> o.categoryData[k] == CatTotal(since, o.categoryLabels[k]))
    && o.netProfit == NetProfit(o.totalRevenue, o.totalExpense)
    && o.totalUsers == |users|
  }

  method MonthOverview(table: seq<Transaction>, users: seq<StoredUser>, now: Day) returns (o: Overview)
    requires SeriesDefined(now)
    ensures IsOverview(table, users, now, o)
    ensures Sum(o.categoryData) == o.totalExpense
  {
    var figures := Figures(table, now);
    var recent := Recent(table);
    var trend := TrailingSeries(table, now);
    var since := Since(table, MonthStart(now));
    SinceIsOnOrAfter(table, FirstOfMonth(now));
    var groups := ExpenseGroups(since);
    ExpenseGroupsMeaning(since);
    var labels := Labels(groups);
    var data := Totals(groups);
    forall k | 0 <= k < |groups| ensures labels[k] == Categories(since)[k] && data[k] == CatTotal(since, labels[k]) {
      LabelsAt(groups, k);
    }
    o := Overview(figures.totalRevenue, figures.totalExpense, recent, trend, labels, data,
                  NetProfit(figures.totalRevenue, figures.totalExpense), |users|);
  }

  datatype AdminView = AdminView(overview: Overview, totalTransactions: nat, profitMargin: real)

  /** `/admin/dashboard`. */
  method AdminDashboardPage(s: Session, table: seq<Transaction>, users: seq<StoredUser>, now: Day)
    returns (r: Reply<AdminView>)
    requires AdminPage(s) == Proceed ==> SeriesDefined(now)
    ensures AdminPage(s) != Proceed ==> r == Redirect(Some(AdminPage(s).notice), AdminPage(s).target)
    ensures AdminPage(s) == Proceed ==>
      && r.Render?
      && IsOverview(table, users, now, r.view.overview)
      && r.view.totalTransactions == |OnOrAfter(table, FirstOfMonth(now))|
      && r.view.profitMargin == ProfitMargin(r.view.overview.totalRevenue, r.view.overview.totalExpense)
  {
    var gate := AdminPage(s);
    if gate != Proceed {
      return Redirect(Some(gate.notice), gate.target);
    }
    var o := MonthOverview(table, users, now);
    var figures := Figures(table, now);
    r := Render(AdminView(o, figures.totalTransactions, ProfitMargin(o.totalRevenue, o.totalExpense)));
  }

  /** `/viewonly`: signed-in users whose role is not 'viewonly' are sent to
      the cash-flow page without a notice. */
  method ViewonlyPage(s: Session, table: seq<Transaction>, users: seq<StoredUser>, now: Day)
    returns (r: Reply<Overview>)
    requires LoginRequired(s) == Proceed && s.role == Some("viewonly") ==> SeriesDefined(now)
    ensures LoginRequired(s) != Proceed ==> r == Redirect(Some(PleaseLogin), LoginPage)
    ensures LoginRequired(s) == Proceed && s.role != Some("viewonly") ==> r == Redirect(None, CashflowIndex)
    ensures LoginRequired(s) == Proceed && s.role == Some("viewonly") ==>
      r.Render? && IsOverview(table, users, now, r.view)
  {
    if LoginRequired(s) != Proceed {
      return Redirect(Some(PleaseLogin), LoginPage);
    }
    if s.role != Some("viewonly") {
      return Redirect(None, CashflowIndex);
    }
    var o := MonthOverview(table, users, now);
    r := Render(o);
  }

  /** `/api/cashflow-trend`. */
  method TrendApi(s: Session, table: seq<Transaction>, now: Day) returns (r: Reply<seq<Bucket>>)
    requires s.username.Some? ==> SeriesDefined(now)
    ensures s.username.None? ==> r == Redirect(Some(PleaseLogin), LoginPage)
    ensures s.username.Some? ==> r.Render? && IsTrend(table, now, r.view)
  {
    if LoginRequired(s) != Proceed {
      return Redirect(Some(PleaseLogin), LoginPage);
    }
    var buckets := TrailingSeries(table, now);
    r := Render(buckets);
  }

  /** `/api/expense-distribution`. */
  function DistributionApi(s: Session, table: seq<Transaction>, now: Day): (r: Reply<Distribution>)
    ensures s.username.None? ==> r == Redirect(Some(PleaseLogin), LoginPage)
    ensures s.username.Some? ==> r == Render(ExpenseDistribution(table, now))
  {
    if LoginRequired(s) != Proceed then Redirect(Some(PleaseLogin), LoginPage)
    else Render(ExpenseDistribution(table, now))
  }

  datatype Stats = Stats(totalRevenue: int, totalExpense: int, totalTransactions: nat, totalUsers: nat, profit: int)

  /** `/api/dashboard-stats`. */
  function StatsApi(s: Session, table: seq<Transaction>, users: seq<StoredUser>, now: Day): (r: Reply<Stats>)
    ensures s.username.None? ==> r == Redirect(Some(PleaseLogin), LoginPage)
    ensures s.username.Some? ==>
      var since := OnOrAfter(table, FirstOfMonth(now));
      && r.Render?
      && r.view.totalRevenue == TotalPendapatan(since)
      && r.view.totalExpense == TotalPengeluaran(since)
      && r.view.totalTransactions == |since|
      && r.view.totalUsers == |users|
      && r.view.profit + r.view.totalExpense == r.view.totalRevenue
  {
    if LoginRequired(s) != Proceed then Redirect(Some(PleaseLogin), LoginPage)
    else
      var f := Figures(table, now);
      Render(Stats(f.totalRevenue, f.totalExpense, f.totalTransactions, |users|, f.totalRevenue - f.totalExpense))
  }
}
