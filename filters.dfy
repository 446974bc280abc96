/** The row selection of the cash-flow page (`cashflow_index`) and of the
    report page (`laporan_cashflow`): optional request arguments turned into a
    conjunction of SQL tests on the TEXT column `tanggal`. */
module Filters {
  import opened Wrappers
  import opened Text
  import opened Calendar
  import opened Transactions

  /** The request arguments. An empty string stands for an argument that is
      absent or empty (both are falsy in `if date_from:`); `month` holds
      `int(month)` when the argument is non-empty. */
  datatype CashflowFilter = CashflowFilter(
    dateFrom: string,
    dateTo: string,
    month: Option<int>,
    year: string)

  /** `strftime('%m', tanggal)`. */
  function MonthField(t: Transaction): string {
    Pad(t.tanggal.month, 2)
  }

  /** `strftime('%Y', tanggal)`. */
  function YearField(t: Transaction): string {
    Pad(t.tanggal.year, 4)
  }

  /** The WHERE clause the handler assembles, as a test on one row. */
  predicate Matches(f: CashflowFilter, t: Transaction) {
    && (f.dateFrom == "" || LexLe(f.dateFrom, Iso(t.tanggal)))
    && (f.dateTo == "" || LexLe(Iso(t.tanggal), f.dateTo))
    && (f.month.None? || MonthField(t) == Format02(f.month.value))
    && (f.year == "" || YearField(t) == f.year)
  }

  /** `SELECT * FROM transactions WHERE ...`, in table order. */
  function Select(table: seq<Transaction>, f: CashflowFilter): (r: seq<Transaction>)
    ensures forall t :: t in r <==> t in table && Matches(f, t)
    ensures |r| <= |table|
  {
    if table == [] then []
    else
      var t := table[|table| - 1];
      Select(table[..|table| - 1], f) + (if Matches(f, t) then [t] else [])
  }

  // ---------------------------------------------------------------------------
  // What the filter means on the calendar

  /** The same filter stated with calendar values. */
  datatype CalendarFilter = CalendarFilter(
    from: Option<Day>,
    to: Option<Day>,
    month: Option<int>,
    year: Option<int>)

  predicate CalendarMatches(c: CalendarFilter, t: Transaction) {
    && (c.from.None? || AtOrBefore(c.from.value, t.tanggal))
    && (c.to.None? || AtOrBefore(t.tanggal, c.to.value))
    && (c.month.None? || t.tanggal.month == c.month.value)
    && (c.year.None? || t.tanggal.year == c.year.value)
  }

  /** The request a browser sends for a calendar filter: ISO dates and a
      four-digit year. */
  function Encode(c: CalendarFilter): (f: CashflowFilter)
    requires c.year.Some? ==> 0 <= c.year.value <= 9999
    ensures c.from.None? <==> f.dateFrom == ""
    ensures c.to.None? <==> f.dateTo == ""
    ensures c.year.None? <==> f.year == ""
  {
    CashflowFilter(
      if c.from.Some? then Iso(c.from.value) else "",
      if c.to.Some? then Iso(c.to.value) else "",
      c.month,
      if c.year.Some? then Pad(c.year.value, 4) else "")
  }

  /** A row is selected iff every supplied filter holds: `date_from` and
      `date_to` are inclusive calendar bounds, `month` and `year` compare the
      date's fields, and an absent filter imposes nothing. */
  lemma MatchesIsCalendarTest(c: CalendarFilter, t: Transaction)
    requires c.year.Some? ==> 0 <= c.year.value <= 9999
    ensures Matches(Encode(c), t) <==> CalendarMatches(c, t)
  {
    if c.from.Some? { IsoLeIsAtOrBefore(c.from.value, t.tanggal); }
    if c.to.Some? { IsoLeIsAtOrBefore(t.tanggal, c.to.value); }
    if c.month.Some? { Pad2MatchesFormat02(t.tanggal.month, c.month.value); }
    if c.year.Some? { PadInjective(t.tanggal.year, c.year.value, 4); }
  }

  /** A month without a year selects that month in every year. */
  lemma MonthWithoutYear(m: int, t: Transaction)
    ensures Matches(CashflowFilter("", "", Some(m), ""), t) <==> t.tanggal.month == m
  {
    Pad2MatchesFormat02(t.tanggal.month, m);
  }

  lemma PadOf2024()
    ensures Pad(2024, 4) == "2024"
  {
    assert Pad(2, 1) == "2";
    assert Pad(20, 2) == "20";
    assert Pad(202, 3) == "202";
  }

  const JanuaryRange: CalendarFilter :=
    CalendarFilter(Some(Date(2024, 1, 10)), Some(Date(2024, 1, 20)), None, None)

  /** The browser sends 10 to 20 January 2024 as two ISO strings. */
  lemma JanuaryRangeEncoded()
    ensures Encode(JanuaryRange) == CashflowFilter("2024-01-10", "2024-01-20", None, "")
  {
    PadOf2024();
    assert Pad(1, 2) == "01";
    assert Pad(10, 2) == "10";
    assert Pad(20, 2) == "20";
  }

  /** `date_from=2024-01-10&date_to=2024-01-20` drops a row dated before
      10 January 2024 and keeps one dated from the 10th to the 20th, both
      days included. */
  lemma DateRangeExample(early: Transaction, inside: Transaction)
    requires Before(early.tanggal, Date(2024, 1, 10))
    requires AtOrBefore(Date(2024, 1, 10), inside.tanggal) && AtOrBefore(inside.tanggal, Date(2024, 1, 20))
    ensures !Matches(CashflowFilter("2024-01-10", "2024-01-20", None, ""), early)
    ensures Matches(CashflowFilter("2024-01-10", "2024-01-20", None, ""), inside)
  {
    JanuaryRangeEncoded();
    MatchesIsCalendarTest(JanuaryRange, early);
    MatchesIsCalendarTest(JanuaryRange, inside);
  }

  // ---------------------------------------------------------------------------
  // The query as the handlers build it

  /** One `AND ...` fragment with a `?` placeholder. */
  datatype Clause =
    | TanggalAtLeast  // " AND tanggal >= ?"
    | TanggalAtMost   // " AND tanggal <= ?"
    | MonthIs         // " AND strftime('%m', tanggal) = ?"
    | YearIs          // " AND strftime('%Y', tanggal) = ?"

  predicate ClauseHolds(c: Clause, param: string, t: Transaction) {
    match c
    case TanggalAtLeast => LexLe(param, Iso(t.tanggal))
    case TanggalAtMost => LexLe(Iso(t.tanggal), param)
    case MonthIs => MonthField(t) == param
    case YearIs => YearField(t) == param
  }

  /** `WHERE 1=1` followed by the fragments, the i-th bound to `params[i]`. */
  predicate QueryHolds(clauses: seq<Clause>, params: seq<string>, t: Transaction)
    requires |clauses| == |params|
  {
    forall i :: 0 <= i < |clauses| ==> ClauseHolds(clauses[i], params[i], t)
  }

  /** Lines 223-242: the query text and the parameter list grow together. */
  method BuildCashflowQuery(f: CashflowFilter) returns (clauses: seq<Clause>, params: seq<string>)
    ensures |clauses| == |params| <= 4
    ensures forall t :: QueryHolds(clauses, params, t) <==> Matches(f, t)
  {
    clauses, params := [], [];
    if f.dateFrom != "" {
      clauses, params := clauses + [TanggalAtLeast], params + [f.dateFrom];
    }
    if f.dateTo != "" {
      clauses, params := clauses + [TanggalAtMost], params + [f.dateTo];
    }
    if f.month.Some? {
      clauses, params := clauses + [MonthIs], params + [Format02(f.month.value)];
    }
    if f.year != "" {
      clauses, params := clauses + [YearIs], params + [f.year];
    }
    forall t ensures QueryHolds(clauses, params, t) <==> Matches(f, t) {
      QueryHoldsAsConjunction(f, clauses, params, t);
    }
  }

  lemma QueryHoldsAsConjunction(f: CashflowFilter, clauses: seq<Clause>, params: seq<string>, t: Transaction)
    requires clauses == (if f.dateFrom != "" then [TanggalAtLeast] else [])
                        + (if f.dateTo != "" then [TanggalAtMost] else [])
                        + (if f.month.Some? then [MonthIs] else [])
                        + (if f.year != "" then [YearIs] else [])
    requires params == (if f.dateFrom != "" then [f.dateFrom] else [])
                       + (if f.dateTo != "" then [f.dateTo] else [])
                       + (if f.month.Some? then [Format02(f.month.value)] else [])
                       + (if f.year != "" then [f.year] else [])
    ensures |clauses| == |params|
    ensures QueryHolds(clauses, params, t) <==> Matches(f, t)
  {
    var a := if f.dateFrom != "" then 1 else 0;
    var b := a + (if f.dateTo != "" then 1 else 0);
    var c := b + (if f.month.Some? then 1 else 0);
    assert f.dateFrom != "" ==> clauses[0] == TanggalAtLeast && params[0] == f.dateFrom;
    assert f.dateTo != "" ==> clauses[a] == TanggalAtMost && params[a] == f.dateTo;
    assert f.month.Some? ==> clauses[b] == MonthIs && params[b] == Format02(f.month.value);
    assert f.year != "" ==> clauses[c] == YearIs && params[c] == f.year;
  }

  /** The report's arguments: `month`, and `year` which defaults to the
      current year when absent (`request.args.get('year', datetime.now().year)`). */
  datatype ReportArgs = ReportArgs(month: Option<int>, year: Option<string>)

  /** `str(year)` after the default is applied. */
  function ReportYear(args: ReportArgs, now: Day): string {
    if args.year.Some? then args.year.value else IntToString(now.year)
  }

  /** The report filter is the cash-flow filter without date bounds. */
  function ReportFilter(args: ReportArgs, now: Day): CashflowFilter {
    CashflowFilter("", "", args.month, ReportYear(args, now))
  }

  /** Lines 382-393. */
  method BuildReportQuery(args: ReportArgs, now: Day) returns (clauses: seq<Clause>, params: seq<string>)
    ensures |clauses| == |params| <= 2
    ensures forall t :: QueryHolds(clauses, params, t) <==> Matches(ReportFilter(args, now), t)
  {
    var year := ReportYear(args, now);
    clauses, params := [], [];
    if args.month.Some? {
      clauses, params := clauses + [MonthIs], params + [Format02(args.month.value)];
    }
    if year != "" {
      clauses, params := clauses + [YearIs], params + [year];
    }
    forall t ensures QueryHolds(clauses, params, t) <==> Matches(ReportFilter(args, now), t) {
      QueryHoldsAsConjunction(ReportFilter(args, now), clauses, params, t);
    }
  }

  /** With no `year` argument the report keeps the rows of the current year
      only, and with no `month` either it keeps all of them. */
  lemma ReportDefaultsToCurrentYear(args: ReportArgs, now: Day, t: Transaction)
    requires args.year.None? && now.year >= 1000
    ensures Matches(ReportFilter(args, now), t) ==> t.tanggal.year == now.year
    ensures args.month.None? && t.tanggal.year == now.year ==> Matches(ReportFilter(args, now), t)
  {
    DecimalIsPad(now.year, 4);
    PadInjective(t.tanggal.year, now.year, 4);
  }
}
