# Makmur cash flow, modelled in Dafny

Makmur is a small Flask back office for a shop. It keeps a `transactions`
table in SQLite, one row per dated cash movement. Each row has a date
(`tanggal`, TEXT `YYYY-MM-DD`) and a type (`tipe`): `pendapatan` is income
and `pengeluaran` is expense. It also has a category (`kategori`), an amount
(`jumlah`) and an optional unit (`satuan`). A `users` table holds the
accounts.

The route handlers of `app.py` do the following:

- filter the rows by date range, month and year;
- total income and expense;
- build a per-category expense breakdown with a quantity text;
- chart the report by day or by month;
- show a trailing six-bucket trend and the month-to-date dashboard figures;
- sign users in, first against built-in demo accounts and then against the
  table;
- gate pages by role;
- add, edit and delete transactions and users.

`app_production.py` is a lighter deployment variant. It signs in with the
demo accounts only and handles a missing database connection.

The model keeps the handlers' own structure:

- The table is a `seq` of rows.
- The current time is a parameter (`now`).
- werkzeug's password check is a function parameter (`checkHash`).
- The session is an explicit `Session` value.
- Flashed messages are `Notice` tags.
- Handlers that loop (the breakdown dictionary, the chart lists, the login
  loop) are methods with loop invariants, proved against specification
  functions. The query builders, sequential `if`s in the source, are
  methods without loops.
- The two tables the handlers change in place are classes over sequences:
  `Store.TransactionStore` and `Users.UserTable`.

Modules, in dependency order:

| module | file | what it holds |
|---|---|---|
| Wrappers | wrappers.dfy | `Option` |
| Text | text.dfy | zero-padded digits, `str(int)`, `f"{n:02d}"`, SQLite's TEXT order, `" + "` joins |
| Calendar | calendar.dfy | Gregorian dates, `calendar.monthrange`, `d.strftime('%Y-%m-%d')`, `d - timedelta(days=n)` |
| Transactions | transactions.dfy | the row, totals by `tipe`, net profit and margin |
| Filters | filters.dfy | the cash-flow and report filters and the query builders |
| Ordering | ordering.dfy | `ORDER BY tanggal DESC, id DESC` |
| Breakdown | breakdown.dfy | the category breakdown of the cash-flow page, as intended and as written |
| Trailing | trailing.dfy | the six-bucket trend |
| Report | report.dfy | `laporan_cashflow` |
| Auth | auth.dfy | sign-in, sign-out, `login_required`, `admin_required`, `/` |
| Cashflow | cashflow.dfy | `cashflow_index` and a worked example |
| Dashboard | dashboard.dfy | the admin and view-only dashboards and the three JSON endpoints |
| Store | store.dfy | transaction add, edit lookup, update and delete |
| Users | users.dfy | user add, edit and delete |
| Production | production.dfy | the variant in `app_production.py` |

Where this model says a date is "before" another, it means calendar order.
The handlers compare the TEXT column with ISO strings.
`Calendar.IsoLtIsBefore` and `Calendar.IsoLeIsAtOrBefore` prove that
SQLite's byte-wise order on those strings is calendar order, for years 1 to
9999. Every date comparison in the proofs rests on these two lemmas.

Behaviour of the code that the model keeps as written, though it is easy to misread:

- The three dashboards read "this month" as `tanggal >= <first of the
  current month>` with no upper bound. Rows dated in later months count too.
  `Dashboard.MonthToDateSplit` and `Dashboard.FutureRowCounts` state this.
  The cash-flow page's own monthly figures do test the month and the year.
- The trend samples `now - 30*i` days. Two samples can fall in one month and
  a month can be skipped (`Trailing.MarchTheThirtyFirst`,
  `Trailing.MarchTheFirst`).
- A demo sign-in redirects to the admin dashboard whatever its role. The
  admin gate then sends a guest on to the cash-flow page
  (`Auth.DemoGuestIsBounced`).

## Model

| member | source | states |
|---|---|---|
| Text.Pad2MatchesFormat02 | app.py:234-236 | `strftime('%m')` of a month equals `f"{int(month):02d}"` exactly when the two numbers are equal |
| Calendar.DaysInMonth | app.py:408 | `calendar.monthrange`: 28 to 31 days; February has 29 in leap years and 28 otherwise; months 4, 6, 9 and 11 have 30; the 31-day months are 1, 3, 5, 7, 8, 10 and 12 |
| Calendar.IsoInjective | app.py:413 | two days have the same ISO text exactly when they are the same day |
| Calendar.IsoLtIsBefore | app.py:153-170 | `tanggal < ?` on ISO TEXT holds exactly when the first day is before the second in the calendar |
| Calendar.IsoLeIsAtOrBefore | app.py:226-232 | `tanggal >= ?` and `tanggal <= ?` on ISO TEXT are calendar order, both days included |
| Calendar.FirstOfMonth | app.py:152 | `replace(day=1)` is day 1 of the same year and month, not after the day |
| Calendar.FirstOfNextMonth | app.py:154-158 | the next month's first day, after the day; December rolls to January of the next year |
| Calendar.MonthWindow | app.py:161-168 | a day lies in `[first of d's month, first of the next month)` exactly when it is in d's calendar month |
| Calendar.MinusDays | app.py:151 | `now - timedelta(days=n)` is a valid day, not after `now`, and strictly before it when n > 0 |
| Calendar.MinusDaysIsStepBack | app.py:151 | the month-at-a-time subtraction equals stepping back one day n times |
| Calendar.MinusDaysSplit | app.py:151 | going back n + m days is going back n days and then m |
| Calendar.MinusDaysMonotone | app.py:151 | going back further never lands later |
| Calendar.MinusDaysMonthBound | app.py:151 | going back n days crosses at most 1 + n/28 month boundaries |
| Transactions.TotalsPartition | app.py:247-248 | every row's amount counts in exactly one of income, expense or neither |
| Transactions.OtherTipeCountsInNeither | app.py:247-248 | a row of any other `tipe` changes neither total |
| Transactions.SumOfTipePermutation | app.py:398-399 | the totals do not depend on the order of the rows |
| Transactions.NetProfit | app.py:192 | `net + expense == revenue`; the net is negative exactly when expense exceeds revenue |
| Transactions.ProfitMargin | app.py:193 | exactly 0 when revenue is not positive, else `margin * revenue == net * 100` |
| Transactions.MarginBounds | app.py:193 | with positive revenue: at most 100 for non-negative expense, exactly 100 with no expense, negative exactly when there is a loss |
| Filters.Select | app.py:223-244 | a row is selected exactly when it is in the table and matches the filter |
| Filters.Encode | app.py:217-220 | an absent date bound or year is an empty argument, and a present one is not |
| Filters.MatchesIsCalendarTest | app.py:223-244 | a row matches exactly when every supplied filter holds: inclusive calendar bounds, month of date, year of date; an absent filter imposes nothing |
| Filters.MonthWithoutYear | app.py:234-236 | a month with no year selects that month in every year |
| Filters.DateRangeExample | app.py:226-232 | `2024-01-10 .. 2024-01-20` drops every earlier row and keeps every row of those eleven days |
| Filters.BuildCashflowQuery | app.py:223-242 | at most four clauses, one parameter each; a row satisfies the built query exactly when it matches the filter |
| Filters.QueryHoldsAsConjunction | app.py:223-242 | the clauses in source order, bound position by position to their parameters, hold together exactly when the filter matches |
| Filters.BuildReportQuery | app.py:382-393 | at most two clauses; a row satisfies the built query exactly when it matches the month and the defaulted year |
| Filters.ReportDefaultsToCurrentYear | app.py:379 | with no `year` argument only rows of the current year are kept; with no `month` either, every row of the current year is kept |
| Ordering.Insert | app.py:242 | inserting into a newest-first list keeps it newest-first and adds exactly the row |
| Ordering.SortNewest | app.py:242 | the result is newest-first and a permutation of the input |
| Ordering.Query | app.py:223-244 | the result is newest-first and holds exactly the matching rows of the table |
| Ordering.QueryTotals | app.py:247-248 | totals over the ordered result equal totals over the matching rows |
| Ordering.NewestPairwise | app.py:242 | in a newest-first list every earlier row may be listed before every later one |
| Breakdown.FirstAt | app.py:253-255 | the index found is an expense row of that category, or the end |
| Breakdown.FirstAtIsFirst | app.py:253-255 | no expense row of the category comes before that index |
| Breakdown.Segment | app.py:264 | `f"{quantity} {unit}"` has at least two characters |
| Breakdown.AddToSummary | app.py:254-266 | one loop step keeps the dictionary equal to the per-category sum, count and quantity text of the rows seen |
| Breakdown.Accumulate | app.py:251-266 | after the loop the dictionary's keys are the expense categories in first-occurrence order, each holding its sum, count and quantity text |
| Breakdown.CategoryBreakdown | app.py:251-276 | the list built from the dictionary is one summary per expense category, in key order |
| Breakdown.BreakdownTotals | app.py:251-276 | summed over categories, `total_harga` is `total_pengeluaran` and `total_items` the number of expense rows |
| Breakdown.BreakdownEntries | app.py:270-276 | entry i names the i-th category and carries that category's sum and a positive count |
| Breakdown.CategoriesInFirstOccurrenceOrder | app.py:253-255 | categories are listed in the order of their first expense row |
| Breakdown.CategoriesEmpty | app.py:251-276 | the breakdown is empty exactly when no row is an expense |
| Breakdown.CatCountPositive | app.py:257 | a category with a positive count has an expense row behind it |
| Breakdown.QuantityDashIffNoSegment | app.py:263-266 | `total_quantity` is '-' exactly when no row contributed a segment |
| Breakdown.NoQuantityOutsideUnitCategories | app.py:260 | categories other than "Bahan Pokok" and "Barang" keep '-' |
| Breakdown.BreakdownAsWritten | app.py:260-262 | as written the handler fails exactly when some expense row is "Bahan Pokok" or "Barang"; otherwise it gives the intended breakdown with '-' everywhere |
| Trailing.SampleInRange | app.py:151-158 | for i <= 5 the sample, its month start and its next month start are representable dates |
| Trailing.TrailingSeries | app.py:150-175 | six buckets, i = 5 down to 0; bucket k holds income and expense of the calendar month of `now - 30*(5-k)` days, and profit = income - expense |
| Trailing.WindowSumIsMonthSum | app.py:161-168 | the half-open TEXT window sums exactly the rows of the sample's calendar month |
| Trailing.WindowIsCalendarMonth | app.py:152-168 | the same, for the i-th sample |
| Trailing.SamplesAdvance | app.py:150-151 | consecutive samples move forward by zero, one or two calendar months |
| Trailing.MarchTheThirtyFirst | app.py:150-152 | on 31 March the buckets for i = 1 and i = 0 are both March |
| Trailing.MarchTheFirst | app.py:150-152 | on 1 March no bucket is February |
| Report.Take3 | app.py:421 | `s[:3]` is the first three characters, or all of a shorter text |
| Report.DailySeries | app.py:406-417 | `monthrange` buckets labelled "1".."n", each summing the rows whose date text is that day |
| Report.MonthlySeries | app.py:418-429 | 12 buckets, each summing the rows whose month field is that month |
| Report.ReportCategories | app.py:432-438 | labels are the expense categories in first-occurrence order; each value is its category's expense sum |
| Report.CatTotalStep | app.py:433-435 | one more row adds its amount to its own category only, and only when it is an expense |
| Report.DaysTotalIsTotal | app.py:406-417 | when every row lies in the chosen month, the day buckets sum to the total |
| Report.MonthsTotalIsTotal | app.py:418-429 | the twelve month buckets sum to the total |
| Report.SumOfDays | app.py:409-417 | the day list sums to the day-bucket total |
| Report.SumOfMonths | app.py:420-429 | the month list sums to the month-bucket total |
| Report.CategorySumsAreExpense | app.py:432-438 | the category sums add up to the report's expense total |
| Report.SelectedRowsInMonth | app.py:385-391 | a row the report selects has the filter's month and year |
| Report.LaporanCashflow | app.py:372-457 | the report's totals are those of the selected rows; with a month, `monthrange` buckets labelled "1".."n", each summing the rows dated that day; without one, 12 buckets labelled by month name, each summing the rows of that month field; the buckets sum to the totals; each category value is its category's expense sum, and they add up to the expense total; the selected month and year follow the defaults |
| Cashflow.CurrentMonthIsCalendarMonth | app.py:283-286 | the current-month query selects exactly the rows of `now`'s year and month |
| Cashflow.CurrentMonthFigures | app.py:283-290 | the current-month sums and count are those of `now`'s calendar month |
| Cashflow.CashflowIndex | app.py:211-307 | the listed rows are the matching rows newest first; the totals are those the filter selects; the breakdown covers the listed rows and sums to the expense total; the monthly figures are the calendar month's |
| Cashflow.WorkedExample | app.py:247-276 | income 100000 and expense 30000 give net 70000, margin 70, and one category with one item and quantity '-' |
| Cashflow.WorkedExampleOrder | app.py:242 | the later-dated row is listed first |
| Cashflow.WorkedExampleRaisesAsWritten | app.py:260-262 | as written the handler fails on that example |
| Dashboard.Since | app.py:119-125 | `tanggal >= start` on TEXT keeps exactly the rows at or after the start text |
| Dashboard.OnOrAfter | app.py:119-125 | the rows on or after a day in calendar order |
| Dashboard.SinceIsOnOrAfter | app.py:119-125 | the TEXT test keeps exactly the rows on or after the first of the month |
| Dashboard.MonthToDateSplit | app.py:117-138 | "this month" totals and count are those of the calendar month plus those of every later row |
| Dashboard.FutureRowCounts | app.py:121-125 | a row dated next month is not in the calendar month but counts on the dashboard |
| Dashboard.Figures | app.py:117-138 | revenue, expense and count are those of the rows on or after the first of the current month |
| Dashboard.ExpenseGroupsMeaning | app.py:178-184 | one group per expense category, distinct, each with a positive count and its category's total; every category with a row appears; the group totals sum to the expense total |
| Dashboard.ByTotalCons | app.py:717-720 | putting a group with a total at least the old first one's in front keeps the order |
| Dashboard.InsertByTotal | app.py:717-720 | inserting keeps the largest-total-first order and adds exactly the group |
| Dashboard.SortByTotal | app.py:717-720 | `ORDER BY total DESC`: largest total first, a permutation of the groups |
| Dashboard.SortedGroupsCover | app.py:717-720 | the sorted groups are as many as the categories and carry exactly their names |
| Dashboard.SortedGroupsTotals | app.py:717-720 | each sorted group carries its category's total, and totals never increase along the list |
| Dashboard.ByTotalPairwise | app.py:717-720 | in a sorted list every earlier total is at least every later one |
| Dashboard.AsReals | app.py:730 | `float(cat['total'])` for each group, in order |
| Dashboard.ExpenseDistribution | app.py:706-737 | the fallback sample is returned exactly when no row since the first of the month is an expense; otherwise every category of those rows once, each with its total, largest first |
| Dashboard.NoGroupIffNoExpense | app.py:722 | no group exists exactly when there is no expense row |
| Dashboard.RealsAreNotFallback | app.py:722-727 | real group totals can never read as the fallback sample |
| Dashboard.Recent | app.py:140-143 | at most 10 rows, `min(10, n)` of them, newest first, drawn from the table |
| Dashboard.RecentAreNewest | app.py:140-143 | every shown row may be listed before every row left out |
| Dashboard.MonthOverview | app.py:117-193 | the month-to-date totals, the 10 newest rows, the trend, the month's category totals (summing to the expense total), the net profit and the user count |
| Dashboard.AdminDashboardPage | app.py:111-209 | a session that fails the gates is redirected as they say; otherwise the overview with the month's transaction count and the profit margin |
| Dashboard.ViewonlyPage | app.py:459-547 | not signed in goes to login; any role but 'viewonly' goes to the cash-flow page with no notice; 'viewonly' sees the overview |
| Dashboard.TrendApi | app.py:739-783 | signed in, the six-bucket trend; otherwise the login redirect |
| Dashboard.DistributionApi | app.py:706-737 | signed in, the expense distribution; otherwise the login redirect |
| Dashboard.StatsApi | app.py:785-826 | signed in, the month-to-date figures, the user count and profit = revenue - expense |
| Auth.DemoLookup | app.py:74-80 | a demo account is found only when name and password both match; none is found exactly when no entry matches |
| Auth.FindUser | app.py:84 | `fetchone()` finds a row of that name, and finds none exactly when the table has none |
| Auth.Landing | app.py:94-99 | admin to the admin dashboard, viewonly to the view-only page, any other role to the cash-flow page |
| Auth.Login | app.py:68-103 | the handler's loop with early return gives the sign-in rule: demo accounts first, then the stored user with the hash check |
| Auth.DemoLookupFinds | app.py:75-76 | the entry the loop stops at is the one the lookup returns (demo names are distinct) |
| Auth.DemoTakesPrecedence | app.py:74-80 | a demo pair wins whatever the table holds; it sets name and role, keeps `user_id`, and goes to the admin dashboard |
| Auth.StoredUserLogin | app.py:82-101 | without a demo match, a row passing the hash check signs in as that row and lands by role; anything else changes nothing and reports wrong credentials |
| Auth.DemoGuestIsBounced | app.py:47-54 | a demo guest is sent to the admin dashboard and bounced from it to the cash-flow page |
| Auth.Logout | app.py:105-109 | the session is cleared and the user goes to the login page |
| Auth.LoginRequired | app.py:38-45 | passes exactly when a username is set; otherwise a login notice and the login page |
| Auth.AdminRequired | app.py:47-54 | passes exactly for a username with role 'admin'; otherwise access denied and the cash-flow page |
| Auth.AdminPage | app.py:111-113 | the stacked gates: not signed in goes to login; signed in without the admin role goes to the cash-flow page |
| Auth.Index | app.py:57-66 | not signed in goes to login, otherwise landing by role |
| Store.UpdatedRows | app.py:352-356 | the row of that id gets the new date, type, category, description and amount, keeping id, unit and user; every other row is unchanged |
| Store.WithoutRow | app.py:366 | exactly the rows of other ids remain |
| Store.FindRow | app.py:333 | `fetchone()` finds a row of that id, and finds none exactly when the table has none |
| Store.TransactionStore.Add | app.py:309-327 | appends one row with a fresh id, no unit and the session's user id; ids stay unique |
| Store.TransactionStore.Edit | app.py:329-340 | the edit form shows a row of that id; not found exactly when no row has it |
| Store.TransactionStore.Update | app.py:342-360 | the table becomes the updated rows; ids stay unique |
| Store.TransactionStore.Delete | app.py:362-370 | the rows of that id are removed and success is always reported |
| Store.UpdateAbsentIsNoop | app.py:352-356 | updating an absent id changes nothing |
| Store.UpdateThenFind | app.py:352-356 | after an update the edit lookup shows the new values with the old unit and user |
| Store.FindRowFirst | app.py:333 | the lookup returns the first row with the id |
| Store.DeleteThenFind | app.py:366 | after a delete the id is gone and every other row is still there |
| Store.WithoutRowKeepsUnique | app.py:366 | deleting keeps ids unique |
| Users.EditedUsers | app.py:598-606 | the row of that id gets the new name and role, and a new hash only when a password was given; the others are unchanged |
| Users.WithoutUser | app.py:622 | exactly the users of other ids remain |
| Users.UserTable.AddUser | app.py:560-583 | a taken name changes nothing and reports it; otherwise one row is appended with a fresh id and "added" is reported |
| Users.UserTable.EditUser | app.py:585-612 | when the row exists and another row holds the new name, the UPDATE fails with nothing changed; otherwise (an absent id included) the table becomes the edited rows and "updated" is reported |
| Users.EditAbsentIsNoop | app.py:598-606 | an UPDATE of an id no row has changes no row, whatever the new name |
| Users.UserTable.DeleteUser | app.py:614-626 | one's own id is refused with the message and nothing deleted; otherwise the user is removed and success reported |
| Users.WithoutUserKeepsUnique | app.py:622 | deleting keeps names and ids unique |
| Users.AddedUserIsFound | app.py:570-573 | a user added under a fresh name is the row sign-in finds for it |
| Production.RoleCount | app_production.py:48-55 | a role count never exceeds the number of accounts |
| Production.DemoUsersCensus | app_production.py:48-55 | six demo accounts: BagasNz is the only admin and the other five are guests |
| Production.ProductionAuthenticate | app_production.py:113-127 | sign-in succeeds exactly when some demo entry matches; success sets name and matched role and goes to the admin dashboard; failure keeps the session and reports wrong credentials |
| Production.ProductionLogin | app_production.py:111-127 | the loop with early return gives that rule |
| Production.NoStoredUsers | app_production.py:117-125 | a stored user that app.py signs in is refused here unless the pair is a demo pair |
| Production.ProductionLogout | app_production.py:129-133 | the session is cleared, with 'Berhasil logout' and the login page |
| Production.ProductionAdminRequired | app_production.py:95-102 | passes exactly for a username with role 'admin'; otherwise 'Akses admin diperlukan' and the login page |
| Production.AdminGatesCompared | app_production.py:98-100 | both admin gates let the same sessions through; app.py sends the rest to the cash-flow page and this file sends them to login |
| Production.Home | app_production.py:105-109 | signed in goes to the admin dashboard, otherwise to login |
| Production.ProductionDashboard | app_production.py:135-191 | not signed in goes to login; no connection and a failed query redirect to login with their notices; otherwise the figures and the margin (0 without revenue) |
| Production.ProductionStats | app_production.py:194-236 | not signed in goes to login; no connection and a failed query give their error with status 500; otherwise the figures and profit = revenue - expense |

## Left out

- Flask routing, templates, `flash` and `jsonify` are not modelled. A handler's answer is a `Reply` value (redirect with notice, or rendered view), and the session is a `Session` value.
- SQLite and SQL text are not modelled. A table is a sequence of rows, and `strftime('%m'/'%Y', tanggal)` is a projection of a well-formed date. `init_db`, `schema.sql` and `get_database_path` are not part of this model.
- `datetime.now()` is a parameter. Month-name labels (`strftime('%B')`, `calendar.month_name`) are not computed: the report takes the 13-entry name table as a parameter, and a trend bucket keeps its sampled date instead of a name.
- werkzeug's `generate_password_hash` and `check_password_hash` are foreign. The stored hash is an input and the check is the parameter `checkHash`.
- Floats are not modelled. Chart values and API figures are exact integers, and the margin is an exact `real`. `Dashboard.AsReals` is the only place reals stand for `float(...)`.
- SQLite's `GROUP BY` output order is not fixed by SQL. `Dashboard.ExpenseGroups` takes first-occurrence order, so the order of the admin dashboard's category lists is a modelling choice. `/api/expense-distribution` sorts them anyway.
- Rows with equal dates in `ORDER BY tanggal DESC` (the report) come in an order SQLite does not fix. `Report.LaporanCashflow` takes the fetched order as an input that is a permutation of the selected rows and date-descending.
- `Dashboard.ExpenseDistribution`'s labels are stated as the same set of categories, with the same count, rather than as a multiset of group names.
- `Trailing.Bucket` also carries the profit. `/api/cashflow-trend` does not send it, and the view-only page does not chart it.
- The latent crashes are preconditions, not modelled exceptions:
  - `Auth.Index`: a session with a name and no role raises KeyError.
  - `Store.TransactionStore.Add` and `Users.UserTable.DeleteUser`: `session['user_id']` raises after a demo sign-in.
  - `Report.LaporanCashflow`: `int(year)` raises for an empty year with a month (line 408) and for a non-empty year that is not a number, such as "abc", with or without a month (lines 408 and 457); `int(month)` on a non-number and a month outside 1..12 raise. The requires exclude these inputs.
  - `Report.LaporanCashflow`: the requires also exclude years that are not plain digits but that `int()` accepts, such as " 2024" or "+2024". The source then selects no row, since `strftime('%Y')` never equals that text, and shows `selected_tahun` 2024. The model does not cover that case.
  - `Cashflow.CashflowIndex`: `int(month)` on a non-numeric `month` argument raises at line 236. The filter's `month` is already an integer, so that error path is not modelled.
  - `Filters.BuildCashflowQuery` and `Filters.BuildReportQuery`: the same, since they take `month` as an integer.
- `Trailing.SeriesDefined`, required by the trend and the dashboards: samples before year 1, or a month after December 9999, would make Python's `datetime` raise.
- The fallback branch of `/api/expense-distribution` returns before `conn.close()`. Connections are not modelled.
- `app_production.py` compares TEXT dates with `datetime` values (lines 150 and 208). The result depends on the sqlite3 adapter, so `Production.ProductionDashboard` and `Production.ProductionStats` take the queried figures as inputs.
- Product CRUD, the user list page, PDF and Excel export, the error handlers, logging and `/health` are not modelled. Neither are `static_build.py`, `init_db.py` or the printing in `test_login_credentials.py`.

## Findings

| source | as written | input that shows it | evidently intended | confidence | as-written member | corrected member |
|---|---|---|---|---|---|---|
| app.py:260-262 | `transaction.get('satuan')` is called on a `sqlite3.Row`, which has no `get` method | any filter whose result holds a "Bahan Pokok" or "Barang" expense row, e.g. one sale and one "Bahan Pokok" purchase of 30000 in March 2024 (`Cashflow.WorkedExampleRaisesAsWritten`) | read `satuan` and `jumlah` from the row and build the quantity text | high, not executed | Breakdown.BreakdownAsWritten | Breakdown.CategoryBreakdown |
