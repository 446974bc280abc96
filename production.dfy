/** app_production.py: the same demo accounts, sign-in against them only,
    a stricter admin gate that sends to the login page, and dashboard
    figures that depend on whether a database connection was obtained. */
module Production {
  import opened Wrappers
  import opened Transactions
  import opened Auth
  import opened Dashboard

  /** `len([u for u in DEMO_USERS if u['role'] == role])`. */
  function RoleCount(users: seq<DemoUser>, role: string): (n: nat)
    ensures n <= |users|
  {
    if users == [] then 0
    else RoleCount(users[..|users| - 1], role) + (if users[|users| - 1].role == role then 1 else 0)
  }

  /** Six accounts: BagasNz is the one admin, the other five are guests. */
  lemma DemoUsersCensus()
    ensures |DemoUsers| == 6
    ensures RoleCount(DemoUsers, "admin") == 1 && RoleCount(DemoUsers, "guest") == 5
    ensures forall i :: 0 <= i < |DemoUsers| ==> (DemoUsers[i].role == "admin" <==> DemoUsers[i].username == "BagasNz")
    ensures forall i :: 0 <= i < |DemoUsers| && DemoUsers[i].role != "admin" ==> DemoUsers[i].role == "guest"
  {
    var u := DemoUsers;
    assert u[..1][..0] == [];
    assert RoleCount(u[..1], "admin") == 1 && RoleCount(u[..1], "guest") == 0;
    assert u[..2][..1] == u[..1];
    assert RoleCount(u[..2], "admin") == 1 && RoleCount(u[..2], "guest") == 1;
    assert u[..3][..2] == u[..2];
    assert RoleCount(u[..3], "admin") == 1 && RoleCount(u[..3], "guest") == 2;
    assert u[..4][..3] == u[..3];
    assert RoleCount(u[..4], "admin") == 1 && RoleCount(u[..4], "guest") == 3;
    assert u[..5][..4] == u[..4];
    assert RoleCount(u[..5], "admin") == 1 && RoleCount(u[..5], "guest") == 4;
    assert u[..5] == u[..|u| - 1];
  }

  /** The production rule (lines 113-127): a demo pair signs in and goes to
      the admin dashboard whatever its role; anything else changes nothing
      and renders the login page again. */
  function ProductionAuthenticate(s: Session, username: string, password: string): (o: LoginOutcome)
    ensures o.target.Some? <==> exists i :: 0 <= i < |DemoUsers| && DemoMatch(DemoUsers[i], username, password)
    ensures o.target.Some? ==>
      && o.target == Some(AdminDashboard) && o.notice == LoginOk
      && o.session == s.(username := Some(username), role := Some(DemoLookup(DemoUsers, username, password).value.role))
    ensures o.target.None? ==> o.session == s && o.notice == WrongCredentials
  {
    var demo := DemoLookup(DemoUsers, username, password);
    if demo.Some? then
      LoginOutcome(s.(username := Some(username), role := Some(demo.value.role)), LoginOk, Some(AdminDashboard))
    else
      LoginOutcome(s, WrongCredentials, None)
  }

  /** The handler: the loop over `DEMO_USERS` with an early return. */
  method ProductionLogin(s: Session, username: string, password: string) returns (outcome: LoginOutcome)
    ensures outcome == ProductionAuthenticate(s, username, password)
  {
    var i := 0;
    while i < |DemoUsers|
      invariant 0 <= i <= |DemoUsers|
      invariant forall j :: 0 <= j < i ==> !DemoMatch(DemoUsers[j], username, password)
    {
      var user := DemoUsers[i];
      if user.username == username && user.password == password {
        DemoLookupFinds(i, username, password);
        outcome := LoginOutcome(s.(username := Some(username), role := Some(user.role)), LoginOk, Some(AdminDashboard));
        return;
      }
      i := i + 1;
    }
    outcome := LoginOutcome(s, WrongCredentials, None);
  }

  /** A stored user that app.py would accept is refused here unless the
      pair is also a demo pair. */
  lemma NoStoredUsers(s: Session, username: string, password: string, users: seq<StoredUser>,
                      checkHash: (string, string) -> bool)
    requires DemoLookup(DemoUsers, username, password).None?
    requires FindUser(users, username).Some? && checkHash(FindUser(users, username).value.passwordHash, password)
    ensures Authenticate(s, username, password, users, checkHash).target.Some?
    ensures ProductionAuthenticate(s, username, password).target.None?
  {
  }

  /** `/logout` (lines 129-133). */
  function ProductionLogout(s: Session): (r: (Session, Notice, Page))
    ensures r.0.username.None? && r.0.role.None? && r.0.userId.None?
    ensures r.1 == SignedOut && r.2 == LoginPage
  {
    (EmptySession, SignedOut, LoginPage)
  }

  /** `admin_required` (lines 95-102), which no route of the file uses. */
  function ProductionAdminRequired(s: Session): (g: Gate)
    ensures g == Proceed <==> s.username.Some? && s.role == Some("admin")
    ensures g != Proceed ==> g == Deny(AdminNeeded, LoginPage)
  {
    if s.username.None? || s.role != Some("admin") then Deny(AdminNeeded, LoginPage) else Proceed
  }

  /** The two admin gates let the same sessions through and send the rest
      to different pages. */
  lemma AdminGatesCompared(s: Session)
    ensures AdminRequired(s) == Proceed <==> ProductionAdminRequired(s) == Proceed
    ensures AdminRequired(s) != Proceed ==>
      AdminRequired(s).target == CashflowIndex && ProductionAdminRequired(s).target == LoginPage
  {
  }

  /** `/` (lines 105-109). */
  function Home(s: Session): (p: Page)
    ensures p == AdminDashboard <==> s.username.Some?
    ensures p == LoginPage <==> s.username.None?
  {
    if s.username.Some? then AdminDashboard else LoginPage
  }

  /** What `get_db_connection()` and the `try` block came to: no
      connection, an exception while querying, or the figures read. */
  datatype Connection<T> = NoConnection | QueryFailed | Connected(value: T)

  /** The figures the dashboard queries return. Their date filter compares
      TEXT with a `datetime` through the sqlite3 adapter, so they are
      inputs here. */
  datatype DashboardFigures = DashboardFigures(
    totalRevenue: int,
    totalExpense: int,
    totalTransactions: nat,
    recent: seq<Transaction>)

  datatype ProductionView = ProductionView(figures: DashboardFigures, profitMargin: real)

  /** `/admin/dashboard` (lines 135-191), behind `login_required` only. */
  function ProductionDashboard(s: Session, c: Connection<DashboardFigures>): (r: Reply<ProductionView>)
    ensures s.username.None? ==> r == Redirect(Some(PleaseLogin), LoginPage)
    ensures s.username.Some? && c.NoConnection? ==> r == Redirect(Some(ConnectionError), LoginPage)
    ensures s.username.Some? && c.QueryFailed? ==> r == Redirect(Some(DashboardError), LoginPage)
    ensures s.username.Some? && c.Connected? ==>
      && r.Render? && r.view.figures == c.value
      && (c.value.totalRevenue <= 0 ==> r.view.profitMargin == 0.0)
      && (c.value.totalRevenue > 0 ==>
            r.view.profitMargin * (c.value.totalRevenue as real)
              == ((c.value.totalRevenue - c.value.totalExpense) as real) * 100.0)
  {
    if LoginRequired(s) != Proceed then Redirect(Some(PleaseLogin), LoginPage)
    else
      match c
      case NoConnection => Redirect(Some(ConnectionError), LoginPage)
      case QueryFailed => Redirect(Some(DashboardError), LoginPage)
      case Connected(f) => Render(ProductionView(f, ProfitMargin(f.totalRevenue, f.totalExpense)))
  }

  /** The JSON answer of `/api/dashboard-stats`: an error with its HTTP
      status, or the figures. */
  datatype StatsAnswer = StatsError(message: string, status: nat) | StatsOk(stats: Stats)

  /** The stats figures read: revenue, expense, transactions, users. */
  datatype StatsFigures = StatsFigures(totalRevenue: int, totalExpense: int, totalTransactions: nat, totalUsers: nat)

  /** `/api/dashboard-stats` (lines 194-236). */
  function ProductionStats(s: Session, c: Connection<StatsFigures>): (r: Reply<StatsAnswer>)
    ensures s.username.None? ==> r == Redirect(Some(PleaseLogin), LoginPage)
    ensures s.username.Some? && c.NoConnection? ==> r == Render(StatsError("Database connection error", 500))
    ensures s.username.Some? && c.QueryFailed? ==> r == Render(StatsError("Internal server error", 500))
    ensures s.username.Some? && c.Connected? ==>
      && r.Render? && r.view.StatsOk?
      && r.view.stats.totalRevenue == c.value.totalRevenue
      && r.view.stats.totalExpense == c.value.totalExpense
      && r.view.stats.totalTransactions == c.value.totalTransactions
      && r.view.stats.totalUsers == c.value.totalUsers
      && r.view.stats.profit + c.value.totalExpense == c.value.totalRevenue
  {
    if LoginRequired(s) != Proceed then Redirect(Some(PleaseLogin), LoginPage)
    else
      match c
      case NoConnection => Render(StatsError("Database connection error", 500))
      case QueryFailed => Render(StatsError("Internal server error", 500))
      case Connected(f) =>
        Render(StatsOk(Stats(f.totalRevenue, f.totalExpense, f.totalTransactions, f.totalUsers,
                             NetProfit(f.totalRevenue, f.totalExpense))))
  }
}
