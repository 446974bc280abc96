/** Sign-in and the role gates of app.py: the built-in demo accounts are
    tried first with plain equality, then the `users` table with a password
    hash check; `login_required`, `admin_required` and the landing page read
    the session. */
module Auth {
  import opened Wrappers

  /** The signed-in state (`session`). A key that is not set is `None`. */
  datatype Session = Session(username: Option<string>, role: Option<string>, userId: Option<int>)

  const EmptySession: Session := Session(None, None, None)

  datatype DemoUser = DemoUser(username: string, password: string, role: string)

  /** `DEMO_USERS`, the same list in app.py and app_production.py. */
  const DemoUsers: seq<DemoUser> := [
    DemoUser("BagasNz", "162316", "admin"),
    DemoUser("Refki", "owner", "guest"),
    DemoUser("Iqbal", "owner", "guest"),
    DemoUser("Rico", "owner", "guest"),
    DemoUser("Hari", "owner", "guest"),
    DemoUser("Dimse", "owner", "guest")
  ]

  /** A row of the `users` table; `passwordHash` is what
      `generate_password_hash` stored. */
  datatype StoredUser = StoredUser(id: int, username: string, passwordHash: string, role: string)

  /** The pages a handler redirects to. */
  datatype Page = LoginPage | AdminDashboard | Viewonly | CashflowIndex | ManajemenUser

  /** The flashed notices. */
  datatype Notice =
    | LoginOk                 // 'Login berhasil!'
    | Welcome(name: string)   // f'Selamat datang, {username}!'
    | WrongCredentials        // 'Username atau password salah'
    | PleaseLogin             // 'Silakan login terlebih dahulu'
    | AccessDenied            // 'Akses ditolak. Hanya admin ...'
    | LoggedOut               // 'Anda telah logout'
    | SignedOut               // 'Berhasil logout' (app_production.py)
    | AdminNeeded             // 'Akses admin diperlukan' (app_production.py)
    | ConnectionError         // 'Database connection error' (app_production.py)
    | DashboardError          // 'Error loading dashboard data' (app_production.py)

  predicate DemoMatch(d: DemoUser, username: string, password: string) {
    d.username == username && d.password == password
  }

  /** The first demo account whose name and password both equal the input. */
  function DemoLookup(users: seq<DemoUser>, username: string, password: string): (r: Option<DemoUser>)
    ensures r.Some? ==> r.value in users && DemoMatch(r.value, username, password)
    ensures r.None? <==> forall j :: 0 <= j < |users| ==> !DemoMatch(users[j], username, password)
  {
    if users == [] then None
    else if DemoMatch(users[0], username, password) then Some(users[0])
    else DemoLookup(users[1..], username, password)
  }

  /** `SELECT * FROM users WHERE username = ?` with `fetchone()`: the first
      row with that name. */
  function FindUser(users: seq<StoredUser>, username: string): (r: Option<StoredUser>)
    ensures r.Some? ==> r.value in users && r.value.username == username
    ensures r.None? <==> forall j :: 0 <= j < |users| ==> users[j].username != username
  {
    if users == [] then None
    else if users[0].username == username then Some(users[0])
    else FindUser(users[1..], username)
  }

  /** Where a role lands: admin, viewonly, anything else. */
  function Landing(role: string): (p: Page)
    ensures p == AdminDashboard <==> role == "admin"
    ensures p == Viewonly <==> role == "viewonly"
    ensures p == CashflowIndex <==> role != "admin" && role != "viewonly"
  {
    if role == "admin" then AdminDashboard
    else if role == "viewonly" then Viewonly
    else CashflowIndex
  }

  /** What a POST to `/login` yields: the new session, the notice, and the
      redirect (`None` when the login page is rendered again). */
  datatype LoginOutcome = LoginOutcome(session: Session, notice: Notice, target: Option<Page>)

  /** The rule of lines 74-101; `checkHash(stored, given)` stands for
      werkzeug's `check_password_hash`. */
  function Authenticate(s: Session, username: string, password: string, users: seq<StoredUser>,
                        checkHash: (string, string) -> bool): LoginOutcome
  {
    var demo := DemoLookup(DemoUsers, username, password);
    if demo.Some? then
      LoginOutcome(s.(username := Some(username), role := Some(demo.value.role)), LoginOk, Some(AdminDashboard))
    else
      var user := FindUser(users, username);
      if user.Some? && checkHash(user.value.passwordHash, password) then
        var u := user.value;
        LoginOutcome(Session(Some(u.username), Some(u.role), Some(u.id)), Welcome(username), Some(Landing(u.role)))
      else
        LoginOutcome(s, WrongCredentials, None)
  }

  /** The handler: a loop over `DEMO_USERS` with an early return, then the
      table lookup. */
  method Login(s: Session, username: string, password: string, users: seq<StoredUser>,
               checkHash: (string, string) -> bool) returns (outcome: LoginOutcome)
    ensures outcome == Authenticate(s, username, password, users, checkHash)
  {
    var i := 0;
    while i < |DemoUsers|
      invariant 0 <= i <= |DemoUsers|
      invariant forall j :: 0 <= j < i ==> !DemoMatch(DemoUsers[j], username, password)
    {
      var user := DemoUsers[i];
      if user.username == username && user.password == password {
        DemoLookupFinds(i, username, password);
        outcome := LoginOutcome(s.(username := Some(username), role := Some(user.role)), LoginOk, Some(AdminDashboard));
        return;
      }
      i := i + 1;
    }
    var user := FindUser(users, username);
    if user.Some? && checkHash(user.value.passwordHash, password) {
      var u := user.value;
      outcome := LoginOutcome(Session(Some(u.username), Some(u.role), Some(u.id)), Welcome(username), Some(Landing(u.role)));
    } else {
      outcome := LoginOutcome(s, WrongCredentials, None);
    }
  }

  /** `/logout`: `session.clear()`. */
  function Logout(s: Session): (r: (Session, Notice, Page))
    ensures r.0.username.None? && r.0.role.None? && r.0.userId.None?
    ensures r.2 == LoginPage
  {
    (EmptySession, LoggedOut, LoginPage)
  }

  /** A decorator either lets the handler run or redirects with a notice. */
  datatype Gate = Proceed | Deny(notice: Notice, target: Page)

  /** `login_required` (lines 38-45). */
  function LoginRequired(s: Session): (g: Gate)
    ensures g == Proceed <==> s.username.Some?
    ensures g != Proceed ==> g == Deny(PleaseLogin, LoginPage)
  {
    if s.username.None? then Deny(PleaseLogin, LoginPage) else Proceed
  }

  /** `admin_required` (lines 47-54): a missing name or any role but
      'admin' is sent to the cash-flow page. */
  function AdminRequired(s: Session): (g: Gate)
    ensures g == Proceed <==> s.username.Some? && s.role == Some("admin")
    ensures g != Proceed ==> g == Deny(AccessDenied, CashflowIndex)
  {
    if s.username.None? || s.role != Some("admin") then Deny(AccessDenied, CashflowIndex) else Proceed
  }

  /** `@login_required` stacked on `@admin_required`: the outer gate speaks
      first. */
  function AdminPage(s: Session): (g: Gate)
    ensures g == Proceed <==> s.username.Some? && s.role == Some("admin")
    ensures s.username.None? ==> g == Deny(PleaseLogin, LoginPage)
    ensures s.username.Some? && s.role != Some("admin") ==> g == Deny(AccessDenied, CashflowIndex)
  {
    var outer := LoginRequired(s);
    if outer != Proceed then outer else AdminRequired(s)
  }

  /** `/` (lines 57-66). `session['role']` is read only when a name is set;
      the handler raises KeyError for a name without a role. */
  function Index(s: Session): (p: Page)
    requires s.username.Some? ==> s.role.Some?
    ensures s.username.None? ==> p == LoginPage
    ensures s.username.Some? ==> p == Landing(s.role.value)
  {
    if s.username.Some? then Landing(s.role.value) else LoginPage
  }

  // ---------------------------------------------------------------------------
  // Lemmas

  /** A demo pair wins whatever the table holds, sets only name and role,
      keeps `user_id` as it was, and always goes to the admin dashboard. */
  lemma DemoTakesPrecedence(s: Session, d: DemoUser, users: seq<StoredUser>, checkHash: (string, string) -> bool)
    requires d in DemoUsers
    ensures Authenticate(s, d.username, d.password, users, checkHash) ==
      LoginOutcome(Session(Some(d.username), Some(d.role), s.userId), LoginOk, Some(AdminDashboard))
  {
    DemoUsernamesDistinct();
  }

  /** The demo account that matches is the one `DemoLookup` returns. */
  lemma DemoLookupFinds(i: int, username: string, password: string)
    requires 0 <= i < |DemoUsers| && DemoMatch(DemoUsers[i], username, password)
    ensures DemoLookup(DemoUsers, username, password) == Some(DemoUsers[i])
  {
    DemoUsernamesDistinct();
    var r := DemoLookup(DemoUsers, username, password);
    var k :| 0 <= k < |DemoUsers| && DemoUsers[k] == r.value;
    assert k == i;
  }

  lemma DemoUsernamesDistinct()
    ensures forall i, j :: 0 <= i < j < |DemoUsers| ==> DemoUsers[i].username != DemoUsers[j].username
  {
  }

  /** Without a demo match, a row that passes the hash check signs in as
      that row and lands by role; anything else changes nothing. */
  lemma StoredUserLogin(s: Session, username: string, password: string, users: seq<StoredUser>,
                        checkHash: (string, string) -> bool)
    requires DemoLookup(DemoUsers, username, password).None?
    ensures var o := Authenticate(s, username, password, users, checkHash);
      var u := FindUser(users, username);
      if u.Some? && checkHash(u.value.passwordHash, password) then
        o.session == Session(Some(username), Some(u.value.role), Some(u.value.id))
        && o.target == Some(Landing(u.value.role))
      else
        o.session == s && o.target.None? && o.notice == WrongCredentials
  {
  }

  /** A demo guest is redirected to the admin dashboard and bounced from
      there to the cash-flow page. */
  lemma DemoGuestIsBounced(checkHash: (string, string) -> bool, users: seq<StoredUser>)
    ensures var o := Authenticate(EmptySession, "Refki", "owner", users, checkHash);
      o.target == Some(AdminDashboard) && AdminPage(o.session) == Deny(AccessDenied, CashflowIndex)
  {
    assert DemoMatch(DemoUsers[1], "Refki", "owner");
    assert !DemoMatch(DemoUsers[0], "Refki", "owner");
  }
}
