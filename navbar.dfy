/** The navigation bar: hidden on the sign-in page, a list of navigation buttons that depends
    on the session's flags, the avatar initials, and logging out. */
module Navbar {
  import opened Wrappers
  import opened Text
  import opened JsValues
  import opened AuthContext

  datatype NavButton = NavButton(path: string, title: string)

  const HomeButton: NavButton := NavButton("/", "Home")
  const NotesButton: NavButton := NavButton("/notes", "Notes")
  const TeamAdminButton: NavButton := NavButton("/tenant-admin", "Team Admin")
  const SuperAdminButton: NavButton := NavButton("/admin", "Super Admin")

  /** `navButtons`: Home always first; then, when signed in, Notes, Team Admin for a tenant
      admin and Super Admin for a super admin, in that order. */
  function NavButtons(isAuthenticated: bool, isTenantAdmin: bool, isSuperAdmin: bool): (r: seq<NavButton>)
    ensures |r| >= 1 && r[0] == HomeButton
    ensures NotesButton in r <==> isAuthenticated
    ensures TeamAdminButton in r <==> isAuthenticated && isTenantAdmin
    ensures SuperAdminButton in r <==> isAuthenticated && isSuperAdmin
    ensures isAuthenticated ==> r[1] == NotesButton
    ensures isAuthenticated && isTenantAdmin && isSuperAdmin ==>
      r == [HomeButton, NotesButton, TeamAdminButton, SuperAdminButton]
    ensures !isAuthenticated ==> r == [HomeButton]
    ensures |r| == 1 + (if isAuthenticated then 1 + (if isTenantAdmin then 1 else 0) + (if isSuperAdmin then 1 else 0) else 0)
    ensures forall i, j :: 0 <= i < j < |r| ==> r[i] != r[j]
    ensures forall i, j :: 0 <= i < |r| && 0 <= j < |r| && r[i] == TeamAdminButton && r[j] == SuperAdminButton ==> i < j
  {
    [HomeButton] +
    (if isAuthenticated then
       [NotesButton] + (if isTenantAdmin then [TeamAdminButton] else []) + (if isSuperAdmin then [SuperAdminButton] else [])
     else [])
  }

  /** The bar for the current location: nothing on `/login`, otherwise the buttons. */
  function Bar(pathname: string, isAuthenticated: bool, isTenantAdmin: bool, isSuperAdmin: bool): (r: Option<seq<NavButton>>)
    ensures r.None? <==> pathname == "/login"
    ensures r.Some? ==> r.value == NavButtons(isAuthenticated, isTenantAdmin, isSuperAdmin)
  {
    if pathname == "/login" then None else Some(NavButtons(isAuthenticated, isTenantAdmin, isSuperAdmin))
  }

  /** The bar a session gets, from its `isAuthenticated`, `isTenantAdmin` and `isSuperAdmin`. */
  function SessionBar(pathname: string, token: Option<string>, user: Option<User>): Option<seq<NavButton>> {
    Bar(pathname, IsAuthenticated(token, user), IsTenantAdmin(user), IsSuperAdmin(user))
  }

  /** `getInitials(email)`: `U` without a (non-empty) e-mail, otherwise its first two
      characters upper-cased. */
  function Initials(email: Option<string>): (r: string)
    ensures !TruthyText(email) ==> r == "U"
    ensures TruthyText(email) ==>
      var e := email.value;
      |r| == (if |e| < 2 then |e| else 2) && forall i :: 0 <= i < |r| ==> r[i] == UpperChar(e[i])
  {
    if !TruthyText(email) then "U"
    else Upper(email.value[..if |email.value| < 2 then |email.value| else 2])
  }

  /** A button is drawn `contained` exactly on its own path, `text` elsewhere. */
  function Variant(path: string, pathname: string): (v: string)
    ensures v == "contained" <==> path == pathname
    ensures v == "text" <==> path != pathname
  {
    if path == pathname then "contained" else "text"
  }

  /** `handleLogout()`: the session logs out, then the bar navigates to `/login`. */
  method HandleLogout(s: Session) returns (route: string)
    modifies s
    ensures s.Valid()
    ensures s.token.None? && s.user.None? && s.tenant.None?
    ensures route == "/login"
  {
    s.Logout();
    route := "/login";
  }

  /** A signed-in user whose roles are the demo ones (`'ADMIN'` or `'MEMBER'`, default tenant
      role) sees only Home and Notes. */
  lemma DemoRolesSeeHomeAndNotes(pathname: string, token: Option<string>, u: User)
    requires TruthyText(token) && pathname != "/login"
    requires u.role in {"ADMIN", "MEMBER"} && u.tenantRole == "member"
    ensures SessionBar(pathname, token, Some(u)) == Some([HomeButton, NotesButton])
  {
    assert !IsTenantAdmin(Some(u)) && !IsSuperAdmin(Some(u));
    assert NavButtons(true, false, false) == [HomeButton] + ([NotesButton] + [] + []) == [HomeButton, NotesButton];
    assert IsAuthenticated(token, Some(u));
  }
}
