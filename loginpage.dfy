/** The sign-in page: the form, submitting it through the session, and where a successful
    sign-in leads. */
module LoginPage {
  import opened Wrappers
  import opened JsValues
  import opened DemoData
  import opened DemoAuth
  import opened AuthContext
  import opened Base64

  /** Where a successful sign-in navigates: back to the page that redirected here when there is
      one, else by role: `/admin` for a super admin, `/tenant-admin` for a tenant admin (role
      `'tenant_admin'` or tenant role `'admin'`), `/notes` for everybody else. */
  function RedirectAfterLogin(from: Option<string>, info: Option<User>): (r: string)
    ensures TruthyText(from) ==> r == from.value
    ensures !TruthyText(from) ==> (r == "/admin" <==> IsSuperAdmin(info))
    ensures !TruthyText(from) ==> (r == "/tenant-admin" <==> !IsSuperAdmin(info) && IsTenantAdmin(info))
    ensures !TruthyText(from) ==> (r == "/notes" <==> !IsSuperAdmin(info) && !IsTenantAdmin(info))
  {
    if TruthyText(from) then from.value
    else if info.Some? && info.value.role == SuperAdmin then "/admin"
    else if info.Some? && (info.value.role == TenantAdminRole || info.value.tenantRole == "admin") then "/tenant-admin"
    else "/notes"
  }

  /** The claims of every demo account carry role `'ADMIN'` or `'MEMBER'` and no tenant role,
      so without a page to return to every demo sign-in lands on `/notes`, the admins' too. */
  lemma DemoSignInsLandOnNotes(email: string, plan: string, iat: int)
    requires email in DemoCredentials
    ensures RedirectAfterLogin(None, ParseToken(Some(Payload(DemoCredentials[email].user, plan, iat)))) == "/notes"
  {
    var c := Payload(DemoCredentials[email].user, plan, iat);
    assert c.tenantRole.None?;
    assert c.role == Some(DemoCredentials[email].user.role);
  }

  /** Every account the page offers is a demo credential with its password, so filling the form
      from it never meets the wrong-credentials error. */
  lemma DemoAccountsSignIn(i: nat, nowMs: int, stringify: Claims -> string)
    requires i < |DemoAccounts|
    ensures DemoAccounts[i].email in DemoCredentials
    ensures DemoCredentials[DemoAccounts[i].email].password == DemoAccounts[i].password
    ensures DemoLogin(DemoCredentials, Tenants, DemoAccounts[i].email, DemoAccounts[i].password, nowMs, stringify)
            != Err("Invalid email or password")
    ensures var a := DemoAccounts[i];
      var u := DemoCredentials[a.email].user;
      var res := DemoLogin(DemoCredentials, Tenants, a.email, a.password, nowMs, stringify);
      && u.tenantSlug in Tenants
      && (res.Ok? <==> IsLatin1(stringify(Payload(u, Tenants[u.tenantSlug].plan, nowMs / 1000))))
      && (res.Ok? ==> res.value.user.email == Some(a.email) && res.value.tenant == Tenants[u.tenantSlug])
  {
    assert DemoAccounts[i].email in DemoCredentials && DemoAccounts[i].password == "password";
    DemoCredentialSignIn(DemoAccounts[i].email, nowMs, stringify);
  }

  /** The form state: the typed credentials, the busy flag, the last notification and the
      location navigated to. */
  class LoginForm {
    var email: string
    var password: string
    var loading: bool
    var notice: Option<string>
    var navigatedTo: Option<string>

    constructor ()
      ensures email == "" && password == "" && !loading && notice.None? && navigatedTo.None?
    {
      email := "";
      password := "";
      loading := false;
      notice := None;
      navigatedTo := None;
    }

    /** `handleDemoLogin(account)`: the form is filled with the account's credentials. */
    method FillDemo(account: DemoAccount)
      modifies this
      ensures email == account.email && password == account.password
      ensures loading == old(loading) && notice == old(notice) && navigatedTo == old(navigatedTo)
    {
      email := account.email;
      password := account.password;
    }

    /** `handleSubmit()`, where `from` is the page that redirected here: a failed sign-in shows
        its message (or `Login failed`) and stays; a successful one navigates by
        `RedirectAfterLogin`. Either way the busy flag ends cleared. */
    method Submit(s: Session, from: Option<string>, nowMs: int)
      requires s.Valid()
      modifies this, s
      ensures s.Valid()
      ensures email == old(email) && password == old(password) && !loading
      ensures var res := DemoLogin(DemoCredentials, Tenants, email, password, nowMs, s.stringify);
        && (res.Err? ==>
              notice == Some(if res.message != "" then res.message else "Login failed")
              && navigatedTo == old(navigatedTo)
              && s.token == old(s.token) && s.user == old(s.user) && s.tenant == old(s.tenant))
        && (res.Ok? ==>
              notice == Some("Logged in successfully")
              && navigatedTo == Some(RedirectAfterLogin(from, ParseToken(s.decode(res.value.token)))))
    {
      loading := true;
      var r := s.Login(email, password, nowMs);
      Settle(r, from);
    }

    /** What the form shows once the sign-in has answered `r`: the error's message (or
        `Login failed`) and no navigation, or the success notice and the redirect. */
    method Settle(r: Result<Option<User>>, from: Option<string>)
      modifies this
      ensures email == old(email) && password == old(password) && !loading
      ensures r.Err? ==> notice == Some(if r.message != "" then r.message else "Login failed")
                         && navigatedTo == old(navigatedTo)
      ensures r.Ok? ==> notice == Some("Logged in successfully")
                        && navigatedTo == Some(RedirectAfterLogin(from, r.value))
    {
      if r.Err? {
        notice := Some(if r.message != "" then r.message else "Login failed");
      } else {
        notice := Some("Logged in successfully");
        navigatedTo := Some(RedirectAfterLogin(from, r.value));
      }
      loading := false;
    }
  }
}
