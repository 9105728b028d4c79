/** Demo authentication: the credential table, the construction of a JWT-shaped token and its
    validation. The token has the three `.`-separated parts of a JWS compact serialisation
    (section 7.1 of RFC 7515), each encoded with `btoa`, i.e. standard base64 with padding
    (section 4 of RFC 4648) rather than base64url; the signature is a fixed placeholder that
    validation never looks at. JSON text is produced and read by an abstract `stringify` and
    `parse`. */
module DemoAuth {
  import opened Wrappers
  import opened Text
  import opened Base64
  import opened JsValues
  import opened DemoData

  /** The claims of a token payload as `JSON.parse` returns them; absent members are `None`.
      A payload that is not an object (`null` included) has no claims: reading a member of it
      throws inside the `try`, so the parser answers `None` for it. */
  datatype Claims = Claims(
    sub: Option<string>, id: Option<string>, email: Option<string>,
    firstName: Option<string>, lastName: Option<string>, role: Option<string>,
    tenantId: Option<string>, tenant_id: Option<string>, tenantSlug: Option<string>,
    tenantName: Option<string>, tenantRole: Option<string>, plan: Option<string>,
    permissions: Option<seq<string>>, exp: Option<int>, iat: Option<int>)

  /** The user record of a demo credential. */
  datatype AccountUser = AccountUser(
    id: string, email: string, firstName: string, lastName: string, role: string,
    tenantId: string, tenantSlug: string, tenantName: string, permissions: seq<string>)

  datatype Credential = Credential(password: string, user: AccountUser)

  const AdminPermissions: seq<string> := ["notes:read", "notes:write", "notes:delete", "users:invite", "tenant:manage"]
  const MemberPermissions: seq<string> := ["notes:read", "notes:write", "notes:delete"]

  /** `DEMO_CREDENTIALS`: one admin and one member per tenant, all with password `'password'`. */
  const DemoCredentials: map<string, Credential> := map[
    "admin@acme.test" := Credential("password", AccountUser("user-1", "admin@acme.test", "Admin", "User", "ADMIN",
      "acme", "acme", "Acme Corporation", AdminPermissions)),
    "user@acme.test" := Credential("password", AccountUser("user-2", "user@acme.test", "Regular", "User", "MEMBER",
      "acme", "acme", "Acme Corporation", MemberPermissions)),
    "admin@globex.test" := Credential("password", AccountUser("user-3", "admin@globex.test", "Admin", "User", "ADMIN",
      "globex", "globex", "Globex Corporation", AdminPermissions)),
    "user@globex.test" := Credential("password", AccountUser("user-4", "user@globex.test", "Regular", "User", "MEMBER",
      "globex", "globex", "Globex Corporation", MemberPermissions))]

  /** An entry of `demoAccounts`, the accounts the sign-in page offers. */
  datatype DemoAccount = DemoAccount(email: string, password: string, name: string, role: string, tenant: string, plan: string)

  const DemoAccounts: seq<DemoAccount> := [
    DemoAccount("admin@acme.test", "password", "Admin User", "Admin", "Acme Corporation", "Free"),
    DemoAccount("user@acme.test", "password", "Regular User", "Member", "Acme Corporation", "Free"),
    DemoAccount("admin@globex.test", "password", "Admin User", "Admin", "Globex Corporation", "Free"),
    DemoAccount("user@globex.test", "password", "Regular User", "Member", "Globex Corporation", "Free")]

  /** `JSON.stringify({ alg: 'HS256', typ: 'JWT' })`. */
  const HeaderJson: string := "{\"alg\":\"HS256\",\"typ\":\"JWT\"}"

  /** A token lifetime of one day (24 * 60 * 60 seconds). */
  const Lifetime: int := 86400

  /** What a successful demo login returns. */
  datatype LoginResult = LoginResult(token: string, user: Claims, tenant: TenantEntry)

  /** The payload claims for an account user at issue time `iat` (seconds). */
  function Payload(u: AccountUser, plan: string, iat: int): (c: Claims)
    ensures c.iat == Some(iat) && c.exp == Some(iat + Lifetime)
    ensures c.sub == Some(u.id) && c.id.None? && c.tenant_id.None? && c.tenantRole.None?
    ensures c.plan == Some(plan) && c.role == Some(u.role) && c.email == Some(u.email)
    ensures c.firstName == Some(u.firstName) && c.lastName == Some(u.lastName)
    ensures c.tenantId == Some(u.tenantId) && c.tenantSlug == Some(u.tenantSlug)
    ensures c.tenantName == Some(u.tenantName) && c.permissions == Some(u.permissions)
  {
    Claims(Some(u.id), None, Some(u.email), Some(u.firstName), Some(u.lastName), Some(u.role),
      Some(u.tenantId), None, Some(u.tenantSlug), Some(u.tenantName), None, Some(plan),
      Some(u.permissions), Some(iat + Lifetime), Some(iat))
  }

  /** The token issued for account user `u` of `tenant` at clock time `nowMs` (milliseconds):
      the base64 of the header JSON, of the payload JSON and of a placeholder signature, joined
      by `.`. `btoa` throws on text with a character above U+00FF. */
  function IssueToken(u: AccountUser, tenant: TenantEntry, nowMs: int, stringify: Claims -> string): (r: Result<LoginResult>)
    ensures var payload := Payload(u, tenant.plan, nowMs / 1000);
      r.Ok? <==> IsLatin1(stringify(payload)) && IsLatin1("mock-signature-" + u.id)
    ensures r.Err? ==> r == Err("InvalidCharacterError")
    ensures r.Ok? ==> r.value.tenant == tenant && r.value.user == Payload(u, tenant.plan, nowMs / 1000)
    ensures r.Ok? ==> r.value.token == Encode(HeaderJson) + "." + Encode(stringify(r.value.user)) + "."
                                       + Encode("mock-signature-" + u.id)
  {
    var payload := Payload(u, tenant.plan, nowMs / 1000);
    var header := Btoa(HeaderJson);
    assert header.Some? by { HeaderIsLatin1(); }
    var body := Btoa(stringify(payload));
    var signature := Btoa("mock-signature-" + u.id);
    if header.None? || body.None? || signature.None? then Err("InvalidCharacterError")
    else Ok(LoginResult(header.value + "." + body.value + "." + signature.value, payload, tenant))
  }

  lemma HeaderIsLatin1()
    ensures IsLatin1(HeaderJson)
  {
  }

  /** `demoLogin(email, password)` at clock time `nowMs`: the credential must exist with that
      password and its tenant must exist; then the token is issued for its user and tenant. */
  function DemoLogin(credentials: map<string, Credential>, tenants: map<string, TenantEntry>,
                     email: string, password: string, nowMs: int,
                     stringify: Claims -> string): (r: Result<LoginResult>)
    ensures (email !in credentials || credentials[email].password != password)
      <==> r == Err("Invalid email or password")
    ensures (email in credentials && credentials[email].password == password
             && credentials[email].user.tenantSlug !in tenants) ==> r == Err("Tenant not found")
    ensures (email in credentials && credentials[email].password == password
             && credentials[email].user.tenantSlug in tenants) ==>
      r == IssueToken(credentials[email].user, tenants[credentials[email].user.tenantSlug], nowMs, stringify)
  {
    if email !in credentials || credentials[email].password != password then
      Err("Invalid email or password")
    else
      var u := credentials[email].user;
      if u.tenantSlug !in tenants then Err("Tenant not found")
      else IssueToken(u, tenants[u.tenantSlug], nowMs, stringify)
  }

  /** A present `exp` claim other than 0 that lies before the current second. */
  predicate Expired(c: Claims, nowMs: int) {
    c.exp.Some? && c.exp.value != 0 && c.exp.value < nowMs / 1000
  }

  /** `validateToken(token)` at clock time `nowMs`: the payload of a present, non-empty token of
      exactly three parts whose middle part is base64 of JSON and that has not expired. */
  function ValidateToken(token: Option<string>, nowMs: int, parse: string -> Option<Claims>): (r: Option<Claims>)
    ensures r.Some? <==>
      && token.Some? && token.value != ""
      && |Split(token.value, '.')| == 3
      && Atob(Split(token.value, '.')[1]).Some?
      && parse(Atob(Split(token.value, '.')[1]).value).Some?
      && !Expired(parse(Atob(Split(token.value, '.')[1]).value).value, nowMs)
    ensures r.Some? ==> r == parse(Atob(Split(token.value, '.')[1]).value)
  {
    if token.None? || token.value == "" then None
    else
      var parts := Split(token.value, '.');
      if |parts| != 3 then None
      else
        var json := Atob(parts[1]);
        if json.None? then None
        else
          var payload := parse(json.value);
          if payload.None? || Expired(payload.value, nowMs) then None
          else payload
  }

  /** `getCurrentUser(token)`: the validated payload, if any. */
  function CurrentUser(token: Option<string>, nowMs: int, parse: string -> Option<Claims>): (r: Option<Claims>)
    ensures r == ValidateToken(token, nowMs, parse)
  {
    var payload := ValidateToken(token, nowMs, parse);
    if payload.None? then None else payload
  }

  /** `canInviteUsers`, `canManageTenant` and `canUpgradeSubscription` all test for exactly the
      role `'ADMIN'`. */
  predicate CanInviteUsers(role: string) { role == "ADMIN" }
  predicate CanManageTenant(role: string) { role == "ADMIN" }
  predicate CanUpgradeSubscription(role: string) { role == "ADMIN" }

  /** `getTenantInfo(slug)`: the tenant entry, or `null`; for the demo tenants, an entry
      exactly for `acme` and `globex`, and the entry found carries the slug it was found under. */
  function TenantInfo(tenants: map<string, TenantEntry>, slug: string): (r: Option<TenantEntry>)
    ensures r.Some? <==> slug in tenants
    ensures r.Some? ==> r.value == tenants[slug]
    ensures tenants == Tenants ==> (r.Some? <==> slug == "acme" || slug == "globex")
    ensures tenants == Tenants && r.Some? ==> r.value.slug == slug
  {
    Lookup(tenants, slug)
  }

  /** `demoSignup`: signing up is not available in demo mode. */
  function DemoSignup(email: string, password: string): (r: Result<LoginResult>)
    ensures r == Err("Signup not implemented in demo mode")
  {
    Err("Signup not implemented in demo mode")
  }

  /** Every validation outcome depends on the middle part alone: the header and the signature
      are never checked. */
  lemma OnlyPayloadPartMatters(h1: string, h2: string, p: string, s1: string, s2: string, nowMs: int,
                               parse: string -> Option<Claims>)
    requires '.' !in h1 && '.' !in h2 && '.' !in p && '.' !in s1 && '.' !in s2
    ensures ValidateToken(Some(h1 + "." + p + "." + s1), nowMs, parse)
         == ValidateToken(Some(h2 + "." + p + "." + s2), nowMs, parse)
  {
    SplitThree(h1, p, s1, '.');
    SplitThree(h2, p, s2, '.');
    assert |h1 + "." + p + "." + s1| > 0;
    assert |h2 + "." + p + "." + s2| > 0;
  }

  /** The login/validate round trip: when the JSON codec reads back what it wrote, validating a
      freshly issued token gives back exactly the payload, unless the clock has passed the
      expiry second (and the expiry is not the falsy 0). */
  lemma LoginThenValidate(credentials: map<string, Credential>, tenants: map<string, TenantEntry>,
                          email: string, password: string, nowMs: int, laterMs: int,
                          stringify: Claims -> string, parse: string -> Option<Claims>, r: LoginResult)
    requires DemoLogin(credentials, tenants, email, password, nowMs, stringify) == Ok(r)
    requires parse(stringify(r.user)) == Some(r.user)
    ensures var exp := nowMs / 1000 + Lifetime;
      ValidateToken(Some(r.token), laterMs, parse)
        == if exp != 0 && exp < laterMs / 1000 then None else Some(r.user)
  {
    var u := credentials[email].user;
    var h, p, s := Encode(HeaderJson), Encode(stringify(r.user)), Encode("mock-signature-" + u.id);
    EncodeCharacters(HeaderJson);
    EncodeCharacters(stringify(r.user));
    EncodeCharacters("mock-signature-" + u.id);
    SplitThree(h, p, s, '.');
    AtobBtoa(stringify(r.user));
    assert |r.token| > 0;
  }

  /** The placeholder signature of every demo account is Latin-1, so `btoa` accepts it. */
  lemma DemoSignaturesLatin1(email: string)
    requires email in DemoCredentials
    ensures IsLatin1("mock-signature-" + DemoCredentials[email].user.id)
  {
    var id := DemoCredentials[email].user.id;
    assert id in {"user-1", "user-2", "user-3", "user-4"};
    assert forall k :: 0 <= k < |id| ==> id[k] in "user-1234";
  }

  /** Signing in to a demo account with the demo password reaches its tenant, and succeeds
      exactly when the payload's JSON text is Latin-1, with the account's e-mail. */
  lemma DemoCredentialSignIn(email: string, nowMs: int, stringify: Claims -> string)
    requires email in DemoCredentials
    ensures var u := DemoCredentials[email].user;
      var res := DemoLogin(DemoCredentials, Tenants, email, "password", nowMs, stringify);
      && DemoCredentials[email].password == "password"
      && u.tenantSlug in Tenants
      && (res.Ok? <==> IsLatin1(stringify(Payload(u, Tenants[u.tenantSlug].plan, nowMs / 1000))))
      && (res.Ok? ==> res.value.user.email == Some(email) && res.value.tenant == Tenants[u.tenantSlug])
  {
    DemoSignaturesLatin1(email);
    var u := DemoCredentials[email].user;
    assert u.email == email && u.tenantSlug in Tenants && DemoCredentials[email].password == "password";
  }

  /** Every demo credential passes the check and lands on an existing tenant; an unknown
      e-mail or a wrong password is refused. */
  lemma DemoCredentialsLogIn(email: string, password: string, nowMs: int, stringify: Claims -> string)
    ensures email in DemoCredentials ==> DemoCredentials[email].user.tenantSlug in Tenants
    ensures email !in DemoCredentials || password != "password" ==>
      DemoLogin(DemoCredentials, Tenants, email, password, nowMs, stringify) == Err("Invalid email or password")
  {
  }

  /** Only the two admin accounts may invite users, manage the tenant or upgrade. */
  lemma AdminAccountsOnly(email: string)
    requires email in DemoCredentials
    ensures var role := DemoCredentials[email].user.role;
      CanInviteUsers(role) <==> email == "admin@acme.test" || email == "admin@globex.test"
  {
  }
}
