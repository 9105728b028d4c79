/** The authentication context: the subscription plan table, the user record parsed from a
    token, the tenant record resolved for it, the checks derived from both, and the session
    whose `token`, `user` and `tenant` cells login, logout, tenant switching and the token and
    expiry effects change. `jwtDecode` is an abstract decoder held by the session; the browser
    storage the effects write is modelled by two fields holding what is stored. */
module AuthContext {
  import opened Wrappers
  import opened Text
  import opened JsValues
  import opened DemoData
  import opened DemoAuth

  /** An entry of `SUBSCRIPTION_PLANS`. */
  datatype Plan = Plan(name: string, price: int, interval: string, features: map<string, FeatureValue>)

  /** The keys of every plan's feature object, in the order they are written. */
  const FeatureKeys: seq<string> :=
    ["maxUsers", "maxNotes", "storage", "collaboration", "analytics", "customBranding", "apiAccess", "support"]

  const StarterFeatures: map<string, FeatureValue> := map[
    "maxUsers" := FNum(3), "maxNotes" := FNum(100), "storage" := FText("1GB"),
    "collaboration" := FBool(false), "analytics" := FBool(false), "customBranding" := FBool(false),
    "apiAccess" := FBool(false), "support" := FText("Community")]

  const ProfessionalFeatures: map<string, FeatureValue> := map[
    "maxUsers" := FNum(25), "maxNotes" := FNum(5000), "storage" := FText("50GB"),
    "collaboration" := FBool(true), "analytics" := FBool(true), "customBranding" := FBool(false),
    "apiAccess" := FBool(true), "support" := FText("Email")]

  /** `-1` stands for unlimited. */
  const EnterpriseFeatures: map<string, FeatureValue> := map[
    "maxUsers" := FNum(-1), "maxNotes" := FNum(-1), "storage" := FText("500GB"),
    "collaboration" := FBool(true), "analytics" := FBool(true), "customBranding" := FBool(true),
    "apiAccess" := FBool(true), "support" := FText("Priority")]

  /** The plan keys of `SUBSCRIPTION_PLANS`, in the order they are written. */
  const PlanKeys: seq<string> := ["STARTER", "PROFESSIONAL", "ENTERPRISE"]

  /** `SUBSCRIPTION_PLANS`. */
  const SubscriptionPlans: map<string, Plan> := map[
    "STARTER" := Plan("Starter", 0, "month", StarterFeatures),
    "PROFESSIONAL" := Plan("Professional", 29, "month", ProfessionalFeatures),
    "ENTERPRISE" := Plan("Enterprise", 99, "month", EnterpriseFeatures)]

  /** The names the context value provides to its consumers. */
  const ContextKeys: seq<string> := [
    "token", "user", "loading", "isAuthenticated", "isSuperAdmin", "isTenantAdmin", "isTenantUser",
    "tenant", "tenantPlan", "tenantFeatures", "login", "signup", "logout", "switchTenant",
    "hasPermission", "canAccess", "getRemainingQuota", "SUBSCRIPTION_PLANS", "USER_ROLES"]

  /** The `USER_ROLES` the checks compare against. */
  const SuperAdmin: string := "super_admin"
  const TenantAdminRole: string := "tenant_admin"
  const MemberRole: string := "member"

  /** The user record `parseToken` builds. */
  datatype User = User(
    id: Option<string>, email: Option<string>, role: string, tenantId: Option<string>,
    tenantRole: string, plan: string, permissions: seq<string>, exp: Option<int>, iat: Option<int>)

  /** `parseToken`: absent when decoding fails; otherwise the claims with `sub` preferred to
      `id`, `tenantId` to `tenant_id`, and the role, tenant role, plan and permission defaults
      filled in for falsy claims. */
  function ParseToken(decoded: Option<Claims>): (r: Option<User>)
    ensures r.None? <==> decoded.None?
    ensures r.Some? ==>
      var c, u := decoded.value, r.value;
      && u.id == (if TruthyText(c.sub) then c.sub else c.id)
      && u.email == c.email
      && u.role == (if TruthyText(c.role) then c.role.value else MemberRole)
      && u.tenantId == (if TruthyText(c.tenantId) then c.tenantId else c.tenant_id)
      && u.tenantRole == (if TruthyText(c.tenantRole) then c.tenantRole.value else "member")
      && u.plan == (if TruthyText(c.plan) then c.plan.value else "STARTER")
      && u.permissions == (if c.permissions.Some? then c.permissions.value else [])
      && u.exp == c.exp && u.iat == c.iat
  {
    match decoded
    case None => None
    case Some(c) =>
      Some(User(OrText(c.sub, c.id), c.email, TextOr(c.role, MemberRole), OrText(c.tenantId, c.tenant_id),
        TextOr(c.tenantRole, "member"), TextOr(c.plan, "STARTER"), c.permissions.GetOr([]), c.exp, c.iat))
  }

  /** The tenant record of the context; `features` is `settings.features`. A record restored
      from storage may lack either map. */
  datatype Tenant = Tenant(
    id: string, name: string, domain: string, plan: string,
    features: Option<map<string, FeatureValue>>, usage: Option<map<string, FeatureValue>>)

  /** `s.slice(-4)`: the last four characters, or all of a shorter string. */
  function LastFour(s: string): (r: string)
    ensures |r| == if |s| < 4 then |s| else 4
    ensures s == s[..|s| - |r|] + r
  {
    if |s| < 4 then s else s[|s| - 4..]
  }

  /** The usage figures of every mock tenant record. */
  const MockUsage: map<string, FeatureValue> := map["users" := FNum(5), "notes" := FNum(247), "storage" := FText("2.5GB")]

  /** `fetchTenantInfo(tenantId)` as run with the user `planUser` its closure sees: a mock
      record under the plan of that user (`'STARTER'` without one). Looking up a plan not in the
      table throws, which the function catches, so no record results. */
  function FetchTenantInfo(tenantId: string, planUser: Option<User>): (r: Option<Tenant>)
    ensures var plan := if planUser.Some? && planUser.value.plan != "" then planUser.value.plan else "STARTER";
      && (r.Some? <==> plan in SubscriptionPlans)
      && (r.Some? ==> r.value == Tenant(tenantId, "Company " + Upper(LastFour(tenantId)),
                                       "company-" + LastFour(tenantId) + ".example.com", plan,
                                       Some(SubscriptionPlans[plan].features), Some(MockUsage)))
  {
    var plan := if planUser.Some? && planUser.value.plan != "" then planUser.value.plan else "STARTER";
    if plan !in SubscriptionPlans then None
    else
      Some(Tenant(tenantId, "Company " + Upper(LastFour(tenantId)), "company-" + LastFour(tenantId) + ".example.com",
        plan, Some(SubscriptionPlans[plan].features), Some(MockUsage)))
  }

  /** The tenant after resolving for `parsed`: a user with a truthy tenant id fetches the mock
      record, with the plan of `prev`; otherwise, or when the fetch fails, `tenant` stays. */
  function Resolve(tenant: Option<Tenant>, parsed: Option<User>, prev: Option<User>): (r: Option<Tenant>)
    ensures (parsed.None? || !TruthyText(parsed.value.tenantId)) ==> r == tenant
    ensures parsed.Some? && TruthyText(parsed.value.tenantId) ==>
      var f := FetchTenantInfo(parsed.value.tenantId.value, prev);
      r == if f.Some? then f else tenant
  {
    if parsed.Some? && TruthyText(parsed.value.tenantId) then
      match FetchTenantInfo(parsed.value.tenantId.value, prev)
      case Some(t) => Some(t)
      case None => tenant
    else tenant
  }

  /** `hasPermission(p)`: the user's permission list contains `p`. */
  predicate HasPermission(user: Option<User>, p: string) {
    user.Some? && p in user.value.permissions
  }

  /** `canAccess(feature)`: the tenant's feature value is exactly `true` or exactly `-1`. */
  function CanAccess(tenant: Option<Tenant>, feature: string): (r: bool)
    ensures r <==> tenant.Some? && tenant.value.features.Some?
                   && feature in tenant.value.features.value
                   && tenant.value.features.value[feature] in {FBool(true), FNum(-1)}
  {
    if tenant.None? || tenant.value.features.None? then false
    else
      var v := Lookup(tenant.value.features.value, feature);
      v == Some(FBool(true)) || v == Some(FNum(-1))
  }

  /** `getRemainingQuota(quota)`: 0 without a tenant, feature map or usage map; unbounded for a
      limit of `-1`; otherwise `Math.max(0, limit - used)`, a missing or falsy usage counting 0. */
  function RemainingQuota(tenant: Option<Tenant>, quota: string): (r: Num)
    ensures (tenant.None? || tenant.value.features.None? || tenant.value.usage.None?) ==> r == Fin(0)
    ensures r.Infinity? <==> && tenant.Some? && tenant.value.features.Some? && tenant.value.usage.Some?
                             && Lookup(tenant.value.features.value, quota) == Some(FNum(-1))
    ensures r.Fin? ==> r.v >= 0
  {
    if tenant.None? || tenant.value.features.None? || tenant.value.usage.None? then Fin(0)
    else
      var limit := Lookup(tenant.value.features.value, quota);
      var found := Lookup(tenant.value.usage.value, quota);
      var used := if found.Some? && Truthy(found.value) then found.value else FNum(0);
      if limit == Some(FNum(-1)) then Infinity
      else MaxZero(Sub(ToNumber(limit), ToNumber(Some(used))))
  }

  /** With a numeric limit other than `-1` the quota is the limit less a numeric usage, floored
      at 0; a usage the map does not hold counts as nothing used. */
  lemma QuotaOfNumericLimit(t: Tenant, quota: string, limit: int)
    requires t.features.Some? && t.usage.Some?
    requires Lookup(t.features.value, quota) == Some(FNum(limit)) && limit != -1
    ensures quota !in t.usage.value ==> RemainingQuota(Some(t), quota) == Fin(if limit < 0 then 0 else limit)
    ensures quota in t.usage.value && t.usage.value[quota].FNum? ==>
      var used := t.usage.value[quota].n;
      RemainingQuota(Some(t), quota) == Fin(if limit - used < 0 then 0 else limit - used)
  {
  }

  /** For every resolved mock record the usage map holds no `max…` key, so the remaining user
      and note quotas are the plan's full limits: 3 and 100 on STARTER, 25 and 5000 on
      PROFESSIONAL, unbounded on ENTERPRISE. */
  lemma MockQuotaIsFullLimit(tenantId: string, planUser: Option<User>)
    requires FetchTenantInfo(tenantId, planUser).Some?
    ensures var t := FetchTenantInfo(tenantId, planUser).value;
      && (t.plan == "STARTER" ==> RemainingQuota(Some(t), "maxUsers") == Fin(3) && RemainingQuota(Some(t), "maxNotes") == Fin(100))
      && (t.plan == "PROFESSIONAL" ==> RemainingQuota(Some(t), "maxUsers") == Fin(25) && RemainingQuota(Some(t), "maxNotes") == Fin(5000))
      && (t.plan == "ENTERPRISE" ==> RemainingQuota(Some(t), "maxUsers") == Infinity && RemainingQuota(Some(t), "maxNotes") == Infinity)
  {
    var t := FetchTenantInfo(tenantId, planUser).value;
    assert "maxUsers" !in MockUsage && "maxNotes" !in MockUsage;
    if t.plan == "STARTER" {
      QuotaOfNumericLimit(t, "maxUsers", 3);
      QuotaOfNumericLimit(t, "maxNotes", 100);
    } else if t.plan == "PROFESSIONAL" {
      QuotaOfNumericLimit(t, "maxUsers", 25);
      QuotaOfNumericLimit(t, "maxNotes", 5000);
    }
  }

  /** `isAuthenticated`: a truthy token and a parsed user. */
  predicate IsAuthenticated(token: Option<string>, user: Option<User>) {
    TruthyText(token) && user.Some?
  }

  /** `isSuperAdmin`: the role is exactly `'super_admin'`. */
  predicate IsSuperAdmin(user: Option<User>) {
    user.Some? && user.value.role == SuperAdmin
  }

  /** `isTenantAdmin`: the tenant role is exactly `'admin'` or the role exactly `'tenant_admin'`. */
  predicate IsTenantAdmin(user: Option<User>) {
    user.Some? && (user.value.tenantRole == "admin" || user.value.role == TenantAdminRole)
  }

  /** `isTenantUser`: the user has a truthy tenant id. */
  predicate IsTenantUser(user: Option<User>) {
    user.Some? && TruthyText(user.value.tenantId)
  }

  /** `tenantPlan`: the tenant's plan, `'STARTER'` when there is none. */
  function TenantPlan(tenant: Option<Tenant>): (r: string)
    ensures r != ""
    ensures tenant.Some? && tenant.value.plan != "" ==> r == tenant.value.plan
  {
    if tenant.Some? && tenant.value.plan != "" then tenant.value.plan else "STARTER"
  }

  /** `tenantFeatures`: the tenant's feature map, the STARTER one when there is none. */
  function TenantFeatures(tenant: Option<Tenant>): (r: map<string, FeatureValue>)
    ensures tenant.Some? && tenant.value.features.Some? ==> r == tenant.value.features.value
    ensures (tenant.None? || tenant.value.features.None?) ==> r == SubscriptionPlans["STARTER"].features
  {
    if tenant.Some? && tenant.value.features.Some? then tenant.value.features.value
    else SubscriptionPlans["STARTER"].features
  }

  /** The expiry effect's test: a truthy `exp` claim (seconds) strictly before the clock time
      `nowMs` (milliseconds); an `exp` equal to the current instant is not expired. */
  predicate ExpiredAt(user: Option<User>, nowMs: int) {
    user.Some? && user.value.exp.Some? && user.value.exp.value != 0 && user.value.exp.value * 1000 < nowMs
  }

  /** The payload of every demo token parses to a user whose role is `'ADMIN'` or
      `'MEMBER'`: never a super admin and never a tenant admin, although a tenant user, and on
      a plan (`'FREE'`) that the plan table lacks, so a later tenant fetch with that user fails. */
  lemma DemoUsersHoldNoAdminRole(email: string, iat: int, tenantId: string)
    requires email in DemoCredentials
    ensures var u := ParseToken(Some(Payload(DemoCredentials[email].user, Tenants[DemoCredentials[email].user.tenantSlug].plan, iat)));
      && u.Some? && u.value.role in {"ADMIN", "MEMBER"}
      && !IsSuperAdmin(u) && !IsTenantAdmin(u) && IsTenantUser(u)
      && u.value.plan == "FREE" && FetchTenantInfo(tenantId, u).None?
  {
    var a := DemoCredentials[email].user;
    DemoAccountShape(email);
    PayloadUserRoles(a, Tenants[a.tenantSlug].plan, iat, tenantId);
  }

  /** Every demo account has role `'ADMIN'` or `'MEMBER'`, a tenant id, and a tenant on the
      `'FREE'` plan. */
  lemma DemoAccountShape(email: string)
    requires email in DemoCredentials
    ensures var a := DemoCredentials[email].user;
      && a.role in {"ADMIN", "MEMBER"} && a.tenantId != ""
      && a.tenantSlug in Tenants && Tenants[a.tenantSlug].plan == "FREE"
  {
  }

  /** The parsed payload of an `'ADMIN'` or `'MEMBER'` account with a tenant on the `'FREE'` plan. */
  lemma PayloadUserRoles(a: AccountUser, plan: string, iat: int, tenantId: string)
    requires a.role in {"ADMIN", "MEMBER"} && a.tenantId != "" && plan == "FREE"
    ensures var u := ParseToken(Some(Payload(a, plan, iat)));
      && u.Some? && u.value.role in {"ADMIN", "MEMBER"}
      && !IsSuperAdmin(u) && !IsTenantAdmin(u) && IsTenantUser(u)
      && u.value.plan == "FREE" && FetchTenantInfo(tenantId, u).None?
  {
  }

  /** The user `parseToken` reads from the payload of any account user: the account's e-mail
      and permissions, its id and tenant id when they are non-empty, its role (`member` for an
      empty one), the default tenant
      role, and the tenant's plan (`STARTER` for an empty one). */
  lemma PayloadParse(a: AccountUser, plan: string, iat: int)
    ensures ParseToken(Some(Payload(a, plan, iat))) == Some(User(
      if a.id != "" then Some(a.id) else None, Some(a.email), if a.role != "" then a.role else MemberRole,
      if a.tenantId != "" then Some(a.tenantId) else None, "member",
      if plan != "" then plan else "STARTER", a.permissions, Some(iat + Lifetime), Some(iat)))
  {
  }

  /** The live session: the three state cells, what browser storage holds, the token decoder
      and the JSON serialiser the demo login uses. */
  class Session {
    var token: Option<string>
    var user: Option<User>
    var tenant: Option<Tenant>
    var storedToken: Option<string>
    var storedTenant: Option<Tenant>
    const decode: string -> Option<Claims>
    const stringify: Claims -> string

    /** The user is always the parse of the token; without a token there is no tenant; storage
        holds exactly the token and the tenant. */
    ghost predicate Valid()
      reads this
    {
      && token != Some("")
      && user == (if token.Some? then ParseToken(decode(token.value)) else None)
      && (token.None? ==> tenant.None?)
      && storedToken == token && storedTenant == tenant
    }

    /** Mounting the provider: the cells start from storage (an empty stored token counts as
        none); the token effect then clears everything without a token or resolves the tenant,
        and the expiry effect logs out a user whose token has run out. */
    constructor (decode: string -> Option<Claims>, stringify: Claims -> string,
                 savedToken: Option<string>, savedTenant: Option<Tenant>, nowMs: int)
      ensures Valid()
      ensures this.decode == decode && this.stringify == stringify
      ensures var t := if TruthyText(savedToken) then savedToken else None;
        var u := if t.Some? then ParseToken(decode(t.value)) else None;
        if t.None? || ExpiredAt(u, nowMs) then token.None? && user.None? && tenant.None?
        else token == t && user == u && tenant == Resolve(savedTenant, u, u)
    {
      this.decode := decode;
      this.stringify := stringify;
      var t := if TruthyText(savedToken) then savedToken else None;
      token := t;
      user := if t.Some? then ParseToken(decode(t.value)) else None;
      tenant := savedTenant;
      storedToken := savedToken;
      storedTenant := savedTenant;
      new;
      if t.Some? {
        storedToken := t;
        tenant := Resolve(tenant, user, user);
        storedTenant := tenant;
        CheckExpiry(nowMs);
      } else {
        storedToken := None;
        storedTenant := None;
        user := None;
        tenant := None;
      }
    }

    /** `setToken(t)` and the effects it triggers. An unchanged token triggers nothing. A new
        token is stored and parsed, and the tenant is resolved with the user as it was before
        (the fetch closes over the previous `user`); a user whose token has already run out is
        then logged out. No token clears both storage keys and all three cells. */
    method SetToken(t: Option<string>, nowMs: int)
      requires Valid() && t != Some("")
      modifies this
      ensures Valid()
      ensures t == old(token) ==>
        token == old(token) && user == old(user) && tenant == old(tenant)
      ensures t != old(token) && t.Some? && !ExpiredAt(ParseToken(decode(t.value)), nowMs) ==>
        token == t && user == ParseToken(decode(t.value))
        && tenant == Resolve(old(tenant), user, old(user))
      ensures t != old(token) && (t.None? || ExpiredAt(ParseToken(decode(t.value)), nowMs)) ==>
        token.None? && user.None? && tenant.None?
    {
      if t == token {
        return;
      }
      var prev := user;
      token := t;
      storedToken := t;
      if t.Some? {
        user := ParseToken(decode(t.value));
        tenant := Resolve(tenant, user, prev);
        storedTenant := tenant;
        CheckExpiry(nowMs);
      } else {
        user := None;
        tenant := None;
        storedTenant := None;
      }
    }

    /** `logout()`: all three cells are cleared, and with them both storage keys. */
    method Logout()
      modifies this
      ensures Valid()
      ensures token.None? && user.None? && tenant.None?
      ensures storedToken.None? && storedTenant.None?
    {
      token := None;
      user := None;
      tenant := None;
      storedToken := None;
      storedTenant := None;
    }

    /** The expiry effect: with a token present, a user whose `exp` lies strictly before `nowMs`
        is logged out; otherwise nothing changes. */
    method CheckExpiry(nowMs: int)
      requires Valid()
      modifies this
      ensures Valid()
      ensures old(token).Some? && ExpiredAt(old(user), nowMs) ==> token.None? && user.None? && tenant.None?
      ensures !(old(token).Some? && ExpiredAt(old(user), nowMs)) ==>
        token == old(token) && user == old(user) && tenant == old(tenant)
    {
      if token.Some? && ExpiredAt(user, nowMs) {
        Logout();
      }
    }

    /** `login(email, password)`: the demo login's error message when it fails, with nothing
        changed; otherwise the new token is set (with its effects) and its parse returned. */
    method Login(email: string, password: string, nowMs: int) returns (r: Result<Option<User>>)
      requires Valid()
      modifies this
      ensures Valid()
      ensures var res := DemoLogin(DemoCredentials, Tenants, email, password, nowMs, stringify);
        && (res.Err? ==> (r == Err(if res.message != "" then res.message else "Login failed")
                          && token == old(token) && user == old(user) && tenant == old(tenant)))
        && (res.Ok? ==> r == Ok(ParseToken(decode(res.value.token))))
        && (res.Ok? && Some(res.value.token) == old(token) ==>
              token == old(token) && user == old(user) && tenant == old(tenant))
        && (res.Ok? && Some(res.value.token) != old(token)
                    && !ExpiredAt(ParseToken(decode(res.value.token)), nowMs) ==>
              token == Some(res.value.token) && user == ParseToken(decode(res.value.token))
              && tenant == Resolve(old(tenant), user, old(user)))
        && (res.Ok? && Some(res.value.token) != old(token)
                    && ExpiredAt(ParseToken(decode(res.value.token)), nowMs) ==>
              token.None? && user.None? && tenant.None?)
    {
      var res := DemoLogin(DemoCredentials, Tenants, email, password, nowMs, stringify);
      if res.Err? {
        r := Err(if res.message != "" then res.message else "Login failed");
      } else {
        assert res.value.token != "";
        SetToken(Some(res.value.token), nowMs);
        r := Ok(ParseToken(decode(res.value.token)));
      }
    }

    /** `signup(...)`: the demo signup always fails, so nothing changes. */
    method Signup() returns (r: Result<Option<User>>)
      ensures r == Err("Signup not implemented in demo mode")
    {
      var res := DemoSignup("", "");
      r := Err(res.message);
    }

    /** `switchTenant(id)`: only a user holding `'switch_tenant'` fetches the mock record for
        `id`, under the current user's plan; a failed fetch, or no permission, changes nothing. */
    method SwitchTenant(id: string)
      requires Valid()
      modifies this
      ensures Valid()
      ensures token == old(token) && user == old(user)
      ensures HasPermission(user, "switch_tenant") && FetchTenantInfo(id, user).Some?
              ==> tenant == FetchTenantInfo(id, user)
      ensures !HasPermission(user, "switch_tenant") || FetchTenantInfo(id, user).None?
              ==> tenant == old(tenant)
    {
      if HasPermission(user, "switch_tenant") {
        var f := FetchTenantInfo(id, user);
        if f.Some? {
          tenant := f;
          storedTenant := f;
        }
      }
    }
  }
}
