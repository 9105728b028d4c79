/** The organisation switcher in the navigation bar: who sees it, which organisations it
    offers, which one is marked current, and choosing one. */
module TenantSwitcher {
  import opened Wrappers
  import opened Seqs
  import opened DemoData
  import opened AuthContext

  /** The switcher renders only for a super admin or a user holding `'switch_tenant'`. */
  predicate Visible(user: Option<User>) {
    IsSuperAdmin(user) || HasPermission(user, "switch_tenant")
  }

  /** The organisations offered: all demo tenants to a super admin, otherwise those whose id is
      the user's tenant id. Computed only once the switcher is visible, so a user is present. */
  function Available(user: Option<User>): (r: seq<TenantListing>)
    requires Visible(user)
    ensures IsSuperAdmin(user) ==> r == DemoTenants
    ensures Subsequence(r, DemoTenants)
    ensures forall t :: t in r <==> t in DemoTenants && (IsSuperAdmin(user) || Some(t.id) == user.value.tenantId)
  {
    if IsSuperAdmin(user) then
      SubsequenceRefl(DemoTenants);
      DemoTenants
    else
      FilterSubsequence(DemoTenants, (t: TenantListing) => Some(t.id) == user.value.tenantId);
      Filter(DemoTenants, (t: TenantListing) => Some(t.id) == user.value.tenantId)
  }

  /** The organisation the button shows: the context's tenant, or the first demo tenant. */
  datatype Current = Loaded(tenant: Tenant) | Fallback(listing: TenantListing)

  function CurrentOf(tenant: Option<Tenant>): (c: Current)
    ensures tenant.Some? ==> c == Loaded(tenant.value)
    ensures tenant.None? ==> c == Fallback(DemoTenants[0])
  {
    if tenant.Some? then Loaded(tenant.value) else Fallback(DemoTenants[0])
  }

  function CurrentId(c: Current): string {
    match c
    case Loaded(t) => t.id
    case Fallback(l) => l.id
  }

  /** A menu entry is marked selected exactly when its id is the current organisation's. */
  predicate Selected(option: TenantListing, tenant: Option<Tenant>) {
    option.id == CurrentId(CurrentOf(tenant))
  }

  /** Without a tenant in the context the first offered organisation of a super admin, Acme, is
      the one marked; nothing else is. */
  lemma FallbackMarksAcme(user: Option<User>, i: nat)
    requires IsSuperAdmin(user)
    requires i < |Available(user)|
    ensures Selected(Available(user)[i], None) <==> i == 0
  {
  }

  /** A user who is not a super admin is offered at most their own organisation. */
  lemma OwnTenantOnly(user: Option<User>)
    requires Visible(user) && !IsSuperAdmin(user)
    ensures |Available(user)| <= 1
    ensures forall t :: t in Available(user) ==> user.value.tenantId == Some(t.id)
  {
    var p := (t: TenantListing) => Some(t.id) == user.value.tenantId;
    var d := DemoTenants;
    assert d == [d[0]] + [d[1]];
    FilterAppend([d[0]], [d[1]], p);
    FilterSingleton(d[0], p);
    FilterSingleton(d[1], p);
  }

  /** `handleTenantSwitch(id)`: the session switches tenant, then the menu closes (`open` is
      whether it is still open). */
  method Choose(s: Session, id: string) returns (open: bool)
    requires s.Valid()
    modifies s
    ensures s.Valid() && !open
    ensures s.token == old(s.token) && s.user == old(s.user)
    ensures HasPermission(s.user, "switch_tenant") && FetchTenantInfo(id, s.user).Some?
            ==> s.tenant == FetchTenantInfo(id, s.user)
    ensures !HasPermission(s.user, "switch_tenant") || FetchTenantInfo(id, s.user).None?
            ==> s.tenant == old(s.tenant)
  {
    s.SwitchTenant(id);
    open := false;
  }
}
