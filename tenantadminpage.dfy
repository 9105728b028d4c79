/** The team administration page: the member list (the signed-in user's tenant's demo users,
    appended to by invitations and filtered by removals), the invitation form, and the
    decisions gated on the remaining user quota. */
module TenantAdminPage {
  import opened Wrappers
  import opened Seqs
  import opened Text
  import opened JsValues
  import opened DemoData
  import opened AuthContext

  /** The member an invitation at time `now` (milliseconds) adds: named after the part of the
      e-mail before the first `@`, pending, in the inviting user's tenant. */
  function Invited(email: string, role: string, tenantId: Option<string>, now: int): (m: Member)
    ensures m.id == "user_" + IntToDecimal(now) && m.email == email && m.role == role
    ensures m.name == BeforeFirst(email, '@') && '@' !in m.name && m.name == email[..|m.name|]
    ensures m.tenantId == tenantId && m.status == "pending" && m.lastActive == now
  {
    Member("user_" + IntToDecimal(now), email, BeforeFirst(email, '@'), role, tenantId, now, "pending")
  }

  /** The tenant id `user?.tenantId` reads: none without a user. */
  function TenantIdOf(user: Option<User>): (r: Option<string>)
    ensures user.None? ==> r.None?
    ensures user.Some? ==> r == user.value.tenantId
  {
    if user.Some? then user.value.tenantId else None
  }

  /** The invite button is disabled when the remaining quota is at most 0 and not unbounded;
      a `NaN` quota compares false and leaves it enabled. */
  predicate InviteDisabled(q: Num) {
    AtMost(q, 0) && q != Infinity
  }

  /** The limit warning shows when the remaining quota is below 3 and not unbounded. */
  predicate LimitWarning(q: Num) {
    Below(q, 3) && q != Infinity
  }

  /** The send button is disabled while the e-mail is empty. */
  predicate SendDisabled(email: string) {
    email == ""
  }

  /** The role chip's label: the first `_` becomes a space, then everything is upper-cased. */
  function RoleLabel(role: string): (r: string)
    ensures |r| == |role|
  {
    Upper(ReplaceFirst(role, '_', ' '))
  }

  /** The label keeps every character but the first `_`, upper-cased, and puts a space there;
      later underscores stay. */
  lemma RoleLabelSpec(role: string)
    ensures var k := |BeforeFirst(role, '_')|;
      forall i :: 0 <= i < |role| ==>
        RoleLabel(role)[i] == if i == k then ' ' else UpperChar(role[i])
  {
    ReplaceFirstSpec(role, '_', ' ');
    var k := |BeforeFirst(role, '_')|;
    var t := ReplaceFirst(role, '_', ' ');
    forall i | 0 <= i < |role| ensures t[i] == if i == k then ' ' else role[i] {
      if k < |role| {
        if i < k {
          assert t[i] == role[..k][i];
        } else if i > k {
          assert t[i] == role[k + 1..][i - k - 1];
        }
      }
    }
  }

  /** A role `a_b` with no `_` in `a` is labelled `A B`, with any later `_` in `b` kept:
      `tenant_admin` reads `TENANT ADMIN`. */
  lemma RoleLabelOfParts(a: string, b: string)
    requires '_' !in a
    ensures RoleLabel(a + "_" + b) == Upper(a) + " " + Upper(b)
  {
    var role := a + "_" + b;
    assert BeforeFirst(role, '_') == a by {
      BeforeFirstPrefix(a, '_', b);
    }
    RoleLabelSpec(role);
    var l, r := RoleLabel(role), Upper(a) + " " + Upper(b);
    forall i | 0 <= i < |role| ensures l[i] == r[i] {
      if i < |a| {
        assert role[i] == a[i];
      } else if i > |a| {
        assert role[i] == b[i - |a| - 1];
      }
    }
  }

  /** The part before the first `c` of `a`, `c` and more is `a` when `a` has no `c`. */
  lemma {:induction false} BeforeFirstPrefix(a: string, c: char, b: string)
    requires c !in a
    ensures BeforeFirst(a + [c] + b, c) == a
    decreases |a|
  {
    if a != [] {
      assert a[0] in a;
      assert (a + [c] + b)[1..] == a[1..] + [c] + b;
      assert c !in a[1..] by {
        forall k | 0 <= k < |a[1..]| ensures a[1..][k] != c {
          assert a[1..][k] == a[k + 1];
        }
      }
      BeforeFirstPrefix(a[1..], c, b);
      assert [a[0]] + a[1..] == a;
    }
  }

  /** Remaining quotas are never negative, so the button is disabled exactly at a quota of 0;
      an unbounded or `NaN` quota neither disables it nor warns. */
  lemma QuotaGates(tenant: Option<Tenant>)
    ensures var q := RemainingQuota(tenant, "maxUsers");
      && (InviteDisabled(q) <==> q == Fin(0))
      && (LimitWarning(q) <==> q.Fin? && q.v < 3)
      && (q.Infinity? || q.NaN? ==> !InviteDisabled(q) && !LimitWarning(q))
  {
  }

  /** On a resolved STARTER record the user quota is the full 3 slots: invitations are allowed
      and no warning shows; an ENTERPRISE record is unbounded. */
  lemma MockTenantGates(tenantId: string, planUser: Option<User>)
    requires FetchTenantInfo(tenantId, planUser).Some?
    ensures var t := FetchTenantInfo(tenantId, planUser);
      var q := RemainingQuota(t, "maxUsers");
      (t.value.plan == "STARTER" || t.value.plan == "ENTERPRISE") ==> !InviteDisabled(q) && !LimitWarning(q)
  {
    MockQuotaIsFullLimit(tenantId, planUser);
  }

  /** The page state. */
  class TeamPage {
    var members: seq<Member>
    var inviteOpen: bool
    var inviteEmail: string
    var inviteRole: string

    /** The page mounts with the demo users of the signed-in user's tenant (compared exactly,
        so without a user only users without a tenant would match) and an empty form. */
    constructor (user: Option<User>, loadMs: int)
      ensures members == Filter(DemoUsers(loadMs), (m: Member) => m.tenantId == TenantIdOf(user))
      ensures forall i :: 0 <= i < |members| ==> members[i].tenantId == TenantIdOf(user)
      ensures !inviteOpen && inviteEmail == "" && inviteRole == "tenant_user"
    {
      members := Filter(DemoUsers(loadMs), (m: Member) => m.tenantId == TenantIdOf(user));
      inviteOpen := false;
      inviteEmail := "";
      inviteRole := "tenant_user";
    }

    /** Opening the invitation dialog. */
    method OpenInvite()
      modifies this
      ensures inviteOpen
      ensures members == old(members) && inviteEmail == old(inviteEmail) && inviteRole == old(inviteRole)
    {
      inviteOpen := true;
    }

    /** Cancelling the invitation dialog keeps what was typed. */
    method CancelInvite()
      modifies this
      ensures !inviteOpen
      ensures members == old(members) && inviteEmail == old(inviteEmail) && inviteRole == old(inviteRole)
    {
      inviteOpen := false;
    }

    /** Typing into the invitation form. */
    method EditInvite(email: string, role: string)
      modifies this
      ensures inviteEmail == email && inviteRole == role
      ensures members == old(members) && inviteOpen == old(inviteOpen)
    {
      inviteEmail := email;
      inviteRole := role;
    }

    /** `handleInviteUser()` at time `now`: exactly one member is appended and the form resets
        and closes. Without a signed-in user reading its tenant id throws and nothing changes. */
    method Invite(now: int, user: Option<User>)
      modifies this
      ensures user.None? ==>
        members == old(members) && inviteOpen == old(inviteOpen)
        && inviteEmail == old(inviteEmail) && inviteRole == old(inviteRole)
      ensures user.Some? ==>
        && members == old(members) + [Invited(old(inviteEmail), old(inviteRole), user.value.tenantId, now)]
        && inviteEmail == "" && inviteRole == "tenant_user" && !inviteOpen
    {
      if user.Some? {
        members := members + [Invited(inviteEmail, inviteRole, user.value.tenantId, now)];
        inviteEmail := "";
        inviteRole := "tenant_user";
        inviteOpen := false;
      }
    }

    /** `handleDeleteUser(id)` with the answer `confirmed` to the confirmation dialog: the
        members with that id go, the others stay in order. */
    method Delete(id: string, confirmed: bool)
      modifies this
      ensures confirmed ==> members == Filter(old(members), (m: Member) => m.id != id)
      ensures confirmed ==> Subsequence(members, old(members))
                            && forall m :: m in members <==> m in old(members) && m.id != id
      ensures !confirmed ==> members == old(members)
      ensures inviteOpen == old(inviteOpen) && inviteEmail == old(inviteEmail) && inviteRole == old(inviteRole)
    {
      if confirmed {
        FilterSubsequence(members, (m: Member) => m.id != id);
        members := Filter(members, (m: Member) => m.id != id);
      }
    }
  }

  /** The signed-in Acme admin starts with the two Acme demo users. */
  lemma AcmeTeam(user: User, loadMs: int)
    requires user.tenantId == Some("acme")
    ensures |Filter(DemoUsers(loadMs), (m: Member) => m.tenantId == TenantIdOf(Some(user)))| == 2
  {
    var p := (m: Member) => m.tenantId == TenantIdOf(Some(user));
    var d := DemoUsers(loadMs);
    assert d == [d[0], d[1]] + d[2..];
    FilterAppend([d[0], d[1]], d[2..], p);
    assert [d[0], d[1]] == [d[0]] + [d[1]];
    FilterAppend([d[0]], [d[1]], p);
    FilterSingleton(d[0], p);
    FilterSingleton(d[1], p);
    assert Filter(d[2..], p) == [] by {
      forall i | 0 <= i < |d[2..]| ensures !p(d[2..][i]) {
      }
      NoneKept(d[2..], p);
    }
  }
}
