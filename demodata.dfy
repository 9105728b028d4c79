/** The demo fixtures (tenants, accounts, team members, notes, categories) and the note query
    helpers over them. Every helper takes the notes it reads as a parameter: the page that shows
    the notes can reorder the one shared `demoNotes` array in place, so what the helpers see is
    the current contents of that array, which starts out as `DemoNotes`. */
module DemoData {
  import opened Wrappers
  import opened Seqs
  import opened Sorting
  import opened Text
  import opened JsValues

  /** A note. Times are milliseconds since the epoch. The tenant and author fields are absent
      on notes the page creates. */
  datatype Note = Note(
    id: string, title: string, content: string, category: string, tags: seq<string>,
    createdAt: int, updatedAt: int, isPinned: bool, color: string,
    tenantId: Option<string>, tenantSlug: Option<string>,
    authorId: Option<string>, authorEmail: Option<string>, authorName: Option<string>)

  datatype Subscription = Subscription(plan: string, status: string, renewalDate: Option<string>)

  /** An entry of the `tenants` table, keyed by slug. */
  datatype TenantEntry = TenantEntry(
    id: string, name: string, slug: string, plan: string,
    features: map<string, FeatureValue>, usage: map<string, FeatureValue>,
    createdAt: string, subscription: Subscription)

  /** An entry of `demoTenants`, the list the tenant switcher offers. */
  datatype TenantListing = TenantListing(
    id: string, name: string, domain: string, plan: string, status: string,
    users: nat, maxUsers: int, notes: nat, maxNotes: int, storage: string, maxStorage: string)

  /** A team member as the team page lists it; `lastActive` in milliseconds. */
  datatype Member = Member(
    id: string, email: string, name: string, role: string, tenantId: Option<string>,
    lastActive: int, status: string)

  const FreeFeatures: map<string, FeatureValue> := map[
    "maxUsers" := FNum(-1), "maxNotes" := FNum(3), "storage" := FText("1GB"),
    "customBranding" := FBool(false), "apiAccess" := FBool(false), "prioritySupport" := FBool(false)]

  /** `tenants`: both demo tenants are on the FREE plan with a three-note limit. */
  const Tenants: map<string, TenantEntry> := map[
    "acme" := TenantEntry("acme", "Acme Corporation", "acme", "FREE", FreeFeatures,
      map["users" := FNum(2), "notes" := FNum(2), "storage" := FText("0.1GB")],
      "2024-01-15", Subscription("FREE", "active", None)),
    "globex" := TenantEntry("globex", "Globex Corporation", "globex", "FREE", FreeFeatures,
      map["users" := FNum(2), "notes" := FNum(1), "storage" := FText("0.05GB")],
      "2024-03-20", Subscription("FREE", "active", None))]

  /** `demoTenants`. */
  const DemoTenants: seq<TenantListing> := [
    TenantListing("acme", "Acme Corporation", "acme.notesaas.com", "FREE", "active", 2, -1, 2, 3, "0.1GB", "1GB"),
    TenantListing("globex", "Globex Corporation", "globex.notesaas.com", "FREE", "active", 2, -1, 1, 3, "0.05GB", "1GB")]

  /** `demoUsers`, whose activity times are taken relative to the moment `loadMs` the data is
      loaded. */
  function DemoUsers(loadMs: int): seq<Member> {
    [ Member("user-1", "admin@acme.test", "Admin User", "tenant_admin", Some("acme"), loadMs, "active"),
      Member("user-2", "user@acme.test", "Regular User", "tenant_user", Some("acme"), loadMs - 30 * 60 * 1000, "active"),
      Member("user-3", "admin@globex.test", "Admin User", "tenant_admin", Some("globex"), loadMs - 60 * 60 * 1000, "active"),
      Member("user-4", "user@globex.test", "Regular User", "tenant_user", Some("globex"), loadMs - 2 * 60 * 60 * 1000, "active") ]
  }

  /** The Markdown bodies of the three demo notes. */
  const WelcomeContent: string :=
    "# Welcome to Acme Corporation Notes\n"
    + "\n"
    + "This is a sample note for Acme Corporation. As a Free plan tenant, you can create up to 3 notes.\n"
    + "\n"
    + "## Features Available:\n"
    + "- Create, edit, and delete notes\n"
    + "- Basic text formatting\n"
    + "- Note organization\n"
    + "\n"
    + "**Current Plan**: Free (3 notes maximum)\n"
    + "**Upgrade to Pro**: Contact your admin to unlock unlimited notes!"
  const PlanningContent: string :=
    "# Project Planning - Q1 2024\n"
    + "\n"
    + "## Objectives\n"
    + "- Complete system requirements\n"
    + "- Design user interface mockups\n"
    + "- Set up development environment\n"
    + "\n"
    + "## Timeline\n"
    + "- Week 1: Requirements gathering\n"
    + "- Week 2-3: Design phase\n"
    + "- Week 4: Development setup\n"
    + "\n"
    + "## Notes\n"
    + "This project is critical for our Q1 goals. Make sure to coordinate with all team members.\n"
    + "\n"
    + "**Status**: In Progress\n"
    + "**Due Date**: March 31, 2024"
  const OverviewContent: string :=
    "# Globex Corporation Notes System\n"
    + "\n"
    + "Welcome to Globex Corporation's note-taking platform!\n"
    + "\n"
    + "## Current Status\n"
    + "- **Plan**: Free (up to 3 notes)\n"
    + "- **Users**: 2 team members\n"
    + "- **Notes Created**: 1 of 3 available\n"
    + "\n"
    + "## Getting Started\n"
    + "1. Create your first note\n"
    + "2. Organize with categories and tags\n"
    + "3. Collaborate with team members\n"
    + "4. Consider upgrading to Pro for unlimited notes\n"
    + "\n"
    + "## Need More Notes?\n"
    + "Contact your administrator to upgrade to the Pro plan for unlimited note creation.\n"
    + "\n"
    + "**Company**: Globex Corporation\n"
    + "**Plan**: Free Tier"

  /** The initial contents of `demoNotes`: two Acme notes and one Globex note. */
  const DemoNotes: seq<Note> := [
    Note("1", "Welcome to Acme Corporation",
      WelcomeContent,
      "Welcome", ["welcome", "acme", "getting-started"], 1705312800000, 1705312800000, true, "#e3f2fd",
      Some("acme"), Some("acme"), Some("user-1"), Some("admin@acme.test"), Some("Admin User")),
    Note("2", "Project Planning Notes",
      PlanningContent,
      "Projects", ["planning", "q1", "project"], 1705761000000, 1706174100000, false, "#fff3e0",
      Some("acme"), Some("acme"), Some("user-2"), Some("user@acme.test"), Some("Regular User")),
    Note("3", "Globex Corporation Overview",
      OverviewContent,
      "Company", ["welcome", "globex", "overview"], 1710950400000, 1711017000000, true, "#e8f5e8",
      Some("globex"), Some("globex"), Some("user-3"), Some("admin@globex.test"), Some("Admin User"))]

  /** `demoCategories`. */
  const DemoCategories: seq<string> := ["Welcome", "Projects", "Company", "Planning", "Development", "All"]

  /** The notes a tenant slug selects: all notes when the slug is absent or empty, otherwise
      exactly the notes carrying that slug, in order. */
  function TenantNotes(notes: seq<Note>, slug: Option<string>): (r: seq<Note>)
    ensures !TruthyText(slug) ==> r == notes
    ensures TruthyText(slug) ==> forall i :: 0 <= i < |r| ==> r[i].tenantSlug == slug && r[i] in notes
    ensures TruthyText(slug) ==> forall i :: 0 <= i < |notes| ==> (notes[i] in r <==> notes[i].tenantSlug == slug)
    ensures Subsequence(r, notes)
  {
    if TruthyText(slug) then
      FilterSubsequence(notes, (n: Note) => n.tenantSlug == slug);
      Filter(notes, (n: Note) => n.tenantSlug == slug)
    else
      SubsequenceRefl(notes);
      notes
  }

  /** `getNotesByCategory(category, slug)`: the tenant's notes, restricted to one category
      unless the category is `'All'`. */
  function NotesByCategory(notes: seq<Note>, category: string, slug: Option<string>): (r: seq<Note>)
    ensures category == "All" ==> r == TenantNotes(notes, slug)
    ensures category != "All" ==> forall i :: 0 <= i < |r| ==> r[i].category == category && r[i] in TenantNotes(notes, slug)
    ensures category != "All" ==>
      var t := TenantNotes(notes, slug);
      forall i :: 0 <= i < |t| ==> (t[i] in r <==> t[i].category == category)
  {
    var t := TenantNotes(notes, slug);
    if category == "All" then t else Filter(t, (n: Note) => n.category == category)
  }

  /** A note matches a lower-cased query when its title, its content or one of its tags, lower
      cased, contains the query. */
  predicate Matches(n: Note, lowerQuery: string) {
    || Contains(Lower(n.title), lowerQuery)
    || Contains(Lower(n.content), lowerQuery)
    || exists k :: 0 <= k < |n.tags| && Contains(Lower(n.tags[k]), lowerQuery)
  }

  /** `searchNotes(query, slug)`: with an empty query, the tenant's notes; otherwise exactly the
      tenant's notes that match the query case-insensitively. */
  function SearchNotes(notes: seq<Note>, query: string, slug: Option<string>): (r: seq<Note>)
    ensures query == "" ==> r == TenantNotes(notes, slug)
    ensures query != "" ==> forall i :: 0 <= i < |r| ==> r[i] in TenantNotes(notes, slug) && Matches(r[i], Lower(query))
    ensures query != "" ==>
      var t := TenantNotes(notes, slug);
      forall i :: 0 <= i < |t| ==> (t[i] in r <==> Matches(t[i], Lower(query)))
  {
    var t := TenantNotes(notes, slug);
    if query == "" then t
    else
      var q := Lower(query);
      Filter(t, (n: Note) => Matches(n, q))
  }

  /** `getPinnedNotes(slug)`: exactly the tenant's pinned notes. */
  function PinnedNotes(notes: seq<Note>, slug: Option<string>): (r: seq<Note>)
    ensures forall i :: 0 <= i < |r| ==> r[i].isPinned && r[i] in TenantNotes(notes, slug)
    ensures var t := TenantNotes(notes, slug);
      forall i :: 0 <= i < |t| ==> (t[i] in r <==> t[i].isPinned)
  {
    Filter(TenantNotes(notes, slug), (n: Note) => n.isPinned)
  }

  /** The comparator `(a, b) => b.updatedAt - a.updatedAt`: `a` may stay before `b` when it was
      updated no earlier. */
  function RecentFirst(): (Note, Note) -> bool {
    (a: Note, b: Note) => a.updatedAt >= b.updatedAt
  }

  /** The end index `s.slice(0, limit)` stops at in a sequence of length `len`. */
  function SliceEnd(len: nat, limit: int): (k: nat)
    ensures k <= len
    ensures limit >= 0 ==> k == if limit < len then limit else len
    ensures limit < 0 ==> k == if len + limit > 0 then len + limit else 0
  {
    if limit >= 0 then (if limit < len then limit else len)
    else if len + limit > 0 then len + limit else 0
  }

  /** `getRecentNotes(limit, slug)`: a sorted copy of the tenant's notes, most recently updated
      first, cut to `limit` (or, for a negative limit, with that many dropped from the end). */
  function RecentNotes(notes: seq<Note>, limit: int, slug: Option<string>): (r: seq<Note>)
    ensures var t := TenantNotes(notes, slug); |r| == SliceEnd(|t|, limit)
    ensures limit >= 0 ==> |r| <= limit
    ensures multiset(r) <= multiset(TenantNotes(notes, slug))
  {
    var t := TenantNotes(notes, slug);
    var sorted := Sort(t, RecentFirst());
    var k := SliceEnd(|t|, limit);
    PrefixSubMultiset(sorted, k);
    sorted[..k]
  }

  /** `getNoteCountForTenant(slug)`. */
  function NoteCount(notes: seq<Note>, slug: string): (r: nat)
    ensures slug != "" ==> r == |TenantNotes(notes, Some(slug))|
    ensures r <= |notes|
  {
    Count(notes, (n: Note) => n.tenantSlug == Some(slug))
  }

  /** `canCreateNote(slug)`: false for an unknown tenant, true with an unlimited (`-1`)
      `maxNotes`, otherwise whether the tenant's count is below the limit. */
  function CanCreateNote(notes: seq<Note>, tenants: map<string, TenantEntry>, slug: string): (r: bool)
    ensures slug !in tenants ==> !r
    ensures slug in tenants && Lookup(tenants[slug].features, "maxNotes") == Some(FNum(-1)) ==> r
  {
    if slug !in tenants then false
    else
      var max := Lookup(tenants[slug].features, "maxNotes");
      if max == Some(FNum(-1)) then true
      else
        var m := ToNumber(max);
        m.Fin? && NoteCount(notes, slug) < m.v
  }

  /** What `getNoteLimitInfo` reports as remaining: `'unlimited'`, or a number. */
  datatype Remaining = Unlimited | Left(n: Num)

  datatype LimitInfo = LimitInfo(current: nat, max: Option<FeatureValue>, canCreate: bool, remaining: Remaining)

  /** `getNoteLimitInfo(slug)`: absent for an unknown tenant; otherwise the count, the limit,
      `canCreateNote`, and the unclamped difference between limit and count. */
  function NoteLimitInfo(notes: seq<Note>, tenants: map<string, TenantEntry>, slug: string): (r: Option<LimitInfo>)
    ensures r.None? <==> slug !in tenants
    ensures r.Some? ==> r.value.canCreate == CanCreateNote(notes, tenants, slug)
    ensures r.Some? ==> (r.value.remaining.Unlimited? <==> r.value.max == Some(FNum(-1)))
    ensures r.Some? ==> r.value.current == NoteCount(notes, slug)
    ensures r.Some? ==> r.value.max == Lookup(tenants[slug].features, "maxNotes")
    ensures r.Some? && r.value.remaining.Left? ==> r.value.remaining.n == Sub(ToNumber(r.value.max), Fin(r.value.current))
  {
    if slug !in tenants then None
    else
      var max := Lookup(tenants[slug].features, "maxNotes");
      var current := NoteCount(notes, slug);
      Some(LimitInfo(current, max, CanCreateNote(notes, tenants, slug),
        if max == Some(FNum(-1)) then Unlimited else Left(Sub(ToNumber(max), Fin(current)))))
  }

  /** With a tenant slug, every query helper returns only that tenant's notes. */
  lemma TenantIsolation(notes: seq<Note>, slug: Option<string>, category: string, query: string, limit: int)
    requires TruthyText(slug)
    ensures forall n :: n in NotesByCategory(notes, category, slug) ==> n.tenantSlug == slug
    ensures forall n :: n in SearchNotes(notes, query, slug) ==> n.tenantSlug == slug
    ensures forall n :: n in PinnedNotes(notes, slug) ==> n.tenantSlug == slug
    ensures forall n :: n in RecentNotes(notes, limit, slug) ==> n.tenantSlug == slug
  {
    var t := TenantNotes(notes, slug);
    assert forall n :: n in t ==> n.tenantSlug == slug;
    forall n | n in RecentNotes(notes, limit, slug) ensures n.tenantSlug == slug {
      assert n in multiset(RecentNotes(notes, limit, slug));
      assert n in multiset(t);
    }
  }

  /** Search results keep the order the notes have in the tenant's list. */
  lemma SearchKeepsOrder(notes: seq<Note>, query: string, slug: Option<string>)
    ensures Subsequence(SearchNotes(notes, query, slug), TenantNotes(notes, slug))
  {
    var t := TenantNotes(notes, slug);
    if query == "" {
      SubsequenceRefl(t);
    } else {
      var q := Lower(query);
      FilterSubsequence(t, (n: Note) => Matches(n, q));
    }
  }

  /** Pinned notes keep the order they have in the tenant's list. */
  lemma PinnedKeepsOrder(notes: seq<Note>, slug: Option<string>)
    ensures Subsequence(PinnedNotes(notes, slug), TenantNotes(notes, slug))
  {
    FilterSubsequence(TenantNotes(notes, slug), (n: Note) => n.isPinned);
  }

  /** "Updated no earlier" is a total preorder, so the recent-first sort is well defined. */
  lemma RecentFirstPreorder()
    ensures TotalPreorder(RecentFirst())
  {
  }

  /** `getRecentNotes` lists notes most recently updated first, and is the first notes of the
      sorted copy of the tenant's list. */
  lemma RecentNotesOrdered(notes: seq<Note>, limit: int, slug: Option<string>)
    ensures var r := RecentNotes(notes, limit, slug);
      forall i, j :: 0 <= i < j < |r| ==> r[i].updatedAt >= r[j].updatedAt
    ensures var t := TenantNotes(notes, slug);
      RecentNotes(notes, limit, slug) == Sort(t, RecentFirst())[..SliceEnd(|t|, limit)]
  {
    var t := TenantNotes(notes, slug);
    RecentFirstPreorder();
    SortSorted(t, RecentFirst());
    var sorted := Sort(t, RecentFirst());
    var r := RecentNotes(notes, limit, slug);
    forall i, j | 0 <= i < j < |r| ensures r[i].updatedAt >= r[j].updatedAt {
      assert r[i] == sorted[i] && r[j] == sorted[j];
      assert RecentFirst()(sorted[i], sorted[j]);
    }
  }

  /** With a numeric limit other than `-1`, the remaining count is the unclamped difference,
      and a note can be created exactly when it is positive. */
  lemma NoteLimitNumeric(notes: seq<Note>, tenants: map<string, TenantEntry>, slug: string, m: int)
    requires slug in tenants && Lookup(tenants[slug].features, "maxNotes") == Some(FNum(m)) && m != -1
    ensures var info := NoteLimitInfo(notes, tenants, slug).value;
      && info.remaining == Left(Fin(m - NoteCount(notes, slug)))
      && (info.canCreate <==> m - NoteCount(notes, slug) > 0)
  {
  }

  /** A limit that is missing or not a number leaves nothing creatable and `NaN` remaining. */
  lemma NoteLimitNotNumeric(notes: seq<Note>, tenants: map<string, TenantEntry>, slug: string)
    requires slug in tenants && ToNumber(Lookup(tenants[slug].features, "maxNotes")).NaN?
    ensures !CanCreateNote(notes, tenants, slug)
    ensures NoteLimitInfo(notes, tenants, slug).value.remaining == Left(NaN)
  {
  }

  /** On the demo fixtures both tenants are below their three-note limit: Acme has one note
      left and Globex two; an unknown slug has no limit information. */
  lemma DemoNoteLimits()
    ensures NoteCount(DemoNotes, "acme") == 2 && NoteCount(DemoNotes, "globex") == 1
    ensures CanCreateNote(DemoNotes, Tenants, "acme") && CanCreateNote(DemoNotes, Tenants, "globex")
    ensures NoteLimitInfo(DemoNotes, Tenants, "acme").value.remaining == Left(Fin(1))
    ensures NoteLimitInfo(DemoNotes, Tenants, "globex").value.remaining == Left(Fin(2))
    ensures NoteLimitInfo(DemoNotes, Tenants, "initech").None?
  {
    assert DemoNotes == [DemoNotes[0], DemoNotes[1], DemoNotes[2]];
    TwoAcmeOneGlobex(DemoNotes[0], DemoNotes[1], DemoNotes[2]);
  }

  /** The limits of the demo tenants for two Acme notes followed by one Globex note. */
  lemma TwoAcmeOneGlobex(n0: Note, n1: Note, n2: Note)
    requires n0.tenantSlug == Some("acme") && n1.tenantSlug == Some("acme") && n2.tenantSlug == Some("globex")
    ensures var notes := [n0, n1, n2];
      && NoteCount(notes, "acme") == 2 && NoteCount(notes, "globex") == 1
      && CanCreateNote(notes, Tenants, "acme") && CanCreateNote(notes, Tenants, "globex")
      && NoteLimitInfo(notes, Tenants, "acme").value.remaining == Left(Fin(1))
      && NoteLimitInfo(notes, Tenants, "globex").value.remaining == Left(Fin(2))
      && NoteLimitInfo(notes, Tenants, "initech").None?
  {
    var notes := [n0, n1, n2];
    CountThree(n0, n1, n2, "acme");
    CountThree(n0, n1, n2, "globex");
    DemoNoteLimit("acme");
    DemoNoteLimit("globex");
    NoteLimitNumeric(notes, Tenants, "acme", 3);
    NoteLimitNumeric(notes, Tenants, "globex", 3);
    assert "initech" !in Tenants;
  }

  /** Both demo tenants allow three notes. */
  lemma DemoNoteLimit(slug: string)
    requires slug == "acme" || slug == "globex"
    ensures slug in Tenants && Lookup(Tenants[slug].features, "maxNotes") == Some(FNum(3))
  {
    assert Tenants[slug].features == FreeFeatures;
  }

  /** The number of notes of a tenant among three. */
  lemma CountThree(n0: Note, n1: Note, n2: Note, slug: string)
    ensures NoteCount([n0, n1, n2], slug) ==
      (if n0.tenantSlug == Some(slug) then 1 else 0) +
      (if n1.tenantSlug == Some(slug) then 1 else 0) +
      (if n2.tenantSlug == Some(slug) then 1 else 0)
  {
    var p := (n: Note) => n.tenantSlug == Some(slug);
    assert [n0, n1, n2] == [n0] + ([n1] + [n2]);
    CountCons(n0, [n1] + [n2], p);
    CountCons(n1, [n2], p);
    CountCons(n2, [], p);
    assert [n2] == [n2] + [];
  }
}
