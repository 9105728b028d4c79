# Multi-tenant notes client: a Dafny model

This project models the browser client of a multi-tenant notes application as it runs in
demo mode. In that mode all data comes from in-memory fixtures:

- **Demo authentication.** Accounts are checked against a fixed credential table. A signed-in
  user gets a mock JWT: base64 of a header, base64 of a JSON payload with a one-day lifetime,
  and a placeholder signature. Validation reads only the payload part.
- **Session context.** The context holds the token, the parsed user and the tenant record, and
  mirrors them into local storage. It also derives the role flags, feature access and the
  remaining quota of a subscription limit.
- **Notes page.** The page filters notes by search and category and sorts them, pinned first.
  It has an editor dialog (create, edit, delete, pin, tags) and a markup-free preview.
- **Demo data helpers.** Per-tenant note queries, the most-recent list, note counts and the
  note-limit checks.
- **Team page.** The member list of the signed-in user's tenant, invitations, removals, and the
  button and warning gated by the user quota.
- **Navigation and visibility.** The admin route guard, the navigation bar, the organisation
  switcher, the post-login redirect and the landing page. The landing page covers plan cards,
  feature labels, plan selection, "get started" and the stat counters' targets.

Each core file becomes one module (`AuthContext`, `DemoAuth`, `DemoData`, `NotesPage`,
`TenantAdminPage`, `AdminRoute`, `Navbar`, `TenantSwitcher`, `LoginPage`, `Home`). Six
support modules hold the JavaScript behaviour the client relies on:

- `Wrappers`: `Option` and `Result`.
- `Seqs`: `filter`, order-preserving subsequences, duplicate-freedom.
- `Sorting`: `Array.prototype.sort` as a stable insertion sort, both as a function and in place.
- `Text`: case mapping, `split`, `replace`, `trim` and decimals.
- `Base64`: `btoa`/`atob`.
- `JsValues`: truthiness, `||`, `Number()` and `NaN`/`Infinity` arithmetic.

State that React keeps in hooks is modelled as classes whose methods are the event handlers:

- `AuthContext.Session` holds the token, user and tenant, plus the two storage keys.
- `NotesPage.Page` holds the shared notes array, the dialog and the form.
- `TenantAdminPage.TeamPage` holds the member list and the invitation form.
- `LoginPage.LoginForm` holds the typed credentials, the notice and the navigation.

`Session.Valid()` is the invariant every handler keeps. It says:

- the user is the parse of the token;
- there is no tenant without a token;
- storage mirrors the cells.

The clock, the JWT decoder, `JSON.stringify` and `JSON.parse` are parameters of the model.
Behaviour of the code worth knowing:

- **No demo account is a tenant admin.** The demo accounts carry the roles `ADMIN`/`MEMBER`.
  The client tests for `super_admin`, `tenant_admin` and tenant role `admin`.
- **Demo sign-ins land on `/notes`.** Without a page to return to, every demo sign-in lands
  there, including `admin@acme.test` (`LoginPage.DemoSignInsLandOnNotes`).
- **Demo users see only Home and Notes.** The bar shows them nothing else
  (`Navbar.DemoRolesSeeHomeAndNotes`).
- **The admin route never renders its page.** The guard reads `isAdmin`, which the context
  never provides, so it sends every signed-in user to `/notes` (`AdminRoute.NeverRenders`).
- **A fresh tenant record has its full quota.** The tenant record a login resolves is the
  context's mock record, not the demo tenant entry. That record has no usage for the limit
  keys, so the remaining user quota is the plan's whole limit (`AuthContext.MockQuotaIsFullLimit`).

## Model

| member | source | states |
|---|---|---|
| AuthContext.ParseToken | frontend/src/context/AuthContext.jsx:67-85 | absent exactly when decoding fails; otherwise `sub` is preferred to `id` and `tenantId` to `tenant_id`, with the role, tenant role, plan and permissions carried over and defaulted |
| AuthContext.LastFour | frontend/src/context/AuthContext.jsx:149-150 | `slice(-4)` is a suffix of the id, four characters long or the whole of a shorter id |
| AuthContext.FetchTenantInfo | frontend/src/context/AuthContext.jsx:143-172 | the plan is the closure user's plan or `STARTER`; a plan missing from the plan table makes the fetch fail (the property read throws inside the `try`); otherwise the record has the id, a name and domain from its last four characters, that plan's features and the fixed mock usage |
| AuthContext.Resolve | frontend/src/context/AuthContext.jsx:107-123 | only a parsed user with a truthy tenant id replaces the tenant, by the mock record under the previous user's plan; otherwise the tenant is unchanged |
| AuthContext.CanAccess | frontend/src/context/AuthContext.jsx:227-231 | a feature is accessible exactly when the tenant's value for it is the boolean `true` or the number `-1` |
| AuthContext.HasPermission | frontend/src/context/AuthContext.jsx:223-225 | `hasPermission(p)`: a user is present and `p` is in its permission list |
| AuthContext.IsAuthenticated | frontend/src/context/AuthContext.jsx:248 | `isAuthenticated`: a non-empty token and a user |
| AuthContext.IsSuperAdmin | frontend/src/context/AuthContext.jsx:251 | `isSuperAdmin`: the role is exactly `super_admin` |
| AuthContext.IsTenantAdmin | frontend/src/context/AuthContext.jsx:252 | `isTenantAdmin`: the tenant role is `admin` or the role is `tenant_admin` |
| AuthContext.IsTenantUser | frontend/src/context/AuthContext.jsx:253 | `isTenantUser`: the user has a non-empty tenant id |
| AuthContext.ExpiredAt | frontend/src/context/AuthContext.jsx:97-105 | the expiry effect fires for a non-zero `exp` strictly before the current instant |
| AuthContext.RemainingQuota | frontend/src/context/AuthContext.jsx:233-241 | 0 without a tenant, features or usage; unbounded exactly for a limit of `-1`; a finite quota is never negative |
| AuthContext.QuotaOfNumericLimit | frontend/src/context/AuthContext.jsx:233-241 | for a numeric limit other than `-1` the quota is the limit minus the numeric usage, floored at 0, and missing usage counts as 0 |
| AuthContext.MockQuotaIsFullLimit | frontend/src/context/AuthContext.jsx:143-172 | on every resolved mock record the remaining user and note quotas are the plan's full limits, or unbounded for ENTERPRISE |
| AuthContext.TenantPlan | frontend/src/context/AuthContext.jsx:257 | the tenant's non-empty plan, else `STARTER`; never empty |
| AuthContext.TenantFeatures | frontend/src/context/AuthContext.jsx:258 | the tenant's feature map, else the STARTER plan's features |
| AuthContext.DemoUsersHoldNoAdminRole | frontend/src/context/AuthContext.jsx:251-252 | the parsed demo token of every demo credential is neither a super admin nor a tenant admin |
| AuthContext.DemoAccountShape | frontend/src/utils/demoAuth.js:8-65 | every demo credential has role `ADMIN` or `MEMBER`, a tenant id, and a tenant on the `FREE` plan |
| AuthContext.PayloadUserRoles | frontend/src/context/AuthContext.jsx:67-85 | parsing the payload of such an account yields its role, the default tenant role and the `FREE` plan |
| AuthContext.Session.constructor | frontend/src/context/AuthContext.jsx:88-123 | mounting reads token and tenant from storage, treats an empty stored token as none, then runs the token effect, establishing `Valid()` |
| AuthContext.Session.SetToken | frontend/src/context/AuthContext.jsx:97-129 | an unchanged token changes nothing; a new unexpired token is stored and parsed and its tenant resolved; no token or an expired one clears all cells and both storage keys |
| AuthContext.Session.Logout | frontend/src/context/AuthContext.jsx:210-214 | token, user and tenant are cleared, and with them both storage keys, keeping `Valid()` |
| AuthContext.Session.CheckExpiry | frontend/src/context/AuthContext.jsx:97-105 | with a token, a user whose `exp` lies strictly before now is logged out; otherwise nothing changes |
| AuthContext.Session.Login | frontend/src/context/AuthContext.jsx:174-190 | a failed demo login returns its message (or `Login failed`) with state unchanged; a successful one sets the issued token and returns the parsed user |
| AuthContext.Session.Signup | frontend/src/context/AuthContext.jsx:192-208 | always the demo error `Signup not implemented in demo mode` |
| AuthContext.Session.SwitchTenant | frontend/src/context/AuthContext.jsx:216-221 | only with `switch_tenant` permission and a successful fetch does the tenant become the mock record for the id; otherwise nothing changes; token and user are never touched |
| DemoAuth.Payload | frontend/src/utils/demoAuth.js:82-95 | the claims carry `sub` = account id, the account's e-mail, names, role, tenant id, slug and name and permissions, the tenant's plan, `iat` and `exp` = `iat` + 86400, and no `id`, `tenant_id` or tenant role |
| AuthContext.PayloadParse | frontend/src/context/AuthContext.jsx:67-85 | the user read from any account's payload: its e-mail, permissions and non-empty id and tenant id, its role (`member` when empty), the default tenant role, the tenant's plan (`STARTER` when empty), `exp` and `iat` |
| DemoAuth.IssueToken | frontend/src/utils/demoAuth.js:98-107 | issuing succeeds exactly when the stringified payload and the signature text are Latin-1, else `InvalidCharacterError`; the token is the three dot-joined encodings of header, payload and signature, returned with the payload and the tenant |
| DemoAuth.HeaderIsLatin1 | frontend/src/utils/demoAuth.js:98 | the header JSON can be base64-encoded |
| DemoAuth.DemoLogin | frontend/src/utils/demoAuth.js:67-108 | unknown e-mail or wrong password gives `Invalid email or password`; a missing tenant gives `Tenant not found`; otherwise the token is issued for the credential's user and tenant |
| DemoAuth.ValidateToken | frontend/src/utils/demoAuth.js:110-133 | a payload is returned exactly for a non-empty token of three parts whose middle part decodes and parses, and whose `exp` is absent, 0 or not before the current second; the result is that parse |
| DemoAuth.Expired | frontend/src/utils/demoAuth.js:124 | a present non-zero `exp` before the current whole second |
| DemoAuth.CurrentUser | frontend/src/utils/demoAuth.js:135-142 | the current user is the validated payload |
| DemoAuth.CanInviteUsers | frontend/src/utils/demoAuth.js:181-191 | inviting, managing and upgrading are open exactly to the role `ADMIN` |
| DemoAuth.TenantInfo | frontend/src/utils/demoAuth.js:193-195 | an entry exactly for a known slug, and it is that slug's entry; of the demo tenants, exactly `acme` and `globex` are known, each under its own slug |
| DemoAuth.DemoSignup | frontend/src/utils/demoAuth.js:198-201 | always fails with `Signup not implemented in demo mode` |
| DemoAuth.OnlyPayloadPartMatters | frontend/src/utils/demoAuth.js:116-121 | validation gives the same outcome whatever the header and the signature are |
| DemoAuth.LoginThenValidate | frontend/src/utils/demoAuth.js:67-133 | when the JSON codec round-trips, validating a freshly issued token gives back exactly the issued payload, until its expiry |
| DemoAuth.DemoSignaturesLatin1 | frontend/src/utils/demoAuth.js:99 | every demo account's placeholder signature is Latin-1, so `btoa` accepts it |
| DemoAuth.DemoCredentialSignIn | frontend/src/utils/demoAuth.js:67-106 | every demo account's password is `password`, its tenant exists, and signing in succeeds exactly when the payload's JSON text is Latin-1, with the account's e-mail and tenant |
| DemoAuth.DemoCredentialsLogIn | frontend/src/utils/demoAuth.js:8-79 | every demo credential's tenant exists; an unknown e-mail or a password other than `password` is refused |
| DemoAuth.AdminAccountsOnly | frontend/src/utils/demoAuth.js:181-191 | among the demo credentials exactly the two `admin@…` accounts may invite, manage or upgrade |
| DemoData.TenantNotes | frontend/src/data/demoData.js:342-362 | an empty or absent slug selects all notes; a slug selects exactly the notes carrying it, in order |
| DemoData.NotesByCategory | frontend/src/data/demoData.js:342-346 | the tenant's notes, and for a category other than `All` exactly those of that category |
| DemoData.SearchNotes | frontend/src/data/demoData.js:348-357 | an empty query gives the tenant's notes; otherwise exactly those whose lower-cased title, content or a tag contains the lower-cased query |
| DemoData.Matches | frontend/src/data/demoData.js:351-356 | a note matches when its lower-cased title, content or one of its tags contains the lower-cased query |
| DemoData.PinnedNotes | frontend/src/data/demoData.js:359-362 | exactly the tenant's pinned notes |
| DemoData.SliceEnd | frontend/src/data/demoData.js:368 | where `slice(0, limit)` stops, clamped to the length, with a negative limit counted from the end |
| DemoData.RecentNotes | frontend/src/data/demoData.js:364-369 | exactly as many notes as `slice(0, limit)` keeps of the tenant's list, never more than a non-negative limit, each drawn from the tenant's notes without repetition beyond theirs |
| DemoData.NoteCount | frontend/src/data/demoData.js:372-374 | the number of the tenant's notes |
| DemoData.CanCreateNote | frontend/src/data/demoData.js:376-387 | false for an unknown tenant, true for an unlimited `maxNotes`, otherwise whether the count is below the limit |
| DemoData.NoteLimitInfo | frontend/src/data/demoData.js:389-402 | absent for an unknown tenant; otherwise the count, the tenant's `maxNotes` value as the limit, creatability, and a remainder that is unlimited exactly for a limit of `-1`, else the unclamped difference |
| DemoData.TenantIsolation | frontend/src/data/demoData.js:342-369 | with a slug, category, search, pinned and recent queries return only that tenant's notes |
| DemoData.SearchKeepsOrder | frontend/src/data/demoData.js:348-357 | search results are an order-preserving subsequence of the tenant's notes |
| DemoData.PinnedKeepsOrder | frontend/src/data/demoData.js:359-362 | pinned notes are an order-preserving subsequence of the tenant's notes |
| DemoData.RecentFirstPreorder | frontend/src/data/demoData.js:367 | the comparator `b.updatedAt - a.updatedAt` is a total preorder |
| DemoData.RecentNotesOrdered | frontend/src/data/demoData.js:364-369 | recent notes are ordered most recently updated first and are a prefix of the sorted tenant list |
| DemoData.NoteLimitNumeric | frontend/src/data/demoData.js:376-402 | for a numeric limit other than `-1` the remainder is limit minus count and creation is allowed exactly when it is positive |
| DemoData.NoteLimitNotNumeric | frontend/src/data/demoData.js:376-402 | a missing or non-numeric limit allows nothing and leaves `NaN` remaining |
| DemoData.DemoNoteLimits | frontend/src/data/demoData.js:214-311 | on the fixtures Acme has one note left of three and Globex two; an unknown slug has no limit information |
| DemoData.TwoAcmeOneGlobex | frontend/src/data/demoData.js:376-402 | any two Acme notes and one Globex note leave one slot for Acme and two for Globex, both still creatable |
| DemoData.DemoNoteLimit | frontend/src/data/demoData.js:5-60 | both demo tenants' `maxNotes` is 3 |
| NotesPage.FormOf | frontend/src/pages/Notes.jsx:312-326 | the form opens on the note's title, content, category and tags |
| NotesPage.NoteLePreorder | frontend/src/pages/Notes.jsx:289-302 | for every sort key the comparator is a total preorder, given a consistent locale order |
| NotesPage.NoteLe | frontend/src/pages/Notes.jsx:290-303 | the sort comparator: pinned first, then by title, newest creation or newest update |
| NotesPage.DisplayedSource | frontend/src/pages/Notes.jsx:282-288 | a note is in the source exactly when it is a demo note matching a non-empty query (a page note when the query is empty) and, unless the category is `All`, of that category |
| NotesPage.Displayed | frontend/src/pages/Notes.jsx:282-305 | the displayed list is a permutation of its source |
| NotesPage.DisplayedOrder | frontend/src/pages/Notes.jsx:289-302 | every pinned note precedes every unpinned one, and notes with the same pin state are ordered by the key |
| NotesPage.DisplayedMembers | frontend/src/pages/Notes.jsx:282-305 | a selected category shows only notes of that category, and a non-empty query only demo notes matching it |
| NotesPage.CategoryCount | frontend/src/pages/Notes.jsx:307-310 | an entry exactly for the demo categories, all page notes for `All`, and for every category the number of notes the page lists (and `getNotesByCategory` returns) when that category is chosen without a query |
| NotesPage.BlankMarkup | frontend/src/pages/Notes.jsx:75 | every markup character becomes a space and every other character is kept |
| NotesPage.PreviewContent | frontend/src/pages/Notes.jsx:74-77 | at most `limit` + 3 characters; the trimmed text itself when short enough, otherwise its first `limit` characters and `...` |
| NotesPage.PreviewHasNoMarkup | frontend/src/pages/Notes.jsx:74-77 | no markup character survives into the preview |
| NotesPage.EditNotes | frontend/src/pages/Notes.jsx:338-343 | notes with the edited id take the form's fields and the update time; all others are unchanged; length and order are kept |
| NotesPage.EditAbsentId | frontend/src/pages/Notes.jsx:338-343 | editing an id no note carries leaves the list unchanged |
| NotesPage.NewNote | frontend/src/pages/Notes.jsx:344-355 | the created note carries the form's fields, both timestamps `now`, is unpinned and has the default colour |
| NotesPage.DeleteNotes | frontend/src/pages/Notes.jsx:359-363 | exactly the notes with another id remain, every copy of each, in order |
| NotesPage.DeleteCreated | frontend/src/pages/Notes.jsx:344-363 | deleting a just-created note under a fresh id gives back the earlier notes |
| NotesPage.TogglePinned | frontend/src/pages/Notes.jsx:365-369 | the pin flips on notes with the id; every other field and every other note is kept |
| NotesPage.TogglePinTwice | frontend/src/pages/Notes.jsx:365-369 | toggling the same pin twice restores the list |
| NotesPage.AddTag | frontend/src/pages/Notes.jsx:371-376 | a non-empty tag not yet present is appended; otherwise the tags are unchanged |
| NotesPage.AddTagNoDup | frontend/src/pages/Notes.jsx:371-376 | adding keeps the tags duplicate-free, and afterwards a non-empty tag is present |
| NotesPage.RemoveTag | frontend/src/pages/Notes.jsx:378-383 | exactly the other tags remain, every copy of each, in order |
| NotesPage.RemoveTagNoDup | frontend/src/pages/Notes.jsx:378-383 | removing keeps the tags duplicate-free |
| NotesPage.FromSeq | frontend/src/pages/Notes.jsx:270 | a fresh array holding the given notes |
| NotesPage.Page.constructor | frontend/src/pages/Notes.jsx:270-279 | the page starts on the shared demo notes array with a closed dialog and an empty form |
| NotesPage.Page.Show | frontend/src/pages/Notes.jsx:282-305 | the result is the displayed list; without a query and with `All` the page's own array is sorted in place to it; otherwise no array changes |
| NotesPage.Page.Open | frontend/src/pages/Notes.jsx:312-326 | the dialog opens on the note's form, or on the empty form for a new note |
| NotesPage.Page.Close | frontend/src/pages/Notes.jsx:328-332 | the dialog closes, the form empties and no note is being edited |
| NotesPage.Page.Submit | frontend/src/pages/Notes.jsx:334-357 | an edited note is merged with the form; otherwise a new note goes in front; the dialog then closes |
| NotesPage.Page.Delete | frontend/src/pages/Notes.jsx:359-363 | when confirmed the notes with the id are removed, otherwise nothing changes |
| NotesPage.Page.TogglePin | frontend/src/pages/Notes.jsx:365-369 | the notes become `TogglePinned` of the old notes |
| NotesPage.Page.TypeTag | frontend/src/pages/Notes.jsx:279 | only the tag field changes |
| NotesPage.Page.AddTypedTag | frontend/src/pages/Notes.jsx:371-376 | a fresh non-empty tag is appended and the field cleared; otherwise nothing changes; tags stay duplicate-free |
| NotesPage.Page.RemoveFormTag | frontend/src/pages/Notes.jsx:378-383 | the form's tags lose every occurrence of the tag |
| TenantAdminPage.Invited | frontend/src/pages/TenantAdmin.jsx:133-141 | the invited member's id is `user_` and the time, the name is the e-mail's part before the first `@`, the status pending, in the inviter's tenant |
| TenantAdminPage.TenantIdOf | frontend/src/pages/TenantAdmin.jsx:125 | `user?.tenantId`: none without a user |
| TenantAdminPage.RoleLabel | frontend/src/pages/TenantAdmin.jsx:94 | the label has the role's length |
| TenantAdminPage.RoleLabelSpec | frontend/src/pages/TenantAdmin.jsx:94 | each character is upper-cased, except the first `_`, which becomes a space; later `_` stay |
| TenantAdminPage.RoleLabelOfParts | frontend/src/pages/TenantAdmin.jsx:94 | `a_b` with no `_` in `a` reads `A B` |
| TenantAdminPage.QuotaGates | frontend/src/pages/TenantAdmin.jsx:184-208 | the invite button is disabled exactly at a quota of 0; the warning shows exactly below 3; unbounded or `NaN` quotas do neither |
| TenantAdminPage.InviteDisabled | frontend/src/pages/TenantAdmin.jsx:197 | the invite button is disabled for a finite quota of at most 0 |
| TenantAdminPage.LimitWarning | frontend/src/pages/TenantAdmin.jsx:204 | the warning shows for a finite quota below 3 |
| TenantAdminPage.SendDisabled | frontend/src/pages/TenantAdmin.jsx:341 | sending is disabled for an empty e-mail |
| TenantAdminPage.MockTenantGates | frontend/src/pages/TenantAdmin.jsx:184-208 | on a resolved STARTER or ENTERPRISE record invitations are open and no warning shows |
| TenantAdminPage.TeamPage.constructor | frontend/src/pages/TenantAdmin.jsx:125-129 | the list is exactly the demo users of the user's tenant, in order, and the form is empty |
| TenantAdminPage.TeamPage.OpenInvite | frontend/src/pages/TenantAdmin.jsx:196 | only the dialog opens |
| TenantAdminPage.TeamPage.CancelInvite | frontend/src/pages/TenantAdmin.jsx:337 | only the dialog closes; what was typed stays |
| TenantAdminPage.TeamPage.EditInvite | frontend/src/pages/TenantAdmin.jsx:322-330 | only the form's e-mail and role change |
| TenantAdminPage.TeamPage.Invite | frontend/src/pages/TenantAdmin.jsx:131-145 | exactly one invited member is appended and the form resets and closes; without a user nothing changes |
| TenantAdminPage.TeamPage.Delete | frontend/src/pages/TenantAdmin.jsx:147-151 | when confirmed exactly the members with another id stay, in order; otherwise nothing changes |
| TenantAdminPage.AcmeTeam | frontend/src/data/demoData.js:170-211 | an Acme user's team starts with two members |
| AdminRoute.Decide | frontend/src/components/AdminRoute.jsx:5-9 | signed-out goes to `/login`; signed-in without a truthy `isAdmin` goes to `/notes`; the page renders exactly otherwise |
| AdminRoute.NeverRenders | frontend/src/components/AdminRoute.jsx:5-9 | the context has no `isAdmin`, so the guard never renders its page |
| Navbar.NavButtons | frontend/src/components/Navbar.jsx:66-77 | Home first; Notes second exactly when signed in; Team Admin and Super Admin exactly for signed-in tenant and super admins, Team Admin before Super Admin; no button twice and no other button |
| Navbar.Bar | frontend/src/components/Navbar.jsx:43 | no bar exactly on `/login`, otherwise the buttons |
| Navbar.SessionBar | frontend/src/components/Navbar.jsx:36-43 | the bar for the session's `isAuthenticated`, `isTenantAdmin` and `isSuperAdmin` |
| Navbar.Initials | frontend/src/components/Navbar.jsx:59-62 | `U` without an e-mail, otherwise its first two characters upper-cased |
| Navbar.Variant | frontend/src/components/Navbar.jsx:64 | `contained` exactly on the button's own path, `text` elsewhere |
| Navbar.HandleLogout | frontend/src/components/Navbar.jsx:45-49 | the session is cleared and the route is `/login` |
| Navbar.DemoRolesSeeHomeAndNotes | frontend/src/components/Navbar.jsx:66-77 | a signed-in user with demo roles sees exactly Home and Notes |
| TenantSwitcher.Available | frontend/src/components/TenantSwitcher.jsx:49 | a super admin is offered all demo tenants; any other user exactly those with their tenant id, in order |
| TenantSwitcher.Visible | frontend/src/components/TenantSwitcher.jsx:43-46 | the switcher shows for a super admin or a user with the `switch_tenant` permission |
| TenantSwitcher.Selected | frontend/src/components/TenantSwitcher.jsx:105 | an entry is marked selected when its id is the current tenant's |
| TenantSwitcher.CurrentOf | frontend/src/components/TenantSwitcher.jsx:48 | the context's tenant, else the first demo tenant |
| TenantSwitcher.FallbackMarksAcme | frontend/src/components/TenantSwitcher.jsx:101-105 | with the fallback of line 48, without a tenant exactly the first offered entry of a super admin is marked selected |
| TenantSwitcher.OwnTenantOnly | frontend/src/components/TenantSwitcher.jsx:44-49 | anyone but a super admin is offered at most their own organisation |
| TenantSwitcher.Choose | frontend/src/components/TenantSwitcher.jsx:38-41 | the session switches tenant as `SwitchTenant` says, and the menu ends closed |
| LoginPage.RedirectAfterLogin | frontend/src/pages/Login.jsx:22-30 | back to the originating page when there is one; else `/admin` exactly for a super admin, `/tenant-admin` exactly for another tenant admin, `/notes` exactly otherwise |
| LoginPage.DemoSignInsLandOnNotes | frontend/src/pages/Login.jsx:22-30 | every demo sign-in without an originating page lands on `/notes` |
| LoginPage.DemoAccountsSignIn | frontend/src/utils/demoAuth.js:145-178 | every offered demo account is a credential with its password, its tenant exists, and signing in with it succeeds exactly when the payload's JSON text is Latin-1, the user carrying the account's e-mail and the tenant being its tenant |
| LoginPage.LoginForm.constructor | frontend/src/pages/Login.jsx:10-12 | empty credentials, not loading, no notice, no navigation |
| LoginPage.LoginForm.FillDemo | frontend/src/pages/Login.jsx:38-41 | the form takes the account's e-mail and password and nothing else changes |
| LoginPage.LoginForm.Submit | frontend/src/pages/Login.jsx:16-36 | a failed login shows its message (or `Login failed`) and leaves session and location; a success shows the notice and navigates to the redirect of the parsed token |
| Home.GetStartedTarget | frontend/src/pages/Home.jsx:200-210 | `/notes` for a signed-in user with a tenant, `/onboarding` for one without, `/login` otherwise |
| Home.PlanSelect | frontend/src/pages/Home.jsx:212-222 | the key becomes selected; `/billing` when signed in, otherwise `/signup?plan=` and the lower-cased key |
| Home.SignupKeyRoundTrip | frontend/src/pages/Home.jsx:220 | a key without lower-case letters is recovered from the sign-up location |
| Home.FeatureValueLabel | frontend/src/pages/Home.jsx:83 | ✓/✗ for flags, `Unlimited` exactly for the number -1, the value itself otherwise |
| Home.CapitaliseFirst | frontend/src/pages/Home.jsx:80 | only the first character changes, upper-cased unless a line terminator |
| Home.FeatureKeyLabel | frontend/src/pages/Home.jsx:80 | the label is one character longer than the key per capital letter (one inserted space each) |
| Home.SpacingRemovable | frontend/src/pages/Home.jsx:80 | dropping the inserted spaces gives back a key that had none |
| Home.TwoWordLabel | frontend/src/pages/Home.jsx:80 | `wordWord` reads `Word Word` |
| Home.ButtonLabel | frontend/src/pages/Home.jsx:96 | `Start Free` exactly at price 0, `Start Trial` otherwise |
| Home.CardFor | frontend/src/pages/Home.jsx:77-86 | one labelled row per feature of the plan, in key order |
| Home.Cards | frontend/src/pages/Home.jsx:437-447 | one card per plan, in the order the plans are written |
| Home.PlanTableShape | frontend/src/context/AuthContext.jsx:12-58 | the plan keys are exactly the plans, and every plan's features hold every feature key |
| Home.OnePopularCard | frontend/src/pages/Home.jsx:444 | exactly one card, the second (PROFESSIONAL), is highlighted |
| Home.OneFreeCard | frontend/src/pages/Home.jsx:96 | only the first card is free |
| Home.StatTarget | frontend/src/pages/Home.jsx:151 | the counter target is the value of the digits, `NaN` without any |
| Home.ShowsPlus | frontend/src/pages/Home.jsx:181 | the counter shows a `+` exactly when the value contains one |
| Home.StatTargetOfNumeral | frontend/src/pages/Home.jsx:151 | a numeral then text without digits counts to that numeral |
| Home.GroupedNumeral | frontend/src/pages/Home.jsx:151 | a separator between two digit groups is dropped |
| Home.OrganisationsTarget | frontend/src/pages/Home.jsx:377 | `2,500+` counts to 2500 and shows a `+` |
| Home.UptimeTarget | frontend/src/pages/Home.jsx:386 | `99.9%` counts to 999 |
| Home.NotesTarget | frontend/src/pages/Home.jsx:383 | `5M+` counts to 5 |
| JsValues.Lookup | frontend/src/context/AuthContext.jsx:236-237 | a value exactly for a key of the map, and it is that entry |
| JsValues.OrText | frontend/src/context/AuthContext.jsx:74 | `a \|\| b`: `a` when truthy, else `b` |
| JsValues.TextOr | frontend/src/context/AuthContext.jsx:75-76 | `a \|\| f`: `a` when truthy, else the fallback |
| JsValues.StringToNumber | frontend/src/context/AuthContext.jsx:240 | `Number(s)` of text is never `Infinity` in the forms modelled |
| JsValues.ToNumber | frontend/src/context/AuthContext.jsx:236-240 | coercing a feature or usage value never yields `Infinity` |
| JsValues.Sub | frontend/src/context/AuthContext.jsx:240 | `NaN` in gives `NaN` out; finite minus finite is the difference |
| JsValues.MaxZero | frontend/src/context/AuthContext.jsx:240 | never a negative finite number; `NaN` stays `NaN` |
| JsValues.StringToNumberOfDecimal | frontend/src/context/AuthContext.jsx:240 | a decimal numeral reads back as its number |
| JsValues.StorageSizeIsNaN | frontend/src/data/demoData.js:5-60 | storage sizes with units, such as `1GB`, coerce to `NaN` |
| Base64.Btoa | frontend/src/utils/demoAuth.js:98-100 | fails exactly on a character above U+00FF; otherwise `atob` of the result gives the input back |
| Base64.Atob | frontend/src/utils/demoAuth.js:121 | every decoded character fits in one byte |
| Base64.AtobBtoa | frontend/src/utils/demoAuth.js:99-121 | `atob(btoa(s)) == s` for every Latin-1 string |
| Base64.EncodeCharacters | frontend/src/utils/demoAuth.js:98-116 | an encoding holds only alphabet characters and `=`, never `.`, so the token splits into its three parts |
| Base64.DecodeEncodeGroups | frontend/src/utils/demoAuth.js:99-121 | decoding the character groups of bytes gives back the bytes |
| Text.Split | frontend/src/utils/demoAuth.js:116 | at least one part, no part contains the separator, and joining the parts with the separator gives back the text |
| Text.SplitLength | frontend/src/utils/demoAuth.js:116 | exactly one more part than the separator occurs |
| Text.SplitThree | frontend/src/utils/demoAuth.js:101-116 | three separator-free pieces joined by the separator split back into those pieces |
| Text.BeforeFirst | frontend/src/pages/TenantAdmin.jsx:136 | `split(c)[0]` is a prefix without `c`, followed in the string by `c` when shorter |
| Text.BeforeFirstFound | frontend/src/pages/TenantAdmin.jsx:136 | it is the whole string exactly when `c` does not occur |
| Text.ReplaceFirstSpec | frontend/src/pages/TenantAdmin.jsx:94 | only the first `from` becomes `to`; a string without `from` is unchanged |
| Text.ReplaceFirst | frontend/src/pages/TenantAdmin.jsx:94 | `replace` with a one-character pattern keeps the length |
| Text.Lower | frontend/src/data/demoData.js:351-355 | every character lower-cased, length kept |
| Text.Upper | frontend/src/context/AuthContext.jsx:149 | every character upper-cased, length kept |
| Text.Trim | frontend/src/pages/Notes.jsx:75 | an infix of the text that neither starts nor ends with white space, everything cut off on either side being white space |
| Text.IntToDecimal | frontend/src/pages/TenantAdmin.jsx:134 | `String(n)` is digits after a leading minus sign exactly for a negative `n`, and the digits, without a leading zero except for 0 itself, read back as the magnitude of `n` |
| Text.DigitsValueOfDecimal | frontend/src/pages/Home.jsx:151 | reading back a decimal numeral gives the number |
| Seqs.Filter | frontend/src/data/demoData.js:342-362 | at most as long as the input; keeps exactly the elements satisfying the predicate |
| Seqs.FilterCounts | frontend/src/data/demoData.js:342-362 | every copy of a value satisfying the predicate is kept and every copy of any other value dropped |
| Seqs.FilterSubsequence | frontend/src/data/demoData.js:342-362 | a filter is an order-preserving subsequence |
| Seqs.FilterIdempotent | frontend/src/pages/Notes.jsx:283-287 | filtering twice by the same predicate is filtering once |
| Sorting.Sort | frontend/src/pages/Notes.jsx:289-302 | the sorted list is a permutation of the input |
| Sorting.SortSorted | frontend/src/pages/Notes.jsx:289-302 | for a total preorder the result is sorted |
| Sorting.SortInPlace | frontend/src/pages/Notes.jsx:289 | the array becomes the sorted list of its old contents |
| Sorting.InsertInPlace | frontend/src/pages/Notes.jsx:289 | the prefix up to `i` becomes the old prefix with `a[i]` inserted; the rest is kept |

## Left out

- The backend services, the other pages (super admin, billing, onboarding, sign-up) and the
  API client are not part of this model. Only the demo-mode client is modelled.
- The storage-change listener of the session context (AuthContext.jsx:131-141) is left out:
  it reacts to another browser tab. The model has one tab.
- The JWT decoder, `JSON.stringify` and `JSON.parse` are modelled as function parameters, so
  the model says nothing about JSON syntax. `LoginThenValidate` assumes they round-trip.
- React's render scheduling, the batching of state updates and the order in which effects run
  are collapsed: each handler runs its effects to completion. The context's `loading` flag and
  the page's notification UI are left out.
- Characters are code points; `String.length` counting UTF-16 units and Unicode case mapping
  are not modelled. Case mapping covers ASCII letters only.
- `JsValues.StringToNumber`: covers decimal integers, white space and blank text. Other forms
  `Number()` accepts (fractions, exponents, hex, `Infinity`) become `NaN`.
- Floating-point values are left out: usage percentages and fractional counters.
- Animations, the counting-up of the stat counter, dates shown with `toLocaleDateString` and
  `formatDate`, and all styling are left out.
- `getRandomNote` (demoData.js:337-340) is left out: its randomness has no specification to
  state.
- `demoTags` and the `plans` list of the data file are left out: no core operation reads them.
- JavaScript default arguments are explicit parameters that every caller passes:
  `getPreviewContent`'s `maxLength = 120`, `getRecentNotes`' `limit = 5` and `demoLogin`'s
  default password `password`.
- `localeCompare` is a parameter (`titleLe`) that must be a total preorder.
- `Sorting.Sort` models a stable sort; stability is not stated as a separate property.
- `Base64.Btoa`: the model returns the error's name only; the browser's message text is not
  modelled.
- The team page's metric cards are left out: usage text, storage, the note counter's `247`
  fallback, and the edit-user dialog, which only records a selection.
- `Home.StatTarget`: `parseInt` on digit strings beyond 2^53 loses precision in JavaScript,
  which the model does not capture. The `50,000+` stat is covered by `GroupedNumeral` rather
  than a lemma of its own.
- Object prototype keys (`toString` and the like) are not map keys in the model.
- Menus opening and closing, avatars and chips other than the role label are left out.
- `Base64.Atob`: its own contract states only that the output fits in bytes. What decoding
  means is stated by `Base64.AtobBtoa` and `Base64.Btoa`, not by `Atob` alone.
- `JsValues.ToNumber`: its own contract states only that the result is never `Infinity`. The
  numeric cases are used through `AuthContext.QuotaOfNumericLimit`.
- `DemoAuth.ValidateToken`: the JSON parser is a parameter, and `None` stands for every way
  parsing fails or yields something other than an object. The `try`/`catch` is modelled as
  returning `None`.
- `AuthContext.Session.Signup`: the demo signup's error message passes through unchanged. The
  asynchronous wrapping is not modelled.
