# Unitas LogistiX freight portal — a Dafny model of its core

The portal is a freight-logistics web application. Its Express server keeps users, contact
messages, quote requests, shipments and tracking events in an in-memory store (`MemStorage`). It
answers tracking lookups and handles sign-up, sign-in and the session. The React client routes
public pages and a guarded dashboard. It highlights navigation entries, draws a tracking timeline,
checks a sign-up validation code, and builds the filter queries and summary cards of the jobs and
invoices pages.

This project models that core and proves what it promises:

- `storage.dfy` — `MemStorage` as a class over maps.
  - Users keep their insertion order, so `find` over `users.values()` is a first-match scan.
  - Event lists are arrays: `getTrackingEvents` hands out the stored array itself.
  - The seed data links every shipment to its event list. `Valid()` carries that link and every operation preserves it.
- `event_sort.dfy` — the comparator sort of the tracking route. Its specification is a stable
  insertion sort (`SortByTime`), proved sorted, a permutation and stable. The in-place sort of the
  stored array is proved against it.
- `routes.dfy` — the handlers:
  - the authentication guard, the session settings and tracking lookup, which sorts the store's own array;
  - sign-up: rejects a duplicate email, stores only the hash and never returns the password;
  - sign-in: the same 401 for an unknown email and a wrong password;
  - the current-user and newsletter endpoints.
- `navbar.dfy`, `dashboard_sidebar.dfy`, `app_router.dfy` — prefix-based highlighting, the
  dashboard/public split of the router and the `ProtectedRoute` decision.
- `tracking_timeline.dfy` — case-insensitive status icons and colours, and the entries rendered.
- `sign_up.dfy` — generating the six-character validation code and the form's code check.
- `search_params.dfy`, `status_badges.dfy`, `jobs.dfy`, `invoices.dfy`:
  - the filter query string built by `URLSearchParams.set`;
  - the status badge lookups;
  - the selected-job gating;
  - the invoice summary counts.
- `records.dfy`, `text.dfy`, `wrappers.dfy`, `client_state.dfy` — shared record shapes, the
  `||`-to-null rules, `startsWith` and ASCII case mapping, and the client state (location,
  query cache, toasts).

Abstracted as parameters:

| foreign code | modelled as |
|---|---|
| `randomUUID()` | an `id` argument not yet in the map |
| `new Date()` | a `now` argument |
| `Math.random()` | a sequence of drawn indices |
| bcrypt | the function arguments `hash` and `compare` |
| zod schemas | an already-parsed, optional body (`None` is a validation error) |
| the network and react-query | booleans for the outcome of a request |

## Model

| member | source | states |
|---|---|---|
| Records.Without | server/routes.ts:119 | a rest pattern `{ field, ...rest }` leaves every other field with its value and drops `field` |
| Records.TextOrNull | server/storage.ts:140-141 | `v \|\| null` on text is null exactly when the value is missing or empty, else the value itself |
| Records.IntOrNull | server/storage.ts:154 | `weight \|\| null` is null exactly when the weight is missing or 0, else the weight |
| EventSort.SortByTimeCorrect | server/routes.ts:85 | the timestamp sort's result is in non-decreasing time order and is a permutation (same multiset, same length) of its input |
| EventSort.SortByTimeStable | server/routes.ts:85 | the sort is stable: events with equal timestamps keep their relative order |
| EventSort.SortByTimeOfSorted | server/routes.ts:85 | a list already in time order is returned unchanged |
| EventSort.InsertInPlace | server/routes.ts:85 | one insertion step on the array moves element i into place among the first i, leaving the rest untouched |
| EventSort.SortInPlace | server/routes.ts:85 | `events.sort(...)` reorders the array in place into the stable time-sorted order of its old contents |
| Storage.SeedShipmentsByNumber | server/storage.ts:33-60 | the seed loop files the two sample shipments under "ULX123456789" and "ULX987654321" |
| Storage.FileByTrackingNumber | server/storage.ts:58-60 | the `forEach` loop builds exactly the map `ByTrackingNumber` describes: each shipment under its tracking number, a later one replacing an earlier one with the same number |
| Storage.FirstMatchSpec | server/storage.ts:122-126 | `find` over the users yields nothing exactly when no user matches, and otherwise a stored user that matches |
| Storage.MemStorage.constructor | server/storage.ts:21-115 | the seeded store has no users, contacts or quotes, exactly the two sample shipments and the event lists "1" and "2" with their seed events, and every event is filed under the shipment it names |
| Storage.MemStorage.GetUser | server/storage.ts:118-120 | returns the user stored under the id, or nothing when there is none |
| Storage.MemStorage.FindFirst | server/storage.ts:122-126 | the scan in insertion order returns the first user whose field equals the value, nothing exactly when no user has it |
| Storage.MemStorage.GetUserByUsername | server/storage.ts:122-126 | returns a stored user with that username, or nothing exactly when no user has it |
| Storage.MemStorage.CreateUser | server/storage.ts:128-133 | the stored and returned user is the input plus the fresh id; only the users map gains that one entry |
| Storage.MemStorage.CreateContact | server/storage.ts:135-146 | the contact keeps name, email and message, has null phone/serviceType when they were empty or missing, and is added under the fresh id; nothing else changes |
| Storage.MemStorage.CreateQuote | server/storage.ts:148-161 | a falsy phone, weight (0 included), dimensions or requirements becomes null; the quote is added under the fresh id and nothing else changes |
| Storage.MemStorage.GetShipmentByTrackingNumber | server/storage.ts:163-165 | a shipment comes back exactly when the tracking number is a key, and it carries that number and has an event list |
| Storage.MemStorage.GetTrackingEvents | server/storage.ts:167-169 | the stored array itself for a known shipment id, a new empty array otherwise |
| Routes.IsAuthenticated | server/routes.ts:11-16 | the guard passes on exactly when the session holds a user, otherwise answers 401 "Unauthorized" |
| Routes.MakeSessionConfig | server/routes.ts:20-39 | the cookie max-age and the store ttl are both passed 604800000 (7 days in milliseconds); the secret falls back to the development secret when unset or empty; the cookie is secure exactly in production |
| Routes.ParseTrackingRequest | shared/schema.ts:82-84 | a tracking number is accepted exactly when it is a string of at least one character |
| Routes.HandleTracking | server/routes.ts:71-94 | 400 on an invalid body; 404 for an unknown number with every event list unchanged; otherwise 200 with the shipment and its stored list, which is now sorted in place, all other lists unchanged, store still valid |
| Routes.SortKeepsLinks | server/routes.ts:81-85 | sorting one stored list keeps every event filed under the shipment it names |
| Routes.PublicUser | server/routes.ts:119 | the user without the password field, all other fields unchanged |
| Routes.HandleSignUp | server/routes.ts:97-133 | 400 on an invalid body or an existing email, with no user and no session created; otherwise the stored user carries `hash(password)` and the fresh id, and the session and response carry it without a password |
| Routes.Register | server/routes.ts:100-124 | an email some stored user already has is refused with 400 and changes nothing; otherwise the user is stored under the fresh id with `hash(password)` in place of the password, and the session holds that user without the password |
| Routes.HandleSignIn | server/routes.ts:136-170 | an unknown email and a wrong password both answer the identical 401 "Invalid credentials" and leave the session alone; a matching password puts the user without its password into the session |
| Routes.GetCurrentUser | server/routes.ts:184-191 | 200 with the session's user exactly when there is one, else 401 "Not authenticated" |
| Routes.GuardAgreesWithCurrentUser | server/routes.ts:11-16 | the guard lets a request through exactly when the current-user endpoint would answer 200 |
| Routes.HandleNewsletter | server/routes.ts:213-225 | 200 exactly when an email is present and non-empty, else 400 "Email is required" |
| Routes.SeedEventsInTimeOrder | server/storage.ts:62-115 | both seeded event lists are already in time order, so sorting them changes nothing |
| Navbar.IsActive | client/src/components/layout/navbar.tsx:28-32 | "/" is active exactly at the location "/"; any other href is active exactly when it is a prefix of the location |
| Navbar.ActiveWithoutSegmentBoundary | client/src/components/layout/navbar.tsx:30 | with no segment boundary check, "/about" is active on "/aboutus" |
| Navbar.AtMostOneActive | client/src/components/layout/navbar.tsx:20-32 | at most one of the five navigation items is active at any location |
| Navbar.AccountControlFor | client/src/components/layout/navbar.tsx:102-133 | the user menu shows exactly when not loading and authenticated, the sign-in button exactly when not loading and not authenticated, nothing while loading |
| DashboardSidebar.IsActive | client/src/components/layout/dashboard-sidebar.tsx:73 | an entry is active exactly when the location agrees with its href at every position of the href |
| DashboardSidebar.ActiveNames | client/src/components/layout/dashboard-sidebar.tsx:72-91 | a name is listed exactly when some active entry carries it, and the first entry's name leads the list when that entry is active |
| DashboardSidebar.HighlightStartsAtDashboard | client/src/components/layout/dashboard-sidebar.tsx:72-91 | at every location, either no entry is highlighted or "Dashboard" is the first highlighted one |
| DashboardSidebar.DashboardActiveWhenAnyActive | client/src/components/layout/dashboard-sidebar.tsx:18-24 | "Dashboard" is active whenever any sidebar entry is active |
| DashboardSidebar.TwoActiveOnJobsPage | client/src/components/layout/dashboard-sidebar.tsx:72-73 | at "/dashboard/jobs" exactly "Dashboard" and "Jobs" are active |
| DashboardSidebar.SignOutSettled | client/src/components/layout/dashboard-sidebar.tsx:37-51 | a successful sign-out clears the query cache, goes to "/signin" and adds the success toast; a failure only adds the destructive toast |
| AppRouter.ProtectedSwitch | client/src/App.tsx:65-72 | a page is found exactly for the five dashboard paths, and every page found is a dashboard page |
| AppRouter.PublicSwitch | client/src/App.tsx:81-89 | a page is found exactly for the seven public paths, and none of them is a dashboard page |
| AppRouter.Router | client/src/App.tsx:59-95 | a location is routed to the protected switch exactly when it starts with "/dashboard", and dashboard pages are reached only that way |
| AppRouter.PrefixOnlyPathIsNotFound | client/src/App.tsx:63-71 | "/dashboards" and "/dashboard/jobs/42" enter the protected switch and fall through to NotFound |
| AppRouter.SidebarLinksRouteToDashboardPages | client/src/App.tsx:63-70 | each sidebar link routes behind the guard to its own page: Dashboard, Jobs, Invoices, Requests, Profile |
| AppRouter.NavbarLinksRouteToPublicPages | client/src/App.tsx:77-89 | each navbar link routes outside the guard to its own page: Home, Services, Tracking, About, Contact |
| AppRouter.ProtectedRoute | client/src/App.tsx:26-57 | spinner and no redirect while loading; nothing rendered and a redirect to "/signin" on an error or no user; otherwise the page inside the dashboard layout |
| AppRouter.Render | client/src/App.tsx:26-95 | the navbar and footer frame exactly the locations outside "/dashboard"; a plain view shows the routed page without a redirect; anything else (spinner, blank, layout) happens only on a dashboard page |
| AppRouter.DashboardContentNeedsUser | client/src/App.tsx:40-56 | dashboard content is shown in the layout only to a loaded, error-free user, and a plain view is never a dashboard page |
| AppRouter.RedirectOnlyFromGuard | client/src/App.tsx:34-38 | a redirect happens exactly on a dashboard page after loading with an error or no user, and always to "/signin" |
| AppRouter.ProtectedRouteEffect | client/src/App.tsx:34-38 | the effect sets the location to "/signin" exactly when loading is over and there is an error or no user |
| TrackingTimeline.LookupsIgnoreCase | client/src/components/tracking/tracking-timeline.tsx:12-41 | a status and its lower-case form get the same icon and colour |
| TrackingTimeline.ColorTable | client/src/components/tracking/tracking-timeline.tsx:27-41 | delivered is green, out for delivery blue, in transit and arrived at hub yellow, package collected gray-500, in any letter case |
| TrackingTimeline.IconTable | client/src/components/tracking/tracking-timeline.tsx:12-25 | package collected and delivered show CheckCircle, in transit and out for delivery Truck, arrived at hub Package, in any letter case (the table itself, one clause per row) |
| TrackingTimeline.StatusIcon | client/src/components/tracking/tracking-timeline.tsx:12-25 | the default Clock icon is given exactly to statuses whose lower-case form is outside the five known ones |
| TrackingTimeline.StatusColor | client/src/components/tracking/tracking-timeline.tsx:27-41 | the default gray-400 colour is given exactly to statuses whose lower-case form is outside the five known ones |
| TrackingTimeline.SeedStatusesKnown | server/storage.ts:62-115 | the seeded statuses lower-case to entries of the timeline's tables |
| TrackingTimeline.Render | client/src/components/tracking/tracking-timeline.tsx:43-127 | nothing is rendered exactly when the shipment or the event list is missing; otherwise one entry per event in the given order, carrying that event's id, status, description, location and time, with its icon and colour |
| SignUpPage.GenerateValidationCode | client/src/pages/sign-up.tsx:16-23 | the code has six characters, each the alphabet character at the drawn index |
| SignUpPage.AlphabetFacts | client/src/pages/sign-up.tsx:17 | the alphabet has 32 characters, each an upper-case letter other than I and O or a digit from 2 to 9 |
| SignUpPage.CodeHasNoConfusables | client/src/pages/sign-up.tsx:16-23 | a generated code never contains 0, O, I or 1 |
| SignUpPage.TypedCode | client/src/pages/sign-up.tsx:215-221 | the entry holds at most six characters, exactly as many as typed up to six, each the upper-cased typed character, so no lower-case letter remains |
| SignUpPage.CodeAccepted | client/src/pages/sign-up.tsx:58 | the entry is accepted exactly when it has the code's length and each of its characters, upper-cased, is the code's character at that position |
| SignUpPage.LowerCaseEntryAccepted | client/src/pages/sign-up.tsx:58 | typing the code in lower case is accepted |
| SignUpPage.EmptyEntryRejected | client/src/pages/sign-up.tsx:51-54 | the empty entry left by a refresh never matches a code |
| SignUpPage.SignUpForm.constructor | client/src/pages/sign-up.tsx:28-36 | mounting installs a well-formed code and an empty entry |
| SignUpPage.SignUpForm.Refresh | client/src/pages/sign-up.tsx:51-54 | refresh installs the newly drawn code and clears the entry to "" |
| SignUpPage.SignUpForm.TypeCode | client/src/pages/sign-up.tsx:218-220 | the entry becomes the typed text cut to six characters and upper-cased; the code is unchanged |
| SignUpPage.SignUpForm.Submit | client/src/pages/sign-up.tsx:56-81 | sign-up is called exactly when the upper-cased entry equals the code; a mismatch only adds the "Validation failed" toast; success goes to "/" with its toast; failure adds "Sign up failed" with the error message or "Please try again" |
| SearchParams.SetNewNameAppends | client/src/pages/dashboard/jobs.tsx:32-34 | `params.set` with a name not yet present appends the pair |
| SearchParams.BuildParams | client/src/pages/dashboard/jobs.tsx:31-34 | the three guarded `set` calls yield the non-empty fields as pairs in the fixed order |
| SearchParams.NonEmptyFieldsSpec | client/src/pages/dashboard/jobs.tsx:31-34 | each parameter carries its field's exact non-empty value, names come in the order clientInvoiceNo, fromDate, toDate, a name is present exactly when its field is non-empty, and the all-empty filter yields no parameter |
| SearchParams.QueryString | client/src/pages/dashboard/jobs.tsx:36 | the query string is empty exactly when there are no parameters |
| SearchParams.FilterUrl | client/src/pages/dashboard/jobs.tsx:30-36 | the fetched URL is the endpoint, "?" and the query of the non-empty fields; an all-empty filter fetches the bare endpoint with "?"; the invoices page (client/src/pages/dashboard/invoices.tsx, lines 24-30) does the same with "/api/bills" |
| StatusBadges.LookupAsWritten | client/src/pages/dashboard/jobs.tsx:64 | a lookup on the object literal yields an inherited member exactly when the status is not a table key but names a member of Object.prototype |
| StatusBadges.Lookup | client/src/pages/dashboard/jobs.tsx:57-65 | the table's class for a listed status, the fallback for every other status |
| StatusBadges.AgreeOffPrototype | client/src/pages/dashboard/jobs.tsx:64 | the lookup as written and the intended lookup agree on every status that is not an Object.prototype member name |
| JobsPage.StatusBadge | client/src/pages/dashboard/jobs.tsx:57-65 | pending yellow, in-transit blue, completed green, cancelled red; gray exactly for the other statuses |
| JobsPage.InheritedStatusNotGray | client/src/pages/dashboard/jobs.tsx:64 | as written, the status "constructor" yields the inherited constructor, not gray |
| JobsPage.DetailsQueryEnabled | client/src/pages/dashboard/jobs.tsx:50 | the details query runs exactly when a non-empty job id is selected |
| JobsPage.RowHighlighted | client/src/pages/dashboard/jobs.tsx:162 | a row is highlighted exactly when a job is selected and its id is that row's id; no row is highlighted when nothing is selected |
| JobsPage.AtMostOneHighlighted | client/src/pages/dashboard/jobs.tsx:159-162 | with distinct job ids at most one row is highlighted, and none when nothing is selected |
| JobsPage.ListView | client/src/pages/dashboard/jobs.tsx:131-143 | skeleton exactly while loading, the empty message exactly for a loaded empty list, else one row per job |
| JobsPage.DetailsShown | client/src/pages/dashboard/jobs.tsx:203 | the details card shows exactly when a non-empty id is selected and its details have loaded |
| InvoicesPage.StatusBadge | client/src/pages/dashboard/invoices.tsx:40-48 | pending yellow, paid green, overdue red; cancelled and unknown statuses share the gray, which is given exactly outside those three |
| InvoicesPage.CountWithStatus | client/src/pages/dashboard/invoices.tsx:136 | a status count never exceeds the number of bills |
| InvoicesPage.CountIsMultiplicity | client/src/pages/dashboard/invoices.tsx:136-164 | each card's count is the number of bills with exactly that status |
| InvoicesPage.DistinctCountsBounded | client/src/pages/dashboard/invoices.tsx:123-164 | the counts of three different statuses add up to at most the number of bills |
| InvoicesPage.Summarize | client/src/pages/dashboard/invoices.tsx:116-171 | Total Bills is the list length; paid, pending and overdue are the numbers of bills with that status and sum to at most the total |
| InvoicesPage.ListView | client/src/pages/dashboard/invoices.tsx:179-190 | skeleton exactly while loading, "no invoices" exactly for a loaded empty list, else the table of all bills |

## Left out

- `getUserByEmail` is called by the sign-up and sign-in handlers, but server/storage.ts does not define it. The model assumes it is the same first-match scan `getUserByUsername` does, over the `email` field (`MemStorage.FindFirst`). The `EmailTaken` clauses of `Routes.HandleSignUp` and `Routes.Register`, and the 401 that `Routes.HandleSignIn` gives for an unknown email, rest on that assumption.
- The sign-up and sign-in request schemas are not part of this model. The parsed body is an optional user record required to carry `email` and `password`. The recaptcha token is dropped as the handlers drop it, and zod's error details are not modelled.
- Routes.HandleSignIn: the only 500 modelled is bcrypt rejecting a stored user without a password. Other failures (a throwing store, a throwing hash) would answer 500 and are not modelled. The same holds for Routes.HandleSignUp.
- Responses keep the status and the payload. The `success: true` flags, the `details` of a 400 and console logging are left out.
- The contact, quote, get-quote and sign-out handlers are not modelled. The storage operations the first two call are (`CreateContact`, `CreateQuote`).
- Randomness: `randomUUID()` is a caller-supplied id with the precondition that it is not yet a key. `Math.random()` is a sequence of indices in [0, 32). `new Date()` is a `now` argument.
- Seed dates are written as UTC milliseconds. The source parses the events' date-times like "2024-12-15T09:30:00" in the server's local time zone, while the shipments' date-only strings like "2024-12-17" parse as UTC. So the event times all shift by one offset against the model and the shipment dates do not. Sorting compares events only with other events, so their order, and every sort result, is unchanged.
- `Date` values are JavaScript numbers, modelled as unbounded integers. No value in play comes near the precision limit of a double.
- Route matching: wouter's matcher is modelled as exact path equality. Its tolerance of a trailing slash and of letter case is not modelled.
- The timeline computes an `isLast` flag per event but never renders it, so the model's entries carry no such flag.
- Case mapping covers ASCII letters only. `toLowerCase` and `toUpperCase` on other Unicode letters are not modelled.
- SignUpPage.TypedCode: with full Unicode `toUpperCase`, "ß" becomes "SS", so the upper-cased entry can be longer than six characters; the model's ASCII mapping keeps the length.
- SignUpPage.CodeAccepted: the source also accepts entries whose non-ASCII letters upper-case to code letters (the long s "ſ" upper-cases to "S"); the model rejects them.
- SignUpPage.LowerCaseEntryAccepted: stated for codes typed in ASCII lower case only, the case the ASCII mapping covers.
- SignUpPage.SignUpForm.Submit: invalidating the current-user query after a successful sign-up happens in the sign-up hook. It is not modelled, so Submit states nothing about the query cache.
- The query string's form-urlencoding is a function parameter (`encode`). The fetch itself, react-query caching and retries are left out; their outcomes are booleans.
- Rendering, animation, Tailwind class composition other than the looked-up classes, `formatAmount` (floating point and `Intl`) and date formatting (date-fns) are left out.
- Concurrency: async handlers and promise ordering are not modelled; every operation runs to completion on its own.

## Findings

| source | as written | input that shows it | evidently intended | confidence | as-written member | corrected member |
|---|---|---|---|---|---|---|
| client/src/pages/dashboard/jobs.tsx:64 | `statusColors[status] \|\| gray` on an object literal also finds what the literal inherits from Object.prototype (the invoices page has the same line) | status "constructor" (also "toString", "__proto__", …) yields the inherited function or object instead of a class string | any status outside the table gets the gray badge | not executed; statuses come from server records, so the trigger is unlikely | StatusBadges.LookupAsWritten, JobsPage.InheritedStatusNotGray | StatusBadges.Lookup, JobsPage.StatusBadge |
