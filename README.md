# Direct2 charter booking: a Dafny model of its logic

Direct2 is a charter-flight front end built with Next.js. The Dafny model covers
the logic behind its views:

- **The two airport matchers.**
  - The regional search (`app/hooks/useAirportSearch.ts`).
  - The AirportDB hook (`app/hooks/useAirportDB.ts`): a fallback list, a direct
    lookup for ICAO-shaped codes, and the mapping of an airport record.
- **The contacts relay** (`app/api/contacts/route.ts`). It validates the body,
  checks the CRM credentials, splits the name into first and last, forwards the
  contact and translates the CRM's answer. Next to it, the body that the CRM hook
  (`app/hooks/useHighLevel.ts`) posts to the relay.
- **The booking wizard** (`app/booking.tsx`): four screens, a draft updated by
  partial merges, a clamped passenger counter, and the details submit with its
  loading and error flags.
- **The two account portals** (`app/admin.tsx`, `app/useraccounts.tsx`):
  - seeded users, flights and concierge requests;
  - the sign-in variants, signup, logout, booking and concierge requests;
  - the admin list updates;
  - the customer's upcoming and past flights;
  - the dashboard figures;
  - the `view` URL parameter.

Layout:

| file | module | flavour |
|---|---|---|
| `wrappers.dfy` | `Wrappers` | `Option` and the `a \|\| b` defaulting of optional strings |
| `strings.dfy` | `Ascii` | case mapping, `includes`, `trim`, `split`/`join`, decimal rendering |
| `listing.dfy` | `Listing` | `filter`, `slice(0, n)`, `find`, a sort by numeric key, `reduce` sums, and their lemmas |
| `airport_search.dfy` | `AirportSearch` | pure functions |
| `airport_db.dfy` | `AirportDB` | pure fallback and mapping; class `Hook` for the stateful `searchAirports` |
| `contacts.dfy` | `Contacts` | one pure function from request to exchange |
| `high_level.dfy` | `HighLevel` | the request body of the CRM hook (pure) |
| `booking.dfy` | `Booking` | class `Wizard`: screen, draft, home-screen boxes, details flags |
| `records.dfy` | `Records` | the shared records, list updates, views and figures (pure) |
| `admin.dfy` | `AdminPortal` | seeds, `Login`, `Render`; class `Portal` |
| `accounts.dfy` | `AccountsPortal` | seeds, `Login`, the `view` parameter; class `Portal` wrapping an `AirportDB.Hook` |

The stateful parts are classes with a `State()` snapshot function. Each handler
is a method whose postcondition gives the whole new snapshot in terms of the old
one. So "nothing else changes" is part of every handler's contract.

Some inputs are parameters of the method that needs them:

- the clock (`loadedAt`, `now`);
- the random draws behind ids (`draw`);
- the `confirm()` answer (`confirmed`);
- the parsed booking date and passenger count;
- the environment's tokens;
- the outcome of every remote call (`LookupOutcome`, `Upstream`, `ContactOutcome`, `contactSucceeded`).

`alert()` messages are recorded in an `alerts` field.

Behaviours of the code that the model keeps as written:

- `submitConciergeRequest` puts the new request in front of the list (`[newReq, ...conciergeRequests]`). The model follows the code.
- The booking wizard's details submit moves to CONFIRMATION on success even if the user has left DETAILS in the meantime. Its `loading` and `error` updates are lost in that case, because they belong to a details screen that is no longer mounted (`CompleteDetailsSubmit`).
- Typing in the home screen's airport boxes changes only the box. Only picking a suggestion writes the draft. So a typed but unpicked destination does not pass the home screen's guard.
- The two portals' logouts keep `currentView`.
- Neither portal's admin handlers check that the signed-in user is an admin.
- An aborted AirportDB lookup returns `[]` and leaves `loading` set; nothing resets it.
- The account portal's signup hands createContact a contact tagged "app", but the hook posts only name, email and phone, and the relay reads only those, so no tag reaches the CRM (`AccountsPortal.SignupTagNeverSent`, see Findings).
- The account portal's `view` effect runs again after every sign-in, because it depends on the signed-in state. So `HandleLogin` followed by `ApplyUrlView` is a reachable sequence: with `?view=flights` in the URL, an admin who signs in lands on the customer Flights view instead of `'admin-dashboard'`.

Two scenario methods chain the wizard's handlers and prove what the chain comes to with assertions; they carry no contract of their own:

- `Booking.HappyPath` (app/booking.tsx:95-101): a destination, a date and a contact, then one aircraft and a successful call, reach CONFIRMATION; the reset returns HOME keeping the origin, the passengers and the contact.
- `Booking.TypingIsNotChoosing` (app/booking.tsx:161-168, 265-268): a typed destination that was never picked leaves HOME with one alert.

## Model

| member | source | states |
|---|---|---|
| Wrappers.OrElse | app/hooks/useAirportDB.ts:82-87 | `a \|\| b` on an optional string: the value when present and non-empty, else the default |
| Ascii.ToLower | app/hooks/useAirportSearch.ts:54 | same length; each character is the lower-case form of the original |
| Ascii.Trim | app/api/contacts/route.ts:28 | the result is a block of the input; everything before and after that block is ECMAScript white space, and the result itself neither starts nor ends with it |
| Ascii.Split | app/api/contacts/route.ts:28 | at least one part, and no part contains the separator |
| Ascii.JoinSplit | app/api/contacts/route.ts:28-30 | joining the split parts with the separator gives the string back |
| Ascii.SplitLastEmpty | app/api/contacts/route.ts:28-30 | the last part is empty iff the string is empty or ends with the separator |
| Ascii.NatToString | app/api/contacts/route.ts:55 | template-literal rendering of a number: decimal digits only, with a leading zero only for 0 |
| Ascii.NatToStringRoundTrip | app/api/contacts/route.ts:55 | the decimal value of the rendering is the number |
| Ascii.NatToStringInjective | app/admin.tsx:296 | different numbers render differently |
| Listing.Filter | app/hooks/useAirportSearch.ts:55-60 | no longer than the input; every element kept is from the input and satisfies the predicate |
| Listing.FilterLength | app/admin.tsx:688 | `filter(p).length` is the number of elements satisfying p |
| Listing.FilterAppend | app/useraccounts.tsx:410 | filtering a concatenation is concatenating the filtered parts |
| Listing.CountFilter | app/admin.tsx:315 | removing elements cannot raise the number that satisfy another predicate |
| Listing.SumByAppend | app/admin.tsx:687 | the sum over a concatenation is the sum of the sums |
| Listing.FilterKeeps | app/hooks/useAirportSearch.ts:55-60 | every element of the input that satisfies the predicate is kept |
| Listing.FilterAt | app/hooks/useAirportSearch.ts:55-60 | a satisfying element at position i is the k-th element of the result, where k counts the satisfying elements before i |
| Listing.FilterFrom | app/hooks/useAirportSearch.ts:55-60 | each result element sits at some position i holding a satisfying element with exactly k satisfying elements before it |
| Listing.FilterIsSubsequence | app/hooks/useAirportSearch.ts:55-60 | the result is a subsequence of the input |
| Listing.FilterIdempotent | app/admin.tsx:315 | filtering twice by the same predicate is filtering once |
| Listing.Take | app/hooks/useAirportSearch.ts:62 | `slice(0, n)`: a prefix of length min(n, length) |
| Listing.Find | app/admin.tsx:265 | `find`: None iff no element satisfies the predicate, otherwise the first one that does |
| Listing.FindFirst | app/admin.tsx:274 | `find` returns the first element that satisfies the predicate, whichever later ones also do |
| Listing.SortBy | app/admin.tsx:326 | sorted ascending by the key, and a permutation of the input |
| Listing.SortedSelection | app/admin.tsx:324-330 | sorting a filtered list yields exactly the elements satisfying the predicate, as many as there are |
| AirportSearch.SearchAirports | app/hooks/useAirportSearch.ts:49-62 | a raw query shorter than 2 gives []; at most 10 results; each result is from the list and matches the lower-cased query on iata, name, city or a non-empty state |
| AirportSearch.HookSearch | app/hooks/useAirportSearch.ts:46-62 | the hook searches its own fixed list: at most 10 results, all from `REGIONAL_AIRPORTS` |
| AirportSearch.SearchInListOrder | app/hooks/useAirportSearch.ts:55-62 | the results are a subsequence of the list, in its order |
| AirportSearch.SearchSize | app/hooks/useAirportSearch.ts:55-62 | the number of results is min(10, number of matches) |
| AirportSearch.SearchKeepsEarlyMatches | app/hooks/useAirportSearch.ts:55-62 | a match with fewer than 10 matches ahead of it is returned, at the position given by that count |
| AirportSearch.SearchOnlyEarlyMatches | app/hooks/useAirportSearch.ts:55-62 | every result is a match with exactly k < 10 matches ahead of it in the list |
| AirportDB.LookupUrl | app/hooks/useAirportDB.ts:67 | the direct-lookup URL is the API base, the code, then `?apiToken=` and the token |
| AirportDB.FilterList | app/hooks/useAirportDB.ts:152-159 | at most 10 entries, each from the list and matching the lower-cased untrimmed query on iata, icao, name, city or state |
| AirportDB.FallbackInListOrder | app/hooks/useAirportDB.ts:153-159 | the fallback results keep the list's order |
| AirportDB.FallbackKeepsEarlyMatches | app/hooks/useAirportDB.ts:153-159 | no match ahead of the cap is skipped |
| AirportDB.FallbackSize | app/hooks/useAirportDB.ts:153-159 | the number of fallback results is min(10, number of matches) |
| AirportDB.MapRecord | app/hooks/useAirportDB.ts:81-91 | each string field defaults to ''; icao falls back from icao_code to ident to ''; state from region_name to iso_region to ''; the numbers are copied |
| AirportDB.Hook.constructor | app/hooks/useAirportDB.ts:33-34 | loading false, no error, nothing requested, the fallback list in place |
| AirportDB.Hook.Search | app/hooks/useAirportDB.ts:37-116 | trimmed query under 2: [] and no state change. No token: the fallback result and no state change. With a token: error cleared, and a request issued iff the upper-cased trimmed term is four A–Z letters. Non-ICAO term: fallback, loading false. ICAO term: the mapped record when found; fallback on a non-ok answer or another error; [] with loading still set when aborted |
| AirportDB.Hook.SearchWithToken | app/hooks/useAirportDB.ts:58-115 | the part after both guards, with the same per-outcome results and the same loading and request bookkeeping |
| AirportDB.Hook.DirectLookup | app/hooks/useAirportDB.ts:67-115 | exactly one URL is requested; the outcome decides the result and whether loading ends |
| AirportDB.SearchesNeverSetError | app/hooks/useAirportDB.ts:58-115 | over any run of searches the error flag stays cleared (the hook never sets one) |
| Contacts.SplitName | app/api/contacts/route.ts:28-30 | the first name contains no space and is a prefix of the name split |
| Contacts.SplitWithoutSeparator | app/api/contacts/route.ts:28-29 | a name without a space splits into itself alone |
| Contacts.NameSplitRoundTrip | app/api/contacts/route.ts:28-44 | last name empty ⇒ first name is the trimmed name; otherwise first + ' ' + last is the trimmed name; the last name is empty iff the trimmed name has no space |
| Contacts.Reply | app/api/contacts/route.ts:51-72 | thrown fetch ⇒ 500 internal error. Non-2xx ⇒ same status, with the CRM's message or "HighLevel API error: <status>". 2xx ⇒ 200 with success and `contact \|\| result`. Unparseable 2xx or null body ⇒ 500 |
| Contacts.RelayIgnoresTags | app/api/contacts/route.ts:6 | a `tags` field in the body changes neither the CRM call nor the response |
| Contacts.HandlePostWithTags | app/api/contacts/route.ts:41-48 | corrected relay: the same exchange as HandlePost, and its CRM call, made exactly when HandlePost makes one, carries the body's `tags` (an empty list when there are none) |
| HighLevel.RequestBody | app/hooks/useHighLevel.ts:19-33 | the posted body has exactly the fields name, email and phone, holding the name, the email and `phone \|\| ''` |
| HighLevel.RelayedContact | app/hooks/useHighLevel.ts:29-33 | from the hook's body the relay calls the CRM iff name and email are non-empty and the server is configured, with the trimmed name, the email and the phone or ''; an empty name or email gives 400 |
| HighLevel.TaggedRequestBody | app/useraccounts.tsx:349-354 | corrected hook body: the hook's fields plus `tags`, holding the given tags in order |
| Contacts.HandlePost | app/api/contacts/route.ts:3-74 | invalid JSON ⇒ 500. Missing name or email ⇒ 400, no call. Missing credentials ⇒ 500, no call. A truthy name that is not a string ⇒ 500 internal error, no call. The CRM is called iff all checks pass and the name is a string, with the trimmed name split, phone defaulting to '', and the token and location. A 200 answer implies a call was made |
| Booking.Merge | app/booking.tsx:88-90 | every field the patch supplies is replaced, every other field kept |
| Booking.MergeEmpty | app/booking.tsx:88-90 | an empty patch changes nothing |
| Booking.MergeThen | app/booking.tsx:88-90 | two updates are one update with the later fields winning; repeating an update changes nothing more |
| Booking.FewerPassengers | app/booking.tsx:329 | `max(1, p - 1)`: at least 1, stays within [1, 19], and is p - 1 above 1 |
| Booking.MorePassengers | app/booking.tsx:331 | `min(19, p + 1)`: at most 19, stays within [1, 19], and is p + 1 below 19 |
| Booking.PassengerButtonsInverse | app/booking.tsx:329-331 | inside the range the two buttons undo each other |
| Booking.PressesStayInRange | app/booking.tsx:329-331 | any sequence of presses from a count in [1, 19] stays in [1, 19] |
| Booking.ResetDraft | app/booking.tsx:101 | clears aircraft, destination and both dates; keeps trip type, origin, passengers and contact |
| Booking.ResetBlocksSearch | app/booking.tsx:101 | a reset draft fails the home guard, and resetting twice is resetting once |
| Booking.Wizard.constructor | app/booking.tsx:72-82 | HOME, round trip, origin KBDN, 2 passengers, no aircraft, empty contact; boxes show KBDN and '' |
| Booking.Wizard.UpdateBooking | app/booking.tsx:88-90 | only the draft changes, by Merge |
| Booking.Wizard.TypeOrigin | app/booking.tsx:225-228 | typing changes only the origin box, not the draft |
| Booking.Wizard.TypeDestination | app/booking.tsx:265-268 | typing changes only the destination box, not the draft |
| Booking.Wizard.OriginResults | app/booking.tsx:158 | at most 10 suggestions, none for a box shorter than 2 |
| Booking.Wizard.DestResults | app/booking.tsx:159 | at most 10 suggestions, none for a box shorter than 2 |
| Booking.Wizard.SelectOrigin | app/booking.tsx:170-174 | the code goes into the box and the draft's origin; nothing else changes |
| Booking.Wizard.SelectDestination | app/booking.tsx:176-180 | the code goes into the box and the draft's destination; nothing else changes |
| Booking.Wizard.FewerPassengersPressed | app/booking.tsx:329 | only the passenger count changes, to FewerPassengers of the old count |
| Booking.Wizard.MorePassengersPressed | app/booking.tsx:331 | only the passenger count changes, to MorePassengers of the old count |
| Booking.Wizard.HomeSubmit | app/booking.tsx:161-168 | RESULTS iff destination and depart date are set; otherwise only an alert is added |
| Booking.Wizard.SelectAircraft | app/booking.tsx:420 | records the aircraft and opens a fresh DETAILS screen |
| Booking.Wizard.EnterHome | app/booking.tsx:153-154 | entering HOME remounts the boxes from the draft's origin and destination |
| Booking.Wizard.ResultsBack | app/booking.tsx:97 | RESULTS back goes to HOME |
| Booking.Wizard.DetailsBack | app/booking.tsx:99 | DETAILS back goes to RESULTS, draft kept |
| Booking.Wizard.LogoClick | app/booking.tsx:120 | HOME from any screen with the draft kept; a no-op on HOME |
| Booking.Wizard.Reset | app/booking.tsx:101 | HOME with ResetDraft applied; the destination box is empty |
| Booking.Wizard.BeginDetailsSubmit | app/booking.tsx:440-449 | only while no submit is in flight (the button is disabled while loading). Without name or email: only an alert, no call. Otherwise: loading set, error cleared, and the call carries the draft's contact |
| Booking.Wizard.CompleteDetailsSubmit | app/booking.tsx:450-466 | success ⇒ CONFIRMATION. Failure ⇒ the error message, or "Failed to submit booking". Loading ends false. The flag updates apply only to the details screen still mounted |
| Records.SetStatus | app/admin.tsx:309-311 | same length and order; matching ids get the status; nothing else changes |
| Records.SetStatusUnknownId | app/admin.tsx:309-311 | an id no flight carries changes nothing |
| Records.SetStatusLastWins | app/admin.tsx:309-311 | of two updates the later counts; repeating one changes nothing more |
| Records.RemoveId | app/admin.tsx:313-317 | what is left is from the list and has another id |
| Records.RemoveIdExact | app/admin.tsx:313-317 | a flight survives iff it was there with another id; order kept; deleting twice is deleting once |
| Records.RemoveUnknownId | app/admin.tsx:313-317 | deleting an id nobody carries changes nothing |
| Records.Fulfil | app/admin.tsx:319-321 | same length and order; matching requests become Fulfilled; nothing else changes |
| Records.FulfilIdempotent | app/admin.tsx:319-321 | fulfilling twice is fulfilling once |
| Records.FulfilUnknownId | app/admin.tsx:319-321 | an unknown id changes nothing |
| Records.UpcomingFlights | app/admin.tsx:324-326 | exactly the user's flights dated after now and not cancelled, each as often as in the list (a permutation of the filtered list), earliest first |
| Records.PastFlights | app/admin.tsx:328-330 | exactly the user's flights dated before now, each as often as in the list (a permutation of the filtered list), latest first |
| Records.UpcomingPastSplit | app/admin.tsx:324-330 | no flight is in both lists; one dated exactly now or with an invalid date is in neither; with nobody signed in both are empty |
| Records.ActiveCount | app/admin.tsx:688 | at most the number of flights |
| Records.PendingCount | app/admin.tsx:689 | at most the number of requests |
| Records.CustomerCount | app/admin.tsx:709 | at most the number of users |
| Records.AppendFlightFigures | app/useraccounts.tsx:410 | a flight added at the end adds its price to revenue unless cancelled, and one to the active count when confirmed or pending |
| Records.RemoveIdActive | app/admin.tsx:315 | deleting cannot raise the active count |
| Records.PrependRequestPending | app/admin.tsx:304 | a request put in front adds one to the pending count when open |
| Records.FulfilPending | app/admin.tsx:320 | fulfilling takes exactly the open requests with that id off the pending count |
| Records.FourFlightDashboard | app/admin.tsx:687-688 | revenue and active count of four uncancelled flights, flight by flight |
| AdminPortal.SeedFigures | app/admin.tsx:687-689 | on the seeded data: revenue 36,200, 3 active flights, 1 open request, 2 customers |
| AdminPortal.Login | app/admin.tsx:259-283 | a sign-in is always a listed user, on one of two views. The admin dashboard only with the exact credentials and the admin's record. The dashboard only for the first user whose email matches case-insensitively, who must be a customer, with a non-empty password. Conversely, the exact credentials always succeed when the admin is listed, and otherwise a first match that is a customer, with some password typed, always signs in on the dashboard |
| AdminPortal.SeedAdminLogin | app/admin.tsx:264-271 | the admin signs in with the admin password and is refused with any other |
| AdminPortal.EmptyPasswordRefused | app/admin.tsx:276 | an empty password is always refused |
| AdminPortal.SeedCustomerLogin | app/admin.tsx:274-280 | a customer signs in with any non-empty password and any letter case of the email |
| AdminPortal.Render | app/admin.tsx:927-941 | only the dashboard view draws the dashboard, so the switch's default is unreachable; admin views map to admin pages and back |
| AdminPortal.RenderInjective | app/admin.tsx:927-941 | different views draw different pages |
| AdminPortal.Portal.constructor | app/admin.tsx:241-254 | seeded data, nobody signed in, sign-in form, dashboard view, empty inputs |
| AdminPortal.Portal.EnterCredentials | app/admin.tsx:252-253 | only the two inputs change |
| AdminPortal.Portal.HandleLogin | app/admin.tsx:259-283 | on success user and view follow Login, error cleared; on refusal only the error is set |
| AdminPortal.Portal.HandleLogout | app/admin.tsx:285-291 | no user, sign-in form, inputs and error cleared; view and data kept |
| AdminPortal.Portal.SubmitConciergeRequest | app/admin.tsx:293-306 | no user ⇒ no-op. Otherwise one open request of the user's, id "CR-" and the draw, is put in front; the alert is shown and the pending count rises by one |
| AdminPortal.Portal.AdminUpdateFlightStatus | app/admin.tsx:309-311 | only the flights change, by SetStatus |
| AdminPortal.Portal.AdminDeleteFlight | app/admin.tsx:313-317 | nothing without confirmation, else RemoveId; the active count does not rise |
| AdminPortal.Portal.AdminFulfillRequest | app/admin.tsx:319-321 | only the requests change, by Fulfil; the pending count drops by the open matching ones |
| AccountsPortal.SeedFigures | app/useraccounts.tsx:979-981 | on the seeded data: revenue 36,200, 3 active flights, 1 open request |
| AccountsPortal.Login | app/useraccounts.tsx:310-343 | refused iff email or password is empty. The admin dashboard iff the exact admin credentials, with the admin record. Anything else: the demo customer carrying the typed email, on the dashboard |
| AccountsPortal.LoginVariantsDiffer | app/useraccounts.tsx:315-340 | an unknown email, and the admin email with a wrong password, are refused by the admin portal and signed in here |
| AccountsPortal.ViewFromParam | app/useraccounts.tsx:293-304 | a view iff the parameter is one of the six own keys, never an admin view, and the key of the view returned |
| AccountsPortal.ViewKeyRoundTrip | app/useraccounts.tsx:293-300 | every customer view is found by its own key |
| AccountsPortal.ViewMapLookupAsWritten | app/useraccounts.tsx:302-303 | the `in` guard as written accepts the own keys and every Object.prototype name; on own keys it agrees with ViewFromParam |
| AccountsPortal.SetViewAsWritten | app/useraccounts.tsx:303 | the state setter, given the previous value, stores a view's key as that view. `toString` stores a primitive and `constructor` and `__proto__` an object, whatever came before. `isPrototypeOf` stores a primitive exactly when the previous value is not an object, and throws otherwise. Every other inherited name throws |
| AccountsPortal.ChainedPrototypeKeys | app/useraccounts.tsx:302-303 | from any view's key, `?view=__proto__` stores an object and `?view=isPrototypeOf` stores false; after the object, `?view=isPrototypeOf` throws |
| AccountsPortal.ViewsDrawn | app/useraccounts.tsx:1495-1504 | a stored view draws that view; any other stored value draws none |
| AccountsPortal.PrototypeKeyBlanksView | app/useraccounts.tsx:302-303 | whatever the previous view, `?view=toString` passes the guard as written, stores a non-view value and blanks the main area; the own-key lookup refuses it |
| AccountsPortal.PrototypeKeyBreaksUpdate | app/useraccounts.tsx:302-303 | whatever the previous view, `?view=valueOf` passes the guard as written and its update throws; the own-key lookup refuses it |
| AccountsPortal.PrototypeKeysDrawNoView | app/useraccounts.tsx:302-303 | whatever the previous view, every inherited name passes the guard as written and then either fails or draws no view; the own-key lookup refuses all of them |
| AccountsPortal.BookedIds | app/useraccounts.tsx:399 | booked flight ids carry four digits, and different draws give different ids |
| AccountsPortal.SuggestionCode | app/useraccounts.tsx:839 | `iata \|\| icao` |
| AccountsPortal.Portal.constructor | app/useraccounts.tsx:257-284 | seeded data, nobody signed in, empty forms, the default booking form, no suggestions, a fresh airport hook in its initial state |
| AccountsPortal.Portal.EnterSignin | app/useraccounts.tsx:1275-1289 | only the sign-in form changes |
| AccountsPortal.Portal.EnterSignup | app/useraccounts.tsx:1304-1325 | only the signup form changes |
| AccountsPortal.Portal.EditBooking | app/useraccounts.tsx:904-943 | only the booking form changes |
| AccountsPortal.Portal.PickOriginSuggestion | app/useraccounts.tsx:838-841 | only the form's origin changes, to the suggestion's code |
| AccountsPortal.Portal.PickDestSuggestion | app/useraccounts.tsx:882-885 | only the form's destination changes, to the suggestion's code |
| AccountsPortal.Portal.HandleLogin | app/useraccounts.tsx:310-343 | on success user and view follow Login, error cleared; on refusal only the error is set |
| AccountsPortal.Portal.BeginSignup | app/useraccounts.tsx:345-354 | the argument handed to createContact is the signup name and email with the tag "app"; only the call log changes |
| AccountsPortal.SignupTagNeverSent | app/useraccounts.tsx:349-354 | as written, the body posted for a signup has no `tags` field, so even the corrected relay forwards no tag, and the relay as written makes the same exchange for the tagged and the untagged body |
| AccountsPortal.SignupTagSent | app/useraccounts.tsx:349-354 | corrected: with a non-empty name and email and the server configured, the tagged body's CRM call carries the signup's tags, which for a signup are `["app"]` |
| AccountsPortal.Portal.CompleteSignup | app/useraccounts.tsx:356-382 | whether or not the call succeeded: signed in as a new Member with balance 0, on the dashboard |
| AccountsPortal.Portal.HandleLogout | app/useraccounts.tsx:385-391 | no user, sign-in form, both forms and the error cleared; view, booking form and data kept |
| AccountsPortal.Portal.HandleBookFlight | app/useraccounts.tsx:394-421 | no user ⇒ no-op. Otherwise exactly one pending flight of the user's at 6,500 is appended, the form is reset, the flights view opens, the alert is shown, revenue rises by 6,500 and the active count by one |
| AccountsPortal.Portal.RecordBooking | app/useraccounts.tsx:410-420 | the state updates once the flight is built |
| AccountsPortal.Portal.ApplyUrlView | app/useraccounts.tsx:289-306 | the view changes only with someone signed in and a parameter among the own keys, and never to an admin view |
| AccountsPortal.Portal.SearchOriginAirports | app/useraccounts.tsx:424-431 | a raw query under 2 clears the origin suggestions without touching the hook. Otherwise only those suggestions change: to [] for a trimmed query under 2, to the fallback list without a token, and to the mapped record when an ICAO lookup finds one |
| AccountsPortal.Portal.SearchDestAirports | app/useraccounts.tsx:433-440 | a raw query under 2 clears the destination suggestions without touching the hook. Otherwise only those suggestions change: to [] for a trimmed query under 2, to the fallback list without a token, and to the mapped record when an ICAO lookup finds one |
| AccountsPortal.Portal.AdminUpdateFlightStatus | app/useraccounts.tsx:443-445 | only the flights change, by SetStatus |
| AccountsPortal.Portal.AdminDeleteFlight | app/useraccounts.tsx:447-451 | nothing without confirmation, else RemoveId; the active count does not rise |
| AccountsPortal.Portal.AdminFulfillRequest | app/useraccounts.tsx:453-455 | only the requests change, by Fulfil; the pending count drops by the open matching ones |

## Left out

- JSX rendering, styling and layout: the UI components, the Render* view bodies, and the fixed `UPCOMING_FLIGHTS`/`PAST_FLIGHTS`/`FLEET` displays. They carry no logic.
- The network, via `fetch` and the `AbortController` of `useAirportDB` (app/hooks/useAirportDB.ts:38-41, 56, 74):
  - The outcome of a request is an input.
  - Out-of-order replies to overlapping searches are not modelled; each search runs to completion before the next.
- `app/api/env-check/route.ts` and `app/accounts/page.tsx` are not part of this model. They are an environment check and a Suspense wrapper.
- `app/hooks/useHighLevel.ts`: only the body `createContact` posts is modelled (`HighLevel.RequestBody`). Its `loading` and `error` state and the error it rethrows are not; signup proceeds either way (`CompleteSignup`).
- AccountsPortal.Portal.BeginSignup: the Create Account button is disabled while the contact call is in flight (`disabled={hlLoading}`, app/useraccounts.tsx:1328). The model does not track that flag, so it allows a second `BeginSignup` before `CompleteSignup`.
- Dates:
  - Dates are milliseconds; `None` stands for an Invalid Date.
  - `new Date(\`${date}T${time}\`)` and `parseInt` in `handleBookFlight` are parameters (the parsed date and passenger count), not modelled parsing.
  - The seeded join dates are midnight UTC; the code builds them as local time, and the timezone is not modelled.
- `Math.random()`, `window.confirm`, `alert` and `setTimeout` are gone:
  - the random draw and the dialog's answer are parameters;
  - alerts are recorded;
  - signup's 500 ms delay is the split between `BeginSignup` and `CompleteSignup`.
- The in-render sorts (app/admin.tsx:790, 842; app/useraccounts.tsx:1082, 1134).
  - They sort state in place while rendering.
  - The request sort's comparator (`a.status === 'Open' ? -1 : 1`) is not a consistent order, so no order can be promised.
- Records.UpcomingFlights and Records.PastFlights: the order of flights with equal dates is not stated. The model's insertion sort is stable, and so is the engine's `sort`, but the contract promises only the date order.
- Ascii.ToLower: `toLowerCase`/`toUpperCase` are modelled over ASCII only; other letters are left as they are.
- AirportDB.MapRecord: the record's fields are optional strings and numbers. A JSON field of another type (which `\|\|` would pass through) is not modelled.
- UI-only state: the dropdown flags (`showOriginResults`, `showDestSuggestions`, …), `isPaxOpen`, `isMobileMenuOpen` and the focus and blur handlers. They decide only what is drawn.
- The sidebar and header navigation to a chosen view; they only set `currentView`.
- The booking wizard's screen preconditions (`requires screen == Home`, …) stand for the handler belonging to a screen that is on display; the model does not render screens.
- Booking.Wizard.TypeOrigin: the suggestion list of the home screen is the value of `OriginResults()`/`DestResults()` over the box text, recomputed on every render, rather than a stored field.
- AccountsPortal.Portal.SearchOriginAirports: states the suggestions for the short, tokenless and found cases only. For the other lookup outcomes they are what AirportDB.Hook.Search returns, which that method's contract gives in full.
- AccountsPortal.Portal.SearchDestAirports: the same as SearchOriginAirports.
- AccountsPortal.SetViewAsWritten: a failed update is None. What React then shows (an error overlay, or an unmounted tree) is not modelled. A stored value that is not a view is kept only as primitive or object, which is all the next update depends on.
- AccountsPortal.Portal.ApplyUrlView: models the corrected guard (own keys only); the code as written is `ViewMapLookupAsWritten` (see Findings).

## Findings

| source | as written | input that shows it | evidently intended | confidence | as-written member | corrected member |
|---|---|---|---|---|---|---|
| app/useraccounts.tsx:302-303 | `if (view in viewMap) setCurrentView(viewMap[view])`. The `in` operator also finds the properties a plain object inherits from Object.prototype | `?view=toString` while signed in: the guard passes and React's setter calls `toString` as an updater, storing "[object Undefined]". None of the views at lines 1495-1504 is drawn, so the main area is blank. `?view=valueOf` passes too, and its updater throws a TypeError | only the six own keys of `viewMap` select a view (`Object.hasOwn(viewMap, view)`) | not executed | AccountsPortal.PrototypeKeysDrawNoView | AccountsPortal.ViewFromParam |
| app/useraccounts.tsx:349-354 | the comment says the contact is created in the CRM with the "app" tag, and `createContact` is handed `tags: ['app']`. But `createContact` destructures only name, email and phone (app/hooks/useHighLevel.ts:19, 29-33), and the relay reads only those (app/api/contacts/route.ts:6, 41-48) | any signup: the posted body is `{name, email, phone: ''}` and the CRM call has no tags | the signup contact reaches the CRM tagged "app": the hook posts the tags and the relay forwards them | not executed | AccountsPortal.SignupTagNeverSent | AccountsPortal.SignupTagSent |
