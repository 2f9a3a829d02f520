# Donation marketplace: a verified model of its plan, quota and record logic

This project is a Dafny model of the core of a Next.js/Firebase donation
marketplace. On the platform, users publish items to give away, and other
users ask for a donor's contact details. A free plan caps publishing at
three donations and counts at most three contacts, after which it offers
an upgrade. A premium plan lifts both caps. The contact dialog itself
opens on every press of the contact button, so the contact quota limits
the counter, not what is shown.

The model covers these parts:

- **The document store.** The `users` collection, the `donations`
  collection and the identity provider's accounts are the fields of one
  class, `Db.Backend`. Each Firestore transaction is one method on it.
- **Store operations.** Reading the feed newest first, publishing a
  donation under the free-plan cap, counting a contact, renaming a user,
  changing a plan, listing users, creating an account, signing in, and the
  password-reset endpoint.
- **Client logic.**
  - the contact gate of a donation card;
  - the new-donation form (schema, image hint, submit procedure);
  - the "my donations" filter and its optimistic status change;
  - the search filter and the administrator dashboard;
  - the shared donations cache with its listeners;
  - the auth context;
  - the 24-hour currency-rate cache.

Everything external is an input of the operation that needs it:

- the signed-in user;
- the clock and the server timestamp;
- new document ids;
- the random draws of a connection code;
- the answers of the identity provider, the image upload service and the
  rate provider;
- the order in which the store lists the users collection.

Each state-changing method's `ensures` ties its result and its new state to
a pure function of the old state (`AddDonationStep`, `IncrementStep`,
`UpdatePlanStep`, `Step`, ...). The lemmas about those functions carry the
properties.

JavaScript's value conventions are written out:

- a missing field is an `Option`;
- `|| 0` and `|| 'free'` become `CountOrZero` and `PlanOrFree`;
- truthiness of strings becomes `Truthy`.

The model shows three behaviours of the code as written. Each is proved as
a lemma rather than corrected:

- `getDonations` drops every donation's `status` and `isFeatured`.
  - So on the dashboard every featured button asks to feature
    (`Admin.FetchedDonationsAlwaysFeature`).
  - An optimistic status on "my donations" lasts only until the next
    refresh of the feed (`MyDonations.RefreshClearsStatus`).
- `createUser` writes no `plan`. Such a user reads as free everywhere,
  but the dashboard's plan button offers them the free plan
  (`Admin.NewUserOfferedFreePlan`).
- A sign-in whose user document is missing keeps the previous user's
  connection code in the auth context (`UseAuth.StaleCodeNeedsNoSignOut`).

## Model

| member | source | states |
|---|---|---|
| Types.PlanOrFree | src/lib/donations.ts:66 | an absent plan reads as free; the result is premium exactly when the stored plan is premium |
| Types.CountOrZero | src/lib/donations.ts:65 | an absent counter reads as 0, a present one as itself |
| Donations.MapDocToDonation | src/lib/donations.ts:7-23 | id, title, description, imageUrl, imageHint, contact and owner are copied; createdAt is the stored timestamp, or `now` when the field is absent or holds another kind of value; status and isFeatured are not copied |
| Donations.SortNewestFirst | src/lib/donations.ts:28 | the result is a permutation of the input, in descending store order of createdAt: later value types first (strings and maps before timestamps, null last), within a type by value, equal values by descending document id |
| Donations.NewerOrSameTotal | src/lib/donations.ts:28 | of two dated documents, one may always precede the other |
| Donations.NewerOrSameTransitive | src/lib/donations.ts:28 | the descending order is transitive |
| Donations.InsertNewestFirst | src/lib/donations.ts:28 | inserting into a newest-first list keeps it newest first |
| Donations.WithCreatedAt | src/lib/donations.ts:28 | keeps exactly the documents that have a createdAt field, with their multiplicity |
| Donations.GetDonations | src/lib/donations.ts:26-31 | one entry per stored donation that has a createdAt field, each as often as stored, arranged newest first and mapped by MapDocToDonation |
| Donations.GetDonationsMembers | src/lib/donations.ts:26-31 | every feed entry is the view of a stored donation with createdAt, and every such donation is in the feed |
| Donations.UndatedDonationNotListed | src/lib/donations.ts:28 | a donation stored without createdAt is not in the feed |
| Donations.OwnedBy | src/lib/donations.ts:37 | keeps exactly the documents owned by userId, each with its multiplicity, and no other |
| Donations.GetDonationsByUser | src/lib/donations.ts:33-42 | exactly the donations whose owner id is userId and that have createdAt, newest first |
| Donations.OwnedByInsert | src/lib/donations.ts:35-39 | selecting one owner after inserting a document into a newest-first list is inserting it into that owner's list |
| Donations.OwnedBySort | src/lib/donations.ts:35-39 | selecting one owner commutes with the newest-first order |
| Donations.OwnedByWithCreatedAt | src/lib/donations.ts:35-39 | selecting one owner commutes with leaving out undated documents |
| Donations.FeedCarriesNoModeration | src/lib/donations.ts:10-22 | every entry of the feed has no status and no featured flag |
| Donations.OwnerOf | src/lib/donations.ts:75-78 | the owner is the signed-in uid with its display name, or 'Utilisateur Anonyme' when that is empty or absent |
| Donations.NewDonationDoc | src/lib/donations.ts:73-80 | the payload's fields, then the owner and the server time, which override any such keys of the payload |
| Donations.DonationGate | src/lib/donations.ts:60-70 | fails iff the user document is missing; refuses iff the plan is free (absent = free) and the count (absent = 0) is at least 3 |
| Donations.AddWithoutUserWritesNothing | src/lib/donations.ts:51-53 | with no signed-in user: the not-authenticated error and nothing written |
| Donations.AddWithoutUserDocFails | src/lib/donations.ts:61-63 | a missing user document gives the generic failure and nothing written |
| Donations.AddDonationCap | src/lib/donations.ts:65-84 | capped: limit error, nothing changes; otherwise exactly one donation is appended, the payload's fields owned by the uid and dated by the server, and only that user's count becomes old+1, every other field kept |
| Donations.PremiumNeverCapped | src/lib/donations.ts:68 | a premium user's donation is accepted whatever the count |
| Donations.OwnerIgnoresPayload | src/lib/donations.ts:73-80 | a stray `user` or `createdAt` key in the payload does not change the written document |
| Donations.FreeDonationCountStaysCapped | src/lib/donations.ts:65-82 | from a count at most 3, a free user's count never exceeds 3 |
| Donations.AddDonation | src/lib/donations.ts:47-95 | the transaction's result and the new collections are those of AddDonationStep; accounts are untouched |
| Donations.IncrementSpec | src/lib/donations.ts:98-117 | empty id or missing document: error and nothing changes; otherwise only that user's contactCount becomes old+1 (absent = 0), with no cap |
| Donations.IncrementContactCount | src/lib/donations.ts:98-117 | the outcome and the new users collection are those of IncrementStep |
| User.UpdateUserName | src/lib/user.ts:16-39 | no or another signed-in user: mismatch, nothing written; otherwise the display name, then the document's name, is set; a missing document reports failure with the display name already changed |
| User.GetUserData | src/lib/user.ts:41-51 | the stored document iff it exists, else none |
| User.ToUserData | src/lib/user.ts:59-62 | the document id, replaced by a stored `id` field when there is one, and the stored fields |
| User.GetAllUsers | src/lib/user.ts:55-67 | one record per stored user, in the store's listing order |
| User.AllUsersListed | src/lib/user.ts:58-62 | every stored user appears in the listing |
| User.UpdatePlanSpec | src/lib/user.ts:69-77 | only the plan field of that user changes; a missing document fails and changes nothing; applying the same plan twice equals once |
| User.UpdateUserPlan | src/lib/user.ts:69-77 | the outcome and new users collection are those of UpdatePlanStep |
| Auth.GenerateConnectionCode | src/lib/auth.ts:9-16 | exactly `length` characters, the i-th being the alphabet's character at the i-th draw, all in A-Z or 0-9 |
| Auth.CodeCharsAreCodeChars | src/lib/auth.ts:10 | the alphabet has 36 characters, all in A-Z or 0-9 |
| Auth.EveryCodeDrawable | src/lib/auth.ts:12-14 | every string over A-Z0-9 is produced by some sequence of draws |
| Auth.CreateUserMessage | src/lib/auth.ts:38-45 | email-in-use and weak-password map to their messages; every other code to the generic one |
| Auth.NewUserIsFreeAndFresh | src/lib/auth.ts:27-32 | the new record has no plan and no counters, so it reads as free with zero donations and contacts, and holds the code |
| Auth.CreateUser | src/lib/auth.ts:18-47 | a provider error gives its message and writes nothing; otherwise the account (display name = name) and the record {name, email, code, createdAt} are written under the new uid, with no uniqueness check on the code |
| Auth.LoginWithEmailPassword | src/lib/auth.ts:49-60 | success is passed through; the three credential errors give the invalid-credentials message, every other error the generic one |
| UpdatePassword.Precheck | src/pages/api/update-password.ts:24-32 | 405 iff the method is not POST; 400 iff POST with a missing or empty email or code; no answer iff both are present |
| UpdatePassword.ErrorResponse | src/pages/api/update-password.ts:56-62 | 404 iff the error code is auth/user-not-found, else 500 |
| UpdatePassword.FirstMatchingUser | src/pages/api/update-password.ts:36-38 | none iff no record holds both the email and the code; otherwise the least document id among the matches |
| UpdatePassword.FirstMatchUnique | src/pages/api/update-password.ts:45-46 | the first match is unique |
| UpdatePassword.Handler | src/pages/api/update-password.ts:20-63 | 405, 400, 401, 200, 404 and 500 each iff their condition, a lookup query that throws giving 500, and no other status; each answer carries its status's message; on 200 only the first match's password is set to the code; on any other status no password changes |
| DonationCard.Decide | src/components/donation-card.tsx:40-63 | login required iff not logged in or user/userData missing; nothing counted iff a non-free plan; upgrade iff free with count (absent = 0) at least 3; increment iff free with count below 3 |
| DonationCard.NoUserDataAsksLogin | src/components/donation-card.tsx:35-48 | with no userData, as the auth context provides none, every press asks the user to log in |
| DonationCard.MissingFieldsMeanFreshFreeUser | src/components/donation-card.tsx:50-51 | a record with no plan and no count is a free user with contacts left |
| DonationCard.Card.HandleContact | src/components/donation-card.tsx:40-77 | the contact dialog opens on every press; login toast and no write; a paid plan changes nothing else; upgrade opens the dialog and writes nothing; increment performs IncrementStep, then a refresh on success or the error toast without refresh on failure |
| DonationCard.Card.HandleGoToPlan | src/components/donation-card.tsx:79-82 | closes the upgrade dialog and navigates to /plan |
| DonationCard.ContactsStopAtLimit | src/components/donation-card.tsx:60-68 | with the record reloaded after each contact, n presses by a free user starting at c <= 3 leave the count at min(3, c+n) |
| DonationCard.PaidContactsNotCounted | src/components/donation-card.tsx:54-57 | a premium user's presses never change the store |
| NewDonation.Validate | src/app/new-donation/page.tsx:24-35 | an issue is reported exactly for each broken rule: title < 3, description < 10, contact < 3, not exactly one file, first file over 5000000 bytes or absent, first file's type not accepted or absent |
| NewDonation.ValidIff | src/app/new-donation/page.tsx:24-35 | the form is valid iff the three lengths hold and there is exactly one file of at most 5000000 bytes with an accepted type |
| NewDonation.NoFileThreeIssues | src/app/new-donation/page.tsx:28-34 | with no file, the required, size and type issues are all reported |
| NewDonation.HintIsPrefix | src/app/new-donation/page.tsx:118-125 | the image hint is a prefix of the lowercased title |
| NewDonation.HintOfShortTitle | src/app/new-donation/page.tsx:118-125 | with at most one space, the hint is the whole lowercased title |
| NewDonation.Payload | src/app/new-donation/page.tsx:120-126 | title, description, contact, imageUrl and imageHint only: no owner, date, status or flag |
| NewDonation.NewDonationPage.OnSubmit | src/app/new-donation/page.tsx:92-148 | no user: toast only; failed upload: toast, no addDonation; otherwise the store changes as AddDonationStep says and success triggers a refresh and goes home; submitting is false on every path that set it |
| NewDonation.PublishedDonationOwnedBySubmitter | src/app/new-donation/page.tsx:120-128 | a published donation is appended, owned by the submitter, with the derived hint and no status |
| MyDonations.OwnedDonations | src/app/my-donations/page.tsx:22 | keeps exactly the donations owned by uid, each with its multiplicity |
| MyDonations.OwnedDonationsKeepOrder | src/app/my-donations/page.tsx:22 | the kept donations are in feed order |
| MyDonations.OwnedViews | src/app/my-donations/page.tsx:22 | filtering the client views by owner equals mapping the owner's stored documents (`where('user.id', '==', uid)`) |
| MyDonations.OwnedFeedIsByUser | src/app/my-donations/page.tsx:22 | the user's donations taken from the feed are exactly getDonationsByUser for that user, in the same order |
| MyDonations.OwnerFilter | src/app/my-donations/page.tsx:20-27 | empty with no user or an empty feed; otherwise exactly the user's donations |
| MyDonations.SetStatusSpec | src/app/my-donations/page.tsx:32-36 | same length; only entries with that id change, and only their status; no match leaves the list unchanged; idempotent |
| MyDonations.RefreshClearsStatus | src/app/my-donations/page.tsx:20-27 | after a refresh every listed donation has no status |
| MyDonations.MyDonationsPage.OnFeedChange | src/app/my-donations/page.tsx:20-27 | the page's list becomes OwnerFilter of the user and the feed |
| MyDonations.MyDonationsPage.HandleStatusChange | src/app/my-donations/page.tsx:29-57 | the list is updated by SetStatus; a refresh is requested on both success and failure; only the toast differs |
| Search.KeepMatching | src/app/search/page.tsx:21-24 | keeps exactly the donations whose lowercased title or description contains the lowercased term, each with its multiplicity |
| Search.Filtered | src/app/search/page.tsx:17-25 | empty for an empty term; otherwise exactly the matching donations |
| Search.FilteredIsSubsequence | src/app/search/page.tsx:21 | the result is an order-preserving subsequence of the feed |
| Search.CaseInsensitive | src/app/search/page.tsx:22-23 | the upper- and lower-cased term give the same result (ASCII letters) |
| Search.Narrowing | src/app/search/page.tsx:21-24 | for a non-empty t, the result for t+s is a subsequence of the result for t |
| Admin.AdminIff | src/app/admin/page.tsx:19-30 | admin iff a user exists whose email is present and is one of the three listed |
| Admin.Gate | src/app/admin/page.tsx:49-57 | wait while auth loads; then redirect a non-admin, fetch for an admin |
| Admin.PlanTarget | src/app/admin/page.tsx:128-136 | premium iff the stored plan is free; any other or absent plan targets free |
| Admin.NewUserOfferedFreePlan | src/app/admin/page.tsx:128-136 | a record as createUser writes it reads as free yet its button targets free |
| Admin.FeaturedTarget | src/app/admin/page.tsx:173 | the negation of the flag, an absent flag being false |
| Admin.FetchedDonationsAlwaysFeature | src/app/admin/page.tsx:173 | for every donation of the fetched feed the toggle asks to feature |
| Admin.DashboardOnlyForAdmins | src/app/admin/page.tsx:90-96 | the dashboard shows only when auth and data are loaded and the user is an admin |
| Admin.AdminPage.FetchData | src/app/admin/page.tsx:32-47 | success replaces users and donations with the store's listings; failure keeps them and shows the error toast; loading ends either way |
| Admin.AdminPage.OnAuthChange | src/app/admin/page.tsx:49-57 | nothing while loading; a non-admin is sent to /home with no fetch; an admin's data is fetched, or kept with the load-error toast when the fetch fails |
| Admin.AdminPage.HandlePlanChange | src/app/admin/page.tsx:59-67 | the plan is written as UpdatePlanStep says; success toasts and reloads, so users and donations are the store's listings, or are kept with the load-error toast when the reload fails; failure shows only the error toast; the route is unchanged |
| Admin.AdminPage.HandleDeleteDonation | src/app/admin/page.tsx:69-77 | success toasts and reloads, so users and donations are the store's listings, or are kept with the load-error toast when the reload fails; failure shows only the error toast; the route is unchanged |
| Admin.AdminPage.HandleToggleFeatured | src/app/admin/page.tsx:79-87 | asks for the negated flag; success toasts and reloads, so users and donations are the store's listings, or are kept with the load-error toast when the reload fails; failure shows only the error toast; the route is unchanged |
| UseDonations.RemoveListener | src/hooks/use-donations.ts:59-61 | the result holds exactly the other listeners |
| UseDonations.RemoveListenerKeepsOrder | src/hooks/use-donations.ts:59-61 | the remaining listeners keep their registration order |
| UseDonations.RemoveAbsentListener | src/hooks/use-donations.ts:59-61 | removing an unregistered listener changes nothing |
| UseDonations.UnsubscribeUndoesSubscribe | src/hooks/use-donations.ts:50-61 | unsubscribing right after subscribing restores the registry |
| UseDonations.DonationsHub.constructor | src/hooks/use-donations.ts:8-10 | empty cache, no listener, no fetch running |
| UseDonations.DonationsHub.NotifyListeners | src/hooks/use-donations.ts:13-17 | every registered listener is called once with the cache, in registration order, and its component gets the data and stops loading |
| UseDonations.DonationsHub.BeginFetch | src/hooks/use-donations.ts:20-22 | a no-op while a fetch is running; otherwise starts one; the guard is up afterwards |
| UseDonations.DonationsHub.CompleteFetch | src/hooks/use-donations.ts:23-31 | on success the cache is the store's feed and all listeners are notified; on failure nothing but the guard changes; the guard is down afterwards |
| UseDonations.DonationsHub.Subscribe | src/hooks/use-donations.ts:40-56 | appends a fresh listener; the component starts from the cache; loading and a fetch only when the cache is empty |
| UseDonations.DonationsHub.Unsubscribe | src/hooks/use-donations.ts:59-61 | removes that listener and keeps the others in order |
| UseAuth.DefaultContextConsistent | src/hooks/use-auth.tsx:19-23 | the default context is loading, with no user, and not logged in |
| UseAuth.CodeAfterEvent | src/hooks/use-auth.tsx:32-42 | sign-out clears the code; sign-in takes the stored code when the document exists and keeps the old one otherwise |
| UseAuth.StaleCodeNeedsNoSignOut | src/hooks/use-auth.tsx:32-42 | signing in to an account without a document right after another keeps the other's code; a sign-out in between clears it |
| UseAuth.AuthProvider.constructor | src/hooks/use-auth.tsx:26-28 | no user, loading, no code, not logged in |
| UseAuth.AuthProvider.Value | src/hooks/use-auth.tsx:49-54 | the context exposes the state, and isLoggedIn holds iff loading is over and a user is signed in |
| UseAuth.AuthProvider.OnAuthStateChanged | src/hooks/use-auth.tsx:31-44 | the user is the event's; the code follows CodeAfterEvent; loading is over; logged in iff signed in |
| Currency.NamesFor | src/services/currency-service.ts:198-203 | exactly the given codes that have a non-empty name |
| Currency.KeepNamedSpec | src/services/currency-service.ts:279-288 | kept codes are those sent that have a name, with the sent rate and the table's name; rates and names share their keys; re-filtering changes nothing |
| Currency.FilterRates | src/services/currency-service.ts:279-288 | the loop over the sent codes yields KeepNamed of the answer, whatever order it visits them in |
| Currency.NameCodes | src/services/currency-service.ts:199-203 | the loop records the name of every listed code that has one |
| Currency.BuildFallbackNames | src/services/currency-service.ts:198-203 | builds FallbackNames |
| Currency.FallbackNamesSpec | src/services/currency-service.ts:188-203 | the fallback names are exactly the requested codes that have a name, each with that name |
| Currency.StepSpec | src/services/currency-service.ts:254-305 | no key: fallback, cache untouched; fresh cache: cached data; failed fetch: fallback, cache untouched; good fetch: filtered data cached with now as fetch time |
| Currency.ServedFromCacheWithinDay | src/services/currency-service.ts:263-266 | after a good fetch at t, any call before t + 86400000 ms answers the same data whatever the provider says |
| Currency.RefetchAfterDay | src/services/currency-service.ts:263-294 | after 86400000 ms a good answer replaces the cache |
| Currency.CurrencyService.constructor | src/services/currency-service.ts:19-20 | no cache, fetch time 0, fallback names built |
| Currency.CurrencyService.GetCurrencyData | src/services/currency-service.ts:254-305 | the answer and the new cache are those of Step |

## Left out

- Concurrency: each Firestore transaction is one atomic method. Retries and interleavings are not modelled. No property is claimed about contacts made concurrently. The card checks the cached `userData` while `incrementContactCount` has no cap.
- `DonationCard.ContactsStopAtLimit` assumes that `refreshUserData` reloads the record from the store after each counted contact. The auth context does not provide `userData` or `refreshUserData` (src/hooks/use-auth.tsx:12-17), so the card's `userData` is an input. With the context as it stands, every press takes the login path (`DonationCard.NoUserDataAsksLogin`).
- `DonationCard.Card.HandleContact` always records a refresh after a counted contact. A `refreshUserData` that throws, which the source would report with the error toast although the count was written, is not modelled.
- Connection-code uniqueness: `createUser` does no collision check, and none is asserted.
- `Auth.CreateUser` does not model a failure of `updateProfile` or `setDoc` after the account was created. The model writes both or, on a provider error, neither.
- `Auth.CreateUser` stores the email passed in, not the provider's normalised `user.email`.
- `NewDonation.NewDonationPage.OnSubmit` passes the page's user to `addDonation`. The source reads the provider's current user there, and the two are taken to be the same.
- Password hashing, and the security of using the connection code as a password.
- The update-password endpoint's body fields are optional strings. A non-string body value is not modelled.
- `User.GetAllUsers` takes the order in which the store lists the collection as an input. It is not derived from document ids.
- Stored donations are assumed to carry a `user` map and string fields. A document without `user` would make the mapper's read of `data.user.id` (src/lib/donations.ts:18) throw and the whole read reject; that case is not modelled.
- `Donations.SortNewestFirst` orders numbers as integers and does not tell apart two values of the same kind among bytes, references, geopoints, arrays and maps; such values fall back to the document-id order. Fractional numbers and NaN are not modelled.
- `createdAt` is an integer instant. The ISO-string conversion is left out, as is JavaScript `Date` arithmetic. One `now` stands for every `new Date()` made while mapping a feed.
- Case mapping (`toLowerCase`, `toUpperCase`) covers the ASCII letters only. String lengths count characters, not UTF-16 code units.
- Network and file I/O:
  - the image upload to the hosting service;
  - the file preview;
  - the rate provider's `fetch` (its outcome is the `Reply` input);
  - `src/lib/storage.ts` and `src/lib/firebase.ts`.
- Rates are kept as the provider's numbers and never computed with.
- `Currency.HasName` reads `currencyNames[code]` as a table lookup. Keys inherited from the JavaScript object prototype, such as `constructor`, are not modelled.
- `deleteDonation`, `toggleDonationFeaturedStatus` and `updateDonationStatus` are not defined in src/lib/donations.ts. Their outcomes are inputs and their effect on the store is not modelled.
- `Admin.AdminPage.HandleDeleteDonation` and `Admin.AdminPage.HandleToggleFeatured` reload from the store as it is: the deletion and the flag change themselves are not applied to it, since those functions are not defined.
- The asynchronous interleaving of auth events is not modelled: each `onAuthStateChanged` callback runs to completion, document read included.
- `UseAuth.AuthProvider.OnAuthStateChanged` assumes that the user document read succeeds. If that `getDoc` (src/hooks/use-auth.tsx:35) rejects, the source leaves `loading` true for good; the model always ends loading.
- The texts of the errors thrown by src/lib/donations.ts and src/lib/user.ts are not modelled, only their kinds (`AddError`, `IncrementError`, `UserError`). The pages in this model show their own toasts, not those texts.
- `getCurrentUser` (src/lib/auth.ts:63-65) is the `currentUser` input of the operations that read it. `handleSignOut` (src/lib/auth.ts:67-74) is a provider call whose effect reaches the model as a sign-out event of `UseAuth.AuthProvider.OnAuthStateChanged`.
- The other pages (home, profile, plan, settings, login, show-code, select-currency) are not part of this model: they render, navigate, or call functions the library does not define.
