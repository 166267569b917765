# Operator console: store, recipient selection, dispatch, login and routing

A Dafny model of the state-and-guard logic of an operator console for
AI-assisted traveler communications. An operator signs in, the console loads
a snapshot of metrics, conversations and travelers, and the operator writes a
message to one traveler or to a selected group of travelers. The model covers:

- the process-wide application store (`src/lib/store.ts`). It is the class
  `Store.AppStore`, with the store's eight fields, its single-field setters and
  the actions `signIn`, `signOut` and `loadDashboardData`. A ghost `events`
  log records every `set` call, with the fields it wrote, and every call to
  the auth provider. The sequencing claims are stated on that log: busy is on
  during the provider call, and the snapshot is installed by one `set`;
- the recipient selector and message composer
  (`src/components/dashboard/AIMessageControl.tsx`). The search/destination
  filter, the destination list, the selection toggle, the send-button guards
  and the feedback counters are functions of module `Selector` and module
  `Feedback`. The component's state cells live in the class
  `Composer.MessageComposer`, whose `ToggleTraveler` and `SendMessage`
  methods update them;
- the login form (`src/components/auth/LoginForm.tsx`). It is the class
  `Login.LoginForm`, whose `HandleSubmit` drives the store's `SignIn`;
- top-level routing (`src/App.tsx`). It is modelled as functions from the
  signed-in user and the `activeView` tag to a `Routing.View`;
- the record types of `src/lib/supabase.ts` (module `Records`), with the
  JavaScript string operations `trim`, `toLowerCase` and `includes` given
  in module `Text`.

External collaborators are parameters:
- `signInWithPassword` is a function `(email, password) -> AuthResponse`. It
  can resolve with a user, resolve with an error, or reject.
- The outcome of `auth.signOut()` is a `SignOutResponse` argument.
- The clock (`new Date().toISOString()`) is a `now: string` argument.

The model follows the code where it differs from what one might expect:
- the message handler checks only the body, not the recipients (the buttons'
  `disabled` expressions are the only recipient check);
- it clears body, selection and manual recipient in both modes;
- `signOut` clears only `user`, not the composer's selection or draft;
- `loadDashboardData` installs fixed fixture data, with no failure path and
  no rule about which of two overlapping loads wins;
- the selection is an ordered list, not a set.

## Model

| member | source | states |
|---|---|---|
| `Text.Trim` | src/components/dashboard/AIMessageControl.tsx:112 | `trim()` leaves no whitespace at either end of its result |
| `Text.TrimStart` | src/components/dashboard/AIMessageControl.tsx:112 | the result is a suffix of the input, everything dropped is whitespace, and it does not start with whitespace |
| `Text.TrimEnd` | src/components/dashboard/AIMessageControl.tsx:112 | the result is a prefix of the input, everything dropped is whitespace, and it does not end with whitespace |
| `Text.TrimEmptyIffBlank` | src/components/dashboard/AIMessageControl.tsx:112 | `!s.trim()` holds exactly when every character of `s` is whitespace |
| `Text.NotBlankWitness` | src/components/dashboard/AIMessageControl.tsx:112 | a string with a non-whitespace character survives trimming |
| `Text.Lower` | src/components/dashboard/AIMessageControl.tsx:103-104 | `toLowerCase` keeps the length and maps each character on its own (ASCII letters only) |
| `Text.LowerIdempotent` | src/components/dashboard/AIMessageControl.tsx:103-104 | lower-casing twice equals lower-casing once |
| `Text.Includes` | src/components/dashboard/AIMessageControl.tsx:103-104 | `hay.includes(needle)`: true for the empty needle, and false for a needle longer than `hay` |
| `Text.IncludesIff` | src/components/dashboard/AIMessageControl.tsx:103-104 | `hay.includes(needle)` is true exactly when `needle` occurs at some index of `hay` |
| `Selector.MatchesSearch` | src/components/dashboard/AIMessageControl.tsx:103-104 | a traveler matches exactly when the lower-cased term occurs in the lower-cased name or in the lower-cased email |
| `Selector.MatchesDestination` | src/components/dashboard/AIMessageControl.tsx:105 | the filter `'all'` matches every traveler; any other filter matches exactly the travelers with that destination |
| `Selector.FilterTravelers` | src/components/dashboard/AIMessageControl.tsx:102-107 | the result holds exactly the travelers whose lower-cased name or email contains the lower-cased term and whose destination equals the filter or the filter is `'all'`; each keeps its multiplicity, and the result is a subsequence of the input in original order |
| `Selector.InitialFilterKeepsAll` | src/components/dashboard/AIMessageControl.tsx:58-59 | with the initial search `''` and destination `'all'` the filter returns the traveler list unchanged |
| `Selector.SearchIgnoresTermCase` | src/components/dashboard/AIMessageControl.tsx:103-104 | lower-casing the search term first gives the same filtered list |
| `Selector.DestinationsOf` | src/components/dashboard/AIMessageControl.tsx:109 | `travelers.map(t => t.destination)`: one destination per traveler, position by position |
| `Selector.Distinct` | src/components/dashboard/AIMessageControl.tsx:109 | `[...new Set(s)]` has no duplicates, the same members as `s`, and is a subsequence of `s` |
| `Selector.DistinctInFirstOccurrenceOrder` | src/components/dashboard/AIMessageControl.tsx:109 | the values come in the order of their first occurrence in `s`; with the row above this fixes the result |
| `Selector.DistinctKeepsFirstOccurrences` | src/components/dashboard/AIMessageControl.tsx:109 | `["a","b","a"]` gives `["a","b"]`: a repeated value stays where it first appeared |
| `Selector.AppendFreshNoDuplicates` | src/components/dashboard/AIMessageControl.tsx:109 | appending a value not yet present keeps a list free of duplicates (the step by which a `Set` grows) |
| `Selector.Destinations` | src/components/dashboard/AIMessageControl.tsx:109 | the destination list holds every traveler's destination, has no duplicates and holds nothing that is not some traveler's destination |
| `Selector.Without` | src/components/dashboard/AIMessageControl.tsx:384 | `prev.filter(id => id !== x)` removes every copy of `x`, keeps the count of every other id, and keeps order |
| `Selector.Toggled` | src/components/dashboard/AIMessageControl.tsx:382-386 | after a toggle the id is present exactly when it was absent before; other ids keep their membership; a present id is removed by `Without`; an absent id is appended at the end |
| `Selector.ToggleKeepsNoDuplicates` | src/components/dashboard/AIMessageControl.tsx:382-386 | toggling a duplicate-free selection leaves it duplicate-free |
| `Selector.ToggleTwiceAbsent` | src/components/dashboard/AIMessageControl.tsx:382-386 | two toggles of an unselected id restore the selection exactly |
| `Selector.ToggleTwicePresent` | src/components/dashboard/AIMessageControl.tsx:382-386 | two toggles of a selected id (in a duplicate-free selection) restore the same ids, with that id moved to the end |
| `Selector.ToggleTwiceReorders` | src/components/dashboard/AIMessageControl.tsx:382-386 | the order in the previous row really does change: `["1","2"]` toggled twice on `"1"` becomes `["2","1"]` |
| `Selector.ManualSendEnabled` | src/components/dashboard/AIMessageControl.tsx:329 | the manual send button is enabled exactly when the body has a non-whitespace character and a recipient is chosen |
| `Selector.BulkSendEnabled` | src/components/dashboard/AIMessageControl.tsx:440 | the bulk send button is enabled exactly when the body has a non-whitespace character and the selection is not empty |
| `Composer.Dispatch` | src/components/dashboard/AIMessageControl.tsx:111-118 | a payload, when there is one, has the given type, the untrimmed body, and recipients `[manualRecipient]` for manual or the selection for bulk |
| `Composer.DispatchNoneIffBlank` | src/components/dashboard/AIMessageControl.tsx:112 | nothing is sent exactly when the body holds whitespace only (both directions) |
| `Composer.ManualButtonSendsToRecipient` | src/components/dashboard/AIMessageControl.tsx:328-329 | a send from an enabled manual button goes to exactly one non-empty recipient |
| `Composer.BulkButtonSendsToSelection` | src/components/dashboard/AIMessageControl.tsx:439-440 | a send from an enabled bulk button goes to a non-empty, duplicate-free recipient list |
| `Composer.HandlerSendsToEmptyRecipient` | src/components/dashboard/AIMessageControl.tsx:111-118 | the handler does not check recipients: called in manual mode with no recipient, it sends to `[""]` |
| `Composer.MessageComposer.constructor` | src/components/dashboard/AIMessageControl.tsx:55-60 | initial composer state: manual mode, empty selection, body, search and recipient, destination `'all'` |
| `Composer.MessageComposer.FilteredTravelers` | src/components/dashboard/AIMessageControl.tsx:102-107 | the bulk list under the current search and destination filters is a subsequence of the travelers, holding exactly those that pass both filters |
| `Composer.MessageComposer.SetMessageType` | src/components/dashboard/AIMessageControl.tsx:231 | the mode switch writes only the mode |
| `Composer.MessageComposer.SetMessageContent` | src/components/dashboard/AIMessageControl.tsx:322 | typing writes only the body |
| `Composer.MessageComposer.SetSearchTerm` | src/components/dashboard/AIMessageControl.tsx:347 | typing in the search box writes only the search term |
| `Composer.MessageComposer.SetFilterDestination` | src/components/dashboard/AIMessageControl.tsx:357 | choosing a destination writes only the destination filter |
| `Composer.MessageComposer.SetManualRecipient` | src/components/dashboard/AIMessageControl.tsx:268 | choosing a traveler writes only the manual recipient |
| `Composer.MessageComposer.ToggleTraveler` | src/components/dashboard/AIMessageControl.tsx:381-387 | a click replaces the selection with its toggle, keeps it duplicate-free, and touches no other field |
| `Composer.MessageComposer.SendMessage` | src/components/dashboard/AIMessageControl.tsx:111-123 | returns the `Dispatch` payload; a blank body changes no state; otherwise body, selection and manual recipient are all cleared in either mode, and mode and filters stay |
| `Feedback.CountOfType` | src/components/dashboard/AIMessageControl.tsx:147-149 | a type counter is at most the number of items, and zero exactly when no item has that type |
| `Feedback.CountUrgent` | src/components/dashboard/AIMessageControl.tsx:150 | the urgent counter is at most the number of items, and zero exactly when no item is urgent |
| `Feedback.TypeCountsPartition` | src/components/dashboard/AIMessageControl.tsx:41 | complaints + suggestions + tickets = number of items, since every item has exactly one of the three types |
| `Feedback.Stats` | src/components/dashboard/AIMessageControl.tsx:146-151 | the three type counters sum to the number of items, and urgent is at most that number |
| `Feedback.MockFeedbackItems` | src/components/dashboard/AIMessageControl.tsx:63-100 | the fixed feedback list has three items |
| `Feedback.MockStatsAreOnes` | src/components/dashboard/AIMessageControl.tsx:63-100 | on the fixed list each of the four counters is 1 |
| `Store.AdminProfile` | src/lib/store.ts:65-72 | the installed profile carries the provider's id and email and role `admin` |
| `Store.SignInEvents` | src/lib/store.ts:55-80 | a sign-in writes busy first, calls the provider while busy, installs the user only on success, and writes busy last |
| `Store.FixtureDatesOrdered` | src/lib/store.ts:133-136 | the fixture departure dates compare at or before their return dates as strings (also lines 149-152) |
| `Store.MockTravelers` | src/lib/store.ts:125-158 | the fixture travelers have distinct ids, and each departs no later than it returns |
| `Store.MockConversations` | src/lib/store.ts:102-123 | every fixture conversation's `traveler_id` names a fixture traveler |
| `Store.MockMetrics` | src/lib/store.ts:93-100 | the fixture metrics snapshot, every aggregate non-negative |
| `Store.AppStore.constructor` | src/lib/store.ts:36-43 | initial state: no user, not loading, no metrics, empty conversations and travelers, no selected traveler, sidebar open, view `'dashboard'` |
| `Store.AppStore.SetUser` | src/lib/store.ts:45 | writes exactly the argument into `user`, changes no other field, and is one `set` |
| `Store.AppStore.SetMetrics` | src/lib/store.ts:46 | writes exactly the argument into `metrics` and nothing else |
| `Store.AppStore.SetConversations` | src/lib/store.ts:47 | writes exactly the argument into `conversations` and nothing else |
| `Store.AppStore.SetTravelers` | src/lib/store.ts:48 | writes exactly the argument into `travelers` and nothing else |
| `Store.AppStore.SetSelectedTraveler` | src/lib/store.ts:49 | writes exactly the argument into `selectedTraveler` and nothing else |
| `Store.AppStore.SetSidebarOpen` | src/lib/store.ts:50 | writes exactly the argument into `sidebarOpen` and nothing else |
| `Store.AppStore.SetActiveView` | src/lib/store.ts:51 | writes exactly the argument into `activeView` and nothing else |
| `Store.AppStore.SetLoading` | src/lib/store.ts:52 | writes exactly the argument into `loading` and nothing else |
| `Store.AppStore.SignIn` | src/lib/store.ts:54-82 | returns true exactly when the provider resolved with a user, who is then installed as admin; on a returned error or a rejection `user` is unchanged; `loading` is true at the provider call and false on every exit; no other field changes |
| `Store.AppStore.SignOut` | src/lib/store.ts:84-87 | after the provider call clears `user` and nothing else (travelers, metrics and `activeView` stay); if the provider call rejects, nothing changes |
| `Store.AppStore.LoadDashboardData` | src/lib/store.ts:89-170 | ends with `loading` false; metrics, conversations and travelers are replaced by one `set` between the two busy writes; afterwards traveler ids are unique, every conversation names a loaded traveler, and every trip is date-ordered |
| `Login.LoginForm.constructor` | src/components/auth/LoginForm.tsx:10-12 | the form starts with empty email, password and error |
| `Login.LoginForm.SetEmail` | src/components/auth/LoginForm.tsx:49 | typing writes only the email |
| `Login.LoginForm.SetPassword` | src/components/auth/LoginForm.tsx:65 | typing writes only the password |
| `Login.LoginForm.SubmitDisabled` | src/components/auth/LoginForm.tsx:78 | the submit button is disabled exactly while the store is loading |
| `Login.LoginForm.HandleSubmit` | src/components/auth/LoginForm.tsx:15-24 | with an empty field, no `signIn` happens and neither `error` nor the store changes; otherwise `error` is `''` when `signIn` is invoked and ends as the fixed message exactly when `signIn` returned false, the user is installed only on success, the other store fields are kept, and the submit button is enabled again afterwards |
| `Routing.RenderView` | src/App.tsx:21-38 | each of the six tags shows its own view; any other tag falls back to the dashboard; the switch never yields the login screen |
| `Routing.RenderApp` | src/App.tsx:17-19 | the login screen is shown exactly when no user is signed in, whatever `activeView` is; otherwise the routed view |
| `Routing.TagOf` | src/App.tsx:22-34 | every routed view has a tag among the sidebar's menu ids |
| `Routing.TagRoutesBack` | src/App.tsx:22-34 | routing a view's tag gives back that view |
| `Routing.MenuIdsHaveDedicatedCases` | src/components/layout/Sidebar.tsx:53-60 | every menu id the sidebar can set (line 101) reaches its own case of the switch, and distinct menu ids give distinct views |
| `Routing.InitialStateShowsLogin` | src/lib/store.ts:36-43 | with the store's initial values the app shows the login screen, and once a user is set the initial view tag routes to the dashboard |

## Left out

- Supabase client construction and the real network calls (`src/lib/supabase.ts:1-6`): foreign library I/O. The auth provider is a function parameter (for sign-in) and an outcome argument (for sign-out).
- `console.log`/`console.error` (AIMessageControl.tsx:114, store.ts:77, store.ts:166): logging only. The payload logged at AIMessageControl.tsx:114-118 is returned by `SendMessage`.
- The clock: every `new Date().toISOString()` within one action is the single `now` argument. The model does not capture that two readings in one action may differ.
- Floating-point values are stored as Dafny `real` constants and never computed with: sentiment scores, `avg_response_time`, `satisfaction_score` and the other fractional metrics. Sentiment colouring and percentage formatting (AIMessageControl.tsx:583-587, 636) are left out.
- All JSX and rendering: tabs (`activeTab`), quick-action cards, the suggestion buttons (which have no handler), the feedback list, Sidebar/DashboardLayout layout, and the mount effects in Dashboard.tsx:8-10 and App.tsx:10-15 (the latter is empty). These are presentation and effect scheduling.
- Interleaving of overlapping async calls: each action runs as sequential steps, and the code has no ordering logic to model.
- The `catch` branch of `loadDashboardData` (store.ts:165-166): its body builds literals only and cannot throw, so it is not modelled.
- `signIn` takes the provider's email to be present (`data.user.email!`, store.ts:67).
- `e.preventDefault()` and the inputs' `required` attribute in the login form: browser behaviour.
- `Traveler.preferences` is a `map<string, string>`, narrower than the source's `Record<string, any>` (supabase.ts:31). No core operation reads it.
- The `Message` record (supabase.ts:48-57): no core operation uses it.
- Text.Lower: models `toLowerCase` only for ASCII letters. Other characters are kept as they are, not Unicode case-mapped.
- Records.StringLessEq: compares Unicode code points, while JavaScript compares UTF-16 code units. The two agree outside surrogate pairs, which covers the ISO date strings compared here.
- Behaviour one might expect that the code does not have, so the model does not have it either:
  - a recipient check inside the send handler;
  - clearing the selection and draft on sign-out;
  - keeping the previous snapshot when a load fails;
  - last-issued-wins ordering of overlapping loads;
  - pruning selected ids when travelers leave the cache;
  - a transport acknowledgement before the draft is cleared.
