# Health tracker client: state container and page logic

A Dafny model of the logic inside a small React health-tracking client. Five parts are covered:

- **`AppProvider`**, the application state container. It holds the signed-in user, the `isUserFetched` and `onboardingCompleted` flags, the session token kept in `localStorage`, and the food and activity log collections. It offers `signup`, `login`, `fetchUser`, `fetchFoodLogs`, `fetchActivityLogs`, `logout` and the mount-time initialisation.
- **The activity log page**: today's list, the minutes total, submit with validation, quick-add presets and the duration-driven calorie estimate.
- **The food log page**: today's list, the calorie total, submit, meal-type quick-add and Cancel.
- **The top-level render gate** and its route table.
- **The login form controller.**

Gateway calls become arguments. A `Reply<T>` is either `Rejected` (the awaiting function throws at that point) or `Resolved(data)`. The clock becomes the `today` string parameter. The token slot is an `Option<string>` field. Navigation is recorded in a `Navigator` as the list of paths navigated to.

Modules:

- `Wrappers`: `Option`.
- `Types`: the records and `Reply`.
- `Dates`: `split('T')[0]` and the "created today" test.
- `Daily`: the today filter and the `reduce` total, shared by both log pages.
- `AppContext`: a pure `State`/`Event`/`Step`/`Run` description of the container, plus the class `AppState`. Each method of `AppState` is proved to move its fields from `old(Snapshot())` to `Step(old(Snapshot()), e)`.
- `ActivityLog`, `FoodLog`, `App`, `Login`: the pages and the gate. Page classes share the container object `ctx` and write its collections, as the pages do through the context's setters.

Behaviour worth knowing:

- `onboardingCompleted` is not recomputed from the profile. `signup`, `login` and `fetchUser` only ever set it to true, and only `logout` clears it.
- `signup` stores the user exactly as returned. It does not merge the JWT into `user.token`; only `login` does.
- With a stored token, `isUserFetched` is set only when `user.me` resolves. A rejected `user.me` leaves it false, and the gate shows the spinner for good (`App.ResumeSession`). Without a token, the mount effect sets it at once.
- The food page's submit does not append the created record (see Findings).

## Model

| member | source | states |
|---|---|---|
| `Dates.DatePart` | client/src/pages/ActivityLog.tsx:27 | `split('T')[0]` returns a prefix of the string. The prefix contains no 'T' and ends at the end of the string or at its first 'T'. |
| `Dates.DatePartUnique` | client/src/pages/Foodlog.tsx:28 | Any 'T'-free prefix that ends at the end of the string or at a 'T' is the date part. DatePart's contract therefore determines it. |
| `Dates.DatePartOfDateTime` | client/src/pages/ActivityLog.tsx:24-27 | Splitting an RFC 3339 `date-time` (date, 'T', time) at 'T' gives back its date. |
| `Daily.TodayOnly` | client/src/pages/ActivityLog.tsx:26-28 | The filter keeps only entries of the input created on `today`. It keeps every such entry, and the result is no longer than the input. |
| `Daily.TodayOnlyAppend` | client/src/pages/Foodlog.tsx:27-30 | Filtering commutes with concatenation, so kept entries stay in their original relative order. |
| `Daily.TodayOnlyCount` | client/src/pages/Foodlog.tsx:27-30 | Every entry created today is kept as many times as it occurs. Every other entry, including one with no `createdAt`, is dropped. |
| `Daily.TodayOnlyIdempotent` | client/src/pages/ActivityLog.tsx:26-28 | Filtering a filtered list changes nothing. |
| `Daily.SumOfAppend` | client/src/pages/ActivityLog.tsx:75 | The `reduce` total of a concatenation is the sum of the two totals. |
| `Daily.TodayTotalAfterAppend` | client/src/pages/ActivityLog.tsx:45 | Appending one entry raises today's total by its amount if it was created today, and otherwise leaves the total unchanged. |
| `AppContext.TokenOrEmpty` | client/src/contexts/AppContext.tsx:66 | The token read on mount (missing counts as empty) is non-empty exactly when a non-empty token is stored, and then it is that token. |
| `AppContext.StartupFetches` | client/src/contexts/AppContext.tsx:65-76 | On mount, an empty or missing token starts no fetch. A non-empty token starts the user, food and activity fetches. |
| `AppContext.Step` | client/src/contexts/AppContext.tsx:18-63 | For each operation: onboarding is never cleared except by logout, and becomes true only through a complete profile (truthy age, weight and goal). `isUserFetched` never reverts. Only sign-up, login and logout write the token. Only a collection's own listing replaces it. |
| `AppContext.FetchedNeverReverts` | client/src/contexts/AppContext.tsx:13-76 | Once `isUserFetched` is true at some point of a run, it is true at the end of the run. |
| `AppContext.OnboardingAfterRun` | client/src/contexts/AppContext.tsx:14-63 | After any run, onboarding is complete exactly when one of two things holds: an event with a complete profile came after the last logout, or it was complete at the start and no logout happened. |
| `AppContext.TokenAfterRun` | client/src/contexts/AppContext.tsx:24-34 | After any run, the stored token is the one written by the last sign-up, login or logout, or the initial token if none wrote it. |
| `AppContext.Navigator.Navigate` | client/src/contexts/AppContext.tsx:62 | Navigation appends the target path to the recorded history. |
| `AppContext.AppState.constructor` | client/src/contexts/AppContext.tsx:12-16 | The container starts with no user, both flags false, empty collections and the stored token. |
| `AppContext.AppState.Mount` | client/src/contexts/AppContext.tsx:65-76 | Returns the fetches started. With none started, `isUserFetched` becomes true; with a token, nothing changes yet. |
| `AppContext.AppState.Signup` | client/src/contexts/AppContext.tsx:18-25 | A resolved sign-up stores the returned user unchanged and stores the JWT. Onboarding becomes `old or HasProfile(user)`. A rejection changes nothing. |
| `AppContext.AppState.Login` | client/src/contexts/AppContext.tsx:27-35 | A resolved login stores the user with `token` replaced by the JWT, and the stored token equals that JWT. Onboarding becomes `old or HasProfile(user)`. A rejection changes nothing. |
| `AppContext.AppState.FetchUser` | client/src/contexts/AppContext.tsx:37-46 | A resolved reply sets `isUserFetched` with or without a user. `user` changes only when the reply holds one. |
| `AppContext.AppState.FetchFoodLogs` | client/src/contexts/AppContext.tsx:48-51 | A resolved listing replaces the whole food collection. |
| `AppContext.AppState.FetchActivityLogs` | client/src/contexts/AppContext.tsx:53-56 | A resolved listing replaces the whole activity collection. |
| `AppContext.AppState.Logout` | client/src/contexts/AppContext.tsx:58-63 | Removes the token, clears the user and onboarding, and navigates to "/". Both collections and `isUserFetched` are kept. |
| `ActivityLog.TodayActivities` | client/src/pages/ActivityLog.tsx:24-28 | Today's activities are entries of the collection created today, and every such entry is listed. |
| `ActivityLog.TotalMinutesAppend` | client/src/pages/ActivityLog.tsx:75 | The minutes total is 0 for no activities and is additive over concatenation. |
| `ActivityLog.SubmitAddsTodaysMinutes` | client/src/pages/ActivityLog.tsx:44-47 | Appending a record adds its duration to today's minutes exactly when it was created today. |
| `ActivityLog.FindQuick` | client/src/pages/ActivityLog.tsx:61 | `find` returns nothing exactly when no preset has the name. Otherwise it returns the first preset with that name. |
| `ActivityLog.QuickAddForm` | client/src/pages/ActivityLog.tsx:50-57 | Quick-add fills in the preset's name and 30 minutes, with calories equal to duration times the preset's rate. |
| `ActivityLog.DurationChanged` | client/src/pages/ActivityLog.tsx:59-72 | The duration is always updated and the name kept. Calories become duration times the rate of the first preset with the form's name, or stay unchanged when no preset matches. |
| `ActivityLog.QuickAddThenDurationChange` | client/src/pages/ActivityLog.tsx:50-72 | After a quick-add, any duration change gives calories equal to duration times that preset's rate. Changing back to 30 restores the quick-add form. |
| `ActivityLog.ActivityLogPage.constructor` | client/src/pages/ActivityLog.tsx:15-35 | The page mounts with the blank form hidden, no error, and today's list of the collection. |
| `ActivityLog.ActivityLogPage.LoadActivities` | client/src/pages/ActivityLog.tsx:26-35 | The effect makes the list today's activities of the current collection. |
| `ActivityLog.ActivityLogPage.HandleSubmit` | client/src/pages/ActivityLog.tsx:37-48 | The error is cleared first. If a field is missing, the error is "Please fill in all fields", no call is made and nothing else changes. A resolved call appends the record after all prior entries, resets the form to ('', 0, 0), hides it and resyncs the list. |
| `ActivityLog.ActivityLogPage.HandleQuickAdd` | client/src/pages/ActivityLog.tsx:50-57 | The form becomes the quick-add form of the preset, and it is shown. |
| `ActivityLog.ActivityLogPage.HandleDurationChange` | client/src/pages/ActivityLog.tsx:59-72 | The form becomes `DurationChanged` of the page's presets, the old form and the new duration. |
| `ActivityLog.ActivityLogPage.Cancel` | client/src/pages/ActivityLog.tsx:129 | Cancel hides the form and keeps its fields. |
| `FoodLog.TodayEntries` | client/src/pages/Foodlog.tsx:25-30 | Today's entries are entries of the collection created today, and every such entry is listed. |
| `FoodLog.TotalCaloriesAppend` | client/src/pages/Foodlog.tsx:38 | The calorie total is 0 for no entries and is additive over concatenation. |
| `FoodLog.AppendAddsTodaysCalories` | client/src/pages/Foodlog.tsx:38 | Appending an entry adds its calories to today's total exactly when it was created today. |
| `FoodLog.FoodLogPage.constructor` | client/src/pages/Foodlog.tsx:15-21 | The page mounts with the blank form ('', 0, '') hidden, and today's list of the collection. |
| `FoodLog.FoodLogPage.LoadEntries` | client/src/pages/Foodlog.tsx:47-49 | The effect on `allFoodLogs` makes the list today's entries of the current collection. |
| `FoodLog.FoodLogPage.HandleSubmit` | client/src/pages/Foodlog.tsx:32-36 | The form is always sent, with no validation. The collection keeps its contents, and the form and its visibility are unchanged. A resolved call resyncs the list. |
| `FoodLog.FoodLogPage.HandleSubmitAppending` | client/src/pages/Foodlog.tsx:32-36 | Corrected submit: a resolved call appends the created record and resyncs the list. |
| `FoodLog.FoodLogPage.HandleQuickAdd` | client/src/pages/Foodlog.tsx:40-45 | Only `mealType` changes; name and calories are kept, and the form is shown. |
| `FoodLog.FoodLogPage.Cancel` | client/src/pages/Foodlog.tsx:113-117 | Cancel hides the form and resets it to the initial ('', 0, ''). |
| `FoodLog.OatmealAsWritten` | client/src/pages/Foodlog.tsx:32-38 | With the submit as written, a 300 kcal entry created today leaves today's total unchanged. |
| `FoodLog.OatmealAppending` | client/src/pages/Foodlog.tsx:32-38 | With the corrected submit, the same entry raises today's total by 300. |
| `App.Lookup` | client/src/App.tsx:23-28 | Route lookup finds nothing exactly when no route has the segment. Otherwise it returns the page of a route with that segment. |
| `App.RouteTable` | client/src/App.tsx:23-28 | Under the layout, the index is the dashboard, and "food", "activity" and "profile" are their pages. No other segment matches. |
| `App.Routed` | client/src/App.tsx:22-29 | A path segment with a route shows the layout with that route's page. A segment no route matches renders nothing, since the table has no catch-all route. |
| `App.Render` | client/src/App.tsx:14-30 | With no user, the gate shows login when the user is fetched and the spinner otherwise. With a user, it shows what the routes render for the path, regardless of the flags. |
| `App.ColdStart` | client/src/App.tsx:16-17 | After mounting with an empty or missing token, login is shown at once. With a token, the spinner is shown while the fetches run. |
| `App.ResumeSession` | client/src/App.tsx:14-17 | A resolved `user.me` with a user shows what the routes render for the path, and one without a user shows login. A rejected one leaves the spinner. |
| `App.SignInThenOut` | client/src/App.tsx:14-30 | A login shows what the routes render for the path. A following logout shows login again and navigates to "/" once. |
| `Login.Toggled` | client/src/pages/Login.tsx:87-91 | The toggle goes from "login" to "signup", and from any other mode to "login". |
| `Login.ToggleTwice` | client/src/pages/Login.tsx:9 | Toggling twice restores exactly "login" and "signup". The initial "sign up" comes back as "signup". |
| `Login.Dispatch` | client/src/pages/Login.tsx:24-28 | Mode "login" calls `login` with email and password only. Any other mode calls `signup` with username, email and password. |
| `Login.UsernameSentIffShown` | client/src/pages/Login.tsx:50 | The username is sent exactly when its input is on the form. |
| `Login.Outcome` | client/src/pages/Login.tsx:24-28 | A login call completes as a login event and any other call as a sign-up event, with the same reply. |
| `Login.LoginPage.constructor` | client/src/pages/Login.tsx:9-14 | The page starts in mode "sign up" with empty fields and not submitting. |
| `Login.LoginPage.ToggleMode` | client/src/pages/Login.tsx:87-91 | The mode becomes `Toggled` of the old mode. |
| `Login.LoginPage.StartSubmit` | client/src/pages/Login.tsx:20-28 | Submitting sets `isSubmitting` (which disables the button) and starts the call the mode selects. |
| `Login.LoginPage.FinishSubmit` | client/src/pages/Login.tsx:24-33 | The context operation completes with the reply. A rejection is absorbed and changes nothing. `isSubmitting` ends false either way. |
| `Login.LoginPage.RedirectIfSignedIn` | client/src/pages/Login.tsx:36-40 | The effect navigates to "/" exactly when a user is present, through the same router the container's logout uses. |

## Findings

| source | as written | input that shows it | evidently intended | confidence | as-written member | corrected member |
|---|---|---|---|---|---|---|
| client/src/pages/Foodlog.tsx:34-35 | `setAllFoodLogs(prev => [...prev])` copies the collection and drops the `data` returned by `foodLogs.create` | submit `{ name: "Oatmeal", calories: 300, mealType: "Breakfast" }`; the gateway returns it with `createdAt` today; today's total is unchanged | `[...prev, data]`, as the activity page does, so the entry is listed and the total rises by 300 | high (not executed) | `FoodLog.FoodLogPage.HandleSubmit`, `FoodLog.OatmealAsWritten` | `FoodLog.FoodLogPage.HandleSubmitAppending`, `FoodLog.AppendAddsTodaysCalories`, `FoodLog.OatmealAppending` |

## Left out

- Presentation: JSX markup, styling, icons, the toaster, and the Card, Button, Input and Select components.
- The gateway's internals. Each call is a `Reply` argument, and its request is recorded as the method's result.
- The interleaving of the three startup fetches, and late replies that arrive after a logout. Each completion is a separate atomic method, applied in whatever order the caller chooses.
- Durable storage. The token slot is one `Option<string>` field.
- The router itself. Navigation is a recorded path. The route table is matched by exact path segment, so React Router's case-insensitive and trailing-slash matching is not modelled.
- The clock. `new Date().toISOString()` becomes the `today` parameter.
- `Number(...)` coercion and `NaN`. All numeric fields are integers.
- The `onChange` handlers that copy one input into one form field, the show-password switch, and the "Add Custom" buttons. Each is a single field assignment.
- The food page's hidden file input and "AI Food Snap" button (no handler exists), its `loading` flag (never set), and the activity page's empty card for a non-empty list.
- The raw setters the context also exports (`setUser`, `setOnboardingCompleted`). Pages outside this model use them. The one-way onboarding and fetched-flag properties cover the context's own operations only.
- The login redirect effect is modelled as its own method. Inside `App`, the login page is replaced by the layout in the same render that sets the user.
- `client/src/main.tsx` and `client/src/components/Loading.tsx`: provider wiring and a spinner.
