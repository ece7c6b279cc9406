# White-traffic console: client-side state, modelled in Dafny

This project models the browser-side state of an administrative console for a network-traffic
filtering appliance. It covers the five React components that hold decision logic:

- **Rule management** (`Rules`, class `RuleManagement`): the local list of filter rules, the
  "new rule" draft, the single edit slot `editingRule`, the add-form flag, `loading` and `error`.
  It has the handlers that fetch, create, update, delete and test rules, and the pure list
  transforms behind them: append, replace-by-id and filter-by-id.
- **Alert system** (`Alerts`, class `AlertSystem`): the alert list for the current `showResolved`
  filter, and resolve and dismiss. Both change the list only after the server accepts. It also
  decides which class a card gets and whether the card offers actions.
- **Traffic analysis** (`Traffic`, class `TrafficAnalysis`): one traffic snapshot per selected time
  range, and the trend, source and summary chart data projected from it.
- **Login form** (`LoginForm`, class `Login`): field updates, the validator with its fixed order of
  checks, the choice between the login and register endpoints, and the rule that picks the message
  shown.
- **Application shell** (`AppShell`, class `App`): the session flag and user, the browser's
  key/value storage that holds the token, and the route table that guards the pages.

Every server call is a parameter of type `Reply<T> = Ok(payload) | Err(message)`. Each handler
returns the request it issued as a structured value: which operation, on which id, with which body.
`JsArray` models the JavaScript `map` and `filter` that the views apply to their lists, with their
contracts proved once.

Behaviour of the code that the model keeps as it is:

- Resolve and dismiss are not optimistic. The list changes only after a successful reply, and a
  failure leaves the list untouched. No rollback is needed.
- Deleting the rule that is being edited does not close the edit.
- A fetch for a range that has since been deselected is not discarded. The code has no request
  token, so the model does not add one.
- Creating a rule does no client-side check of name or conditions. The draft is posted as it is.
- The header button only toggles the add form; it keeps the draft. The form's own cancel button
  resets the draft.
- While an edit is open, every input change goes to the edit draft, including typing in the add
  form.
- Saving with no edit open throws when it reads `editingRule.id`. That happens inside the `try`, so
  only the update error is set.

## Model

| member | source | states |
|---|---|---|
| `JsArray.Map` | scr/components/RuleManagement.js:94-96 | `xs.map(f)` has one element per input, element i being `f(xs[i])` |
| `JsArray.Filter` | scr/components/RuleManagement.js:113 | `xs.filter(keep)` holds exactly the input's elements that pass `keep`, and is no longer than the input |
| `JsArray.FilterConcat` | scr/components/AlertSystem.js:70 | filtering distributes over concatenation, so survivors keep their relative order |
| `JsArray.FilterKeepsDistinct` | scr/components/RuleManagement.js:113 | filtering never makes two keys collide |
| `Rules.ApplyInput` | scr/components/RuleManagement.js:41-54 | a change sets only the named field: a checkbox stores `checked`, any other input stores `value`; all other fields are unchanged |
| `Rules.ApplyInputOverwrites` | scr/components/RuleManagement.js:41-54 | a later change to the same field overwrites an earlier one |
| `Rules.ApplyInputCommutes` | scr/components/RuleManagement.js:41-54 | changes to different fields commute |
| `Rules.ReplaceById` | scr/components/RuleManagement.js:94-96 | length kept; every entry with the id becomes the server's rule; every other entry is unchanged, in place |
| `Rules.RemoveById` | scr/components/RuleManagement.js:113 | the result holds exactly the rules whose id differs, and is no longer than the input |
| `Rules.CreateIds` | scr/components/RuleManagement.js:68 | appending adds exactly the server's id; a fresh id keeps ids unique |
| `Rules.UpdateIds` | scr/components/RuleManagement.js:94-96 | replacing swaps the edited id for the reply's id when listed, else changes no id |
| `Rules.UpdateKeepsUnique` | scr/components/RuleManagement.js:94-96 | a reply that keeps the edited id keeps ids unique |
| `Rules.UpdateAbsent` | scr/components/RuleManagement.js:94-96 | updating an id that is not listed leaves the list unchanged |
| `Rules.UpdateIdempotent` | scr/components/RuleManagement.js:94-96 | applying the same saved rule twice equals applying it once |
| `Rules.DeleteIds` | scr/components/RuleManagement.js:113 | deleting removes exactly that id from the id set and keeps ids unique |
| `Rules.DeleteKeepsOrder` | scr/components/RuleManagement.js:113 | deleting distributes over concatenation: the rest keep their order |
| `Rules.DeleteAbsent` | scr/components/RuleManagement.js:113 | deleting an absent id leaves the list unchanged |
| `Rules.DeleteLength` | scr/components/RuleManagement.js:113 | the list shrinks by exactly the number of rules carrying the id |
| `Rules.RuleManagement.constructor` | scr/components/RuleManagement.js:6-16 | empty list, loading, no error, empty draft with `active` true, no edit, form closed |
| `Rules.RuleManagement.FetchRules` | scr/components/RuleManagement.js:19-35 | success replaces `rules` wholesale and clears `error`; failure keeps `rules` and sets the fetch message; `loading` ends false; drafts untouched |
| `Rules.RuleManagement.HandleInputChange` | scr/components/RuleManagement.js:41-54 | the edit draft takes the change when an edit is open, otherwise the new-rule draft; the other draft and the list are untouched |
| `Rules.RuleManagement.HandleAddRule` | scr/components/RuleManagement.js:56-80 | posts the draft unchecked; success appends exactly the server's rule, resets the draft, closes the form and keeps `error`; failure changes only `error` |
| `Rules.RuleManagement.HandleUpdateRule` | scr/components/RuleManagement.js:82-102 | puts the draft to its id; success replaces by id and closes the edit, keeping `error`; failure keeps list and draft; with no edit open only `error` is set |
| `Rules.RuleManagement.HandleDeleteRule` | scr/components/RuleManagement.js:104-119 | unconfirmed: no request, no change; confirmed success removes the id, keeps `error`; failure sets only `error`; the edit slot is never touched |
| `Rules.RuleManagement.HandleTestRule` | scr/components/RuleManagement.js:121-138 | shows the server's message on success; never changes the list or either draft; failure sets only `error` |
| `Rules.RuleManagement.BeginEdit` | scr/components/RuleManagement.js:306 | the edit slot holds a copy of the chosen rule, replacing any open edit |
| `Rules.RuleManagement.CancelEdit` | scr/components/RuleManagement.js:281 | the edit slot is emptied and nothing else changes |
| `Rules.RuleManagement.ToggleAddForm` | scr/components/RuleManagement.js:148 | the add form flag flips; the draft is kept |
| `Rules.RuleManagement.CancelAddForm` | scr/components/RuleManagement.js:206-214 | the draft is reset and the form closed |
| `Alerts.MarkResolved` | scr/components/AlertSystem.js:49-51 | length kept; alert i is resolved iff it was or has the id, and differs from the input in no other field |
| `Alerts.Dismiss` | scr/components/AlertSystem.js:70 | the result holds exactly the alerts whose id differs |
| `Alerts.CardClass` | scr/components/AlertSystem.js:105-109 | the class is one of `resolved`, `high`, `medium`, `low`, and is `resolved` exactly for a resolved alert; `CardClassification` adds that an unresolved card's class follows its severity, with `low` for any unknown text |
| `Alerts.ActionsOffered` | scr/components/AlertSystem.js:139 | the resolve and dismiss buttons are shown exactly when the card is not drawn as resolved; `ResolveWithdrawsActions` shows a successful resolve withdraws them from exactly the cards with that id |
| `Alerts.ResolveIdempotent` | scr/components/AlertSystem.js:49-51 | resolving twice equals resolving once |
| `Alerts.ResolveAbsent` | scr/components/AlertSystem.js:49-51 | resolving an absent id leaves the list unchanged |
| `Alerts.DismissKeepsOrder` | scr/components/AlertSystem.js:70 | dismissing distributes over concatenation: the rest keep their order |
| `Alerts.DismissAbsent` | scr/components/AlertSystem.js:70 | dismissing an absent id leaves the list unchanged |
| `Alerts.DismissIdempotent` | scr/components/AlertSystem.js:70 | dismissing twice equals dismissing once |
| `Alerts.CardClassification` | scr/components/AlertSystem.js:105-109 | an unresolved card's class follows its severity alone: `high` and `medium` name themselves, any other text gives `low` |
| `Alerts.ResolveWithdrawsActions` | scr/components/AlertSystem.js:139-154 | after resolve, cards with the id are drawn resolved and offer no action; other cards are drawn as before |
| `Alerts.AlertSystem.constructor` | scr/components/AlertSystem.js:6-9 | empty list, loading, no error, `showResolved` false |
| `Alerts.AlertSystem.FetchAlerts` | scr/components/AlertSystem.js:11-31 | the query carries `showResolved`; success replaces the list and clears `error`; failure keeps the list and sets the fetch message |
| `Alerts.AlertSystem.ToggleShowResolved` | scr/components/AlertSystem.js:33-86 | negates `showResolved` and issues exactly one fetch whose query carries the new value |
| `Alerts.AlertSystem.HandleResolveAlert` | scr/components/AlertSystem.js:37-56 | success marks the id resolved and keeps `error`; failure leaves the list and sets only `error` |
| `Alerts.AlertSystem.HandleDismissAlert` | scr/components/AlertSystem.js:58-75 | success filters the id out and keeps `error`; failure leaves the list and sets only `error` |
| `Traffic.RangeText` | scr/components/TrafficAnalysis.js:116-123 | every range is shown as one of the four option values; `RangeRoundTrip` proves parsing its text gives the range back |
| `Traffic.ParseRange` | scr/components/TrafficAnalysis.js:116-123 | a selector value gives a range exactly when it is one of `1h`, `24h`, `7d`, `30d`, and that range's text is the value |
| `Traffic.TrendChart` | scr/components/TrafficAnalysis.js:50-82 | one label per trend point and four datasets, each with one value per label; `TrendChartSeries` pins point i of each series to `trends[i]` |
| `Traffic.SourceChart` | scr/components/TrafficAnalysis.js:84-95 | one label per source and one dataset with one value per label; `SourceChartSlices` pins them to `sources[i]` |
| `Traffic.SummaryChart` | scr/components/TrafficAnalysis.js:97-105 | three labels and one three-value dataset; `SummaryChartExcludesTotal` shows it is white, filtered, malicious and ignores `total` |
| `Traffic.RangeRoundTrip` | scr/components/TrafficAnalysis.js:120-123 | one hour is `1h`, one day `24h`, seven days `7d`, thirty days `30d`; parsing a range's text gives the range back |
| `Traffic.TrendChartSeries` | scr/components/TrafficAnalysis.js:50-82 | point i of the labels and of the four series is `trends[i]`'s time, total, white, filtered and malicious |
| `Traffic.SourceChartSlices` | scr/components/TrafficAnalysis.js:84-95 | label i and value i are `sources[i]`'s `source` and `count` |
| `Traffic.SummaryChartExcludesTotal` | scr/components/TrafficAnalysis.js:97-105 | data is `[white, filtered, malicious]` in that order and does not depend on `total` |
| `Traffic.EmptySnapshotCharts` | scr/components/TrafficAnalysis.js:11-18 | the initial snapshot gives empty series and a zero summary |
| `Traffic.TrafficAnalysis.constructor` | scr/components/TrafficAnalysis.js:11-21 | zero counters, empty trends and sources, loading, no error, range `24h` |
| `Traffic.TrafficAnalysis.FetchTrafficData` | scr/components/TrafficAnalysis.js:23-43 | asks for the current range without changing it; success replaces the snapshot and clears `error`; failure keeps it and sets `error` |
| `Traffic.TrafficAnalysis.SetTimeRange` | scr/components/TrafficAnalysis.js:45-118 | stores the range; a new range fetches for that range, the same range issues nothing |
| `LoginForm.WithField` | scr/components/Login.js:18-20 | only the named field takes the value |
| `LoginForm.Validate` | scr/components/Login.js:22-34 | passes exactly when both fields are filled and, when registering, the confirmation matches; fails with the empty-fields message exactly when a field is empty, and with the mismatch message exactly when both are filled, the form is registering and the confirmation differs |
| `LoginForm.Endpoint` | scr/components/Login.js:46-48 | the register endpoint exactly when registering, else the login endpoint |
| `LoginForm.SubmitRequest` | scr/components/Login.js:46-53 | posts to the register endpoint exactly when registering, with the form's username and password; `SubmitRequestShape` shows the confirmation never reaches the request |
| `LoginForm.Result` | scr/components/Login.js:55-64 | signs in exactly when the reply arrived and says `success`; a thrown request always ends with a non-empty message; `ResultCases` says which message |
| `LoginForm.ValidateOrder` | scr/components/Login.js:22-34 | an empty field gets the same verdict in both modes; a form that fails only on the confirmation passes in login mode; login mode ignores the confirmation |
| `LoginForm.SubmitRequestShape` | scr/components/Login.js:46-53 | `/api/register` when registering, else `/api/login`; the body is username and password only |
| `LoginForm.ResultCases` | scr/components/Login.js:55-62 | sign-in hands over the reply's user; `success=false` shows the server message; a thrown request shows its non-empty message, else the fallback |
| `LoginForm.Login.constructor` | scr/components/Login.js:6-13 | empty form, login mode, no error, not loading |
| `LoginForm.Login.HandleChange` | scr/components/Login.js:18-20 | the form changes by exactly the named field |
| `LoginForm.Login.ValidateForm` | scr/components/Login.js:22-34 | returns the validator's verdict; on failure sets its message, on success leaves `error` as it was |
| `LoginForm.Login.HandleSubmit` | scr/components/Login.js:36-66 | clears `error`, issues no request for an invalid form, otherwise posts and ends with `loading` false and the user signed in or the selected message shown |
| `LoginForm.Login.ToggleMode` | scr/components/Login.js:121 | flips between login and registration |
| `AppShell.SignIn` | scr/App.js:32-37 | storage then holds the user's token and the encoded user, and every other key is present and valued as before |
| `AppShell.SignOut` | scr/App.js:40-45 | storage then holds neither `token` nor `user`, and every other key is present and valued as before |
| `AppShell.Restore` | scr/App.js:19-26 | a truthy stored token gives a signed-in session whose user is the decoded `user` entry, or no user when there is no entry; without a token the session is left as it was |
| `AppShell.ProtectedPage` | scr/App.js:56-62 | exactly `/`, `/rules`, `/analysis`, `/alerts`, `/settings` are guarded pages, none of them the login page |
| `AppShell.ProtectedPageTable` | scr/App.js:57-61 | `/` shows the dashboard, `/rules` the rules, `/analysis` the analysis, `/alerts` the alerts and `/settings` the settings page; no two guarded paths share a page |
| `AppShell.Route` | scr/App.js:56-62 | a rendered page is the login page exactly when signed out; every redirect goes to `/` when signed in and to `/login` otherwise |
| `AppShell.LogoutUndoesLogin` | scr/App.js:32-45 | logout after login equals logout alone and leaves no token |
| `AppShell.ReloadAfterLogin` | scr/App.js:19-37 | a stored non-empty token restores the signed-in user on the next check |
| `AppShell.ReloadAfterLogout` | scr/App.js:19-45 | after logout the check restores nothing |
| `AppShell.RouteGuard` | scr/App.js:56-62 | protected paths render iff signed in, else go to `/login`; `/login` sends a signed-in user to `/`; unknown paths go to `/` or `/login` |
| `AppShell.RouteSettles` | scr/App.js:56-62 | following one redirect always lands on a rendered page |
| `AppShell.App.constructor` | scr/App.js:13-15 | signed out, no user, loading |
| `AppShell.App.CheckAuth` | scr/App.js:19-26 | signs in with the stored user iff a non-empty token is stored; `loading` ends false |
| `AppShell.App.HandleLogin` | scr/App.js:32-37 | signed in with `user = userData`; storage gets the token and the encoded user |
| `AppShell.App.HandleLogout` | scr/App.js:40-45 | signed out with no user; storage loses exactly `token` and `user` |

## Left out

- HTTP transport: URLs built from `process.env`, headers, status codes. Each call is a `Reply` parameter, and each handler returns the request it issued as a structured value.
- React effect scheduling and overlapping in-flight fetches. Each handler runs to completion with its reply, so interleavings are not modelled.
- `window.confirm` is a boolean parameter. The `alert` popup of a rule test is the `shown` result. `console.error` has no effect.
- JSX rendering, styling, icons, chart.js registration, colour arrays, the severity labels, `toLocaleString` and `Date` formatting, and `JSON.stringify` of alert details. Alert `details` and `timestamp` are uninterpreted strings.
- `JSON.stringify` and `JSON.parse` of the stored user are the `encode` and `decode` parameters. A stored user that is not valid JSON makes `JSON.parse` throw; this is not modelled because `decode` is total.
- `navigate('/')` after a successful login, and the `onLogin` callback link between the login form and the app. The submit returns the user it would hand over.
- The router's path normalisation (letter case, trailing slash). The route table takes paths as given.
- The browser's own check of the `required` login inputs inside the `<form onSubmit>`. A browser normally refuses to submit with an empty field, so the `EmptyFields` outcome of `HandleSubmit` is reached only when that check is bypassed. The model keeps the code's own check.
- The Dashboard, Settings and Header components are not part of this model.
- Rules.RuleManagement.HandleInputChange: events name one of the four fields the form renders. The code would add an arbitrary key for any other input name.
- Alerts.AlertSystem.ToggleShowResolved: the refetch is modelled as happening inside the toggle. In the code it is a separate effect run after the re-render.
