# fz-mobile client core, modelled in Dafny

fz-mobile is a React Native front end for a forex trading service. It computes no market
analysis of its own; what logic it has is modelled here:

- **Pair-analysis screen** (`PairAnalysis`, `pair_analysis.dfy`): the structure counts the
  screen derives from one analysis payload. These are Fair Value Gaps (FVGs) on the 4H,
  daily and 30m timeframes, and buy-side / sell-side liquidity zones. The module also holds
  the status colour and icon maps of the analysis steps, and the `loading` / `analysis`
  slots of `loadAnalysis`.
- **Root layout guard** (`RootLayout`, `root_layout.dfy`): the redirect to the login screen
  or to the tabs, decided from the bypass switch, `initialized`, the user and the first
  route segment. It also covers the rule for rendering nothing.
- **Signal list hook** (`UseSignals`, `use_signals.dfy`): the `signals` / `loading` / `error`
  slots, the query description (ordering and optional status filter), refetch on realtime
  change, and refetch on a new filter.
- **User settings hook** (`UseUserSettings`, `use_user_settings.dfy`): the `settings` /
  `loading` slots, the fetch that treats the "no row" code `PGRST116` as an empty result,
  and the upsert with its merged payload.
- **Analysis trigger hook** (`UseAnalysis`, `use_analysis.dfy`): the `analyzing` / `error`
  slots, the request defaults, and how the service's `{success, message}` envelope settles
  the call.
- **Session store** (`AuthStore`, `auth_store.dfy`): `session` / `user` / `loading` /
  `initialized` under `initialize`, `signIn`, `signUp`, `signOut` and the auth-change listener.

`DatabaseTypes` holds the closed unions of the generated database types: signal `side` and
`status`, `gap_type` and `zone_type`. `Outcomes` holds optional values, thrown values and
JavaScript's `||` defaults.

Pure code is written as functions and lemmas. The hooks and the store are classes whose
fields are their state slots. Each asynchronous operation is split at its `await` into a
`Begin…` method, for the assignments made before the call, and a `Complete…` method. The
`Complete…` method takes the remote outcome as a parameter: the rows, the response with its
error, or the value thrown. This makes "`loading` is set at the start and cleared on every
path" a pair of postconditions. A thrown value is either an `Error` instance, whose message
becomes the error text, or anything else, which becomes "An error occurred". The caller
decides which one the database client's error objects are.

Behaviour worth knowing that the model makes explicit:
- With no `pair` parameter, `loadAnalysis` returns before touching `loading`. Its initial
  `true` therefore stays, and the screen keeps its spinner (`BeginLoad`).
- `initialize` ignores the `error` that `getSession` reports. Such a reply yields a `null`
  session and user, just like "no session" (`SessionOutcome`).
- `Store.Consistent()` means "the user is the session's user". The constructor,
  `initialize`, the auth-change listener and a successful `signOut` establish it. A failed
  action preserves it. Sign-in and sign-up establish it exactly when the provider's reply
  gives the user of the returned session. A sign-up awaiting email confirmation returns a
  user without a session, so it leaves the store inconsistent (`CompleteSignUp`).
- In `updateSettings`, a `user_id` among the caller's updates overrides the signed-in
  user's id. `updated_at` is always the fresh stamp (`UpsertPayload`).
- An explicitly passed empty timeframe list is sent as is, because an array is truthy.
  Only an omitted list gets `["30m", "4H", "1D"]` (`PairRequest`).

## Model

| member | source | states |
|---|---|---|
| `PairAnalysis.Filter` | app/pair-analysis.tsx:129-133 | keeps exactly the accepted elements with their multiplicities, and is never longer than its input |
| `PairAnalysis.Gaps` | app/pair-analysis.tsx:130-132 | one timeframe's gaps: the payload's list, or empty when `detected_fvgs` or that list is absent |
| `PairAnalysis.AllGaps` | app/pair-analysis.tsx:129-132 | the spread list holds every gap of every timeframe and nothing else, its length the sum of theirs |
| `PairAnalysis.TotalFvgs` | app/pair-analysis.tsx:125-127 | the total equals the length of the spread 4h+daily+30m list; no `detected_fvgs` gives 0 |
| `PairAnalysis.BullishFvgs` | app/pair-analysis.tsx:129-133 | the bullish count never exceeds the total |
| `PairAnalysis.BullishByTimeframe` | app/pair-analysis.tsx:125-133 | the headline bullish count and total are the sums of the three timeframe cards' figures |
| `PairAnalysis.TimeframeCount` | app/pair-analysis.tsx:254 | a card's count never exceeds the headline total; the 0 it gives without `detected_fvgs` is the model's value for a case the screen does not render (line 236) |
| `PairAnalysis.TimeframeBullish` | app/pair-analysis.tsx:259 | a card's bullish figure never exceeds its count |
| `PairAnalysis.TimeframeBearish` | app/pair-analysis.tsx:265 | a card's bearish figure never exceeds its count |
| `PairAnalysis.TimeframeSplit` | app/pair-analysis.tsx:254-305 | on each timeframe card, bullish plus bearish equals the card's count, since `gap_type` is closed |
| `PairAnalysis.NonBullishAreBearish` | app/pair-analysis.tsx:353 | `totalFVGs - bullishFVGs` is exactly the number of bearish gaps |
| `PairAnalysis.TotalZones` | app/pair-analysis.tsx:319 | the zone list's length; the 0 for an absent list is the model's value for a case the screen does not render (line 314) |
| `PairAnalysis.BuyLiqZones` | app/pair-analysis.tsx:135 | at most the zone count; 0 when the zone list is absent |
| `PairAnalysis.SellLiqZones` | app/pair-analysis.tsx:136 | at most the zone count; 0 when the zone list is absent |
| `PairAnalysis.ZoneSplit` | app/pair-analysis.tsx:135-136 | buy-side plus sell-side zones equals the zone count, since `zone_type` is closed |
| `PairAnalysis.BullishStructures` | app/pair-analysis.tsx:349 | never more than all gaps plus all zones; the 0 for a payload with neither is the model's value for a case the screen does not render (line 236) |
| `PairAnalysis.BearishStructures` | app/pair-analysis.tsx:353 | never more than all gaps plus all zones; the 0 for a payload with neither is the model's value for a case the screen does not render (line 236) |
| `PairAnalysis.StructuresPartition` | app/pair-analysis.tsx:349-353 | bullish plus bearish structures equals all gaps plus all zones; the bearish card counts the bearish gaps plus the sell-side zones |
| `PairAnalysis.StatusColor` | app/pair-analysis.tsx:90-97 | total over strings, one of four colours; success, warning and error get their own colours; the info colour exactly for every other string |
| `PairAnalysis.StatusIcon` | app/pair-analysis.tsx:99-106 | total over strings, one of four icons; success, warning and error get their own icons; the info icon exactly for every other string |
| `PairAnalysis.ColorAndIconAgree` | app/pair-analysis.tsx:90-106 | two statuses share a colour exactly when they share an icon |
| `PairAnalysis.PairAnalysisScreen.constructor` | app/pair-analysis.tsx:65-66 | starts with `loading` true and no analysis |
| `PairAnalysis.PairAnalysisScreen.BeginLoad` | app/pair-analysis.tsx:72-75 | without a truthy pair nothing changes; otherwise `loading` is set; `analysis` is untouched |
| `PairAnalysis.PairAnalysisScreen.CompleteLoad` | app/pair-analysis.tsx:76-87 | a result replaces `analysis`; a failure keeps it and navigates back; `loading` ends false on both paths |
| `RootLayout.InAuthGroup` | app/_layout.tsx:35 | an empty route is outside the auth group; otherwise inside exactly when the first segment is `(auth)` |
| `RootLayout.TargetSegments` | app/_layout.tsx:38-40 | the login route lies inside the `(auth)` group and the tabs route outside it |
| `RootLayout.Redirect` | app/_layout.tsx:29-42 | never redirects when bypassed or not initialized; no redirect exactly when bypassed, not initialized, or "has user" differs from "in auth group"; login only for no user outside the group, tabs only for a user inside it; an empty route is outside |
| `RootLayout.RedirectIsStable` | app/_layout.tsx:35-41 | re-evaluating the rule on the route a redirect leads to gives no further redirect |
| `RootLayout.ShippedGuardNeverRedirects` | app/_layout.tsx:10-31 | with the switch as shipped (`true`) the guard never redirects |
| `RootLayout.RendersNothing` | app/_layout.tsx:45-47 | nothing is rendered exactly when the guard is on and auth is not initialized |
| `RootLayout.RedirectOnlyWhileRendered` | app/_layout.tsx:44-47 | a redirect happens only when the layout renders, i.e. not when the guard is on and auth is uninitialized |
| `UseSignals.SignalsQuery` | lib/hooks/use-signals.ts:39-46 | always `trade_signals` ordered by `created_at` descending; a status filter exactly when the status is truthy, carrying that status |
| `UseSignals.StatusFilterAdmits` | lib/hooks/use-signals.ts:44-46 | a filter naming a status admits exactly the rows with that status; an absent or empty filter admits every row |
| `UseSignals.SignalsHook.constructor` | lib/hooks/use-signals.ts:8-10 | starts with no signals, `loading` true and no error |
| `UseSignals.SignalsHook.BeginFetch` | lib/hooks/use-signals.ts:36-48 | sets `loading` and issues the query for the current filter; list and error unchanged |
| `UseSignals.SignalsHook.CompleteFetch` | lib/hooks/use-signals.ts:48-57 | rows (or `[]` for null) replace the list and clear the error; a failure sets the caught message and keeps the list; `loading` ends false |
| `UseSignals.SignalsHook.OnTableChange` | lib/hooks/use-signals.ts:18-28 | any change event starts the same full fetch, independent of the event |
| `UseSignals.SignalsHook.SetStatus` | lib/hooks/use-signals.ts:12-34 | a different status starts a fetch with the new filter, keeping the list; the same status does nothing |
| `UseUserSettings.UpsertPayload` | lib/hooks/use-user-settings.ts:46-52 | keys are the updates plus `user_id` and `updated_at`; `updated_at` is always the fresh stamp; `user_id` comes from the updates when they have one, else the signed-in user; every other update is sent unchanged |
| `UseUserSettings.FetchAccepts` | lib/hooks/use-user-settings.ts:33 | a thrown call is never accepted, an error-free response always is, and a response with an error exactly when its code is `PGRST116` |
| `UseUserSettings.SettingsHook.constructor` | lib/hooks/use-user-settings.ts:9-10 | starts with no settings and `loading` true |
| `UseUserSettings.SettingsHook.UserEffect` | lib/hooks/use-user-settings.ts:13-20 | with a user, starts the fetch for that user's row; without one, settings become null and `loading` false |
| `UseUserSettings.SettingsHook.BeginFetch` | lib/hooks/use-user-settings.ts:22-31 | a no-op without a user; otherwise sets `loading` and queries `user_settings` by the user's id |
| `UseUserSettings.SettingsHook.CompleteFetch` | lib/hooks/use-user-settings.ts:27-39 | a clean or `PGRST116` response replaces the settings; any other failure is swallowed and keeps them; `loading` ends false |
| `UseUserSettings.SettingsHook.UpdateSettings` | lib/hooks/use-user-settings.ts:42-63 | no user: nothing sent or changed; otherwise sends the merged payload; a clean response is stored and returned; any error, `PGRST116` included, is rethrown with the settings kept |
| `UseAnalysis.PairRequest` | lib/hooks/use-analysis.ts:13-17 | keeps the pair, always sets `forceRefresh`, keeps a given timeframe list (even empty) and uses `30m, 4H, 1D` only when it is omitted |
| `UseAnalysis.Settle` | lib/hooks/use-analysis.ts:19-29 | a successful envelope is returned unchanged; an unsuccessful one throws an `Error` with its message, or the fallback when the message is empty or missing; a rejected call rethrows its value |
| `UseAnalysis.UnsuccessfulEnvelopeHasMessage` | lib/hooks/use-analysis.ts:21-28 | an unsuccessful envelope always leaves a non-empty error message, for either call |
| `UseAnalysis.AnalysisHook.constructor` | lib/hooks/use-analysis.ts:5-6 | starts with `analyzing` false and no error |
| `UseAnalysis.AnalysisHook.Begin` | lib/hooks/use-analysis.ts:35-37 | sets `analyzing` and clears the error, as both calls do first |
| `UseAnalysis.AnalysisHook.BeginAnalyzePair` | lib/hooks/use-analysis.ts:8-17 | sets `analyzing`, clears the error and builds the request with its defaults |
| `UseAnalysis.AnalysisHook.Complete` | lib/hooks/use-analysis.ts:26-32 | `analyzing` cleared on every path; the error is set to the caught message exactly on failure and untouched on success |
| `UseAnalysis.AnalysisHook.CompleteAnalyzePair` | lib/hooks/use-analysis.ts:19-32 | settles with the "Analysis failed" fallback; `analyzing` cleared; the error follows the outcome |
| `UseAnalysis.AnalysisHook.CompleteMarketAnalysis` | lib/hooks/use-analysis.ts:39-53 | settles with the "Market analysis failed" fallback; `analyzing` cleared; the error follows the outcome |
| `AuthStore.UserOf` | lib/store/auth-store.ts:25 | a user exactly when there is a session, and then the session's user |
| `AuthStore.Store.constructor` | lib/store/auth-store.ts:16-20 | no session, no user, not loading, not initialized; consistent (the user is the session's user) |
| `AuthStore.Store.Initialize` | lib/store/auth-store.ts:22-34 | `initialized` ends true on both paths; on success session and its user are stored and the listener registered; on a throw session and user are kept; a success establishes consistency and a throw preserves it |
| `AuthStore.Store.OnAuthStateChange` | lib/store/auth-store.ts:28-30 | the event's session and its user (or null) replace the stored ones, so the store is consistent afterwards |
| `AuthStore.Store.BeginAction` | lib/store/auth-store.ts:38 | sets `loading` before the provider call of signIn, signUp and signOut |
| `AuthStore.Store.CompleteSignIn` | lib/store/auth-store.ts:39-49 | success stores the returned session and user, consistent exactly when the returned user is the returned session's; failure rethrows and keeps both; `loading` ends false |
| `AuthStore.Store.CompleteSignUp` | lib/store/auth-store.ts:54-69 | as for sign-in: store on success (a user without a session breaks consistency), rethrow and keep on failure, `loading` ends false |
| `AuthStore.Store.CompleteSignOut` | lib/store/auth-store.ts:74-81 | success clears session and user, leaving the store consistent; an error is rethrown with both kept; `loading` ends false |
| `Outcomes.CaughtMessage` | lib/hooks/use-signals.ts:54 | an `Error`'s message, otherwise "An error occurred" |
| `Outcomes.StringOr` | lib/hooks/use-analysis.ts:22 | the string when it is non-empty, otherwise the fallback; never empty when the fallback is not |

## Left out

- Rendering, styles, `Alert`, console logging and the route navigation itself. `router.back()`
  is reported as a returned flag and `router.replace` as a returned target.
- Remote calls (the database client, the authentication provider, the analysis HTTP
  service): their results are parameters. What the server does with a query is not
  modelled; `Admits` states only what an equality filter means.
- Realtime channel creation, subscription and teardown. A change notification is modelled
  only as the refetch it triggers (`OnTableChange`).
- Overlapping calls: each call is an atomic begin/complete pair, so races between in-flight
  fetches (last resolved wins) are not modelled.
- React's dependency comparison is by reference. `SetStatus` compares filter strings by
  value, which is the same for strings. `UserEffect` is invoked by the caller whenever React
  would re-run the effect, so reference identity of the user object is not modelled.
- The clock read for `updated_at`: the timestamp is a parameter of `UpdateSettings`.
- An update key explicitly set to `undefined` (which the spread would copy and JSON would
  then drop) is not modelled: update values are always defined.
- `signIn`'s and `signUp`'s email, password and full name are only forwarded to the provider,
  so they are not parameters; the provider's reply is.
- The authentication provider's promise that a successful sign-in returns the user of
  the returned session is not encoded. `CompleteSignIn` states consistency only relative
  to the reply it receives.
- The per-card counts, the zone total and the summary cards are shown only inside
  `detected_fvgs && (…)` and `detected_liquidity_zones && … length > 0`. The screen never
  evaluates them without those lists; the model's functions return 0 there instead.
- Display-only numbers (prices, risk:reward, confidence percentage, `toFixed`) are kept as
  `real` fields and never computed with.
- Win-rate, risk:reward and candle-change statistics computed on the other screens are not
  part of this model. The other screens and the HTTP client in `lib/services/api-service.ts`
  are not part of this model either; the analysis reply is an abstract `{success, message}`
  envelope.
