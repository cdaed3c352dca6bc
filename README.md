# RADIUS-MOBILE decision rules in Dafny

RADIUS-MOBILE is a React Native (Expo) app for truck drivers. This project models the
small rules at its core and proves their properties:

- **Push payload decoders.** `extractLoadId` and `extractStatementInfo` pick the first
  acceptable value from an ordered list of keys. A value is acceptable when it is a string
  that is not blank, or a number that is not NaN.
- **The two notification feeds.**
  - The loads feed has no module state. Every `initLoadNotifications` call registers the
    push token again and attaches a new pair of listeners.
  - The statements feed keeps two flags, `_tokenRegisteredOnce` and `_listenersAttached`.
    Its unsubscribe function clears the second flag.
- **The statement-detail screen.** The helpers `fmtStop`, the `Row` value rule and
  `boolTxt`, the lists taken from `data.raw`, and the `load()` validation and error flow.
- **The inspections and loads lists.** Both are paginated accumulators with an
  `onEndReached` guard. The loads screen also builds its query parameters from the user.
- **The auth guard's redirect decision and the root layout.** The layout covers the
  settings icon, the settings sheet, change password and logout.

## How the model is organised

- `wrappers.dfy` holds `Option` and `Read`. A `Read` is the result of an awaited call that
  may throw.
- `js.dfy` holds the JavaScript semantics the rules depend on:
  - JSON-like values, with integer numbers and NaN;
  - property lookup, where a missing key gives `undefined`;
  - truthiness, `??`, `String(v)`, and `trim` over the ECMAScript white-space set.
- `payload.dfy` holds both decoders.
  - `extractLoadId` has no mutated state and is a function.
  - `extractStatementInfo` is a method; its candidate loop, which breaks at the first acceptable
    candidate, is the method `FirstStatementId`.
    It is proved equal to the specification function `StatementInfo`.
- `push.dfy` holds the shared token-registration gate and the listener handles.
- `load_feed.dfy` and `statement_feed.dfy` each model one feed as a class.
  - Each class has the statements feed's flags (in the statements feed only) and the POSTs
    issued.
  - It also has the listener handles still registered with the operating system, and the
    values handed to the callback.
  - Scenario methods show the consequences of calling init twice, of a retry after a
    denied permission, and of unsubscribing.
- `statement_details.dfy` holds the display helpers as functions. `load()` is a function
  `LoadStep` plus a class method the function specifies.
- `inspections.dfy` and `loads.dfy` hold each screen as a class holding its React state.
  - A fetch is split at its first `await`: `BeginFetch` sets `loading` and `CompleteFetch`
    does the rest. That way the in-flight state, where the `onEndReached` guard matters, is
    visible.
  - One reply's effect on the list is the function `Apply`.
- `paging.dfy` holds what the two lists share: the page size and the `onEndReached` guard.
- `guard.dfy` and `layout.dfy` hold the redirect decision, and the layout's handlers as a
  class that records its navigation and storage effects.

The operating system, network and storage are inputs to the model:

- whether the app runs on a device, and the platform;
- the stored user;
- the permission answer and the push token;
- the cold-start notification's data;
- each reply;
- which awaited call throws (`Push.Fault`, `Push.RemovalFault`, `Read.Threw`).

## Model

| member | source | states |
|---|---|---|
| Js.IntToStringRoundTrip | app/tools/notification/load_notifications.tsx:21 | the decimal text `String(n)` gives for an integer id parses back to n |
| Js.NatToStringRoundTrip | app/tools/notification/load_notifications.tsx:21 | the digits of a natural number read back as that number |
| Js.IntToStringInjective | app/tools/notification/statement_notifications.tsx:31-32 | two numeric ids give the same id string only when they are equal |
| Js.Trim | app/tools/notification/load_notifications.tsx:20 | `s.trim()` is empty exactly when every character of s is ECMAScript white space; otherwise it neither starts nor ends with white space |
| Js.TrimEdges | app/tools/notification/load_notifications.tsx:20 | trimming both ends leaves nothing exactly for a blank string, and what is left has no white space at either edge |
| Js.TrimCutsEdges | app/tools/notification/load_notifications.tsx:20 | `s.trim()` is a slice of s whose cut-off prefix and suffix are all white space, so nothing inside is changed |
| Js.IsSpace | app/tools/notification/load_notifications.tsx:20 | the characters `trim` removes are ECMAScript WhiteSpace and LineTerminator: U+0009–U+000D, U+0020, U+00A0, U+1680, U+2000–U+200A, U+2028, U+2029, U+202F, U+205F, U+3000 and U+FEFF. No digit and no "-" is among them, and space, tab, LF and CR all are |
| Js.IsObject | app/tools/notification/load_notifications.tsx:17 | `typeof data === "object"` on a non-null value: objects and arrays pass, and each is truthy; null, booleans, numbers, NaN and strings fail |
| Js.TrimStart | app/tools/notification/statement_notifications.tsx:27 | the result is a suffix of s, only white space was removed, and it does not start with white space |
| Js.TrimEnd | app/tools/notification/statement_notifications.tsx:27 | the result is a prefix of s, only white space was removed, and it does not end with white space |
| Js.Field | app/tools/notification/load_notifications.tsx:18 | `v.key` is defined exactly when v is an object with that key, and is then that property |
| Js.Truthy | app/tools/notification/load_notifications.tsx:112 | undefined, null and NaN are falsy, and every object and array is truthy |
| Js.NatToString | app/tools/notification/load_notifications.tsx:21 | the decimal digits of a natural number: at least one digit, no leading zero except for 0 itself |
| Js.IntToString | app/tools/notification/load_notifications.tsx:21 | `String(n)` of an integer is non-empty and starts with "-" exactly for negative n |
| Js.ToJsString | app/statements/statements_details.tsx:171 | `String(v)`: a string is itself, a number's text parses back to it, null is "null", a boolean "true" or "false", NaN "NaN", an object "[object Object]", and an array its elements joined by "," |
| Js.ElementsString | app/statements/statements_details.tsx:218 | `String(array)`: "" for no elements. When a null first element has neighbours, the text starts with ",". The text is at least the element count minus one characters long |
| Js.ElementsStringCons | app/statements/statements_details.tsx:218 | with two or more elements, the text is the first element's text ("" for null), one ",", then the text of the rest |
| Js.ElementsStringOne | app/statements/statements_details.tsx:218 | a single element's text is its own `String`, or "" for null |
| Js.ElementsStringHead | app/statements/statements_details.tsx:218 | the text starts with the first element's `String` when that element is not null |
| Js.ElementsStringAppend | app/statements/statements_details.tsx:218 | for non-empty a and b, the text of a + b is the text of a, one ",", then the text of b, so exactly one "," stands between each pair of neighbours |
| Js.Coalesce | app/tools/notification/load_notifications.tsx:110 | `x ?? d` is x unless x is undefined or null, and d in those two cases |
| Payload.Accept | app/tools/notification/load_notifications.tsx:20-21 | a non-blank string is accepted untrimmed and a number as its decimal text; nothing else is accepted; an accepted value is never empty |
| Payload.FirstAccepted | app/tools/notification/load_notifications.tsx:19-23 | there is no result exactly when no candidate is acceptable; a result is never empty |
| Payload.FirstAcceptedAt | app/tools/notification/load_notifications.tsx:19-22 | the first acceptable candidate is the result, whatever the later candidates hold |
| Payload.Candidates | app/tools/notification/load_notifications.tsx:18 | one candidate per key, in key order, each the object's property under that key |
| Payload.ExtractLoadId | app/tools/notification/load_notifications.tsx:16-17 | a null or non-object payload decodes to null |
| Payload.LoadIdFirstMatch | app/tools/notification/load_notifications.tsx:18-22 | keys are tried in the order load_id, loadId, load, id, and the first acceptable one wins |
| Payload.LoadIdNone | app/tools/notification/load_notifications.tsx:23 | the load id is null exactly when none of the four keys holds an acceptable value |
| Payload.LoadIdFromNumber | app/tools/notification/load_notifications.tsx:21 | `{loadId: 42}` decodes to "42" |
| Payload.LoadIdFromEmptyObject | app/tools/notification/load_notifications.tsx:23 | `{}` decodes to null |
| Payload.LoadIdFallsBackToId | app/tools/notification/load_notifications.tsx:18-22 | with the first three keys unacceptable, the id key decides |
| Payload.LoadIdSkipsBlank | app/tools/notification/load_notifications.tsx:20 | a blank load_id is skipped, and the later id " 7 " is returned untrimmed |
| Payload.WeekRange | app/tools/notification/statement_notifications.tsx:37-42 | week_range if it is a string (even empty), else weekRange if it is a string, else null |
| Payload.StatementInfo | app/tools/notification/statement_notifications.tsx:21 | a null or non-object payload decodes to (null, null) |
| Payload.ExtractStatementInfo | app/tools/notification/statement_notifications.tsx:20-45 | the candidate loop with its break computes exactly the first-match id and the week range |
| Payload.FirstStatementId | app/tools/notification/statement_notifications.tsx:26-35 | the loop that assigns and breaks yields exactly the first acceptable candidate |
| Payload.AcceptCases | app/tools/notification/statement_notifications.tsx:27-34 | the loop's string test and number test accept exactly what `Accept` accepts, and failing both skips the candidate |
| Payload.StatementIdFirstMatch | app/tools/notification/statement_notifications.tsx:24-35 | ids are tried in the order statement_id, statementId, id, and the first acceptable one wins |
| Payload.StatementFull | app/tools/notification/statement_notifications.tsx:20-45 | a payload with statement_id and week_range decodes to both |
| Payload.IsStatementPayload | app/tools/notification/statement_notifications.tsx:115 | only an object whose type is "statement" passes, and its intent is the first-match id with the week range |
| Payload.StatementBare | app/tools/notification/statement_notifications.tsx:20-45 | a payload with only its type decodes to (null, null) |
| Push.DeviceEligible | app/tools/notification/load_notifications.tsx:55 | registration needs a physical device, and never runs on web |
| Push.IsDriverWithId | app/tools/notification/load_notifications.tsx:58 | only an object user with role "driver" and a driver_id passes |
| Push.Bearer | app/tools/notification/load_notifications.tsx:73 | the header is "Bearer " followed by the token's text when the token is truthy, else just "Bearer " |
| Push.Register | app/tools/notification/load_notifications.tsx:55-84 | a POST is issued exactly when the device is real and not web, the user is a driver with a driver_id, permission is granted, and no earlier call threw. The POST carries the driver id, the bearer token and the push token. It completes unless the POST itself throws |
| Push.PostsOf | app/tools/notification/load_notifications.tsx:69-76 | an attempt adds its own POST to the log, or nothing when it issued none |
| Push.Flatten | app/tools/notification/load_notifications.tsx:108-116 | n live response listeners deliver n whole copies of the callbacks, in order: position k is callback k mod the count |
| LoadFeed.OpenedFor | app/tools/notification/load_notifications.tsx:111-112 | `onOpenLoad` is called once with the decoded id, and not at all when the id is null |
| LoadFeed.LoadNotifications.constructor | app/tools/notification/load_notifications.tsx:51-53 | nothing posted, attached or opened yet |
| LoadFeed.LoadNotifications.Init | app/tools/notification/load_notifications.tsx:51-128 | every call logs its registration attempt's POST, attaches a fresh pair of listeners and replays the cold-start payload. No exception escapes |
| LoadFeed.LoadNotifications.RegisterToken | app/tools/notification/load_notifications.tsx:55-84 | the registration attempt's POST, if any, is logged on every call. Nothing else changes |
| LoadFeed.LoadNotifications.AttachListeners | app/tools/notification/load_notifications.tsx:104-116 | two new handles are registered, one received and one response listener |
| LoadFeed.LoadNotifications.ColdStart | app/tools/notification/load_notifications.tsx:119-128 | the cold-start payload (`data ?? null`) opens its decoded load, or nothing |
| LoadFeed.LoadNotifications.Tap | app/tools/notification/load_notifications.tsx:108-116 | a tap opens the decoded load once per attached listener, with data defaulting to `{}`. It opens nothing when no id decodes |
| LoadFeed.LoadNotifications.Unsubscribe | app/tools/notification/load_notifications.tsx:131-138 | removes the received, then the response listener. A throw skips the rest and is swallowed |
| LoadFeed.InitTwiceFresh | app/tools/notification/load_notifications.tsx:55-116 | a fresh feed initialised twice holds two equal POSTs and two tap listeners, and has opened nothing |
| LoadFeed.InitTwiceThenTap | app/tools/notification/load_notifications.tsx:55-116 | two inits give two POSTs and two tap listeners, so one tap opens the load twice |
| StatementFeed.IntentsFor | app/tools/notification/statement_notifications.tsx:114-118 | the callback fires only for type "statement". It then fires even when both parts are null |
| StatementFeed.StatementNotifications.constructor | app/tools/notification/statement_notifications.tsx:16-17 | both flags start false |
| StatementFeed.StatementNotifications.Init | app/tools/notification/statement_notifications.tsx:53-136 | no POST once the token is registered. Otherwise the attempt's POST is logged, and the flag becomes true exactly when that POST completed. While listeners are attached the call returns a no-op and attaches nothing. Otherwise it sets the flag, attaches one pair and replays the cold start |
| StatementFeed.StatementNotifications.RegisterToken | app/tools/notification/statement_notifications.tsx:57-83 | no POST once the flag is set. Otherwise the attempt's POST is logged, and the flag becomes true exactly when it completed |
| StatementFeed.StatementNotifications.AttachListeners | app/tools/notification/statement_notifications.tsx:106-122 | the flag is set, then one pair of listeners is registered under new handles |
| StatementFeed.StatementNotifications.ColdStart | app/tools/notification/statement_notifications.tsx:125-136 | a "statement" cold-start payload delivers its decoded intent. Any other payload delivers nothing |
| StatementFeed.StatementNotifications.Tap | app/tools/notification/statement_notifications.tsx:112-122 | each attached listener delivers the decoded intent of a "statement" payload. Flags and listeners are unchanged |
| StatementFeed.StatementNotifications.Unsubscribe | app/tools/notification/statement_notifications.tsx:139-148 | the real unsubscribe always clears `_listenersAttached`, even when a removal throws. The no-op changes nothing |
| StatementFeed.InitTwice | app/tools/notification/statement_notifications.tsx:57-106 | two inits give one POST and one pair of listeners, and the second unsubscribe is the no-op |
| StatementFeed.RetryAfterDenied | app/tools/notification/statement_notifications.tsx:57-82 | a denied permission leaves the token unregistered, so the next call posts and registers it |
| StatementFeed.UnsubscribeRearms | app/tools/notification/statement_notifications.tsx:139-148 | after unsubscribing, the next init attaches again. A failed removal leaves two tap listeners live |
| StatementDetails.NonEmpty | app/statements/statements_details.tsx:217-219 | `filter(Boolean)` on strings keeps exactly the non-empty parts |
| StatementDetails.NonEmptyAppend | app/statements/statements_details.tsx:217-219 | the filter keeps order: filtering a concatenation is the concatenation of the filtered sides |
| StatementDetails.NonEmptySingle | app/statements/statements_details.tsx:217-219 | a single part is kept exactly when it is non-empty |
| StatementDetails.TruthyValues | app/statements/statements_details.tsx:217-218 | `filter(Boolean)` keeps exactly the truthy values |
| StatementDetails.TruthyValuesAppend | app/statements/statements_details.tsx:217-218 | the filter keeps order: filtering a concatenation is the concatenation of the filtered sides |
| StatementDetails.TruthyValuesSingle | app/statements/statements_details.tsx:217-218 | a single value is kept exactly when it is truthy |
| StatementDetails.Join | app/statements/statements_details.tsx:217-219 | `join` of no parts is "", and of one part is that part |
| StatementDetails.JoinTruthy | app/statements/statements_details.tsx:217-218 | with no truthy value the joined text is "" |
| StatementDetails.JoinTruthyPair | app/statements/statements_details.tsx:217-218 | two non-empty strings join as the first, the separator, then the second |
| StatementDetails.StopParts | app/statements/statements_details.tsx:212-219 | three parts; the middle one is the date text exactly when `stop.date` is truthy, else "" |
| StatementDetails.StopPartsOrder | app/statements/statements_details.tsx:212-217 | with non-empty company and address the core part is company, " • ", then address |
| StatementDetails.StopWindowOrder | app/statements/statements_details.tsx:214-218 | with non-empty time_from and time_to the window is time_from, "–", then time_to |
| StatementDetails.FmtStop | app/statements/statements_details.tsx:210-220 | a falsy stop gives "—". Any other stop gives "" exactly when all three parts are empty |
| StatementDetails.JoinThree | app/statements/statements_details.tsx:219 | three parts join as first, separator, second, separator, third |
| StatementDetails.FmtStopAllParts | app/statements/statements_details.tsx:219 | with all three parts non-empty, fmtStop is core " \| " date " \| " window, in that order |
| StatementDetails.JoinNonEmptyParts | app/statements/statements_details.tsx:219 | joining non-empty parts is empty only for no parts. It starts with the first part and ends with the last, with no leading or trailing separator. Its length is the parts' total plus one separator per gap |
| StatementDetails.OrEmpty | app/statements/statements_details.tsx:212-215 | `stop.key \|\| ""` is the property when truthy, "" otherwise |
| StatementDetails.FmtStopShape | app/statements/statements_details.tsx:210-220 | a falsy stop gives "—". Otherwise the text is the non-empty parts (company • address, date, time_from–time_to) joined by " \| ". It starts with the first kept part and ends with the last. It is empty only when every part is, and it keeps exactly the non-empty parts |
| StatementDetails.FmtStopExample | app/statements/statements_details.tsx:210-220 | company ACME and time_from 08:00 render "ACME \| 08:00" |
| StatementDetails.RowText | app/statements/statements_details.tsx:171 | `String(value)` when defined, non-null and non-empty, else "—". Never blank |
| StatementDetails.StopRow | app/statements/statements_details.tsx:124-125 | a stop's Row shows "—" for a falsy stop or one with no usable part, and otherwise exactly the fmtStop text |
| StatementDetails.BoolTxt | app/statements/statements_details.tsx:195-197 | "Да" exactly for truthy values, "Нет" otherwise |
| StatementDetails.Raw | app/statements/statements_details.tsx:81 | `data.raw ?? {}`: the raw property unless it is missing or null |
| StatementDetails.RawList | app/statements/statements_details.tsx:81-84 | the raw list when it is an array, the empty list otherwise, with raw defaulting to `{}` |
| StatementDetails.RawListsWithoutRaw | app/statements/statements_details.tsx:81-84 | without a raw object, loads, expenses and inspections are all empty |
| StatementDetails.Message | app/statements/statements_details.tsx:48 | the error text is the thrown message when it is non-empty, and "Ошибка загрузки" otherwise |
| StatementDetails.IsDriver | app/statements/statements_details.tsx:29 | exactly an object user whose role is "driver" passes |
| StatementDetails.ReplyError | app/statements/statements_details.tsx:43 | a failed reply's error text is `String(json.error)` when that is truthy, else "Не удалось получить детали стейтмента" |
| StatementDetails.StoredStatement | app/statements/statements_details.tsx:46 | `json.statement \|\| null`: the statement when truthy, nothing otherwise |
| StatementDetails.LoadStep | app/statements/statements_details.tsx:22-52 | a missing id fails with "Missing statement id" and a non-driver with the driver-only error, both before any fetch. A thrown getUser fails with its message, before any fetch. A driver with an id is always fetched, and nobody else is. An ok, successful reply loads and stores `json.statement \|\| null`. A thrown request fails with its message. A failed reply fails with `ReplyError`. Every failure has a non-empty message |
| StatementDetails.ScreenOf | app/statements/statements_details.tsx:58-79 | the spinner while loading; details only when not loading and data is present |
| StatementDetails.StatementDetailsScreen.constructor | app/statements/statements_details.tsx:18-20 | loading starts true, with no error and no data |
| StatementDetails.StatementDetailsScreen.Load | app/statements/statements_details.tsx:22-52 | error is reset, then set exactly on failure. Data is replaced only on success. A request is logged only past both checks. Loading is false on every path |
| StatementDetails.ScreenAfterLoad | app/statements/statements_details.tsx:46-79 | after a load the screen shows the error, the statement, or "Нет данных" when the reply had none, and never the spinner |
| Paging.ShouldFetchMore | app/inspections.tsx:99 | another fetch is allowed exactly when none is running and more pages exist |
| Inspections.PageItems | app/inspections.tsx:41 | a non-array `items` is an empty page |
| Inspections.Succeeded | app/inspections.tsx:40 | only a parsed object reply with a success field can succeed |
| Inspections.Apply | app/inspections.tsx:40-47 | on success the items are the old items followed by the page, page grows by one, and hasMore is (a full page of 10 or has_more === true). On failure nothing changes. Earlier items are never altered |
| Inspections.ApplyAllAccumulates | app/inspections.tsx:40-47 | after any run of replies the list is the old list followed by every successful page in order, and the page counter advanced once per success |
| Inspections.InspectionsScreen.Mount | app/inspections.tsx:18-21 | empty list, page 1, hasMore, and the mount effect's fetch of page 1 under way |
| Inspections.InspectionsScreen.BeginFetch | app/inspections.tsx:23-25 | loading is set and the requested page logged. The list is unchanged |
| Inspections.InspectionsScreen.CompleteFetch | app/inspections.tsx:38-52 | the list state becomes `Apply` of the reply and loading ends false |
| Inspections.InspectionsScreen.OnEndReached | app/inspections.tsx:98-100 | a fetch of the current page starts exactly when not loading and hasMore |
| Inspections.NoSecondFetchWhileLoading | app/inspections.tsx:98-100 | while the first fetch runs, reaching the end starts nothing |
| Inspections.TwoPages | app/inspections.tsx:40-57 | a full page then a short page: pages 1 and 2 fetched, items concatenated, no more fetches |
| Loads.QueryParams | app/loads.tsx:26-32 | page always comes first. A driver gets role=driver, plus user_id only when it is truthy. Every other user, or none, gets role=admin and no user_id |
| Loads.Succeeded | app/loads.tsx:38-39 | only a parsed object reply whose loads field is an array counts as success |
| Loads.ApplyAllAccumulates | app/loads.tsx:38-41 | after any run of replies the loads are the old loads followed by every successful page in order, and the page counter advanced once per success |
| Loads.PageOf | app/loads.tsx:39 | the `loads` array that a successful reply spreads into the list |
| Loads.Apply | app/loads.tsx:38-46 | on success the loads are the old ones followed by data.loads, page grows by one, and hasMore is exactly (10 loads). On failure nothing changes |
| Loads.HasMoreIgnoresServerFlag | app/loads.tsx:40 | a short page ends the list even when the reply says has_more |
| Loads.LoadsScreen.Mount | app/loads.tsx:11-14 | empty list, page 1, hasMore, and the mount effect's fetch of page 1 under way |
| Loads.LoadsScreen.BeginFetch | app/loads.tsx:16-18 | loading is set and the requested page logged |
| Loads.LoadsScreen.CompleteFetch | app/loads.tsx:20-49 | with a user read, the request's query is logged and the list becomes `Apply` of the reply. When reading the user throws, nothing is sent. Loading ends false |
| Loads.LoadsScreen.OnEndReached | app/loads.tsx:80-82 | a fetch of the current page starts exactly when not loading and hasMore |
| Loads.DriverWithoutId | app/loads.tsx:26-32 | a driver with an empty user_id gets only page=1 and role=driver |
| Guard.IsLoggedIn | lib/guard.ts:14 | `!!user`: nothing stored (null) is logged out, and any stored user object is logged in |
| Guard.Redirects | lib/guard.ts:18-25 | a logged-out visitor off "/login" goes to "/login", and a logged-in user on "/login" goes to "/dashboard". Otherwise nothing happens, and there is at most one redirect |
| Guard.RedirectSettles | lib/guard.ts:18-25 | after one redirect the guard redirects no further |
| Guard.AuthGuard.constructor | lib/guard.ts:7 | isAuthenticated starts null |
| Guard.AuthGuard.Evaluate | lib/guard.ts:11-27 | isAuthenticated becomes `!!user` and the redirects of `Redirects` are issued. A throwing `getUser` changes nothing |
| Guard.ColdStartLoggedOut | lib/guard.ts:13-20 | with nothing stored, opening "/loads" redirects once to "/login" |
| Layout.ShowSettingsIcon | app/_layout.tsx:18 | the icon shows exactly when authenticated is true and the path is not "/settings" |
| Layout.Renders | app/_layout.tsx:46 | nothing renders while isAuthenticated is null |
| Layout.ShouldClearPushToken | app/_layout.tsx:31 | only an object user with role "driver" and both driver_id and token present passes |
| Layout.LogoutEffects | app/_layout.tsx:29-43 | a clear_push_token call happens only for a driver with a truthy driver_id and token. Clearing the user, then replacing the route with "/login", always closes the sequence |
| Layout.LogoutAlwaysEndsLoggedOut | app/_layout.tsx:40-43 | logout ends on "/login", and no push-token call follows the clearing of the user |
| Layout.RootLayout.constructor | app/_layout.tsx:17 | the sheet starts hidden |
| Layout.RootLayout.ToggleModal | app/_layout.tsx:20 | visibility flips and nothing else happens |
| Layout.RootLayout.ChangePassword | app/_layout.tsx:22-25 | the sheet closes, then "/settings" is pushed |
| Layout.RootLayout.Logout | app/_layout.tsx:27-44 | the sheet closes first, then the effects of `LogoutEffects` follow |
| Layout.LogoutWithoutToken | app/_layout.tsx:31 | a driver without a token logs out without a clear_push_token call |
| Layout.ToggleTwice | app/_layout.tsx:20 | toggling twice leaves the sheet hidden |

## Left out

- Numbers are integers. Floating point, `Infinity` and the floating-point text of `String(n)` are not modelled, and NaN is a value of its own.
- `fmtNum`, `nz` and `safeDate` are not modelled: they are JavaScript floating-point and Date formatting. `fmtStop` instead takes the date text `safeDate(stop.date)` gives as an input.
- The Android notification channel and `setNotificationHandler` are not modelled. Their only effects are on notification display.
- Console logging and URL encoding (`encodeURIComponent`, `URLSearchParams.toString`) are not modelled. The loads query is kept as its list of name–value pairs.
- The fire-and-forget async blocks (cold start, the guard's effect) and React's deferred state updates are not modelled, so interleavings are missing. Each path runs as one sequential step: for example, a tap that arrives while the cold-start lookup is pending.
- StatementFeed.StatementNotifications.Init: overlapping calls are not modelled; each `Init` runs as one uninterrupted step. `_tokenRegisteredOnce` is set only after the awaited POST, so two overlapping calls would both pass the gate and both POST. `StatementFeed.InitTwice`'s single POST holds for calls that do not overlap.
- The React components, styles and the screens outside the core are not modelled. `lib/auth.ts` is an input (`Read<Value>` for what `getUser` returns or throws), and `utils/api.ts` is not part of this model.
- The endpoint URLs and the POST body's JSON encoding are not modelled. A token POST is recorded by its driver id, authorization header and push token.
- Push.Register: a POST that throws counts as issued but not completed. The source starts the request before it can fail, so a failed POST still leaves the token unregistered.
- Loads.Apply, Loads.Succeeded: a success reply whose `loads` is not an array is treated as a failure (nothing changes). This follows from running state updaters at once inside the try. In the source the spread runs in the `setLoads` updater, which React calls after the try. For an object or number `loads`, the source sets hasMore false and page + 1, then fails when it renders. For a missing `loads`, reading its length throws into the catch after the failing updater was queued. A string `loads` would be spread character by character. None of these outcomes is modelled.
- Layout.LogoutEffects: a `clearUser` that throws is not modelled; it would skip the redirect. A thrown `getUser` skips only the clear call, and the `finally` still clears the user and redirects. Because the try has no catch, that error then escapes `handleLogout` as a rejected promise, which is not modelled.
- Guard.AuthGuard.Evaluate: an evaluation whose `getUser` throws changes nothing. The rejection it raises is not modelled.
- StatementDetails.StatementDetailsScreen.Load: the route id is a string or absent. An array-valued search parameter is not modelled.
