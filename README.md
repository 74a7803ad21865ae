# NFL dashboard core in Dafny

A model of the client-side logic of an NFL dashboard written in TypeScript and React. It covers:

- the live-update connection service;
- the application, favourites, notification and theme state containers;
- the live game view;
- the validators, the form and the settings screens;
- the data-fetching cache;
- the accessibility service and helpers;
- the performance monitor;
- the leaderboard, the team comparison tool and chart, the player-statistics views and the news feed;
- the image URL builders and the team-colour style injection.

Each source file is one module, in one file:

- `js_core.dfy` (`JsCore`) holds the JavaScript vocabulary shared by all of them:
  - `Option`, and `slice(0, n)` with a negative end;
  - truncated `%`, integer printing and `join`;
  - ASCII case mapping and the `\s` character class.
- Stateful objects are classes whose methods change their fields:
  - the WebSocket service;
  - the accessibility service;
  - the focus trap and the id counter;
  - the performance monitor;
  - the document head.
- Reducers and derivation rules are functions with lemmas.
- Loops that push or accumulate are methods proved against those functions.

Browser facilities are inputs:

- the clock is a `now` parameter;
- `Math.random()` results are parameters in [0, 1);
- storage is a map from key to string;
- elements are opaque ids, and every `focus()` call is recorded in a log;
- callbacks are opaque ids, and each invocation is appended to a `calls` log;
- socket events and timer expiries are methods of their own.

| module | file | what it models |
|---|---|---|
| `LiveUpdates` | `websocket.dfy` | `WebSocketService`: connection status, the reconnect policy (delay times 1.5 capped at 30 s, at most 10 attempts), the 45 s heartbeat check, seven subscriber lists with disposers, and the `type` router |
| `AppState` | `app_state.dfy` | the initial state and every action of `appReducer`, and the favourite-membership helpers |
| `FavoritesStore` | `favorites.dfy` | the set-like team and player favourite lists |
| `Notifications` | `notifications.dfy` | the bounded newest-first notification list, read flags, the unread count and the mapping from game events |
| `Theme` | `theme.dfy` | the resolved theme, toggling, the CSS variable table and the contrast colour |
| `GameDetail` | `game_detail.dfy` | the five subscription handlers of the live game view, and `isLive`/`isFinal` |
| `Validation` | `validation.dfy` | the rule combinators, field and object validation, API-response guarding and `sanitizeInput` |
| `Form` | `form.dfy` | the form's initial field state, the first-failing-rule check and the field transitions |
| `SettingsPage` | `settings.dfy` | the storage keys the settings screens write and read, and the refresh-interval and roster-size checks |
| `DataFetching` | `data_fetching.dfy` | the expiring keyed cache, staleness, invalidation, doubling retries and the state changes of a fetch |
| `TabNavigation` | `tab_navigation.dfy` | Enter, Space and arrow-key handling with wrap-around, the disabled guard and the tab attributes |
| `Accessibility` | `accessibility_service.dfy` | the accessibility service: settings, announcements, key combos and shortcuts, roving tabindex, the focus stack and teardown |
| `AccessibilityUtils` | `accessibility_utils.dfy` | ARIA attributes, the skip link, the keyboard-handler builder, `FocusTrap` and `generateId` |
| `Performance` | `performance.dfy` | `PerformanceMonitor` with its marks, measurements and report |
| `Leaderboard` | `leaderboard.dfy` | the stat filter, the stable descending sort and the limit of the leaderboard |
| `ComparisonChart` | `team_comparison_chart.dfy` | the chart's scale, bar widths, better side and label threshold |
| `TeamComparison` | `team_comparison.dfy` | seeded team statistics, the better team per statistic, team selection and historical matchups |
| `DetailedPlayerStats` | `detailed_player_stats.dfy` | the five-game log, fantasy scoring, trends, the radar chart and the season-stat labels |
| `DetailedPlayerStatsImproved` | `detailed_player_stats_improved.dfy` | the improved and optimized variants of that view and how they differ from it |
| `NewsFeed` | `news_feed.dfy` | the category and team filters with the limit, relative time and the category badge |
| `ImageOptimization` | `image_optimization.dfy` | the optimized-image query, srcset, sizes, avatar and logo URLs |
| `StyleUtils` | `style_utils.dfy` | the team-colour class name and its inject-once style element |

The game-log loop and the fantasy scoring appear three times in the source:

- in `DetailedPlayerStats.tsx`;
- in `DetailedPlayerStatsImproved.tsx` (lines 17-76);
- in `DetailedPlayerStatsOptimized.tsx` (lines 208-263).

The three copies are the same up to names, comments and the memo wrapper, and `DetailedPlayerStats.GenerateGameLog` and `DetailedPlayerStats.ComputePoints` model all of them. Likewise:

- the optimized view's trends (265-310) are the original construction, and `GenerateTrendsFrom` models them;
- its radar (312-340) is the original radar, and `GetRadarChartData` models it;
- its season grid (74-91) is the original grid, and `SeasonGrid` models it.

`DetailedPlayerStatsImproved.RenderOptimized` puts those pieces together for the optimized view.

## Model

| member | source | states |
|---|---|---|
| LiveUpdates.BackoffBounds | src/services/websocket.ts:250-265 | every reconnect delay lies between the initial 1000 ms and the 30000 ms cap, and is at least 1500 ms once a retry has been scheduled |
| LiveUpdates.BackoffMonotone | src/services/websocket.ts:258 | the delay never shrinks as retries accumulate |
| LiveUpdates.BackoffValues | src/services/websocket.ts:258 | the delays grow by 1.5 from 1500 ms (2250, 3375, 5062.5 ms) and first reach the 30000 ms cap on the ninth retry |
| LiveUpdates.BackoffCapped | src/services/websocket.ts:258 | from the ninth retry on the delay stays at the cap |
| LiveUpdates.Route | src/services/websocket.ts:92-132 | an unparsable frame becomes the processing error; a delivered frame carries its own `type`; an unknown type is dropped; status subscribers are never reached by a frame |
| LiveUpdates.RouteByType | src/services/websocket.ts:98-127 | a score, status, stat, news or error frame with a payload object reaches exactly its own subscriber list |
| LiveUpdates.RouteGameUpdate | src/services/websocket.ts:99-101 | a game update reaches the game subscribers with its payload array, and nobody when the payload is not an array |
| LiveUpdates.RouteMissingPayload | src/services/websocket.ts:102-131 | a score or status update without a payload throws inside the handler and reports the processing error |
| LiveUpdates.Fanout | src/services/websocket.ts:217-238 | `forEach` calls every callback of the list exactly once, in list order, with the same arguments |
| LiveUpdates.WebSocketService.constructor | src/services/websocket.ts:21-43 | all subscriber lists empty, no attempts, a 1000 ms delay, disconnected, no socket, no timers and no heartbeat |
| LiveUpdates.WebSocketService.GetConnectionStatus | src/services/websocket.ts:556-558 | the stored connection status |
| LiveUpdates.WebSocketService.IsConnected | src/services/websocket.ts:560-562 | true exactly when the status is `connected` |
| LiveUpdates.WebSocketService.Subscribe | src/services/websocket.ts:155-209 | appends the callback to its category's list and changes nothing else; a status subscriber is called once at once with the current status |
| LiveUpdates.WebSocketService.Unsubscribe | src/services/websocket.ts:155-204 | the returned disposer removes every occurrence of that callback from its own list and nothing else |
| LiveUpdates.WebSocketService.Notify | src/services/websocket.ts:220-238 | the calls made are exactly the fan-out of the category's list |
| LiveUpdates.WebSocketService.NotifyGameUpdates | src/services/websocket.ts:212-218 | a non-array payload reaches nobody; an array reaches every game subscriber |
| LiveUpdates.WebSocketService.UpdateConnectionStatus | src/services/websocket.ts:240-243 | stores the status and then tells every status subscriber |
| LiveUpdates.WebSocketService.AttemptReconnect | src/services/websocket.ts:250-266 | after ten attempts only the error subscribers hear of it; otherwise one more attempt, the delay times 1.5 capped at 30000 ms, and a fresh timer pending with that delay |
| LiveUpdates.WebSocketService.Connect | src/services/websocket.ts:45-152 | clears a held reconnect timer; in development mode reports connecting then connected; otherwise reports connecting and holds a pending socket, or on a throwing constructor reports error and the failure, then either holds a fresh retry timer with the backed-off delay and one more attempt or, at ten attempts, reports that it gives up and holds no timer; subscribers, sent frames, heartbeat and last message time never change |
| LiveUpdates.WebSocketService.CancelReconnectTimer | src/services/websocket.ts:47-50 | the held timer is cleared and forgotten, and no other timer is touched |
| LiveUpdates.WebSocketService.FailConnection | src/services/websocket.ts:146-151 | reports `error` and the connection failure, then attempts a reconnect |
| LiveUpdates.WebSocketService.SocketOpened | src/services/websocket.ts:72-90 | resets attempts and delay, reports connected, starts the heartbeat, notes the time, and sends the authentication frame when the held socket is the one that opened |
| LiveUpdates.WebSocketService.SocketMessage | src/services/websocket.ts:92-132 | notes the arrival time and makes exactly the calls the routed frame asks for; every other field, `nextTimerId` and the reconnect delay included, is unchanged |
| LiveUpdates.WebSocketService.SocketClosed | src/services/websocket.ts:134-139 | reports disconnected and stops the heartbeat; below ten attempts it adds one attempt, grows the delay and holds a fresh pending timer with the backoff delay, all other timers kept; at ten it reports that it gives up and leaves the attempts, the delay and every timer as they were; subscribers, sent frames and the last message time never change |
| LiveUpdates.WebSocketService.SocketErrored | src/services/websocket.ts:141-145 | reports `error` and tells the error subscribers; every other field, the last message time and `nextTimerId` included, is unchanged |
| LiveUpdates.WebSocketService.FireReconnectTimer | src/services/websocket.ts:262-265 | the fired timer is no longer pending, and the whole new state is the one `connect` leaves from the state without that timer |
| LiveUpdates.WebSocketService.SetupPingInterval | src/services/websocket.ts:268-285 | the heartbeat is running afterwards |
| LiveUpdates.WebSocketService.CleanupPingInterval | src/services/websocket.ts:287-292 | the heartbeat is stopped afterwards |
| LiveUpdates.WebSocketService.PingTick | src/services/websocket.ts:273-284 | after more than 45 s of silence the whole new state is the one `connect` leaves with the socket dropped, and nothing is sent; otherwise it sends one ping when the socket is open, and status, calls, subscribers, attempts, delay, timers, heartbeat and last message time stay as they were |
| LiveUpdates.WebSocketService.Reconnect | src/services/websocket.ts:294-300 | the whole new state is the one `connect` leaves with the held socket dropped: nothing is sent and the subscribers stay |
| LiveUpdates.WebSocketService.SendMessage | src/services/websocket.ts:302-319 | true exactly when the held socket is open, and only then is the frame sent |
| LiveUpdates.WebSocketService.Disconnect | src/services/websocket.ts:540-554 | stops the heartbeat, clears the reconnect timer, drops the socket and reports disconnected; the attempts, the delay, the last message time, `nextTimerId`, the subscribers and the sent frames are unchanged |
| AppState.InitialState | src/context/AppStateContext.tsx:43-64 | week 1 of the current year, nothing selected, the stored favourites; each stored flag is on unless it is the text "false"; a missing theme is "system" and a missing or empty interval is 30000 ms; the UI starts closed, idle and error-free |
| AppState.DefaultIntervalParses | src/context/AppStateContext.tsx:56 | the fallback text "30000" parses to 30000 |
| AppState.MergeSettings | src/context/AppStateContext.tsx:112-117 | a supplied setting takes the payload's value and every other keeps its old one |
| AppState.Reduce | src/context/AppStateContext.tsx:66-136 | every action changes only its own part of the state, and an unknown action returns the state unchanged |
| AppState.IsPlayerFavorite | src/context/AppStateContext.tsx:192-194 | true exactly when the id occurs in the favourite players |
| AppState.IsTeamFavorite | src/context/AppStateContext.tsx:196-198 | true exactly when the id occurs in the favourite teams |
| AppState.AddFavoriteAppends | src/context/AppStateContext.tsx:80-102 | adding appends the id, which is then a favourite, even when it already was one (the list then holds it twice) |
| AppState.RemoveFavoriteDropsAll | src/context/AppStateContext.tsx:88-110 | removing drops every occurrence of the id and keeps every other id as often as before and in the original order |
| AppState.ToggleTwiceRestores | src/context/AppStateContext.tsx:119-123 | a toggle flips its panel, and two toggles restore the state |
| AppState.ErrorThenReset | src/context/AppStateContext.tsx:125-132 | setting an error stores it, resetting clears it, and setting the loading flag changes only that flag |
| FavoritesStore.InitialList | src/context/FavoritesContext.tsx:37-61 | an absent or empty saved value, or one that does not parse, gives the empty list; otherwise the parsed list |
| FavoritesStore.AddFavoriteTeam | src/context/FavoritesContext.tsx:85-89 | the team is a favourite afterwards and the player list is untouched |
| FavoritesStore.RemoveFavoriteTeam | src/context/FavoritesContext.tsx:94-96 | the team is no longer a favourite and the player list is untouched |
| FavoritesStore.AddFavoritePlayer | src/context/FavoritesContext.tsx:102-106 | the player is a favourite afterwards and the team list is untouched |
| FavoritesStore.RemoveFavoritePlayer | src/context/FavoritesContext.tsx:109-111 | the player is no longer a favourite and the team list is untouched |
| FavoritesStore.AddIdempotent | src/context/FavoritesContext.tsx:85-106 | adding an existing favourite changes nothing, so adding twice is adding once |
| FavoritesStore.IsFavorite | src/context/FavoritesContext.tsx:99 | `includes`: true exactly when some position of the team list holds the id |
| FavoritesStore.IsFavoritePlayer | src/context/FavoritesContext.tsx:114 | `includes`: true exactly when some position of the player list holds the id |
| FavoritesStore.AddAppendsNew | src/context/FavoritesContext.tsx:87-104 | a new id is appended at the end of its list |
| FavoritesStore.AddKeepsNoDuplicates | src/context/FavoritesContext.tsx:86-87 | adding keeps a duplicate-free list duplicate-free |
| FavoritesStore.OperationsKeepDuplicateFree | src/context/FavoritesContext.tsx:85-111 | all four operations keep both lists duplicate-free |
| FavoritesStore.RemoveKeepsOthersInOrder | src/context/FavoritesContext.tsx:94-111 | removing keeps every other id, as often as before and in the same order |
| Notifications.AddNotification | src/context/NotificationContext.tsx:54-66 | the new notification, unread and stamped now, goes first and the list is cut to `max` entries |
| Notifications.AddDropsOldest | src/context/NotificationContext.tsx:64 | below the bound nothing is lost; at the bound exactly the oldest notification is dropped |
| Notifications.MarkAsRead | src/context/NotificationContext.tsx:81-87 | the entries with that id become read and every other entry is unchanged |
| Notifications.MarkAsReadIdempotent | src/context/NotificationContext.tsx:81-87 | marking the same id twice is marking it once |
| Notifications.MarkAllAsRead | src/context/NotificationContext.tsx:90-94 | every entry becomes read and nothing else changes |
| Notifications.AllReadMeansNoUnread | src/context/NotificationContext.tsx:51 | after marking all read the unread count is 0 |
| Notifications.UnreadCount | src/context/NotificationContext.tsx:51 | at most the number of notifications, and 0 exactly when all are read |
| Notifications.AddRaisesUnread | src/context/NotificationContext.tsx:51-66 | adding below the bound raises the unread count by one |
| Notifications.ClearNotifications | src/context/NotificationContext.tsx:97-99 | the list is empty and nothing is unread |
| Notifications.ScoreNotification | src/context/NotificationContext.tsx:105-112 | a score update gives an informational "Score Update" for that game, whose message starts with "Score changed in game " and ends with the game id |
| Notifications.NewsNotification | src/context/NotificationContext.tsx:116-125 | a news update gives an informational notification with the headline as title, the summary as message and the item's game |
| Notifications.UpdatesNotifyFirst | src/context/NotificationContext.tsx:54-66 | after a score or news update the newest notification is first, unread, informational and carries that update's game, title and message |
| Notifications.StatusNotification | src/context/NotificationContext.tsx:128-146 | a notification exactly for `LIVE` (success, "Game Started") and `FINAL` (info, "Game Ended"), each naming the game |
| Theme.Resolve | src/context/ThemeContext.tsx:48-51 | the shown theme is the system preference for `system` and the chosen theme otherwise |
| Theme.Opposite | src/context/ThemeContext.tsx:95-97 | the opposite of a shown theme is the other one |
| Theme.Toggle | src/context/ThemeContext.tsx:93-99 | toggling picks the opposite of the theme currently shown, never `system` |
| Theme.ToggleTwice | src/context/ThemeContext.tsx:93-99 | two toggles return to an explicit theme, and from `system` end at the theme the system prefers |
| Theme.ThemeVariables | src/context/ThemeContext.tsx:194-206 | each theme defines exactly the same set of CSS variables, with a white primary foreground in both |
| Theme.ContrastColor | src/context/ThemeContext.tsx:215-223 | a background naming `gray-` or `black` is dark and gets light text (gray-100 in the dark theme, white in the light one); any other gets gray-900 |
| GameDetail.Find | src/components/GameDetail.tsx:27 | a found game has the id and is the first such entry of the list (every earlier entry has another id); no game is found only when none has it |
| GameDetail.OnGameUpdates | src/components/GameDetail.tsx:26-31 | the shown game becomes the first list entry with this id when there is one, and the view is unchanged otherwise; stats and play-by-play are never touched |
| GameDetail.OnScoreUpdate | src/components/GameDetail.tsx:34-47 | for this game, once one is shown, exactly the two scores change; otherwise nothing does |
| GameDetail.OnStatusUpdate | src/components/GameDetail.tsx:50-66 | for the shown game: the status and game status become the new status, the time is replaced, the quarter changes only for a status starting with "Q", the time remaining falls back to the old one without a time; scores, id, stats and play-by-play stay |
| GameDetail.Totals | src/components/GameDetail.tsx:72-82 | total yards are passing plus rushing; turnovers are interceptions plus lost fumbles (0 when absent); a missing or empty possession time reads "00:00" |
| GameDetail.OnStatUpdate | src/components/GameDetail.tsx:69-96 | a stat update for this game replaces the stats with both teams' totals; any other changes nothing |
| GameDetail.OnNewsUpdate | src/components/GameDetail.tsx:99-103 | an item for this game goes first in play-by-play, which keeps its ten newest entries; other items change nothing |
| GameDetail.PlayByPlayBounded | src/components/GameDetail.tsx:101 | play-by-play never holds more than ten entries, whatever news arrives |
| GameDetail.LiveAndFinalTogether | src/components/GameDetail.tsx:158-159 | a game is both live and final exactly when one of its two status fields says `LIVE` and the other `FINAL` |
| GameDetail.StatusUpdateDecidesLiveness | src/components/GameDetail.tsx:50-66 | after a status update for the shown game it is live exactly when the new status is `LIVE` and final exactly when it is `FINAL` |
| Validation.RuleDefaults | src/utils/validation.ts:22-79 | without a message each of the ten builders gives its rule with its own default text, the length and range texts naming their bounds |
| Validation.ExplicitMessages | src/utils/validation.ts:22-79 | a given message is kept, even an empty one, by the builders with a default parameter; the minimum length, maximum length and range builders replace an empty message with their default text |
| Validation.DefaultParam | src/utils/validation.ts:23-66 | a default parameter replaces only a missing message |
| Validation.OrDefault | src/utils/validation.ts:30-55 | `message \|\| ...` replaces a missing or empty message |
| Validation.ToNumber | src/utils/validation.ts:44 | `Number()` is NaN for undefined and NaN, 0 for null and false, 1 for true, and a number itself |
| Validation.ToJsString | src/utils/validation.ts:39 | `String()` of a string is the string itself, and undefined, null and the booleans read as their names |
| Validation.LengthOf | src/utils/validation.ts:29-34 | reading `length` throws exactly on null and undefined; a string or an array gives its length |
| Validation.Accepts | src/utils/validation.ts:22-79 | a rule throws exactly when it is a length rule given null or undefined; every other rule gives a verdict |
| Validation.RequiredRejectsOnlyEmpty | src/utils/validation.ts:23-26 | `required` rejects exactly null, undefined and the empty string; 0 and false pass |
| Validation.BoundsInclusive | src/utils/validation.ts:28-56 | the minimum and maximum length and the numeric range all include their bounds |
| Validation.TeamCodeAndPosition | src/utils/validation.ts:58-66 | a team code is two or three capital letters ("KC" passes, "kc" and "ABCD" fail); a position is one of QB, RB, WR, TE, K, DEF |
| Validation.FieldErrors | src/utils/validation.ts:84-100 | at most one message per rule |
| Validation.FieldErrorsThrows | src/utils/validation.ts:90-94 | validating throws exactly when some rule throws on the value |
| Validation.FieldErrorsAppend | src/utils/validation.ts:90-94 | validating against two rule lists in a row reports the first list's messages, then the second's |
| Validation.FieldErrorsExact | src/utils/validation.ts:90-99 | no errors exactly when every rule accepts; every failing rule contributes its message and every message comes from a failing rule |
| Validation.FieldErrorsStep | src/utils/validation.ts:90-94 | one loop step: a throw propagates, an accepting rule adds nothing, a failing rule appends its message |
| Validation.ValidateField | src/utils/validation.ts:84-100 | the loop collects exactly the failing rules' messages in order, and the field is valid exactly when there are none |
| Validation.InitDistinct | src/utils/validation.ts:113 | distinct field names stay distinct in a prefix of the schema |
| Validation.ObjectValidity | src/utils/validation.ts:110-127 | the object is valid exactly when every field passes |
| Validation.ObjectErrorList | src/utils/validation.ts:111-128 | `errors` is every failing field's messages, concatenated in schema order |
| Validation.ObjectErrorsUnfold | src/utils/validation.ts:113-124 | one schema entry: a passing field changes nothing, a failing one records its messages under its name |
| Validation.ObjectFieldErrorKeys | src/utils/validation.ts:109-120 | `fieldErrors` has a key exactly for each failing field |
| Validation.FieldErrorKeysSound | src/utils/validation.ts:109-120 | every key of `fieldErrors` names a field whose rules failed |
| Validation.FieldErrorKeysComplete | src/utils/validation.ts:109-120 | every field whose rules failed has a key in `fieldErrors` |
| Validation.ObjectFieldErrorValues | src/utils/validation.ts:115-120 | with distinct field names each failing field's entry is its own error list |
| Validation.ObjectErrorsThrowExtends | src/utils/validation.ts:113-116 | a rule that throws on a prefix of the schema makes the whole validation throw |
| Validation.ValidateObject | src/utils/validation.ts:105-131 | the loop over the schema computes the object result field by field |
| Validation.WeekExamples | src/utils/validation.ts:176-180 | week 19 fails only the range rule; a missing week fails the required, number and range rules |
| Validation.ValidateApiResponse | src/utils/validation.ts:186-199 | the data comes back exactly when the validator accepts it; a rejection or a throw gives null |
| Validation.RemoveAngles | src/utils/validation.ts:241 | every `<` and `>` is removed and every other character kept |
| Validation.CollapseSpace | src/utils/validation.ts:242 | equals the reference `Squeeze(Blanked(s))`: every white-space character turned into a space, then every space that follows a space dropped, so each run becomes exactly one space; the other characters are exactly the input's, in order, and the text starts with white space exactly when the input does |
| Validation.SqueezeAfterSpace | src/utils/validation.ts:242 | a space before blanked text squeezes to that one space followed by the squeezed text with its leading white space removed, which is how one run collapses |
| Validation.CollapseInteriorRun | src/utils/validation.ts:242 | `"a \t b"` collapses to `"a b"`: a run of three white-space characters leaves one space and the letters stay |
| Validation.Blanked | src/utils/validation.ts:242 | the white-space replacement keeps the length, position by position |
| Validation.ConsNoAdjacent | src/utils/validation.ts:242 | a character put in front of a text keeps it free of two adjacent white-space characters, unless both are white space |
| Validation.CollapseNoAdjacent | src/utils/validation.ts:242 | the collapsed text never has two white-space characters in a row |
| Validation.SanitizeInputClean | src/utils/validation.ts:238-243 | the sanitised text has no angle bracket, no white space but plain spaces, and no two in a row |
| Validation.SanitizeInput | src/utils/validation.ts:238-243 | no angle bracket survives, the input's characters other than white space and brackets are all kept, in order, and the result is the trimmed, bracket-free text under the `Squeeze(Blanked(...))` reference, so each interior white-space run leaves exactly one space |
| Validation.Visible | src/utils/validation.ts:242 | the characters of a text other than white space: exactly those, in order |
| Validation.SanitizeNotIdempotent | src/utils/validation.ts:239-242 | sanitising "a <" gives "a ", which sanitises again to "a": removing a bracket after the trim can leave trailing space |
| Form.InitialState | src/components/ui/Form.tsx:71-81 | exactly the initial keys, each holding its initial value, untouched, unfocused and without error |
| Form.CheckValue | src/components/ui/Form.tsx:90-103 | a required field without a truthy value gets the required error and an optional one no error; a truthy value gets the first failing check's error, in the order minLength, maxLength, pattern, custom (the custom message only when non-empty); there is no error exactly when every applicable check passes |
| Form.ValidateField | src/components/ui/Form.tsx:83-112 | without rules the state is unchanged; otherwise the field keeps everything but its error, which becomes the first failing check, and no other field changes |
| Form.UpdateField | src/components/ui/Form.tsx:114-123 | the field takes the value and loses its error, keeps touched and focused, and no other field changes |
| Form.SetFieldTouched | src/components/ui/Form.tsx:125-138 | only the field's touched flag changes, and a validation is scheduled exactly when it is touched and has form rules |
| Form.SetFieldFocused | src/components/ui/Form.tsx:140-148 | only the field's focused flag changes |
| Form.IsValid | src/components/ui/Form.tsx:150 | a form without fields is valid, and a valid form shows no error on any field |
| Form.HasErrors | src/components/ui/Form.tsx:151 | a form no field of which is touched shows no errors, and one that shows errors is not valid |
| Form.FormData | src/components/ui/Form.tsx:163-166 | the submitted data maps every field name to its value |
| Form.UpdateFieldKeepsValid | src/components/ui/Form.tsx:114-123 | typing keeps a valid form valid and submits the typed value |
| Form.ValidateEmptyField | src/components/ui/Form.tsx:90-98 | a field without a value has an error after validation exactly when it is required |
| Form.TouchAndFocusKeepData | src/components/ui/Form.tsx:125-148 | touching and focusing change neither the submitted data nor validity |
| SettingsPage.Hyphenate | src/components/Settings.tsx:124 | inserting hyphens never shortens the name |
| SettingsPage.StorageKeyShape | src/components/Settings.tsx:124 | a storage key has no capital letters and one more character than the field name per capital |
| SettingsPage.StorageKey | src/components/Settings.tsx:124 | the key has no capital letters, and a field name without capitals is its own key |
| SettingsPage.HyphenateLength | src/components/Settings.tsx:124 | the hyphenated name has one extra character per capital letter |
| SettingsPage.HyphenateAppend | src/components/Settings.tsx:124 | the replacement works character by character, so it distributes over concatenation |
| SettingsPage.HyphenatePlain | src/components/Settings.tsx:124 | a name without capitals is left as it is |
| SettingsPage.ToLowerAppend | src/components/Settings.tsx:124 | lower-casing distributes over concatenation |
| SettingsPage.ToLowerPlain | src/components/Settings.tsx:124 | lower-casing leaves a name without capitals as it is |
| SettingsPage.TwoWordKey | src/components/Settings.tsx:124 | a two-word camel-case name becomes its words joined by a hyphen, in lower case |
| SettingsPage.ThreeWordKey | src/components/Settings.tsx:124 | a three-word camel-case name becomes its words joined by hyphens, in lower case |
| SettingsPage.StorageKeyAppend | src/components/Settings.tsx:124 | the key of two joined names is the two keys joined, since the rewrite works character by character |
| SettingsPage.ReduceMotionKey | src/components/Settings.tsx:124 | `reduceMotion` is written as "reduce-motion" |
| SettingsPage.HighContrastKey | src/components/Settings.tsx:124 | `highContrast` is written as "high-contrast" |
| SettingsPage.LargeTextKey | src/components/Settings.tsx:124 | `largeText` is written as "large-text" |
| SettingsPage.ScreenReaderKey | src/components/Settings.tsx:124 | `screenReaderOptimized` is written as "screen-reader-optimized" |
| SettingsPage.KeyboardNavigationKey | src/components/Settings.tsx:124 | `keyboardNavigation` is written as "keyboard-navigation" |
| SettingsPage.AccessibilityKeyValues | src/components/Settings.tsx:123-124 | the five keys the accessibility form writes |
| SettingsPage.LeagueKey | src/components/Settings.tsx:221 | `league` is written as "fantasy-league" |
| SettingsPage.ScoringSystemKey | src/components/Settings.tsx:221 | `scoringSystem` is written as "fantasy-scoring-system" |
| SettingsPage.RosterSizeKey | src/components/Settings.tsx:221 | `rosterSize` is written as "fantasy-roster-size" |
| SettingsPage.WaiversDayKey | src/components/Settings.tsx:221 | `waiversDay` is written as "fantasy-waivers-day" |
| SettingsPage.WrittenAccessibilityKeysValue | src/components/Settings.tsx:123-124 | the written accessibility keys, which are pairwise distinct |
| SettingsPage.LoadAccessibilityAt | src/components/Settings.tsx:113-119 | every flag is off unless stored as "true", except keyboard navigation, which is on unless stored as "false"; an empty store gives the defaults |
| SettingsPage.AccessibilitySaveLoad | src/components/Settings.tsx:113-124 | saving and loading under the same distinct keys gives the preferences back |
| SettingsPage.AccessibilityLoadMismatched | src/components/Settings.tsx:113-124 | reading one flag from a key nothing wrote loses only that flag |
| SettingsPage.LoadAccessibility | src/components/Settings.tsx:113-119 | an empty store gives every flag off except keyboard navigation |
| SettingsPage.ScreenReaderFlagLost | src/components/Settings.tsx:117 | as written, a saved screen-reader flag reads back as off, while the other four flags survive |
| SettingsPage.LoadAccessibilityFixed | src/components/Settings.tsx:113-119 | the reader with the written keys keeps the same defaults |
| SettingsPage.AccessibilityRoundTrip | src/components/Settings.tsx:113-124 | with the written keys every saved preference reads back |
| SettingsPage.WrittenFantasyKeysValue | src/components/Settings.tsx:220-221 | the four keys the fantasy form writes |
| SettingsPage.WrittenFantasyKeysDistinct | src/components/Settings.tsx:220-221 | the four written fantasy keys are pairwise distinct |
| SettingsPage.LoadFantasyAt | src/components/Settings.tsx:198-203 | an empty store gives league "", scoring "standard", roster "16" and waivers "wednesday" |
| SettingsPage.FantasySaveLoad | src/components/Settings.tsx:198-221 | saving and loading under the same distinct keys gives back every non-empty setting |
| SettingsPage.FantasyLoadMismatched | src/components/Settings.tsx:198-221 | reading the scoring system from a key nothing wrote gives "standard" |
| SettingsPage.LoadFantasy | src/components/Settings.tsx:198-203 | the defaults of the fantasy settings as the page reads them |
| SettingsPage.ScoringSystemLost | src/components/Settings.tsx:200 | as written, a saved scoring system reads back as "standard" |
| SettingsPage.ScoringReadKeyUnwritten | src/components/Settings.tsx:200-221 | the key "fantasy-scoring" is none of the four written keys |
| SettingsPage.LoadFantasyFixed | src/components/Settings.tsx:198-203 | the reader with the written keys keeps the same defaults |
| SettingsPage.FantasyRoundTrip | src/components/Settings.tsx:198-221 | with the written keys every saved non-empty fantasy setting reads back |
| SettingsPage.RefreshIntervalError | src/components/Settings.tsx:63-68 | no error exactly when the text parses to a non-negative integer; otherwise the fixed message |
| SettingsPage.RosterSizeError | src/components/Settings.tsx:244-249 | no error exactly when the text parses to an integer from 10 to 20; otherwise the fixed message |
| SettingsPage.ValidatorsOnNumbers | src/components/Settings.tsx:63-68 | every rendered natural number passes the refresh check, and a roster size passes exactly from 10 to 20 |
| DataFetching.GetCachedData | src/hooks/useDataFetching.ts:72-88 | data is returned exactly when a key is given, an entry exists and has not expired; an expired entry is removed and every other case leaves the cache as it was |
| DataFetching.CheckStaleData | src/hooks/useDataFetching.ts:107-117 | stale only with a key and an entry, and then exactly when more than 80% of the cache duration has passed since the entry's stamp |
| DataFetching.SetCacheData | src/hooks/useDataFetching.ts:91-105 | without a key nothing changes; otherwise only that key's entry is written, stamped now and expiring after the cache duration |
| DataFetching.ExpiredIsStale | src/hooks/useDataFetching.ts:94-117 | with a positive duration an expired entry is always stale, since the stale threshold comes first |
| DataFetching.SetThenGet | src/hooks/useDataFetching.ts:72-118 | a stored entry reads back until it expires, is then removed, and is stale exactly after 80% of the duration |
| DataFetching.NoKeyNoCache | src/hooks/useDataFetching.ts:73-109 | without a cache key nothing is read, written or stale |
| DataFetching.InvalidateCache | src/hooks/useDataFetching.ts:260-267 | without a key nothing changes; otherwise only that key's entry is dropped and the data is marked stale |
| DataFetching.InvalidateThenMiss | src/hooks/useDataFetching.ts:260-267 | after invalidation that key misses, every other entry is kept, and the data is stale |
| DataFetching.ClearError | src/hooks/useDataFetching.ts:270-272 | only the error is cleared |
| DataFetching.FetchStart | src/hooks/useDataFetching.ts:148-176 | a disabled hook does nothing; an enabled one sends a request exactly when the cache has no fresh hit, and then is loading without error; a fresh hit shows the cached data, not stale, with its stamp |
| DataFetching.FetchData | src/hooks/useDataFetching.ts:148-241 | without a request the start state is the result; after one, loading has ended, an abort leaves the started state, and otherwise no error is shown exactly when one of the allowed, validated calls succeeded |
| DataFetching.RefetchAlwaysRequests | src/hooks/useDataFetching.ts:255-257 | refetching skips the cache, so an enabled hook always sends a request |
| DataFetching.WrappedFetch | src/hooks/useDataFetching.ts:179-203 | without a validator the fetched outcome passes through; with one, a result survives exactly when it is accepted and truthy, and is otherwise the "Invalid response format" error |
| DataFetching.RetryWithBackoff | src/hooks/useDataFetching.ts:121-145 | between 1 and retries + 1 calls, one wait fewer than calls; the outcome is the last call's; a failure means every allowed call was made |
| DataFetching.RetryHistory | src/hooks/useDataFetching.ts:121-145 | before retry i it waits the delay times 2 to the power of the attempt, and every call but the last failed |
| DataFetching.RetrySucceedsIffSomeCallDoes | src/hooks/useDataFetching.ts:121-145 | the retry succeeds exactly when one of the allowed calls succeeds |
| DataFetching.DefaultRetrySchedule | src/hooks/useDataFetching.ts:36-38 | with the defaults a call that always fails is made four times, waiting 1000, 2000 and 4000 ms, and its last error is rethrown |
| DataFetching.FetchSuccess | src/hooks/useDataFetching.ts:205-219 | unless aborted the result is shown fresh, stamped now and cached; loading ends either way |
| DataFetching.FetchFailure | src/hooks/useDataFetching.ts:221-240 | unless aborted the error is set ("Fetch failed" without a message); loading ends; shown data changes only to an unexpired cached entry, marked stale, when nothing was shown |
| DataFetching.SuccessThenFreshHit | src/hooks/useDataFetching.ts:148-219 | a fetch soon after a successful one sends no request and shows the same data, fresh |
| DataFetching.FreshHitSkipsRequest | src/hooks/useDataFetching.ts:152-165 | a fresh cache hit returns without a request and leaves the cache as it was |
| TabNavigation.FindIndex | src/components/ui/TabNavigation.tsx:61 | the first position holding the active id, or -1 exactly when no tab has it |
| TabNavigation.JsRem | src/components/ui/TabNavigation.tsx:63 | JavaScript's `%` agrees with the mathematical remainder on non-negative operands and stays strictly between -n and n |
| TabNavigation.NextIndex | src/components/ui/TabNavigation.tsx:59-63 | the arrow target always lies in [0, n) and, for an active tab in the list, is (current + direction + n) mod n |
| TabNavigation.HandleKeyDown | src/components/ui/TabNavigation.tsx:55-70 | Enter and Space emit the focused tab's id; an arrow emits the wrapped neighbour's id unless it is disabled (then nothing, no skipping); any other key emits nothing |
| TabNavigation.Click | src/components/ui/TabNavigation.tsx:85 | a click emits the tab's id exactly when the tab is enabled |
| TabNavigation.Attributes | src/components/ui/TabNavigation.tsx:78-80 | tabIndex is 0 and aria-selected true exactly for the active tab, -1 otherwise; the label is the aria label when given, else the label |
| TabNavigation.Render | src/components/ui/TabNavigation.tsx:74-90 | one button per tab, in order |
| TabNavigation.ExactlyActiveSelected | src/components/ui/TabNavigation.tsx:74-80 | with distinct ids exactly the active tab is focusable and selected |
| TabNavigation.FindIndexOfOwnId | src/components/ui/TabNavigation.tsx:61 | with distinct ids a tab's own id is found at its position |
| TabNavigation.RightThenLeft | src/components/ui/TabNavigation.tsx:59-68 | stepping right then left returns to the starting tab, wrap-around included |
| TabNavigation.ArrowFromMissingActive | src/components/ui/TabNavigation.tsx:61-63 | with no active tab in the list, right goes to the first tab and left to the second-to-last (the first when there is one) |
| Accessibility.DefaultSettings | src/services/accessibilityService.ts:375-383 | motion, contrast and screen-reader flags off, normal font size, keyboard navigation on |
| Accessibility.StoredSettings | src/services/accessibilityService.ts:363-370 | the stored settings when there are any, otherwise the defaults |
| Accessibility.Merge | src/services/accessibilityService.ts:388-389 | each supplied setting overrides, every other setting is kept |
| Accessibility.MergeLaws | src/services/accessibilityService.ts:388-389 | an empty update changes nothing, repeating an update changes nothing more, and two updates in a row are one combined update |
| Accessibility.ClassesFor | src/services/accessibilityService.ts:340-358 | a root class is added exactly for each setting that is on, and a font-size class for a non-normal size |
| Accessibility.Pressed | src/services/accessibilityService.ts:109-120 | the pressed modifiers, taken from the fixed list and no more of them |
| Accessibility.ModifiersInOrder | src/services/accessibilityService.ts:109-120 | the pressed modifiers are exactly the ones held down, each once, in the order Ctrl, Alt, Shift, Meta, and there are none only when no modifier is held |
| Accessibility.KeyComboShape | src/services/accessibilityService.ts:109-120 | with no modifier the combo is the bare key; with one it is longer and contains a '+', so it is never "Escape" or "F6" |
| Accessibility.KeyComboAlt | src/services/accessibilityService.ts:109-120 | Alt alone gives "Alt+" and the key, so Alt with 1 and 2 give "Alt+1" and "Alt+2" |
| Accessibility.RovingTarget | src/services/accessibilityService.ts:138-155 | the target stays within the items; Home goes to the first, End to the last; only the six navigation keys are handled |
| Accessibility.RovingRoundTrip | src/services/accessibilityService.ts:138-155 | right then left, and up then down, return to the start; right from the last wraps to the first and left from the first to the last |
| Accessibility.TabIndexes | src/services/accessibilityService.ts:160-163 | exactly the target item gets tabindex "0" and every other "-1" |
| Accessibility.RemoveListener | src/services/accessibilityService.ts:430 | removing a listener reference drops exactly that reference |
| Accessibility.DestroyKeepsKeydownListener | src/services/accessibilityService.ts:430 | the bound keydown handler survives `destroy`, which removes a different, unbound reference |
| Accessibility.AccessibilityService.constructor | src/services/accessibilityService.ts:21-36 | without a window only the stored settings are loaded; with one the live region (attached to the document), the four shortcuts and the keydown listener are set up, the system preferences switch motion and contrast on, and the root classes are applied |
| Accessibility.AccessibilityService.Announce | src/services/accessibilityService.ts:60-72 | a blank message or a missing live region changes nothing; otherwise the priority is set, the text cleared and the message queued |
| Accessibility.AccessibilityService.FireAnnouncementTimer | src/services/accessibilityService.ts:67-71 | the oldest queued message becomes the live text if the live region still exists |
| Accessibility.AccessibilityService.GetKeyCombo | src/services/accessibilityService.ts:109-120 | the modifiers in the order Ctrl, Alt, Shift, Meta, then the key, joined by "+" |
| Accessibility.AccessibilityService.HandleRovingTabindex | src/services/accessibilityService.ts:125-167 | outside the widget nothing happens; a handled key moving to a new item focuses it and makes exactly it tabbable; otherwise nothing changes |
| Accessibility.AccessibilityService.StoreFocus | src/services/accessibilityService.ts:237-242 | the focused element is pushed onto the history |
| Accessibility.AccessibilityService.RestoreFocus | src/services/accessibilityService.ts:244-251 | the most recent element is popped and focused only if it is still in the document |
| Accessibility.AccessibilityService.SkipTo | src/services/accessibilityService.ts:172-189 | a present landmark is focused and the move announced: with a live region the priority becomes polite, the text is cleared and the message queued, and without one the region is untouched; a missing landmark changes neither the focus nor the live region |
| Accessibility.AccessibilityService.CycleFocusableRegions | src/services/accessibilityService.ts:212-232 | from a region, focus moves to the next one with wrap-around and "Moved to" and its label are announced as `announce` does (polite priority, cleared text, queued message, when there is a live region); without an active region neither the focus nor the live region changes |
| Accessibility.AccessibilityService.HandleEscape | src/services/accessibilityService.ts:194-207 | with a modal open nothing changes; otherwise an empty history stays empty and nothing is focused, and a non-empty one loses its top element, which is focused only if it is still in the document |
| Accessibility.AccessibilityService.HandleGlobalKeydown | src/services/accessibilityService.ts:90-104 | a combo in the shortcut table runs its handler, with that handler's whole effect: Alt+1 and Alt+2 skip to the main or navigation landmark with their fixed messages, Escape does what `handleEscape` does, and F6 cycles the regions; it skips roving handling. Any other key goes to roving handling and leaves the focus and the live region alone. Settings, shortcuts and listeners never change |
| Accessibility.AccessibilityService.UpdateSettings | src/services/accessibilityService.ts:388-398 | the settings become the merge with the update and the classes of the new settings are added |
| Accessibility.AccessibilityService.GetSettings | src/services/accessibilityService.ts:403-405 | a copy equal to the current settings |
| Accessibility.AccessibilityService.Destroy | src/services/accessibilityService.ts:425-431 | the live region is detached from the document but the service still holds it, so the announce guard still passes; the listener list loses only the unbound reference |
| Accessibility.AccessibilityService.DestroyFixed | src/services/accessibilityService.ts:425-431 | the live region is detached but still held; removing the reference that was registered leaves no keydown listener and keeps every other |
| Accessibility.AnnounceAfterDestroy | src/services/accessibilityService.ts:60-72 | after `destroy` an announcement is still queued, and its timer still writes the text into the detached live region |
| Accessibility.UpdateThenGet | src/services/accessibilityService.ts:388-405 | reading after an update gives the merged settings, and an empty update gives the old ones |
| Accessibility.StoreThenRestore | src/services/accessibilityService.ts:237-251 | store then restore leaves the history as before and refocuses the element if it is still in the document |
| AccessibilityUtils.GenerateAriaAttributes | src/utils/accessibility.ts:21-47 | an attribute is present exactly when its config field is set (non-empty for the text fields, defined for the others), and carries that value unchanged |
| AccessibilityUtils.CreateSkipLink | src/utils/accessibility.ts:52-58 | the link points at "#" followed by the target id, shows the given text or the default one, and has the skip-link class |
| AccessibilityUtils.KeyOf | src/utils/accessibility.ts:75-112 | a recognised key is one of the nine listed key names |
| AccessibilityUtils.KeyOfKeyName | src/utils/accessibility.ts:75-112 | each of the nine keys is recognised by its own name |
| AccessibilityUtils.KeyboardNavigation | src/utils/accessibility.ts:63-114 | the default action is prevented exactly for the nine keys, and a handler is called exactly when its key's handler is configured |
| AccessibilityUtils.KeyboardNavigationDispatch | src/utils/accessibility.ts:74-113 | each listed key calls exactly its own handler, if any; any other key does nothing |
| AccessibilityUtils.TrapKeyDown | src/utils/accessibility.ts:182-199 | only Tab is handled: Tab on the last element moves to the first and Shift+Tab on the first to the last; otherwise nothing |
| AccessibilityUtils.TrapWraps | src/utils/accessibility.ts:182-199 | Tab wraps from last to first and Shift+Tab from first to last, and Tab elsewhere than on the last element does nothing |
| AccessibilityUtils.FocusTrap.constructor | src/utils/accessibility.ts:139-146 | no previous focus, no focusable elements, no listener |
| AccessibilityUtils.FocusTrap.Activate | src/utils/accessibility.ts:148-157 | remembers the focused element, collects the focusable ones, focuses the first if any, and starts listening |
| AccessibilityUtils.FocusTrap.Deactivate | src/utils/accessibility.ts:159-165 | stops listening and returns focus to the remembered element, if any |
| AccessibilityUtils.FocusTrap.HandleKeyDown | src/utils/accessibility.ts:182-199 | prevents the default and moves focus exactly when the trap's rule applies |
| AccessibilityUtils.ActivateThenDeactivate | src/utils/accessibility.ts:148-165 | a full cycle focuses the first element, then returns to the element focused before |
| AccessibilityUtils.AfterLastDashOfId | src/utils/accessibility.ts:207 | the counter is the text after the last dash of an id |
| AccessibilityUtils.IdsNeverRepeat | src/utils/accessibility.ts:205-208 | ids with different counters differ, whatever their prefixes |
| AccessibilityUtils.IdGenerator.constructor | src/utils/accessibility.ts:205 | the counter starts at 0 |
| AccessibilityUtils.IdGenerator.GenerateId | src/utils/accessibility.ts:206-208 | the counter goes up by one and the id is the prefix (default "component"), a dash and the new counter |
| AccessibilityUtils.TwoIds | src/utils/accessibility.ts:205-208 | two consecutive ids differ |
| Performance.IndexOfName | src/utils/performance.ts:47 | the position of the mark with that name, or none exactly when no mark has it |
| Performance.SetMark | src/utils/performance.ts:33 | `Map.set` replaces a mark of the same name in its place, or appends a new one; names stay distinct |
| Performance.Measured | src/utils/performance.ts:106 | a mark is kept exactly when it has a duration |
| Performance.MeasuredInOrder | src/utils/performance.ts:106 | the kept marks are a subsequence of the marks: their order is preserved |
| Performance.SlowestIndex | src/utils/performance.ts:114-116 | the first mark of maximal duration |
| Performance.GenerateReport | src/utils/performance.ts:105-129 | "no data" exactly when no mark has a duration; otherwise the count of measured marks, their total, the total divided by the count, and a slowest mark that no other mark exceeds and that is the first of that duration (every earlier measured mark is strictly faster) |
| Performance.UnmeasuredIgnored | src/utils/performance.ts:106-110 | a mark without a duration does not enter the report, and no marks give "no data" |
| Performance.TotalBounded | src/utils/performance.ts:112 | the total of durations is at most their count times any bound on them |
| Performance.AverageAtMostSlowest | src/utils/performance.ts:112-116 | the average never exceeds the slowest duration |
| Performance.MeanAtMostMax | src/utils/performance.ts:112-116 | the mean of the measured durations is at most the largest |
| Performance.MeanBounded | src/utils/performance.ts:112-116 | the mean of non-empty durations is at most any bound on them |
| Performance.PerformanceMonitor.constructor | src/utils/performance.ts:14-19 | no marks, and the given enabled flag |
| Performance.PerformanceMonitor.Mark | src/utils/performance.ts:24-39 | disabled, nothing changes; enabled, a mark started now is set under that name, replacing any earlier one |
| Performance.PerformanceMonitor.Measure | src/utils/performance.ts:44-74 | disabled or unknown name gives null and no change; otherwise the mark gets end time now and duration now minus its start, which is returned |
| Performance.PerformanceMonitor.GetPerformanceData | src/utils/performance.ts:79-81 | a mark with that name exactly when one exists |
| Performance.PerformanceMonitor.Clear | src/utils/performance.ts:93-100 | no marks remain |
| Performance.PerformanceMonitor.Report | src/utils/performance.ts:105-129 | the monitor reports "no data" exactly when none of its current marks has a duration; otherwise it summarises exactly its measured marks |
| Performance.MarkThenMeasure | src/utils/performance.ts:24-74 | marking then measuring returns the elapsed time, records it on the mark, and the report then has data |
| Leaderboard.Filter | src/components/PlayerStatsLeaderboard.tsx:244-259 | exactly the players with the category's stat defined (sacks or interceptions for defence), in input order |
| Leaderboard.Insert | src/components/PlayerStatsLeaderboard.tsx:245-264 | inserting adds exactly one player |
| Leaderboard.InsertPermutes | src/components/PlayerStatsLeaderboard.tsx:245-264 | inserting adds the player and loses none |
| Leaderboard.InsertLast | src/components/PlayerStatsLeaderboard.tsx:245-264 | after inserting, the last player is the new one or the old last one |
| Leaderboard.InsertKeepsSorted | src/components/PlayerStatsLeaderboard.tsx:245-264 | inserting into a list sorted by descending key keeps it sorted |
| Leaderboard.SortDesc | src/components/PlayerStatsLeaderboard.tsx:245-264 | sorting keeps the length |
| Leaderboard.SortDescCorrect | src/components/PlayerStatsLeaderboard.tsx:245-264 | the sort's result is in non-increasing key order and a permutation of its input |
| Leaderboard.WithKeySnoc | src/components/PlayerStatsLeaderboard.tsx:245-264 | the players with a given key in a list with one more player |
| Leaderboard.InsertStable | src/components/PlayerStatsLeaderboard.tsx:245-264 | inserting puts the player after every player with the same key |
| Leaderboard.SortStable | src/components/PlayerStatsLeaderboard.tsx:245-264 | sorting keeps players with equal keys in input order, as the stable `Array.prototype.sort` does |
| Leaderboard.InsertAt | src/components/PlayerStatsLeaderboard.tsx:245-264 | inserting at the position after the last key not below the player's gives the split list with the player in between |
| Leaderboard.InsertInPlace | src/components/PlayerStatsLeaderboard.tsx:245-264 | the in-place step inserts element i into the sorted prefix and leaves the rest of the array alone |
| Leaderboard.SortDescending | src/components/PlayerStatsLeaderboard.tsx:245-264 | the in-place sort of the array gives the sort function's result |
| Leaderboard.GetLeaderboardData | src/components/PlayerStatsLeaderboard.tsx:238-270 | filter, in-place sort and `slice(0, limit)`, equal to the leaderboard specification |
| Leaderboard.LeaderboardShape | src/components/PlayerStatsLeaderboard.tsx:238-270 | at most `limit` players, all with the stat, in non-increasing key order, each an input player and none twice, and a prefix of the sorted filtered list |
| Leaderboard.DefaultLeaderboard | src/components/PlayerStatsLeaderboard.tsx:30 | without a `limit` prop the leaderboard shows the five best players of the category, or all of them when there are fewer |
| Leaderboard.LeaderboardComplete | src/components/PlayerStatsLeaderboard.tsx:238-269 | with room for all of them every qualifying player is shown |
| Leaderboard.LeaderboardStable | src/components/PlayerStatsLeaderboard.tsx:245-265 | players with equal keys keep their input order |
| Leaderboard.GetStatValue | src/components/PlayerStatsLeaderboard.tsx:273-288 | yards and touchdowns of the category; for defence interceptions for CB and S and sacks for everyone else, with tackles |
| Leaderboard.MissingStatText | src/components/PlayerStatsLeaderboard.tsx:276 | a missing touchdown count is shown as "undefined" |
| ComparisonChart.MaxValue | src/components/TeamComparisonChart.tsx:24-26 | defined exactly for a non-empty chart, at least every team value, and equal to one of them |
| ComparisonChart.BarWidth | src/components/TeamComparisonChart.tsx:29-31 | a width exists exactly when the maximum is non-zero; a value between 0 and the maximum gets 0 to 100%, and the maximum itself 100% |
| ComparisonChart.GetBetterTeam | src/components/TeamComparisonChart.tsx:34-41 | none exactly on equal values; otherwise the larger value wins unless `higherIsBetter` is false (default true), then the smaller |
| ComparisonChart.RenderedBarsFit | src/components/TeamComparisonChart.tsx:72-118 | with non-negative values every bar is at most 100% wide, at most one bar of a row is highlighted, and a bar at the maximum shows its label |
| ComparisonChart.BetterTeamSymmetry | src/components/TeamComparisonChart.tsx:34-41 | swapping the values swaps the winner, flipping `higherIsBetter` flips it, and a missing flag means true |
| TeamComparison.Seed | src/components/TeamComparisonTool.tsx:53 | the sum of the first two character codes, the first alone for a one-character id, and NaN for an empty one |
| TeamComparison.StatsForSeed | src/components/TeamComparisonTool.tsx:58-81 | every generated stat lies in its range, e.g. passing yards 200 to 299 and turnovers 1 to 2 |
| TeamComparison.GenerateTeamStats | src/components/TeamComparisonTool.tsx:51-84 | the team with the stats of its id's seed; an empty id gives no numbers |
| TeamComparison.StatsDependOnTwoCharacters | src/components/TeamComparisonTool.tsx:51-84 | ids with the same first two characters get the same stats |
| TeamComparison.GetBetterTeam | src/components/TeamComparisonTool.tsx:118-125 | none exactly when a team is unselected or the values are equal; team 1 exactly when it is better in the chosen direction |
| TeamComparison.BetterTeamSymmetry | src/components/TeamComparisonTool.tsx:118-125 | swapping the values swaps the winner, and flipping the direction changes it |
| TeamComparison.ToolAgreesWithChart | src/components/TeamComparisonTool.tsx:118-125 | with both teams selected the tool and the chart pick the same winner |
| TeamComparison.RowFlags | src/components/TeamComparisonTool.tsx:248-249 | a row never highlights both teams, and highlights exactly the winner |
| TeamComparison.FindTeam | src/components/TeamComparisonTool.tsx:91 | a found team has the id and is the first such entry of the list (every earlier entry has another id); nothing is found only when no team has it |
| TeamComparison.SetSlot | src/components/TeamComparisonTool.tsx:99-112 | only the chosen slot changes |
| TeamComparison.LoadTeamStats | src/components/TeamComparisonTool.tsx:87-115 | a known id starts loading; an unknown id clears that slot and stops loading |
| TeamComparison.LoadComplete | src/components/TeamComparisonTool.tsx:96-106 | the delayed completion puts the generated stats in the chosen slot, leaves the other slot as it was, and turns loading off |
| TeamComparison.SelectKnownTeam | src/components/TeamComparisonTool.tsx:87-115 | selecting a listed team ends with its generated stats in that slot, the other slot untouched, and loading off |
| TeamComparison.HistoricalSeed | src/components/TeamComparisonTool.tsx:442 | defined for two non-empty ids, and then at most 9 |
| TeamComparison.GetHistoricalMatchups | src/components/TeamComparisonTool.tsx:438-461 | no matchups unless both teams are selected; otherwise three, each won by one of the two teams |
| TeamComparison.FirstAndThirdWinnersDiffer | src/components/TeamComparisonTool.tsx:447-457 | the first and third winners differ exactly when the two ids differ and are non-empty |
| DetailedPlayerStats.FloorInRange | src/components/DetailedPlayerStats.tsx:61 | `Math.floor(base + r * span)` with r in [0, 1) lies between base and base + span - 1, so the opponent index is always within the eight opponents |
| DetailedPlayerStats.WithPositionStats | src/components/DetailedPlayerStats.tsx:73-92 | filling in the position's statistics leaves the game's label, opponent, date and points as they were |
| DetailedPlayerStats.ComputePoints | src/components/DetailedPlayerStats.tsx:95-105 | the accumulator, which skips missing and zero statistics, ends at the scoring rule applied with every missing statistic counted as 0 |
| DetailedPlayerStats.GenerateGameLog | src/components/DetailedPlayerStats.tsx:55-112 | five games, game i built from the i-th round of draws and dated i weeks back |
| DetailedPlayerStats.PositionFields | src/components/DetailedPlayerStats.tsx:66-92 | each statistic is present exactly for the positions that record it; the opponent is one of the eight, the label is "vs " and the opponent, and game i is 7 i days back |
| DetailedPlayerStats.QuarterbackRanges | src/components/DetailedPlayerStats.tsx:73-78 | a quarterback's passing yards lie in 200-399, passing touchdowns 0-3, interceptions 0-2, rushing yards 0-39 and rushing touchdowns 0-1 |
| DetailedPlayerStats.ZeroStatsZeroPoints | src/components/DetailedPlayerStats.tsx:95-107 | a game with no non-zero statistic scores 0 points |
| DetailedPlayerStats.PointsMonotone | src/components/DetailedPlayerStats.tsx:95-105 | more of any statistic never lowers the points, and more interceptions never raise them |
| DetailedPlayerStats.Reverse | src/components/DetailedPlayerStats.tsx:122 | `reverse()` keeps the length |
| DetailedPlayerStats.ReverseIndex | src/components/DetailedPlayerStats.tsx:122 | element i of the reversed list is element n - 1 - i of the list |
| DetailedPlayerStats.GenerateTrendsFrom | src/components/DetailedPlayerStats.tsx:117-162 | the trend series pushed one by one are the position's series over the given log |
| DetailedPlayerStats.TrendsShape | src/components/DetailedPlayerStats.tsx:117-162 | three series for QB, RB, WR and TE and one otherwise, the first being fantasy points; each has one value per game, oldest game first |
| DetailedPlayerStats.GenerateTrends | src/components/DetailedPlayerStats.tsx:115-163 | the trends are those of a log generated afresh from their own round of draws |
| DetailedPlayerStats.RenderAsWritten | src/components/DetailedPlayerStats.tsx:165-166 | the table shows a log from one round of draws and the trends come from a second, independent log |
| DetailedPlayerStats.TrendCanDisagreeWithTable | src/components/DetailedPlayerStats.tsx:165-166 | two rounds of kicker draws for which the table's game scores 3 points and the trend's game 0 |
| DetailedPlayerStats.KickerPoints | src/components/DetailedPlayerStats.tsx:89-105 | a kicker scores three per field goal plus one per extra point |
| DetailedPlayerStats.GetRadarChartData | src/components/DetailedPlayerStats.tsx:168-197 | the entries pushed one by one are the position's radar entries |
| DetailedPlayerStats.RadarShape | src/components/DetailedPlayerStats.tsx:168-197 | six axes for QB, RB, WR and TE, none otherwise, each with a positive scale; yards per reception divides by one when there are no receptions and is 0 without receiving yards |
| DetailedPlayerStats.SpaceBeforeCapitals | src/components/DetailedPlayerStats.tsx:374 | `replace(/([A-Z])/g, ' $1')` never shortens the key |
| DetailedPlayerStats.CapitalizeFirst | src/components/DetailedPlayerStats.tsx:375 | `replace(/^./, toUpperCase)` keeps the length and every character after the first |
| DetailedPlayerStats.FormatKey | src/components/DetailedPlayerStats.tsx:373-375 | the label is at least as long as the key |
| DetailedPlayerStats.SpaceBeforeCapitalsAppend | src/components/DetailedPlayerStats.tsx:374 | the global replacement works character by character, so it distributes over concatenation |
| DetailedPlayerStats.NoCapitalsUnchanged | src/components/DetailedPlayerStats.tsx:374 | a key without capitals is left as it is |
| DetailedPlayerStats.SpaceBeforeEachCapital | src/components/DetailedPlayerStats.tsx:374 | every capital of the key is preceded by a space in the label, with the parts around it spaced independently |
| DetailedPlayerStats.SpacedLength | src/components/DetailedPlayerStats.tsx:374 | the spaced key is longer by exactly its number of capitals |
| DetailedPlayerStats.FormatKeyExample | src/components/DetailedPlayerStats.tsx:373-375 | "sackYds" is shown as "Sack Yds" |
| DetailedPlayerStats.FormatKeyCapitalized | src/components/DetailedPlayerStats.tsx:375 | a key starting with a lower-case letter gets a label starting with its capital |
| DetailedPlayerStats.SeasonGrid | src/components/DetailedPlayerStats.tsx:369-375 | no cell for an undefined value, a labelled cell for every defined one, and every cell comes from some entry with its value |
| DetailedPlayerStatsImproved.RenderMemoized | src/components/DetailedPlayerStatsImproved.tsx:17-152 | one round of draws makes the log and the trends are computed from that same log, so the fantasy series is the table's points, oldest first; the radar chart and the season grid are the improved ones |
| DetailedPlayerStatsImproved.RenderOptimized | src/components/DetailedPlayerStatsOptimized.tsx:208-340 | the same memoized log and trends as the improved view, with the original view's radar chart and season grid |
| DetailedPlayerStatsImproved.GetRadarChartDataImproved | src/components/DetailedPlayerStatsImproved.tsx:127-152 | the entries pushed one by one are the improved view's radar entries |
| DetailedPlayerStatsImproved.RadarDifferences | src/components/DetailedPlayerStatsImproved.tsx:127-152 | the improved radar has the original's axes and scales and differs only on one touchdown axis: passing touchdowns read from `touchdowns`, receiving touchdowns fixed at 0 |
| DetailedPlayerStatsImproved.SeasonGridImproved | src/components/DetailedPlayerStatsImproved.tsx:330-336 | only numeric values get cells, every numeric value gets its labelled cell, and every cell comes from an entry |
| DetailedPlayerStatsImproved.SeasonGridsAgree | src/components/DetailedPlayerStatsImproved.tsx:330-336 | the improved grid is the original grid minus its null cells, and the two are equal when no value is null |
| DetailedPlayerStatsImproved.ImprovedIsWithoutNulls | src/components/DetailedPlayerStatsImproved.tsx:330-336 | the improved grid is the original grid with its null cells dropped, cell for cell and in order |
| DetailedPlayerStatsImproved.WithoutNulls | src/components/DetailedPlayerStatsImproved.tsx:331 | keeps exactly the cells whose value is not null |
| DetailedPlayerStatsImproved.NoNullsKept | src/components/DetailedPlayerStatsImproved.tsx:331 | a grid without null cells is kept whole |
| NewsFeed.ByCategory | src/components/NewsFeed.tsx:113-115 | keeps exactly the items of the category, in their order |
| NewsFeed.ByTeam | src/components/NewsFeed.tsx:118-122 | keeps exactly the items whose team ids exist and include the team, in their order |
| NewsFeed.Matching | src/components/NewsFeed.tsx:111-122 | an item is kept exactly when it is in the list, has the category if one is given, and names the team if one is given |
| NewsFeed.FilterNews | src/components/NewsFeed.tsx:111-124 | the feed is a prefix of the matching items, as long as the limit allows when the limit is not negative |
| NewsFeed.FilterNewsSound | src/components/NewsFeed.tsx:111-124 | the feed shows items of the list in list order, each matching the category and team when those props are given: exactly the first `limit` matching items, or for a negative limit all but the last `-limit` |
| NewsFeed.DefaultFeed | src/components/NewsFeed.tsx:22 | without a `limit` prop the feed shows the first five matching items, and with no filter prop the first five of the list |
| NewsFeed.FilterNewsComplete | src/components/NewsFeed.tsx:111-124 | every item matching the given props is among the filtered items, all of them are shown when they fit the limit, and no item without team ids is shown once a team is given |
| NewsFeed.FiltersCommute | src/components/NewsFeed.tsx:111-122 | filtering by category then team gives the same list as team then category |
| NewsFeed.Bucket | src/components/NewsFeed.tsx:140-157 | seconds below 60, whole minutes below an hour, whole hours below a day, whole days otherwise, the seconds count is the difference itself, and the minute, hour and day counts are at least 1 and bounded by their unit |
| NewsFeed.BucketText | src/components/NewsFeed.tsx:143-157 | the text starts with the count and a space and ends in " ago" |
| NewsFeed.FormatRelativeTime | src/components/NewsFeed.tsx:137-158 | a date that does not parse reads "NaN day ago"; any other starts with its bucket's count; every text ends in " ago" |
| NewsFeed.BucketTextPlural | src/components/NewsFeed.tsx:143-157 | a count of 1 minute, hour or day reads in the singular, a larger count and any count of seconds in the plural |
| NewsFeed.FutureReadsAsNegativeSeconds | src/components/NewsFeed.tsx:140-143 | an item published after the clock reads as a negative number of seconds |
| NewsFeed.BucketMonotone | src/components/NewsFeed.tsx:142-157 | a longer elapsed time never lands in a smaller unit |
| NewsFeed.CategoryClass | src/components/NewsFeed.tsx:161-174 | each of the four named categories has its own badge and every other category the general one, in both directions |
| ImageOptimization.QueryParams | src/utils/imageOptimization.ts:38-43 | at most five parameters; a set width is the first, written in decimal; blur, when on, is the last and carries the radius (10 by default) |
| ImageOptimization.KeysAppend | src/utils/imageOptimization.ts:38-43 | the names of two runs of appends are the names of each run in turn |
| ImageOptimization.QueryParamsPresence | src/utils/imageOptimization.ts:21-43 | each parameter is appended exactly when its option is truthy or differs from its default (quality 80, format webp, no blur), always in the order w, h, q, f, blur; there are none exactly when every option is at its default |
| ImageOptimization.KeysSubsequence | src/utils/imageOptimization.ts:39-43 | whichever appends happen, their names keep the order w, h, q, f, blur |
| ImageOptimization.FlagMembers | src/utils/imageOptimization.ts:39-43 | a parameter's name is present exactly when its condition holds, and no name at all exactly when none holds |
| ImageOptimization.QueryString | src/utils/imageOptimization.ts:45 | the query string is empty exactly when no parameter was appended |
| ImageOptimization.QueryStringStartsWithFirst | src/utils/imageOptimization.ts:45 | the query string starts with `name=value` of the first parameter |
| ImageOptimization.OptimizedImageUrl | src/utils/imageOptimization.ts:31-46 | the URL always starts with the source and equals it exactly when the source is external or no parameter applies |
| ImageOptimization.GetOptimizedImageUrl | src/utils/imageOptimization.ts:17-47 | the method's URL is the model's optimized URL of the source and options |
| ImageOptimization.OptimizedImageUrlCases | src/utils/imageOptimization.ts:31-46 | an `http` source is returned unchanged, so is any source when no parameter applies, and otherwise the source gets `?` and the query string |
| ImageOptimization.GenerateSrcSet | src/utils/imageOptimization.ts:56-58 | no breakpoints give the empty string, one gives just its candidate, and more start with the first candidate and `, ` |
| ImageOptimization.DefaultSrcSet | src/utils/imageOptimization.ts:52-58 | with the default breakpoints a local image gets six candidates, the first is `src?w=320 320w`, and the srcset starts with it followed by `, ` |
| ImageOptimization.SrcSetEntryForm | src/utils/imageOptimization.ts:57 | a local source at width w reads `src?w=w ww`; width 0 is falsy, so it reads `src 0w` |
| ImageOptimization.SrcSetSnoc | src/utils/imageOptimization.ts:56-58 | one more breakpoint adds `, ` and its candidate at the end |
| ImageOptimization.InsertDesc | src/utils/imageOptimization.ts:72-74 | insertion adds one entry |
| ImageOptimization.InsertDescFacts | src/utils/imageOptimization.ts:72-74 | inserting into a descending list keeps it descending, adds exactly the entry, and the head is the larger of the entry and the old head |
| ImageOptimization.SortDesc | src/utils/imageOptimization.ts:72-74 | the sorted breakpoints are as many as the keys |
| ImageOptimization.SortDescFacts | src/utils/imageOptimization.ts:72-74 | the breakpoints come out in descending order and are a permutation of the keys |
| ImageOptimization.GenerateSizes | src/utils/imageOptimization.ts:72-82 | no breakpoints give the empty string (a lone undefined), and a single breakpoint gives just its size with no media query |
| ImageOptimization.SizeParts | src/utils/imageOptimization.ts:76-82 | one part per breakpoint, and a single (undefined) default part when there are none |
| ImageOptimization.SizePartsShape | src/utils/imageOptimization.ts:72-82 | every breakpoint but the smallest becomes a media query in descending order, and the smallest breakpoint's size is the last, default part |
| ImageOptimization.LastIsSmallest | src/utils/imageOptimization.ts:80 | the last of a descending list is its smallest breakpoint |
| ImageOptimization.DefaultSizesText | src/utils/imageOptimization.ts:64-83 | the default breakpoints give `(min-width: 1280px) 25vw, (min-width: 1024px) 33vw, (min-width: 768px) 50vw, 100vw` |
| ImageOptimization.DefaultSizeParts | src/utils/imageOptimization.ts:65-80 | the default breakpoints give three media queries, largest first, and `100vw` |
| ImageOptimization.JoinFour | src/utils/imageOptimization.ts:82 | joining four parts puts the separator between each pair |
| ImageOptimization.NatToStringLiterals | src/utils/imageOptimization.ts:78 | the default breakpoints print as 1280, 1024 and 768 |
| ImageOptimization.Split | src/utils/imageOptimization.ts:99 | `split(' ')` always yields at least one part |
| ImageOptimization.FirstLetters | src/utils/imageOptimization.ts:100-101 | at most one letter per part, each the first character of a non-empty part |
| ImageOptimization.WordStarts | src/utils/imageOptimization.ts:98-101 | at most one letter per character of the name, none of them a space |
| ImageOptimization.SplitJoin | src/utils/imageOptimization.ts:98-101 | joining the parts of the split name with spaces gives the name back |
| ImageOptimization.SplitLetters | src/utils/imageOptimization.ts:98-101 | the first letters of the parts are exactly the characters that start a word |
| ImageOptimization.Initials | src/utils/imageOptimization.ts:98-102 | the initials are the upper-cased characters that start each word of the name |
| ImageOptimization.EncodeChar | src/utils/imageOptimization.ts:105 | an unreserved character is kept and any other ASCII character becomes `%` and two hexadecimal digits that read back, high digit times 16 plus low digit, as the character's code |
| ImageOptimization.HexDigit | src/utils/imageOptimization.ts:105 | the digit for each value below 16 reads back as that value |
| ImageOptimization.EncodeUriComponent | src/utils/imageOptimization.ts:105 | a string of unreserved characters is left as it is |
| ImageOptimization.PlayerAvatarUrl | src/utils/imageOptimization.ts:88-108 | a non-empty custom URL is optimized with the options; otherwise the ui-avatars URL of the encoded initials with the width or 128 |
| ImageOptimization.TeamLogoUrl | src/utils/imageOptimization.ts:113-131 | the logo URL starts with the lower-cased code's logo path and `?w=` followed by the option's width or the size's |
| ImageOptimization.TeamLogoUrlWidth | src/utils/imageOptimization.ts:113-131 | the logo width is the option's width or the size's 32, 64 or 128 and is never 0, so the logo URL always carries `?w=` with that width first |
| StyleUtils.ClassName | src/utils/styleUtils.ts:9-13 | the class name starts with `team-colors-`; its length is that prefix, both colours (`#333` for a missing or empty one) and one dash, less one character for each colour holding a `#` |
| StyleUtils.RemoveFirstHash | src/utils/styleUtils.ts:13 | a colour without `#` is unchanged, and one with `#` loses exactly one character |
| StyleUtils.RemoveFirstHashSplit | src/utils/styleUtils.ts:13 | only the first `#` is removed, keeping everything before and after it |
| StyleUtils.ClassNameExamples | src/utils/styleUtils.test.ts:14-22 | no colours give `team-colors-333-333`, and `#ABCDEF` with no away colour gives `team-colors-ABCDEF-333` |
| StyleUtils.ClassNameInjective | src/utils/styleUtils.ts:13 | two pairs of `#` colours without dashes get the same class name only when they are the same pair |
| StyleUtils.HashColorStripped | src/utils/styleUtils.ts:9-13 | a `#` colour is kept and loses exactly its leading `#` |
| StyleUtils.DashSplit | src/utils/styleUtils.ts:13 | a dash-joined pair whose first part has no dash splits back into its parts |
| StyleUtils.DocumentHead.constructor | src/utils/styleUtils.ts:16 | a head starts without team style elements, with or without a document |
| StyleUtils.DocumentHead.CreateTeamColorStyles | src/utils/styleUtils.ts:5-40 | returns the class name; with a document and no element of that id it appends one with the pair's colours, otherwise the head is unchanged; ids stay unique and the id exists afterwards whenever there is a document |
| StyleUtils.CreateTwice | src/utils/styleUtils.test.ts:82-93 | two calls with the same colours return the same class name and append at most one element, leaving exactly one element with that id |

## Left out

- Real I/O is not modelled beyond its effect on the model's state. This covers the WebSocket constructor, `send` and `close`, `localStorage`, `matchMedia`, the browser Notification API, `PerformanceObserver`, `console` output and DOM element creation.
- Timers, promises, `Promise.race` timeouts and `AbortController` become pending flags and explicit fire, start, complete or fail methods; the team comparison's fixed 500 ms `setTimeout` is the LoadTeamStats and LoadComplete pair. Real scheduling and interleaving are not modelled.
- Randomness is a parameter. This covers the game-log draws and notification ids.
- The development simulator of the WebSocket service (`src/services/websocket.ts:322-538`) is left out, because it only generates random traffic.
- Each `notify*` fan-out calls every subscriber in order. A subscriber that throws would stop the fan-out, and that is not modelled, because callbacks are opaque ids that cannot throw.
- `disconnect` is modelled as written: it does not detach the old socket's close handler. No property claims that it suppresses reconnection.
- Floating-point presentation is left out:
  - fantasy points are exact reals without the `toFixed(1)`/`parseFloat` rounding;
  - chart geometry, trend-bar heights and CSS classes are not modelled;
  - NaN appears only where a branch depends on it, as a `None` value.
- `toLocaleDateString` and other `Intl` formatting are left out. A game date is a day number counted back from a `today` parameter.
- Number printing covers integers only. `toString` of a fraction and of NaN are not modelled.
- Strings are sequences of code points. The source works on UTF-16 code units, which agree with code points on the Basic Multilingual Plane.
- Case mapping is ASCII only.
- `encodeURIComponent` is modelled for ASCII only. `URLSearchParams` encoding is the identity, because every parameter value is digits or a format name.
- In `src/utils/validation.ts`, the e-mail regular expression, `new URL`, and `Number()`/`String()` on non-primitive values are host operations, passed in as a record of functions. A form rule's regular expression and custom validator are opaque predicates.
- `typeGuards`, `deepCloneAndValidate` and `createAsyncValidator` in `src/utils/validation.ts` are left out. They are guards over `unknown`, JSON cloning and promises, which have no counterpart in the modelled values.
- The form's `handleSubmit` gating (`src/components/ui/Form.tsx:153-170`) is left out, because it reads the validity from before the pending state update, an artefact of React's batching.
- `useConcurrentDataFetching` and the `refetchAll` wrapper in `src/hooks/useDataFetching.ts` are left out. They only fan out to independent single fetches.
- Several parts of the accessibility service are left out because they walk and change the live DOM, which the model reduces to opaque ids:
  - `trapFocus` and `getFocusableElements`, where the focus trap of `src/utils/accessibility.ts` is modelled instead;
  - `isVisible`;
  - `createDescription`;
  - the style side of `applySettings`, where only the root class list is modelled;
  - `detectPreferences`, where the media-query results are inputs.
- `announceToScreenReader` in `src/utils/accessibility.ts` is left out, because it only creates and removes a DOM node on a timer.
- `getAllMarks`, the higher-order component, the hooks, and the `measureAsync`/`measureSync`/`initWebVitals` wrappers in `src/utils/performance.ts` are left out. They are thin wrappers around `mark` and `measure` or browser APIs.
- Performance.PerformanceMonitor.Report: the report is a record of the measured count, the total, the average and the slowest mark. The text formatting of those numbers is not modelled.
- `getLazyImageProps` in `src/utils/imageOptimization.ts` is left out, because it only assembles attributes from the modelled URL builders.
- The mock news list and the leaderboard's mock players are not modelled. Both operations take the list as a parameter.
- The CSS text of the injected team-colour style element is kept as its two colours.
- `src/utils/styleUtils.test.ts` imports functions (`generateTeamColorClassName` and others) that `src/utils/styleUtils.ts` does not export. Only the test lines whose expectations match `createTeamColorStyles` are cited.
- TabNavigation.HandleKeyDown: requires a non-empty tab list, because a key event can only come from a rendered tab button.
- Accessibility.AccessibilityService.SkipTo: requires a non-blank announcement, because the source passes fixed messages.
- Accessibility.AccessibilityService.HandleEscape: the click on an open dialog's close button is not modelled, because it runs a handler of the page on a DOM element; only the early return is.
- StyleUtils.DocumentHead.CreateTeamColorStyles: `document.getElementById` searches the whole document, but the model searches only the style elements this function added, because other elements of the page are not modelled.
- Form.CheckValue: an object whose `length` field is not a number is treated as having no length, so its length checks pass; JavaScript would convert the field with `Number()` before comparing.

## Findings

| source | as written | input that shows it | evidently intended | confidence | as-written member | corrected member |
|---|---|---|---|---|---|---|
| src/components/Settings.tsx:117 | `screenReaderOptimized` is saved (line 124) under "screen-reader-optimized" but loaded from "screenreader-optimized" | save the accessibility form with `screenReaderOptimized` true, then load the form again: the flag reads false | load from the key the form writes, so every saved flag reads back | not executed | SettingsPage.ScreenReaderFlagLost | SettingsPage.AccessibilityRoundTrip |
| src/components/Settings.tsx:200 | `scoringSystem` is saved (line 221) under "fantasy-scoring-system" but loaded from "fantasy-scoring" | save the fantasy form with scoring "ppr", then load it again: it reads "standard" | load from "fantasy-scoring-system" | not executed | SettingsPage.ScoringSystemLost | SettingsPage.FantasyRoundTrip |
| src/services/accessibilityService.ts:430 | `destroy` removes `this.handleGlobalKeydown`, but the listener registered at line 78 is a different function, the result of `bind(this)` | construct the service and call `destroy`: the bound keydown listener is still registered, so the service's shortcuts still run | keep the bound function and remove that one | not executed | Accessibility.DestroyKeepsKeydownListener | Accessibility.AccessibilityService.DestroyFixed |
| src/components/DetailedPlayerStats.tsx:116 | `generateTrends` builds its own game log rather than using the one rendered at line 165, so the trend charts plot different games from the game-log table | a kicker whose table draws give one field goal (3 points) while the trend's draws give none (0 points) | compute the trends from the log the table shows, as the improved view does | not executed | DetailedPlayerStats.TrendCanDisagreeWithTable | DetailedPlayerStatsImproved.RenderMemoized |
