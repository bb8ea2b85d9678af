# Duels, leagues and sessions: a Dafny model of the web front end

This project models the React front end of a putting-practice service: the
pages and dialogs through which a player challenges others to duels, joins and
creates leagues, and browses past sessions, together with the HTTP client
helpers those pages call. The front end's own logic is modelled:

- how each duel row is derived from the viewer's role;
- which actions a row offers;
- how the duel list is split into the pending, active and completed tables;
- the subscription gates on creating duels, rematches and leagues;
- the form validation and the request bodies of the three dialogs;
- which session rows are locked for a free player;
- how `handleResponse` turns an HTTP response into a value or a thrown error.

Modules, one per source file:

| module | file |
|---|---|
| `Optional`, `Context` | the signed-in player and notification toast read from the authentication context |
| `Js` | the JavaScript semantics the pages rely on (truthiness, `??`, `String(x)`, `parseInt(x, 10)`, `trim`, `indexOf`) |
| `Api` | `webapp/src/api.js` |
| `Duels` | `webapp/src/components/DuelsPage.jsx` |
| `DuelModal` | `webapp/src/components/CreateDuelModal.jsx` |
| `LeagueModal` | `webapp/src/components/CreateLeagueModal.jsx` |
| `LeagueEditor` | `webapp/src/components/EditLeagueModal.jsx` |
| `Dashboard` | `webapp/src/components/Dashboard.jsx` |
| `SessionHistory` | `webapp/src/components/SessionHistoryPage.jsx` |
| `Leagues` | `webapp/src/components/LeaguesPage.jsx` |

Each page keeps its React state in place, so each page and dialog is a
`class` whose fields are its `useState` variables. Each handler is a method
with a `modifies` clause. The network is replaced by parameters:

- A handler receives the outcome of each awaited call as a `Settled` value: resolved with the data, or rejected with the error's message.
- Every call a page issues is appended to a `sent` log of `Request`s.
- Every `showNotification` toast is appended to a `notices` log.

`DuelsPage` and `LeaguesPage` are specified by pure transition functions on a
`PageState` value. Each handler's `ensures` ties the new state to the
transition of the old state, and the page's properties are lemmas about those
transitions.

## Model

| member | source | states |
|---|---|---|
| Js.Coalesce | webapp/src/components/Dashboard.jsx:12 | `a ?? b` is `a` unless `a` is null or undefined, and `b` otherwise |
| Js.OrElse | webapp/src/components/DuelsPage.jsx:143 | `err.message || fallback` is the message when it is non-empty and the fallback otherwise, so it is never empty when the fallback is not |
| Js.NatToString | webapp/src/components/DuelsPage.jsx:31 | the decimal text of a count is non-empty, all digits, and has no leading zero |
| Js.NatToStringRoundTrip | webapp/src/components/DuelsPage.jsx:31 | reading the digits of the rendered numeral gives the number back |
| Js.DigitPrefix | webapp/src/components/CreateDuelModal.jsx:114 | what `parseInt` reads is the longest run of digits at the head of the text |
| Js.DigitPrefixOfDigits | webapp/src/components/CreateDuelModal.jsx:114 | on a run of digits followed by a non-digit, `parseInt` stops exactly at the end of the run |
| Js.TrimEmptyIffBlank | webapp/src/components/CreateLeagueModal.jsx:22 | `!s.trim()` holds exactly when every character of `s` is whitespace |
| Js.ParseIntText | webapp/src/components/CreateDuelModal.jsx:114 | `parseInt(text, 10)` is always an integer or NaN |
| Js.ParseInt | webapp/src/components/CreateLeagueModal.jsx:29-32 | `parseInt(v, 10)` of any value is an integer or NaN |
| Js.ParseIntTextOfNumeral | webapp/src/components/EditLeagueModal.jsx:20-21 | `parseInt` of a text that starts with an integer's numeral and continues with a non-digit gives that integer back, for either sign |
| Js.ParseIntTextOfNegativeNumeral | webapp/src/components/EditLeagueModal.jsx:20-21 | the negative case: the minus sign is read and the value negated |
| Js.ParseIntTextNoDigit | webapp/src/components/EditLeagueModal.jsx:20 | a text that starts with a character that is not whitespace, a sign or a digit parses to NaN |
| Js.ParseIntOfString | webapp/src/components/DuelsPage.jsx:69 | `parseInt(v)` is `parseInt(String(v))`, and an integer comes back unchanged |
| Js.ContainsAt | webapp/src/api.js:8 | `indexOf(needle) !== -1` holds whenever the needle occurs at some position |
| Api.KeysLookupCons | webapp/src/api.js:101 | a body object with a member in front has that key first, and looking up that key finds that member |
| Api.HttpErrorMessageStatus | webapp/src/api.js:7 | the generic error message starts with "HTTP error! status: ", and the status can be read back from its tail |
| Api.HandleResponse | webapp/src/api.js:4-18 | a non-ok response always throws a non-empty message; the message is the JSON body's `error`, the parse-failure message, "An unknown error occurred", or the HTTP status message, and which one is used depends on the content type and the body; an ok response resolves with the parsed JSON or the text |
| Api.DefaultNumerals | webapp/src/api.js:98 | the default page and limit are written "1" and "25" |
| Api.PlayerSessionsUrlDefaults | webapp/src/api.js:98 | with page and limit left out, the URL is the one for page 1 with limit 25 |
| Api.PlayerSessionsUrlExplicit | webapp/src/api.js:98 | an explicit page and limit appear in the query as given |
| Api.StartSessionBody | webapp/src/api.js:100-107 | the body always carries `player_id`; `duel_id` and `league_round_id` are present, in that order, exactly when the arguments are truthy, and carry the values passed |
| Api.CreateDuelBody | webapp/src/api.js:133-142 | the body has the four keys in the written order, each carrying its argument |
| Api.NotificationsUrl | webapp/src/api.js:296-300 | the URL always starts with the limit/offset query, and a status filter is appended exactly when the status is truthy |
| Duels.OpponentId | webapp/src/components/DuelsPage.jsx:12 | for a participant of a two-player duel, the opponent is the other participant |
| Duels.OpponentName | webapp/src/components/DuelsPage.jsx:11 | the opponent's name is the other participant's name |
| Duels.OpponentScore | webapp/src/components/DuelsPage.jsx:13-14 | for a participant of a two-player duel, the opponent score is the score the opponent sees as their own "my score" |
| Duels.ScoresSwapWithRole | webapp/src/components/DuelsPage.jsx:10-14 | each player's "my score" and session-length column (`myDuration`, line 17) read their own fields, the two players see each other's scores mirrored, and each is the other's opponent |
| Duels.ActionGates | webapp/src/components/DuelsPage.jsx:15-16 | Accept/Decline is offered exactly to the invited player of a pending duel, and Start Session exactly when the duel is accepted and the viewer's own session is unset; the three actions exclude each other |
| Duels.RoundToMinutes | webapp/src/components/DuelsPage.jsx:30 | the minute count is within half a minute of the seconds, with halves rounded up |
| Duels.MinutesTextOfInt | webapp/src/components/DuelsPage.jsx:31 | the minutes label starts with the count and ends in "s" exactly when the count is not 1 |
| Duels.SessionLengthDisplay | webapp/src/components/DuelsPage.jsx:35-41 | open duels show the limit, or a dash when the limit is falsy; finished duels show the viewer's own rounded duration, or a dash when it is missing |
| Duels.SessionLengthExamples | webapp/src/components/DuelsPage.jsx:35-41 | a 10-minute limit reads "10 minutes", and 125 seconds played reads "2 minutes" |
| Duels.ExpirationContent | webapp/src/components/DuelsPage.jsx:44-58 | only a pending duel with a deadline shows one: a countdown when the deadline is at most 100 hours ahead, otherwise the date |
| Duels.ResultDate | webapp/src/components/DuelsPage.jsx:61-63 | the end time is shown exactly for completed, declined and expired duels |
| Duels.ResultText | webapp/src/components/DuelsPage.jsx:65-74 | empty unless completed; "Draw" iff there is no winner, "Won" iff the viewer won, "Lost" iff someone else won |
| Duels.OutcomeSymmetry | webapp/src/components/DuelsPage.jsx:65-74 | of two players at most one sees "Won"; a draw is a draw for both; the loser sees "Lost" |
| Duels.RowView | webapp/src/components/DuelsPage.jsx:76-99 | a row offers Decline and Accept exactly when it is the viewer's turn, Start Session and Rematch exactly under their gates, never more than two buttons, and the creator is never offered Accept; the badge is the viewer's result for a completed duel and the status name otherwise, never empty; the opponent link, "my score" and opponent score are the other player's name and id, the viewer's own score and the other's score (a dash when missing), by the viewer's role; the session-length cell is the viewer's session-length text; the completed table shows the result date and the others the expiration |
| Duels.WithStatus | webapp/src/components/DuelsPage.jsx:211-213 | the filter keeps exactly the duels whose status is wanted, and is no longer than the list |
| Duels.WithStatusAppend | webapp/src/components/DuelsPage.jsx:211-213 | filtering distributes over concatenation, so the order of the list is kept |
| Duels.WithStatusCount | webapp/src/components/DuelsPage.jsx:211-213 | the counts of filters for disjoint status sets add up to the count for their union |
| Duels.WithStatusAll | webapp/src/components/DuelsPage.jsx:210-214 | filtering for every status keeps the whole list |
| Duels.Categorize | webapp/src/components/DuelsPage.jsx:210-214 | pending, active and completed hold exactly the duels of their statuses; every duel except a declined one appears in a table; the three tables plus the declined duels account for the whole list |
| Duels.CategorizeAppend | webapp/src/components/DuelsPage.jsx:210-214 | the tables of a concatenated list are the concatenated tables |
| Duels.CreateNeedsSubscription | webapp/src/components/DuelsPage.jsx:127-134 | the create dialog opens only for a subscriber; anyone else gets the refusal toast and nothing else changes |
| Duels.FailedActionKeepsDuels | webapp/src/components/DuelsPage.jsx:158-199 | a failed accept, decline or rematch leaves the list and tables unchanged, sends only its request, and shows the error message |
| Duels.SuccessfulActionRefetches | webapp/src/components/DuelsPage.jsx:158-199 | a successful action shows its notice and then re-lists the viewer's duels |
| Duels.RematchNeedsSubscription | webapp/src/components/DuelsPage.jsx:179-182 | without a subscription a rematch sends nothing and only raises the refusal |
| Duels.RematchTargetsOpponent | webapp/src/components/DuelsPage.jsx:184-193 | a rematch challenges the other participant with the original expiry and duration |
| Duels.DuelsPage.constructor | webapp/src/components/DuelsPage.jsx:122-125 | empty list, loading, no error, dialog closed |
| Duels.DuelsPage.FetchDuels | webapp/src/components/DuelsPage.jsx:136-147 | nothing happens without a player id; otherwise the list is replaced on success, or kept with the message (or "Failed to load duels.") as the error |
| Duels.DuelsPage.HandleCreateDuelClick | webapp/src/components/DuelsPage.jsx:127-134 | a subscriber gets the dialog; anyone else gets the refusal toast |
| Duels.DuelsPage.HandleDuelCreated | webapp/src/components/DuelsPage.jsx:153-156 | the dialog closes and the list is fetched again |
| Duels.DuelsPage.HandleAccept | webapp/src/components/DuelsPage.jsx:158-166 | sends the accept, then toasts "Duel accepted!" and re-fetches, or toasts the error |
| Duels.DuelsPage.HandleReject | webapp/src/components/DuelsPage.jsx:168-176 | sends the reject, then toasts "Duel rejected." and re-fetches, or toasts the error |
| Duels.DuelsPage.HandleRematch | webapp/src/components/DuelsPage.jsx:178-199 | follows the rematch transition: the subscription gate, the request to the opponent, and the toast naming them |
| Duels.DuelsPage.HandleStartSession | webapp/src/components/DuelsPage.jsx:201-208 | starts a session for the duel, with no league round, and toasts the response or the error, without re-fetching |
| DuelModal.ExcludePlayer | webapp/src/components/CreateDuelModal.jsx:26 | the results keep exactly the hits that are not the viewer, are no longer than the hits, and change nothing when the viewer is absent |
| DuelModal.ExcludePlayerCons | webapp/src/components/CreateDuelModal.jsx:26 | the first hit is kept exactly when it is not the viewer, ahead of the filtered rest |
| DuelModal.ExcludePlayerAppend | webapp/src/components/CreateDuelModal.jsx:26 | the filter distributes over concatenation, so the kept hits stay in their order |
| DuelModal.DuelRequestBody | webapp/src/components/CreateDuelModal.jsx:56 | the create request's body carries the viewer, the typed search term as invitee, the expiry hours times 60, and the chosen duration |
| DuelModal.CreateDuelModal.constructor | webapp/src/components/CreateDuelModal.jsx:8-14 | empty search, no selection, 72 hours, 5 minutes, and submit disabled |
| DuelModal.CreateDuelModal.HandleSearchTermChange | webapp/src/components/CreateDuelModal.jsx:78-81 | typing replaces the term and clears the selection, which disables submit |
| DuelModal.CreateDuelModal.HandleExpiryChange | webapp/src/components/CreateDuelModal.jsx:114 | the expiry becomes `parseInt` of the input: an integer or NaN |
| DuelModal.CreateDuelModal.HandleDurationChange | webapp/src/components/CreateDuelModal.jsx:100 | the duration becomes the chosen option |
| DuelModal.CreateDuelModal.Search | webapp/src/components/CreateDuelModal.jsx:17-32 | a term under two characters clears the results and sends nothing; otherwise the search is sent, and the results become the hits without the viewer, or the error is set |
| DuelModal.CreateDuelModal.HandleSelectPlayer | webapp/src/components/CreateDuelModal.jsx:42-46 | the player is selected, their name fills the box, and the list closes |
| DuelModal.CreateDuelModal.HandleSubmit | webapp/src/components/CreateDuelModal.jsx:48-65 | an invalid form (no selection, or a non-positive or NaN limit) only sets the error; otherwise the request is sent, and then "Challenge Sent" closes the dialog, or the error is toasted |
| LeagueModal.LeagueSettings | webapp/src/components/CreateLeagueModal.jsx:28-35 | the settings have exactly the six keys; each of the four numbers is `parseInt` of its form field, so an integer or NaN; late joiners are as checked; members can invite in a public league, and as set in a private one |
| LeagueModal.SelectedOptionParses | webapp/src/components/CreateLeagueModal.jsx:67 | a select holding option `n`'s text parses back to `n` |
| LeagueModal.LeagueSettingsOfSelections | webapp/src/components/CreateLeagueModal.jsx:28-32 | values picked from the selects reach the settings as the integers shown |
| LeagueModal.DefaultSettings | webapp/src/components/CreateLeagueModal.jsx:9-15 | an untouched form sends 4 rounds of 168 hours, 5-minute sessions, a 24-hour start offset, late joiners allowed, and members not inviting |
| LeagueModal.NameMissingIsBlank | webapp/src/components/CreateLeagueModal.jsx:22 | the name counts as missing exactly when every character is whitespace |
| LeagueModal.NameMissingIsTrimEmpty | webapp/src/components/CreateLeagueModal.jsx:22 | the character-by-character check agrees with `!name.trim()` |
| LeagueModal.CreateLeagueModal.constructor | webapp/src/components/CreateLeagueModal.jsx:7-17 | the form's initial values |
| LeagueModal.CreateLeagueModal.SetName | webapp/src/components/CreateLeagueModal.jsx:52 | the name becomes the typed value |
| LeagueModal.CreateLeagueModal.SetDescription | webapp/src/components/CreateLeagueModal.jsx:56 | the description becomes the typed value |
| LeagueModal.CreateLeagueModal.SetPrivacy | webapp/src/components/CreateLeagueModal.jsx:61-62 | the privacy becomes one of the two radio values |
| LeagueModal.CreateLeagueModal.SelectNumRounds | webapp/src/components/CreateLeagueModal.jsx:67 | the select stores the option's text |
| LeagueModal.CreateLeagueModal.SelectStartOffset | webapp/src/components/CreateLeagueModal.jsx:73 | the select stores the option's text |
| LeagueModal.CreateLeagueModal.SelectRoundDuration | webapp/src/components/CreateLeagueModal.jsx:82 | the select stores the option's text |
| LeagueModal.CreateLeagueModal.SelectTimeLimit | webapp/src/components/CreateLeagueModal.jsx:93 | the select stores the option's text |
| LeagueModal.CreateLeagueModal.SetAllowLateJoiners | webapp/src/components/CreateLeagueModal.jsx:99 | the checkbox sets late joining |
| LeagueModal.CreateLeagueModal.HandleSubmit | webapp/src/components/CreateLeagueModal.jsx:19-43 | a blank name only sets "League name is required."; otherwise the create request carries the form's settings, and then the created callback fires, or the message (or the fallback) becomes the error |
| LeagueEditor.Setting | webapp/src/components/EditLeagueModal.jsx:7-8 | reading a missing setting gives undefined |
| LeagueEditor.MergeSettings | webapp/src/components/EditLeagueModal.jsx:18-22 | the new settings keep every other key as it was and replace the two schedule keys with `parseInt` of the form's values |
| LeagueEditor.MergeUntouched | webapp/src/components/EditLeagueModal.jsx:7-8 | saving an untouched form with integer settings sends the settings back unchanged |
| LeagueEditor.MergeReselected | webapp/src/components/EditLeagueModal.jsx:42 | re-selecting the options that show the current values also sends the settings back unchanged |
| LeagueEditor.MergeMissingSetting | webapp/src/components/EditLeagueModal.jsx:7 | a schedule setting the league lacks is sent as NaN |
| LeagueEditor.EditLeagueModal.constructor | webapp/src/components/EditLeagueModal.jsx:7-10 | the form starts from the league's two schedule settings |
| LeagueEditor.EditLeagueModal.SelectNumRounds | webapp/src/components/EditLeagueModal.jsx:42 | the select stores the option's text |
| LeagueEditor.EditLeagueModal.SelectRoundDuration | webapp/src/components/EditLeagueModal.jsx:48 | the select stores the option's text |
| LeagueEditor.EditLeagueModal.HandleSubmit | webapp/src/components/EditLeagueModal.jsx:12-32 | the update carries the merged settings; then the updated callback fires, or the error is set and is never empty |
| Dashboard.StatCardText | webapp/src/components/Dashboard.jsx:9-14 | a card shows "N/A" exactly for null or undefined, and the value otherwise |
| Dashboard.StatCardKeepsZero | webapp/src/components/Dashboard.jsx:12 | a zero count shows "0", although zero is falsy |
| Dashboard.CountOrZero | webapp/src/components/Dashboard.jsx:116 | a missing count counts as zero, and a present one as itself |
| Dashboard.TotalPutts | webapp/src/components/Dashboard.jsx:116 | the total is the makes plus the misses, a missing count adding 0 |
| Dashboard.AccuracyNotAvailableIff | webapp/src/components/Dashboard.jsx:117 | accuracy is "N/A" exactly when both counts are missing or zero |
| Dashboard.LockedRows | webapp/src/components/Dashboard.jsx:164 | a subscriber sees every row; anyone else sees only the first |
| Dashboard.Toggled | webapp/src/components/Dashboard.jsx:107 | toggling collapses the expanded row, or expands another row |
| Dashboard.ToggleTwice | webapp/src/components/Dashboard.jsx:106-108 | toggling a row twice leaves it collapsed when it was not expanded before, and expanded when it was |
| Dashboard.DashboardPage.constructor | webapp/src/components/Dashboard.jsx:19-22 | nothing expanded, no error, no toast |
| Dashboard.DashboardPage.HandleToggleExpand | webapp/src/components/Dashboard.jsx:106-108 | the expanded row is toggled |
| Dashboard.DashboardPage.HandleStartSessionClick | webapp/src/components/Dashboard.jsx:77-87 | starts a free session, with no duel and no round; success toasts the response, failure sets the error and toasts it |
| Dashboard.DashboardPage.HandleCalibrateClick | webapp/src/components/Dashboard.jsx:89-98 | starts calibration; success toasts the response, failure sets the error and toasts it |
| Dashboard.DashboardPage.HandleRefreshClick | webapp/src/components/Dashboard.jsx:100-104 | clears the error, asks for a refresh of the player, and toasts "Data refreshed!" at once |
| SessionHistory.SubscriberSeesAll | webapp/src/components/SessionHistoryPage.jsx:64 | a subscriber sees every row of every page |
| SessionHistory.FreeRowsLocked | webapp/src/components/SessionHistoryPage.jsx:64 | for a free player, the only unlocked row is the first row of page 1 |
| SessionHistory.FirstPageMatchesDashboard | webapp/src/components/SessionHistoryPage.jsx:64 | page 1 of the history locks the same rows as the dashboard |
| SessionHistory.SessionHistoryPage.constructor | webapp/src/components/SessionHistoryPage.jsx:13-17 | page 1 of 1, loading, no error |
| SessionHistory.SessionHistoryPage.HandlePageChange | webapp/src/components/SessionHistoryPage.jsx:38-40 | the page becomes the one asked for |
| SessionHistory.SessionHistoryPage.FetchSessions | webapp/src/components/SessionHistoryPage.jsx:19-36 | nothing happens without a route player id; otherwise the current page is requested, and the rows and page count are replaced, or kept with a non-empty error |
| SessionHistory.FetchUrl | webapp/src/components/SessionHistoryPage.jsx:25 | the fetch asks for the current page with the default limit of 25 |
| Leagues.InviteNotice | webapp/src/components/LeaguesPage.jsx:82 | the notice is "Invitation ", then the action, then "d successfully." |
| Leagues.InviteFailure | webapp/src/components/LeaguesPage.jsx:85 | the fallback is "Could not ", then the action, then " invite." |
| Leagues.DeclineNotice | webapp/src/components/LeaguesPage.jsx:37 | declining reads "declined" |
| Leagues.AcceptNotice | webapp/src/components/LeaguesPage.jsx:38 | accepting reads "acceptd", as the template is written |
| Leagues.Render | webapp/src/components/LeaguesPage.jsx:102-195 | the loading line shows exactly while loading; the error screen shows exactly when not loading and there is an error, and it carries the page's error message; otherwise the page draws its own three lists, with the create dialog exactly when its flag is set |
| Leagues.CreateNeedsSubscription | webapp/src/components/LeaguesPage.jsx:94-100 | the create dialog opens only for a subscriber; anyone else gets the refusal and nothing else changes |
| Leagues.JoinFailureShowsError | webapp/src/components/LeaguesPage.jsx:70-77 | a failed join keeps the lists and makes no further request, and the page shows only the error |
| Leagues.InviteFailureNotice | webapp/src/components/LeaguesPage.jsx:84-85 | a failed answer toasts the message, or the "Could not" fallback, as an error, and keeps the lists |
| Leagues.InviteSuccessRefetches | webapp/src/components/LeaguesPage.jsx:80-83 | a successful answer toasts the notice and re-lists the leagues |
| Leagues.LeagueCreatedClosesAndRefetches | webapp/src/components/LeaguesPage.jsx:89-92 | creating a league closes the dialog and re-lists the leagues |
| Leagues.ErrorIsSticky | webapp/src/components/LeaguesPage.jsx:53-64 | no fetch clears an error, so once the error screen shows, it stays |
| Leagues.LeaguesPage.constructor | webapp/src/components/LeaguesPage.jsx:48-51 | empty lists, loading, no error, dialog closed |
| Leagues.LeaguesPage.FetchLeagues | webapp/src/components/LeaguesPage.jsx:53-64 | follows the fetch transition |
| Leagues.LeaguesPage.HandleJoinLeague | webapp/src/components/LeaguesPage.jsx:70-77 | follows the join transition |
| Leagues.LeaguesPage.HandleInviteResponse | webapp/src/components/LeaguesPage.jsx:79-87 | follows the invitation transition |
| Leagues.LeaguesPage.HandleLeagueCreated | webapp/src/components/LeaguesPage.jsx:89-92 | follows the league-created transition |
| Leagues.LeaguesPage.HandleCreateLeagueClick | webapp/src/components/LeaguesPage.jsx:94-100 | follows the subscription-gated create transition |
| Leagues.LeaguesPage.CloseCreateModal | webapp/src/components/LeaguesPage.jsx:112 | closing the dialog changes only its flag |

## Left out

- `fetch`, the URL base taken from the build environment, HTTP headers, and `JSON.stringify`: a request is the call's name with its arguments, plus the body or URL builders in `Api`.
- `encodeURIComponent` in `apiSearchPlayers`: the search request records the raw term.
- The other endpoints of the client are not part of this model. Their bodies are built the same way.
- Timers: the 300 ms debounce of the duel search is left out, and the search is a method called with the term. The 4-second clearing of the dashboard toast is left out, and `CountdownTimer` is represented only by its end time.
- Dates and clocks: `new Date()` is the `now` parameter, and dates are milliseconds. `toLocaleDateString` formatting is not modelled.
- Floating point: the dashboard's accuracy percentage (`toFixed(1)`) is not modelled; only when it reads "N/A" is. `Math.round` is modelled on integral seconds.
- Rendering other than what is stated: CSS classes, links, the leaderboard card and its fetch, the password dialog, and the per-session row component.
- `App`, the authentication context, the session-selection dialog, and the notification context are not part of this model. The signed-in player and `showNotification` are inputs.
- Concurrency: each awaited call settles before the next handler runs, so overlapping fetches and stale state are not modelled.
- A handler on a page where `playerData` may be missing: the model requires a loaded player. In the source, reading `player_id` of null throws a TypeError inside the handler's `try`, and the `catch` turns it into an error toast in handleAccept, handleReject and handleStartSession (webapp/src/components/DuelsPage.jsx:158-207), into the page error in handleJoinLeague and into an error toast in handleInviteResponse (webapp/src/components/LeaguesPage.jsx:70-87). That caught path is not modelled.
- `null` and `undefined` are one case for optional fields of the server's records (`Option`). Duel statuses are the five known values.
- Duels.ResultText: a completed duel whose record lacks `winner_id` (undefined rather than null) reads "Lost" in the source, which tests `=== null`; the model, with one `None` for both, reads "Draw".
- Numbers are unbounded integers: JavaScript numbers are doubles, so ids, counts and long `parseInt` results above 2^53 lose precision in the source but not in the model.
- String lengths count characters, not UTF-16 code units. Map-valued settings have no key order.
- Dashboard.CountOrZero: counts are non-negative integers, so `count || 0` only needs to replace missing values and zero.
- LeagueModal.CreateLeagueModal.HandleSubmit: no control of the form changes `membersCanInvite`, so it stays false.
- Api.HandleResponse: a JSON error body of `null` makes the source throw a TypeError reading `error` of null; the model does not represent that body. Other non-object bodies (numbers, strings, arrays) read `error` as undefined and give 'An unknown error occurred', which the model covers as the payload `Json(Undefined)`.
- DuelModal.CreateDuelModal.HandleSelectPlayer: filling the box with the selected name triggers another debounced search in the source. The model leaves that search to an explicit call of `Search`.
