# miso-client: a Dafny model of the client's session logic

miso-client is the Next.js front end of a voice-companion service. A signed-in
user starts a LiveKit voice session from the dashboard and browses past
sessions, grouped by month, in the sidebar. This project models the parts of
the client that make decisions and proves what they promise:

- `ApiClient` (api_client.dfy) models the HTTP client of `src/lib/api.ts`:
  - how the headers are built, with the bearer credential present exactly
    when the token is truthy;
  - the request each method sends;
  - the `try`/`catch` that turns every outcome of `fetch` into an
    `ApiResponse` envelope holding `data` or `error`, never both.
- `ConnectionDetails` (connection_details.dfy) models the
  `useConnectionDetails` hook. It keeps one credential cell and treats a
  token as expired from one minute before its `exp` claim. It reuses the
  cached credential only while that credential is unexpired.
- `SessionGroups` (session_groups.dfy) models, on values, the month-merge
  done by `loadMoreSessions`, as a fold over the new page. It adds an
  independent description of the merged list (`Expected`) and proves the two
  equal. From that it proves:
  - positions and months are kept;
  - the first group of a month receives the new sessions;
  - new months are appended in page order;
  - no session is lost or duplicated.
- `AuthenticatedLayout` (authenticated_layout.dfy) models the layout's state
  cells as a class.
  - Month groups are objects, because `loadMoreSessions` writes
    `mergedSessions[i].sessions` in place, which changes the shared objects.
  - The in-place loop (`MergeGroups`) is proved to produce exactly the value
    fold of `SessionGroups`.
  - The mount-time authentication check is modelled as well.
- `Dashboard` (dashboard.dfy) models the dashboard page:
  - the authentication gate;
  - the room's Disconnected and MediaDevicesError handlers;
  - `handleSessionState`, whose state writes and external calls are returned
    in order as a log.
- `SessionView` (session_view.dfy) models:
  - agent availability;
  - the 20-second watchdog, as a class whose events are render, timer and
    unmount;
  - the two values handed to the sphere.

External effects are inputs or outputs of the model. These include `fetch`,
`response.text()`/`json()`, LiveKit's room, `getUserMedia`, `localStorage`,
`JSON.parse`, `decodeJwt`, the clock, `window.alert` and router navigation.
What a call produced is a parameter. What the code asks for (a page request,
a route, an alert, a connect) is a result or a log entry.

Some facts about the code are modelled as written:

- `getUserSessions` is called by the layout but is not defined in
  `src/lib/api.ts`. What that call produced is therefore an input: an
  envelope plus whatever `status` property it carries, or a throw. Envelopes
  built by `src/lib/api.ts` never carry a status, so the 401 redirect at
  `src/components/AuthenticatedLayout.tsx:34` is never taken for them
  (`EnvelopeIsNeverUnauthorized`).
- With the client of `src/lib/api.ts` as it stands, `apiClient.getUserSessions`
  is `undefined`. Calling it at `src/components/AuthenticatedLayout.tsx:31` and
  `:82` raises a TypeError inside the `try`, so `CallOutcome.Threw` is the only
  outcome that can actually occur there. On that outcome the layout only ends
  its loading state and never sets `isAuthenticated`, so it renders nothing.
  `loadMoreSessions` then never merges a page. The model still covers every
  outcome, for a client that does define the call.
- `createSession` is called with no arguments from both the dashboard and
  the hook. No Authorization header is sent, and the body is `{}`
  (`CreateSessionWithoutArguments`, `Dashboard.CreateRequest`).
- The watchdog's reason strings keep the trailing space they have in the
  source. The reason is only logged: the alert always reads "Agent timeout".
- When the microphone enable fails after `room.connect` succeeded, the
  `catch` alerts and clears `isConnecting` but does not disconnect. The room
  stays connected while `sessionStarted` is unchanged.

## Model

| member | source | states |
|---|---|---|
| ApiClient.BaseUrl | src/lib/api.ts:1 | the configured base URL when it is truthy, otherwise `http://localhost:8000`; never empty |
| ApiClient.AuthHeaders | src/lib/api.ts:39-49 | `Content-Type: application/json` is always present; `Authorization` is present iff the token is truthy, and then equals `Bearer ` followed by the token; there are no other keys |
| ApiClient.SignIn | src/lib/api.ts:51-57 | POST to `/auth/signin` with the credentials as body; the headers are exactly the JSON content type, so no Authorization header |
| ApiClient.SignUp | src/lib/api.ts:71-77 | POST to `/auth/signup` with the credentials as body; the headers are exactly the JSON content type, so no Authorization header |
| ApiClient.CreateSession | src/lib/api.ts:91-97 | POST to `/api/create-session` with the headers for the given token; the body is the request, or `{}` when none is given |
| ApiClient.GetSessionHistory | src/lib/api.ts:111-116 | GET of `/api/session-history` with the headers for the token and no body |
| ApiClient.ThrownMessage | src/lib/api.ts:66-68 | an `Error` gives its message; anything else thrown gives `Unknown error` |
| ApiClient.Envelope | src/lib/api.ts:52-68 | `data` is present iff the response was ok and its body parsed, and then it is the parsed body; a non-ok response gives its body text as `error`; a rejection at any await gives the thrown message as `error` |
| ApiClient.EnvelopeIsExclusive | src/lib/api.ts:3-6 | every envelope holds exactly one of `data` and `error`, and nothing else (no status) |
| ApiClient.EmptyErrorBodyIsFalsy | src/lib/api.ts:59-62 | a non-ok response with an empty body gives `{error: ""}`, which callers that test `if (response.error)` take as no error |
| ApiClient.AuthorizationOnlyWithToken | src/lib/api.ts:44-46 | for `createSession` and `getSessionHistory`, the request carries Authorization iff the token is truthy |
| ApiClient.CreateSessionWithoutArguments | src/lib/api.ts:91-96 | `createSession()` without arguments sends only the content type, with body `{}` |
| ConnectionDetails.TruthyExp | src/hooks/useConnectionDetails.ts:55-58 | the `!jwtPayload.exp` test: an absent claim and the claim 0 are falsy, and `IsExpired` then reports expired |
| ConnectionDetails.ExpiresAt | src/hooks/useConnectionDetails.ts:59 | the expiry instant plus one minute is the `exp` claim in milliseconds |
| ConnectionDetails.IsExpired | src/hooks/useConnectionDetails.ts:49-63 | no details, or an empty token, means expired; a decode failure is passed on; otherwise the result is "not expired" iff `exp` is truthy and `now` is before `exp*1000 - 60000` |
| ConnectionDetails.ExpiresOneMinuteEarly | src/hooks/useConnectionDetails.ts:6 | with a truthy `exp`, the result is exactly `exp*1000 - 60000 <= now` |
| ConnectionDetails.ExpiryIsMonotone | src/hooks/useConnectionDetails.ts:59-62 | details expired at `now` are expired at every later instant |
| ConnectionDetails.FetchResult | src/hooks/useConnectionDetails.ts:22-45 | success iff the envelope has no truthy error and has data, and then exactly `{room_name, token, session_id}`; a truthy error is rethrown with its message; missing data gives `No session data received` |
| ConnectionDetails.ConnectionDetailsHook.constructor | src/hooks/useConnectionDetails.ts:17 | the cell starts as null |
| ConnectionDetails.ConnectionDetailsHook.FetchConnectionDetails | src/hooks/useConnectionDetails.ts:19-46 | the cell is cleared first; on success it holds exactly the returned details; on failure it stays null |
| ConnectionDetails.ConnectionDetailsHook.ExistingOrRefresh | src/hooks/useConnectionDetails.ts:65-71 | a fetch is made iff the cached details are expired; otherwise the cached details are returned unchanged and are unexpired, or the decode failure is passed on |
| SessionGroups.MergeMonth | src/components/AuthenticatedLayout.tsx:90-104 | one `forEach` iteration on values: the first group with the month key gets the new sessions appended (`MergeMonthUpdates`), or the month is pushed when no group has its key (`MergeMonthPushes`); `MergeMonthKeepsSessions` proves it neither loses nor duplicates a session |
| SessionGroups.MergeMonthUpdates | src/components/AuthenticatedLayout.tsx:95-100 | when the first group with the key is at position `i`, only that group changes, and its sessions become its old ones followed by the new ones |
| SessionGroups.MergeMonthPushes | src/components/AuthenticatedLayout.tsx:101-104 | a month whose key no group has is pushed unchanged at the end |
| SessionGroups.MergePage | src/components/AuthenticatedLayout.tsx:88-105 | the `forEach` over the page, one month after the other, from a copy of the list; what it computes is stated by `MergePageIsExpected` and `MergePageProperties`, and `MergeKeepsEverySession` proves that no session is lost or duplicated |
| SessionGroups.FirstIndex | src/components/AuthenticatedLayout.tsx:91-93 | the first position holding the key, with no earlier occurrence; -1 iff the key does not occur |
| SessionGroups.NewMonthsKeys | src/components/AuthenticatedLayout.tsx:101-104 | the months pushed are exactly the page's months that the list lacked, each once |
| SessionGroups.MergePageIsExpected | src/components/AuthenticatedLayout.tsx:88-105 | the `forEach` fold equals the independent description: every existing group in place with what it received, then one group per new month holding all that month's new sessions |
| SessionGroups.MergePageProperties | src/components/AuthenticatedLayout.tsx:88-104 | existing groups keep their positions and months; groups whose month is not on the page are unchanged; the first group of a month gets its old sessions followed by the page's sessions of that month; later duplicates are unchanged; appended months are those the list lacked, in page order |
| SessionGroups.MergeKeepsEverySession | src/components/AuthenticatedLayout.tsx:88-105 | the merged list holds the old sessions plus the page's sessions as a multiset, so the count is the old total plus the page's total |
| AuthenticatedLayout.MonthGroup.constructor | src/components/AuthenticatedLayout.tsx:85-100 | a parsed month-group object holds the key, name and sessions it was built from; `sessions` is its only field that is written in place, at :97-100 |
| AuthenticatedLayout.PageGroups | src/components/AuthenticatedLayout.tsx:54 | `sessions_by_month \|\| []` of a returned envelope with data, which `CheckAuthAndFetchData` stores and `LoadMoreSessions` merges (:85) |
| AuthenticatedLayout.Unauthorized | src/components/AuthenticatedLayout.tsx:34 | the guard `error && status === 401`: a truthy error and a status of 401 on a returned envelope; `EnvelopeIsNeverUnauthorized` shows that no envelope built by the client meets it |
| AuthenticatedLayout.EnvelopeIsNeverUnauthorized | src/components/AuthenticatedLayout.tsx:34 | an envelope without a status never triggers the 401 redirect |
| AuthenticatedLayout.AppendSessions | src/components/AuthenticatedLayout.tsx:97-100 | the group at the index gets its sessions followed by the new ones; every other group in the list keeps its value |
| AuthenticatedLayout.MergeStep | src/components/AuthenticatedLayout.tsx:90-104 | one iteration: the list's values become the value fold step for the new group; either the same objects (one extended in place) or the new object pushed at the end; no object occurs twice |
| AuthenticatedLayout.MergeGroups | src/components/AuthenticatedLayout.tsx:88-105 | the merged objects hold exactly the value fold of the old values over the page; the copied list is a prefix of the result; appended objects come from the page; no object occurs twice |
| AuthenticatedLayout.Layout.constructor | src/components/AuthenticatedLayout.tsx:18-23 | loading, not authenticated, no user, no sessions, no pagination, not loading more |
| AuthenticatedLayout.Layout.CheckAuthAndFetchData | src/components/AuthenticatedLayout.tsx:28-71 | asks for page 1 of size 10; redirects to sign-in iff the call returned and either the 401 test holds or no user is cached; a cached user that parses gives authenticated with that user, and with `sessions_by_month \|\| []` and `pagination \|\| null` from the data, or `[]` and null without data; a throw or a parse failure changes nothing but loading; loading ends on every path |
| AuthenticatedLayout.Layout.LoadMoreSessions | src/components/AuthenticatedLayout.tsx:76-115 | without pagination, without `has_next`, or while loading more: no request and nothing changes; otherwise asks for `current_page + 1` with size 10; with data, the list's values become the merge of the old values and the page, its old objects stay in front, and pagination is the page's; without data nothing changes; `loadingMore` is false at the end |
| Dashboard.CreateRequest | src/app/dashboard/page.tsx:99 | the create-session request the dashboard sends is a POST to `/api/create-session` whose headers are exactly the JSON content type (no Authorization) and whose body is `{}` |
| Dashboard.DashboardPage.constructor | src/app/dashboard/page.tsx:18-26 | not authenticated, no user, sidebar closed, no session, not connecting |
| Dashboard.DashboardPage.CheckAuthentication | src/app/dashboard/page.tsx:46-58 | redirects iff the token or the user entry is missing or empty, and then authentication and user are unchanged; otherwise authenticated, with the parsed user, or a parse throw that leaves the user unchanged |
| Dashboard.DashboardPage.OnDisconnected | src/app/dashboard/page.tsx:29-33 | both `sessionStarted` and `isConnecting` become false |
| Dashboard.DashboardPage.OnMediaDevicesError | src/app/dashboard/page.tsx:34-36 | neither flag changes |
| Dashboard.AttemptLog | src/app/dashboard/page.tsx:93-122 | the exact log of the `try` block after permission, for each of its five endings: no server URL (alert only), an error or no data in the envelope (request, alert), a rejected connect (request, connect, alert), a rejected microphone enable (request, connect, enable, alert), and success (request, connect, enable, `sessionStarted`); each ends with the spinner cleared |
| Dashboard.StartLog | src/app/dashboard/page.tsx:81-122 | the start branch: spinner on, sidebar closed, the microphone prompt, then the permission alert, or the stopped tracks followed by `AttemptLog` |
| Dashboard.StartLogFrame | src/app/dashboard/page.tsx:83-87 | the spinner is set and the sidebar closed before anything leaves the page, and the start branch always ends by clearing the spinner |
| Dashboard.StartLogAlerts | src/app/dashboard/page.tsx:87-90 | a denied microphone gives exactly the permission alert and the cleared spinner; any later failure alerts `Failed to start session` just before that; success gives exactly request, connect, enable, `sessionStarted`, spinner cleared |
| Dashboard.StartLogCalls | src/app/dashboard/page.tsx:93-109 | the create-session request is sent iff the microphone was granted and the server URL is truthy; `room.connect` is called iff every check before it passes |
| Dashboard.StartLogOnce | src/app/dashboard/page.tsx:99 | at most one create-session request per start, and the start branch never disconnects the room, so a failed microphone enable leaves it connected |
| Dashboard.StartLogReportsSuccess | src/app/dashboard/page.tsx:116 | the log reports `sessionStarted` true exactly when every step succeeded, and never reports it false |
| Dashboard.DashboardPage.AttemptStart | src/app/dashboard/page.tsx:93-122 | its log is exactly `AttemptLog`; `sessionStarted` becomes true when every step succeeds and is otherwise unchanged; `isConnecting` is false at the end; authentication, user and sidebar are unchanged |
| Dashboard.DashboardPage.HandleSessionState | src/app/dashboard/page.tsx:74-124 | a started session in a connected room is disconnected and both flags cleared, and the sidebar is unchanged; otherwise the log is exactly `StartLog`, the sidebar is closed, and `sessionStarted` becomes true iff every step succeeded (otherwise unchanged); `isConnecting` is false on every path |
| SessionView.IsAgentAvailable | src/components/SessionView.tsx:14-16 | available exactly in listening, thinking and speaking; `UnavailableStates` states the complement, and `SphereActive` and `WatchdogDecision` are built on it |
| SessionView.UnavailableStates | src/components/SessionView.tsx:14-16 | the agent is unavailable exactly in disconnected, connecting, pre-connect-buffering and initializing |
| SessionView.WatchdogDecision | src/components/SessionView.tsx:44-53 | the callback acts iff the captured state is unavailable; it alerts `Agent timeout`; the reason is the not-joined text iff the state is connecting, and otherwise the not-initialized text |
| SessionView.SphereActive | src/components/SessionView.tsx:73 | active iff the session is started and the agent is listening, thinking or speaking |
| SessionView.SphereClickable | src/components/SessionView.tsx:74 | the sphere has a click handler iff the page is not connecting |
| SessionView.Watchdog.constructor | src/components/SessionView.tsx:41 | no effect has run and no timer is pending |
| SessionView.Watchdog.Render | src/components/SessionView.tsx:41-58 | with unchanged dependencies nothing happens; on a change the pending timer is cleared and a 20000 ms timer is armed for the current state iff the session is started; a pending timer always belongs to a started session and to the latest state |
| SessionView.Watchdog.TimerFired | src/components/SessionView.tsx:43-54 | the decision for the captured state; it disconnects iff the agent is unavailable, and only in a started session; the timer is gone afterwards |
| SessionView.Watchdog.Unmount | src/components/SessionView.tsx:56 | the pending timer, if any, is cleared |
| SessionView.RestartOnStateChange | src/components/SessionView.tsx:56-58 | in a started session, a render with a new agent state leaves a fresh 20000 ms timer pending for that state |

## Left out

- Rendering is not modelled: JSX, CSS, the loading screens, the sphere's visuals, the sidebar's `open` toggling by its trigger, and the greeting that `SessionView` reads from `localStorage`. None of it makes a decision the model needs.
- The network, LiveKit, the browser's media devices, `localStorage`, `JSON.parse`, `decodeJwt`, `window.alert`, the router and the clock are outside the model. Their results are inputs and their calls are outputs.
- `getUserSessions` is not defined in `src/lib/api.ts`. Its outcome is an input, with the status it may carry.
- React scheduling is simplified: state writes are immediate field writes, and closures see the current fields. Two overlapping `handleSessionState` calls are not modelled, because the code has no guard against them.
- The Disconnected event that `room.disconnect()` raises is a separate event (`OnDisconnected`). It is not folded into `HandleSessionState` or `TimerFired`.
- `new Date(...)` is modelled as integer milliseconds: invalid or out-of-range dates and non-integer `exp` claims are not modelled.
- Console logging is left out. Only the watchdog's reason is kept, in `Timeout.reason`.
- The dashboard's unused `isLoading` cell is left out.
- AuthenticatedLayout.Layout.LoadMoreSessions: the page's groups must be distinct objects that are not already in the list, because `JSON.parse` builds fresh objects. A malformed group that would throw inside the `forEach` is not modelled.
- AuthenticatedLayout.Layout.CheckAuthAndFetchData: the page's groups must be distinct objects, for the same reason.
- SessionView.RestartOnStateChange does not state whether a timer was cleared, because that depends on whether the previous timer had already fired.
